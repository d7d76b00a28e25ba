/** When evicting idle buckets changes no decision, and what that bounds. */
module RateLimiterEviction {
  import opened Wrappers
  import opened RateLimiter
  import opened RateLimiterProtocol

  /** A caller may hold its limiter for `delay` ticks, so a bucket may have been used that much later
      than its entry's access time; it is evicted at the earliest one tick after the TTL. If what it
      earns in between refills it, forgetting it is harmless. */
  predicate RefillsBeforeEviction(p: Params, delay: nat)
  {
    Earned(p, p.ttl + 1 - delay) >= p.burst as real
  }

  predicate Valid(p: Params, delay: nat) { p.rate >= 0.0 && p.burst >= 1 && delay <= p.ttl }

  // ---- the flat map simulates the sharded one ----------------------------------------------

  /** The state of address `a` on both sides. */
  ghost predicate InStep(p: Params, delay: nat, s: Sys, a: string)
  {
    && Sane(p, FlatOf(p, s, a), s.clock)
    && if Present(p, s.table, a) then
         var e := EntryOf(p, s.table, a);
         && e.limiter in s.table.limiters
         && var b := s.table.limiters[e.limiter];
         && Sane(p, b, s.clock) && e.lastAccess <= s.clock && b.last <= e.lastAccess + delay
         && Tokens(p, b, s.clock) == Tokens(p, FlatOf(p, s, a), s.clock)
       else
         Tokens(p, FlatOf(p, s, a), s.clock) == p.burst as real
  }

  /** A caller's limiter is still the one in the table. */
  ghost predicate Held(p: Params, delay: nat, s: Sys, c: nat)
  {
    c in s.pcs && s.pcs[c].Holding? ==>
      && Present(p, s.table, s.pcs[c].ip) && EntryOf(p, s.table, s.pcs[c].ip).limiter == s.pcs[c].limiter
      && s.pcs[c].since <= EntryOf(p, s.table, s.pcs[c].ip).lastAccess
      && s.pcs[c].since <= s.clock <= s.pcs[c].since + delay
  }

  ghost predicate Alike(log: seq<Decision>) { forall i :: 0 <= i < |log| ==> log[i].sharded == log[i].flat }

  ghost predicate Inv(p: Params, delay: nat, s: Sys)
  {
    && Structured(p, s)
    && (forall a :: InStep(p, delay, s, a))
    && (forall c :: Held(p, delay, s, c))
    && (s.cleaner.Sweeping? ==> s.cleaner.cutoff <= s.clock - p.ttl)
    && Alike(s.log)
  }

  lemma FullTokens(p: Params, now: int)
    ensures Tokens(p, Full(p, now), now) == p.burst as real && Sane(p, Full(p, now), now)
  {
  }

  lemma TickKeepsInv(p: Params, delay: nat, s: Sys, d: nat)
    requires Valid(p, delay) && Inv(p, delay, s) && Prompt(s, d, delay)
    ensures Inv(p, delay, s.(clock := s.clock + d))
  {
    hide Structured, Earned, Tokens;
    var s' := s.(clock := s.clock + d);
    assert Structured(p, s') by { SameTable(p, s, s'); }
    forall a ensures InStep(p, delay, s', a) {
      assert InStep(p, delay, s, a);
      FullTokens(p, s'.clock);
      FullTokens(p, s.clock);
      TokensLater(p, FlatOf(p, s, a), s.clock, d);
      if Present(p, s.table, a) {
        TokensLater(p, s.table.limiters[EntryOf(p, s.table, a).limiter], s.clock, d);
      }
      if a !in s.flat && Present(p, s.table, a) {
        FullStaysFull(p, s.table.limiters[EntryOf(p, s.table, a).limiter], s.clock, d);
      }
      if !Present(p, s.table, a) {
        FullStaysFull(p, FlatOf(p, s, a), s.clock, d);
      }
    }
    forall c ensures Held(p, delay, s', c) {
      assert Held(p, delay, s, c);
    }
  }

  lemma FullStaysFull(p: Params, b: Bucket, now: int, d: nat)
    requires p.rate >= 0.0 && Sane(p, b, now) && Tokens(p, b, now) == p.burst as real
    ensures Tokens(p, b, now + d) == p.burst as real
  {
    TokensLater(p, b, now, d);
    EarnedAdds(p, 0, d);
  }

  lemma SameTable(p: Params, s: Sys, s': Sys)
    requires Structured(p, s) && s'.table == s.table && s'.cleaner == s.cleaner
    ensures Structured(p, s')
  {
  }

  lemma FoundKeepsInv(p: Params, delay: nat, s: Sys, c: nat, ip: string)
    requires Valid(p, delay) && Inv(p, delay, s) && Present(p, s.table, ip)
    ensures Structured(p, Found(p, s, c, ip)) ==> Inv(p, delay, Found(p, s, c, ip))
  {
    hide Structured, Tokens, ShardOf, Put;
    var s' := Found(p, s, c, ip);
    var e := EntryOf(p, s.table, ip).(lastAccess := s.clock);
    assert Placed(p, s.table) by { PlacedOf(p, s); }
    forall a ensures InStep(p, delay, s', a) {
      assert InStep(p, delay, s, a) && InStep(p, delay, s, ip);
      PutIsPointwise(p, s.table, ip, e, a);
      TouchKeepsLimiters(p, s.table, ip, s.clock);
    }
    forall d ensures Held(p, delay, s', d) {
      assert Held(p, delay, s, d);
      PutIsPointwise(p, s.table, ip, e, ip);
      if d in s'.pcs && s'.pcs[d].Holding? {
        PutIsPointwise(p, s.table, ip, e, s'.pcs[d].ip);
      }
    }
  }

  lemma PlacedOf(p: Params, s: Sys)
    requires Structured(p, s)
    ensures Placed(p, s.table) && OwnLimiters(p, s.table)
  {
  }

  lemma TouchKeepsLimiters(p: Params, t: Table, ip: string, now: int)
    requires Present(p, t, ip)
    ensures Touch(p, t, ip, now).limiters == t.limiters
  {
  }

  lemma CreatedKeepsInv(p: Params, delay: nat, s: Sys, c: nat, ip: string)
    requires Valid(p, delay) && Inv(p, delay, s) && !Present(p, s.table, ip)
    requires |s.table.shards| == NUM_SHARDS
    ensures Structured(p, Created(p, s, c, ip)) ==> Inv(p, delay, Created(p, s, c, ip))
  {
    hide Structured, Tokens, ShardOf, Insert, Full, Earned;
    var s' := Created(p, s, c, ip);
    PlacedOf(p, s);
    InsertStructured(p, s.table, ip, s.clock);
    InsertLimiters(p, s.table, ip, s.clock);
    FullTokens(p, s.clock);
    FullIsNew(p, s.clock);
    forall a ensures InStep(p, delay, s', a) {
      assert InStep(p, delay, s, a);
    }
    forall d ensures Held(p, delay, s', d) {
      assert Held(p, delay, s, d);
    }
  }

  lemma FullIsNew(p: Params, now: int)
    ensures Full(p, now).last == now
  {
  }

  lemma InsertLimiters(p: Params, t: Table, ip: string, now: int)
    requires |t.shards| == NUM_SHARDS
    ensures Insert(p, t, ip, now).limiters == t.limiters[t.nextId := Full(p, now)]
  {
  }

  lemma DecidedKeepsInv(p: Params, delay: nat, s: Sys, c: nat)
    requires Valid(p, delay) && Inv(p, delay, s) && PcOf(s, c).Holding? && PcOf(s, c).limiter in s.table.limiters
    ensures var s' := Decided(p, s, c, PcOf(s, c).ip, PcOf(s, c).limiter); Structured(p, s') ==> Inv(p, delay, s')
  {
    hide Structured, Tokens, ShardOf, Take;
    var ip, id := PcOf(s, c).ip, PcOf(s, c).limiter;
    var s' := Decided(p, s, c, ip, id);
    PlacedOf(p, s);
    assert Held(p, delay, s, c) && InStep(p, delay, s, ip);
    TakeSane(p, s.table.limiters[id], s.clock);
    TakeSane(p, FlatOf(p, s, ip), s.clock);
    TakeDepends(p, s.table.limiters[id], FlatOf(p, s, ip), s.clock);
    forall a ensures InStep(p, delay, s', a) {
      assert InStep(p, delay, s, a);
      assert Present(p, s'.table, a) <==> Present(p, s.table, a);
      if a != ip && Present(p, s.table, a) {
        assert EntryOf(p, s.table, a).limiter != id;
      }
    }
    forall d ensures Held(p, delay, s', d) {
      assert Held(p, delay, s, d);
    }
  }

  lemma TakeDepends(p: Params, b: Bucket, f: Bucket, now: int)
    requires Tokens(p, b, now) == Tokens(p, f, now)
    ensures Take(p, b, now).1 == Take(p, f, now).1
  {
  }

  /** An entry old enough to be evicted belongs to a bucket that is full again. */
  lemma EvictedIsFull(p: Params, delay: nat, b: Bucket, lastAccess: int, cutoff: int, now: int)
    requires Valid(p, delay) && RefillsBeforeEviction(p, delay)
    requires Sane(p, b, now) && b.last <= lastAccess + delay && lastAccess < cutoff <= now - p.ttl
    ensures Tokens(p, b, now) == p.burst as real
  {
    var least := p.ttl + 1 - delay;
    EarnedAdds(p, least, now - b.last - least);
    assert least + (now - b.last - least) == now - b.last;
  }

  lemma SweptKeepsInv(p: Params, delay: nat, s: Sys)
    requires Valid(p, delay) && RefillsBeforeEviction(p, delay) && Inv(p, delay, s)
    requires s.cleaner.Sweeping? && s.cleaner.next < NUM_SHARDS == |s.table.shards|
    ensures Structured(p, Swept(s)) ==> Inv(p, delay, Swept(s))
  {
    hide Structured, Tokens, ShardOf, Kept, RefillsBeforeEviction;
    var s' := Swept(s);
    PlacedOf(p, s);
    forall a ensures InStep(p, delay, s', a) {
      assert InStep(p, delay, s, a);
      SweepIsPointwise(p, s.table, s.cleaner.next, s.cleaner.cutoff, a);
      if Present(p, s.table, a) && !Present(p, s'.table, a) {
        var e := EntryOf(p, s.table, a);
        EvictedIsFull(p, delay, s.table.limiters[e.limiter], e.lastAccess, s.cleaner.cutoff, s.clock);
      }
    }
    forall c ensures Held(p, delay, s', c) {
      assert Held(p, delay, s, c);
      if c in s.pcs && s.pcs[c].Holding? {
        SweepIsPointwise(p, s.table, s.cleaner.next, s.cleaner.cutoff, s.pcs[c].ip);
      }
    }
  }

  lemma BookkeepingKeepsInv(p: Params, delay: nat, s: Sys, s': Sys)
    requires Inv(p, delay, s) && Structured(p, s')
    requires s'.table.shards == s.table.shards && s'.table.limiters == s.table.limiters
    requires s'.clock == s.clock && s'.flat == s.flat && s'.log == s.log
    requires forall c :: c in s'.pcs && s'.pcs[c].Holding? ==> c in s.pcs && s.pcs[c] == s'.pcs[c]
    requires s'.cleaner.Sweeping? ==> s'.cleaner.cutoff <= s.clock - p.ttl
    ensures Inv(p, delay, s')
  {
    hide Structured, Tokens, ShardOf;
    forall a ensures InStep(p, delay, s', a) {
      assert InStep(p, delay, s, a);
    }
    forall c ensures Held(p, delay, s', c) {
      assert Held(p, delay, s, c);
    }
  }

  lemma NextKeepsInv(p: Params, delay: nat, s: Sys, step: Step)
    requires Valid(p, delay) && RefillsBeforeEviction(p, delay) && Inv(p, delay, s)
    ensures Inv(p, delay, Next(p, delay, s, step))
  {
    hide InStep, Held, Structured, RefillsBeforeEviction, Alike, Found, Created, Decided, Swept, Prompt, Present;
    NextStructured(p, delay, s, step);
    PlacedOf(p, s);
    match step
    case Tick(d) => if Prompt(s, d, delay) { TickKeepsInv(p, delay, s, d); }
    case Look(c, ip) =>
      if PcOf(s, c) == Idle {
        if Present(p, s.table, ip) { FoundKeepsInv(p, delay, s, c, ip); }
        else { BookkeepingKeepsInv(p, delay, s, s.(pcs := s.pcs[c := Missed(ip)])); }
      }
    case Create(c) =>
      if PcOf(s, c).Missed? {
        if Present(p, s.table, PcOf(s, c).ip) { FoundKeepsInv(p, delay, s, c, PcOf(s, c).ip); }
        else { CreatedKeepsInv(p, delay, s, c, PcOf(s, c).ip); }
      }
    case Ask(c) =>
      if PcOf(s, c).Holding? && PcOf(s, c).limiter in s.table.limiters { DecidedKeepsInv(p, delay, s, c); }
    case StartCleanup => BookkeepingKeepsInv(p, delay, s, Next(p, delay, s, step));
    case SweepShard =>
      if s.cleaner.Sweeping? && s.cleaner.next < NUM_SHARDS { SweptKeepsInv(p, delay, s); }
    case FinishCleanup => BookkeepingKeepsInv(p, delay, s, Next(p, delay, s, step));
  }

  lemma StartInv(p: Params, delay: nat, clock: int)
    ensures Inv(p, delay, Start(clock))
  {
    StartStructured(p, clock);
    FullTokens(p, clock);
  }

  lemma {:induction false} ExecInv(p: Params, delay: nat, clock: int, steps: seq<Step>)
    requires Valid(p, delay) && RefillsBeforeEviction(p, delay)
    ensures Inv(p, delay, Exec(p, delay, clock, steps))
  {
    hide Inv, Next, Start, RefillsBeforeEviction;
    if steps == [] {
      StartInv(p, delay, clock);
    } else {
      ExecInv(p, delay, clock, steps[..|steps| - 1]);
      NextKeepsInv(p, delay, Exec(p, delay, clock, steps[..|steps| - 1]), steps[|steps| - 1]);
    }
  }

  // ---- a run that tells the two apart ------------------------------------------------------

  /** The bucket that the sharded limiter would use for `ip` now. */
  function BucketFor(p: Params, s: Sys, ip: string): Bucket
  {
    if Present(p, s.table, ip) && EntryOf(p, s.table, ip).limiter in s.table.limiters
    then s.table.limiters[EntryOf(p, s.table, ip).limiter] else Full(p, s.clock)
  }

  function Get2(p: Params, delay: nat, s: Sys, c: nat, ip: string): Sys
  {
    Next(p, delay, Next(p, delay, s, Look(c, ip)), Create(c))
  }

  /** A lookup, followed by a creation if it missed, leaves the caller holding the address's limiter. */
  lemma GetHolds(p: Params, delay: nat, s: Sys, c: nat, ip: string)
    requires Structured(p, s) && PcOf(s, c) == Idle
    ensures var s' := Get2(p, delay, s, c, ip);
      && Structured(p, s') && Present(p, s'.table, ip) && EntryOf(p, s'.table, ip).lastAccess == s.clock
      && EntryOf(p, s'.table, ip).limiter in s'.table.limiters
      && (Present(p, s.table, ip) ==> EntryOf(p, s'.table, ip).limiter == EntryOf(p, s.table, ip).limiter)
      && s'.pcs == s.pcs[c := Holding(ip, EntryOf(p, s'.table, ip).limiter, s.clock)]
      && BucketFor(p, s', ip) == BucketFor(p, s, ip)
      && s' == s.(table := s'.table, pcs := s'.pcs)
  {
    hide Structured, ShardOf, Full;
    var looked := Next(p, delay, s, Look(c, ip));
    PlacedOf(p, s);
    NextStructured(p, delay, s, Look(c, ip));
    NextStructured(p, delay, looked, Create(c));
    if Present(p, s.table, ip) {
      PutIsPointwise(p, s.table, ip, EntryOf(p, s.table, ip).(lastAccess := s.clock), ip);
    } else {
      PutIsPointwise(p, s.table, ip, Entry(s.table.nextId, s.clock), ip);
    }
  }

  lemma AskTakes(p: Params, delay: nat, s: Sys, c: nat, ip: string)
    requires Structured(p, s) && Present(p, s.table, ip)
    requires PcOf(s, c).Holding? && PcOf(s, c).ip == ip && PcOf(s, c).limiter == EntryOf(p, s.table, ip).limiter
    ensures var s' := Next(p, delay, s, Ask(c));
      && Structured(p, s') && s'.table.shards == s.table.shards && s'.table.limiters.Keys == s.table.limiters.Keys
      && s'.pcs == s.pcs[c := Idle] && s'.clock == s.clock && s'.cleaner == s.cleaner
      && BucketFor(p, s', ip) == Take(p, BucketFor(p, s, ip), s.clock).0
      && FlatOf(p, s', ip) == Take(p, FlatOf(p, s, ip), s.clock).0
      && s'.log == s.log + [Decision(ip, s.clock, Take(p, BucketFor(p, s, ip), s.clock).1, Take(p, FlatOf(p, s, ip), s.clock).1)]
  {
    hide Structured, ShardOf, Take;
    PlacedOf(p, s);
    NextStructured(p, delay, s, Ask(c));
  }

  // Phase one: `burst` callers obtain the limiter at once, hold it for `delay`, and use it up.

  function Gets(k: nat, ip: string): seq<Step>
  {
    if k == 0 then [] else Gets(k - 1, ip) + [Look(k - 1, ip)] + [Create(k - 1)]
  }

  function Asks(k: nat): seq<Step>
  {
    if k == 0 then [] else Asks(k - 1) + [Ask(k - 1)]
  }

  lemma ExecSnoc(p: Params, delay: nat, s: Sys, steps: seq<Step>, x: Step)
    ensures ExecFrom(p, delay, s, steps + [x]) == Next(p, delay, ExecFrom(p, delay, s, steps), x)
  {
    assert (steps + [x])[..|steps|] == steps;
  }

  /** Callers below `lo` are done, those from `lo` to `hi` hold the limiter of `ip` since `since`. */
  ghost predicate Queue(p: Params, s: Sys, ip: string, lo: nat, hi: nat, since: int)
  {
    && Structured(p, s) && lo <= hi
    && (forall c :: c in s.pcs ==> c < hi)
    && (forall c: nat :: c < lo ==> PcOf(s, c) == Idle)
    && (lo < hi || hi > 0 ==> Present(p, s.table, ip) && EntryOf(p, s.table, ip).lastAccess == since)
    && (forall c: nat :: lo <= c < hi ==> PcOf(s, c) == Holding(ip, EntryOf(p, s.table, ip).limiter, since))
  }

  lemma {:induction false} GetsQueueUp(p: Params, delay: nat, clock: int, k: nat, ip: string)
    ensures var s := ExecFrom(p, delay, Start(clock), Gets(k, ip));
      && Queue(p, s, ip, 0, k, clock) && s.clock == clock && s.cleaner == Resting && s.flat == map[]
      && BucketFor(p, s, ip) == Full(p, clock)
  {
    hide Next, Queue, BucketFor, Full, Start;
    if k == 0 {
      StartQueue(p, clock, ip);
    } else {
      GetsQueueUp(p, delay, clock, k - 1, ip);
      var s := ExecFrom(p, delay, Start(clock), Gets(k - 1, ip));
      ExecSnoc(p, delay, Start(clock), Gets(k - 1, ip), Look(k - 1, ip));
      ExecSnoc(p, delay, Start(clock), Gets(k - 1, ip) + [Look(k - 1, ip)], Create(k - 1));
      QueueGrows(p, delay, s, k - 1, ip);
    }
  }

  lemma StartQueue(p: Params, clock: int, ip: string)
    ensures Queue(p, Start(clock), ip, 0, 0, clock) && BucketFor(p, Start(clock), ip) == Full(p, clock)
    ensures Start(clock).clock == clock && Start(clock).cleaner == Resting && Start(clock).flat == map[]
  {
    StartStructured(p, clock);
  }

  lemma QueueGrows(p: Params, delay: nat, s: Sys, k: nat, ip: string)
    requires Queue(p, s, ip, 0, k, s.clock)
    ensures var s' := Get2(p, delay, s, k, ip);
      && Queue(p, s', ip, 0, k + 1, s.clock)
      && s'.clock == s.clock && s'.cleaner == s.cleaner && s'.flat == s.flat
      && BucketFor(p, s', ip) == BucketFor(p, s, ip)
  {
    hide Structured, ShardOf, Get2, BucketFor;
    assert PcOf(s, k) == Idle;
    GetHolds(p, delay, s, k, ip);
    var s' := Get2(p, delay, s, k, ip);
    forall c: nat | c < k + 1 ensures PcOf(s', c) == Holding(ip, EntryOf(p, s'.table, ip).limiter, s.clock) {
      assert c == k || PcOf(s', c) == PcOf(s, c);
    }
  }

  // The tokens left once `k` of the queued callers have been let in.

  lemma {:induction false} AsksDrain(p: Params, delay: nat, s: Sys, k: nat, n: nat, ip: string, since: int)
    requires p.rate >= 0.0 && k <= n == p.burst && n > 0
    requires Queue(p, s, ip, 0, n, since) && Sane(p, BucketFor(p, s, ip), s.clock) && Sane(p, FlatOf(p, s, ip), s.clock)
    requires Tokens(p, BucketFor(p, s, ip), s.clock) == p.burst as real == Tokens(p, FlatOf(p, s, ip), s.clock)
    ensures var s' := ExecFrom(p, delay, s, Asks(k));
      && Queue(p, s', ip, k, n, since) && s'.clock == s.clock && s'.cleaner == s.cleaner
      && Sane(p, BucketFor(p, s', ip), s.clock) && Sane(p, FlatOf(p, s', ip), s.clock)
      && Tokens(p, BucketFor(p, s', ip), s.clock) == (n - k) as real == Tokens(p, FlatOf(p, s', ip), s.clock)
  {
    hide Next, Queue, BucketFor, FlatOf, Tokens;
    if k > 0 {
      AsksDrain(p, delay, s, k - 1, n, ip, since);
      ExecSnoc(p, delay, s, Asks(k - 1), Ask(k - 1));
      AskDrains(p, delay, ExecFrom(p, delay, s, Asks(k - 1)), k - 1, n, ip, since);
    }
  }

  lemma AskDrains(p: Params, delay: nat, s: Sys, k: nat, n: nat, ip: string, since: int)
    requires p.rate >= 0.0 && k < n == p.burst
    requires Queue(p, s, ip, k, n, since) && Sane(p, BucketFor(p, s, ip), s.clock) && Sane(p, FlatOf(p, s, ip), s.clock)
    requires Tokens(p, BucketFor(p, s, ip), s.clock) == (n - k) as real == Tokens(p, FlatOf(p, s, ip), s.clock)
    ensures var s' := Next(p, delay, s, Ask(k));
      && Queue(p, s', ip, k + 1, n, since) && s'.clock == s.clock && s'.cleaner == s.cleaner
      && Sane(p, BucketFor(p, s', ip), s.clock) && Sane(p, FlatOf(p, s', ip), s.clock)
      && Tokens(p, BucketFor(p, s', ip), s.clock) == (n - (k + 1)) as real == Tokens(p, FlatOf(p, s', ip), s.clock)
  {
    hide Structured, ShardOf, Next, BucketFor, FlatOf, Tokens;
    assert PcOf(s, k) == Holding(ip, EntryOf(p, s.table, ip).limiter, since);
    AskTakes(p, delay, s, k, ip);
    TakeSane(p, BucketFor(p, s, ip), s.clock);
    TakeSane(p, FlatOf(p, s, ip), s.clock);
    assert (n - k) as real == (n - (k + 1)) as real + 1.0;
    var s' := Next(p, delay, s, Ask(k));
    assert Present(p, s'.table, ip) && EntryOf(p, s'.table, ip) == EntryOf(p, s.table, ip);
    forall c: nat | c < n ensures PcOf(s', c) == if c < k + 1 then Idle else Holding(ip, EntryOf(p, s'.table, ip).limiter, since) {
      assert c == k || PcOf(s', c) == PcOf(s, c);
    }
  }

  // Phase two: the idle address is evicted one tick after its TTL.

  function Sweeps(k: nat): seq<Step>
  {
    if k == 0 then [] else Sweeps(k - 1) + [SweepShard]
  }

  lemma {:induction false} SweepsReach(p: Params, delay: nat, s: Sys, k: nat, ip: string)
    requires Structured(p, s) && s.cleaner.Sweeping? && s.cleaner.next == 0 && k <= NUM_SHARDS
    requires Present(p, s.table, ip) && EntryOf(p, s.table, ip).lastAccess < s.cleaner.cutoff
    ensures var s' := ExecFrom(p, delay, s, Sweeps(k));
      && Structured(p, s') && s'.cleaner.Sweeping? && s'.cleaner.next == k && s'.cleaner.cutoff == s.cleaner.cutoff
      && (Present(p, s'.table, ip) <==> ShardOf(p, ip) >= k)
      && (Present(p, s'.table, ip) ==> EntryOf(p, s'.table, ip) == EntryOf(p, s.table, ip))
      && s'.clock == s.clock && s'.flat == s.flat && s'.pcs == s.pcs
  {
    hide Structured, ShardOf, Kept, Next;
    if k > 0 {
      SweepsReach(p, delay, s, k - 1, ip);
      var before := ExecFrom(p, delay, s, Sweeps(k - 1));
      ExecSnoc(p, delay, s, Sweeps(k - 1), SweepShard);
      SweepOnce(p, delay, before, ip);
    }
  }

  lemma SweepOnce(p: Params, delay: nat, s: Sys, ip: string)
    requires Structured(p, s) && s.cleaner.Sweeping? && s.cleaner.next < NUM_SHARDS
    ensures var s' := Next(p, delay, s, SweepShard);
      && Structured(p, s') && s'.cleaner.Sweeping? && s'.cleaner.next == s.cleaner.next + 1 && s'.cleaner.cutoff == s.cleaner.cutoff
      && (Present(p, s'.table, ip) <==>
            Present(p, s.table, ip) && (ShardOf(p, ip) == s.cleaner.next ==> EntryOf(p, s.table, ip).lastAccess >= s.cleaner.cutoff))
      && (Present(p, s'.table, ip) ==> EntryOf(p, s'.table, ip) == EntryOf(p, s.table, ip))
      && s'.clock == s.clock && s'.flat == s.flat && s'.pcs == s.pcs
  {
    hide Structured, ShardOf, Kept;
    NextStructured(p, delay, s, SweepShard);
    PlacedOf(p, s);
    SweepIsPointwise(p, s.table, s.cleaner.next, s.cleaner.cutoff, ip);
  }

  // Phase three: one caller asks again and again; the new bucket is full, the flat one is not.

  function Rounds(k: nat, ip: string): seq<Step>
  {
    if k == 0 then [] else Rounds(k - 1, ip) + [Look(0, ip)] + [Create(0)] + [Ask(0)]
  }

  /** After `k` rounds: the sharded bucket has paid for each; so has the flat one, if they still agree. */
  ghost predicate Behind(p: Params, s: Sys, ip: string, k: nat, refilled: real, now: int)
  {
    && Structured(p, s) && PcOf(s, 0) == Idle && s.clock == now && k <= p.burst
    && Sane(p, BucketFor(p, s, ip), now) && Sane(p, FlatOf(p, s, ip), now)
    && Tokens(p, BucketFor(p, s, ip), now) == (p.burst - k) as real
    && (Alike(s.log) ==> Tokens(p, FlatOf(p, s, ip), now) == refilled - k as real)
  }

  lemma RoundKeepsBehind(p: Params, delay: nat, s: Sys, ip: string, k: nat, refilled: real, now: int)
    requires p.rate >= 0.0 && k < p.burst && Behind(p, s, ip, k, refilled, now)
    ensures Behind(p, Next(p, delay, Get2(p, delay, s, 0, ip), Ask(0)), ip, k + 1, refilled, now)
  {
    hide Structured, ShardOf, Get2, Next, BucketFor, Tokens;
    GetHolds(p, delay, s, 0, ip);
    var got := Get2(p, delay, s, 0, ip);
    assert FlatOf(p, got, ip) == FlatOf(p, s, ip);
    AskTakes(p, delay, got, 0, ip);
    var s' := Next(p, delay, got, Ask(0));
    TakeSane(p, BucketFor(p, s, ip), now);
    TakeSane(p, FlatOf(p, s, ip), now);
    assert (p.burst - k) as real == (p.burst - (k + 1)) as real + 1.0 >= 1.0;
    if Alike(s'.log) {
      assert s'.log[|s.log|].sharded == s'.log[|s.log|].flat;
      assert forall i :: 0 <= i < |s.log| ==> s'.log[i] == s.log[i];
      assert (k + 1) as real == k as real + 1.0;
    }
  }

  lemma {:induction false} RoundsKeepBehind(p: Params, delay: nat, s: Sys, ip: string, k: nat, refilled: real, now: int)
    requires p.rate >= 0.0 && k <= p.burst && Behind(p, s, ip, 0, refilled, now)
    ensures Behind(p, ExecFrom(p, delay, s, Rounds(k, ip)), ip, k, refilled, now)
  {
    hide Behind, Next;
    if k > 0 {
      RoundsKeepBehind(p, delay, s, ip, k - 1, refilled, now);
      var r := Rounds(k - 1, ip);
      ExecSnoc(p, delay, s, r, Look(0, ip));
      ExecSnoc(p, delay, s, r + [Look(0, ip)], Create(0));
      ExecSnoc(p, delay, s, r + [Look(0, ip)] + [Create(0)], Ask(0));
      RoundKeepsBehind(p, delay, ExecFrom(p, delay, s, r), ip, k - 1, refilled, now);
    }
  }

  lemma QueueWaits(p: Params, delay: nat, s: Sys, ip: string, n: nat)
    requires Queue(p, s, ip, 0, n, s.clock) && n > 0
    ensures var s' := Next(p, delay, s, Tick(delay));
      && s' == s.(clock := s.clock + delay) && Queue(p, s', ip, 0, n, s.clock) && BucketFor(p, s', ip) == BucketFor(p, s, ip)
  {
    hide Structured, ShardOf;
    PlacedOf(p, s);
    assert Prompt(s, delay, delay) by {
      forall c | c in s.pcs && s.pcs[c].Holding? ensures s.clock + delay - s.pcs[c].since <= delay {
        assert PcOf(s, c).since == s.clock;
      }
    }
    var s' := s.(clock := s.clock + delay);
    SameTable(p, s, s');
    assert forall c :: PcOf(s', c) == PcOf(s, c);
  }

  /** Phase one as a whole: at `clock + delay` the bucket is empty on both sides, and the entry was last
      accessed at `clock`. */
  function UseUp(p: Params, delay: nat, ip: string): seq<Step>
  {
    Gets(p.burst, ip) + [Tick(delay)] + Asks(p.burst)
  }

  lemma UsesUp(p: Params, delay: nat, clock: int, ip: string)
    requires Valid(p, delay)
    ensures var s := ExecFrom(p, delay, Start(clock), UseUp(p, delay, ip));
      && Queue(p, s, ip, p.burst, p.burst, clock) && s.clock == clock + delay && s.cleaner == Resting
      && Sane(p, FlatOf(p, s, ip), s.clock) && Tokens(p, FlatOf(p, s, ip), s.clock) == 0.0
  {
    hide Tokens, Start, Gets, Asks, Structured, ShardOf;
    var queued := ExecFrom(p, delay, Start(clock), Gets(p.burst, ip));
    GetsQueueUp(p, delay, clock, p.burst, ip);
    ExecSnoc(p, delay, Start(clock), Gets(p.burst, ip), Tick(delay));
    var waited := Next(p, delay, queued, Tick(delay));
    QueueWaits(p, delay, queued, ip, p.burst);
    FullTokens(p, clock);
    FullStaysFull(p, Full(p, clock), clock, delay);
    FullTokens(p, clock + delay);
    AsksDrain(p, delay, waited, p.burst, p.burst, ip, clock);
    ExecConcat(p, delay, Start(clock), Gets(p.burst, ip) + [Tick(delay)], Asks(p.burst));
  }

  function Expire(p: Params, delay: nat, ip: string): seq<Step>
    requires delay <= p.ttl
  {
    [Tick(p.ttl + 1 - delay)] + [StartCleanup] + Sweeps(ShardOf(p, ip) + 1)
  }

  lemma Expires(p: Params, delay: nat, s: Sys, clock: int, ip: string)
    requires Valid(p, delay) && Queue(p, s, ip, p.burst, p.burst, clock) && s.clock == clock + delay && s.cleaner == Resting
    requires Sane(p, FlatOf(p, s, ip), s.clock) && Tokens(p, FlatOf(p, s, ip), s.clock) == 0.0 && ip in s.flat
    ensures var s' := ExecFrom(p, delay, s, Expire(p, delay, ip));
      Behind(p, s', ip, 0, Least(p.burst as real, Earned(p, p.ttl + 1 - delay)), clock + p.ttl + 1)
  {
    hide Structured, ShardOf, Tokens, Sweeps, Earned, Queue, Next, Sane;
    var w := p.ttl + 1 - delay;
    var cleaning := ExecFrom(p, delay, s, [Tick(w)] + [StartCleanup]);
    CleanupStarts(p, delay, s, clock, ip);
    SweepsReach(p, delay, cleaning, ShardOf(p, ip) + 1, ip);
    ExecConcat(p, delay, s, [Tick(w)] + [StartCleanup], Sweeps(ShardOf(p, ip) + 1));
    FlatRefills(p, FlatOf(p, s, ip), s.clock, w);
    FullTokens(p, clock + p.ttl + 1);
  }

  lemma FlatRefills(p: Params, b: Bucket, now: int, w: nat)
    requires p.rate >= 0.0 && Sane(p, b, now) && Tokens(p, b, now) == 0.0
    ensures Sane(p, b, now + w) && Tokens(p, b, now + w) == Least(p.burst as real, Earned(p, w))
  {
    TokensLater(p, b, now, w);
  }

  lemma CleanupStarts(p: Params, delay: nat, s: Sys, clock: int, ip: string)
    requires Valid(p, delay) && Queue(p, s, ip, p.burst, p.burst, clock) && s.clock == clock + delay && s.cleaner == Resting
    ensures var s' := ExecFrom(p, delay, s, [Tick(p.ttl + 1 - delay)] + [StartCleanup]);
      && Structured(p, s') && s'.cleaner == Sweeping(clock + 1, 0, 0) && s'.clock == clock + p.ttl + 1
      && s'.flat == s.flat && s'.log == s.log && PcOf(s', 0) == Idle
      && Present(p, s'.table, ip) && EntryOf(p, s'.table, ip).lastAccess == clock
  {
    hide Structured, ShardOf;
    var w := p.ttl + 1 - delay;
    var later := s.(clock := s.clock + w);
    assert Prompt(s, w, delay) by {
      forall c | c in s.pcs ensures !s.pcs[c].Holding? { assert PcOf(s, c) == Idle; }
    }
    PlacedOf(p, s);
    assert Next(p, delay, s, Tick(w)) == later;
    var cleaning := later.(cleaner := Sweeping(clock + 1, 0, 0));
    assert Next(p, delay, later, StartCleanup) == cleaning;
    ExecSnoc(p, delay, s, [], Tick(w));
    ExecSnoc(p, delay, s, [Tick(w)], StartCleanup);
    assert [] + [Tick(w)] == [Tick(w)];
    CleaningStructured(p, s, cleaning);
    assert PcOf(s, 0) == Idle;
  }

  lemma CleaningStructured(p: Params, s: Sys, s': Sys)
    requires Structured(p, s) && s.cleaner == Resting && s'.table == s.table && s'.cleaner.Sweeping?
    requires s'.cleaner.next == 0 && s'.cleaner.removed == 0
    ensures Structured(p, s')
  {
  }

  ghost predicate EvictionInvisible(p: Params, delay: nat)
  {
    forall clock, steps :: Alike(Exec(p, delay, clock, steps).log)
  }

  lemma EvictionShows(p: Params, delay: nat)
    requires Valid(p, delay) && !RefillsBeforeEviction(p, delay)
    ensures !EvictionInvisible(p, delay)
  {
    hide Next, Start, Earned, UseUp, Expire, Rounds, Structured, Queue;
    var ip: string := "";
    var first := UseUp(p, delay, ip);
    var rest := Expire(p, delay, ip) + Rounds(p.burst, ip);
    var s := ExecFrom(p, delay, Start(0), first);
    UsesUp(p, delay, 0, ip);
    EmptyMeansKnown(p, s, ip);
    Expires(p, delay, s, 0, ip);
    var expired := ExecFrom(p, delay, s, Expire(p, delay, ip));
    var refilled := Least(p.burst as real, Earned(p, p.ttl + 1 - delay));
    RoundsKeepBehind(p, delay, expired, ip, p.burst, refilled, 0 + p.ttl + 1);
    ExecConcat(p, delay, s, Expire(p, delay, ip), Rounds(p.burst, ip));
    var last := ExecFrom(p, delay, s, rest);
    assert !Alike(last.log) by {
      TokensLater(p, FlatOf(p, last, ip), last.clock, 0);
    }
    ExecConcat(p, delay, Start(0), first, rest);
    assert !Alike(Exec(p, delay, 0, first + rest).log);
  }

  lemma EmptyMeansKnown(p: Params, s: Sys, ip: string)
    requires p.burst >= 1 && Tokens(p, FlatOf(p, s, ip), s.clock) == 0.0
    ensures ip in s.flat
  {
    FullTokens(p, s.clock);
  }

  /** Main result: every decision of the sharded, evicting limiter is that of a flat map that never
      forgets, in every interleaving in which callers use a limiter within `delay` ticks, exactly when a
      bucket refills between its last use and its earliest eviction. With `delay` 0 this holds whenever
      `rate * ttl >= burst`. */
  lemma {:induction false} EvictionInvisibleIff(p: Params, delay: nat)
    requires Valid(p, delay)
    ensures EvictionInvisible(p, delay) <==> RefillsBeforeEviction(p, delay)
  {
    hide Exec, RefillsBeforeEviction;
    if RefillsBeforeEviction(p, delay) {
      forall clock, steps ensures Alike(Exec(p, delay, clock, steps).log) {
        ExecInv(p, delay, clock, steps);
      }
    } else {
      EvictionShows(p, delay);
    }
  }

  lemma LongTtlSuffices(p: Params)
    requires p.rate >= 0.0 && p.burst >= 1 && p.rate * p.ttl as real >= p.burst as real
    ensures EvictionInvisible(p, 0)
  {
    EarnedAdds(p, p.ttl, 1);
    EvictionInvisibleIff(p, 0);
  }

  // ---- how much one address can get --------------------------------------------------------

  /** The requests of `ip` that were admitted between `from` and `to`. */
  function Admitted(log: seq<Decision>, ip: string, start: int, end: int): nat
  {
    if log == [] then 0 else
      var d := log[|log| - 1];
      Admitted(log[..|log| - 1], ip, start, end) + if d.ip == ip && start <= d.at <= end && d.sharded then 1 else 0
  }

  /** Admissions so far and tokens left are covered by the burst and what was earned since `start`. */
  ghost predicate Bounded(p: Params, s: Sys, ip: string, start: int, end: int)
  {
    && (s.clock < start ==> Admitted(s.log, ip, start, end) == 0)
    && (start <= s.clock <= end ==>
          Admitted(s.log, ip, start, end) as real + Tokens(p, FlatOf(p, s, ip), s.clock)
          <= p.burst as real + Earned(p, s.clock - start))
    && (end < s.clock ==> Admitted(s.log, ip, start, end) as real <= p.burst as real + Earned(p, end - start))
  }

  lemma DecidedBounded(p: Params, delay: nat, s: Sys, c: nat, ip: string, start: int, end: int)
    requires Valid(p, delay) && Inv(p, delay, s) && Bounded(p, s, ip, start, end) && start <= end
    requires PcOf(s, c).Holding? && PcOf(s, c).limiter in s.table.limiters
    ensures Bounded(p, Decided(p, s, c, PcOf(s, c).ip, PcOf(s, c).limiter), ip, start, end)
  {
    hide Structured, Tokens, Earned, Present, EntryOf;
    var a, id := PcOf(s, c).ip, PcOf(s, c).limiter;
    var s' := Decided(p, s, c, a, id);
    assert s'.log[..|s'.log| - 1] == s.log;
    assert Held(p, delay, s, c) && InStep(p, delay, s, a);
    TakeSane(p, FlatOf(p, s, a), s.clock);
    TakeDepends(p, s.table.limiters[id], FlatOf(p, s, a), s.clock);
  }

  lemma TickBounded(p: Params, delay: nat, s: Sys, d: nat, ip: string, start: int, end: int)
    requires Valid(p, delay) && Inv(p, delay, s) && Bounded(p, s, ip, start, end) && start <= end
    ensures Bounded(p, s.(clock := s.clock + d), ip, start, end)
  {
    hide Structured, Tokens, Earned, Admitted;
    var s' := s.(clock := s.clock + d);
    assert InStep(p, delay, s, ip);
    FullTokens(p, s.clock);
    FullTokens(p, s'.clock);
    TokensLater(p, FlatOf(p, s, ip), s.clock, d);
    FlatLater(p, s, d, ip);
    EarnedSigns(p, s.clock - start, d);
    EarnedSigns(p, s'.clock - start, end - start);
    EarnedSigns(p, s.clock - start, end - s.clock);
    assert s'.clock - start == (s.clock - start) + d && end - start == (s.clock - start) + (end - s.clock);
  }

  lemma EarnedSigns(p: Params, a: int, b: int)
    requires p.rate >= 0.0
    ensures Earned(p, a) >= 0.0 && Earned(p, b) >= 0.0
    ensures a >= 0 && b >= 0 ==> Earned(p, a + b) == Earned(p, a) + Earned(p, b)
  {
    if a >= 0 && b >= 0 { EarnedAdds(p, a, b); }
    if a >= 0 { EarnedAdds(p, a, 0); }
    if b >= 0 { EarnedAdds(p, b, 0); }
  }

  lemma FlatLater(p: Params, s: Sys, d: nat, ip: string)
    requires p.rate >= 0.0 && Sane(p, FlatOf(p, s, ip), s.clock)
    ensures Tokens(p, FlatOf(p, s.(clock := s.clock + d), ip), s.clock + d) <= Tokens(p, FlatOf(p, s, ip), s.clock) + Earned(p, d)
    ensures 0.0 <= Tokens(p, FlatOf(p, s.(clock := s.clock + d), ip), s.clock + d) <= p.burst as real
    ensures 0.0 <= Tokens(p, FlatOf(p, s, ip), s.clock)
  {
    hide Tokens, Earned;
    TokensLater(p, FlatOf(p, s, ip), s.clock, d);
    FullTokens(p, s.clock);
    FullTokens(p, s.clock + d);
    EarnedSigns(p, d, 0);
  }

  lemma NextBounded(p: Params, delay: nat, s: Sys, step: Step, ip: string, start: int, end: int)
    requires Valid(p, delay) && Inv(p, delay, s) && Bounded(p, s, ip, start, end) && start <= end
    ensures Bounded(p, Next(p, delay, s, step), ip, start, end)
  {
    hide Inv, Decided, Found, Created, Swept, Prompt, Tokens, Earned, Admitted;
    match step
    case Tick(d) => TickBounded(p, delay, s, d, ip, start, end);
    case Ask(c) =>
      if PcOf(s, c).Holding? && PcOf(s, c).limiter in s.table.limiters { DecidedBounded(p, delay, s, c, ip, start, end); }
    case _ => NoDecision(p, delay, s, step);
  }

  lemma NoDecision(p: Params, delay: nat, s: Sys, step: Step)
    requires !step.Tick? && !step.Ask?
    ensures var s' := Next(p, delay, s, step); s'.clock == s.clock && s'.flat == s.flat && s'.log == s.log
  {
  }

  lemma {:induction false} ExecBounded(p: Params, delay: nat, clock: int, steps: seq<Step>, ip: string, start: int, end: int)
    requires Valid(p, delay) && RefillsBeforeEviction(p, delay) && start <= end
    ensures Bounded(p, Exec(p, delay, clock, steps), ip, start, end)
  {
    hide Next, Inv, RefillsBeforeEviction, Earned, Tokens;
    if steps == [] {
      FullTokens(p, clock);
      EarnedSigns(p, clock - start, end - start);
    } else {
      ExecBounded(p, delay, clock, steps[..|steps| - 1], ip, start, end);
      ExecInv(p, delay, clock, steps[..|steps| - 1]);
      NextBounded(p, delay, Exec(p, delay, clock, steps[..|steps| - 1]), steps[|steps| - 1], ip, start, end);
    }
  }

  /** Main result: under the same condition one address is admitted at most burst + rate * (t - s) times
      in any interval [s, t], however its bucket was evicted and created in between. */
  lemma {:induction false} AdmissionsBounded(p: Params, delay: nat, clock: int, steps: seq<Step>, ip: string, start: int, end: int)
    requires Valid(p, delay) && RefillsBeforeEviction(p, delay) && start <= end
    ensures Admitted(Exec(p, delay, clock, steps).log, ip, start, end) as real <= p.burst as real + Earned(p, end - start)
  {
    hide Exec, RefillsBeforeEviction, Inv, Bounded, Admitted, Earned;
    ExecBounded(p, delay, clock, steps, ip, start, end);
    ExecInv(p, delay, clock, steps);
    BoundedAdmissions(p, delay, Exec(p, delay, clock, steps), ip, start, end);
  }

  lemma BoundedAdmissions(p: Params, delay: nat, s: Sys, ip: string, start: int, end: int)
    requires Valid(p, delay) && Inv(p, delay, s) && Bounded(p, s, ip, start, end) && start <= end
    ensures Admitted(s.log, ip, start, end) as real <= p.burst as real + Earned(p, end - start)
  {
    hide Structured, Earned, Tokens, Admitted;
    assert InStep(p, delay, s, ip);
    EarnedSigns(p, s.clock - start, end - s.clock);
    EarnedSigns(p, end - start, 0);
    FlatLater(p, s, 0, ip);
  }
}
