/** Callers, creations and evictions interleaved on the sharded rate limiter, next to a flat map of
    token buckets that never forgets an address.

    A lookup takes the shard's read lock; a caller that misses takes the write lock later and looks
    again; the bucket it obtains is used after all locks are gone; and a cleanup visits one shard at a
    time while all of this goes on. */
module RateLimiterProtocol {
  import opened Wrappers
  import opened RateLimiter

  /** `Missed` callers have yet to take the write lock; `Holding` ones have their limiter since `since`
      and have yet to ask it. */
  datatype Pc = Idle | Missed(ip: string) | Holding(ip: string, limiter: nat, since: int)

  /** A running cleanup: its cutoff, the next shard, and what it has removed and not yet subtracted. */
  datatype Cleaner = Resting | Sweeping(cutoff: int, next: nat, removed: int)

  /** One decision: what the sharded limiter said and what the flat map says. */
  datatype Decision = Decision(ip: string, at: int, sharded: bool, flat: bool)

  datatype Sys = Sys(table: Table, clock: int, pcs: map<nat, Pc>, cleaner: Cleaner,
                     flat: map<string, Bucket>, log: seq<Decision>)

  datatype Step =
    | Tick(elapsed: nat)
    | Look(caller: nat, ip: string)
    | Create(caller: nat)
    | Ask(caller: nat)
    | StartCleanup
    | SweepShard
    | FinishCleanup

  function PcOf(s: Sys, c: nat): Pc { if c in s.pcs then s.pcs[c] else Idle }

  function FlatOf(p: Params, s: Sys, ip: string): Bucket { if ip in s.flat then s.flat[ip] else Full(p, s.clock) }

  /** Nobody has held a limiter for more than `delay` when the clock has advanced. */
  predicate Prompt(s: Sys, d: nat, delay: nat)
  {
    forall c :: c in s.pcs && s.pcs[c].Holding? ==> s.clock + d - s.pcs[c].since <= delay
  }

  function Found(p: Params, s: Sys, c: nat, ip: string): Sys
    requires Present(p, s.table, ip)
  {
    s.(table := Touch(p, s.table, ip, s.clock),
       pcs := s.pcs[c := Holding(ip, EntryOf(p, s.table, ip).limiter, s.clock)])
  }

  function Created(p: Params, s: Sys, c: nat, ip: string): Sys
    requires |s.table.shards| == NUM_SHARDS
  {
    s.(table := Insert(p, s.table, ip, s.clock), pcs := s.pcs[c := Holding(ip, s.table.nextId, s.clock)])
  }

  function Decided(p: Params, s: Sys, c: nat, ip: string, id: nat): Sys
    requires id in s.table.limiters
  {
    var (table, ok) := Spend(p, s.table, id, s.clock);
    var (bucket, flatOk) := Take(p, FlatOf(p, s, ip), s.clock);
    s.(table := table, flat := s.flat[ip := bucket], pcs := s.pcs[c := Idle],
       log := s.log + [Decision(ip, s.clock, ok, flatOk)])
  }

  function Swept(s: Sys): Sys
    requires s.cleaner.Sweeping? && s.cleaner.next < |s.table.shards|
  {
    var Sweeping(cutoff, k, removed) := s.cleaner;
    var table := Sweep(s.table, k, cutoff);
    s.(table := table,
       cleaner := Sweeping(cutoff, k + 1, removed + |s.table.shards[k]| - |table.shards[k]|))
  }

  /** A step that is not enabled leaves the state alone. The clock only advances while every caller that
      holds a limiter has had it for at most `delay`. */
  function Next(p: Params, delay: nat, s: Sys, step: Step): Sys
  {
    if |s.table.shards| != NUM_SHARDS then s else
    match step
    case Tick(d) => if Prompt(s, d, delay) then s.(clock := s.clock + d) else s
    case Look(c, ip) =>
      if PcOf(s, c) != Idle then s
      else if Present(p, s.table, ip) then Found(p, s, c, ip)
      else s.(pcs := s.pcs[c := Missed(ip)])
    case Create(c) =>
      if !PcOf(s, c).Missed? then s
      else if Present(p, s.table, PcOf(s, c).ip) then Found(p, s, c, PcOf(s, c).ip)
      else Created(p, s, c, PcOf(s, c).ip)
    case Ask(c) =>
      if PcOf(s, c).Holding? && PcOf(s, c).limiter in s.table.limiters
      then Decided(p, s, c, PcOf(s, c).ip, PcOf(s, c).limiter) else s
    case StartCleanup => if s.cleaner == Resting then s.(cleaner := Sweeping(s.clock - p.ttl, 0, 0)) else s
    case SweepShard => if s.cleaner.Sweeping? && s.cleaner.next < NUM_SHARDS then Swept(s) else s
    case FinishCleanup =>
      if s.cleaner.Sweeping? && s.cleaner.next == NUM_SHARDS
      then s.(table := s.table.(total := s.table.total - s.cleaner.removed), cleaner := Resting) else s
  }

  function Start(clock: int): Sys
  {
    Sys(Table(seq(NUM_SHARDS, _ => map[]), map[], 0, 0), clock, map[], Resting, map[], [])
  }

  function ExecFrom(p: Params, delay: nat, s: Sys, steps: seq<Step>): Sys
  {
    if steps == [] then s
    else Next(p, delay, ExecFrom(p, delay, s, steps[..|steps| - 1]), steps[|steps| - 1])
  }

  function Exec(p: Params, delay: nat, clock: int, steps: seq<Step>): Sys
  {
    ExecFrom(p, delay, Start(clock), steps)
  }

  lemma {:induction false} ExecConcat(p: Params, delay: nat, s: Sys, a: seq<Step>, b: seq<Step>)
    ensures ExecFrom(p, delay, s, a + b) == ExecFrom(p, delay, ExecFrom(p, delay, s, a), b)
  {
    hide Next;
    if b == [] {
      assert a + b == a;
    } else {
      assert (a + b)[..|a + b| - 1] == a + b[..|b| - 1];
      ExecConcat(p, delay, s, a, b[..|b| - 1]);
    }
  }

  // ---- token buckets -----------------------------------------------------------------------

  predicate Sane(p: Params, b: Bucket, now: int) { 0.0 <= b.tokens <= p.burst as real && b.last <= now }

  lemma EarnedAdds(p: Params, a: int, b: int)
    requires p.rate >= 0.0 && 0 <= a && 0 <= b
    ensures Earned(p, a + b) == Earned(p, a) + Earned(p, b) && Earned(p, a) >= 0.0 && Earned(p, b) >= 0.0
  {
  }

  /** The tokens at a later time follow from the tokens now. */
  lemma TokensLater(p: Params, b: Bucket, now: int, d: nat)
    requires p.rate >= 0.0 && Sane(p, b, now)
    ensures 0.0 <= Tokens(p, b, now) <= p.burst as real
    ensures Tokens(p, b, now + d) == Least(p.burst as real, Tokens(p, b, now) + Earned(p, d))
  {
    EarnedAdds(p, now - b.last, d);
    assert now + d - b.last == (now - b.last) + d;
  }

  lemma TakeSane(p: Params, b: Bucket, now: int)
    requires p.rate >= 0.0 && Sane(p, b, now)
    ensures Sane(p, Take(p, b, now).0, now)
    ensures Tokens(p, Take(p, b, now).0, now) == Tokens(p, b, now) - if Take(p, b, now).1 then 1.0 else 0.0
    ensures Take(p, b, now).0.last == if Take(p, b, now).1 then now else b.last
  {
    TokensLater(p, b, now, 0);
  }

  // ---- the table as one flat map -----------------------------------------------------------

  /** Every address is in the shard of its hash and nowhere else. */
  ghost predicate Placed(p: Params, t: Table)
  {
    |t.shards| == NUM_SHARDS && forall k, ip :: 0 <= k < NUM_SHARDS && ip in t.shards[k] ==> ShardOf(p, ip) == k
  }

  /** The sharded table is one map from addresses to entries: putting changes that entry only. */
  lemma PutIsPointwise(p: Params, t: Table, ip: string, e: Entry, a: string)
    requires Placed(p, t)
    ensures Placed(p, Put(p, t, ip, e))
    ensures Present(p, Put(p, t, ip, e), a) <==> a == ip || Present(p, t, a)
    ensures a == ip ==> EntryOf(p, Put(p, t, ip, e), a) == e
    ensures a != ip && Present(p, t, a) ==> EntryOf(p, Put(p, t, ip, e), a) == EntryOf(p, t, a)
  {
  }

  lemma SweepIsPointwise(p: Params, t: Table, k: nat, cutoff: int, a: string)
    requires Placed(p, t) && k < NUM_SHARDS
    ensures Placed(p, Sweep(t, k, cutoff))
    ensures Present(p, Sweep(t, k, cutoff), a) <==>
            Present(p, t, a) && (ShardOf(p, a) == k ==> EntryOf(p, t, a).lastAccess >= cutoff)
    ensures Present(p, Sweep(t, k, cutoff), a) ==> EntryOf(p, Sweep(t, k, cutoff), a) == EntryOf(p, t, a)
  {
  }

  // ---- what every step keeps, with no assumption on times ----------------------------------

  function Unsubtracted(s: Sys): int { if s.cleaner.Sweeping? then s.cleaner.removed else 0 }

  /** Different addresses never share a limiter. */
  ghost predicate OwnLimiters(p: Params, t: Table)
  {
    && (forall a :: Present(p, t, a) ==> EntryOf(p, t, a).limiter in t.limiters && EntryOf(p, t, a).limiter < t.nextId)
    && (forall a, b :: Present(p, t, a) && Present(p, t, b) && a != b ==> EntryOf(p, t, a).limiter != EntryOf(p, t, b).limiter)
  }

  ghost predicate Structured(p: Params, s: Sys)
  {
    && Placed(p, s.table) && OwnLimiters(p, s.table)
    && s.table.total == Size(s.table.shards, |s.table.shards|) + Unsubtracted(s)
    && (s.cleaner.Sweeping? ==> s.cleaner.next <= NUM_SHARDS)
  }

  lemma TouchStructured(p: Params, t: Table, ip: string, now: int)
    requires Placed(p, t) && OwnLimiters(p, t) && Present(p, t, ip)
    ensures var t' := Touch(p, t, ip, now);
      && Placed(p, t') && OwnLimiters(p, t') && t'.total == t.total
      && Size(t'.shards, |t'.shards|) == Size(t.shards, |t.shards|)
      && forall a :: Present(p, t', a) <==> Present(p, t, a)
  {
    hide Size, ShardOf;
    var e := EntryOf(p, t, ip).(lastAccess := now);
    var k := ShardOf(p, ip);
    forall a ensures Present(p, Touch(p, t, ip, now), a) <==> Present(p, t, a)
      ensures Present(p, t, a) ==> EntryOf(p, Touch(p, t, ip, now), a).limiter == EntryOf(p, t, a).limiter
    {
      PutIsPointwise(p, t, ip, e, a);
    }
    PutIsPointwise(p, t, ip, e, ip);
    SizeAfterUpdate(t.shards, k, t.shards[k][ip := e], |t.shards|);
    assert t.shards[k][ip := e].Keys == t.shards[k].Keys;
    SameKeysSameSize(t.shards[k][ip := e], t.shards[k]);
  }

  lemma SameKeysSameSize(m: map<string, Entry>, n: map<string, Entry>)
    requires m.Keys == n.Keys
    ensures |m| == |n|
  {
    assert |m| == |m.Keys| && |n| == |n.Keys|;
  }

  lemma InsertStructured(p: Params, t: Table, ip: string, now: int)
    requires Placed(p, t) && OwnLimiters(p, t) && !Present(p, t, ip)
    ensures var t' := Insert(p, t, ip, now);
      && Placed(p, t') && OwnLimiters(p, t') && t'.total == t.total + 1
      && Size(t'.shards, |t'.shards|) == Size(t.shards, |t.shards|) + 1
      && Present(p, t', ip) && EntryOf(p, t', ip) == Entry(t.nextId, now)
      && forall a :: a != ip ==> (Present(p, t', a) <==> Present(p, t, a)) && (Present(p, t, a) ==> EntryOf(p, t', a) == EntryOf(p, t, a))
  {
    hide Size, ShardOf;
    var e := Entry(t.nextId, now);
    var k := ShardOf(p, ip);
    var put := Put(p, t, ip, e);
    var t' := Insert(p, t, ip, now);
    forall a
      ensures Present(p, t', a) <==> a == ip || Present(p, t, a)
      ensures Present(p, t', a) ==> EntryOf(p, t', a) == if a == ip then e else EntryOf(p, t, a)
    {
      PutIsPointwise(p, t, ip, e, a);
    }
    PutIsPointwise(p, t, ip, e, ip);
    SizeAfterUpdate(t.shards, k, t.shards[k][ip := e], |t.shards|);
    assert |t.shards[k][ip := e]| == |t.shards[k]| + 1;
  }

  lemma SweepStructured(p: Params, t: Table, k: nat, cutoff: int)
    requires Placed(p, t) && OwnLimiters(p, t) && k < NUM_SHARDS
    ensures var t' := Sweep(t, k, cutoff);
      && Placed(p, t') && OwnLimiters(p, t') && t'.total == t.total
      && Size(t'.shards, |t'.shards|) == Size(t.shards, |t.shards|) + |t'.shards[k]| - |t.shards[k]|
  {
    hide Size, ShardOf, Kept;
    var t' := Sweep(t, k, cutoff);
    forall a
      ensures Present(p, t', a) ==> Present(p, t, a) && EntryOf(p, t', a) == EntryOf(p, t, a)
    {
      SweepIsPointwise(p, t, k, cutoff, a);
    }
    SweepIsPointwise(p, t, k, cutoff, "");
    SizeAfterUpdate(t.shards, k, Kept(t.shards[k], cutoff), |t.shards|);
  }

  lemma NextStructured(p: Params, delay: nat, s: Sys, step: Step)
    requires Structured(p, s)
    ensures Structured(p, Next(p, delay, s, step))
  {
    hide Size, ShardOf, Kept, Touch, Insert, Sweep, Put, Prompt, Take;
    match step
    case Look(c, ip) => if Present(p, s.table, ip) { TouchStructured(p, s.table, ip, s.clock); }
    case Create(c) =>
      if PcOf(s, c).Missed? {
        var ip := PcOf(s, c).ip;
        if Present(p, s.table, ip) {
          TouchStructured(p, s.table, ip, s.clock);
        } else {
          InsertStructured(p, s.table, ip, s.clock);
        }
      }
    case SweepShard =>
      if s.cleaner.Sweeping? && s.cleaner.next < NUM_SHARDS {
        SweepStructured(p, s.table, s.cleaner.next, s.cleaner.cutoff);
      }
    case Ask(c) => SameShards(p, s.table, Next(p, delay, s, step).table);
    case FinishCleanup => SameShards(p, s.table, Next(p, delay, s, step).table);
    case Tick(_) =>
    case StartCleanup =>
  }

  lemma SameShards(p: Params, t: Table, t': Table)
    requires Placed(p, t) && OwnLimiters(p, t)
    requires t'.shards == t.shards && t.limiters.Keys <= t'.limiters.Keys && t.nextId == t'.nextId
    ensures Placed(p, t') && OwnLimiters(p, t')
  {
    assert forall a :: Present(p, t', a) <==> Present(p, t, a);
    assert forall a :: Present(p, t, a) ==> EntryOf(p, t', a) == EntryOf(p, t, a);
  }

  lemma StartStructured(p: Params, clock: int)
    ensures Structured(p, Start(clock))
  {
    EmptySize(Start(clock).table.shards, NUM_SHARDS);
  }

  lemma {:induction false} EmptySize(shards: seq<map<string, Entry>>, k: nat)
    requires k <= |shards| && forall i :: 0 <= i < |shards| ==> shards[i] == map[]
    ensures Size(shards, k) == 0
  {
    if k > 0 { EmptySize(shards, k - 1); }
  }

  lemma {:induction false} ExecStructured(p: Params, delay: nat, clock: int, steps: seq<Step>)
    ensures Structured(p, Exec(p, delay, clock, steps))
  {
    hide Structured, Next, Start;
    if steps == [] {
      StartStructured(p, clock);
    } else {
      ExecStructured(p, delay, clock, steps[..|steps| - 1]);
      NextStructured(p, delay, Exec(p, delay, clock, steps[..|steps| - 1]), steps[|steps| - 1]);
    }
  }
}
