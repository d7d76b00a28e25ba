/** The shards seen as one map, and the limiters that it hands out. */
module RateLimiterShards {
  import opened RateLimiter
  import opened RateLimiterProtocol

  /** Main result, in every interleaving of lookups, creations and cleanups: each address lives only in
      the shard of its hash, no two addresses share a limiter, and the entry counter is the number of
      entries plus what a running cleanup has removed and not yet subtracted. */
  lemma {:induction false} ShardsAreOneMap(p: Params, delay: nat, clock: int, steps: seq<Step>)
    ensures var s := Exec(p, delay, clock, steps);
      && (forall k, ip :: 0 <= k < NUM_SHARDS == |s.table.shards| && ip in s.table.shards[k] ==> k == p.hash(ip) % 256)
      && (forall a, b :: Present(p, s.table, a) && Present(p, s.table, b) && a != b
            ==> EntryOf(p, s.table, a).limiter != EntryOf(p, s.table, b).limiter)
      && s.table.total == Size(s.table.shards, |s.table.shards|) + Unsubtracted(s)
  {
    hide Exec, Size;
    ExecStructured(p, delay, clock, steps);
    var s := Exec(p, delay, clock, steps);
    forall k, ip | 0 <= k < NUM_SHARDS == |s.table.shards| && ip in s.table.shards[k] ensures k == p.hash(ip) % 256 {
      assert k == ShardOf(p, ip);
    }
  }

  /** One step: an address that stays present keeps its limiter, and one that appears gets a new one. */
  lemma EntryAfterStep(p: Params, delay: nat, s: Sys, step: Step, ip: string)
    requires Structured(p, s) && Present(p, Next(p, delay, s, step).table, ip)
    ensures var s' := Next(p, delay, s, step);
      && EntryOf(p, s'.table, ip).limiter == (if Present(p, s.table, ip) then EntryOf(p, s.table, ip).limiter else s.table.nextId)
      && s.table.nextId <= s'.table.nextId
  {
    hide Size, ShardOf;
    match step
    case Look(c, a) =>
      if Present(p, s.table, a) { PutIsPointwise(p, s.table, a, EntryOf(p, s.table, a).(lastAccess := s.clock), ip); }
    case Create(c) =>
      if PcOf(s, c).Missed? {
        var a := PcOf(s, c).ip;
        if Present(p, s.table, a) {
          PutIsPointwise(p, s.table, a, EntryOf(p, s.table, a).(lastAccess := s.clock), ip);
        } else {
          PutIsPointwise(p, s.table, a, Entry(s.table.nextId, s.clock), ip);
        }
      }
    case SweepShard =>
      if s.cleaner.Sweeping? && s.cleaner.next < NUM_SHARDS {
        SweepIsPointwise(p, s.table, s.cleaner.next, s.cleaner.cutoff, ip);
      }
    case _ =>
  }

  lemma IdsGrow(p: Params, delay: nat, s: Sys, step: Step)
    ensures s.table.nextId <= Next(p, delay, s, step).table.nextId
  {
  }

  /** This step hands caller `c` the limiter of `ip`. */
  predicate Obtains(p: Params, delay: nat, s: Sys, step: Step, c: nat, ip: string)
  {
    var after := PcOf(Next(p, delay, s, step), c);
    !PcOf(s, c).Holding? && after.Holding? && after.ip == ip
  }

  /** What is handed out is what the table points to. */
  lemma ObtainedIsEntry(p: Params, delay: nat, s: Sys, step: Step, c: nat, ip: string)
    requires Structured(p, s) && Obtains(p, delay, s, step, c, ip)
    ensures var s' := Next(p, delay, s, step);
      && Present(p, s'.table, ip) && PcOf(s', c).limiter == EntryOf(p, s'.table, ip).limiter < s'.table.nextId
  {
    hide Size, ShardOf, Take, Prompt, Sweep;
    NextStructured(p, delay, s, step);
    if PcOf(s, c).Missed? && !Present(p, s.table, PcOf(s, c).ip) {
      PutIsPointwise(p, s.table, ip, Entry(s.table.nextId, s.clock), ip);
    } else {
      PutIsPointwise(p, s.table, ip, EntryOf(p, s.table, ip).(lastAccess := s.clock), ip);
    }
  }

  /** The state after the first `k` steps. */
  function StateAt(p: Params, delay: nat, clock: int, steps: seq<Step>, k: nat): Sys
    requires k <= |steps|
  {
    Exec(p, delay, clock, steps[..k])
  }

  lemma StateStep(p: Params, delay: nat, clock: int, steps: seq<Step>, k: nat)
    requires k < |steps|
    ensures StateAt(p, delay, clock, steps, k + 1) == Next(p, delay, StateAt(p, delay, clock, steps, k), steps[k])
    ensures Structured(p, StateAt(p, delay, clock, steps, k))
  {
    hide Next;
    assert steps[..k + 1][..k] == steps[..k];
    ExecStructured(p, delay, clock, steps[..k]);
  }

  /** After a moment at which the address is absent, it only ever has newer limiters. */
  lemma {:induction false} NewerAfterAbsence(p: Params, delay: nat, clock: int, steps: seq<Step>, ip: string, k: nat, m: nat)
    requires k <= m <= |steps| && !Present(p, StateAt(p, delay, clock, steps, k).table, ip)
    ensures var s, s' := StateAt(p, delay, clock, steps, k), StateAt(p, delay, clock, steps, m);
      && s.table.nextId <= s'.table.nextId
      && (Present(p, s'.table, ip) ==> s.table.nextId <= EntryOf(p, s'.table, ip).limiter)
    decreases m
  {
    hide Next, Exec, Present, EntryOf, StateAt, Structured;
    if k < m {
      NewerAfterAbsence(p, delay, clock, steps, ip, k, m - 1);
      StateStep(p, delay, clock, steps, m - 1);
      var before := StateAt(p, delay, clock, steps, m - 1);
      IdsGrow(p, delay, before, steps[m - 1]);
      if Present(p, Next(p, delay, before, steps[m - 1]).table, ip) {
        EntryAfterStep(p, delay, before, steps[m - 1], ip);
      }
    }
  }

  lemma {:induction false} IdsGrowTo(p: Params, delay: nat, clock: int, steps: seq<Step>, k: nat, m: nat)
    requires k <= m <= |steps|
    ensures StateAt(p, delay, clock, steps, k).table.nextId <= StateAt(p, delay, clock, steps, m).table.nextId
    decreases m
  {
    hide Next, Exec, StateAt, Structured;
    if k < m {
      IdsGrowTo(p, delay, clock, steps, k, m - 1);
      StateStep(p, delay, clock, steps, m - 1);
      IdsGrow(p, delay, StateAt(p, delay, clock, steps, m - 1), steps[m - 1]);
    }
  }

  ghost predicate PresentThroughout(p: Params, delay: nat, clock: int, steps: seq<Step>, ip: string, k: nat, m: nat)
    requires m <= |steps|
  {
    forall i: nat :: k <= i <= m ==> Present(p, StateAt(p, delay, clock, steps, i).table, ip)
  }

  lemma {:induction false} SameWhilePresent(p: Params, delay: nat, clock: int, steps: seq<Step>, ip: string, k: nat, m: nat)
    requires k <= m <= |steps| && PresentThroughout(p, delay, clock, steps, ip, k, m)
    ensures EntryOf(p, StateAt(p, delay, clock, steps, m).table, ip).limiter
         == EntryOf(p, StateAt(p, delay, clock, steps, k).table, ip).limiter
    decreases m
  {
    hide Next, Exec, Present, EntryOf, StateAt, Structured;
    if k < m {
      SameWhilePresent(p, delay, clock, steps, ip, k, m - 1);
      StateStep(p, delay, clock, steps, m - 1);
      EntryAfterStep(p, delay, StateAt(p, delay, clock, steps, m - 1), steps[m - 1], ip);
    }
  }

  /** Main result, in every interleaving: two callers, or the same one twice, are handed the same limiter
      for an address exactly when its entry was in the table all the time in between. */
  lemma {:induction false} SameLimiterIffNotEvicted(p: Params, delay: nat, clock: int, steps: seq<Step>, i: nat, j: nat, c: nat, d: nat, ip: string)
    requires i < j < |steps|
    requires Obtains(p, delay, StateAt(p, delay, clock, steps, i), steps[i], c, ip)
    requires Obtains(p, delay, StateAt(p, delay, clock, steps, j), steps[j], d, ip)
    ensures var first, second := PcOf(StateAt(p, delay, clock, steps, i + 1), c), PcOf(StateAt(p, delay, clock, steps, j + 1), d);
      && first.Holding? && second.Holding?
      && (first.limiter == second.limiter <==> PresentThroughout(p, delay, clock, steps, ip, i + 1, j + 1))
  {
    hide Next, Exec, Present, EntryOf, StateAt, Structured;
    StateStep(p, delay, clock, steps, i);
    StateStep(p, delay, clock, steps, j);
    ObtainedIsEntry(p, delay, StateAt(p, delay, clock, steps, i), steps[i], c, ip);
    ObtainedIsEntry(p, delay, StateAt(p, delay, clock, steps, j), steps[j], d, ip);
    if PresentThroughout(p, delay, clock, steps, ip, i + 1, j + 1) {
      SameWhilePresent(p, delay, clock, steps, ip, i + 1, j + 1);
    } else {
      var k: nat :| i + 1 <= k <= j + 1 && !Present(p, StateAt(p, delay, clock, steps, k).table, ip);
      IdsGrowTo(p, delay, clock, steps, i + 1, k);
      NewerAfterAbsence(p, delay, clock, steps, ip, k, j + 1);
    }
  }
}
