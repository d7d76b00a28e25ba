/** The operations of the rate limiter, run without interruption, in the interleaved protocol. */
module RateLimiterRuns {
  import opened Wrappers
  import opened RateLimiter
  import opened RateLimiterProtocol

  /** Look, create if that missed, and ask. */
  function AllowRun(p: Params, delay: nat, s: Sys, c: nat, ip: string): Sys
  {
    Next(p, delay, Next(p, delay, Next(p, delay, s, Look(c, ip)), Create(c)), Ask(c))
  }

  /** Main result: in the protocol an uninterrupted caller changes the table, and is answered, as the class's
      `Allow` says. */
  lemma AllowIsRun(p: Params, delay: nat, s: Sys, c: nat, ip: string)
    requires |s.table.shards| == NUM_SHARDS && Linked(p, s.table) && PcOf(s, c) == Idle
    ensures var got := Get(p, s.table, ip, s.clock);
      var s' := AllowRun(p, delay, s, c, ip);
      && Present(p, got, ip) && EntryOf(p, got, ip).limiter in got.limiters
      && var (table, ok) := Spend(p, got, EntryOf(p, got, ip).limiter, s.clock);
      && s'.table == table && s'.clock == s.clock && PcOf(s', c) == Idle
      && |s'.log| == |s.log| + 1 && s'.log[|s.log|].ip == ip && s'.log[|s.log|].at == s.clock && s'.log[|s.log|].sharded == ok
  {
    hide ShardOf, Take, Full, Put, Linked;
    GetLinked(p, s.table, ip, s.clock);
    var got := Get(p, s.table, ip, s.clock);
    EntryIsLinked(p, got, ip);
    var looked := Next(p, delay, s, Look(c, ip));
    var s2 := Next(p, delay, looked, Create(c));
    HeldAfterLookup(p, delay, s, c, ip);
  }

  lemma EntryIsLinked(p: Params, t: Table, ip: string)
    requires Linked(p, t) && Present(p, t, ip)
    ensures EntryOf(p, t, ip).limiter in t.limiters
  {
  }

  lemma HeldAfterLookup(p: Params, delay: nat, s: Sys, c: nat, ip: string)
    requires |s.table.shards| == NUM_SHARDS && PcOf(s, c) == Idle
    ensures var s' := Next(p, delay, Next(p, delay, s, Look(c, ip)), Create(c));
      var got := Get(p, s.table, ip, s.clock);
      && s'.table == got && s'.clock == s.clock && s'.log == s.log && |got.shards| == NUM_SHARDS
      && Present(p, got, ip) && PcOf(s', c) == Holding(ip, EntryOf(p, got, ip).limiter, s.clock)
  {
    hide ShardOf, Take, Full;
  }

  function Sweeping(p: Params, delay: nat, s: Sys, k: nat): Sys
  {
    if k == 0 then Next(p, delay, s, StartCleanup) else Next(p, delay, Sweeping(p, delay, s, k - 1), SweepShard)
  }

  lemma {:induction false} SweepingIs(p: Params, delay: nat, s: Sys, k: nat)
    requires k <= |s.table.shards| == NUM_SHARDS && s.cleaner == Resting
    ensures var swept := SweepFrom(s.table, k, s.clock - p.ttl);
      Sweeping(p, delay, s, k) == s.(table := swept,
        cleaner := Cleaner.Sweeping(s.clock - p.ttl, k, Size(s.table.shards, NUM_SHARDS) - Size(swept.shards, NUM_SHARDS)))
  {
    hide Kept, Size;
    if k > 0 {
      SweepingIs(p, delay, s, k - 1);
      var before := SweepFrom(s.table, k - 1, s.clock - p.ttl);
      SizeAfterUpdate(before.shards, k - 1, Kept(before.shards[k - 1], s.clock - p.ttl), NUM_SHARDS);
    }
  }

  /** Main result: an uninterrupted cleanup of the protocol is the class's `Cleanup`. */
  lemma CleanupIsRun(p: Params, delay: nat, s: Sys)
    requires |s.table.shards| == NUM_SHARDS && s.cleaner == Resting
    ensures var swept := SweepFrom(s.table, NUM_SHARDS, s.clock - p.ttl);
      Next(p, delay, Sweeping(p, delay, s, NUM_SHARDS), FinishCleanup) ==
        s.(table := swept.(total := s.table.total - (Size(s.table.shards, NUM_SHARDS) - Size(swept.shards, NUM_SHARDS))))
  {
    hide Sweeping, SweepFrom, Size;
    SweepingIs(p, delay, s, NUM_SHARDS);
  }
}
