/** Exactly which requests of an address are admitted, told from the times of those admitted before. */
module RateLimiterConformance {
  import opened Wrappers
  import opened RateLimiter
  import opened RateLimiterProtocol
  import opened RateLimiterEviction

  /** When the requests of an address were admitted. */
  function AdmittedTimes(log: seq<Decision>, ip: string): seq<int>
  {
    if log == [] then [] else
      var last := log[|log| - 1];
      AdmittedTimes(log[..|log| - 1], ip) + if last.ip == ip && last.sharded then [last.at] else []
  }

  /** Since each earlier admission, that one included, what was admitted leaves `x` of the burst and of what
      has been earned since. */
  ghost predicate Leaves(p: Params, times: seq<int>, now: int, x: real)
  {
    x <= p.burst as real
    && forall j :: 0 <= j < |times| ==> (|times| - j) as real + x <= p.burst as real + Earned(p, now - times[j])
  }

  /** The bucket holds just what the earlier admissions leave of it. */
  ghost predicate Tells(p: Params, times: seq<int>, tokens: real, now: int)
  {
    && (forall j :: 0 <= j < |times| ==> times[j] <= now)
    && forall x :: Leaves(p, times, now, x) <==> x <= tokens
  }

  lemma TellsLater(p: Params, times: seq<int>, tokens: real, now: int, d: nat)
    requires p.rate >= 0.0 && Tells(p, times, tokens, now)
    ensures Tells(p, times, Least(p.burst as real, tokens + Earned(p, d)), now + d)
  {
    hide Earned;
    EarnedSigns(p, d, 0);
    var later := now + d;
    forall x ensures Leaves(p, times, later, x) <==> x <= Least(p.burst as real, tokens + Earned(p, d)) {
      assert Leaves(p, times, now, x - Earned(p, d)) <==> x - Earned(p, d) <= tokens;
      forall j | 0 <= j < |times| ensures Earned(p, later - times[j]) == Earned(p, now - times[j]) + Earned(p, d) {
        EarnedSigns(p, now - times[j], d);
        assert now - times[j] + d == later - times[j];
      }
    }
  }

  lemma TellsAdmitted(p: Params, times: seq<int>, tokens: real, now: int)
    requires p.rate >= 0.0 && Tells(p, times, tokens, now)
    ensures Tells(p, times + [now], tokens - 1.0, now)
  {
    hide Earned;
    NothingEarned(p);
    var more := times + [now];
    forall x ensures Leaves(p, more, now, x) <==> x <= tokens - 1.0 {
      assert Leaves(p, times, now, x + 1.0) <==> x + 1.0 <= tokens;
      if Leaves(p, more, now, x) {
        assert more[|times|] == now;
        forall j | 0 <= j < |times| ensures (|times| - j) as real + (x + 1.0) <= p.burst as real + Earned(p, now - times[j]) {
          assert more[j] == times[j] && (|more| - j) as real == (|times| - j) as real + 1.0;
        }
      }
      if Leaves(p, times, now, x + 1.0) {
        forall j | 0 <= j < |more| ensures (|more| - j) as real + x <= p.burst as real + Earned(p, now - more[j]) {
          assert j < |times| ==> more[j] == times[j] && (|more| - j) as real == (|times| - j) as real + 1.0;
        }
      }
    }
  }

  lemma NothingEarned(p: Params)
    ensures Earned(p, 0) == 0.0
  {
  }

  lemma TellsNothing(p: Params, now: int)
    ensures Tells(p, [], p.burst as real, now)
  {
  }

  ghost predicate Explained(p: Params, log: seq<Decision>)
  {
    forall i :: 0 <= i < |log| ==> (log[i].sharded <==> Leaves(p, AdmittedTimes(log[..i], log[i].ip), log[i].at, 1.0))
  }

  ghost predicate Known(p: Params, s: Sys, ip: string)
  {
    Tells(p, AdmittedTimes(s.log, ip), Tokens(p, FlatOf(p, s, ip), s.clock), s.clock)
  }

  lemma TickKnown(p: Params, delay: nat, s: Sys, d: nat, ip: string)
    requires Valid(p, delay) && Inv(p, delay, s) && Known(p, s, ip)
    ensures Known(p, s.(clock := s.clock + d), ip)
  {
    hide Structured, Tokens, Earned, Tells;
    assert InStep(p, delay, s, ip);
    TellsLater(p, AdmittedTimes(s.log, ip), Tokens(p, FlatOf(p, s, ip), s.clock), s.clock, d);
    if ip in s.flat {
      TokensLater(p, s.flat[ip], s.clock, d);
    } else {
      FullTokens(p, s.clock);
      FullTokens(p, s.clock + d);
      EarnedSigns(p, d, 0);
    }
  }

  lemma DecidedKnown(p: Params, delay: nat, s: Sys, c: nat, ip: string)
    requires Valid(p, delay) && Inv(p, delay, s) && (forall a :: Known(p, s, a)) && Explained(p, s.log)
    requires PcOf(s, c).Holding? && PcOf(s, c).limiter in s.table.limiters
    requires Inv(p, delay, Decided(p, s, c, PcOf(s, c).ip, PcOf(s, c).limiter))
    ensures var s' := Decided(p, s, c, PcOf(s, c).ip, PcOf(s, c).limiter); Known(p, s', ip) && Explained(p, s'.log)
  {
    hide Structured, Tokens, Earned, Tells, Held, Inv, Leaves, Take, Spend;
    TakenDecides(p, FlatOf(p, s, PcOf(s, c).ip), s.clock);
    var a := PcOf(s, c).ip;
    var s' := Decided(p, s, c, a, PcOf(s, c).limiter);
    var times, tokens := AdmittedTimes(s.log, a), Tokens(p, FlatOf(p, s, a), s.clock);
    var now := s'.log[|s.log|];
    assert Known(p, s, a) && Known(p, s, ip);
    assert Alike(s'.log) && Sane(p, FlatOf(p, s, a), s.clock) by { InvMeans(p, delay, s, a); InvMeans(p, delay, s', a); }
    assert s'.log[..|s'.log| - 1] == s.log && s'.log[..|s.log|] == s.log;
    TakeSane(p, FlatOf(p, s, a), s.clock);
    assert now.sharded <==> tokens >= 1.0;
    assert FlatOf(p, s', ip) == if ip == a then Take(p, FlatOf(p, s, a), s.clock).0 else FlatOf(p, s, ip);
    assert AdmittedTimes(s.log, ip) + [] == AdmittedTimes(s.log, ip);
    TellsAdmitted(p, times, tokens, s.clock);
    TellsOne(p, times, tokens, s.clock);
    forall i | 0 <= i < |s'.log|
      ensures s'.log[i].sharded <==> Leaves(p, AdmittedTimes(s'.log[..i], s'.log[i].ip), s'.log[i].at, 1.0)
    {
      assert i < |s.log| ==> s'.log[..i] == s.log[..i] && s'.log[i] == s.log[i];
    }
  }

  lemma TakenDecides(p: Params, b: Bucket, now: int)
    ensures Take(p, b, now).1 <==> Tokens(p, b, now) >= 1.0
  {
  }

  lemma InvMeans(p: Params, delay: nat, s: Sys, ip: string)
    requires Inv(p, delay, s)
    ensures Alike(s.log) && Sane(p, FlatOf(p, s, ip), s.clock) && |s.table.shards| == NUM_SHARDS
  {
    assert InStep(p, delay, s, ip);
  }

  lemma TellsOne(p: Params, times: seq<int>, tokens: real, now: int)
    requires Tells(p, times, tokens, now)
    ensures Leaves(p, times, now, 1.0) <==> tokens >= 1.0
  {
  }

  lemma {:induction false} ExecKnown(p: Params, delay: nat, clock: int, steps: seq<Step>)
    requires Valid(p, delay) && RefillsBeforeEviction(p, delay)
    ensures var s := Exec(p, delay, clock, steps);
      (forall a :: Known(p, s, a)) && Explained(p, s.log)
  {
    hide RefillsBeforeEviction, Inv, Decided, Found, Created, Swept, Prompt, Tokens, Tells, Known, Explained;
    var s := Exec(p, delay, clock, steps);
    if steps == [] {
      StartKnown(p, clock);
    } else {
      var before, step := Exec(p, delay, clock, steps[..|steps| - 1]), steps[|steps| - 1];
      ExecKnown(p, delay, clock, steps[..|steps| - 1]);
      ExecInv(p, delay, clock, steps[..|steps| - 1]);
      ExecInv(p, delay, clock, steps);
      NextKnown(p, delay, before, step);
    }
  }

  lemma NextKnown(p: Params, delay: nat, s: Sys, step: Step)
    requires Valid(p, delay) && Inv(p, delay, s) && Inv(p, delay, Next(p, delay, s, step))
    requires (forall a :: Known(p, s, a)) && Explained(p, s.log)
    ensures var s' := Next(p, delay, s, step); (forall a :: Known(p, s', a)) && Explained(p, s'.log)
  {
    hide Inv, Decided, Found, Created, Swept, Prompt, Tokens, Tells, Explained, Known;
    var s' := Next(p, delay, s, step);
    InvMeans(p, delay, s, "");
    forall a ensures Known(p, s', a) && Explained(p, s'.log) {
      match step
      case Tick(d) => TickKnown(p, delay, s, d, a);
      case Ask(c) =>
        if PcOf(s, c).Holding? && PcOf(s, c).limiter in s.table.limiters { DecidedKnown(p, delay, s, c, a); }
      case _ =>
        NoDecision(p, delay, s, step);
        SameKnown(p, s, s', a);
    }
    assert Known(p, s', "");
  }

  lemma SameKnown(p: Params, s: Sys, s': Sys, ip: string)
    requires Known(p, s, ip) && s'.clock == s.clock && s'.flat == s.flat && s'.log == s.log
    ensures Known(p, s', ip)
  {
  }

  lemma StartKnown(p: Params, clock: int)
    ensures (forall a :: Known(p, Start(clock), a)) && Explained(p, Start(clock).log)
  {
    hide Tells, Tokens;
    TellsNothing(p, clock);
    FullTokens(p, clock);
  }

  /** One more request now and the admissions since any earlier one, that one included, number no more than the
      burst plus what has been earned since then. */
  ghost predicate RoomForOne(p: Params, times: seq<int>, now: int)
  {
    forall j :: 0 <= j < |times| ==> (|times| - j + 1) as real <= p.burst as real + Earned(p, now - times[j])
  }

  lemma LeavesOne(p: Params, times: seq<int>, now: int)
    requires p.burst >= 1
    ensures Leaves(p, times, now, 1.0) <==> RoomForOne(p, times, now)
  {
    hide Earned;
    forall j | 0 <= j < |times|
      ensures (|times| - j) as real + 1.0 <= p.burst as real + Earned(p, now - times[j]) <==>
              (|times| - j + 1) as real <= p.burst as real + Earned(p, now - times[j])
    {
      assert (|times| - j + 1) as real == (|times| - j) as real + 1.0;
    }
  }

  /** Main result: when eviction is invisible, a request is admitted exactly when the earlier admissions of its
      address leave room for one more, however the bucket was evicted and created in between. */
  lemma {:induction false} AdmittedIff(p: Params, delay: nat, clock: int, steps: seq<Step>, i: nat)
    requires Valid(p, delay) && RefillsBeforeEviction(p, delay) && i < |Exec(p, delay, clock, steps).log|
    ensures var log := Exec(p, delay, clock, steps).log;
      log[i].sharded <==> RoomForOne(p, AdmittedTimes(log[..i], log[i].ip), log[i].at)
  {
    hide Exec, RefillsBeforeEviction, Known, Earned, AdmittedTimes, Leaves, RoomForOne;
    ExecKnown(p, delay, clock, steps);
    var log := Exec(p, delay, clock, steps).log;
    assert Explained(p, log);
    LeavesOne(p, AdmittedTimes(log[..i], log[i].ip), log[i].at);
  }
}
