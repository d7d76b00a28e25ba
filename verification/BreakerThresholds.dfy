/** How far the breaker's counts can get, and when they stay inside settings that replace the ones they
    were made under. */
module BreakerThresholds {
  import opened Wrappers
  import opened CircuitBreaker
  import opened BreakerProtocol
  import opened BreakerRecovery

  // ---- a timeline of settings --------------------------------------------------------------

  /** Any steps under each of these settings in turn. */
  function Phases(clock: int, cfgs: seq<Config>, runs: seq<seq<Step>>, team: set<nat>): Sys
    requires |runs| == |cfgs|
  {
    if cfgs == [] then Start(clock) else
      var k := |cfgs| - 1;
      ExecFrom(Phases(clock, cfgs[..k], runs[..k], team), runs[k], team, cfgs[k])
  }

  /** In every run, at every moment, the failures are below the threshold then in force. */
  ghost predicate FailuresStayBelow(cfgs: seq<Config>, team: set<nat>)
  {
    forall clock, runs, k :: 1 <= k <= |cfgs| && |runs| == k ==>
      Phases(clock, cfgs[..k], runs, team).core.failureCount < cfgs[k - 1].failureThreshold
  }

  ghost predicate AdmissionsStayWithin(cfgs: seq<Config>, team: set<nat>)
  {
    forall clock, runs, k :: 1 <= k <= |cfgs| && |runs| == k ==>
      Phases(clock, cfgs[..k], runs, team).core.halfOpenRequests <= Limit(cfgs[k - 1])
  }

  /** No earlier setting of the failure threshold is above a later one; below one it counts as one. */
  ghost predicate ThresholdsRise(cfgs: seq<Config>)
  {
    forall i, j :: 0 <= i <= j < |cfgs| ==> ToTrip(cfgs[i]) <= cfgs[j].failureThreshold
  }

  ghost predicate LimitsRise(cfgs: seq<Config>)
  {
    forall i, j :: 0 <= i <= j < |cfgs| ==> Limit(cfgs[i]) <= Limit(cfgs[j])
  }

  lemma {:induction false} FailuresBelow(s: Sys, steps: seq<Step>, team: set<nat>, cfg: Config, most: int)
    requires 0 <= s.core.failureCount < most && ToTrip(cfg) <= most
    ensures 0 <= ExecFrom(s, steps, team, cfg).core.failureCount < most
  {
    if steps != [] {
      FailuresBelow(s, steps[..|steps| - 1], team, cfg, most);
      FailureStep(ExecFrom(s, steps[..|steps| - 1], team, cfg), steps[|steps| - 1], team, cfg, most);
    }
  }

  lemma FailureStep(s: Sys, step: Step, team: set<nat>, cfg: Config, most: int)
    requires 0 <= s.core.failureCount < most && ToTrip(cfg) <= most
    ensures 0 <= Next(s, step, team, cfg).core.failureCount < most
  {
  }

  lemma {:induction false} AdmissionsWithin(s: Sys, steps: seq<Step>, team: set<nat>, cfg: Config, most: int)
    requires 0 <= s.core.halfOpenRequests <= most && Limit(cfg) <= most
    ensures 0 <= ExecFrom(s, steps, team, cfg).core.halfOpenRequests <= most
  {
    if steps != [] {
      AdmissionsWithin(s, steps[..|steps| - 1], team, cfg, most);
      AdmissionStep(ExecFrom(s, steps[..|steps| - 1], team, cfg), steps[|steps| - 1], team, cfg, most);
    }
  }

  lemma AdmissionStep(s: Sys, step: Step, team: set<nat>, cfg: Config, most: int)
    requires 0 <= s.core.halfOpenRequests <= most && Limit(cfg) <= most
    ensures 0 <= Next(s, step, team, cfg).core.halfOpenRequests <= most
  {
  }

  lemma {:induction false} PhasesBelow(clock: int, cfgs: seq<Config>, runs: seq<seq<Step>>, team: set<nat>, most: int)
    requires |runs| == |cfgs| && most > 0 && forall cfg :: cfg in cfgs ==> ToTrip(cfg) <= most
    ensures 0 <= Phases(clock, cfgs, runs, team).core.failureCount < most
  {
    hide ToTrip;
    if cfgs != [] {
      var k := |cfgs| - 1;
      assert cfgs[k] in cfgs;
      PhasesBelow(clock, cfgs[..k], runs[..k], team, most);
      FailuresBelow(Phases(clock, cfgs[..k], runs[..k], team), runs[k], team, cfgs[k], most);
    }
  }

  lemma {:induction false} PhasesWithin(clock: int, cfgs: seq<Config>, runs: seq<seq<Step>>, team: set<nat>, most: nat)
    requires |runs| == |cfgs| && forall cfg :: cfg in cfgs ==> Limit(cfg) <= most
    ensures 0 <= Phases(clock, cfgs, runs, team).core.halfOpenRequests <= most
  {
    hide Limit;
    if cfgs != [] {
      var k := |cfgs| - 1;
      assert cfgs[k] in cfgs;
      PhasesWithin(clock, cfgs[..k], runs[..k], team, most);
      AdmissionsWithin(Phases(clock, cfgs[..k], runs[..k], team), runs[k], team, cfgs[k], most);
    }
  }

  /** All steps in phase `i`, none in the others. */
  function Only(i: nat, steps: seq<Step>, n: nat): (runs: seq<seq<Step>>)
    ensures |runs| == n
  {
    seq(n, k requires 0 <= k < n => if k == i then steps else [])
  }

  lemma {:induction false} OnlyPhase(clock: int, cfgs: seq<Config>, i: nat, steps: seq<Step>, team: set<nat>)
    ensures Phases(clock, cfgs, Only(i, steps, |cfgs|), team) ==
            if i < |cfgs| then Exec(clock, steps, team, cfgs[i]) else Start(clock)
  {
    hide Next;
    if cfgs != [] {
      var k := |cfgs| - 1;
      OnlyPhase(clock, cfgs[..k], i, steps, team);
      assert Only(i, steps, k + 1)[..k] == Only(i, steps, k);
    }
  }

  /** Main result, over every timeline of settings: the failure count stays below the threshold in force
      exactly when the thresholds never fall. */
  lemma {:induction false} FailuresStayBelowIff(cfgs: seq<Config>, team: set<nat>)
    requires team != {}
    ensures FailuresStayBelow(cfgs, team) <==> ThresholdsRise(cfgs)
  {
    hide Phases, ToTrip, Exec;
    if ThresholdsRise(cfgs) {
      forall clock, runs, k | 1 <= k <= |cfgs| && |runs| == k
        ensures Phases(clock, cfgs[..k], runs, team).core.failureCount < cfgs[k - 1].failureThreshold
      {
        TripPositive(cfgs[k - 1]);
        PhasesBelow(clock, cfgs[..k], runs, team, cfgs[k - 1].failureThreshold);
      }
    } else {
      var c :| c in team;
      var i, j :| 0 <= i <= j < |cfgs| && ToTrip(cfgs[i]) > cfgs[j].failureThreshold;
      TripPositive(cfgs[i]);
      var steps := Rounds(ToTrip(cfgs[i]) - 1, c, Fail(c));
      AlmostTrips(0, c, team, cfgs[i]);
      OnlyPhase(0, cfgs[..j + 1], i, steps, team);
      assert |Only(i, steps, j + 1)| == j + 1 && cfgs[..j + 1][i] == cfgs[i];
    }
  }

  lemma TripPositive(cfg: Config)
    ensures ToTrip(cfg) >= 1
  {
  }

  lemma AlmostTrips(clock: int, c: nat, team: set<nat>, cfg: Config)
    requires c in team && ToTrip(cfg) >= 1
    ensures Exec(clock, Rounds(ToTrip(cfg) - 1, c, Fail(c)), team, cfg).core.failureCount == ToTrip(cfg) - 1
  {
    FailuresAddUp(clock, ToTrip(cfg) - 1, c, team, cfg);
  }

  /** The same for the half-open counter and its limit. */
  lemma {:induction false} AdmissionsStayWithinIff(cfgs: seq<Config>, team: set<nat>)
    requires team != {}
    ensures AdmissionsStayWithin(cfgs, team) <==> LimitsRise(cfgs)
  {
    hide Phases, Limit, Exec;
    if LimitsRise(cfgs) {
      forall clock, runs, k | 1 <= k <= |cfgs| && |runs| == k
        ensures Phases(clock, cfgs[..k], runs, team).core.halfOpenRequests <= Limit(cfgs[k - 1])
      {
        PhasesWithin(clock, cfgs[..k], runs, team, Limit(cfgs[k - 1]));
      }
    } else {
      var c :| c in team;
      var i, j :| 0 <= i <= j < |cfgs| && Limit(cfgs[i]) > Limit(cfgs[j]);
      var steps := StuckRun(c, cfgs[i], Abandon(c));
      StuckRunGetsStuck(0, c, team, cfgs[i], Abandon(c));
      OnlyPhase(0, cfgs[..j + 1], i, steps, team);
      assert |Only(i, steps, j + 1)| == j + 1 && cfgs[..j + 1][i] == cfgs[i];
    }
  }

  // ---- successes ---------------------------------------------------------------------------

  /** The successes that close a half-open breaker. */
  function ToClose(cfg: Config): nat { if cfg.successThreshold < 1 then 1 else cfg.successThreshold }

  /** The most successes a half-open breaker can have counted without closing: each admission that its
      counter allows, and one more for each caller, who may have been let in before or on an open copy. */
  function MostSuccesses(cfg: Config, team: set<nat>): int { Min(ToClose(cfg) - 1, Limit(cfg) + |team|) }

  predicate IsExtra(pc: Pc) { pc != Idle && pc != SawHalfOpen }

  /** The callers who are, or may yet be, admitted without being counted. */
  function Extra(s: Sys): set<nat> { set c | c in s.pcs && IsExtra(s.pcs[c]) }

  ghost predicate Budgeted(s: Sys, team: set<nat>, cfg: Config)
  {
    && s.pcs.Keys <= team
    && 0 <= s.core.successCount < ToClose(cfg) && 0 <= s.core.halfOpenRequests <= Limit(cfg)
    && (s.core.state != HalfOpen ==> s.core.successCount == 0)
    && (s.core.state == HalfOpen ==> s.core.successCount + |Extra(s)| <= s.core.halfOpenRequests + |team|)
  }

  lemma {:induction false} MoveExtra(s: Sys, s': Sys, c: nat, pc: Pc)
    requires s'.pcs == s.pcs[c := pc]
    ensures |Extra(s')| == |Extra(s)| + (if IsExtra(pc) then 1 else 0) - if IsExtra(PcOf(s, c)) then 1 else 0
  {
    if IsExtra(pc) {
      assert Extra(s') == Extra(s) + {c};
    } else {
      assert Extra(s') == Extra(s) - {c};
    }
    assert c in Extra(s) <==> IsExtra(PcOf(s, c));
  }

  lemma {:induction false} ExtraWithinTeam(s: Sys, team: set<nat>)
    requires s.pcs.Keys <= team
    ensures |Extra(s)| <= |team|
  {
    SubsetSize(Extra(s), team);
  }

  lemma {:induction false} BudgetStep(s: Sys, step: Step, team: set<nat>, cfg: Config)
    requires Budgeted(s, team, cfg)
    ensures Budgeted(Next(s, step, team, cfg), team, cfg)
  {
    hide Extra;
    var s' := Next(s, step, team, cfg);
    if s' != s {
      match step
      case Tick(_) => assert Extra(s') == Extra(s) by { SameExtra(s, s'); }
      case Snapshot(c) => MoveExtra(s, s', c, PcOf(s', c));
      case Proceed(c) => MoveExtra(s, s', c, PcOf(s', c));
      case Succeed(c) => MoveExtra(s, s', c, Idle);
      case Fail(c) => MoveExtra(s, s', c, Idle);
      case Abandon(c) => MoveExtra(s, s', c, Idle);
    }
    ExtraWithinTeam(s', team);
  }

  lemma SameExtra(s: Sys, s': Sys)
    requires s'.pcs == s.pcs
    ensures Extra(s') == Extra(s)
  {
  }

  lemma {:induction false} AlwaysBudgeted(clock: int, steps: seq<Step>, team: set<nat>, cfg: Config)
    ensures Budgeted(Exec(clock, steps, team, cfg), team, cfg)
  {
    if steps != [] {
      AlwaysBudgeted(clock, steps[..|steps| - 1], team, cfg);
      BudgetStep(Exec(clock, steps[..|steps| - 1], team, cfg), steps[|steps| - 1], team, cfg);
    }
  }

  /** These callers are past the timeout test, the others outside. */
  ghost predicate PastTest(s: Sys, callers: set<nat>)
  {
    forall c :: if c in callers then PcOf(s, c).PassedTimeout? else PcOf(s, c) == Idle
  }

  lemma {:induction false} GetPastTest(s: Sys, callers: set<nat>, team: set<nat>, cfg: Config) returns (steps: seq<Step>)
    requires s.core.state == Open && TimedOut(s.core.lastFailureTime, cfg, s.clock) && PastTest(s, {}) && callers <= team
    ensures var s' := ExecFrom(s, steps, team, cfg);
      s'.core == s.core && s'.clock == s.clock && PastTest(s', callers)
    decreases callers
  {
    steps := [];
    if callers != {} {
      var c :| c in callers;
      var front := GetPastTest(s, callers - {c}, team, cfg);
      var s1 := ExecFrom(s, front, team, cfg);
      OnePastTest(s1, c, callers - {c}, team, cfg);
      ExecTwo(s1, Snapshot(c), Proceed(c), team, cfg);
      ExecConcat(s, front, [Snapshot(c), Proceed(c)], team, cfg);
      assert callers == callers - {c} + {c};
      steps := front + [Snapshot(c), Proceed(c)];
    }
  }

  lemma {:induction false} OnePastTest(s: Sys, c: nat, callers: set<nat>, team: set<nat>, cfg: Config)
    requires s.core.state == Open && TimedOut(s.core.lastFailureTime, cfg, s.clock) && PastTest(s, callers)
    requires c in team && c !in callers
    ensures var s' := Next(Next(s, Snapshot(c), team, cfg), Proceed(c), team, cfg);
      s'.core == s.core && s'.clock == s.clock && PastTest(s', callers + {c})
  {
    var s1 := Next(s, Snapshot(c), team, cfg);
    assert PcOf(s, c) == Idle;
    assert s1 == At(s, c, SawOpen(s.core.lastFailureTime));
    var s' := Next(s1, Proceed(c), team, cfg);
    assert s' == At(s1, c, PassedTimeout(s.core.lastFailureTime));
    forall d ensures if d in callers + {c} then PcOf(s', d).PassedTimeout? else PcOf(s', d) == Idle {
      assert d != c ==> PcOf(s', d) == PcOf(s, d);
    }
  }

  /** Each of them is let in and succeeds. */
  lemma {:induction false} AllSucceed(s: Sys, callers: set<nat>, team: set<nat>, cfg: Config) returns (steps: seq<Step>)
    requires s.core.state == HalfOpen && PastTest(s, callers) && callers <= team
    requires s.core.successCount + |callers| < cfg.successThreshold
    ensures var s' := ExecFrom(s, steps, team, cfg);
      && s'.core == s.core.(successCount := s.core.successCount + |callers|) && PastTest(s', {})
    decreases callers
  {
    steps := [];
    if callers != {} {
      var c :| c in callers;
      OneSucceeds(s, c, callers, team, cfg);
      var s1 := Next(Next(s, Proceed(c), team, cfg), Succeed(c), team, cfg);
      var rest := AllSucceed(s1, callers - {c}, team, cfg);
      ExecTwo(s, Proceed(c), Succeed(c), team, cfg);
      ExecConcat(s, [Proceed(c), Succeed(c)], rest, team, cfg);
      steps := [Proceed(c), Succeed(c)] + rest;
    }
  }

  lemma {:induction false} OneSucceeds(s: Sys, c: nat, callers: set<nat>, team: set<nat>, cfg: Config)
    requires s.core.state == HalfOpen && PastTest(s, callers) && c in callers && c in team
    requires s.core.successCount + 1 < cfg.successThreshold
    ensures var s' := Next(Next(s, Proceed(c), team, cfg), Succeed(c), team, cfg);
      && s'.core == s.core.(successCount := s.core.successCount + 1) && PastTest(s', callers - {c})
  {
    assert PcOf(s, c).PassedTimeout?;
    var s1 := Next(s, Proceed(c), team, cfg);
    assert s1.core == s.core && s1.pcs == s.pcs[c := Admitted];
    var s' := Next(s1, Succeed(c), team, cfg);
    assert s'.pcs == s.pcs[c := Admitted][c := Idle];
    forall d ensures if d in callers - {c} then PcOf(s', d).PassedTimeout? else PcOf(s', d) == Idle {
      assert d != c ==> PcOf(s', d) == PcOf(s, d);
    }
  }

  /** The first trial of the episode, which succeeds. */
  lemma {:induction false} FirstSucceeds(s: Sys, a: nat, callers: set<nat>, team: set<nat>, cfg: Config) returns (steps: seq<Step>)
    requires s.core.state == Open && PastTest(s, callers) && a in callers && a in team && cfg.successThreshold > 1
    ensures var s' := ExecFrom(s, steps, team, cfg);
      && s'.core.state == HalfOpen && s'.core.successCount == 1 && s'.core.halfOpenRequests == 0
      && PastTest(s', callers - {a})
  {
    steps := [Proceed(a), Succeed(a)];
    ExecTwo(s, Proceed(a), Succeed(a), team, cfg);
    assert PcOf(s, a).PassedTimeout?;
    var s1 := Next(s, Proceed(a), team, cfg);
    assert s1.core == TransitionTo(s.core, HalfOpen, s.clock) && s1.pcs == s.pcs[a := Admitted];
    var s' := Next(s1, Succeed(a), team, cfg);
    assert s'.pcs == s.pcs[a := Admitted][a := Idle];
    forall d ensures if d in callers - {a} then PcOf(s', d).PassedTimeout? else PcOf(s', d) == Idle {
      assert d != a ==> PcOf(s', d) == PcOf(s, d);
    }
  }

  lemma {:induction false} Choose(from: set<nat>, n: nat) returns (some: set<nat>)
    requires n <= |from|
    ensures some <= from && |some| == n
  {
    some := {};
    if n > 0 {
      var c :| c in from;
      some := Choose(from - {c}, n - 1);
      some := some + {c};
    }
  }

  lemma {:induction false} MostIsReached(clock: int, team: set<nat>, cfg: Config) returns (steps: seq<Step>)
    requires team != {} && MostSuccesses(cfg, team) > 0
    ensures Exec(clock, steps, team, cfg).core.successCount == MostSuccesses(cfg, team)
  {
    hide Next, TripOpen, Rounds, PastTest;
    var n := MostSuccesses(cfg, team);
    var a :| a in team;
    var others := Choose(team - {a}, Min(n, |team|) - 1);
    var tripped := Exec(clock, TripOpen(a, cfg), team, cfg);
    TripsOpen(clock, a, team, cfg);
    WaitsOut(tripped, a, team, cfg);
    var s0 := Next(tripped, Tick(Patience(cfg)), team, cfg);
    var copies := GetPastTest(s0, others + {a}, team, cfg);
    var s1 := ExecFrom(s0, copies, team, cfg);
    var first := FirstSucceeds(s1, a, others + {a}, team, cfg);
    var s2 := ExecFrom(s1, first, team, cfg);
    assert others + {a} - {a} == others;
    var more := AllSucceed(s2, others, team, cfg);
    var s3 := ExecFrom(s2, more, team, cfg);
    OutAgain(s3);
    TrialsUseUpTheLimit(s3, n - 1 - |others|, a, team, cfg, Succeed(a));
    var trip, wait := TripOpen(a, cfg), [Tick(Patience(cfg))];
    var last := Rounds(n - 1 - |others|, a, Succeed(a));
    ExecOne(tripped, wait[0], team, cfg);
    ExecConcat(Start(clock), trip, wait, team, cfg);
    ExecConcat(Start(clock), trip + wait, copies, team, cfg);
    ExecConcat(Start(clock), trip + wait + copies, first, team, cfg);
    ExecConcat(Start(clock), trip + wait + copies + first, more, team, cfg);
    ExecConcat(Start(clock), trip + wait + copies + first + more, last, team, cfg);
    steps := trip + wait + copies + first + more + last;
  }

  lemma ExecOne(s: Sys, x: Step, team: set<nat>, cfg: Config)
    ensures ExecFrom(s, [x], team, cfg) == Next(s, x, team, cfg)
  {
    assert [x][..0] == [];
  }

  lemma WaitsOut(s: Sys, a: nat, team: set<nat>, cfg: Config)
    requires AllOut(s) && s.core.state == Open && s.core.lastFailureTime == s.clock
    ensures var s' := Next(s, Tick(Patience(cfg)), team, cfg);
      s'.core == s.core && TimedOut(s'.core.lastFailureTime, cfg, s'.clock) && PastTest(s', {})
  {
  }

  lemma OutAgain(s: Sys)
    requires PastTest(s, {})
    ensures AllOut(s)
  {
    forall c | c in s.pcs ensures s.pcs[c] == Idle {
      assert PcOf(s, c) == Idle;
    }
  }

  ghost predicate SuccessesStayBelow(cfg: Config, team: set<nat>, bound: int)
  {
    forall clock, steps :: Exec(clock, steps, team, cfg).core.successCount < bound
  }

  /** Main result, for every configuration and every bound, such as a threshold that replaces the current
      one: the success count stays below it in every run exactly when the most that a run can reach does. */
  lemma {:induction false} SuccessesStayBelowIff(cfg: Config, team: set<nat>, bound: int)
    requires team != {}
    ensures SuccessesStayBelow(cfg, team, bound) <==> MostSuccesses(cfg, team) < bound
  {
    hide Exec;
    if MostSuccesses(cfg, team) < bound {
      forall clock, steps ensures Exec(clock, steps, team, cfg).core.successCount < bound {
        AlwaysBudgeted(clock, steps, team, cfg);
      }
    } else if MostSuccesses(cfg, team) > 0 {
      var steps := MostIsReached(0, team, cfg);
      assert Exec(0, steps, team, cfg).core.successCount >= bound;
    } else {
      assert Exec(0, [], team, cfg).core.successCount == 0 by { NothingYet(0, team, cfg); }
    }
  }

  lemma NothingYet(clock: int, team: set<nat>, cfg: Config)
    ensures Exec(clock, [], team, cfg).core.successCount == 0
  {
  }
}
