/** Whether a half-open breaker can always get out again, and what an uninterrupted `Allow` adds to the
    bounds of `BreakerProtocol`. */
module BreakerRecovery {
  import opened CircuitBreaker
  import opened BreakerProtocol

  function AdmittedCallers(s: Sys): set<nat> { set c | c in s.pcs && s.pcs[c] == Admitted }

  /** The breaker refuses every request and nobody is left who could move it. */
  ghost predicate Stuck(s: Sys, cfg: Config)
  {
    s.core.state == HalfOpen && s.core.halfOpenRequests >= Limit(cfg) && AdmittedCallers(s) == {}
  }

  /** Every admitted caller records its outcome. */
  ghost predicate Diligent(steps: seq<Step>) { forall step :: step in steps ==> !step.Abandon? }

  // ---- safety: every admission of the episode is recorded or outstanding -------------------

  ghost predicate Accounted(s: Sys)
  {
    s.core.state == HalfOpen ==> EpisodeSuccesses(s.log) + |AdmittedCallers(s)| >= EpisodeAdmissions(s.log)
  }

  lemma MovePc(s: Sys, c: nat, pc: Pc)
    ensures PcOf(s, c) != Admitted && pc != Admitted ==> AdmittedCallers(At(s, c, pc)) == AdmittedCallers(s)
    ensures PcOf(s, c) != Admitted && pc == Admitted ==> |AdmittedCallers(At(s, c, pc))| == |AdmittedCallers(s)| + 1
    ensures PcOf(s, c) == Admitted && pc != Admitted ==> |AdmittedCallers(At(s, c, pc))| + 1 == |AdmittedCallers(s)|
  {
    var s' := At(s, c, pc);
    if PcOf(s, c) != Admitted && pc == Admitted {
      assert AdmittedCallers(s') == AdmittedCallers(s) + {c};
    } else if PcOf(s, c) == Admitted && pc != Admitted {
      assert AdmittedCallers(s) == AdmittedCallers(s') + {c};
    } else if PcOf(s, c) != Admitted {
      assert AdmittedCallers(s') == AdmittedCallers(s);
    }
  }

  lemma SameCallers(s: Sys, s': Sys)
    requires s.pcs == s'.pcs
    ensures AdmittedCallers(s) == AdmittedCallers(s')
  {
  }

  lemma EnterKeepsAccounts(s: Sys, c: nat, cfg: Config)
    requires Accounted(s) && PcOf(s, c).PassedTimeout?
    ensures Accounted(Advance(s, c, cfg))
  {
    hide EpisodeSuccesses, EpisodeAdmissions, AdmittedCallers, StateAfter, TrailingFailures, LastFailureAt, OpenAdmitted, OnlyLegalEdges;
    var entered := Moved(s, EnterHalfOpen(s.core, s.clock), []);
    if s.core.state == Open {
      LogStep(s.log, Change(HalfOpen, s.clock));
      assert entered.log == s.log + [Change(HalfOpen, s.clock)];
    } else {
      assert entered.log == s.log;
    }
    LogStep(entered.log, Admit(c, true));
    var logged := entered.(log := entered.log + [Admit(c, true)]);
    SameCallers(s, logged);
    MovePc(logged, c, Admitted);
  }

  lemma ProceedKeepsAccounts(s: Sys, c: nat, cfg: Config)
    requires Accounted(s)
    ensures Accounted(Advance(s, c, cfg))
  {
    hide EpisodeSuccesses, EpisodeAdmissions, AdmittedCallers, StateAfter, TrailingFailures, LastFailureAt, OpenAdmitted, OnlyLegalEdges;
    match PcOf(s, c)
    case PassedTimeout(_) =>
      EnterKeepsAccounts(s, c, cfg);
    case SawHalfOpen =>
      var (core, ok) := TakeHalfOpenSlot(s.core, cfg);
      var logged := s.(core := core, log := s.log + [Admit(c, false)]);
      LogStep(s.log, Admit(c, false));
      SameCallers(s, logged);
      MovePc(logged, c, Admitted);
      MovePc(s, c, Idle);
    case SawOpen(lf) =>
      MovePc(s, c, if TimedOut(lf, cfg, s.clock) then PassedTimeout(lf) else Idle);
    case SawClosed =>
      MovePc(s, c, Admitted);
    case Idle =>
    case Admitted =>
  }

  lemma RecordKeepsAccounts(s: Sys, core: Core, e: Event, c: nat, cfg: Config)
    requires Accounted(s) && PcOf(s, c) == Admitted && (e == Success || e == Failure(s.clock))
    requires core == if e == Success then OnSuccess(s.core, cfg, s.clock) else OnFailure(s.core, cfg, s.clock)
    ensures Accounted(At(Moved(s, core, [e]), c, Idle))
  {
    hide EpisodeSuccesses, EpisodeAdmissions, AdmittedCallers, StateAfter, TrailingFailures, LastFailureAt, OpenAdmitted, OnlyLegalEdges;
    var moved := Moved(s, core, [e]);
    if core.state == HalfOpen {
      assert moved.log == s.log + [e];
      LogStep(s.log, e);
      SameCallers(s, moved);
      MovePc(moved, c, Idle);
    }
  }

  lemma NextKeepsAccounts(s: Sys, step: Step, team: set<nat>, cfg: Config)
    requires Accounted(s) && !step.Abandon?
    ensures Accounted(Next(s, step, team, cfg))
  {
    hide EpisodeSuccesses, EpisodeAdmissions, AdmittedCallers, StateAfter, TrailingFailures, LastFailureAt, OpenAdmitted, OnlyLegalEdges, Advance, OnSuccess, OnFailure, Moved;
    match step
    case Tick(d) => SameCallers(s, Next(s, step, team, cfg));
    case Snapshot(c) =>
      if c in team && PcOf(s, c) == Idle {
        MovePc(s, c, PcOf(TakeSnapshot(s, c), c));
      }
    case Proceed(c) => ProceedKeepsAccounts(s, c, cfg);
    case Succeed(c) =>
      if c in team && PcOf(s, c) == Admitted {
        RecordKeepsAccounts(s, OnSuccess(s.core, cfg, s.clock), Success, c, cfg);
      }
    case Fail(c) =>
      if c in team && PcOf(s, c) == Admitted {
        RecordKeepsAccounts(s, OnFailure(s.core, cfg, s.clock), Failure(s.clock), c, cfg);
      }
  }

  lemma {:induction false} ExecKeepsAccounts(s: Sys, steps: seq<Step>, team: set<nat>, cfg: Config)
    requires Accounted(s) && Diligent(steps)
    ensures Accounted(ExecFrom(s, steps, team, cfg))
  {
    hide Accounted, Next;
    if steps != [] {
      ExecKeepsAccounts(s, steps[..|steps| - 1], team, cfg);
      NextKeepsAccounts(ExecFrom(s, steps[..|steps| - 1], team, cfg), steps[|steps| - 1], team, cfg);
    }
  }

  lemma NeverStuck(clock: int, steps: seq<Step>, team: set<nat>, cfg: Config)
    requires Positive(cfg) && Diligent(steps) && cfg.successThreshold <= Limit(cfg) + 1
    ensures !Stuck(Exec(clock, steps, team, cfg), cfg)
  {
    var s := Exec(clock, steps, team, cfg);
    ExecKeepsAccounts(Start(clock), steps, team, cfg);
    ExecInv(clock, steps, team, cfg);
    if s.core.state == HalfOpen {
      assert OpenAdmitted(s.log) != {};
      assert |OpenAdmitted(s.log)| >= 1;
    }
  }

  // ---- the runs that do get stuck ----------------------------------------------------------

  lemma {:induction false} ExecConcat(s: Sys, a: seq<Step>, b: seq<Step>, team: set<nat>, cfg: Config)
    ensures ExecFrom(s, a + b, team, cfg) == ExecFrom(ExecFrom(s, a, team, cfg), b, team, cfg)
  {
    hide Next;
    if b == [] {
      assert a + b == a;
    } else {
      assert (a + b)[..|a + b| - 1] == a + b[..|b| - 1];
      ExecConcat(s, a, b[..|b| - 1], team, cfg);
    }
  }

  lemma ExecThree(s: Sys, x: Step, y: Step, z: Step, team: set<nat>, cfg: Config)
    ensures ExecFrom(s, [x, y, z], team, cfg) == Next(Next(Next(s, x, team, cfg), y, team, cfg), z, team, cfg)
  {
    hide Next;
    ExecTwo(s, x, y, team, cfg);
    assert [x, y, z][..2] == [x, y];
  }

  lemma ExecTwo(s: Sys, x: Step, y: Step, team: set<nat>, cfg: Config)
    ensures ExecFrom(s, [x, y], team, cfg) == Next(Next(s, x, team, cfg), y, team, cfg)
  {
    hide Next;
    assert ExecFrom(s, [x], team, cfg) == Next(s, x, team, cfg) by { assert [x][..0] == []; }
    assert [x, y][..1] == [x];
  }

  /** One caller that asks, is let in at once, and ends with `last`, `k` times over. */
  function Rounds(k: nat, c: nat, last: Step): seq<Step>
  {
    if k == 0 then [] else Rounds(k - 1, c, last) + [Snapshot(c), Proceed(c), last]
  }

  lemma {:induction false} RoundsDiligent(k: nat, c: nat, last: Step)
    requires !last.Abandon?
    ensures Diligent(Rounds(k, c, last))
  {
    if k > 0 { RoundsDiligent(k - 1, c, last); }
  }

  lemma RoundsStep(s: Sys, k: nat, c: nat, last: Step, team: set<nat>, cfg: Config)
    ensures var s' := ExecFrom(s, Rounds(k, c, last), team, cfg);
      ExecFrom(s, Rounds(k + 1, c, last), team, cfg) == Next(LetIn(s', c, team, cfg), last, team, cfg)
  {
    hide Next;
    ExecConcat(s, Rounds(k, c, last), [Snapshot(c), Proceed(c), last], team, cfg);
    ExecThree(ExecFrom(s, Rounds(k, c, last), team, cfg), Snapshot(c), Proceed(c), last, team, cfg);
  }

  predicate OthersOut(s: Sys, c: nat) { forall d :: d in s.pcs && d != c ==> s.pcs[d] == Idle }

  /** Everybody is outside. */
  predicate AllOut(s: Sys) { forall c :: c in s.pcs ==> s.pcs[c] == Idle }

  /** A lone caller that a closed breaker, or a half-open one with room, lets in. */
  function LetIn(s: Sys, c: nat, team: set<nat>, cfg: Config): Sys
  {
    Next(Next(s, Snapshot(c), team, cfg), Proceed(c), team, cfg)
  }

  lemma LetsIn(s: Sys, c: nat, team: set<nat>, cfg: Config)
    requires c in team && AllOut(s)
    requires s.core.state == Closed || (s.core.state == HalfOpen && s.core.halfOpenRequests < Limit(cfg))
    ensures var s' := LetIn(s, c, team, cfg);
      && OthersOut(s', c) && PcOf(s', c) == Admitted && s'.clock == s.clock
      && s'.core == if s.core.state == Closed then s.core else s.core.(halfOpenRequests := s.core.halfOpenRequests + 1)
  {
    var s1 := Next(s, Snapshot(c), team, cfg);
    assert s1.core == s.core && s1.clock == s.clock && OthersOut(s1, c);
  }

  lemma {:induction false} FailuresAddUp(clock: int, k: nat, c: nat, team: set<nat>, cfg: Config)
    requires c in team && (k == 0 || k < cfg.failureThreshold)
    ensures var s := Exec(clock, Rounds(k, c, Fail(c)), team, cfg);
      AllOut(s) && s.clock == clock && s.core.state == Closed && s.core.failureCount == k
  {
    hide Advance, TakeSnapshot;
    if k > 0 {
      FailuresAddUp(clock, k - 1, c, team, cfg);
      LetsIn(Exec(clock, Rounds(k - 1, c, Fail(c)), team, cfg), c, team, cfg);
      RoundsStep(Start(clock), k - 1, c, Fail(c), team, cfg);
    }
  }

  /** The failures in a row that open a closed breaker. */
  function ToTrip(cfg: Config): nat { if cfg.failureThreshold < 1 then 1 else cfg.failureThreshold }

  function TripOpen(c: nat, cfg: Config): seq<Step> { Rounds(ToTrip(cfg), c, Fail(c)) }

  lemma TripsOpen(clock: int, c: nat, team: set<nat>, cfg: Config)
    requires c in team
    ensures var s := Exec(clock, TripOpen(c, cfg), team, cfg);
      AllOut(s) && s.clock == clock && s.core.state == Open
      && s.core.lastFailureTime == s.core.lastStateChange == clock
  {
    hide Advance, TakeSnapshot;
    var k := ToTrip(cfg) - 1;
    FailuresAddUp(clock, k, c, team, cfg);
    LetsIn(Exec(clock, Rounds(k, c, Fail(c)), team, cfg), c, team, cfg);
    RoundsStep(Start(clock), k, c, Fail(c), team, cfg);
  }

  function Patience(cfg: Config): nat { if cfg.timeout < 0 then 0 else cfg.timeout + 1 }

  /** Waits out the open period, enters the half-open state and ends that first trial with `last`. */
  function FirstTrial(c: nat, cfg: Config, last: Step): seq<Step>
  {
    [Tick(Patience(cfg)), Snapshot(c), Proceed(c)] + [Proceed(c), last]
  }

  lemma FirstTrialEnters(s: Sys, c: nat, team: set<nat>, cfg: Config, last: Step)
    requires c in team && AllOut(s) && s.core.state == Open && s.core.lastFailureTime == s.clock
    requires last == Abandon(c) || (last == Succeed(c) && cfg.successThreshold > 1)
    ensures var s' := ExecFrom(s, FirstTrial(c, cfg, last), team, cfg);
      && AllOut(s') && s'.core.state == HalfOpen && s'.core.halfOpenRequests == 0
      && s'.core.successCount == if last == Succeed(c) then 1 else 0
  {
    hide ExecFrom, Advance, TakeSnapshot;
    var s3 := ExecFrom(s, [Tick(Patience(cfg)), Snapshot(c), Proceed(c)], team, cfg);
    ExecConcat(s, [Tick(Patience(cfg)), Snapshot(c), Proceed(c)], [Proceed(c), last], team, cfg);
    ExecThree(s, Tick(Patience(cfg)), Snapshot(c), Proceed(c), team, cfg);
    TestsTimeout(s, c, team, cfg);
    EntersOnTimeout(s3, c, team, cfg);
    ExecTwo(s3, Proceed(c), last, team, cfg);
  }

  lemma EntersOnTimeout(s: Sys, c: nat, team: set<nat>, cfg: Config)
    requires c in team && OthersOut(s, c) && PcOf(s, c).PassedTimeout? && s.core.state == Open
    ensures var s' := Next(s, Proceed(c), team, cfg);
      && OthersOut(s', c) && PcOf(s', c) == Admitted
      && s'.core.state == HalfOpen && s'.core.halfOpenRequests == s'.core.successCount == 0
  {
  }

  lemma TestsTimeout(s: Sys, c: nat, team: set<nat>, cfg: Config)
    requires c in team && AllOut(s) && s.core.state == Open && s.core.lastFailureTime == s.clock
    ensures var s' := Next(Next(Next(s, Tick(Patience(cfg)), team, cfg), Snapshot(c), team, cfg), Proceed(c), team, cfg);
      s'.core == s.core && OthersOut(s', c) && PcOf(s', c) == PassedTimeout(s.clock)
  {
    var s2 := Next(Next(s, Tick(Patience(cfg)), team, cfg), Snapshot(c), team, cfg);
    assert s2.core == s.core && OthersOut(s2, c) && PcOf(s2, c) == SawOpen(s.clock);
  }

  lemma {:induction false} TrialsUseUpTheLimit(s: Sys, k: nat, c: nat, team: set<nat>, cfg: Config, last: Step)
    requires c in team && AllOut(s) && s.core.state == HalfOpen && s.core.halfOpenRequests == 0 && k <= Limit(cfg)
    requires last == Abandon(c) || (last == Succeed(c) && s.core.successCount + k < cfg.successThreshold)
    ensures var s' := ExecFrom(s, Rounds(k, c, last), team, cfg);
      && AllOut(s') && s'.core.state == HalfOpen && s'.core.halfOpenRequests == k
      && s'.core.successCount == s.core.successCount + if last == Succeed(c) then k else 0
  {
    hide Advance, TakeSnapshot;
    if k > 0 {
      TrialsUseUpTheLimit(s, k - 1, c, team, cfg, last);
      LetsIn(ExecFrom(s, Rounds(k - 1, c, last), team, cfg), c, team, cfg);
      RoundsStep(s, k - 1, c, last, team, cfg);
    }
  }

  function StuckRun(c: nat, cfg: Config, last: Step): seq<Step>
  {
    TripOpen(c, cfg) + (FirstTrial(c, cfg, last) + Rounds(Limit(cfg), c, last))
  }

  /** If trials may be abandoned, or the success threshold is out of the limit's reach, a single
      caller is enough to get the breaker stuck. */
  lemma StuckRunGetsStuck(clock: int, c: nat, team: set<nat>, cfg: Config, last: Step)
    requires c in team
    requires last == Abandon(c) || (last == Succeed(c) && cfg.successThreshold > Limit(cfg) + 1)
    ensures Stuck(Exec(clock, StuckRun(c, cfg, last), team, cfg), cfg)
    ensures AllOut(Exec(clock, StuckRun(c, cfg, last), team, cfg))
  {
    hide Next, TripOpen, FirstTrial, Rounds;
    var tripped := Exec(clock, TripOpen(c, cfg), team, cfg);
    TripsOpen(clock, c, team, cfg);
    ExecConcat(Start(clock), TripOpen(c, cfg), FirstTrial(c, cfg, last) + Rounds(Limit(cfg), c, last), team, cfg);
    var trying := ExecFrom(tripped, FirstTrial(c, cfg, last), team, cfg);
    FirstTrialEnters(tripped, c, team, cfg, last);
    ExecConcat(tripped, FirstTrial(c, cfg, last), Rounds(Limit(cfg), c, last), team, cfg);
    TrialsUseUpTheLimit(trying, Limit(cfg), c, team, cfg, last);
  }

  ghost predicate WedgeFree(cfg: Config)
  {
    forall clock, steps, team :: Diligent(steps) ==> !Stuck(Exec(clock, steps, team, cfg), cfg)
  }

  /** Main result: when every admitted caller records its outcome, the breaker can never be left
      refusing everybody with nobody to move it, exactly when the success threshold is at most one
      above the half-open limit. */
  lemma WedgeFreeIff(cfg: Config)
    requires Positive(cfg)
    ensures WedgeFree(cfg) <==> cfg.successThreshold <= Limit(cfg) + 1
  {
    hide Stuck, Exec;
    if cfg.successThreshold <= Limit(cfg) + 1 {
      forall clock, steps, team | Diligent(steps) ensures !Stuck(Exec(clock, steps, team, cfg), cfg) {
        NeverStuck(clock, steps, team, cfg);
      }
    } else {
      StuckRunGetsStuck(0, 0, {0}, cfg, Succeed(0));
      RoundsDiligent(ToTrip(cfg), 0, Fail(0));
      RoundsDiligent(Limit(cfg), 0, Succeed(0));
      assert Diligent(StuckRun(0, cfg, Succeed(0)));
    }
  }

  /** An admission that is never recorded breaks that for every configuration. */
  lemma AbandoningWedges(clock: int, c: nat, team: set<nat>, cfg: Config)
    requires c in team
    ensures exists steps :: Stuck(Exec(clock, steps, team, cfg), cfg) && AllOut(Exec(clock, steps, team, cfg))
  {
    StuckRunGetsStuck(clock, c, team, cfg, Abandon(c));
  }

  // ---- Allow without interruption ----------------------------------------------------------

  /** `Allow` by a caller that nobody interrupts: its snapshot and both of its later pieces in a row. */
  function Ask(s: Sys, c: nat, team: set<nat>, cfg: Config): Sys
  {
    Next(Next(Next(s, Snapshot(c), team, cfg), Proceed(c), team, cfg), Proceed(c), team, cfg)
  }

  datatype Call = Asks(caller: nat) | Reports(caller: nat, ok: bool) | Waits(elapsed: nat)

  function NextCall(s: Sys, call: Call, team: set<nat>, cfg: Config): Sys
  {
    match call
    case Asks(c) => if PcOf(s, c) == Idle then Ask(s, c, team, cfg) else s
    case Reports(c, ok) => Next(s, if ok then Succeed(c) else Fail(c), team, cfg)
    case Waits(d) => Next(s, Tick(d), team, cfg)
  }

  function Calls(clock: int, calls: seq<Call>, team: set<nat>, cfg: Config): Sys
  {
    if calls == [] then Start(clock)
    else NextCall(Calls(clock, calls[..|calls| - 1], team, cfg), calls[|calls| - 1], team, cfg)
  }

  /** The three pieces together are the class's `Allow`. */
  lemma AskIsAllow(s: Sys, c: nat, team: set<nat>, cfg: Config)
    requires c in team && PcOf(s, c) == Idle
    ensures Ask(s, c, team, cfg).core == AllowStep(s.core, cfg, s.clock).0
    ensures Ask(s, c, team, cfg).pcs == s.pcs[c := if AllowStep(s.core, cfg, s.clock).1 then Admitted else Idle]
    ensures Ask(s, c, team, cfg).log == s.log
            + (if s.core.state == Open && AllowStep(s.core, cfg, s.clock).1 then [Change(HalfOpen, s.clock)] else [])
            + (if s.core.state != Closed && AllowStep(s.core, cfg, s.clock).1 then [Admit(c, s.core.state == Open)] else [])
  {
    var s1 := Next(s, Snapshot(c), team, cfg);
    assert s1.core == s.core && s1.clock == s.clock && s1.log == s.log;
    var s2 := Next(s1, Proceed(c), team, cfg);
    assert s1.pcs == s.pcs[c := PcOf(s1, c)] && s2.pcs == s.pcs[c := PcOf(s2, c)];
  }

  /** Uninterrupted calls are runs of the interleaved protocol. */
  lemma {:induction false} CallsAreRuns(clock: int, calls: seq<Call>, team: set<nat>, cfg: Config)
    ensures exists steps :: Calls(clock, calls, team, cfg) == Exec(clock, steps, team, cfg) && Diligent(steps)
  {
    if calls == [] {
      assert Calls(clock, calls, team, cfg) == Exec(clock, [], team, cfg) && Diligent([]);
    } else {
      CallsAreRuns(clock, calls[..|calls| - 1], team, cfg);
      var s := Calls(clock, calls[..|calls| - 1], team, cfg);
      var steps :| s == Exec(clock, steps, team, cfg) && Diligent(steps);
      var more := match calls[|calls| - 1]
        case Asks(c) => if PcOf(s, c) == Idle then [Snapshot(c), Proceed(c), Proceed(c)] else []
        case Reports(c, ok) => [if ok then Succeed(c) else Fail(c)]
        case Waits(d) => [Tick(d)];
      CallIsSteps(s, calls[|calls| - 1], more, team, cfg);
      ExecConcat(Start(clock), steps, more, team, cfg);
      assert Calls(clock, calls, team, cfg) == Exec(clock, steps + more, team, cfg) && Diligent(steps + more);
    }
  }

  lemma CallIsSteps(s: Sys, call: Call, more: seq<Step>, team: set<nat>, cfg: Config)
    requires more == match call
      case Asks(c) => (if PcOf(s, c) == Idle then [Snapshot(c), Proceed(c), Proceed(c)] else [])
      case Reports(c, ok) => [if ok then Succeed(c) else Fail(c)]
      case Waits(d) => [Tick(d)]
    ensures NextCall(s, call, team, cfg) == ExecFrom(s, more, team, cfg)
  {
    hide Next;
    if |more| == 3 {
      ExecThree(s, more[0], more[1], more[2], team, cfg);
    } else if |more| == 1 {
      assert more[..0] == [];
    }
  }

  ghost predicate Uninterrupted(s: Sys, team: set<nat>, cfg: Config)
  {
    && (forall c :: c in s.pcs ==> s.pcs[c] == Idle || s.pcs[c] == Admitted)
    && |OpenAdmitted(s.log)| == (if s.core.state == HalfOpen then 1 else 0)
  }

  lemma AllowStates(b: Core, cfg: Config, now: int)
    ensures AllowStep(b, cfg, now).0.state == if b.state == Open && AllowStep(b, cfg, now).1 then HalfOpen else b.state
  {
  }

  /** What `Ask` appends to the log leaves one open-copy admission in a half-open episode. */
  lemma AskLog(log: seq<Event>, log': seq<Event>, c: nat, now: int, before: State, ok: bool)
    requires |OpenAdmitted(log)| == if before == HalfOpen then 1 else 0
    requires log' == log + (if before == Open && ok then [Change(HalfOpen, now)] else [])
                         + (if before != Closed && ok then [Admit(c, before == Open)] else [])
    ensures |OpenAdmitted(log')| == if before == HalfOpen || (before == Open && ok) then 1 else 0
  {
    hide OpenAdmitted, StateAfter, TrailingFailures, LastFailureAt, EpisodeSuccesses, EpisodeAdmissions, OnlyLegalEdges;
    if before == Open && ok {
      LogStep(log, Change(HalfOpen, now));
      LogStep(log + [Change(HalfOpen, now)], Admit(c, true));
      assert OpenAdmitted(log') == {c};
    } else if before == HalfOpen && ok {
      LogStep(log, Admit(c, false));
      assert log' == log + [Admit(c, false)];
    } else {
      assert log' == log;
    }
  }

  lemma AskUninterrupted(s: Sys, c: nat, team: set<nat>, cfg: Config)
    requires Uninterrupted(s, team, cfg) && PcOf(s, c) == Idle
    ensures Uninterrupted(Ask(s, c, team, cfg), team, cfg)
  {
    hide OpenAdmitted, Ask, AllowStep;
    if c in team {
      AskIsAllow(s, c, team, cfg);
      AllowStates(s.core, cfg, s.clock);
      AskLog(s.log, Ask(s, c, team, cfg).log, c, s.clock, s.core.state, AllowStep(s.core, cfg, s.clock).1);
    } else {
      OutsiderAsks(s, c, team, cfg);
    }
  }

  lemma OutsiderAsks(s: Sys, c: nat, team: set<nat>, cfg: Config)
    requires c !in team
    ensures Ask(s, c, team, cfg) == s
  {
  }

  lemma ReportUninterrupted(s: Sys, c: nat, ok: bool, team: set<nat>, cfg: Config)
    requires Uninterrupted(s, team, cfg)
    ensures Uninterrupted(Next(s, if ok then Succeed(c) else Fail(c), team, cfg), team, cfg)
  {
    hide OpenAdmitted, StateAfter, TrailingFailures, LastFailureAt, EpisodeSuccesses, EpisodeAdmissions, OnlyLegalEdges;
    if c in team && PcOf(s, c) == Admitted {
      var e := if ok then Success else Failure(s.clock);
      var core := if ok then OnSuccess(s.core, cfg, s.clock) else OnFailure(s.core, cfg, s.clock);
      var moved := Moved(s, core, [e]);
      LogStep(s.log, e);
      if core.state != s.core.state {
        LogStep(s.log + [e], Change(core.state, s.clock));
        assert moved.log == s.log + [e] + [Change(core.state, s.clock)];
      } else {
        assert moved.log == s.log + [e];
      }
    }
  }

  lemma {:induction false} CallsUninterrupted(clock: int, calls: seq<Call>, team: set<nat>, cfg: Config)
    ensures Uninterrupted(Calls(clock, calls, team, cfg), team, cfg)
  {
    hide OpenAdmitted, Ask, Next;
    if calls == [] {
      assert OpenAdmitted([]) == {} by { EmptyLog(); }
    } else {
      CallsUninterrupted(clock, calls[..|calls| - 1], team, cfg);
      var s := Calls(clock, calls[..|calls| - 1], team, cfg);
      match calls[|calls| - 1]
      case Asks(c) => if PcOf(s, c) == Idle { AskUninterrupted(s, c, team, cfg); }
      case Reports(c, ok) => ReportUninterrupted(s, c, ok, team, cfg);
      case Waits(d) => TickUninterrupted(s, d, team, cfg);
    }
  }

  lemma EmptyLog() ensures OpenAdmitted([]) == {} {}

  lemma TickUninterrupted(s: Sys, d: nat, team: set<nat>, cfg: Config)
    requires Uninterrupted(s, team, cfg)
    ensures Uninterrupted(Next(s, Tick(d), team, cfg), team, cfg)
  {
  }

  /** When nobody is interrupted inside `Allow`, a half-open episode lets in exactly one request more
      than its counter shows, and so at most one more than the limit. */
  lemma AtomicAdmissionsBound(clock: int, calls: seq<Call>, team: set<nat>, cfg: Config)
    requires Positive(cfg) && Calls(clock, calls, team, cfg).core.state == HalfOpen
    ensures var s := Calls(clock, calls, team, cfg);
      EpisodeAdmissions(s.log) == s.core.halfOpenRequests + 1 <= Limit(cfg) + 1
  {
    hide Exec, Calls;
    CallsAreRuns(clock, calls, team, cfg);
    var steps :| Calls(clock, calls, team, cfg) == Exec(clock, steps, team, cfg) && Diligent(steps);
    ExecInv(clock, steps, team, cfg);
    CallsUninterrupted(clock, calls, team, cfg);
  }
}
