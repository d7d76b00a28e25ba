/** How long the breaker stays open when `Allow` acts on a copy of its state. */
module BreakerOpenPeriod {
  import opened CircuitBreaker
  import opened BreakerProtocol
  import opened BreakerRecovery

  ghost predicate EndsOpenPeriod(s: Sys, step: Step, team: set<nat>, cfg: Config)
  {
    s.core.state == Open && Next(s, step, team, cfg).core.state == HalfOpen
  }

  /** In every run, the breaker leaves the open state only when more than the timeout has passed since
      the last failure that was recorded. */
  ghost predicate OpenLasts(team: set<nat>, cfg: Config)
  {
    forall clock, steps, step ::
      var s := Exec(clock, steps, team, cfg);
      EndsOpenPeriod(s, step, team, cfg) ==> s.clock - LastFailureAt(s.log) > cfg.timeout
  }

  /** The same since it was opened. Failures recorded while open make this the weaker property. */
  ghost predicate OpenLastsSinceOpening(team: set<nat>, cfg: Config)
  {
    forall clock, steps, step ::
      var s := Exec(clock, steps, team, cfg);
      EndsOpenPeriod(s, step, team, cfg) ==> s.clock - LastChangeAt(s.log, clock) > cfg.timeout
  }

  /** The breaker's own times are those of the log. */
  lemma {:induction false} TimesMatch(clock: int, steps: seq<Step>, team: set<nat>, cfg: Config)
    ensures var s := Exec(clock, steps, team, cfg);
      s.core.lastFailureTime == LastFailureAt(s.log) && s.core.lastStateChange == LastChangeAt(s.log, clock)
  {
    hide Next;
    ExecCoherent(clock, steps, team, cfg);
    if steps != [] {
      TimesMatch(clock, steps[..|steps| - 1], team, cfg);
      NextKeepsStamp(Exec(clock, steps[..|steps| - 1], team, cfg), steps[|steps| - 1], team, cfg, clock);
    }
  }

  // ---- two callers can end the period in the instant it begins -----------------------------

  /** Two callers copy the same open state and both pass the timeout test; the first one's trial fails
      and reopens the breaker; the second one then ends that new open period at once. */
  lemma StaleRacePlaysOut(s: Sys, a: nat, b: nat, team: set<nat>, cfg: Config)
    requires a in team && b in team && a != b
    requires AllOut(s) && s.core.state == Open && s.core.lastFailureTime == s.clock
    ensures var copied := Next(Next(Next(s, Tick(Patience(cfg)), team, cfg), Snapshot(a), team, cfg), Snapshot(b), team, cfg);
      var entered := Next(Next(Next(copied, Proceed(a), team, cfg), Proceed(b), team, cfg), Proceed(a), team, cfg);
      var reopened := Next(entered, Fail(a), team, cfg);
      && reopened.core.state == Open
      && reopened.core.lastFailureTime == reopened.core.lastStateChange == reopened.clock
      && Next(reopened, Proceed(b), team, cfg).core.state == HalfOpen
  {
    var copied := Next(Next(Next(s, Tick(Patience(cfg)), team, cfg), Snapshot(a), team, cfg), Snapshot(b), team, cfg);
    assert PcOf(copied, a) == SawOpen(s.clock) == PcOf(copied, b) && copied.core == s.core;
    var passed := Next(Next(copied, Proceed(a), team, cfg), Proceed(b), team, cfg);
    assert PcOf(passed, a) == PassedTimeout(s.clock) == PcOf(passed, b) && passed.core == s.core;
    var entered := Next(passed, Proceed(a), team, cfg);
    assert entered.core.state == HalfOpen && PcOf(entered, a) == Admitted && PcOf(entered, b) == PassedTimeout(s.clock);
  }

  function StaleRace(a: nat, b: nat, cfg: Config): seq<Step>
  {
    TripOpen(a, cfg) + ([Tick(Patience(cfg)), Snapshot(a), Snapshot(b)] + [Proceed(a), Proceed(b), Proceed(a)] + [Fail(a)])
  }

  /** Any two callers of any configuration can make the breaker leave the open state in the very instant
      it was opened, although every admitted caller records its outcome. */
  lemma OpenPeriodCanBeCutShort(clock: int, a: nat, b: nat, team: set<nat>, cfg: Config)
    requires a in team && b in team && a != b
    ensures Diligent(StaleRace(a, b, cfg))
    ensures var s := Exec(clock, StaleRace(a, b, cfg), team, cfg);
      EndsOpenPeriod(s, Proceed(b), team, cfg) && s.clock == LastFailureAt(s.log) == LastChangeAt(s.log, clock)
  {
    hide Next, Rounds;
    var s := Exec(clock, TripOpen(a, cfg), team, cfg);
    TripsOpen(clock, a, team, cfg);
    RoundsDiligent(ToTrip(cfg), a, Fail(a));
    StaleRacePlaysOut(s, a, b, team, cfg);
    var x := [Tick(Patience(cfg)), Snapshot(a), Snapshot(b)];
    var y := [Proceed(a), Proceed(b), Proceed(a)];
    var copied := ExecFrom(s, x, team, cfg);
    ExecThree(s, x[0], x[1], x[2], team, cfg);
    ExecThree(copied, y[0], y[1], y[2], team, cfg);
    ExecConcat(s, x, y, team, cfg);
    var entered := ExecFrom(s, x + y, team, cfg);
    assert ExecFrom(entered, [Fail(a)], team, cfg) == Next(entered, Fail(a), team, cfg) by { assert [Fail(a)][..0] == []; }
    ExecConcat(s, x + y, [Fail(a)], team, cfg);
    ExecConcat(Start(clock), TripOpen(a, cfg), x + y + [Fail(a)], team, cfg);
    TimesMatch(clock, StaleRace(a, b, cfg), team, cfg);
  }

  // ---- a caller on its own never has a stale copy ------------------------------------------

  /** Nobody but `c` takes part, and a copy that says open is the current one. */
  ghost predicate OwnCopy(s: Sys, c: nat, cfg: Config)
  {
    && OthersOut(s, c)
    && (PcOf(s, c).SawOpen? ==> s.core.state == Open && PcOf(s, c).lastFailure == s.core.lastFailureTime)
    && (PcOf(s, c).PassedTimeout? ==>
          s.core.state == Open && PcOf(s, c).lastFailure == s.core.lastFailureTime && TimedOut(s.core.lastFailureTime, cfg, s.clock))
  }

  /** An open breaker was opened by a failure, and not in the future. */
  ghost predicate OpenedByFailure(s: Sys)
  {
    s.core.state == Open ==> s.core.lastStateChange <= s.core.lastFailureTime <= s.clock
  }

  lemma {:induction false} AlwaysOwnCopy(clock: int, steps: seq<Step>, c: nat, team: set<nat>, cfg: Config)
    requires team <= {c}
    ensures OwnCopy(Exec(clock, steps, team, cfg), c, cfg)
  {
    if steps != [] {
      AlwaysOwnCopy(clock, steps[..|steps| - 1], c, team, cfg);
      var s := Exec(clock, steps[..|steps| - 1], team, cfg);
      assert OwnCopy(Next(s, steps[|steps| - 1], team, cfg), c, cfg);
    }
  }

  lemma {:induction false} AlwaysOpenedByFailure(clock: int, steps: seq<Step>, team: set<nat>, cfg: Config)
    ensures OpenedByFailure(Exec(clock, steps, team, cfg))
  {
    if steps != [] {
      AlwaysOpenedByFailure(clock, steps[..|steps| - 1], team, cfg);
      var s := Exec(clock, steps[..|steps| - 1], team, cfg);
      assert OpenedByFailure(Next(s, steps[|steps| - 1], team, cfg));
    }
  }

  lemma LoneCallerWaits(clock: int, steps: seq<Step>, step: Step, c: nat, team: set<nat>, cfg: Config)
    requires team <= {c} && EndsOpenPeriod(Exec(clock, steps, team, cfg), step, team, cfg)
    ensures var s := Exec(clock, steps, team, cfg); s.clock - s.core.lastFailureTime > cfg.timeout
  {
    hide Exec;
    AlwaysOwnCopy(clock, steps, c, team, cfg);
  }

  lemma AtMostOne(team: set<nat>) returns (c: nat)
    requires |team| <= 1
    ensures team <= {c}
  {
    c := 0;
    if team != {} {
      c :| c in team;
      assert |team - {c}| == 0;
    }
  }

  lemma TwoMembers(team: set<nat>) returns (a: nat, b: nat)
    requires |team| > 1
    ensures a in team && b in team && a != b
  {
    a :| a in team;
    assert |team - {a}| > 0;
    b :| b in team - {a};
  }

  /** Main result, for every configuration and every team: the open period always lasts longer than the
      timeout exactly when no two callers share the breaker (or the timeout is negative and means
      nothing), whether it is counted from the last failure or from the opening. */
  lemma OpenLastsIff(team: set<nat>, cfg: Config)
    ensures OpenLasts(team, cfg) <==> |team| <= 1 || cfg.timeout < 0
    ensures OpenLastsSinceOpening(team, cfg) <==> |team| <= 1 || cfg.timeout < 0
  {
    hide Exec, StaleRace, EndsOpenPeriod;
    if |team| > 1 && cfg.timeout >= 0 {
      var a, b := TwoMembers(team);
      OpenPeriodCanBeCutShort(0, a, b, team, cfg);
      var steps := StaleRace(a, b, cfg);
      assert EndsOpenPeriod(Exec(0, steps, team, cfg), Proceed(b), team, cfg);
    } else {
      forall clock, steps, step | EndsOpenPeriod(Exec(clock, steps, team, cfg), step, team, cfg)
        ensures var s := Exec(clock, steps, team, cfg);
          s.clock - LastFailureAt(s.log) > cfg.timeout && s.clock - LastChangeAt(s.log, clock) > cfg.timeout
      {
        EndingWaits(clock, steps, step, team, cfg);
      }
    }
  }

  lemma EndingWaits(clock: int, steps: seq<Step>, step: Step, team: set<nat>, cfg: Config)
    requires |team| <= 1 || cfg.timeout < 0
    requires EndsOpenPeriod(Exec(clock, steps, team, cfg), step, team, cfg)
    ensures var s := Exec(clock, steps, team, cfg);
      s.clock - LastFailureAt(s.log) > cfg.timeout && s.clock - LastChangeAt(s.log, clock) > cfg.timeout
  {
    AlwaysOpenedByFailure(clock, steps, team, cfg);
    TimesMatch(clock, steps, team, cfg);
    if |team| <= 1 {
      var c := AtMostOne(team);
      LoneCallerWaits(clock, steps, step, c, team, cfg);
    }
    hide Exec, Next;
  }

  /** It is guaranteed when nobody is interrupted inside `Allow`: in whatever interleaving the breaker was
      opened, such a call ends the open period exactly when more than the timeout has passed since the last
      failure that anybody recorded, before the opening or after it, and is refused otherwise. */
  lemma AtomicAllowEndsIff(clock: int, steps: seq<Step>, c: nat, team: set<nat>, cfg: Config)
    requires c in team && PcOf(Exec(clock, steps, team, cfg), c) == Idle && Exec(clock, steps, team, cfg).core.state == Open
    ensures var s := Exec(clock, steps, team, cfg);
      var s' := Ask(s, c, team, cfg);
      if s.clock - LastFailureAt(s.log) > cfg.timeout then s'.core.state == HalfOpen && PcOf(s', c) == Admitted
      else s'.core == s.core && PcOf(s', c) == Idle
  {
    hide Exec, Ask;
    TimesMatch(clock, steps, team, cfg);
    AskIsAllow(Exec(clock, steps, team, cfg), c, team, cfg);
  }

  ghost predicate Waited(s: Sys, cfg: Config)
  {
    forall c :: c in s.pcs && s.pcs[c].PassedTimeout? ==> TimedOut(s.pcs[c].lastFailure, cfg, s.clock)
  }

  lemma {:induction false} AlwaysWaited(clock: int, steps: seq<Step>, team: set<nat>, cfg: Config)
    ensures Waited(Exec(clock, steps, team, cfg), cfg)
  {
    if steps != [] {
      AlwaysWaited(clock, steps[..|steps| - 1], team, cfg);
      var s := Exec(clock, steps[..|steps| - 1], team, cfg);
      assert Waited(Next(s, steps[|steps| - 1], team, cfg), cfg);
    }
  }

  /** In every interleaving it is guaranteed when no failure was recorded after the copy was made. */
  lemma OpenPeriodLastsOnCurrentCopy(clock: int, steps: seq<Step>, c: nat, team: set<nat>, cfg: Config)
    requires var s := Exec(clock, steps, team, cfg);
      && EndsOpenPeriod(s, Proceed(c), team, cfg)
      && (PcOf(s, c).PassedTimeout? ==> PcOf(s, c).lastFailure == LastFailureAt(s.log))
    ensures Exec(clock, steps, team, cfg).clock - LastFailureAt(Exec(clock, steps, team, cfg).log) > cfg.timeout
  {
    AlwaysWaited(clock, steps, team, cfg);
    TimesMatch(clock, steps, team, cfg);
  }
}
