/** The breaker's protocol when `UpdateConfig` may change the settings between any two steps. */
module BreakerReconfigured {
  import opened CircuitBreaker
  import opened BreakerProtocol
  import opened BreakerRecovery

  /** A step, and the configuration in force when it is made. */
  datatype Dated = Dated(step: Step, cfg: Config)

  function ExecFrom(s: Sys, steps: seq<Dated>, team: set<nat>): Sys
  {
    if steps == [] then s else
      var last := steps[|steps| - 1];
      Next(ExecFrom(s, steps[..|steps| - 1], team), last.step, team, last.cfg)
  }

  function Exec(clock: int, steps: seq<Dated>, team: set<nat>): Sys { ExecFrom(Start(clock), steps, team) }

  lemma {:induction false} ExecCoherent(clock: int, steps: seq<Dated>, team: set<nat>)
    ensures Coherent(Exec(clock, steps, team), team)
  {
    hide Next;
    if steps == [] {
      StartCoherent(clock, team);
    } else {
      hide Coherent;
      var last := steps[|steps| - 1];
      ExecCoherent(clock, steps[..|steps| - 1], team);
      NextKeepsCoherence(Exec(clock, steps[..|steps| - 1], team), last.step, team, last.cfg);
    }
  }

  /** Main result, in every interleaving and under any changes of the settings, positive or not: the
      counters are those of the log and only the four legal edges occur. */
  lemma CountersMatchUnderUpdates(clock: int, steps: seq<Dated>, team: set<nat>)
    ensures var s := Exec(clock, steps, team);
      && s.core.state == StateAfter(s.log) && OnlyLegalEdges(s.log)
      && s.core.failureCount == (if s.core.state == Closed then TrailingFailures(s.log) else 0)
      && s.core.successCount == (if s.core.state == HalfOpen then EpisodeSuccesses(s.log) else 0)
      && EpisodeAdmissions(s.log) == s.core.halfOpenRequests + |OpenAdmitted(s.log)|
  {
    hide Exec;
    ExecCoherent(clock, steps, team);
  }

  lemma {:induction false} ExecStamped(clock: int, steps: seq<Dated>, team: set<nat>)
    ensures Stamped(Exec(clock, steps, team).core, Exec(clock, steps, team).log, clock)
  {
    hide Next;
    if steps != [] {
      var last := steps[|steps| - 1];
      ExecStamped(clock, steps[..|steps| - 1], team);
      NextKeepsStamp(Exec(clock, steps[..|steps| - 1], team), last.step, team, last.cfg, clock);
    }
  }

  /** Main result, in every interleaving and under any changes of the settings: the breaker's two times are
      those of the last failure logged, in whatever state it was recorded, and of the last change. */
  lemma TimesMatchUnderUpdates(clock: int, steps: seq<Dated>, team: set<nat>)
    ensures var s := Exec(clock, steps, team);
      s.core.lastFailureTime == LastFailureAt(s.log) && s.core.lastStateChange == LastChangeAt(s.log, clock)
  {
    hide Exec;
    ExecCoherent(clock, steps, team);
    ExecStamped(clock, steps, team);
  }

  /** Main result, after every interleaving and under any settings: an uninterrupted `Allow` can be told from
      the log alone. A closed breaker admits; an open one admits exactly when more than the timeout has
      passed since the last failure that anybody recorded; a half-open one admits exactly while the locked
      admissions of its episode, apart from those on an open copy, are below the limit set, or 50 if none is. */
  lemma AllowFollowsLog(clock: int, steps: seq<Dated>, c: nat, team: set<nat>, cfg: Config)
    requires c in team && PcOf(Exec(clock, steps, team), c) == Idle
    ensures var s := Exec(clock, steps, team);
      PcOf(Ask(s, c, team, cfg), c) == Admitted <==>
        match StateAfter(s.log)
        case Closed => true
        case Open => s.clock - LastFailureAt(s.log) > cfg.timeout
        case HalfOpen =>
          EpisodeAdmissions(s.log) - |OpenAdmitted(s.log)| < if cfg.halfOpenMaxRequests > 0 then cfg.halfOpenMaxRequests else 50
  {
    hide Exec, Ask;
    ExecCoherent(clock, steps, team);
    AskIsAllow(Exec(clock, steps, team), c, team, cfg);
  }

  /** Main result: each record acts on the thresholds in force when it is made. A failure opens a closed
      breaker exactly when the run of failures it ends has reached the current threshold, however long the
      run is, and always reopens a half-open one; a success closes a half-open one exactly when the episode's
      successes have. No other record changes the state. */
  lemma NextRecordActs(clock: int, steps: seq<Dated>, c: nat, team: set<nat>, cfg: Config)
    requires c in team && PcOf(Exec(clock, steps, team), c) == Admitted
    ensures var s := Exec(clock, steps, team);
      && (s.core.state == Closed ==>
            Next(s, Fail(c), team, cfg).core.state == if TrailingFailures(s.log) + 1 >= cfg.failureThreshold then Open else Closed)
      && (s.core.state == HalfOpen ==>
            Next(s, Succeed(c), team, cfg).core.state == if EpisodeSuccesses(s.log) + 1 >= cfg.successThreshold then Closed else HalfOpen)
      && (s.core.state == HalfOpen ==> Next(s, Fail(c), team, cfg).core.state == Open)
      && (s.core.state == Closed ==> Next(s, Succeed(c), team, cfg).core.state == Closed)
      && (s.core.state == Open ==> Next(s, Fail(c), team, cfg).core.state == Next(s, Succeed(c), team, cfg).core.state == Open)
  {
    hide Exec;
    ExecCoherent(clock, steps, team);
  }

  /** Every configuration in force at some step is at most this large. */
  ghost predicate AtMost(steps: seq<Dated>, most: Config)
  {
    forall d :: d in steps ==>
      && d.cfg.failureThreshold <= most.failureThreshold && d.cfg.successThreshold <= most.successThreshold
      && Limit(d.cfg) <= Limit(most)
  }

  lemma NextWithinMost(s: Sys, d: Dated, team: set<nat>, most: Config)
    requires Positive(most) && Within(s.core, most) && AtMost([d], most)
    ensures Within(Next(s, d.step, team, d.cfg).core, most)
  {
    assert d in [d];
  }

  /** The counts stay below the largest settings that were ever in force, not the current ones. */
  lemma {:induction false} WithinLargest(clock: int, steps: seq<Dated>, team: set<nat>, most: Config)
    requires Positive(most) && AtMost(steps, most)
    ensures Within(Exec(clock, steps, team).core, most)
  {
    hide Next, Limit;
    if steps != [] {
      WithinLargest(clock, steps[..|steps| - 1], team, most);
      assert steps[|steps| - 1] in steps;
      NextWithinMost(Exec(clock, steps[..|steps| - 1], team), steps[|steps| - 1], team, most);
    }
  }

  // ---- a wedge and its settings ------------------------------------------------------------

  ghost predicate SettingsFrom(steps: seq<Dated>, cfgs: iset<Config>) { forall d :: d in steps ==> d.cfg in cfgs }

  /** Whatever anybody does under these settings, the breaker does not move. */
  ghost predicate StaysPut(s: Sys, team: set<nat>, cfgs: iset<Config>)
  {
    forall steps :: SettingsFrom(steps, cfgs) ==> ExecFrom(s, steps, team).core == s.core
  }

  lemma {:induction false} WedgeHolds(s: Sys, steps: seq<Dated>, team: set<nat>, cfgs: iset<Config>)
    requires s.core.state == HalfOpen && AllOut(s) && SettingsFrom(steps, cfgs)
    requires forall cfg :: cfg in cfgs ==> Limit(cfg) <= s.core.halfOpenRequests
    ensures var s' := ExecFrom(s, steps, team);
      s'.core == s.core && forall c :: c in s'.pcs ==> s'.pcs[c] == Idle || s'.pcs[c] == SawHalfOpen
  {
    hide Limit;
    if steps != [] {
      var front, last := steps[..|steps| - 1], steps[|steps| - 1];
      assert last in steps && last.cfg in cfgs;
      WedgeHolds(s, front, team, cfgs);
      var before := ExecFrom(s, front, team);
      WedgeStep(before, last, team);
      assert ExecFrom(s, steps, team) == Next(before, last.step, team, last.cfg);
    }
  }

  lemma WedgeStep(s: Sys, d: Dated, team: set<nat>)
    requires s.core.state == HalfOpen && Limit(d.cfg) <= s.core.halfOpenRequests
    requires forall c :: c in s.pcs ==> s.pcs[c] == Idle || s.pcs[c] == SawHalfOpen
    ensures var s' := Next(s, d.step, team, d.cfg);
      s'.core == s.core && forall c :: c in s'.pcs ==> s'.pcs[c] == Idle || s'.pcs[c] == SawHalfOpen
  {
  }

  /** Main result: a half-open breaker with everybody outside is stuck for good, whatever anybody does and
      however the settings change, exactly when no limit ever in force exceeds its counter. A single reload
      to a larger limit ends the wedge. */
  lemma {:induction false} StuckForGoodIff(s: Sys, team: set<nat>, cfgs: iset<Config>)
    requires s.core.state == HalfOpen && AllOut(s) && team != {}
    ensures StaysPut(s, team, cfgs) <==> forall cfg :: cfg in cfgs ==> Limit(cfg) <= s.core.halfOpenRequests
  {
    hide Limit, ExecFrom;
    if forall cfg :: cfg in cfgs ==> Limit(cfg) <= s.core.halfOpenRequests {
      forall steps | SettingsFrom(steps, cfgs) ensures ExecFrom(s, steps, team).core == s.core {
        WedgeHolds(s, steps, team, cfgs);
      }
    } else {
      var cfg :| cfg in cfgs && Limit(cfg) > s.core.halfOpenRequests;
      var c :| c in team;
      var steps := [Dated(Snapshot(c), cfg), Dated(Proceed(c), cfg)];
      LetsInUnder(s, c, team, cfg);
      assert SettingsFrom(steps, cfgs);
    }
  }

  lemma LetsInUnder(s: Sys, c: nat, team: set<nat>, cfg: Config)
    requires s.core.state == HalfOpen && AllOut(s) && c in team && Limit(cfg) > s.core.halfOpenRequests
    ensures ExecFrom(s, [Dated(Snapshot(c), cfg), Dated(Proceed(c), cfg)], team).core != s.core
  {
    var steps := [Dated(Snapshot(c), cfg), Dated(Proceed(c), cfg)];
    assert steps[..1] == [steps[0]] && steps[..1][..0] == [];
    assert ExecFrom(s, steps[..1], team) == Next(s, Snapshot(c), team, cfg);
    LetsIn(s, c, team, cfg);
  }
}
