/** A circuit breaker shared by a team of callers.

    `Allow` copies the state under a read lock, lets go of it, and acts on the copy later, under the
    write lock or under none. Here each of those pieces is a separate step, so that any number of other
    callers can act between them. A log of what happened serves as the reference that the breaker's
    counters are compared with. */
module BreakerProtocol {
  import opened CircuitBreaker

  /** Where a caller is: outside, holding a copy of the state, past the timeout test, or admitted and
      yet to record its outcome. */
  datatype Pc = Idle | SawClosed | SawOpen(lastFailure: int) | PassedTimeout(lastFailure: int) | SawHalfOpen | Admitted

  /** Failures and changes carry the clock's time. `Admit` marks the admissions decided under the write
      lock; `viaOpen` those of callers whose copy said open. */
  datatype Event = Success | Failure(at: int) | Change(to: State, at: int) | Admit(caller: nat, viaOpen: bool)

  datatype Sys = Sys(core: Core, clock: int, pcs: map<nat, Pc>, log: seq<Event>)

  /** `Abandon` is a caller that is admitted and never records: the router does this when it cannot
      find the provider or obtain a slot after the breaker said yes. */
  datatype Step =
    | Tick(elapsed: nat)
    | Snapshot(caller: nat)
    | Proceed(caller: nat)
    | Succeed(caller: nat)
    | Fail(caller: nat)
    | Abandon(caller: nat)

  function PcOf(s: Sys, c: nat): Pc { if c in s.pcs then s.pcs[c] else Idle }

  /** The core after a locked step, and the change that step logs, if any. */
  function Moved(s: Sys, core: Core, first: seq<Event>): Sys
  {
    s.(core := core, log := s.log + first + if core.state == s.core.state then [] else [Change(core.state, s.clock)])
  }

  function At(s: Sys, c: nat, pc: Pc): Sys { s.(pcs := s.pcs[c := pc]) }

  function TakeSnapshot(s: Sys, c: nat): Sys
  {
    match s.core.state
    case Closed => At(s, c, SawClosed)
    case Open => At(s, c, SawOpen(s.core.lastFailureTime))
    case HalfOpen => At(s, c, SawHalfOpen)
  }

  function Advance(s: Sys, c: nat, cfg: Config): Sys
  {
    match PcOf(s, c)
    case SawClosed => At(s, c, Admitted)
    case SawOpen(lf) => At(s, c, if TimedOut(lf, cfg, s.clock) then PassedTimeout(lf) else Idle)
    case PassedTimeout(_) =>
      var entered := Moved(s, EnterHalfOpen(s.core, s.clock), []);
      At(entered.(log := entered.log + [Admit(c, true)]), c, Admitted)
    case SawHalfOpen =>
      var (core, ok) := TakeHalfOpenSlot(s.core, cfg);
      if ok then At(s.(core := core, log := s.log + [Admit(c, false)]), c, Admitted) else At(s, c, Idle)
    case Idle => s
    case Admitted => s
  }

  /** A step that is not enabled leaves the state alone, so every sequence of steps is a run. */
  function Next(s: Sys, step: Step, team: set<nat>, cfg: Config): Sys
  {
    match step
    case Tick(d) => s.(clock := s.clock + d)
    case Snapshot(c) => if c in team && PcOf(s, c) == Idle then TakeSnapshot(s, c) else s
    case Proceed(c) => if c in team then Advance(s, c, cfg) else s
    case Succeed(c) =>
      if c in team && PcOf(s, c) == Admitted
      then At(Moved(s, OnSuccess(s.core, cfg, s.clock), [Success]), c, Idle) else s
    case Fail(c) =>
      if c in team && PcOf(s, c) == Admitted
      then At(Moved(s, OnFailure(s.core, cfg, s.clock), [Failure(s.clock)]), c, Idle) else s
    case Abandon(c) => if c in team && PcOf(s, c) == Admitted then At(s, c, Idle) else s
  }

  function Start(clock: int): Sys { Sys(NewCore(clock), clock, map[], []) }

  function ExecFrom(s: Sys, steps: seq<Step>, team: set<nat>, cfg: Config): Sys
  {
    if steps == [] then s
    else Next(ExecFrom(s, steps[..|steps| - 1], team, cfg), steps[|steps| - 1], team, cfg)
  }

  function Exec(clock: int, steps: seq<Step>, team: set<nat>, cfg: Config): Sys
  {
    ExecFrom(Start(clock), steps, team, cfg)
  }

  // ---- the reference: reading the log backwards --------------------------------------------

  function StateAfter(log: seq<Event>): State
  {
    if log == [] then Closed else
      var last := log[|log| - 1];
      if last.Change? then last.to else StateAfter(log[..|log| - 1])
  }

  /** Consecutive failures at the end of the log, since the last success or state change. */
  function TrailingFailures(log: seq<Event>): nat
  {
    if log == [] then 0 else
      match log[|log| - 1]
      case Failure(_) => 1 + TrailingFailures(log[..|log| - 1])
      case Admit(_, _) => TrailingFailures(log[..|log| - 1])
      case _ => 0
  }

  /** Successes since the last state change. */
  function EpisodeSuccesses(log: seq<Event>): nat
  {
    if log == [] || log[|log| - 1].Change? then 0
    else EpisodeSuccesses(log[..|log| - 1]) + if log[|log| - 1].Success? then 1 else 0
  }

  /** Write-locked admissions since the last state change. */
  function EpisodeAdmissions(log: seq<Event>): nat
  {
    if log == [] || log[|log| - 1].Change? then 0
    else EpisodeAdmissions(log[..|log| - 1]) + if log[|log| - 1].Admit? then 1 else 0
  }

  /** The callers admitted on an open copy since the last state change. */
  function OpenAdmitted(log: seq<Event>): set<nat>
  {
    if log == [] || log[|log| - 1].Change? then {}
    else OpenAdmitted(log[..|log| - 1])
         + if log[|log| - 1].Admit? && log[|log| - 1].viaOpen then {log[|log| - 1].caller} else {}
  }

  /** The time of the last failure in the log; the zero time if there was none. */
  function LastFailureAt(log: seq<Event>): int
  {
    if log == [] then 0
    else if log[|log| - 1].Failure? then log[|log| - 1].at else LastFailureAt(log[..|log| - 1])
  }

  /** The time of the last change in the log; `start` if there was none. */
  function LastChangeAt(log: seq<Event>, start: int): int
  {
    if log == [] then start
    else if log[|log| - 1].Change? then log[|log| - 1].at else LastChangeAt(log[..|log| - 1], start)
  }

  predicate Edge(src: State, to: State)
  {
    || (src == Closed && to == Open)
    || (src == Open && to == HalfOpen)
    || (src == HalfOpen && to == Closed)
    || (src == HalfOpen && to == Open)
  }

  ghost predicate OnlyLegalEdges(log: seq<Event>)
  {
    forall i :: 0 <= i < |log| && log[i].Change? ==> Edge(StateAfter(log[..i]), log[i].to)
  }

  lemma {:induction false} LogStep(log: seq<Event>, e: Event)
    ensures StateAfter(log + [e]) == if e.Change? then e.to else StateAfter(log)
    ensures TrailingFailures(log + [e]) ==
            if e.Failure? then 1 + TrailingFailures(log) else if e.Admit? then TrailingFailures(log) else 0
    ensures EpisodeSuccesses(log + [e]) ==
            if e.Change? then 0 else EpisodeSuccesses(log) + if e.Success? then 1 else 0
    ensures EpisodeAdmissions(log + [e]) ==
            if e.Change? then 0 else EpisodeAdmissions(log) + if e.Admit? then 1 else 0
    ensures OpenAdmitted(log + [e]) ==
            if e.Change? then {} else OpenAdmitted(log) + if e.Admit? && e.viaOpen then {e.caller} else {}
    ensures LastFailureAt(log + [e]) == if e.Failure? then e.at else LastFailureAt(log)
    ensures OnlyLegalEdges(log) && (e.Change? ==> Edge(StateAfter(log), e.to)) ==> OnlyLegalEdges(log + [e])
  {
    assert (log + [e])[..|log|] == log;
    assert forall i :: 0 <= i <= |log| ==> (log + [e])[..i] == log[..i];
  }

  // ---- what every step keeps ---------------------------------------------------------------

  predicate Positive(cfg: Config) { cfg.failureThreshold > 0 && cfg.successThreshold > 0 }

  /** The breaker's fields are what the log says they should be. */
  ghost predicate Agrees(core: Core, log: seq<Event>)
  {
    && core.state == StateAfter(log) && OnlyLegalEdges(log)
    && core.failureCount == (if core.state == Closed then TrailingFailures(log) else 0)
    && core.successCount == (if core.state == HalfOpen then EpisodeSuccesses(log) else 0)
    && core.halfOpenRequests + |OpenAdmitted(log)| == EpisodeAdmissions(log)
    && 0 <= core.halfOpenRequests
    && core.lastFailureTime == LastFailureAt(log)
  }

  predicate OnOpenCopy(s: Sys, c: nat) { PcOf(s, c).SawOpen? || PcOf(s, c).PassedTimeout? }

  /** A caller is admitted on an open copy at most once per half-open episode, and the first such
      admission is what starts the episode. */
  ghost predicate Tracked(s: Sys, team: set<nat>)
  {
    && OpenAdmitted(s.log) <= team
    && (forall c :: c in OpenAdmitted(s.log) ==> !OnOpenCopy(s, c))
    && (s.core.state == Open ==> OpenAdmitted(s.log) == {})
    && (s.core.state == HalfOpen ==> OpenAdmitted(s.log) != {})
  }

  /** What holds whatever the configuration. */
  ghost predicate Coherent(s: Sys, team: set<nat>) { Agrees(s.core, s.log) && Tracked(s, team) }

  /** No count has reached its threshold. */
  predicate Within(core: Core, cfg: Config)
  {
    core.failureCount < cfg.failureThreshold && core.successCount < cfg.successThreshold && core.halfOpenRequests <= Limit(cfg)
  }

  ghost predicate Inv(s: Sys, team: set<nat>, cfg: Config) { Coherent(s, team) && Within(s.core, cfg) }

  lemma SnapshotKeepsCoherence(s: Sys, c: nat, team: set<nat>, cfg: Config)
    requires Coherent(s, team)
    ensures Coherent(Next(s, Snapshot(c), team, cfg), team)
  {
    hide OpenAdmitted, StateAfter, OnlyLegalEdges, TrailingFailures, LastFailureAt, EpisodeSuccesses, EpisodeAdmissions;
  }

  lemma EnterKeepsCoherence(s: Sys, c: nat, team: set<nat>, cfg: Config)
    requires Coherent(s, team) && c in team && PcOf(s, c).PassedTimeout?
    ensures Coherent(Advance(s, c, cfg), team)
  {
    hide OpenAdmitted, StateAfter, OnlyLegalEdges, TrailingFailures, LastFailureAt, EpisodeSuccesses, EpisodeAdmissions;
    var entered := Moved(s, EnterHalfOpen(s.core, s.clock), []);
    if s.core.state == Open {
      LogStep(s.log, Change(HalfOpen, s.clock));
      assert entered.log == s.log + [Change(HalfOpen, s.clock)];
    } else {
      assert entered.log == s.log;
    }
    assert c !in OpenAdmitted(entered.log);
    LogStep(entered.log, Admit(c, true));
  }

  lemma TakeSlotKeepsCoherence(s: Sys, c: nat, team: set<nat>, cfg: Config)
    requires Coherent(s, team) && PcOf(s, c).SawHalfOpen?
    ensures Coherent(Advance(s, c, cfg), team)
  {
    hide OpenAdmitted, StateAfter, OnlyLegalEdges, TrailingFailures, LastFailureAt, EpisodeSuccesses, EpisodeAdmissions;
    LogStep(s.log, Admit(c, false));
  }

  lemma ProceedKeepsCoherence(s: Sys, c: nat, team: set<nat>, cfg: Config)
    requires Coherent(s, team)
    ensures Coherent(Next(s, Proceed(c), team, cfg), team)
  {
    hide Agrees, OpenAdmitted, EnterHalfOpen, TakeHalfOpenSlot;
    if c in team {
      if PcOf(s, c).PassedTimeout? {
        EnterKeepsCoherence(s, c, team, cfg);
      } else if PcOf(s, c).SawHalfOpen? {
        TakeSlotKeepsCoherence(s, c, team, cfg);
      }
    }
  }

  /** What recording an outcome does to the core: it counts, or it changes the state and starts over. */
  predicate Counts(b: Core, core: Core, e: Event)
  {
    && core.lastFailureTime == (if e.Failure? then e.at else b.lastFailureTime)
    && if core.state == b.state then
      core.halfOpenRequests == b.halfOpenRequests
      && core.failureCount == (if b.state != Closed then b.failureCount else if e.Failure? then b.failureCount + 1 else 0)
      && core.successCount == b.successCount + (if b.state == HalfOpen && e == Success then 1 else 0)
      && (b.state == HalfOpen ==> e == Success)
    else
      core.failureCount == core.successCount == core.halfOpenRequests == 0 && Edge(b.state, core.state) && b.state != Open
  }

  lemma OutcomeCounts(b: Core, cfg: Config, now: int)
    ensures Counts(b, OnSuccess(b, cfg, now), Success) && Counts(b, OnFailure(b, cfg, now), Failure(now))
  {
  }

  lemma CountedCoherent(s: Sys, core: Core, e: Event, c: nat, team: set<nat>)
    requires Coherent(s, team) && (e == Success || e.Failure?)
    requires Counts(s.core, core, e) && core.state == s.core.state
    ensures Coherent(At(s.(core := core, log := s.log + [e]), c, Idle), team)
  {
    hide OpenAdmitted, StateAfter, OnlyLegalEdges, TrailingFailures, LastFailureAt, EpisodeSuccesses, EpisodeAdmissions;
    LogStep(s.log, e);
  }

  lemma ChangedCoherent(s: Sys, core: Core, e: Event, c: nat, team: set<nat>)
    requires Coherent(s, team) && (e == Success || e.Failure?)
    requires Counts(s.core, core, e) && core.state != s.core.state
    ensures Coherent(At(s.(core := core, log := s.log + [e] + [Change(core.state, s.clock)]), c, Idle), team)
  {
    hide OpenAdmitted, StateAfter, OnlyLegalEdges, TrailingFailures, LastFailureAt, EpisodeSuccesses, EpisodeAdmissions;
    LogStep(s.log, e);
    LogStep(s.log + [e], Change(core.state, s.clock));
  }

  /** Recording an outcome: the event, then the change it causes, if any. */
  lemma RecordKeepsCoherence(s: Sys, core: Core, e: Event, c: nat, team: set<nat>)
    requires Coherent(s, team) && (e == Success || e.Failure?) && Counts(s.core, core, e)
    ensures Coherent(At(Moved(s, core, [e]), c, Idle), team)
  {
    hide Coherent, Counts;
    if core.state == s.core.state {
      CountedCoherent(s, core, e, c, team);
      assert Moved(s, core, [e]).log == s.log + [e];
    } else {
      ChangedCoherent(s, core, e, c, team);
    }
  }

  lemma TickOrAbandonKeepsCoherence(s: Sys, step: Step, team: set<nat>, cfg: Config)
    requires Coherent(s, team) && (step.Tick? || step.Abandon?)
    ensures Coherent(Next(s, step, team, cfg), team)
  {
    hide OpenAdmitted, StateAfter, OnlyLegalEdges, TrailingFailures, LastFailureAt, EpisodeSuccesses, EpisodeAdmissions;
  }

  lemma NextKeepsCoherence(s: Sys, step: Step, team: set<nat>, cfg: Config)
    requires Coherent(s, team)
    ensures Coherent(Next(s, step, team, cfg), team)
  {
    hide Coherent, Counts, Advance, TakeSnapshot, OnSuccess, OnFailure, Moved;
    match step
    case Tick(d) => TickOrAbandonKeepsCoherence(s, step, team, cfg);
    case Snapshot(c) => SnapshotKeepsCoherence(s, c, team, cfg);
    case Proceed(c) => ProceedKeepsCoherence(s, c, team, cfg);
    case Succeed(c) => OutcomeCounts(s.core, cfg, s.clock); RecordKeepsCoherence(s, OnSuccess(s.core, cfg, s.clock), Success, c, team);
    case Fail(c) => OutcomeCounts(s.core, cfg, s.clock); RecordKeepsCoherence(s, OnFailure(s.core, cfg, s.clock), Failure(s.clock), c, team);
    case Abandon(c) => TickOrAbandonKeepsCoherence(s, step, team, cfg);
  }

  lemma NextKeepsWithin(s: Sys, step: Step, team: set<nat>, cfg: Config)
    requires Positive(cfg) && Within(s.core, cfg)
    ensures Within(Next(s, step, team, cfg).core, cfg)
  {
  }

  lemma StartCoherent(clock: int, team: set<nat>)
    ensures Coherent(Start(clock), team)
  {
  }

  lemma {:induction false} ExecCoherent(clock: int, steps: seq<Step>, team: set<nat>, cfg: Config)
    ensures Coherent(Exec(clock, steps, team, cfg), team)
  {
    hide Coherent, Next;
    if steps == [] {
      StartCoherent(clock, team);
    } else {
      ExecCoherent(clock, steps[..|steps| - 1], team, cfg);
      NextKeepsCoherence(Exec(clock, steps[..|steps| - 1], team, cfg), steps[|steps| - 1], team, cfg);
    }
  }

  lemma ChangeStep(log: seq<Event>, e: Event, start: int)
    ensures LastChangeAt(log + [e], start) == if e.Change? then e.at else LastChangeAt(log, start)
  {
    assert (log + [e])[..|log|] == log;
  }

  predicate Stamped(core: Core, log: seq<Event>, start: int) { core.lastStateChange == LastChangeAt(log, start) }

  /** A locked step that logs `first`, and then its change. */
  lemma MovedStamped(s: Sys, core: Core, first: seq<Event>, start: int)
    requires Stamped(s.core, s.log, start) && |first| <= 1 && forall e :: e in first ==> !e.Change?
    requires core.lastStateChange == if core.state == s.core.state then s.core.lastStateChange else s.clock
    ensures Moved(s, core, first).core == core && Stamped(core, Moved(s, core, first).log, start)
  {
    if first == [] {
      assert s.log + first == s.log;
    } else {
      assert first == [first[0]];
      ChangeStep(s.log, first[0], start);
    }
    if core.state == s.core.state {
      assert s.log + first + [] == s.log + first;
    } else {
      ChangeStep(s.log + first, Change(core.state, s.clock), start);
    }
  }

  lemma OutcomeStamps(b: Core, cfg: Config, now: int)
    ensures forall core :: core in {OnSuccess(b, cfg, now), OnFailure(b, cfg, now), EnterHalfOpen(b, now)} ==>
      core.lastStateChange == if core.state == b.state then b.lastStateChange else now
  {
  }

  /** The time of the last change is the breaker's own record of it. */
  lemma NextKeepsStamp(s: Sys, step: Step, team: set<nat>, cfg: Config, start: int)
    requires Stamped(s.core, s.log, start)
    ensures Stamped(Next(s, step, team, cfg).core, Next(s, step, team, cfg).log, start)
  {
    hide OnSuccess, OnFailure, EnterHalfOpen, Moved, LastChangeAt;
    OutcomeStamps(s.core, cfg, s.clock);
    match step
    case Succeed(_) => MovedStamped(s, OnSuccess(s.core, cfg, s.clock), [Success], start);
    case Fail(_) => MovedStamped(s, OnFailure(s.core, cfg, s.clock), [Failure(s.clock)], start);
    case Proceed(c) =>
      MovedStamped(s, EnterHalfOpen(s.core, s.clock), [], start);
      ChangeStep(Moved(s, EnterHalfOpen(s.core, s.clock), []).log, Admit(c, true), start);
      ChangeStep(s.log, Admit(c, false), start);
    case _ =>
  }

  lemma {:induction false} ExecKeepsInv(s: Sys, steps: seq<Step>, team: set<nat>, cfg: Config)
    requires Positive(cfg) && Inv(s, team, cfg)
    ensures Inv(ExecFrom(s, steps, team, cfg), team, cfg)
  {
    hide Coherent, Within, Next;
    if steps != [] {
      ExecKeepsInv(s, steps[..|steps| - 1], team, cfg);
      NextKeepsCoherence(ExecFrom(s, steps[..|steps| - 1], team, cfg), steps[|steps| - 1], team, cfg);
      NextKeepsWithin(ExecFrom(s, steps[..|steps| - 1], team, cfg), steps[|steps| - 1], team, cfg);
    }
  }

  lemma ExecInv(clock: int, steps: seq<Step>, team: set<nat>, cfg: Config)
    requires Positive(cfg)
    ensures Inv(Exec(clock, steps, team, cfg), team, cfg)
  {
    ExecKeepsInv(Start(clock), steps, team, cfg);
  }

  lemma {:induction false} SubsetSize(a: set<nat>, b: set<nat>)
    requires a <= b
    ensures |a| <= |b|
  {
    if a != {} {
      var x :| x in a;
      SubsetSize(a - {x}, b - {x});
    }
  }
}
