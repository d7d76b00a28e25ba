/** One chat request without interruption, as a run of the budget's protocol. */
module ChatProtocol {
  import opened Wrappers
  import opened RollingWindow
  import opened WindowHistory
  import opened BudgetTracker
  import opened BudgetProtocol
  import C = Chat
  import Stream
  import Streaming

  /** What the tracker in force holds. */
  function SpentNow(s: State): C.Spent { C.Spent(s.books.hourly, s.books.daily) }

  /** The request's times are the clock's, with `between` and `until` passing in between. */
  predicate OnTime(s: State, req: C.Request, between: nat, until: nat)
  {
    && req.times.hourlyCheck == s.clock && req.times.dailyCheck == s.clock + between
    && req.times.record == s.clock + between + until
  }

  /** The check, in the protocol. */
  function Checking(s: State, c: nat, streamed: bool, between: nat, maxCost: real): State
  {
    Next(Next(Next(s, ReadHourly(c), maxCost), Tick(between), maxCost), ReadDaily(c, streamed), maxCost)
  }

  /** What follows an admission: the record of a whole answer with a cost, or none. */
  function Following(s: State, c: nat, answer: C.Answer, until: nat, maxCost: real): State
  {
    var later := Next(s, Tick(until), maxCost);
    if answer.Answered? && answer.meta.cost > 0.0 then Next(later, BudgetProtocol.Record(c, answer.meta.cost), maxCost)
    else Next(later, GiveUp(c), maxCost)
  }

  /** The books of a disabled tracker are empty. */
  predicate Bookkeeping(s: State) { !s.books.cfg.enabled ==> s.books.hourly == [] && s.books.daily == [] }

  lemma CheckIsRun(s: State, c: nat, req: C.Request, between: nat, maxCost: real)
    requires PhaseOf(s, c) == Idle && Bookkeeping(s)
    requires req.times.hourlyCheck == s.clock && req.times.dailyCheck == s.clock + between
    ensures var s', (check, spent) := Checking(s, c, req.streamed, between, maxCost), C.Checked(s.books.cfg, SpentNow(s), req.times);
      && SpentNow(s') == spent && s'.books.cfg == s.books.cfg && s'.clock == s.clock + between && s'.past == s.past
      && s'.callers == s.callers[c := if check.allowed && !req.streamed then Admitted else Idle]
  {
    hide Total, Decide, Outstanding;
  }

  lemma RecordIsRun(s: State, c: nat, answer: C.Answer, at: C.Times, until: nat, maxCost: real)
    requires PhaseOf(s, c) == Admitted && !ReadLocked(s) && at.record == s.clock + until
    requires answer.Answered? ==> answer.meta.cost <= maxCost
    ensures var s' := Following(s, c, answer, until, maxCost);
      SpentNow(s') == C.ChargedFor(s.books.cfg, SpentNow(s), answer, at) && s'.callers == s.callers[c := Idle]
  {
    hide Added, Outstanding;
  }

  /** Main result: handled without interruption, a request does to the books what the protocol's steps do: it is
      admitted by them exactly when it is not refused and not streamed, and its record, if it makes one, is
      the protocol's. So what is proved of the protocol's runs holds of requests handled one after the other. */
  lemma HandledIsRun(s: State, c: nat, scene: C.Scene, req: C.Request, between: nat, until: nat, maxCost: real,
                     texts: Stream.Texts, describe: Streaming.Describe)
    requires C.Coherent(scene) && PhaseOf(s, c) == Idle && !ReadLocked(s) && Bookkeeping(s) && OnTime(s, req, between, until)
    requires var (answer, _, _) := C.Handled(s.books.cfg, SpentNow(s), scene, req, texts, describe);
      answer.Answered? ==> answer.meta.cost <= maxCost
    ensures var (answer, spent, _) := C.Handled(s.books.cfg, SpentNow(s), scene, req, texts, describe);
      var checked := Checking(s, c, req.streamed, between, maxCost);
      var end := Following(checked, c, answer, until, maxCost);
      && (PhaseOf(checked, c) == Admitted <==> !answer.OverBudget? && !req.streamed)
      && SpentNow(end) == spent && PhaseOf(end, c) == Idle
  {
    hide C.Checked, C.ChargedFor, Checking, Following, Outstanding, C.StreamReply, C.Executed;
    var (answer, spent, _) := C.Handled(s.books.cfg, SpentNow(s), scene, req, texts, describe);
    var checked := Checking(s, c, req.streamed, between, maxCost);
    CheckIsRun(s, c, req, between, maxCost);
    if PhaseOf(checked, c) == Admitted {
      StillUnlocked(s, checked, c, Admitted);
      RecordIsRun(checked, c, answer, req.times, until, maxCost);
    } else {
      NothingFollows(checked, c, answer, until, maxCost);
      NothingCharged(s.books.cfg, C.Checked(s.books.cfg, SpentNow(s), req.times).1, answer, req.times);
    }
  }

  lemma StillUnlocked(s: State, s': State, c: nat, phase: Phase)
    requires !ReadLocked(s) && s'.past == s.past && s'.callers == s.callers[c := phase] && !phase.Checking?
    ensures !ReadLocked(s')
  {
  }

  lemma NothingFollows(s: State, c: nat, answer: C.Answer, until: nat, maxCost: real)
    requires PhaseOf(s, c) == Idle
    ensures SpentNow(Following(s, c, answer, until, maxCost)) == SpentNow(s) && PhaseOf(Following(s, c, answer, until, maxCost), c) == Idle
  {
  }

  lemma NothingCharged(cfg: Config, spent: C.Spent, answer: C.Answer, at: C.Times)
    requires !answer.Answered?
    ensures C.ChargedFor(cfg, spent, answer, at) == spent
  {
  }
}
