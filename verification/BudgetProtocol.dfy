/** Check-then-record admission under concurrency (`internal/server/handlers.go`).

    A request first checks the budget and only records its cost after the provider has answered, so
    requests admitted together can carry the spend past the limit. The steps below interleave freely:
    a check reads the two windows of one tracker, one after the other under that tracker's read lock, a
    record needs the current tracker's write lock, a reload puts a new tracker in the place of the current
    one (`internal/server/server.go`), and the clock moves in between. */
module BudgetProtocol {
  import opened Wrappers
  import opened RollingWindow
  import opened WindowHistory
  import opened BudgetTracker

  /** The windows of one tracker, and its settings. */
  datatype Books = Books(hourly: seq<Bucket>, daily: seq<Bucket>, cfg: Config)

  /** `tracker` counts the trackers that were replaced before the one being checked. */
  datatype Phase = Idle | Checking(tracker: nat, hourlySpent: real) | Admitted

  /** The trackers replaced so far, the current one, and the largest number of requests that were ever
      outstanding at once. */
  datatype State = State(past: seq<Books>, books: Books, clock: int, callers: map<nat, Phase>, peak: nat)

  datatype Step =
    | Tick(elapsed: nat)
    | ReadHourly(caller: nat)
    | ReadDaily(caller: nat, streaming: bool)
    | Record(caller: nat, cost: real)
    | GiveUp(caller: nat)
    | Reload(cfg: Config)

  function PhaseOf(s: State, c: nat): Phase { if c in s.callers then s.callers[c] else Idle }

  /** Admitted and not yet recorded, or still checking a tracker that has been replaced. */
  predicate IsOutstanding(phase: Phase, replaced: nat)
  {
    phase.Admitted? || (phase.Checking? && phase.tracker < replaced)
  }

  function Outstanding(s: State): set<nat> { set c | c in s.callers && IsOutstanding(s.callers[c], |s.past|) }

  predicate ReadLocked(s: State) { exists c :: c in s.callers && s.callers[c].Checking? && s.callers[c].tracker == |s.past| }

  function BooksOf(s: State, i: nat): Books { if i < |s.past| then s.past[i] else s.books }

  function WithBooks(s: State, i: nat, b: Books): State
  {
    if i < |s.past| then s.(past := s.past[i := b]) else s.(books := b)
  }

  /** Does a check of these totals let the request through? */
  predicate Allows(cfg: Config, hourlySpent: real, dailySpent: real)
  {
    !cfg.enabled || Decide(cfg, 0.0, hourlySpent, dailySpent).allowed
  }

  /** The windows after one record; a disabled tracker keeps none. */
  function Recorded(b: Books, clock: int, cost: real): Books
  {
    if !b.cfg.enabled then b else
      b.(hourly := Added(b.hourly, clock, cost, HOUR, MINUTE), daily := Added(b.daily, clock, cost, DAY, HOUR))
  }

  function Moved(s: State, c: nat, phase: Phase): State { Peaked(s.(callers := s.callers[c := phase])) }

  function Peaked(s: State): State { s.(peak := Max(s.peak, |Outstanding(s)|)) }

  /** A step that is not enabled leaves the state alone, so every sequence of steps is a run. A
      streaming request is admitted like any other but never records a cost (see `Chat`); a request whose
      provider fails or costs nothing gives up its admission. A disabled tracker reads no windows; its own
      stay empty, so that purging them changes nothing. */
  function Next(s: State, step: Step, maxCost: real): State
  {
    match step
    case Tick(d) => s.(clock := s.clock + d)
    case ReadHourly(c) =>
      if PhaseOf(s, c) != Idle then s else
        var live := Fresh(s.books.hourly, s.clock - HOUR);
        s.(books := s.books.(hourly := live), callers := s.callers[c := Checking(|s.past|, Total(live))])
    case ReadDaily(c, streaming) =>
      if !PhaseOf(s, c).Checking? then s else
        var Checking(i, hourlySpent) := PhaseOf(s, c);
        var live := Fresh(BooksOf(s, i).daily, s.clock - DAY);
        var ok := Allows(BooksOf(s, i).cfg, hourlySpent, Total(live)) && !streaming;
        Moved(WithBooks(s, i, BooksOf(s, i).(daily := live)), c, if ok then Admitted else Idle)
    case Record(c, cost) =>
      if PhaseOf(s, c) != Admitted || (s.books.cfg.enabled && ReadLocked(s)) || !(0.0 < cost <= maxCost) then s else
        s.(books := Recorded(s.books, s.clock, cost), callers := s.callers[c := Idle])
    case GiveUp(c) =>
      if PhaseOf(s, c) != Admitted then s else s.(callers := s.callers[c := Idle])
    case Reload(cfg) => Peaked(s.(past := s.past + [s.books], books := Books([], [], cfg)))
  }

  function Start(clock: int, cfg: Config): State { State([], Books([], [], cfg), clock, map[], 0) }

  function ExecFrom(s: State, steps: seq<Step>, maxCost: real): State
  {
    if steps == [] then s else Next(ExecFrom(s, steps[..|steps| - 1], maxCost), steps[|steps| - 1], maxCost)
  }

  function Exec(steps: seq<Step>, clock: int, cfg: Config, maxCost: real): State
  {
    ExecFrom(Start(clock, cfg), steps, maxCost)
  }

  /** The totals that the two `Sum` calls would report at `now`; see `BudgetExtent.ReportedSpend`. */
  function HourlySpend(b: Books, now: int): real { Live(b.hourly, now - HOUR) }

  function DailySpend(b: Books, now: int): real { Live(b.daily, now - DAY) }

  // ---- windowed spend only falls between records -------------------------------------------

  ghost predicate NonNegative(bs: seq<Bucket>) { forall i :: 0 <= i < |bs| ==> bs[i].value >= 0.0 }

  lemma {:induction false} SpendFalls(bs: seq<Bucket>, early: int, late: int)
    requires NonNegative(bs) && early <= late
    ensures 0.0 <= Live(bs, late) <= Live(bs, early)
  {
    if bs != [] {
      SpendFalls(bs[..|bs| - 1], early, late);
    }
  }

  lemma {:induction false} FreshNonNegative(bs: seq<Bucket>, cutoff: int)
    requires NonNegative(bs)
    ensures NonNegative(Fresh(bs, cutoff))
  {
    if bs != [] {
      FreshNonNegative(bs[..|bs| - 1], cutoff);
    }
  }

  lemma PurgeKeepsSpend(bs: seq<Bucket>, clock: int, windowSize: int)
    requires NonNegative(bs)
    ensures NonNegative(Fresh(bs, clock - windowSize))
    ensures Live(Fresh(bs, clock - windowSize), clock - windowSize) == Live(bs, clock - windowSize)
    ensures Total(Fresh(bs, clock - windowSize)) == Live(bs, clock - windowSize)
  {
    hide Live, Fresh, Total;
    FreshNonNegative(bs, clock - windowSize);
    LiveOfFresh(bs, clock - windowSize, clock - windowSize);
    TotalIsLive(bs, clock - windowSize);
  }

  lemma MergeNonNegative(bs: seq<Bucket>, ts: int, cost: real)
    requires NonNegative(bs) && cost > 0.0
    ensures NonNegative(Merged(bs, ts, cost))
  {
  }

  /** A record raises what any later check reads by at most its cost. */
  lemma SpendAfterRecord(bs: seq<Bucket>, clock: int, cost: real, windowSize: int, bucketSize: int)
    requires NonNegative(bs) && cost > 0.0
    ensures NonNegative(Added(bs, clock, cost, windowSize, bucketSize))
    ensures Live(Added(bs, clock, cost, windowSize, bucketSize), clock - windowSize)
         <= Live(bs, clock - windowSize) + cost
  {
    var live, ts := Fresh(bs, clock - windowSize), Truncate(clock, bucketSize);
    PurgeKeepsSpend(bs, clock, windowSize);
    MergeNonNegative(live, ts, cost);
    LiveAfterMerge(live, ts, cost, clock - windowSize);
    assert Added(bs, clock, cost, windowSize, bucketSize) == Merged(live, ts, cost);
  }

  // ---- the invariant -----------------------------------------------------------------------

  /** `n` times `cost`, added up. */
  function Times(n: nat, cost: real): real { if n == 0 then 0.0 else Times(n - 1, cost) + cost }

  lemma {:induction false} TimesIs(n: nat, cost: real)
    ensures Times(n, cost) == n as real * cost
  {
    if n > 0 { TimesIs(n - 1, cost); }
  }

  lemma {:induction false} TimesMonotone(n: nat, m: nat, cost: real)
    requires n <= m && cost >= 0.0
    ensures 0.0 <= Times(n, cost) <= Times(m, cost)
  {
    if n < m {
      TimesMonotone(n, m - 1, cost);
    } else if n > 0 {
      TimesMonotone(n - 1, n - 1, cost);
    }
  }

  /** Each limit is enforced on its own, when it is positive. */
  predicate HourGuard(cfg: Config) { cfg.enabled && cfg.actionOnExceeded == Reject && cfg.maxPerHour > 0.0 }

  predicate DayGuard(cfg: Config) { cfg.enabled && cfg.actionOnExceeded == Reject && cfg.maxPerDay > 0.0 }

  ghost predicate Sound(b: Books) { NonNegative(b.hourly) && NonNegative(b.daily) }

  /** Spend plus what the outstanding requests may still record is under the limit plus the reserve. */
  ghost predicate Covered(b: Books, clock: int, pending: nat, peak: nat, maxCost: real)
  {
    && (HourGuard(b.cfg) ==> HourlySpend(b, clock) + Times(pending, maxCost) < b.cfg.maxPerHour + Times(peak, maxCost))
    && (DayGuard(b.cfg) ==> DailySpend(b, clock) + Times(pending, maxCost) < b.cfg.maxPerDay + Times(peak, maxCost))
  }

  ghost predicate Inv(s: State, maxCost: real)
  {
    && Sound(s.books)
    && |Outstanding(s)| <= s.peak
    && Covered(s.books, s.clock, |Outstanding(s)|, s.peak, maxCost)
    && (forall b :: b in s.past ==> Sound(b) && Covered(b, s.clock, 0, s.peak, maxCost))
    && (forall c :: c in s.callers && s.callers[c].Checking? ==>
          && s.callers[c].tracker <= |s.past|
          && (s.callers[c].tracker == |s.past| ==> HourlySpend(s.books, s.clock) <= s.callers[c].hourlySpent))
  }

  lemma CoveredLater(b: Books, clock: int, later: int, pending: nat, fewer: nat, peak: nat, higher: nat, maxCost: real)
    requires Sound(b) && clock <= later && fewer <= pending && peak <= higher && maxCost >= 0.0
    requires Covered(b, clock, pending, peak, maxCost)
    ensures Covered(b, later, fewer, higher, maxCost)
  {
    hide Live, Times;
    TimesMonotone(fewer, pending, maxCost);
    TimesMonotone(peak, higher, maxCost);
    SpendFalls(b.hourly, clock - HOUR, later - HOUR);
    SpendFalls(b.daily, clock - DAY, later - DAY);
  }

  lemma TickKeepsInv(s: State, d: nat, maxCost: real)
    requires Inv(s, maxCost) && maxCost >= 0.0
    ensures Inv(Next(s, Tick(d), maxCost), maxCost)
  {
    hide Covered, Live;
    var s' := Next(s, Tick(d), maxCost);
    assert Outstanding(s') == Outstanding(s);
    CoveredLater(s.books, s.clock, s'.clock, |Outstanding(s)|, |Outstanding(s)|, s.peak, s.peak, maxCost);
    forall b | b in s.past ensures Covered(b, s'.clock, 0, s.peak, maxCost) {
      CoveredLater(b, s.clock, s'.clock, 0, 0, s.peak, s.peak, maxCost);
    }
    SpendFalls(s.books.hourly, s.clock - HOUR, s'.clock - HOUR);
  }

  lemma ReadHourlyKeepsInv(s: State, c: nat, maxCost: real)
    requires Inv(s, maxCost)
    ensures Inv(Next(s, ReadHourly(c), maxCost), maxCost)
  {
    hide Live, Fresh, Total;
    var s' := Next(s, ReadHourly(c), maxCost);
    if s' != s {
      PurgeKeepsSpend(s.books.hourly, s.clock, HOUR);
      assert Outstanding(s') == Outstanding(s);
      assert HourlySpend(s'.books, s.clock) == HourlySpend(s.books, s.clock);
      assert s'.callers[c] == Checking(|s.past|, HourlySpend(s.books, s.clock));
    }
  }

  lemma PurgedDaily(b: Books, clock: int)
    requires Sound(b)
    ensures var b' := b.(daily := Fresh(b.daily, clock - DAY));
      Sound(b') && HourlySpend(b', clock) == HourlySpend(b, clock)
      && DailySpend(b', clock) == DailySpend(b, clock) == Total(Fresh(b.daily, clock - DAY))
  {
    PurgeKeepsSpend(b.daily, clock, DAY);
  }

  function DailyPurged(b: Books, clock: int): Books { b.(daily := Fresh(b.daily, clock - DAY)) }

  /** A check of a replaced tracker: it was outstanding before, whatever it decides. */
  lemma StaleReadKeepsInv(s: State, c: nat, i: nat, phase: Phase, maxCost: real)
    requires maxCost >= 0.0 && Inv(s, maxCost) && i < |s.past| && !phase.Checking?
    requires PhaseOf(s, c).Checking? && PhaseOf(s, c).tracker == i
    ensures Inv(Moved(s.(past := s.past[i := DailyPurged(s.past[i], s.clock)]), c, phase), maxCost)
  {
    hide Live, Times, Covered, Sound, DailyPurged;
    var b' := DailyPurged(s.past[i], s.clock);
    var s' := Moved(s.(past := s.past[i := b']), c, phase);
    assert s.past[i] in s.past;
    assert Outstanding(s') == Outstanding(s) - {c} || Outstanding(s') == Outstanding(s);
    SmallerOutstanding(s, s', c);
    CoveredAlike(s.past[i], s.clock, s.peak, maxCost);
    CoveredLater(s.books, s.clock, s.clock, |Outstanding(s)|, |Outstanding(s')|, s.peak, s.peak, maxCost);
    forall b | b in s'.past ensures Sound(b) && Covered(b, s.clock, 0, s.peak, maxCost) {
      assert b == b' || b in s.past;
    }
  }

  lemma StaleRead(s: State, c: nat, streaming: bool, maxCost: real)
    requires maxCost >= 0.0 && Inv(s, maxCost) && PhaseOf(s, c).Checking? && PhaseOf(s, c).tracker < |s.past|
    ensures Inv(Next(s, ReadDaily(c, streaming), maxCost), maxCost)
  {
    hide Inv, Moved, Allows, Total, Fresh;
    var i := PhaseOf(s, c).tracker;
    StaleReadKeepsInv(s, c, i, Admitted, maxCost);
    StaleReadKeepsInv(s, c, i, Idle, maxCost);
  }

  lemma CoveredAlike(b: Books, clock: int, peak: nat, maxCost: real)
    requires Sound(b) && Covered(b, clock, 0, peak, maxCost)
    ensures Sound(DailyPurged(b, clock)) && Covered(DailyPurged(b, clock), clock, 0, peak, maxCost)
  {
    hide Live;
    PurgedDaily(b, clock);
  }

  lemma SmallerOutstanding(s: State, s': State, c: nat)
    requires Outstanding(s') == Outstanding(s) - {c} || Outstanding(s') == Outstanding(s)
    ensures |Outstanding(s')| <= |Outstanding(s)|
  {
    hide Outstanding;
    if c in Outstanding(s) {
      assert |Outstanding(s) - {c}| == |Outstanding(s)| - 1;
    } else {
      assert Outstanding(s) - {c} == Outstanding(s);
    }
  }

  lemma AllowedIsBelow(cfg: Config, hourly: real, daily: real)
    ensures Allows(cfg, hourly, daily) <==> (HourGuard(cfg) ==> hourly < cfg.maxPerHour) && (DayGuard(cfg) ==> daily < cfg.maxPerDay)
  {
  }

  lemma ReadDailyKeepsInv(s: State, c: nat, streaming: bool, maxCost: real)
    requires maxCost >= 0.0 && Inv(s, maxCost) && PhaseOf(s, c).Checking? && PhaseOf(s, c).tracker >= |s.past|
    ensures Inv(Next(s, ReadDaily(c, streaming), maxCost), maxCost)
  {
    hide Live, Fresh, Total, Times, Allows;
    var s' := Next(s, ReadDaily(c, streaming), maxCost);
    assert PhaseOf(s, c).tracker == |s.past|;
    PurgedDaily(s.books, s.clock);
    assert s'.past == s.past && s'.clock == s.clock && s'.peak == Max(s.peak, |Outstanding(s')|);
    assert HourlySpend(s'.books, s.clock) == HourlySpend(s.books, s.clock);
    assert DailySpend(s'.books, s.clock) == DailySpend(s.books, s.clock);
    PastStays(s.past, s.clock, s.peak, s'.peak, maxCost);
    if s'.callers[c] == Idle {
      assert Outstanding(s') == Outstanding(s);
    } else {
      assert HourlySpend(s.books, s.clock) <= s.callers[c].hourlySpent;
      AllowedIsBelow(s.books.cfg, s.callers[c].hourlySpent, DailySpend(s.books, s.clock));
      TimesMonotone(|Outstanding(s')|, s'.peak, maxCost);
    }
  }

  lemma PastStays(past: seq<Books>, clock: int, peak: nat, higher: nat, maxCost: real)
    requires peak <= higher && maxCost >= 0.0
    requires forall b :: b in past ==> Sound(b) && Covered(b, clock, 0, peak, maxCost)
    ensures forall b :: b in past ==> Sound(b) && Covered(b, clock, 0, higher, maxCost)
  {
    hide Covered, Sound;
    forall b | b in past ensures Covered(b, clock, 0, higher, maxCost) {
      CoveredLater(b, clock, clock, 0, 0, peak, higher, maxCost);
    }
  }

  lemma OneLess(s: State, s': State, c: nat, maxCost: real)
    requires PhaseOf(s, c) == Admitted && s'.callers == s.callers[c := Idle] && |s'.past| == |s.past|
    ensures Outstanding(s') == Outstanding(s) - {c}
    ensures |Outstanding(s')| + 1 == |Outstanding(s)|
    ensures Times(|Outstanding(s')|, maxCost) + maxCost == Times(|Outstanding(s)|, maxCost)
  {
    assert Outstanding(s') == Outstanding(s) - {c};
    assert |Outstanding(s)| as real == |Outstanding(s')| as real + 1.0;
  }

  lemma RecordKeepsInv(s: State, c: nat, cost: real, maxCost: real)
    requires Inv(s, maxCost)
    ensures Inv(Next(s, Record(c, cost), maxCost), maxCost)
  {
    hide Live, Added, Times;
    if PhaseOf(s, c) == Admitted && !(s.books.cfg.enabled && ReadLocked(s)) && 0.0 < cost <= maxCost {
      var s' := Next(s, Record(c, cost), maxCost);
      OneLess(s, s', c, maxCost);
      SpendAfterRecord(s.books.hourly, s.clock, cost, HOUR, MINUTE);
      SpendAfterRecord(s.books.daily, s.clock, cost, DAY, HOUR);
      forall d | d in s'.callers && s'.callers[d].Checking?
        ensures s.books.cfg.enabled ==> s'.callers[d].tracker < |s.past|
      {
        assert d in s.callers && s.callers[d] == s'.callers[d];
      }
    }
  }

  lemma GiveUpKeepsInv(s: State, c: nat, maxCost: real)
    requires Inv(s, maxCost) && maxCost >= 0.0
    ensures Inv(Next(s, GiveUp(c), maxCost), maxCost)
  {
    hide Live, Times;
    var s' := Next(s, GiveUp(c), maxCost);
    if s' != s {
      OneLess(s, s', c, maxCost);
    }
  }

  lemma ReloadKeepsInv(s: State, cfg: Config, maxCost: real)
    requires Inv(s, maxCost) && maxCost >= 0.0
    ensures Inv(Next(s, Reload(cfg), maxCost), maxCost)
  {
    hide Times;
    var s' := Next(s, Reload(cfg), maxCost);
    assert s'.peak == Max(s.peak, |Outstanding(s')|) by { assert Outstanding(s') == Outstanding(s'.(peak := s.peak)); }
    CoveredLater(s.books, s.clock, s.clock, |Outstanding(s)|, 0, s.peak, s'.peak, maxCost);
    PastStays(s.past, s.clock, s.peak, s'.peak, maxCost);
    TimesMonotone(|Outstanding(s')|, s'.peak, maxCost);
    assert HourlySpend(s'.books, s.clock) == 0.0 && DailySpend(s'.books, s.clock) == 0.0;
  }

  lemma NextKeepsInv(s: State, step: Step, maxCost: real)
    requires Inv(s, maxCost) && maxCost >= 0.0
    ensures Inv(Next(s, step, maxCost), maxCost)
  {
    hide Inv;
    match step
    case Tick(d) => TickKeepsInv(s, d, maxCost);
    case ReadHourly(c) => ReadHourlyKeepsInv(s, c, maxCost);
    case ReadDaily(c, streaming) =>
      if PhaseOf(s, c).Checking? {
        if PhaseOf(s, c).tracker < |s.past| {
          StaleRead(s, c, streaming, maxCost);
        } else {
          ReadDailyKeepsInv(s, c, streaming, maxCost);
        }
      }
    case Record(c, cost) => RecordKeepsInv(s, c, cost, maxCost);
    case GiveUp(c) => GiveUpKeepsInv(s, c, maxCost);
    case Reload(cfg) => ReloadKeepsInv(s, cfg, maxCost);
  }

  lemma {:induction false} ExecInv(steps: seq<Step>, clock: int, cfg: Config, maxCost: real)
    requires maxCost >= 0.0
    ensures Inv(Exec(steps, clock, cfg, maxCost), maxCost)
  {
    hide Next;
    if steps == [] {
      assert Outstanding(Start(clock, cfg)) == {};
    } else {
      hide Inv;
      ExecInv(steps[..|steps| - 1], clock, cfg, maxCost);
      NextKeepsInv(Exec(steps[..|steps| - 1], clock, cfg, maxCost), steps[|steps| - 1], maxCost);
    }
  }

  /** All trackers, the current one last. */
  function AllBooks(s: State): seq<Books> { s.past + [s.books] }
}
