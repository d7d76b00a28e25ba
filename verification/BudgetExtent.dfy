/** How far the spend can pass a tracker's limits, and how the two limits hold each other down: the hourly
    spend is part of the daily one, and the daily spend is made of at most 24 hours. */
module BudgetExtent {
  import opened Wrappers
  import opened RollingWindow
  import opened WindowHistory
  import opened BudgetTracker
  import opened BudgetProtocol

  // ---- each limit on its own ---------------------------------------------------------------

  lemma ReportedSpend(b: Books, now: int)
    ensures HourlySpend(b, now) == Total(Fresh(b.hourly, now - HOUR))
    ensures DailySpend(b, now) == Total(Fresh(b.daily, now - DAY))
  {
    TotalIsLive(b.hourly, now - HOUR);
    TotalIsLive(b.daily, now - DAY);
  }

  /** Main result: in every interleaving and under any reloads, as long as at most `k` requests are
      outstanding at once and no request costs more than `maxCost`: each limit that a tracker enforces, alone
      or with the other, is passed by less than `k * maxCost` in its window, whatever the other trackers do. */
  lemma OvershootBound(steps: seq<Step>, clock: int, now: int, k: nat, cfg: Config, maxCost: real)
    requires maxCost >= 0.0
    requires Exec(steps, clock, cfg, maxCost).peak <= k && Exec(steps, clock, cfg, maxCost).clock <= now
    ensures forall b :: b in AllBooks(Exec(steps, clock, cfg, maxCost)) ==>
              && (HourGuard(b.cfg) ==> HourlySpend(b, now) < b.cfg.maxPerHour + Times(k, maxCost))
              && (DayGuard(b.cfg) ==> DailySpend(b, now) < b.cfg.maxPerDay + Times(k, maxCost))
  {
    hide Exec;
    ExecInv(steps, clock, cfg, maxCost);
    InvBounds(Exec(steps, clock, cfg, maxCost), now, k, maxCost);
  }

  lemma InvBounds(s: State, now: int, k: nat, maxCost: real)
    requires maxCost >= 0.0 && Inv(s, maxCost) && s.peak <= k && s.clock <= now
    ensures forall b :: b in AllBooks(s) ==>
              && Sound(b)
              && (HourGuard(b.cfg) ==> HourlySpend(b, now) < b.cfg.maxPerHour + Times(k, maxCost))
              && (DayGuard(b.cfg) ==> DailySpend(b, now) < b.cfg.maxPerDay + Times(k, maxCost))
  {
    forall b | b in AllBooks(s)
      ensures Sound(b)
              && (HourGuard(b.cfg) ==> HourlySpend(b, now) < b.cfg.maxPerHour + Times(k, maxCost))
              && (DayGuard(b.cfg) ==> DailySpend(b, now) < b.cfg.maxPerDay + Times(k, maxCost))
    {
      hide Live;
      var pending := if b in s.past then 0 else |Outstanding(s)|;
      CoveredLater(b, s.clock, now, pending, 0, s.peak, k, maxCost);
      TimesMonotone(0, 0, maxCost);
    }
  }

  // ---- both limits together ----------------------------------------------------------------

  predicate Guarded(cfg: Config) { HourGuard(cfg) || DayGuard(cfg) }

  /** The lowest limit that is enforced. */
  function Lower(cfg: Config): real
  {
    if !DayGuard(cfg) then cfg.maxPerHour
    else if !HourGuard(cfg) then cfg.maxPerDay
    else Least(cfg.maxPerHour, cfg.maxPerDay)
  }

  /** What the hourly spend stays below with `k` requests outstanding at most. */
  function HourlyReach(cfg: Config, k: nat, maxCost: real): real { Lower(cfg) + Times(k, maxCost) }

  function ByHours(hours: nat, limit: real, reserve: real): real { hours as real * (limit + reserve) }

  /** What the daily spend stays below when it falls into `hours` hours. */
  function DailyReach(cfg: Config, hours: nat, k: nat, maxCost: real): real
  {
    var byHours := ByHours(hours, cfg.maxPerHour, Times(k, maxCost));
    if !DayGuard(cfg) then byHours
    else if !HourGuard(cfg) then cfg.maxPerDay + Times(k, maxCost)
    else Least(cfg.maxPerDay + Times(k, maxCost), byHours)
  }

  // ---- the shape of the daily buckets ------------------------------------------------------

  ghost predicate Stamped(bs: seq<Bucket>, clock: int)
  {
    && (forall i, j :: 0 <= i < j < |bs| ==> bs[i].timestamp != bs[j].timestamp)
    && (forall b :: b in bs ==> Truncate(b.timestamp, HOUR) == b.timestamp <= clock)
  }

  lemma StampedFresh(bs: seq<Bucket>, clock: int, now: int)
    requires Stamped(bs, clock) && clock <= now
    ensures Aligned(Fresh(bs, now - DAY), now, DAY, HOUR) && Stamped(Fresh(bs, now - DAY), clock)
  {
    hide Fresh, Truncate;
    FreshMembers(bs, now - DAY);
    FreshDistinct(bs, now - DAY);
  }

  /** The members of a window after one cost has been put into the bucket `ts`. */
  lemma MergedMembers(bs: seq<Bucket>, ts: int, cost: real, b: Bucket)
    requires b in Merged(bs, ts, cost)
    requires forall i, j :: 0 <= i < j < |bs| ==> bs[i].timestamp != bs[j].timestamp
    ensures if b.timestamp != ts then b in bs
            else b.value == cost || Bucket(ts, b.value - cost) in bs
  {
    var i := IndexOf(bs, ts);
    var after := Merged(bs, ts, cost);
    var k :| 0 <= k < |after| && after[k] == b;
    if k < |bs| && k != i {
      assert b == bs[k];
    } else if i < |bs| {
      assert bs[i] == Bucket(ts, b.value - cost);
    }
  }

  lemma MergedDistinct(bs: seq<Bucket>, ts: int, cost: real)
    requires forall i, j :: 0 <= i < j < |bs| ==> bs[i].timestamp != bs[j].timestamp
    ensures var after := Merged(bs, ts, cost);
      forall i, j :: 0 <= i < j < |after| ==> after[i].timestamp != after[j].timestamp
  {
  }

  lemma StampedAdded(bs: seq<Bucket>, clock: int, cost: real)
    requires Stamped(bs, clock)
    ensures Stamped(Added(bs, clock, cost, DAY, HOUR), clock)
  {
    hide Fresh, Truncate, Merged;
    var live, ts := Fresh(bs, clock - DAY), Truncate(clock, HOUR);
    StampedFresh(bs, clock, clock);
    TruncateTwice(clock, HOUR);
    MergedDistinct(live, ts, cost);
    forall b | b in Added(bs, clock, cost, DAY, HOUR) ensures Truncate(b.timestamp, HOUR) == b.timestamp <= clock {
      MergedMembers(live, ts, cost, b);
    }
  }

  // ---- hours and windows -------------------------------------------------------------------

  /** Now and later, the hourly spend is part of the daily spend. */
  ghost predicate Nested(b: Books, clock: int)
  {
    forall t :: clock <= t ==> HourlySpend(b, t) <= DailySpend(b, t)
  }

  /** No hour has more than `most` if there is an hourly limit, and the hour of `clock` no more than the hourly window has seen of it. */
  ghost predicate ByHour(b: Books, clock: int, most: real)
  {
    forall x :: x in b.daily ==>
      (HourGuard(b.cfg) ==> x.value < most) && (x.timestamp == Truncate(clock, HOUR) ==> x.value <= Live(b.hourly, x.timestamp - 1))
  }

  ghost predicate Tidy(b: Books, clock: int, most: real)
  {
    && Stamped(b.daily, clock) && Nested(b, clock) && ByHour(b, clock, most)
    && (!b.cfg.enabled ==> b.hourly == [] && b.daily == [])
  }

  lemma TidyLater(b: Books, clock: int, later: int, most: real, more: real)
    requires Tidy(b, clock, most) && clock <= later && most <= more
    ensures Tidy(b, later, more)
  {
    hide Live;
    forall x | x in b.daily && x.timestamp == Truncate(later, HOUR) ensures x.timestamp == Truncate(clock, HOUR) {
      SameHour(clock, later);
    }
  }

  lemma SameHour(clock: int, later: int)
    requires clock <= later
    ensures Truncate(later, HOUR) <= clock ==> Truncate(later, HOUR) == Truncate(clock, HOUR)
  {
  }

  lemma TidyHourlyPurged(b: Books, clock: int, most: real)
    requires Tidy(b, clock, most)
    ensures Tidy(b.(hourly := Fresh(b.hourly, clock - HOUR)), clock, most)
  {
    hide Live, Fresh;
    var b' := b.(hourly := Fresh(b.hourly, clock - HOUR));
    forall t | clock <= t ensures HourlySpend(b', t) <= DailySpend(b', t) {
      LiveOfFresh(b.hourly, clock - HOUR, t - HOUR);
      assert HourlySpend(b, t) <= DailySpend(b, t);
    }
    forall x | x in b.daily && x.timestamp == Truncate(clock, HOUR) ensures x.value <= Live(b'.hourly, x.timestamp - 1) {
      LiveOfFresh(b.hourly, clock - HOUR, x.timestamp - 1);
    }
  }

  lemma TidyDailyPurged(b: Books, clock: int, most: real)
    requires Tidy(b, clock, most)
    ensures Tidy(DailyPurged(b, clock), clock, most)
  {
    hide Live, Fresh;
    var b' := DailyPurged(b, clock);
    StampedFresh(b.daily, clock, clock);
    FreshMembers(b.daily, clock - DAY);
    forall t | clock <= t ensures HourlySpend(b', t) <= DailySpend(b', t) {
      LiveOfFresh(b.daily, clock - DAY, t - DAY);
      assert HourlySpend(b, t) <= DailySpend(b, t);
    }
  }

  /** What one record adds to what is seen from any cutoff that is not behind the window's own. */
  lemma LiveRecorded(bs: seq<Bucket>, clock: int, cost: real, cutoff: int, windowSize: int, bucketSize: int)
    requires clock - windowSize <= cutoff
    ensures Live(Added(bs, clock, cost, windowSize, bucketSize), cutoff)
         == Live(bs, cutoff) + if Truncate(clock, bucketSize) > cutoff then cost else 0.0
  {
    hide Live, Added, Truncate;
    LiveAfterAdd(bs, clock, cost, cutoff + windowSize, windowSize, bucketSize);
  }

  lemma HourBeforeMinute(t: int)
    ensures Truncate(t, HOUR) <= Truncate(t, MINUTE)
  {
    var h := t / HOUR;
    assert Truncate(t, HOUR) == (60 * h) * MINUTE;
    assert t / MINUTE >= 60 * h;
    assert Truncate(t, MINUTE) == (t / MINUTE) * MINUTE;
  }

  lemma RecordedNested(b: Books, clock: int, cost: real)
    requires Nested(b, clock) && cost > 0.0
    ensures Nested(Recorded(b, clock, cost), clock)
  {
    hide Live, Added;
    var b' := Recorded(b, clock, cost);
    if !b.cfg.enabled {
      return;
    }
    forall t | clock <= t ensures HourlySpend(b', t) <= DailySpend(b', t) {
      LiveRecorded(b.hourly, clock, cost, t - HOUR, HOUR, MINUTE);
      LiveRecorded(b.daily, clock, cost, t - DAY, DAY, HOUR);
      assert HourlySpend(b, t) <= DailySpend(b, t);
    }
  }

  lemma RecordedByHour(b: Books, clock: int, cost: real, most: real)
    requires Sound(b) && Tidy(b, clock, most) && cost > 0.0
    requires HourGuard(b.cfg) ==> HourlySpend(Recorded(b, clock, cost), clock) < most
    ensures ByHour(Recorded(b, clock, cost), clock, most)
  {
    hide Live, Fresh, Merged, Truncate;
    if !b.cfg.enabled {
      return;
    }
    var b', ts := Recorded(b, clock, cost), Truncate(clock, HOUR);
    var live := Fresh(b.daily, clock - DAY);
    HourBeforeMinute(clock);
    HourStarted(clock);
    LiveRecorded(b.hourly, clock, cost, ts - 1, HOUR, MINUTE);
    SpendAfterRecord(b.hourly, clock, cost, HOUR, MINUTE);
    SpendFalls(b'.hourly, clock - HOUR, ts - 1);
    SpendFalls(b.hourly, ts - 1, ts - 1);
    StampedFresh(b.daily, clock, clock);
    FreshMembers(b.daily, clock - DAY);
    forall x | x in b'.daily
      ensures (HourGuard(b.cfg) ==> x.value < most) && (x.timestamp == ts ==> x.value <= Live(b'.hourly, x.timestamp - 1))
    {
      MergedMembers(live, ts, cost, x);
    }
  }

  lemma HourStarted(clock: int)
    ensures clock - HOUR <= Truncate(clock, HOUR) - 1
  {
  }

  // ---- every run ---------------------------------------------------------------------------

  function Most(b: Books, peak: nat, maxCost: real): real { b.cfg.maxPerHour + Times(peak, maxCost) }

  ghost predicate AllTidy(s: State, maxCost: real)
  {
    forall b :: b in AllBooks(s) ==> Tidy(b, s.clock, Most(b, s.peak, maxCost))
  }

  /** Each tracker after a step is one from before, purged or, if it is the current one, written to. */
  ghost predicate Derives(b': Books, s: State, s': State, maxCost: real)
  {
    || b' in AllBooks(s)
    || (exists b :: b in AllBooks(s) && b' == b.(hourly := Fresh(b.hourly, s.clock - HOUR)))
    || (exists b :: b in AllBooks(s) && b' == DailyPurged(b, s.clock))
    || (exists cost :: cost > 0.0 && b' == Recorded(s.books, s.clock, cost) && b' == s'.books && s'.clock == s.clock)
    || (b'.hourly == [] && b'.daily == [])
  }

  lemma StepDerives(s: State, step: Step, maxCost: real, b': Books)
    requires b' in AllBooks(Next(s, step, maxCost))
    ensures Derives(b', s, Next(s, step, maxCost), maxCost)
    ensures s.clock <= Next(s, step, maxCost).clock && s.peak <= Next(s, step, maxCost).peak
  {
    hide Fresh, Recorded, Allows, Total, Outstanding;
    if b' !in AllBooks(s) {
      match step
      case ReadHourly(c) => assert b' == s.books.(hourly := Fresh(s.books.hourly, s.clock - HOUR));
      case ReadDaily(c, _) =>
        var b := BooksOf(s, PhaseOf(s, c).tracker);
        assert b in AllBooks(s) && b' == DailyPurged(b, s.clock);
      case Record(c, cost) => assert b' == Recorded(s.books, s.clock, cost);
      case Reload(cfg) => assert b' == Books([], [], cfg);
      case _ =>
    }
  }

  lemma NextKeepsTidy(s: State, step: Step, maxCost: real)
    requires Inv(s, maxCost) && AllTidy(s, maxCost) && maxCost >= 0.0
    ensures AllTidy(Next(s, step, maxCost), maxCost)
  {
    hide Next, Tidy, Fresh, Added, Live, Times, Inv, Covered, Sound;
    var s' := Next(s, step, maxCost);
    NextKeepsInv(s, step, maxCost);
    forall b' | b' in AllBooks(s') ensures Tidy(b', s'.clock, Most(b', s'.peak, maxCost)) {
      StepDerives(s, step, maxCost, b');
      DerivedTidy(s, s', maxCost, b');
    }
  }

  lemma DerivedTidy(s: State, s': State, maxCost: real, b': Books)
    requires Inv(s, maxCost) && Inv(s', maxCost) && AllTidy(s, maxCost) && maxCost >= 0.0
    requires Derives(b', s, s', maxCost) && s.clock <= s'.clock && s.peak <= s'.peak
    ensures Tidy(b', s'.clock, Most(b', s'.peak, maxCost))
  {
    hide Tidy, Stamped, Nested, ByHour, Fresh, Live, Added, Times, Outstanding;
    TimesMonotone(s.peak, s'.peak, maxCost);
    var most := Most(b', s.peak, maxCost);
    if b' in AllBooks(s) {
      TidyLater(b', s.clock, s'.clock, most, Most(b', s'.peak, maxCost));
    } else if b :| b in AllBooks(s) && b' == b.(hourly := Fresh(b.hourly, s.clock - HOUR)) {
      TidyHourlyPurged(b, s.clock, most);
      TidyLater(b', s.clock, s'.clock, most, Most(b', s'.peak, maxCost));
    } else if b :| b in AllBooks(s) && b' == DailyPurged(b, s.clock) {
      TidyDailyPurged(b, s.clock, most);
      TidyLater(b', s.clock, s'.clock, most, Most(b', s'.peak, maxCost));
    } else if cost :| cost > 0.0 && b' == Recorded(s.books, s.clock, cost) && b' == s'.books && s'.clock == s.clock {
      assert AllBooks(s)[|s.past|] == s.books && s.books in AllBooks(s);
      TidyLater(s.books, s.clock, s.clock, most, Most(b', s'.peak, maxCost));
      TimesMonotone(0, |Outstanding(s')|, maxCost);
      TidyParts(s.books, s.clock, Most(b', s'.peak, maxCost));
      RecordedNested(s.books, s.clock, cost);
      RecordedByHour(s.books, s.clock, cost, Most(b', s'.peak, maxCost));
      StampedAdded(s.books.daily, s.clock, cost);
      assert !s.books.cfg.enabled ==> b' == s.books;
      TidyParts(b', s.clock, Most(b', s'.peak, maxCost));
    } else {
      TidyEmpty(b', s'.clock, Most(b', s'.peak, maxCost));
    }
  }

  lemma TidyParts(b: Books, clock: int, most: real)
    ensures Tidy(b, clock, most) <==>
            (&& Stamped(b.daily, clock) && Nested(b, clock) && ByHour(b, clock, most)
             && (!b.cfg.enabled ==> b.hourly == [] && b.daily == []))
  {
  }

  lemma TidyEmpty(b: Books, clock: int, most: real)
    requires b.hourly == [] && b.daily == []
    ensures Tidy(b, clock, most)
  {
  }

  lemma {:induction false} ExecTidy(steps: seq<Step>, clock: int, cfg: Config, maxCost: real)
    requires maxCost >= 0.0
    ensures AllTidy(Exec(steps, clock, cfg, maxCost), maxCost)
  {
    hide Next, Inv, Tidy;
    if steps == [] {
      TidyEmpty(Books([], [], cfg), clock, Most(Books([], [], cfg), 0, maxCost));
    } else {
      ExecTidy(steps[..|steps| - 1], clock, cfg, maxCost);
      ExecInv(steps[..|steps| - 1], clock, cfg, maxCost);
      NextKeepsTidy(Exec(steps[..|steps| - 1], clock, cfg, maxCost), steps[|steps| - 1], maxCost);
    }
  }

  // ---- at most 24 hours --------------------------------------------------------------------

  lemma {:induction false} TotalBelow(bs: seq<Bucket>, most: real)
    requires most > 0.0 && forall b :: b in bs ==> b.value < most
    ensures Total(bs) <= |bs| as real * most && (bs != [] ==> Total(bs) < |bs| as real * most)
  {
    if bs != [] {
      var front := bs[..|bs| - 1];
      TotalBelow(front, most);
      assert bs[|bs| - 1] in bs;
      assert |bs| as real * most == |front| as real * most + most by { OneMore(|front| as real, most); }
    }
  }

  lemma OneMore(n: real, most: real)
    ensures (n + 1.0) * most == n * most + most
  {
  }

  /** The buckets that a daily total at `now` is made of. */
  function Hours(b: Books, now: int): seq<Bucket> { Fresh(b.daily, now - DAY) }

  lemma DayOfHours(b: Books, clock: int, now: int, most: real)
    requires Tidy(b, clock, most) && clock <= now && most > 0.0
    ensures Hours(b, now) == [] ==> DailySpend(b, now) == 0.0
    ensures Hours(b, now) != [] && HourGuard(b.cfg) ==> DailySpend(b, now) < |Hours(b, now)| as real * most
    ensures |Hours(b, now)| <= 24
  {
    hide Live, Fresh, Total, Nested, Truncate;
    TotalIsLive(b.daily, now - DAY);
    StampedFresh(b.daily, clock, now);
    FreshMembers(b.daily, now - DAY);
    AlignedCount(Hours(b, now), now, DAY, HOUR);
    DayCount(now);
    TotalOfNothing();
    if HourGuard(b.cfg) {
      TotalBelow(Hours(b, now), most);
    }
  }

  lemma TotalOfNothing()
    ensures Total([]) == 0.0
  {
  }

  lemma DayCount(now: int)
    ensures now / HOUR + 1 - FirstSlot(now, DAY, HOUR) <= 24
  {
    assert DAY % HOUR == 0 && NumBuckets(DAY, HOUR) == 24;
    SlotCount(now, DAY, HOUR);
  }

  lemma ProductBelow(x: real, y: real, most: real)
    requires x <= y && most > 0.0
    ensures x * most <= y * most
  {
  }

  /** What holds a tracker's spend down at `now`. */
  ghost predicate BelowReach(b: Books, now: int, k: nat, maxCost: real)
  {
    && |Hours(b, now)| <= 24
    && (Guarded(b.cfg) ==> HourlySpend(b, now) < HourlyReach(b.cfg, k, maxCost))
    && (Guarded(b.cfg) && Hours(b, now) != [] ==> DailySpend(b, now) < DailyReach(b.cfg, |Hours(b, now)|, k, maxCost))
    && (Hours(b, now) == [] ==> DailySpend(b, now) == 0.0)
    && (!b.cfg.enabled ==> HourlySpend(b, now) == DailySpend(b, now) == 0.0)
  }

  /** Main result, in every interleaving and under any reloads: with at most `k` requests outstanding at
      once, a tracker that enforces a limit keeps its hourly spend below the lowest limit plus `k` costs, and
      its daily spend below the daily limit plus `k` costs and below the hourly bound once for each of the
      hours it falls into, of which there are at most 24. A disabled tracker reports nothing. */
  lemma SpendBelowReach(steps: seq<Step>, clock: int, now: int, k: nat, cfg: Config, maxCost: real)
    requires maxCost >= 0.0
    requires Exec(steps, clock, cfg, maxCost).peak <= k && Exec(steps, clock, cfg, maxCost).clock <= now
    ensures forall b :: b in AllBooks(Exec(steps, clock, cfg, maxCost)) ==> BelowReach(b, now, k, maxCost)
  {
    hide Exec, BelowReach;
    var s := Exec(steps, clock, cfg, maxCost);
    ExecTidy(steps, clock, cfg, maxCost);
    OvershootBound(steps, clock, now, k, cfg, maxCost);
    forall b | b in AllBooks(s) ensures BelowReach(b, now, k, maxCost) {
      hide Live, Times, Stamped, ByHour, Fresh;
      TimesMonotone(s.peak, k, maxCost);
      TidyLater(b, s.clock, s.clock, Most(b, s.peak, maxCost), Most(b, k, maxCost));
      TidyBelowReach(b, s.clock, now, k, maxCost);
    }
  }

  lemma TidyBelowReach(b: Books, clock: int, now: int, k: nat, maxCost: real)
    requires Tidy(b, clock, Most(b, k, maxCost)) && clock <= now && maxCost >= 0.0
    requires HourGuard(b.cfg) ==> HourlySpend(b, now) < b.cfg.maxPerHour + Times(k, maxCost)
    requires DayGuard(b.cfg) ==> DailySpend(b, now) < b.cfg.maxPerDay + Times(k, maxCost)
    ensures BelowReach(b, now, k, maxCost)
  {
    hide Times, Stamped, ByHour, Fresh;
    TimesMonotone(0, k, maxCost);
    TidyAnyMost(b, clock, Most(b, k, maxCost));
    DayOfHours(b, clock, now, if HourGuard(b.cfg) then Most(b, k, maxCost) else 1.0);
    assert HourlySpend(b, now) <= DailySpend(b, now);
  }

  lemma TidyAnyMost(b: Books, clock: int, most: real)
    requires Tidy(b, clock, most)
    ensures !HourGuard(b.cfg) ==> Tidy(b, clock, 1.0)
  {
  }

  // ---- the trackers take turns -------------------------------------------------------------

  /** No tracker has an hour that is later than one of its successors'. */
  ghost predicate InTurn(bs: seq<Books>)
  {
    forall i, j, x, y :: 0 <= i < j < |bs| && x in bs[i].daily && y in bs[j].daily ==> x.timestamp <= y.timestamp
  }

  /** A step changes no tracker's hours, except that the current one may get the current hour. */
  lemma StepHours(s: State, step: Step, maxCost: real, i: nat)
    requires i < |AllBooks(Next(s, step, maxCost))|
    ensures var bs, bs' := AllBooks(s), AllBooks(Next(s, step, maxCost));
      && |bs| <= |bs'| && (i >= |bs| ==> bs'[i].daily == [])
      && (i < |bs| ==> forall x :: x in bs'[i].daily ==>
            (x.timestamp == Truncate(s.clock, HOUR) && i == |bs| - 1) || exists y :: y in bs[i].daily && y.timestamp == x.timestamp)
  {
    hide Fresh, Added, Allows, Total, Outstanding, Truncate;
    var bs, bs' := AllBooks(s), AllBooks(Next(s, step, maxCost));
    if i < |bs| && bs'[i].daily != bs[i].daily {
      match step
      case ReadDaily(c, _) =>
        FreshMembers(bs[i].daily, s.clock - DAY);
        assert bs'[i].daily == Fresh(bs[i].daily, s.clock - DAY);
      case Record(c, cost) =>
        assert i == |s.past|;
        forall x | x in bs'[i].daily
          ensures x.timestamp == Truncate(s.clock, HOUR) || exists y :: y in bs[i].daily && y.timestamp == x.timestamp
        {
          AddedHours(bs[i].daily, s.clock, cost, x);
        }
      case _ =>
    }
  }

  lemma AddedHours(bs: seq<Bucket>, clock: int, cost: real, x: Bucket)
    requires x in Added(bs, clock, cost, DAY, HOUR)
    ensures x.timestamp == Truncate(clock, HOUR) || x in bs
  {
    hide Fresh, Truncate;
    var live, ts := Fresh(bs, clock - DAY), Truncate(clock, HOUR);
    FreshMembers(bs, clock - DAY);
    var after := Merged(live, ts, cost);
    var k :| 0 <= k < |after| && after[k] == x;
  }

  lemma NextInTurn(s: State, step: Step, maxCost: real)
    requires InTurn(AllBooks(s)) && forall b :: b in AllBooks(s) ==> Stamped(b.daily, s.clock)
    ensures InTurn(AllBooks(Next(s, step, maxCost)))
  {
    hide Next, Stamped;
    var bs, bs' := AllBooks(s), AllBooks(Next(s, step, maxCost));
    forall i, j, x, y | 0 <= i < j < |bs'| && x in bs'[i].daily && y in bs'[j].daily ensures x.timestamp <= y.timestamp {
      StepHours(s, step, maxCost, i);
      StepHours(s, step, maxCost, j);
      var x' :| x' in bs[i].daily && x'.timestamp == x.timestamp;
      assert bs[i] in bs;
      HourBehind(bs[i].daily, s.clock, x');
    }
  }

  lemma HourBehind(bs: seq<Bucket>, clock: int, x: Bucket)
    requires Stamped(bs, clock) && x in bs
    ensures x.timestamp <= Truncate(clock, HOUR)
  {
    MultiplesBelow(x.timestamp, clock);
  }

  lemma MultiplesBelow(t: int, clock: int)
    requires Truncate(t, HOUR) == t <= clock
    ensures t <= Truncate(clock, HOUR)
  {
  }

  lemma {:induction false} ExecInTurn(steps: seq<Step>, clock: int, cfg: Config, maxCost: real)
    requires maxCost >= 0.0
    ensures InTurn(AllBooks(Exec(steps, clock, cfg, maxCost)))
  {
    hide Next, Tidy;
    if steps != [] {
      ExecInTurn(steps[..|steps| - 1], clock, cfg, maxCost);
      var s := Exec(steps[..|steps| - 1], clock, cfg, maxCost);
      ExecTidy(steps[..|steps| - 1], clock, cfg, maxCost);
      forall b | b in AllBooks(s) ensures Stamped(b.daily, s.clock) {
        TidyParts(b, s.clock, Most(b, s.peak, maxCost));
      }
      NextInTurn(s, steps[|steps| - 1], maxCost);
    }
  }
}
