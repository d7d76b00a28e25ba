/** The bounds of `BudgetExtent` cannot be improved: whatever is less is exceeded by some run. */
module BudgetOvershoot {
  import opened Wrappers
  import opened RollingWindow
  import opened WindowHistory
  import opened BudgetTracker
  import opened BudgetProtocol
  import opened BudgetExtent

  lemma {:induction false} ExecConcat(s: State, a: seq<Step>, b: seq<Step>, maxCost: real)
    ensures ExecFrom(s, a + b, maxCost) == ExecFrom(ExecFrom(s, a, maxCost), b, maxCost)
  {
    hide Next;
    if b == [] {
      assert a + b == a;
    } else {
      assert (a + b)[..|a + b| - 1] == a + b[..|b| - 1];
      ExecConcat(s, a, b[..|b| - 1], maxCost);
    }
  }

  lemma ExecOne(s: State, step: Step, maxCost: real)
    ensures ExecFrom(s, [step], maxCost) == Next(s, step, maxCost)
  {
    assert [step][..0] == [];
  }

  ghost predicate NoReload(steps: seq<Step>) { forall step :: step in steps ==> !step.Reload? }

  // ---- states at which nothing is being checked --------------------------------------------

  /** The current tracker reports `hourly` and `daily`, its costs are later than `since` and will be seen
      until a day after that, and exactly the requests in `pending` are admitted and unrecorded. */
  ghost predicate Level(s: State, hourly: real, daily: real, since: int, pending: set<nat>)
  {
    && Sound(s.books) && s.books.cfg.enabled
    && HourlySpend(s.books, s.clock) == hourly && Live(s.books.hourly, s.clock) == 0.0
    && s.clock - DAY <= since <= s.clock - HOUR
    && (forall cutoff :: s.clock - DAY <= cutoff <= since ==> Live(s.books.daily, cutoff) == daily)
    && Outstanding(s) == pending
    && forall c :: c in s.callers ==> !s.callers[c].Checking?
  }

  /** With these totals reported, a check lets requests through. */
  predicate Room(cfg: Config, hourly: real, daily: real)
  {
    (HourGuard(cfg) ==> hourly < cfg.maxPerHour) && (DayGuard(cfg) ==> daily < cfg.maxPerDay)
  }

  /** Nothing is being checked, and nobody is admitted and unrecorded. */
  ghost predicate Quiet(s: State)
  {
    Outstanding(s) == {} && forall c :: c in s.callers ==> !s.callers[c].Checking?
  }

  /** What a part of a run leaves as it was. */
  predicate SameTracker(s: State, s': State) { s'.past == s.past && s'.books.cfg == s.books.cfg }

  function Admit(s: State, c: nat, maxCost: real): State
  {
    Next(Next(s, ReadHourly(c), maxCost), ReadDaily(c, false), maxCost)
  }

  lemma PurgedLevel(bs: seq<Bucket>, clock: int, cutoff: int, windowSize: int)
    requires clock - windowSize <= cutoff
    ensures Live(Fresh(bs, clock - windowSize), cutoff) == Live(bs, cutoff)
  {
    hide Live, Fresh;
    LiveOfFresh(bs, clock - windowSize, cutoff);
  }

  /** What both reads leave of the current tracker. */
  function Purged(s: State): Books
  {
    s.books.(hourly := Fresh(s.books.hourly, s.clock - HOUR), daily := Fresh(s.books.daily, s.clock - DAY))
  }

  function Admitting(s: State, c: nat): State
  {
    Peaked(s.(books := Purged(s), callers := s.callers[c := Admitted]))
  }

  lemma AdmitIs(s: State, c: nat, hourly: real, daily: real, since: int, pending: set<nat>, maxCost: real)
    requires Level(s, hourly, daily, since, pending) && c !in pending
    requires Room(s.books.cfg, hourly, daily)
    ensures Admit(s, c, maxCost) == Admitting(s, c)
  {
    hide Live, Fresh, Total, Allows, NonNegative, Peaked;
    assert PhaseOf(s, c) == Idle;
    PurgeKeepsSpend(s.books.hourly, s.clock, HOUR);
    PurgeKeepsSpend(s.books.daily, s.clock, DAY);
    AllowedIsBelow(s.books.cfg, hourly, daily);
    var s1 := Next(s, ReadHourly(c), maxCost);
    assert s1 == s.(books := s.books.(hourly := Purged(s).hourly), callers := s.callers[c := Checking(|s.past|, hourly)]);
    assert s1.callers[c := Admitted] == s.callers[c := Admitted];
  }

  lemma AdmittingLevel(s: State, c: nat, hourly: real, daily: real, since: int, pending: set<nat>)
    requires Level(s, hourly, daily, since, pending) && c !in pending
    ensures var s' := Admitting(s, c);
      && Level(s', hourly, daily, since, pending + {c}) && SameTracker(s, s')
      && s'.peak == Max(s.peak, |pending| + 1) && s'.clock == s.clock
  {
    hide Live, Fresh, NonNegative, Max;
    PurgeKeepsSpend(s.books.hourly, s.clock, HOUR);
    PurgeKeepsSpend(s.books.daily, s.clock, DAY);
    PurgedLevel(s.books.hourly, s.clock, s.clock, HOUR);
    forall cutoff | s.clock - DAY <= cutoff <= since ensures Live(Purged(s).daily, cutoff) == daily {
      PurgedLevel(s.books.daily, s.clock, cutoff, DAY);
    }
    var admitted := s.(books := Purged(s), callers := s.callers[c := Admitted]);
    NowAdmitted(s, admitted, c, pending);
    assert Outstanding(Peaked(admitted)) == Outstanding(admitted);
  }

  lemma NowAdmitted(s: State, s': State, c: nat, pending: set<nat>)
    requires Outstanding(s) == pending && c !in pending && s'.callers == s.callers[c := Admitted] && s'.past == s.past
    ensures Outstanding(s') == pending + {c} && |Outstanding(s')| == |pending| + 1
  {
  }

  lemma RecordsExactly(s: State, c: nat, cost: real, hourly: real, daily: real, since: int, pending: set<nat>, maxCost: real)
    requires Level(s, hourly, daily, since, pending) && c in pending && 0.0 < cost <= maxCost
    ensures var s' := Next(s, Record(c, cost), maxCost);
      && Level(s', hourly + cost, daily + cost, since, pending - {c}) && SameTracker(s, s')
      && s'.peak == s.peak && s'.clock == s.clock
  {
    hide Live, Added, NonNegative, Truncate;
    var s', b := Next(s, Record(c, cost), maxCost), s.books;
    assert PhaseOf(s, c) == Admitted && !ReadLocked(s);
    assert s'.books == Recorded(b, s.clock, cost);
    Truncated(s.clock);
    LiveRecorded(b.hourly, s.clock, cost, s.clock - HOUR, HOUR, MINUTE);
    LiveRecorded(b.hourly, s.clock, cost, s.clock, HOUR, MINUTE);
    forall cutoff | s.clock - DAY <= cutoff <= since ensures Live(s'.books.daily, cutoff) == daily + cost {
      LiveRecorded(b.daily, s.clock, cost, cutoff, DAY, HOUR);
    }
    SpendAfterRecord(b.hourly, s.clock, cost, HOUR, MINUTE);
    SpendAfterRecord(b.daily, s.clock, cost, DAY, HOUR);
    assert Outstanding(s') == pending - {c};
  }

  lemma Truncated(clock: int)
    ensures clock - HOUR < Truncate(clock, MINUTE) <= clock && clock - HOUR < Truncate(clock, HOUR) <= clock
  {
  }

  /** An hour without requests. */
  lemma HourPasses(s: State, hourly: real, daily: real, since: int, maxCost: real)
    requires Level(s, hourly, daily, since, {}) && s.clock + HOUR - DAY <= since
    ensures var s' := Next(s, Tick(HOUR), maxCost);
      Level(s', 0.0, daily, since, {}) && SameTracker(s, s') && s'.peak == s.peak && s'.clock == s.clock + HOUR
  {
    hide Live, NonNegative;
    var s' := Next(s, Tick(HOUR), maxCost);
    SpendFalls(s.books.hourly, s.clock, s'.clock);
    assert Outstanding(s') == Outstanding(s);
  }

  lemma TrackerReplaced(s: State, since: int, cfg: Config, maxCost: real)
    requires Quiet(s) && s.clock - DAY <= since <= s.clock - HOUR
    ensures var s' := Next(s, Reload(cfg), maxCost);
      && Quiet(s') && (cfg.enabled ==> Level(s', 0.0, 0.0, since, {}))
      && s'.past == s.past + [s.books] && s'.books == Books([], [], cfg)
      && s'.peak == s.peak && s'.clock == s.clock
  {
    var s' := Next(s, Reload(cfg), maxCost);
    assert Outstanding(s.(past := s.past + [s.books], books := Books([], [], cfg))) == {};
    assert Outstanding(s') == {};
  }

  lemma StartQuiet(clock: int, cfg: Config)
    ensures Quiet(Start(clock, cfg)) && (cfg.enabled ==> Level(Start(clock, cfg), 0.0, 0.0, clock - HOUR, {}))
  {
    assert Outstanding(Start(clock, cfg)) == {};
  }

  // ---- a burst: fill up, admit, record -----------------------------------------------------

  lemma TimesStep(n: nat, cost: real)
    ensures Times(n + 1, cost) == Times(n, cost) + cost
    ensures Times(0, cost) == 0.0
  {
  }

  /** One request after the other, each recording `cost`. */
  lemma {:induction false} Fill(s: State, n: nat, cost: real, daily: real, since: int, maxCost: real) returns (steps: seq<Step>)
    requires Level(s, 0.0, daily, since, {}) && 0.0 < cost <= maxCost
    requires Room(s.books.cfg, Times(n, cost), daily + Times(n, cost))
    ensures NoReload(steps)
    ensures var s' := ExecFrom(s, steps, maxCost);
      && Level(s', Times(n, cost), daily + Times(n, cost), since, {}) && SameTracker(s, s')
      && s'.peak <= Max(s.peak, 1) && s'.clock == s.clock
  {
    hide Next, Level, Times, Admitting;
    steps := [];
    if n == 0 {
      TimesStep(0, cost);
    } else {
      TimesStep(n - 1, cost);
      steps := Fill(s, n - 1, cost, daily, since, maxCost);
      var s1 := ExecFrom(s, steps, maxCost);
      var more := [ReadHourly(0), ReadDaily(0, false), Record(0, cost)];
      ExecThree(s1, more[0], more[1], more[2], maxCost);
      ExecConcat(s, steps, more, maxCost);
      steps := steps + more;
      var h, d := Times(n - 1, cost), daily + Times(n - 1, cost);
      AdmitIs(s1, 0, h, d, since, {}, maxCost);
      AdmittingLevel(s1, 0, h, d, since, {});
      RecordsExactly(Admit(s1, 0, maxCost), 0, cost, h, d, since, {} + {0}, maxCost);
      ghost var nobody: set<nat> := {};
      assert nobody + {0} - {0} == nobody;
    }
  }

  lemma ExecThree(s: State, x: Step, y: Step, z: Step, maxCost: real)
    ensures ExecFrom(s, [x, y, z], maxCost) == Next(Next(Next(s, x, maxCost), y, maxCost), z, maxCost)
  {
    hide Next;
    ExecTwo(s, x, y, maxCost);
    assert [x, y, z][..2] == [x, y];
  }

  lemma ExecTwo(s: State, x: Step, y: Step, maxCost: real)
    ensures ExecFrom(s, [x, y], maxCost) == Next(Next(s, x, maxCost), y, maxCost)
  {
    hide Next;
    ExecOne(s, x, maxCost);
    assert [x, y][..1] == [x];
  }

  function Callers(lo: nat, hi: nat): (r: set<nat>)
    requires lo <= hi
    ensures |r| == hi - lo && forall c :: c in r <==> lo <= c < hi
  {
    if lo == hi then {} else Callers(lo, hi - 1) + {hi - 1}
  }

  lemma {:induction false} AdmitAll(s: State, k: nat, hourly: real, daily: real, since: int, maxCost: real) returns (steps: seq<Step>)
    requires Level(s, hourly, daily, since, {})
    requires Room(s.books.cfg, hourly, daily)
    ensures NoReload(steps)
    ensures var s' := ExecFrom(s, steps, maxCost);
      && Level(s', hourly, daily, since, Callers(0, k)) && SameTracker(s, s')
      && s'.peak <= Max(s.peak, k) && s'.clock == s.clock
  {
    hide Next, Level, Callers, Admitting;
    steps := [];
    if k == 0 {
      assert Callers(0, 0) == {};
    } else {
      steps := AdmitAll(s, k - 1, hourly, daily, since, maxCost);
      var s1 := ExecFrom(s, steps, maxCost);
      ExecTwo(s1, ReadHourly(k - 1), ReadDaily(k - 1, false), maxCost);
      ExecConcat(s, steps, [ReadHourly(k - 1), ReadDaily(k - 1, false)], maxCost);
      steps := steps + [ReadHourly(k - 1), ReadDaily(k - 1, false)];
      AdmitIs(s1, k - 1, hourly, daily, since, Callers(0, k - 1), maxCost);
      AdmittingLevel(s1, k - 1, hourly, daily, since, Callers(0, k - 1));
      assert Callers(0, k) == Callers(0, k - 1) + {k - 1};
    }
  }

  lemma {:induction false} RecordAll(s: State, k: nat, n: nat, cost: real, hourly: real, daily: real, since: int, maxCost: real) returns (steps: seq<Step>)
    requires k <= n && Level(s, hourly, daily, since, Callers(0, n)) && 0.0 < cost <= maxCost
    ensures NoReload(steps)
    ensures var s' := ExecFrom(s, steps, maxCost);
      && Level(s', hourly + Times(k, cost), daily + Times(k, cost), since, Callers(k, n)) && SameTracker(s, s')
      && s'.peak == s.peak && s'.clock == s.clock
  {
    hide Next, Level, Times, Callers;
    steps := [];
    if k == 0 {
      TimesStep(0, cost);
    } else {
      steps := RecordAll(s, k - 1, n, cost, hourly, daily, since, maxCost);
      TimesStep(k - 1, cost);
      var s1 := ExecFrom(s, steps, maxCost);
      ExecOne(s1, Record(k - 1, cost), maxCost);
      ExecConcat(s, steps, [Record(k - 1, cost)], maxCost);
      steps := steps + [Record(k - 1, cost)];
      assert Callers(k, n) == Callers(k - 1, n) - {k - 1};
      RecordsExactly(s1, k - 1, cost, hourly + Times(k - 1, cost), daily + Times(k - 1, cost), since, Callers(k - 1, n), maxCost);
    }
  }

  /** A positive amount can be paid in parts of at most `maxCost`. */
  lemma InParts(amount: real, maxCost: real) returns (n: nat, cost: real)
    requires amount > 0.0 && maxCost > 0.0
    ensures 0.0 < cost <= maxCost && Times(n, cost) == amount
  {
    n := (amount / maxCost).Floor + 1;
    cost := amount / n as real;
    var q := amount / maxCost;
    assert q < n as real && q * maxCost == amount && q > 0.0;
    assert n as real * cost == amount;
    TimesIs(n, cost);
    if cost > maxCost {
      PartTooLarge(n as real, cost, maxCost, q);
    }
  }

  lemma PartTooLarge(n: real, cost: real, maxCost: real, q: real)
    requires 0.0 < q < n && cost > maxCost > 0.0
    ensures n * cost > q * maxCost
  {
    assert (n - q) * cost > 0.0;
    assert q * (cost - maxCost) > 0.0;
  }

  /** `low` is spent within the limits; then `k` requests are admitted together and each costs `cost`. */
  lemma Burst(s: State, low: real, k: nat, cost: real, daily: real, since: int, maxCost: real) returns (steps: seq<Step>)
    requires Level(s, 0.0, daily, since, {}) && s.peak <= k && k >= 1 && 0.0 < cost <= maxCost
    requires low > 0.0 && Room(s.books.cfg, low, daily + low)
    ensures NoReload(steps)
    ensures var s' := ExecFrom(s, steps, maxCost);
      && Level(s', low + Times(k, cost), daily + low + Times(k, cost), since, {}) && SameTracker(s, s')
      && s'.peak <= k && s'.clock == s.clock
  {
    hide ExecFrom, Level, Times;
    var n, part := InParts(low, maxCost);
    var fill := Fill(s, n, part, daily, since, maxCost);
    var s1 := ExecFrom(s, fill, maxCost);
    var admit := AdmitAll(s1, k, low, daily + low, since, maxCost);
    var s2 := ExecFrom(s1, admit, maxCost);
    var record := RecordAll(s2, k, k, cost, low, daily + low, since, maxCost);
    ExecConcat(s, fill, admit, maxCost);
    ExecConcat(s, fill + admit, record, maxCost);
    steps := fill + admit + record;
  }
}
