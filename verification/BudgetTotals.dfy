/** What all trackers together have recorded in the last hour and in the last day, and what that stays
    below. */
module BudgetTotals {
  import opened Wrappers
  import opened RollingWindow
  import opened WindowHistory
  import opened BudgetTracker
  import opened BudgetProtocol
  import opened BudgetExtent
  import opened BudgetOvershoot

  function ReloadsOf(steps: seq<Step>): seq<Config>
  {
    if steps == [] then [] else
      var last := steps[|steps| - 1];
      ReloadsOf(steps[..|steps| - 1]) + if last.Reload? then [last.cfg] else []
  }

  /** A run of the trackers with these settings, one after the other, and at most `k` requests
      outstanding at once. */
  ghost predicate RunOf(steps: seq<Step>, clock: int, cfgs: seq<Config>, k: nat, maxCost: real)
    requires cfgs != []
  {
    ReloadsOf(steps) == cfgs[1..] && Exec(steps, clock, cfgs[0], maxCost).peak <= k
  }

  /** Every tracker that records costs enforces some limit. */
  ghost predicate Limited(cfgs: seq<Config>) { forall cfg :: cfg in cfgs && cfg.enabled ==> Guarded(cfg) }

  ghost predicate Active(cfgs: seq<Config>) { exists cfg :: cfg in cfgs && cfg.enabled }

  lemma {:induction false} ReloadsConcat(a: seq<Step>, b: seq<Step>)
    ensures ReloadsOf(a + b) == ReloadsOf(a) + ReloadsOf(b)
  {
    if b == [] {
      assert a + b == a;
    } else {
      assert (a + b)[..|a + b| - 1] == a + b[..|b| - 1];
      ReloadsConcat(a, b[..|b| - 1]);
    }
  }

  lemma {:induction false} NoReloads(steps: seq<Step>)
    ensures NoReload(steps) <==> ReloadsOf(steps) == []
  {
    if steps != [] {
      var front, last := steps[..|steps| - 1], steps[|steps| - 1];
      assert steps == front + [last];
      NoReloads(front);
    }
  }

  lemma OneReload(cfg: Config)
    ensures ReloadsOf([Reload(cfg)]) == [cfg]
  {
    assert [Reload(cfg)][..0] == [];
  }

  function CfgsOf(bs: seq<Books>): (cfgs: seq<Config>)
    ensures |cfgs| == |bs| && forall i :: 0 <= i < |bs| ==> cfgs[i] == bs[i].cfg
  {
    seq(|bs|, i requires 0 <= i < |bs| => bs[i].cfg)
  }

  lemma {:induction false} BooksCfgs(steps: seq<Step>, clock: int, cfg: Config, maxCost: real)
    ensures CfgsOf(AllBooks(Exec(steps, clock, cfg, maxCost))) == [cfg] + ReloadsOf(steps)
  {
    hide Fresh, Added, Allows, Total, Outstanding;
    if steps != [] {
      BooksCfgs(steps[..|steps| - 1], clock, cfg, maxCost);
      var s, s' := Exec(steps[..|steps| - 1], clock, cfg, maxCost), Exec(steps, clock, cfg, maxCost);
      var last := steps[|steps| - 1];
      assert CfgsOf(AllBooks(s')) == CfgsOf(AllBooks(s)) + if last.Reload? then [last.cfg] else [];
    }
  }

  // ---- totals over all trackers ------------------------------------------------------------

  /** What has really been spent after `cutoff`, on whichever tracker. */
  function HourlyAfter(bs: seq<Books>, cutoff: int): real
  {
    if bs == [] then 0.0 else HourlyAfter(bs[..|bs| - 1], cutoff) + Live(bs[|bs| - 1].hourly, cutoff)
  }

  function DailyAfter(bs: seq<Books>, cutoff: int): real
  {
    if bs == [] then 0.0 else DailyAfter(bs[..|bs| - 1], cutoff) + Live(bs[|bs| - 1].daily, cutoff)
  }

  function HourlyTotal(bs: seq<Books>, now: int): real { HourlyAfter(bs, now - HOUR) }

  function DailyTotal(bs: seq<Books>, now: int): real { DailyAfter(bs, now - DAY) }

  ghost predicate HourlyStaysBelow(cfgs: seq<Config>, k: nat, maxCost: real, x: real)
    requires cfgs != []
  {
    forall steps, clock, now ::
      RunOf(steps, clock, cfgs, k, maxCost) && Exec(steps, clock, cfgs[0], maxCost).clock <= now ==>
        HourlyTotal(AllBooks(Exec(steps, clock, cfgs[0], maxCost)), now) < x
  }

  ghost predicate DailyStaysBelow(cfgs: seq<Config>, k: nat, maxCost: real, x: real)
    requires cfgs != []
  {
    forall steps, clock, now ::
      RunOf(steps, clock, cfgs, k, maxCost) && Exec(steps, clock, cfgs[0], maxCost).clock <= now ==>
        DailyTotal(AllBooks(Exec(steps, clock, cfgs[0], maxCost)), now) < x
  }

  /** How many hours of the day each tracker has costs in. Two trackers in a row may share an hour. */
  ghost predicate Allocation(hours: seq<nat>, n: nat)
  {
    |hours| == n && (forall i :: 0 <= i < n ==> hours[i] >= 1) && Later(hours) <= 23
  }

  /** The hours after the first of each tracker. */
  function Later(hours: seq<nat>): int
  {
    if hours == [] then 0 else Later(hours[..|hours| - 1]) + hours[|hours| - 1] - 1
  }

  function DailyReachOf(cfg: Config, hours: nat, k: nat, maxCost: real): real
  {
    if cfg.enabled then DailyReach(cfg, hours, k, maxCost) else 0.0
  }

  function DailyReachTotal(cfgs: seq<Config>, hours: seq<nat>, k: nat, maxCost: real): real
    requires |hours| == |cfgs|
  {
    if cfgs == [] then 0.0 else
      var n := |cfgs| - 1;
      DailyReachTotal(cfgs[..n], hours[..n], k, maxCost) + DailyReachOf(cfgs[n], hours[n], k, maxCost)
  }

  function HourlyReachTotal(cfgs: seq<Config>, k: nat, maxCost: real): real
  {
    if cfgs == [] then 0.0 else
      var n := |cfgs| - 1;
      HourlyReachTotal(cfgs[..n], k, maxCost) + if cfgs[n].enabled then HourlyReach(cfgs[n], k, maxCost) else 0.0
  }

  // ---- no run gets further -----------------------------------------------------------------

  lemma {:induction false} HourlyTotalsBelow(bs: seq<Books>, now: int, k: nat, maxCost: real)
    requires Limited(CfgsOf(bs)) && forall b :: b in bs ==> BelowReach(b, now, k, maxCost)
    ensures HourlyTotal(bs, now) <= HourlyReachTotal(CfgsOf(bs), k, maxCost)
    ensures Active(CfgsOf(bs)) ==> HourlyTotal(bs, now) < HourlyReachTotal(CfgsOf(bs), k, maxCost)
    ensures !Active(CfgsOf(bs)) ==> HourlyTotal(bs, now) == 0.0
  {
    hide HourlyReach, Guarded;
    if bs != [] {
      var front, b := bs[..|bs| - 1], bs[|bs| - 1];
      var cfgs := CfgsOf(bs);
      assert cfgs[..|bs| - 1] == CfgsOf(front) && b in bs && cfgs[|bs| - 1] == b.cfg && b.cfg in cfgs;
      assert forall cfg :: cfg in CfgsOf(front) ==> cfg in cfgs;
      assert forall cfg :: cfg in cfgs ==> cfg in CfgsOf(front) || cfg == b.cfg;
      HourlyTotalsBelow(front, now, k, maxCost);
      assert Live(b.hourly, now - HOUR) == HourlySpend(b, now);
    }
  }

  /** At least one hour for each tracker. */
  function HoursOf(bs: seq<Books>, now: int): (hours: seq<nat>)
    ensures |hours| == |bs| && forall i :: 0 <= i < |bs| ==> hours[i] == if Hours(bs[i], now) == [] then 1 else |Hours(bs[i], now)|
  {
    seq(|bs|, i requires 0 <= i < |bs| => if Hours(bs[i], now) == [] then 1 else |Hours(bs[i], now)|)
  }

  lemma {:induction false} DailyTotalsBelow(bs: seq<Books>, now: int, k: nat, maxCost: real)
    requires maxCost >= 0.0 && Limited(CfgsOf(bs)) && forall b :: b in bs ==> BelowReach(b, now, k, maxCost)
    ensures DailyTotal(bs, now) <= DailyReachTotal(CfgsOf(bs), HoursOf(bs, now), k, maxCost)
    ensures Active(CfgsOf(bs)) ==> DailyTotal(bs, now) < DailyReachTotal(CfgsOf(bs), HoursOf(bs, now), k, maxCost)
    ensures !Active(CfgsOf(bs)) ==> DailyTotal(bs, now) == 0.0
  {
    hide DailyReach, Guarded, Hours, BelowReach;
    if bs != [] {
      var n := |bs| - 1;
      var front, b := bs[..n], bs[n];
      var cfgs := CfgsOf(bs);
      assert cfgs[..n] == CfgsOf(front) && HoursOf(bs, now)[..n] == HoursOf(front, now);
      assert b in bs && cfgs[n] == b.cfg && b.cfg in cfgs;
      assert forall cfg :: cfg in CfgsOf(front) ==> cfg in cfgs;
      assert forall cfg :: cfg in cfgs ==> cfg in CfgsOf(front) || cfg == b.cfg;
      DailyTotalsBelow(front, now, k, maxCost);
      OneDayBelow(b, now, k, maxCost);
    }
  }

  lemma OneDayBelow(b: Books, now: int, k: nat, maxCost: real)
    requires maxCost >= 0.0 && BelowReach(b, now, k, maxCost)
    ensures b.cfg.enabled && Guarded(b.cfg) ==>
              Live(b.daily, now - DAY) < DailyReach(b.cfg, if Hours(b, now) == [] then 1 else |Hours(b, now)|, k, maxCost)
    ensures !b.cfg.enabled ==> Live(b.daily, now - DAY) == 0.0
  {
    hide Live, Hours, Times;
    TimesMonotone(0, k, maxCost);
    assert Live(b.daily, now - DAY) == DailySpend(b, now);
  }

  /** The hours of these buckets are whole, distinct and between `low` and `high`. */
  ghost predicate WithinHours(bs: seq<Bucket>, low: int, high: int)
  {
    && (forall i, j :: 0 <= i < j < |bs| ==> bs[i].timestamp != bs[j].timestamp)
    && forall b :: b in bs ==> Truncate(b.timestamp, HOUR) == b.timestamp && low <= b.timestamp <= high
  }

  lemma WholeHour(t: int)
    requires Truncate(t, HOUR) == t
    ensures t == (t / HOUR) * HOUR
  {
  }

  lemma DistinctHours(bs: seq<Bucket>, low: int, high: int)
    requires WithinHours(bs, low, high) && low <= high && Truncate(low, HOUR) == low && Truncate(high, HOUR) == high
    ensures (|bs| - 1) * HOUR <= high - low
  {
    hide Truncate;
    WholeHour(low);
    WholeHour(high);
    DivideMonotone(low, high, HOUR);
    var slots := Range(low / HOUR, high / HOUR + 1);
    forall i | 0 <= i < |bs|
      ensures bs[i].timestamp == (bs[i].timestamp / HOUR) * HOUR && bs[i].timestamp / HOUR in slots
    {
      assert bs[i] in bs;
      WholeHour(bs[i].timestamp);
      DivideMonotone(low, bs[i].timestamp, HOUR);
      DivideMonotone(bs[i].timestamp, high, HOUR);
    }
    DistinctMultiplesFit(bs, slots, HOUR);
  }

  lemma {:induction false} Earliest(bs: seq<Bucket>) returns (b: Bucket)
    requires bs != []
    ensures b in bs && forall x :: x in bs ==> b.timestamp <= x.timestamp
  {
    b := bs[|bs| - 1];
    if |bs| > 1 {
      var other := Earliest(bs[..|bs| - 1]);
      if other.timestamp < b.timestamp { b := other; }
    }
  }

  lemma {:induction false} BeforeLast(bs: seq<Books>, now: int, low: int, high: int, first: Bucket)
    requires bs != [] && InTurn(bs) && first in Hours(bs[|bs| - 1], now)
    requires forall b :: b in bs ==> WithinHours(Hours(b, now), low, high)
    ensures forall a :: a in bs[..|bs| - 1] ==> WithinHours(Hours(a, now), low, first.timestamp)
  {
    hide Truncate, Fresh;
    var n := |bs| - 1;
    FreshMembers(bs[n].daily, now - DAY);
    forall a | a in bs[..n] ensures WithinHours(Hours(a, now), low, first.timestamp) {
      assert a in bs;
      var i :| 0 <= i < n && bs[i] == a;
      FreshMembers(a.daily, now - DAY);
    }
  }

  lemma FromEarliest(bs: seq<Bucket>, low: int, high: int, first: Bucket)
    requires WithinHours(bs, low, high) && first in bs && forall x :: x in bs ==> first.timestamp <= x.timestamp
    ensures WithinHours(bs, first.timestamp, high)
    ensures low <= first.timestamp <= high && Truncate(first.timestamp, HOUR) == first.timestamp
  {
  }

  lemma FrontInTurn(bs: seq<Books>)
    requires bs != [] && InTurn(bs)
    ensures InTurn(bs[..|bs| - 1])
  {
  }

  lemma AddHours(a: int, b: int, low: int, mid: int, high: int)
    requires a * HOUR <= mid - low && b * HOUR <= high - mid
    ensures (a + b) * HOUR <= high - low
  {
  }

  lemma {:induction false} TurnsShareADay(bs: seq<Books>, now: int, low: int, high: int)
    requires InTurn(bs) && low <= high && Truncate(low, HOUR) == low && Truncate(high, HOUR) == high
    requires forall b :: b in bs ==> WithinHours(Hours(b, now), low, high)
    ensures Later(HoursOf(bs, now)) * HOUR <= high - low
  {
    hide Truncate, Fresh, Hours, WithinHours, InTurn;
    if bs != [] {
      var n := |bs| - 1;
      var front, b := bs[..n], bs[n];
      assert HoursOf(bs, now)[..n] == HoursOf(front, now) && b in bs;
      FrontInTurn(bs);
      if Hours(b, now) == [] {
        TurnsShareADay(front, now, low, high);
      } else {
        var first := Earliest(Hours(b, now));
        FromEarliest(Hours(b, now), low, high, first);
        BeforeLast(bs, now, low, high, first);
        TurnsShareADay(front, now, low, first.timestamp);
        DistinctHours(Hours(b, now), first.timestamp, high);
        AddHours(Later(HoursOf(front, now)), |Hours(b, now)| - 1, low, first.timestamp, high);
      }
    }
  }

  lemma HoursAllocated(steps: seq<Step>, clock: int, now: int, cfg: Config, maxCost: real)
    requires maxCost >= 0.0 && Exec(steps, clock, cfg, maxCost).clock <= now
    ensures var bs := AllBooks(Exec(steps, clock, cfg, maxCost)); Allocation(HoursOf(bs, now), |bs|)
  {
    hide Exec, Tidy, Fresh, Truncate;
    var s := Exec(steps, clock, cfg, maxCost);
    var bs := AllBooks(s);
    ExecTidy(steps, clock, cfg, maxCost);
    ExecInTurn(steps, clock, cfg, maxCost);
    var high := Truncate(now, HOUR);
    DayOfWholeHours(now);
    forall b | b in bs ensures WithinHours(Hours(b, now), high - 23 * HOUR, high) {
      TidyParts(b, s.clock, Most(b, s.peak, maxCost));
      StampedFresh(b.daily, s.clock, now);
      FreshMembers(b.daily, now - DAY);
      forall x | x in Hours(b, now) ensures high - 23 * HOUR <= x.timestamp <= high {
        WholeHourWithinDay(x.timestamp, now);
      }
    }
    TurnsShareADay(bs, now, high - 23 * HOUR, high);
  }

  lemma DayOfWholeHours(now: int)
    ensures Truncate(Truncate(now, HOUR), HOUR) == Truncate(now, HOUR)
    ensures Truncate(Truncate(now, HOUR) - 23 * HOUR, HOUR) == Truncate(now, HOUR) - 23 * HOUR
  {
  }

  lemma WholeHourWithinDay(t: int, now: int)
    requires Truncate(t, HOUR) == t && now - DAY < t <= now
    ensures Truncate(now, HOUR) - 23 * HOUR <= t <= Truncate(now, HOUR)
  {
  }

  lemma RunBelow(steps: seq<Step>, clock: int, now: int, cfgs: seq<Config>, k: nat, maxCost: real)
    requires cfgs != [] && Limited(cfgs) && maxCost > 0.0
    requires RunOf(steps, clock, cfgs, k, maxCost) && Exec(steps, clock, cfgs[0], maxCost).clock <= now
    ensures var bs := AllBooks(Exec(steps, clock, cfgs[0], maxCost));
      && CfgsOf(bs) == cfgs && Allocation(HoursOf(bs, now), |cfgs|)
      && (Active(cfgs) ==> HourlyTotal(bs, now) < HourlyReachTotal(cfgs, k, maxCost))
      && (Active(cfgs) ==> DailyTotal(bs, now) < DailyReachTotal(cfgs, HoursOf(bs, now), k, maxCost))
      && (!Active(cfgs) ==> HourlyTotal(bs, now) == DailyTotal(bs, now) == 0.0)
  {
    hide Exec, BelowReach, Guarded, Allocation, HourlyTotal, DailyTotal;
    var bs := AllBooks(Exec(steps, clock, cfgs[0], maxCost));
    assert [cfgs[0]] + cfgs[1..] == cfgs;
    BooksCfgs(steps, clock, cfgs[0], maxCost);
    SpendBelowReach(steps, clock, now, k, cfgs[0], maxCost);
    HoursAllocated(steps, clock, now, cfgs[0], maxCost);
    HourlyTotalsBelow(bs, now, k, maxCost);
    DailyTotalsBelow(bs, now, k, maxCost);
  }
}
