/** The budget tracker (`internal/budget/tracker.go`): the admission decision and the tracker that
    feeds it from an hourly and a daily rolling window. */
module BudgetTracker {
  import opened RollingWindow
  import opened WindowHistory

  const MINUTE: int := 60 * 1_000_000_000
  const HOUR: int := 60 * MINUTE
  const DAY: int := 24 * HOUR

  datatype Action = Reject | AllowWithWarning | Unrecognised

  datatype Config = Config(enabled: bool, maxPerHour: real, maxPerDay: real,
                           alertThreshold: real, actionOnExceeded: Action)

  datatype Notice = NoNotice | HourlyExceeded | DailyExceeded | HourlyWarning | DailyWarning | ActionNotConfigured

  datatype CheckResult = CheckResult(allowed: bool, warning: bool, notice: Notice,
                                     remainingHour: real, remainingDay: real, alert: bool)

  predicate Exceeds(spent: real, estimate: real, limit: real)
  {
    spent + estimate >= limit && limit > 0.0
  }

  function Share(spent: real, limit: real): real
  {
    if limit > 0.0 then spent / limit else 0.0
  }

  /** The decision of an enabled tracker that has read the two windowed totals. */
  function Decide(cfg: Config, estimate: real, hourly: real, daily: real): (r: CheckResult)
    ensures !r.allowed <==> cfg.actionOnExceeded == Reject
                            && ((cfg.maxPerHour > 0.0 && hourly + estimate >= cfg.maxPerHour)
                                || (cfg.maxPerDay > 0.0 && daily + estimate >= cfg.maxPerDay))
    ensures r.warning <==> r.allowed && (Exceeds(hourly, estimate, cfg.maxPerHour) || Exceeds(daily, estimate, cfg.maxPerDay))
    ensures r.notice == NoNotice <==> r.allowed && !r.warning
    ensures r.notice == HourlyExceeded <==> !r.allowed && Exceeds(hourly, estimate, cfg.maxPerHour)
    ensures r.notice == DailyExceeded <==> !r.allowed && !Exceeds(hourly, estimate, cfg.maxPerHour)
    ensures r.notice == HourlyWarning <==>
            r.warning && cfg.actionOnExceeded == AllowWithWarning && Exceeds(hourly, estimate, cfg.maxPerHour)
    ensures r.notice == DailyWarning <==>
            r.warning && cfg.actionOnExceeded == AllowWithWarning && !Exceeds(hourly, estimate, cfg.maxPerHour)
    ensures r.notice == ActionNotConfigured <==> r.warning && cfg.actionOnExceeded == Unrecognised
    ensures r.remainingHour + hourly == cfg.maxPerHour && r.remainingDay + daily == cfg.maxPerDay
  {
    var overHour := Exceeds(hourly, estimate, cfg.maxPerHour);
    var overDay := Exceeds(daily, estimate, cfg.maxPerDay);
    var alert := Share(hourly, cfg.maxPerHour) >= cfg.alertThreshold
              || Share(daily, cfg.maxPerDay) >= cfg.alertThreshold;
    var result := CheckResult(true, false, NoNotice, cfg.maxPerHour - hourly, cfg.maxPerDay - daily, alert);
    if overHour || overDay then
      match cfg.actionOnExceeded
      case Reject => result.(allowed := false, notice := if overHour then HourlyExceeded else DailyExceeded)
      case AllowWithWarning => result.(warning := true, notice := if overHour then HourlyWarning else DailyWarning)
      case Unrecognised => result.(warning := true, notice := ActionNotConfigured)
    else result
  }

  /** The alert means that the threshold's share of a positive limit has been spent. */
  lemma AlertIff(cfg: Config, estimate: real, hourly: real, daily: real)
    requires cfg.alertThreshold > 0.0
    ensures Decide(cfg, estimate, hourly, daily).alert <==>
            || (cfg.maxPerHour > 0.0 && hourly >= cfg.alertThreshold * cfg.maxPerHour)
            || (cfg.maxPerDay > 0.0 && daily >= cfg.alertThreshold * cfg.maxPerDay)
  {
    hide Exceeds;
    ShareIff(hourly, cfg.maxPerHour, cfg.alertThreshold);
    ShareIff(daily, cfg.maxPerDay, cfg.alertThreshold);
  }

  lemma ShareIff(spent: real, limit: real, share: real)
    requires share > 0.0
    ensures Share(spent, limit) >= share <==> limit > 0.0 && spent >= share * limit
  {
    if limit > 0.0 {
      var x := Share(spent, limit);
      assert x * limit == spent;
      if x >= share {
        assert (x - share) * limit >= 0.0;
      } else {
        assert (share - x) * limit > 0.0;
      }
    }
  }

  class Tracker {
    const cfg: Config
    var hourly: Window
    var daily: Window

    ghost predicate Valid()
      reads this, hourly, daily
    {
      && hourly != daily && hourly.buckets != daily.buckets
      && hourly.Valid() && hourly.windowSize == HOUR && hourly.bucketSize == MINUTE
      && daily.Valid() && daily.windowSize == DAY && daily.bucketSize == HOUR
    }

    constructor (cfg: Config)
      ensures Valid() && fresh(hourly) && fresh(daily) && fresh(hourly.buckets) && fresh(daily.buckets)
      ensures this.cfg == cfg && hourly.Contents() == [] && daily.Contents() == []
    {
      this.cfg := cfg;
      hourly := new Window(HOUR, MINUTE);
      daily := new Window(DAY, HOUR);
    }

    /** The two totals are read one after the other, at `hourlyNow` and `dailyNow`. */
    method Check(estimate: real, hourlyNow: int, dailyNow: int) returns (r: CheckResult)
      requires Valid()
      modifies hourly`len, hourly.buckets, daily`len, daily.buckets
      ensures Valid()
      ensures !cfg.enabled ==> r == CheckResult(true, false, NoNotice, 0.0, 0.0, false)
      ensures !cfg.enabled ==> hourly.Contents() == old(hourly.Contents()) && daily.Contents() == old(daily.Contents())
      ensures cfg.enabled ==> hourly.Contents() == Fresh(old(hourly.Contents()), hourlyNow - HOUR)
      ensures cfg.enabled ==> daily.Contents() == Fresh(old(daily.Contents()), dailyNow - DAY)
      ensures cfg.enabled ==> r == Decide(cfg, estimate, Total(hourly.Contents()), Total(daily.Contents()))
    {
      if !cfg.enabled {
        return CheckResult(true, false, NoNotice, 0.0, 0.0, false);
      }
      var hourlySpent := hourly.Sum(hourlyNow);
      var dailySpent := daily.Sum(dailyNow);
      r := Decide(cfg, estimate, hourlySpent, dailySpent);
    }

    method Record(cost: real, now: int)
      requires Valid()
      modifies hourly, hourly.buckets, daily, daily.buckets
      ensures Valid() && hourly == old(hourly) && daily == old(daily)
      ensures !cfg.enabled ==> hourly.Contents() == old(hourly.Contents()) && daily.Contents() == old(daily.Contents())
      ensures cfg.enabled ==> hourly.Contents() == Added(old(hourly.Contents()), now, cost, HOUR, MINUTE)
      ensures cfg.enabled ==> daily.Contents() == Added(old(daily.Contents()), now, cost, DAY, HOUR)
    {
      if cfg.enabled {
        hourly.Add(now, cost);
        daily.Add(now, cost);
      }
    }

    method Reset()
      requires Valid()
      modifies this
      ensures Valid() && fresh(hourly) && fresh(daily)
      ensures hourly.Contents() == [] && daily.Contents() == []
    {
      hourly := new Window(HOUR, MINUTE);
      daily := new Window(DAY, HOUR);
    }
  }

  /** The hourly total a tracker reports never exceeds the daily total it reports at the same time. */
  lemma HourlyNeverExceedsDaily(ops: seq<Op>, now: int)
    requires SaneLog(ops, now)
    ensures Total(Fresh(Run(ops, HOUR, MINUTE), now - HOUR)) <= Total(Fresh(Run(ops, DAY, HOUR), now - DAY))
  {
    NestedSums(ops, now, HOUR, MINUTE, DAY, HOUR);
  }

  /** Neither window of a tracker ever outgrows its preallocated array on a clock that never goes back. */
  lemma TrackerWindowsFit(ops: seq<Op>)
    requires InOrder(ops)
    ensures |Run(ops, HOUR, MINUTE)| <= 60 && |Run(ops, DAY, HOUR)| <= 24
  {
    assert HOUR % MINUTE == 0 && NumBuckets(HOUR, MINUTE) == 60;
    CapacitySufficesIffDivides(HOUR, MINUTE);
    assert DAY % HOUR == 0 && NumBuckets(DAY, HOUR) == 24;
    CapacitySufficesIffDivides(DAY, HOUR);
  }
}
