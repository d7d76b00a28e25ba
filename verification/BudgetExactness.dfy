/** The exact overshoot: what the windowed spend can come to, over all interleavings, clocks and reloads. */
module BudgetExactness {
  import opened Wrappers
  import opened RollingWindow
  import opened WindowHistory
  import opened BudgetTracker
  import opened BudgetProtocol
  import opened BudgetExtent
  import opened BudgetOvershoot
  import opened BudgetTotals

  // ---- one tracker -------------------------------------------------------------------------

  /** For `hours` hours in a row: `low` is spent within the limits, then `k` requests are admitted together.
      They cost `cost` each, and the most they can in the last hour. A tracker with no `low` is left alone. */
  datatype Plan = Plan(hours: nat, low: real, cost: real)

  predicate Idle(plan: Plan) { plan.low <= 0.0 }

  function Burst(plan: Plan, k: nat): real { plan.low + Times(k, plan.cost) }

  /** What is reported when the last burst begins. */
  function Before(plan: Plan, k: nat): real
    requires plan.hours >= 1
  {
    Times(plan.hours - 1, Burst(plan, k)) + plan.low
  }

  predicate Feasible(cfg: Config, plan: Plan, k: nat, maxCost: real)
  {
    Idle(plan) || (cfg.enabled && plan.hours >= 1 && 0.0 < plan.cost <= maxCost && Room(cfg, plan.low, Before(plan, k)))
  }

  function Amount(plan: Plan, k: nat, maxCost: real): real
  {
    if Idle(plan) || plan.hours == 0 then 0.0 else Before(plan, k) + Times(k, maxCost)
  }

  function LaterHours(plan: Plan): nat { if Idle(plan) || plan.hours == 0 then 0 else plan.hours - 1 }

  /** One burst an hour, for `i` hours. */
  lemma {:induction false} HourlyBursts(s: State, i: nat, plan: Plan, k: nat, since: int, maxCost: real) returns (steps: seq<Step>)
    requires Level(s, 0.0, 0.0, since, {}) && s.peak <= k && k >= 1 && 0.0 < plan.cost <= maxCost && plan.low > 0.0
    requires Room(s.books.cfg, plan.low, Times(i, Burst(plan, k)) + plan.low) && s.clock + i * HOUR - DAY <= since
    ensures NoReload(steps)
    ensures var s' := ExecFrom(s, steps, maxCost);
      && Level(s', 0.0, Times(i, Burst(plan, k)), since, {}) && SameTracker(s, s')
      && s'.peak <= k && s'.clock == s.clock + i * HOUR
  {
    hide Next, ExecFrom, Level, Times;
    steps := [];
    var hour := Burst(plan, k);
    if i == 0 {
      TimesStep(0, hour);
      NothingExecuted(s, maxCost);
    } else {
      TimesStep(i - 1, hour);
      TimesMonotone(0, k, plan.cost);
      TimesStep(0, plan.cost);
      steps := HourlyBursts(s, i - 1, plan, k, since, maxCost);
      var s1 := ExecFrom(s, steps, maxCost);
      var burst := BudgetOvershoot.Burst(s1, plan.low, k, plan.cost, Times(i - 1, hour), since, maxCost);
      var s2 := ExecFrom(s1, burst, maxCost);
      ExecConcat(s, steps, burst, maxCost);
      ExecConcat(s, steps + burst, [Tick(HOUR)], maxCost);
      ExecOne(s2, Tick(HOUR), maxCost);
      HourPasses(s2, hour, Times(i - 1, hour) + hour, since, maxCost);
      steps := steps + burst + [Tick(HOUR)];
    }
  }

  lemma NothingExecuted(s: State, maxCost: real)
    ensures ExecFrom(s, [], maxCost) == s
  {
  }

  /** What the current tracker will be seen to have recorded, until a day after `since`. */
  ghost predicate Banked(s: State, since: int, amount: real)
  {
    forall cutoff :: s.clock - DAY <= cutoff <= since ==> Live(s.books.daily, cutoff) == amount
  }

  lemma LevelBanks(s: State, hourly: real, daily: real, since: int)
    requires Level(s, hourly, daily, since, {})
    ensures Quiet(s) && Banked(s, since, daily) && HourlySpend(s.books, s.clock) == hourly
  {
  }

  lemma {:induction false} TrackerRun(s: State, plan: Plan, k: nat, since: int, maxCost: real) returns (steps: seq<Step>)
    requires Quiet(s) && s.books.hourly == [] && s.books.daily == [] && s.peak <= k && k >= 1 && maxCost > 0.0
    requires s.books.cfg.enabled ==> Level(s, 0.0, 0.0, since, {})
    requires Feasible(s.books.cfg, plan, k, maxCost) && s.clock + LaterHours(plan) * HOUR - DAY <= since
    ensures ReloadsOf(steps) == []
    ensures var s' := ExecFrom(s, steps, maxCost);
      && Quiet(s') && Banked(s', since, Amount(plan, k, maxCost)) && SameTracker(s, s')
      && s'.peak <= k && s'.clock == s.clock + LaterHours(plan) * HOUR
      && (LaterHours(plan) == 0 ==> HourlySpend(s'.books, s'.clock) == Amount(plan, k, maxCost))
  {
    hide Next, ExecFrom, Level, Times, Quiet;
    if Idle(plan) {
      steps := [];
      NothingExecuted(s, maxCost);
      NoReloads([]);
    } else {
      var n := plan.hours - 1;
      TimesStep(0, Burst(plan, k));
      var bursts := HourlyBursts(s, n, plan, k, since, maxCost);
      var s1 := ExecFrom(s, bursts, maxCost);
      var last := BudgetOvershoot.Burst(s1, plan.low, k, maxCost, Times(n, Burst(plan, k)), since, maxCost);
      ExecConcat(s, bursts, last, maxCost);
      steps := bursts + last;
      NoReloads(bursts);
      NoReloads(last);
      ReloadsConcat(bursts, last);
      LevelBanks(ExecFrom(s, steps, maxCost), plan.low + Times(k, maxCost), Before(plan, k) + Times(k, maxCost), since);
    }
  }

  // ---- all trackers ------------------------------------------------------------------------

  ghost predicate AllFeasible(cfgs: seq<Config>, plans: seq<Plan>, k: nat, maxCost: real)
  {
    |plans| == |cfgs| && forall i :: 0 <= i < |cfgs| ==> Feasible(cfgs[i], plans[i], k, maxCost)
  }

  function TotalHours(plans: seq<Plan>): nat
  {
    if plans == [] then 0 else TotalHours(plans[..|plans| - 1]) + LaterHours(plans[|plans| - 1])
  }

  function TotalAmount(plans: seq<Plan>, k: nat, maxCost: real): real
  {
    if plans == [] then 0.0 else TotalAmount(plans[..|plans| - 1], k, maxCost) + Amount(plans[|plans| - 1], k, maxCost)
  }

  /** The same for all trackers together. */
  ghost predicate AllBanked(s: State, since: int, amount: real)
  {
    forall cutoff :: s.clock - DAY <= cutoff <= since ==> DailyAfter(AllBooks(s), cutoff) == amount
  }

  lemma AfterSnoc(bs: seq<Books>, b: Books, cutoff: int)
    ensures DailyAfter(bs + [b], cutoff) == DailyAfter(bs, cutoff) + Live(b.daily, cutoff)
    ensures HourlyAfter(bs + [b], cutoff) == HourlyAfter(bs, cutoff) + Live(b.hourly, cutoff)
  {
    assert (bs + [b])[..|bs|] == bs;
  }

  /** The current tracker's turn, after all others. */
  lemma {:induction false} OneMoreTracker(s: State, plan: Plan, k: nat, since: int, before: real, maxCost: real) returns (steps: seq<Step>)
    requires Quiet(s) && s.books.hourly == [] && s.books.daily == [] && s.peak <= k && k >= 1 && maxCost > 0.0
    requires s.books.cfg.enabled ==> Level(s, 0.0, 0.0, since, {})
    requires Feasible(s.books.cfg, plan, k, maxCost) && s.clock + LaterHours(plan) * HOUR - DAY <= since
    requires forall cutoff :: s.clock - DAY <= cutoff <= since ==> DailyAfter(s.past, cutoff) == before
    ensures ReloadsOf(steps) == []
    ensures var s' := ExecFrom(s, steps, maxCost);
      && Quiet(s') && AllBanked(s', since, before + Amount(plan, k, maxCost)) && SameTracker(s, s')
      && s'.peak <= k && s'.clock == s.clock + LaterHours(plan) * HOUR
      && (LaterHours(plan) == 0 ==>
            HourlyTotal(AllBooks(s'), s'.clock) == HourlyAfter(s.past, s.clock - HOUR) + Amount(plan, k, maxCost))
  {
    hide Next, ExecFrom, Level, Times, Quiet, DailyAfter, HourlyAfter, Live, Feasible, Amount;
    steps := TrackerRun(s, plan, k, since, maxCost);
    var s' := ExecFrom(s, steps, maxCost);
    AfterSnoc(s'.past, s'.books, s'.clock - HOUR);
    forall cutoff | s'.clock - DAY <= cutoff <= since ensures DailyAfter(AllBooks(s'), cutoff) == before + Amount(plan, k, maxCost) {
      AfterSnoc(s'.past, s'.books, cutoff);
      assert Live(s'.books.daily, cutoff) == Amount(plan, k, maxCost);
      assert DailyAfter(s.past, cutoff) == before;
    }
  }

  /** Each tracker in turn carries out its plan; the next one takes over in the same hour. */
  lemma {:induction false} AllRun(clock: int, cfgs: seq<Config>, plans: seq<Plan>, k: nat, maxCost: real) returns (steps: seq<Step>)
    requires cfgs != [] && AllFeasible(cfgs, plans, k, maxCost) && maxCost > 0.0 && k >= 1 && TotalHours(plans) <= 23
    ensures RunOf(steps, clock, cfgs, k, maxCost)
    ensures var s := Exec(steps, clock, cfgs[0], maxCost);
      && Quiet(s) && s.clock == clock + TotalHours(plans) * HOUR
      && AllBanked(s, clock - HOUR, TotalAmount(plans, k, maxCost))
      && (TotalHours(plans) == 0 ==> HourlyTotal(AllBooks(s), s.clock) == TotalAmount(plans, k, maxCost))
    decreases |cfgs|
  {
    hide Next, ExecFrom, Level, Times, Quiet, DailyAfter, HourlyAfter, Feasible, Amount, LaterHours, AllBanked;
    var n, since := |cfgs| - 1, clock - HOUR;
    var front, last := cfgs[..n], cfgs[n];
    assert cfgs == front + [last] && plans == plans[..n] + [plans[n]];
    if front == [] {
      var s := Start(clock, last);
      StartQuiet(clock, last);
      assert plans[..n] == [];
      NothingBefore();
      steps := OneMoreTracker(s, plans[n], k, since, 0.0, maxCost);
    } else {
      var before := AllRun(clock, front, plans[..n], k, maxCost);
      steps := NextTracker(before, clock, cfgs[0], last, plans[n], k, since, TotalAmount(plans[..n], k, maxCost), maxCost);
      assert cfgs[1..] == front[1..] + [last];
    }
  }

  lemma NothingBefore()
    ensures forall cutoff :: DailyAfter([], cutoff) == 0.0 && HourlyAfter([], cutoff) == 0.0
  {
  }

  lemma {:induction false} NextTracker(before: seq<Step>, clock: int, first: Config, last: Config, plan: Plan, k: nat, since: int, amount: real, maxCost: real)
    returns (steps: seq<Step>)
    requires Feasible(last, plan, k, maxCost) && maxCost > 0.0 && k >= 1
    requires var s := Exec(before, clock, first, maxCost);
      && Quiet(s) && s.peak <= k && AllBanked(s, since, amount)
      && s.clock - DAY <= since <= s.clock - HOUR && s.clock + LaterHours(plan) * HOUR - DAY <= since
    ensures ReloadsOf(steps) == ReloadsOf(before) + [last]
    ensures var s, s' := Exec(before, clock, first, maxCost), Exec(steps, clock, first, maxCost);
      && Quiet(s') && AllBanked(s', since, amount + Amount(plan, k, maxCost))
      && s'.peak <= k && s'.clock == s.clock + LaterHours(plan) * HOUR
      && (LaterHours(plan) == 0 ==>
            HourlyTotal(AllBooks(s'), s'.clock) == HourlyTotal(AllBooks(s), s.clock) + Amount(plan, k, maxCost))
  {
    hide Next, ExecFrom, Level, Times, Quiet, DailyAfter, HourlyAfter, Feasible, Amount, LaterHours;
    var s := Exec(before, clock, first, maxCost);
    TrackerReplaced(s, since, last, maxCost);
    var s1 := Next(s, Reload(last), maxCost);
    assert s1.past == AllBooks(s);
    forall cutoff | s1.clock - DAY <= cutoff <= since ensures DailyAfter(s1.past, cutoff) == amount {
      assert DailyAfter(AllBooks(s), cutoff) == amount;
    }
    var run := OneMoreTracker(s1, plan, k, since, amount, maxCost);
    ExecOne(s, Reload(last), maxCost);
    ExecConcat(Start(clock, first), before, [Reload(last)], maxCost);
    ExecConcat(Start(clock, first), before + [Reload(last)], run, maxCost);
    OneReload(last);
    ReloadsConcat(before, [Reload(last)]);
    ReloadsConcat(before + [Reload(last)], run);
    steps := before + [Reload(last)] + run;
    assert ReloadsOf(before) + [last] + [] == ReloadsOf(before) + [last];
  }

  // ---- plans that come as close as one likes -----------------------------------------------

  /** What can be admitted over so many hours before the last overshoot. */
  function Top(cfg: Config, hours: nat, k: nat, maxCost: real): real
  {
    DailyReach(cfg, hours, k, maxCost) - Times(k, maxCost)
  }

  lemma PartOf(limit: real, share: real, whole: real) returns (part: real)
    requires limit > 0.0 && 0.0 < share < whole
    ensures part == limit * share && 0.0 < part < limit * whole
  {
    part := limit * share;
  }

  lemma ShareOf(limit: real, share: real) returns (part: real)
    requires limit > 0.0 && 0.0 < share < 1.0
    ensures part == limit * share && 0.0 < part < limit
  {
    part := PartOf(limit, share, 1.0);
  }

  lemma Ratio(part: real, whole: real) returns (share: real)
    requires 0.0 < part < whole
    ensures 0.0 < share < 1.0 && share * whole == part
  {
    share := part / whole;
    assert share * whole == part;
    Cancel(share, 1.0, whole);
    Cancel(0.0, share, whole);
  }

  lemma Cancel(a: real, b: real, x: real)
    requires x > 0.0 && a * x < b * x
    ensures a < b
  {
  }

  /** Shares of an hour's limit and of the reserve that make `total` in `m` fills and `m - 1` reserves. */
  lemma Share(m: nat, hour: real, reserve: real, total: real) returns (share: real)
    requires m >= 1 && hour > 0.0 && reserve >= 0.0 && 0.0 < total < Filled(m, hour, reserve)
    ensures 0.0 < share < 1.0
    ensures m as real * (hour * share) + (m - 1) as real * (reserve * share) == total
  {
    share := Ratio(total, Filled(m, hour, reserve));
    Distribute(m as real, hour, (m - 1) as real, reserve, share);
  }

  lemma Distribute(a: real, b: real, c: real, d: real, share: real)
    ensures a * (b * share) + c * (d * share) == share * (a * b + c * d)
  {
  }

  lemma Smaller(a: real, b: real, x: real)
    requires a <= b && x > 0.0
    ensures a * x <= b * x
  {
  }

  /** The limit on the fills of an hour; without an hourly limit the daily one will do. */
  function HourOf(cfg: Config): real { if HourGuard(cfg) then cfg.maxPerHour else cfg.maxPerDay }

  /** So many fills, and a reserve between each two. */
  function Filled(m: nat, hour: real, reserve: real): real
    requires m >= 1
  {
    m as real * hour + (m - 1) as real * reserve
  }

  lemma TopBelow(cfg: Config, m: nat, k: nat, maxCost: real)
    requires Guarded(cfg) && m >= 1 && maxCost > 0.0
    ensures 0.0 < Top(cfg, m, k, maxCost) <= Filled(m, HourOf(cfg), Times(k, maxCost))
    ensures DayGuard(cfg) ==> Top(cfg, m, k, maxCost) <= cfg.maxPerDay
  {
    hide Times, Filled, ByHours;
    TimesMonotone(0, k, maxCost);
    FilledIsByHours(m, HourOf(cfg), Times(k, maxCost));
  }

  lemma FilledIsByHours(m: nat, hour: real, reserve: real)
    requires m >= 1 && hour > 0.0 && reserve >= 0.0
    ensures ByHours(m, hour, reserve) - reserve == Filled(m, hour, reserve) >= hour
  {
    AtLeastOnce(m as real, hour);
    AtLeastNothing((m - 1) as real, reserve);
  }

  lemma AtLeastOnce(m: real, x: real)
    requires m >= 1.0 && x > 0.0
    ensures m * x >= x
  {
  }

  lemma AtLeastNothing(m: real, x: real)
    requires m >= 0.0 && x >= 0.0
    ensures m * x >= 0.0
  {
  }

  lemma PlanFor(cfg: Config, m: nat, k: nat, maxCost: real, share: real) returns (plan: Plan)
    requires Guarded(cfg) && m >= 1 && maxCost > 0.0 && 0.0 < share < 1.0
    ensures Feasible(cfg, plan, k, maxCost) && !Idle(plan) && plan.hours == m
    ensures Amount(plan, k, maxCost) == Top(cfg, m, k, maxCost) * share + Times(k, maxCost)
  {
    hide Times, DailyReach;
    TimesMonotone(0, k, maxCost);
    TopBelow(cfg, m, k, maxCost);
    var total := ShareOf(Top(cfg, m, k, maxCost), share);
    hide Top;
    var part := Share(m, HourOf(cfg), Times(k, maxCost), total);
    var low := ShareOf(HourOf(cfg), part);
    var cost := ShareOf(maxCost, part);
    plan := Plan(m, low, cost);
    TimesIs(k, cost);
    TimesIs(k, maxCost);
    assert Times(k, cost) == Times(k, maxCost) * part;
    TimesIs(m - 1, Burst(plan, k));
    InFills((m - 1) as real, low, Times(k, cost));
    assert Before(plan, k) == total;
  }

  lemma InFills(n: real, low: real, reserve: real)
    ensures n * (low + reserve) + low == (n + 1.0) * low + n * reserve
  {
  }

  /** All the tops together. */
  function TopTotal(cfgs: seq<Config>, hours: seq<nat>, k: nat, maxCost: real): real
    requires |hours| == |cfgs|
  {
    if cfgs == [] then 0.0 else
      var n := |cfgs| - 1;
      TopTotal(cfgs[..n], hours[..n], k, maxCost) + if cfgs[n].enabled then Top(cfgs[n], hours[n], k, maxCost) else 0.0
  }

  function Unused(cfgs: seq<Config>, hours: seq<nat>, k: nat, maxCost: real, share: real): real
    requires |hours| == |cfgs|
  {
    TopTotal(cfgs, hours, k, maxCost) * (1.0 - share)
  }

  lemma UnusedStep(cfgs: seq<Config>, hours: seq<nat>, k: nat, maxCost: real, share: real)
    requires |hours| == |cfgs| > 0
    ensures var n := |cfgs| - 1;
      var top := if cfgs[n].enabled then Top(cfgs[n], hours[n], k, maxCost) else 0.0;
      Unused(cfgs, hours, k, maxCost, share) == Unused(cfgs[..n], hours[..n], k, maxCost, share) + top - top * share
  {
    hide Top;
  }

  lemma {:induction false} PlansFor(cfgs: seq<Config>, hours: seq<nat>, k: nat, maxCost: real, share: real) returns (plans: seq<Plan>)
    requires Limited(cfgs) && |hours| == |cfgs| && (forall i :: 0 <= i < |cfgs| ==> hours[i] >= 1)
    requires maxCost > 0.0 && 0.0 < share < 1.0
    ensures AllFeasible(cfgs, plans, k, maxCost) && TotalHours(plans) <= Later(hours)
    ensures TotalAmount(plans, k, maxCost) == DailyReachTotal(cfgs, hours, k, maxCost) - Unused(cfgs, hours, k, maxCost, share)
  {
    hide Feasible, Unused, Amount, DailyReach, Guarded;
    plans := [];
    if cfgs == [] {
      UnusedNothing(k, maxCost, share);
    } else {
      var n := |cfgs| - 1;
      var front := PlansFor(cfgs[..n], hours[..n], k, maxCost, share);
      UnusedStep(cfgs, hours, k, maxCost, share);
      var last: Plan;
      if cfgs[n].enabled {
        assert cfgs[n] in cfgs;
        last := PlanFor(cfgs[n], hours[n], k, maxCost, share);
      } else {
        last := Plan(1, 0.0, 0.0);
        IdlePlan(cfgs[n], last, k, maxCost);
      }
      plans := front + [last];
      assert plans[..n] == front;
    }
  }

  lemma IdlePlan(cfg: Config, plan: Plan, k: nat, maxCost: real)
    requires Idle(plan)
    ensures Feasible(cfg, plan, k, maxCost) && Amount(plan, k, maxCost) == 0.0 && LaterHours(plan) == 0
  {
  }

  lemma UnusedNothing(k: nat, maxCost: real, share: real)
    ensures Unused([], [], k, maxCost, share) == 0.0
  {
  }

  lemma {:induction false} TopPositive(cfgs: seq<Config>, hours: seq<nat>, k: nat, maxCost: real)
    requires Limited(cfgs) && |hours| == |cfgs| && (forall i :: 0 <= i < |cfgs| ==> hours[i] >= 1) && maxCost > 0.0
    ensures TopTotal(cfgs, hours, k, maxCost) >= 0.0
    ensures Active(cfgs) ==> TopTotal(cfgs, hours, k, maxCost) > 0.0
  {
    hide Guarded, Top;
    if cfgs != [] {
      var n := |cfgs| - 1;
      TopPositive(cfgs[..n], hours[..n], k, maxCost);
      assert cfgs[n] in cfgs;
      if cfgs[n].enabled {
        TopBelow(cfgs[n], hours[n], k, maxCost);
      } else if Active(cfgs) {
        assert forall cfg :: cfg in cfgs ==> cfg in cfgs[..n] || cfg == cfgs[n];
      }
    }
  }

  /** A share that leaves less than `slack` unused. */
  lemma AlmostAll(total: real, slack: real) returns (share: real)
    requires total > 0.0 && slack > 0.0
    ensures 0.0 < share < 1.0 && total * (1.0 - share) < slack
  {
    var rest := Least(slack / (2.0 * total), 0.5);
    share := 1.0 - rest;
    assert (slack / (2.0 * total)) * total == slack / 2.0;
    Smaller(rest, slack / (2.0 * total), total);
  }

  // ---- the exact bounds --------------------------------------------------------------------

  function Ones(n: nat): (hours: seq<nat>)
    ensures |hours| == n && forall i :: 0 <= i < n ==> hours[i] == 1
  {
    seq(n, _ => 1)
  }

  lemma {:induction false} OnesAreOneHour(cfgs: seq<Config>, k: nat, maxCost: real)
    ensures Later(Ones(|cfgs|)) == 0
    ensures Limited(cfgs) ==> DailyReachTotal(cfgs, Ones(|cfgs|), k, maxCost) == HourlyReachTotal(cfgs, k, maxCost)
  {
    hide Times;
    if cfgs != [] {
      var n := |cfgs| - 1;
      OnesAreOneHour(cfgs[..n], k, maxCost);
      assert Ones(|cfgs|)[..n] == Ones(n) && cfgs[n] in cfgs;
    }
  }

  lemma BankedTotal(s: State, since: int, amount: real)
    requires AllBanked(s, since, amount) && s.clock - DAY <= since
    ensures DailyTotal(AllBooks(s), s.clock) == amount
  {
  }

  /** A run that comes this close to what the trackers can reach in these hours. */
  lemma {:induction false} ComesClose(cfgs: seq<Config>, hours: seq<nat>, k: nat, maxCost: real, x: real) returns (steps: seq<Step>)
    requires cfgs != [] && Limited(cfgs) && Active(cfgs) && maxCost > 0.0 && k >= 1
    requires Allocation(hours, |cfgs|) && x < DailyReachTotal(cfgs, hours, k, maxCost)
    ensures RunOf(steps, 0, cfgs, k, maxCost)
    ensures var s := Exec(steps, 0, cfgs[0], maxCost);
      && DailyTotal(AllBooks(s), s.clock) > x
      && (Later(hours) == 0 ==> HourlyTotal(AllBooks(s), s.clock) > x)
  {
    hide Exec, DailyReachTotal, TopTotal, Limited, Active, AllBanked, DailyTotal, HourlyTotal, AllFeasible, TotalAmount, Quiet;
    TopPositive(cfgs, hours, k, maxCost);
    var share := AlmostAll(TopTotal(cfgs, hours, k, maxCost), DailyReachTotal(cfgs, hours, k, maxCost) - x);
    var plans := PlansFor(cfgs, hours, k, maxCost, share);
    assert Unused(cfgs, hours, k, maxCost, share) == TopTotal(cfgs, hours, k, maxCost) * (1.0 - share);
    steps := AllRun(0, cfgs, plans, k, maxCost);
    BankedTotal(Exec(steps, 0, cfgs[0], maxCost), -HOUR, TotalAmount(plans, k, maxCost));
  }

  /** One plan among idle ones. */
  function Alone(i: nat, plan: Plan, n: nat): (plans: seq<Plan>)
    ensures |plans| == n && forall j :: 0 <= j < n ==> plans[j] == if j == i then plan else Plan(1, 0.0, 0.0)
  {
    seq(n, j => if j == i then plan else Plan(1, 0.0, 0.0))
  }

  lemma {:induction false} AloneTotals(i: nat, plan: Plan, n: nat, k: nat, maxCost: real)
    requires plan.hours == 1
    ensures TotalHours(Alone(i, plan, n)) == 0
    ensures TotalAmount(Alone(i, plan, n), k, maxCost) == if i < n then Amount(plan, k, maxCost) else 0.0
  {
    hide Amount;
    if n > 0 {
      AloneTotals(i, plan, n - 1, k, maxCost);
      assert Alone(i, plan, n)[..n - 1] == Alone(i, plan, n - 1);
      AmountOfNothing(k, maxCost);
    }
  }

  lemma AmountOfNothing(k: nat, maxCost: real)
    ensures Amount(Plan(1, 0.0, 0.0), k, maxCost) == 0.0
  {
  }

  /** With nobody else spending, tracker `i` spends this plan's amount in one hour. */
  lemma {:induction false} SpendsAlone(cfgs: seq<Config>, i: nat, plan: Plan, k: nat, maxCost: real) returns (steps: seq<Step>)
    requires i < |cfgs| && plan.hours == 1 && Feasible(cfgs[i], plan, k, maxCost) && maxCost > 0.0 && k >= 1
    ensures RunOf(steps, 0, cfgs, k, maxCost)
    ensures var s := Exec(steps, 0, cfgs[0], maxCost);
      DailyTotal(AllBooks(s), s.clock) == HourlyTotal(AllBooks(s), s.clock) == Amount(plan, k, maxCost)
  {
    hide Exec, AllBanked, DailyTotal, HourlyTotal, Quiet, Amount;
    var plans := Alone(i, plan, |cfgs|);
    AloneTotals(i, plan, |cfgs|, k, maxCost);
    steps := AllRun(0, cfgs, plans, k, maxCost);
    BankedTotal(Exec(steps, 0, cfgs[0], maxCost), -HOUR, Amount(plan, k, maxCost));
  }

  /** A tracker that records costs and enforces nothing: there is no bound. */
  lemma {:induction false} Unbounded(cfgs: seq<Config>, k: nat, maxCost: real, x: real) returns (steps: seq<Step>)
    requires !Limited(cfgs) && cfgs != [] && maxCost > 0.0 && k >= 1
    ensures RunOf(steps, 0, cfgs, k, maxCost)
    ensures var s := Exec(steps, 0, cfgs[0], maxCost);
      DailyTotal(AllBooks(s), s.clock) == HourlyTotal(AllBooks(s), s.clock) > x
  {
    hide Exec, DailyTotal, HourlyTotal, Times;
    var cfg :| cfg in cfgs && cfg.enabled && !Guarded(cfg);
    var i :| 0 <= i < |cfgs| && cfgs[i] == cfg;
    var plan := Plan(1, Greatest(x, 1.0), maxCost);
    TimesMonotone(0, k, maxCost);
    OneTime(k, maxCost);
    TimesStep(0, Burst(plan, k));
    steps := SpendsAlone(cfgs, i, plan, k, maxCost);
  }

  lemma OneTime(k: nat, maxCost: real)
    requires k >= 1 && maxCost > 0.0
    ensures Times(k, maxCost) > 0.0
  {
    TimesMonotone(1, k, maxCost);
  }

  lemma {:induction false} NothingSpent(cfgs: seq<Config>, k: nat, maxCost: real) returns (steps: seq<Step>)
    requires cfgs != [] && maxCost > 0.0 && k >= 1
    ensures RunOf(steps, 0, cfgs, k, maxCost)
    ensures var s := Exec(steps, 0, cfgs[0], maxCost);
      DailyTotal(AllBooks(s), s.clock) == HourlyTotal(AllBooks(s), s.clock) == 0.0
  {
    hide Exec, DailyTotal, HourlyTotal;
    AmountOfNothing(k, maxCost);
    steps := SpendsAlone(cfgs, 0, Plan(1, 0.0, 0.0), k, maxCost);
  }

  /** Main result, over every run in which these trackers replace one another and at most `k` requests are
      outstanding at once: what is really spent in an hour has a bound only if every tracker that records
      costs enforces a limit, and stays below `x` exactly when `x` is then at least the sum, over those
      trackers, of the lowest limit plus `k` costs. For a single tracker this is the exact overshoot; every
      reload of the budget allows all of it again. */
  lemma {:induction false} HourlyExactly(cfgs: seq<Config>, k: nat, maxCost: real, x: real)
    requires cfgs != [] && maxCost > 0.0 && k >= 1
    ensures HourlyStaysBelow(cfgs, k, maxCost, x) <==>
            Limited(cfgs) && if Active(cfgs) then x >= HourlyReachTotal(cfgs, k, maxCost) else x > 0.0
  {
    hide Exec, HourlyReachTotal, HourlyTotal, Limited, Active, Later;
    if !Limited(cfgs) {
      var steps := Unbounded(cfgs, k, maxCost, x);
      assert !HourlyStaysBelow(cfgs, k, maxCost, x);
    } else if if Active(cfgs) then x >= HourlyReachTotal(cfgs, k, maxCost) else x > 0.0 {
      forall steps, clock, now | RunOf(steps, clock, cfgs, k, maxCost) && Exec(steps, clock, cfgs[0], maxCost).clock <= now
        ensures HourlyTotal(AllBooks(Exec(steps, clock, cfgs[0], maxCost)), now) < x
      {
        RunBelow(steps, clock, now, cfgs, k, maxCost);
      }
    } else if Active(cfgs) {
      OnesAreOneHour(cfgs, k, maxCost);
      var steps := ComesClose(cfgs, Ones(|cfgs|), k, maxCost, x);
      assert !HourlyStaysBelow(cfgs, k, maxCost, x);
    } else {
      var steps := NothingSpent(cfgs, k, maxCost);
      assert !HourlyStaysBelow(cfgs, k, maxCost, x);
    }
  }

  /** Main result: the same for what is spent in a day. The trackers share its 24 hours; each can reach its
      daily limit plus `k` costs, or the hourly bound in each of its hours, and two in a row can both use the
      hour in which one replaces the other. */
  lemma {:induction false} DailyExactly(cfgs: seq<Config>, k: nat, maxCost: real, x: real)
    requires cfgs != [] && maxCost > 0.0 && k >= 1
    ensures DailyStaysBelow(cfgs, k, maxCost, x) <==>
            Limited(cfgs)
            && if Active(cfgs) then forall hours :: Allocation(hours, |cfgs|) ==> x >= DailyReachTotal(cfgs, hours, k, maxCost)
               else x > 0.0
  {
    hide Exec, DailyReachTotal, DailyTotal, Limited, Active, Later;
    if !Limited(cfgs) {
      var steps := Unbounded(cfgs, k, maxCost, x);
      assert !DailyStaysBelow(cfgs, k, maxCost, x);
    } else if !Active(cfgs) {
      var steps := NothingSpent(cfgs, k, maxCost);
      if x > 0.0 { AllBelow(cfgs, k, maxCost, x); }
    } else if hours :| Allocation(hours, |cfgs|) && x < DailyReachTotal(cfgs, hours, k, maxCost) {
      var steps := ComesClose(cfgs, hours, k, maxCost, x);
      assert !DailyStaysBelow(cfgs, k, maxCost, x);
    } else {
      AllBelow(cfgs, k, maxCost, x);
    }
  }

  lemma {:induction false} AllBelow(cfgs: seq<Config>, k: nat, maxCost: real, x: real)
    requires cfgs != [] && Limited(cfgs) && maxCost > 0.0
    requires if Active(cfgs) then forall hours :: Allocation(hours, |cfgs|) ==> x >= DailyReachTotal(cfgs, hours, k, maxCost) else x > 0.0
    ensures DailyStaysBelow(cfgs, k, maxCost, x)
  {
    hide Exec, DailyReachTotal, DailyTotal, Limited, Active, Allocation, HoursOf;
    forall steps, clock, now | RunOf(steps, clock, cfgs, k, maxCost) && Exec(steps, clock, cfgs[0], maxCost).clock <= now
      ensures DailyTotal(AllBooks(Exec(steps, clock, cfgs[0], maxCost)), now) < x
    {
      RunBelow(steps, clock, now, cfgs, k, maxCost);
    }
  }

  /** For a tracker that is never replaced: the daily limit plus `k` costs, and 24 times the hourly one plus
      `k` costs. */
  lemma {:induction false} DailyExactlyAlone(cfg: Config, k: nat, maxCost: real, x: real)
    requires Guarded(cfg) && maxCost > 0.0 && k >= 1
    ensures DailyStaysBelow([cfg], k, maxCost, x) <==> x >= DailyReach(cfg, 24, k, maxCost)
  {
    hide DailyReach, DailyStaysBelow, Guarded;
    DailyExactly([cfg], k, maxCost, x);
    assert cfg.enabled by { GuardedIsEnabled(cfg); }
    assert Limited([cfg]) && Active([cfg]) by { assert cfg in [cfg]; }
    OneAllocation(24);
    OneTracker(cfg, 24, k, maxCost);
    forall hours | Allocation(hours, 1) ensures DailyReachTotal([cfg], hours, k, maxCost) <= DailyReach(cfg, 24, k, maxCost) {
      OneAllocation(hours[0]);
      assert hours == [hours[0]];
      OneTracker(cfg, hours[0], k, maxCost);
      MoreHours(cfg, hours[0], k, maxCost);
    }
  }

  lemma GuardedIsEnabled(cfg: Config)
    requires Guarded(cfg)
    ensures cfg.enabled
  {
  }

  lemma OneAllocation(m: nat)
    ensures Allocation([m], 1) <==> 1 <= m <= 24
  {
    assert [m][..0] == [];
    assert Later([m]) == m - 1;
  }

  lemma OneTracker(cfg: Config, m: nat, k: nat, maxCost: real)
    requires cfg.enabled
    ensures DailyReachTotal([cfg], [m], k, maxCost) == DailyReach(cfg, m, k, maxCost)
  {
    hide DailyReach;
    assert [cfg][..0] == [] && [m][..0] == [];
  }

  lemma MoreHours(cfg: Config, m: nat, k: nat, maxCost: real)
    requires Guarded(cfg) && m <= 24 && maxCost > 0.0
    ensures DailyReach(cfg, m, k, maxCost) <= DailyReach(cfg, 24, k, maxCost)
  {
    hide Times;
    TimesMonotone(0, k, maxCost);
    if HourGuard(cfg) {
      var hour := cfg.maxPerHour + Times(k, maxCost);
      Smaller(m as real, 24 as real, hour);
      assert ByHours(m, cfg.maxPerHour, Times(k, maxCost)) <= ByHours(24, cfg.maxPerHour, Times(k, maxCost));
    }
  }
}
