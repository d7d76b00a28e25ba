/** The live components over many reloads: what always follows the stored configuration, and what drifts. */
module ReloadHistory {
  import opened Wrappers
  import opened Routing
  import opened Reload
  import CB = CircuitBreaker
  import Router

  /** The stored configuration and the live components after a first configuration and some reloads. */
  function AfterReloads(first: Config, reloads: seq<Config>): (Config, Live)
  {
    if reloads == [] then (first, Wired(first)) else
      var (cfg, live) := AfterReloads(first, reloads[..|reloads| - 1]);
      (reloads[|reloads| - 1], Applied(live, cfg, reloads[|reloads| - 1]))
  }

  /** Routing by the live models is routing by the stored ones, and the compared settings agree. */
  ghost predicate InSync(cfg: Config, live: Live)
  {
    && SameModels(cfg.models, live.models)
    && live.retry.maxAttempts == cfg.retry.maxAttempts && live.retry.initialBackoff == cfg.retry.initialBackoff
    && (forall name :: name in live.breakers ==> live.breakers[name].failureThreshold == cfg.breaker.failureThreshold)
    && live.budget.enabled == cfg.budget.enabled
    && live.budget.maxPerHour == cfg.budget.maxPerHour && live.budget.maxPerDay == cfg.budget.maxPerDay
  }

  lemma AppliedInSync(live: Live, old': Config, new': Config)
    requires InSync(old', live)
    ensures InSync(new', Applied(live, old', new'))
  {
    hide SameModel;
    SameModelsReflexive(new'.models);
    if !Compare(old', new').models {
      SameModelsChain(new'.models, old'.models, live.models);
    }
  }

  lemma SameModelsReflexive(a: map<string, Router.ModelConfig>)
    ensures SameModels(a, a)
  {
  }

  lemma SameModelsChain(a: map<string, Router.ModelConfig>, b: map<string, Router.ModelConfig>, c: map<string, Router.ModelConfig>)
    requires SameModels(b, a) && SameModels(b, c)
    ensures SameModels(a, c)
  {
  }

  /** The chain a request for `name` is routed along, as routing sees it. */
  function TargetsFor(models: map<string, Router.ModelConfig>, name: string): Option<seq<(string, string)>>
  {
    match Router.ChainFor(models, name)
    case Some(chain) => Some(Targets(chain))
    case None => None
  }

  lemma {:induction false} ReloadsInSync(first: Config, reloads: seq<Config>)
    ensures InSync(AfterReloads(first, reloads).0, AfterReloads(first, reloads).1)
  {
    hide InSync, Applied, Wired;
    if reloads == [] {
      WiredInSync(first);
    } else {
      ReloadsInSync(first, reloads[..|reloads| - 1]);
      var (cfg, live) := AfterReloads(first, reloads[..|reloads| - 1]);
      AppliedInSync(live, cfg, reloads[|reloads| - 1]);
    }
  }

  lemma WiredInSync(cfg: Config)
    ensures InSync(cfg, Wired(cfg))
  {
    SameModelsReflexive(cfg.models);
  }

  /** Main result, over every sequence of reloads: for every requested name the router's chain of
      providers and models is the one in the stored configuration, also through the default entry, and
      the settings that the comparison looks at agree with the live components. */
  lemma {:induction false} LiveFollowsStored(first: Config, reloads: seq<Config>, name: string)
    ensures var (cfg, live) := AfterReloads(first, reloads);
      && TargetsFor(live.models, name) == TargetsFor(cfg.models, name)
      && live.retry.maxAttempts == cfg.retry.maxAttempts && live.retry.initialBackoff == cfg.retry.initialBackoff
      && (forall p :: p in live.breakers ==> live.breakers[p].failureThreshold == cfg.breaker.failureThreshold)
      && live.budget.enabled == cfg.budget.enabled
      && live.budget.maxPerHour == cfg.budget.maxPerHour && live.budget.maxPerDay == cfg.budget.maxPerDay
  {
    hide AfterReloads, Targets;
    ReloadsInSync(first, reloads);
    var (cfg, live) := AfterReloads(first, reloads);
    assert SameModels(cfg.models, live.models);
    if name in cfg.models {
      assert SameModel(cfg.models[name], live.models[name]);
    } else if "default" in cfg.models {
      assert SameModel(cfg.models["default"], live.models["default"]);
    }
  }

  /** Chains with the same targets are routed in the same way, whatever their weights. */
  lemma {:induction false} RoutingSeesTargets(site: Site, a: seq<Endpoint>, b: seq<Endpoint>, answers: nat -> Answer)
    requires Targets(a) == Targets(b)
    ensures Route(site, a, answers) == Route(site, b, answers)
  {
    SameVisits(site, a, b, answers);
    SameWinner(site, a, b, answers, 0);
    SamePrefix(site, a, b, answers, Visited(site, a, answers));
  }

  lemma SameVisits(site: Site, a: seq<Endpoint>, b: seq<Endpoint>, answers: nat -> Answer)
    requires Targets(a) == Targets(b)
    ensures |a| == |b|
    ensures forall i: nat :: i < |a| ==> a[i].provider == b[i].provider && a[i].model == b[i].model
    ensures forall i: nat :: i < |a| ==> VisitOf(site, a[i], answers(i)) == VisitOf(site, b[i], answers(i))
    ensures forall i: nat :: i < |a| ==> EventsOf(site, a[i], i, answers(i)) == EventsOf(site, b[i], i, answers(i))
  {
    assert |Targets(a)| == |a| && |Targets(b)| == |b|;
    forall i: nat | i < |a| ensures a[i].provider == b[i].provider && a[i].model == b[i].model {
      assert Targets(a)[i] == Targets(b)[i];
    }
  }

  lemma {:induction false} SameWinner(site: Site, a: seq<Endpoint>, b: seq<Endpoint>, answers: nat -> Answer, k: nat)
    requires |a| == |b| && k <= |a|
    requires forall i: nat :: i < |a| ==> VisitOf(site, a[i], answers(i)) == VisitOf(site, b[i], answers(i))
    ensures Winner(site, a, answers, k) == Winner(site, b, answers, k)
    decreases |a| - k
  {
    hide VisitOf;
    if k < |a| { SameWinner(site, a, b, answers, k + 1); }
  }

  lemma {:induction false} SamePrefix(site: Site, a: seq<Endpoint>, b: seq<Endpoint>, answers: nat -> Answer, k: nat)
    requires |a| == |b| && k <= |a|
    requires forall i: nat :: i < |a| ==> VisitOf(site, a[i], answers(i)) == VisitOf(site, b[i], answers(i))
    requires forall i: nat :: i < |a| ==> EventsOf(site, a[i], i, answers(i)) == EventsOf(site, b[i], i, answers(i))
    ensures RetriesUpTo(site, a, answers, k) == RetriesUpTo(site, b, answers, k)
    ensures LastError(site, a, answers, k) == LastError(site, b, answers, k)
    ensures EventsUpTo(site, a, answers, k) == EventsUpTo(site, b, answers, k)
  {
    hide VisitOf, EventsOf;
    if k > 0 { SamePrefix(site, a, b, answers, k - 1); }
  }

  // ---- settings that the comparison does not look at ---------------------------------------

  function StoredAfter(first: Config, reloads: seq<Config>): Config
  {
    if reloads == [] then first else reloads[|reloads| - 1]
  }

  /** The flags that the last of these reloads raised. */
  function LastDiff(first: Config, reloads: seq<Config>): Diff
    requires reloads != []
  {
    Compare(StoredAfter(first, reloads[..|reloads| - 1]), reloads[|reloads| - 1])
  }

  /** The latest configuration whose reload raised the resilience flag, or else the first. */
  function LastResilience(first: Config, reloads: seq<Config>): Config
  {
    if reloads == [] then first
    else if LastDiff(first, reloads).resilience then reloads[|reloads| - 1]
    else LastResilience(first, reloads[..|reloads| - 1])
  }

  /** The same for the budget flag. */
  function LastBudget(first: Config, reloads: seq<Config>): Config
  {
    if reloads == [] then first
    else if LastDiff(first, reloads).budget then reloads[|reloads| - 1]
    else LastBudget(first, reloads[..|reloads| - 1])
  }

  /** Over every sequence of reloads, what is live comes whole from the last configuration that raised the
      flag, however many were stored since. */
  lemma {:induction false} LiveComesFromLastFlagged(first: Config, reloads: seq<Config>)
    ensures var (cfg, live) := AfterReloads(first, reloads);
      && cfg == StoredAfter(first, reloads)
      && live.retry == LastResilience(first, reloads).retry
      && live.breakers == (map p | p in first.providers :: LastResilience(first, reloads).breaker)
      && live.budget == LastBudget(first, reloads).budget
  {
    hide Compare;
    if reloads != [] {
      LiveComesFromLastFlagged(first, reloads[..|reloads| - 1]);
    }
  }

  /** Main result, over every sequence of reloads: the live retry, breaker and budget settings are the
      stored ones exactly when the last configuration that raised their flag agrees with the last one. */
  lemma {:induction false} InStepIff(first: Config, reloads: seq<Config>)
    ensures var (cfg, live) := AfterReloads(first, reloads);
      && (live.retry == cfg.retry <==> LastResilience(first, reloads).retry == StoredAfter(first, reloads).retry)
      && ((forall p :: p in live.breakers ==> live.breakers[p] == cfg.breaker) <==>
            first.providers == {} || LastResilience(first, reloads).breaker == StoredAfter(first, reloads).breaker)
      && (live.budget == cfg.budget <==> LastBudget(first, reloads).budget == StoredAfter(first, reloads).budget)
  {
    hide AfterReloads, StoredAfter, LastResilience, LastBudget;
    LiveComesFromLastFlagged(first, reloads);
    if first.providers != {} {
      var p :| p in first.providers;
      assert p in AfterReloads(first, reloads).1.breakers;
    }
  }

  /** The reload from the configuration before position `k` to the one at `k`. */
  function DiffAt(first: Config, reloads: seq<Config>, k: nat): Diff
    requires k < |reloads|
  {
    Compare(StoredAfter(first, reloads[..k]), reloads[k])
  }

  /** No reload changes the retry settings without raising the flag. */
  ghost predicate RetryFlagged(first: Config, reloads: seq<Config>)
  {
    forall k :: 0 <= k < |reloads| ==>
      DiffAt(first, reloads, k).resilience || reloads[k].retry == StoredAfter(first, reloads[..k]).retry
  }

  ghost predicate BudgetFlagged(first: Config, reloads: seq<Config>)
  {
    forall k :: 0 <= k < |reloads| ==>
      DiffAt(first, reloads, k).budget || reloads[k].budget == StoredAfter(first, reloads[..k]).budget
  }

  ghost predicate RetryAlwaysInStep(first: Config, reloads: seq<Config>)
  {
    forall k :: 0 <= k <= |reloads| ==> AfterReloads(first, reloads[..k]).1.retry == StoredAfter(first, reloads[..k]).retry
  }

  ghost predicate BudgetAlwaysInStep(first: Config, reloads: seq<Config>)
  {
    forall k :: 0 <= k <= |reloads| ==> AfterReloads(first, reloads[..k]).1.budget == StoredAfter(first, reloads[..k]).budget
  }

  ghost predicate BreakersFlagged(first: Config, reloads: seq<Config>)
  {
    forall k :: 0 <= k < |reloads| ==>
      DiffAt(first, reloads, k).resilience || reloads[k].breaker == StoredAfter(first, reloads[..k]).breaker
  }

  predicate BreakersFollow(live: Live, cfg: Config) { forall p :: p in live.breakers ==> live.breakers[p] == cfg.breaker }

  ghost predicate BreakersAlwaysInStep(first: Config, reloads: seq<Config>)
  {
    forall k :: 0 <= k <= |reloads| ==> BreakersFollow(AfterReloads(first, reloads[..k]).1, StoredAfter(first, reloads[..k]))
  }

  lemma OneMoreReload(first: Config, reloads: seq<Config>, k: nat)
    requires k < |reloads|
    ensures var was, now := AfterReloads(first, reloads[..k]), AfterReloads(first, reloads[..k + 1]);
      && StoredAfter(first, reloads[..k + 1]) == reloads[k]
      && now.1.retry == (if DiffAt(first, reloads, k).resilience then reloads[k].retry else was.1.retry)
      && now.1.budget == (if DiffAt(first, reloads, k).budget then reloads[k].budget else was.1.budget)
      && was.1.breakers.Keys == now.1.breakers.Keys == first.providers
      && (DiffAt(first, reloads, k).resilience ==> BreakersFollow(now.1, reloads[k]))
      && (!DiffAt(first, reloads, k).resilience ==> now.1.breakers == was.1.breakers)
  {
    hide Compare;
    LiveComesFromLastFlagged(first, reloads[..k]);
    assert reloads[..k + 1][..k] == reloads[..k];
  }

  /** Main result: the live settings are the stored ones at every moment exactly when no reload changes
      them without changing a compared field at the same time. */
  lemma {:induction false} NeverDriftsIff(first: Config, reloads: seq<Config>)
    ensures RetryAlwaysInStep(first, reloads) <==> RetryFlagged(first, reloads)
    ensures BudgetAlwaysInStep(first, reloads) <==> BudgetFlagged(first, reloads)
    ensures BreakersAlwaysInStep(first, reloads) <==> first.providers == {} || BreakersFlagged(first, reloads)
  {
    hide AfterReloads, StoredAfter, DiffAt;
    BreakersNeverDriftIff(first, reloads);
    forall k | 0 <= k < |reloads|
      ensures RetryAlwaysInStep(first, reloads) ==> DiffAt(first, reloads, k).resilience || reloads[k].retry == StoredAfter(first, reloads[..k]).retry
      ensures BudgetAlwaysInStep(first, reloads) ==> DiffAt(first, reloads, k).budget || reloads[k].budget == StoredAfter(first, reloads[..k]).budget
    {
      OneMoreReload(first, reloads, k);
    }
    forall k | 0 <= k <= |reloads|
      ensures RetryFlagged(first, reloads) ==> AfterReloads(first, reloads[..k]).1.retry == StoredAfter(first, reloads[..k]).retry
      ensures BudgetFlagged(first, reloads) ==> AfterReloads(first, reloads[..k]).1.budget == StoredAfter(first, reloads[..k]).budget
    {
      FlaggedStaysInStep(first, reloads, k);
    }
  }

  lemma {:induction false} BreakersNeverDriftIff(first: Config, reloads: seq<Config>)
    ensures BreakersAlwaysInStep(first, reloads) <==> first.providers == {} || BreakersFlagged(first, reloads)
  {
    hide AfterReloads, StoredAfter, DiffAt;
    forall k | 0 <= k < |reloads| && BreakersAlwaysInStep(first, reloads) && first.providers != {}
      ensures DiffAt(first, reloads, k).resilience || reloads[k].breaker == StoredAfter(first, reloads[..k]).breaker
    {
      OneMoreReload(first, reloads, k);
      var p :| p in first.providers;
      assert BreakersFollow(AfterReloads(first, reloads[..k]).1, StoredAfter(first, reloads[..k]));
      assert BreakersFollow(AfterReloads(first, reloads[..k + 1]).1, StoredAfter(first, reloads[..k + 1]));
    }
    if first.providers == {} || BreakersFlagged(first, reloads) {
      forall k | 0 <= k <= |reloads|
        ensures BreakersFollow(AfterReloads(first, reloads[..k]).1, StoredAfter(first, reloads[..k]))
      {
        FlaggedBreakersFollow(first, reloads, k);
      }
    }
  }

  lemma {:induction false} FlaggedBreakersFollow(first: Config, reloads: seq<Config>, k: nat)
    requires k <= |reloads| && (first.providers == {} || BreakersFlagged(first, reloads))
    ensures BreakersFollow(AfterReloads(first, reloads[..k]).1, StoredAfter(first, reloads[..k]))
  {
    hide DiffAt;
    if k > 0 {
      FlaggedBreakersFollow(first, reloads, k - 1);
      OneMoreReload(first, reloads, k - 1);
    }
  }

  lemma {:induction false} FlaggedStaysInStep(first: Config, reloads: seq<Config>, k: nat)
    requires k <= |reloads|
    ensures RetryFlagged(first, reloads) ==> AfterReloads(first, reloads[..k]).1.retry == StoredAfter(first, reloads[..k]).retry
    ensures BudgetFlagged(first, reloads) ==> AfterReloads(first, reloads[..k]).1.budget == StoredAfter(first, reloads[..k]).budget
  {
    hide DiffAt;
    if k > 0 {
      FlaggedStaysInStep(first, reloads, k - 1);
      OneMoreReload(first, reloads, k - 1);
    }
  }

  /** From every configuration a reload can be made that drifts at once. */
  lemma SettingsCanDrift(first: Config)
    ensures var second := first.(retry := first.retry.(maxBackoff := first.retry.maxBackoff + 1),
                                 breaker := first.breaker.(successThreshold := first.breaker.successThreshold + 1),
                                 budget := first.budget.(alertThreshold := first.budget.alertThreshold + 1.0));
      && !RetryAlwaysInStep(first, [second]) && !BudgetAlwaysInStep(first, [second])
      && (first.providers != {} ==> !BreakersAlwaysInStep(first, [second]))
  {
    var second := first.(retry := first.retry.(maxBackoff := first.retry.maxBackoff + 1),
                         breaker := first.breaker.(successThreshold := first.breaker.successThreshold + 1),
                         budget := first.budget.(alertThreshold := first.budget.alertThreshold + 1.0));
    assert [second][..0] == [] && StoredAfter(first, [second][..0]) == first;
    SameModelsReflexive(first.models);
    assert !DiffAt(first, [second], 0).resilience && !DiffAt(first, [second], 0).budget;
    NeverDriftsIff(first, [second]);
  }
}
