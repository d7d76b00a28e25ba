/** Configuration reload (`internal/config/watcher.go`, `internal/server/server.go`): the comparison that
    decides what is updated, and the live components that must follow the stored configuration. */
module Reload {
  import opened Wrappers
  import opened Routing
  import R = Retry
  import CB = CircuitBreaker
  import BT = BudgetTracker
  import Router

  datatype Config = Config(
    providers: set<string>,
    models: map<string, Router.ModelConfig>,
    retry: R.Config,
    breaker: CB.Config,
    budget: BT.Config,
    logLevel: string,
    logRequests: bool,
    metricsEnabled: bool)

  datatype Diff = Diff(models: bool, providers: bool, resilience: bool, budget: bool, logging: bool, metrics: bool)

  /** What routing sees of a chain. */
  function Targets(chain: seq<Endpoint>): (r: seq<(string, string)>)
    ensures |r| == |chain| && forall i :: 0 <= i < |chain| ==> r[i] == (chain[i].provider, chain[i].model)
  {
    seq(|chain|, i requires 0 <= i < |chain| => (chain[i].provider, chain[i].model))
  }

  predicate SameModel(a: Router.ModelConfig, b: Router.ModelConfig)
  {
    Targets(Router.Chain(a)) == Targets(Router.Chain(b))
  }

  predicate SameModels(a: map<string, Router.ModelConfig>, b: map<string, Router.ModelConfig>)
  {
    a.Keys == b.Keys && forall name :: name in a ==> SameModel(a[name], b[name])
  }

  function Compare(a: Config, b: Config): Diff
  {
    Diff(!SameModels(a.models, b.models),
         a.providers != b.providers,
         a.retry.maxAttempts != b.retry.maxAttempts || a.retry.initialBackoff != b.retry.initialBackoff
           || a.breaker.failureThreshold != b.breaker.failureThreshold,
         a.budget.enabled != b.budget.enabled || a.budget.maxPerHour != b.budget.maxPerHour
           || a.budget.maxPerDay != b.budget.maxPerDay,
         a.logLevel != b.logLevel || a.logRequests != b.logRequests,
         a.metricsEnabled != b.metricsEnabled)
  }

  /** The comparison of two model entries, field by field. */
  method ModelsEqual(a: Router.ModelConfig, b: Router.ModelConfig) returns (equal: bool)
    ensures equal <==> SameModel(a, b)
  {
    var ca, cb := Targets(Router.Chain(a)), Targets(Router.Chain(b));
    assert ca[0] == (a.primary.provider, a.primary.model) && cb[0] == (b.primary.provider, b.primary.model);
    if a.primary.provider != b.primary.provider || a.primary.model != b.primary.model {
      return false;
    }
    if |a.fallbacks| != |b.fallbacks| {
      return false;
    }
    for i := 0 to |a.fallbacks|
      invariant forall j :: 0 <= j <= i ==> ca[j] == cb[j]
    {
      assert ca[i + 1] == (a.fallbacks[i].provider, a.fallbacks[i].model);
      assert cb[i + 1] == (b.fallbacks[i].provider, b.fallbacks[i].model);
      if a.fallbacks[i].provider != b.fallbacks[i].provider || a.fallbacks[i].model != b.fallbacks[i].model {
        return false;
      }
    }
    return true;
  }

  /** Equal counts and one-way inclusion make equal key sets. */
  lemma SameSizeSubset(a: set<string>, b: set<string>)
    requires a <= b && |a| == |b|
    ensures a == b
  {
    assert b == a + (b - a);
    assert |b| == |a| + |b - a|;
  }

  /** The model comparison looks only from the old map into the new one, after comparing sizes. */
  method ModelsChanged(old': map<string, Router.ModelConfig>, new': map<string, Router.ModelConfig>) returns (changed: bool)
    ensures changed <==> !SameModels(old', new')
  {
    assert |old'.Keys| == |old'| && |new'.Keys| == |new'|;
    if |old'| != |new'| {
      return true;
    }
    var todo := old'.Keys;
    while todo != {}
      invariant todo <= old'.Keys
      invariant forall name :: name in old' && name !in todo ==> name in new' && SameModel(old'[name], new'[name])
      decreases |todo|
    {
      var name :| name in todo;
      todo := todo - {name};
      if name !in new' {
        return true;
      }
      var equal := ModelsEqual(old'[name], new'[name]);
      if !equal {
        return true;
      }
    }
    SameSizeSubset(old'.Keys, new'.Keys);
    return false;
  }

  method ProvidersChanged(old': set<string>, new': set<string>) returns (changed: bool)
    ensures changed <==> old' != new'
  {
    if |old'| != |new'| {
      return true;
    }
    var todo := old';
    while todo != {}
      invariant todo <= old' && forall name :: name in old' && name !in todo ==> name in new'
      decreases |todo|
    {
      var name :| name in todo;
      todo := todo - {name};
      if name !in new' {
        return true;
      }
    }
    SameSizeSubset(old', new');
    return false;
  }

  /** The models agree: the same names, and for each name the same providers and models along the chain. */
  ghost predicate SameChains(a: map<string, Router.ModelConfig>, b: map<string, Router.ModelConfig>)
  {
    a.Keys == b.Keys && forall name :: name in a ==>
      Targets([a[name].primary] + a[name].fallbacks) == Targets([b[name].primary] + b[name].fallbacks)
  }

  method DiffConfigs(a: Config, b: Config) returns (diff: Diff)
    ensures diff == Compare(a, b)
    ensures !diff.models <==> SameChains(a.models, b.models)
    ensures !diff.providers <==> a.providers == b.providers
    ensures !diff.resilience <==>
      (a.retry.maxAttempts, a.retry.initialBackoff, a.breaker.failureThreshold)
      == (b.retry.maxAttempts, b.retry.initialBackoff, b.breaker.failureThreshold)
    ensures !diff.budget <==>
      (a.budget.enabled, a.budget.maxPerHour, a.budget.maxPerDay) == (b.budget.enabled, b.budget.maxPerHour, b.budget.maxPerDay)
    ensures !diff.logging <==> (a.logLevel, a.logRequests) == (b.logLevel, b.logRequests)
    ensures !diff.metrics <==> a.metricsEnabled == b.metricsEnabled
  {
    var models := ModelsChanged(a.models, b.models);
    assert SameModels(a.models, b.models) <==> SameChains(a.models, b.models) by {
      assert forall name :: name in a.models && name in b.models ==>
        (SameModel(a.models[name], b.models[name]) <==>
           Targets([a.models[name].primary] + a.models[name].fallbacks) == Targets([b.models[name].primary] + b.models[name].fallbacks));
    }
    var providers := ProvidersChanged(a.providers, b.providers);
    diff := Diff(models, providers, false, false, false, false);
    if a.retry.maxAttempts != b.retry.maxAttempts || a.retry.initialBackoff != b.retry.initialBackoff
       || a.breaker.failureThreshold != b.breaker.failureThreshold {
      diff := diff.(resilience := true);
    }
    if a.budget.enabled != b.budget.enabled || a.budget.maxPerHour != b.budget.maxPerHour
       || a.budget.maxPerDay != b.budget.maxPerDay {
      diff := diff.(budget := true);
    }
    if a.logLevel != b.logLevel || a.logRequests != b.logRequests {
      diff := diff.(logging := true);
    }
    if a.metricsEnabled != b.metricsEnabled {
      diff := diff.(metrics := true);
    }
  }

  // ---- the live copy -----------------------------------------------------------------------

  /** What the components use: the router's models and retry settings, every breaker's settings, and the
      tracker's. */
  datatype Live = Live(models: map<string, Router.ModelConfig>, retry: R.Config,
                       breakers: map<string, CB.Config>, budget: BT.Config)

  /** As wired when the server is built. */
  function Wired(cfg: Config): Live
  {
    Live(cfg.models, cfg.retry, map name | name in cfg.providers :: cfg.breaker, cfg.budget)
  }

  function Applied(live: Live, old': Config, new': Config): Live
  {
    var diff := Compare(old', new');
    Live(if diff.models then new'.models else live.models,
         if diff.resilience then new'.retry else live.retry,
         if diff.resilience then map name | name in live.breakers :: new'.breaker else live.breakers,
         if diff.budget then new'.budget else live.budget)
  }

  // ---- the server --------------------------------------------------------------------------

  /** One breaker per configured provider. */
  method NewBreakers(providers: set<string>, cfg: CB.Config, now: int) returns (made: map<string, CB.Breaker>)
    ensures made.Keys == providers
    ensures forall p :: p in made ==> fresh(made[p]) && made[p].config == cfg
    ensures forall p, q :: p in made && q in made && p != q ==> made[p] != made[q]
  {
    made := map[];
    var todo := providers;
    while todo != {}
      invariant todo <= providers && made.Keys == providers - todo
      invariant forall p :: p in made ==> fresh(made[p]) && made[p].config == cfg
      invariant forall p, q :: p in made && q in made && p != q ==> made[p] != made[q]
      decreases |todo|
    {
      var name :| name in todo;
      var cb := new CB.Breaker(cfg, now);
      made := made[name := cb];
      todo := todo - {name};
    }
  }

  /** The router and the map of breakers that it shares with the server. */
  method WireRouter(cfg: Config, now: int) returns (router: Router.Router, breakers: map<string, CB.Breaker>)
    ensures fresh(router) && router.Valid() && router.breakers == breakers && fresh(breakers.Values)
    ensures router.models == cfg.models && router.retryConfig == cfg.retry && router.providers == cfg.providers
    ensures router.Configs() == Wired(cfg).breakers
  {
    breakers := NewBreakers(cfg.providers, cfg.breaker, now);
    router := new Router.Router(cfg.models, cfg.providers, breakers, cfg.retry);
  }

  method UpdateAll(breakers: map<string, CB.Breaker>, breakerCfg: CB.Config)
    modifies breakers.Values
    ensures forall p :: p in breakers ==> breakers[p].config == breakerCfg && breakers[p].View() == old(breakers[p].View())
  {
    var todo := breakers.Keys;
    while todo != {}
      invariant todo <= breakers.Keys
      invariant forall p :: p in breakers ==> breakers[p].View() == old(breakers[p].View())
      invariant forall p :: p in breakers && p !in todo ==> breakers[p].config == breakerCfg
      decreases |todo|
    {
      var name :| name in todo;
      todo := todo - {name};
      breakers[name].UpdateConfig(breakerCfg);
    }
  }

  class Server {
    var cfg: Config
    const router: Router.Router
    const breakers: map<string, CB.Breaker>
    var budget: BT.Tracker

    /** The breakers that reloads update are the ones that the router asks. */
    ghost predicate Valid()
      reads this, router, router.semaphores.Values, budget, budget.hourly, budget.daily
    {
      router.breakers == breakers && router.Valid() && budget.Valid()
    }

    ghost function View(): Live
      reads this, router, router.breakers.Values, budget
    {
      Live(router.models, router.retryConfig, router.Configs(), budget.cfg)
    }

    constructor (cfg: Config, now: int)
      ensures Valid() && this.cfg == cfg && View() == Wired(cfg)
      ensures router.providers == cfg.providers && Empty(budget)
      ensures fresh(router) && fresh(router.breakers.Values) && fresh(budget)
    {
      hide Router.Router.Configs;
      var r, made := WireRouter(cfg, now);
      var tracker := new BT.Tracker(cfg.budget);
      this.cfg := cfg;
      this.router := r;
      this.breakers := made;
      this.budget := tracker;
    }

    method UpdateBreakers(breakerCfg: CB.Config)
      requires Valid()
      modifies breakers.Values
      ensures Valid() && router.Cores() == old(router.Cores()) && router.Slots() == old(router.Slots())
      ensures router.Configs() == map p | p in old(router.Configs()) :: breakerCfg
    {
      UpdateAll(breakers, breakerCfg);
    }

    method UpdateRouting(diff: Diff, newCfg: Config)
      requires Valid()
      modifies router`models, router`retryConfig, breakers.Values
      ensures Valid() && router.Cores() == old(router.Cores()) && router.Slots() == old(router.Slots())
      ensures router.models == if diff.models then newCfg.models else old(router.models)
      ensures router.retryConfig == if diff.resilience then newCfg.retry else old(router.retryConfig)
      ensures router.Configs() == if diff.resilience then map p | p in old(router.Configs()) :: newCfg.breaker else old(router.Configs())
    {
      hide Router.Router.Cores, Router.Router.Configs, Router.Router.Slots;
      if diff.models {
        router.UpdateModels(newCfg.models);
      }
      if diff.resilience {
        router.UpdateRetryConfig(newCfg.retry);
        UpdateBreakers(newCfg.breaker);
      }
    }

    method UpdateBudget(changed: bool, budgetCfg: BT.Config)
      requires Valid()
      modifies this`budget
      ensures Valid() && budget.cfg == if changed then budgetCfg else old(budget.cfg)
      ensures if changed then fresh(budget) && Empty(budget) else budget == old(budget)
    {
      hide Router.Router.Valid;
      if changed {
        budget := new BT.Tracker(budgetCfg);
      }
    }

    /** The tracker is the same object exactly when the three compared budget fields agree, and otherwise a new
        one in which nothing has been spent. The router's models, and its retry and breaker settings, change
        exactly when what is compared of them does. All else keeps its state. */
    method ApplyConfig(newCfg: Config)
      requires Valid()
      modifies this`cfg, this`budget, router`models, router`retryConfig, breakers.Values
      ensures Valid() && cfg == newCfg
      ensures View() == Applied(old(View()), old(cfg), newCfg)
      ensures router.Cores() == old(router.Cores()) && router.Slots() == old(router.Slots())
      ensures budget == old(budget) <==>
        (old(cfg).budget.enabled, old(cfg).budget.maxPerHour, old(cfg).budget.maxPerDay)
        == (newCfg.budget.enabled, newCfg.budget.maxPerHour, newCfg.budget.maxPerDay)
      ensures budget != old(budget) ==> fresh(budget) && Empty(budget) && budget.cfg == newCfg.budget
      ensures router.models == if SameChains(old(cfg).models, newCfg.models) then old(router.models) else newCfg.models
      ensures if (old(cfg).retry.maxAttempts, old(cfg).retry.initialBackoff, old(cfg).breaker.failureThreshold)
                 == (newCfg.retry.maxAttempts, newCfg.retry.initialBackoff, newCfg.breaker.failureThreshold)
              then router.retryConfig == old(router.retryConfig) && router.Configs() == old(router.Configs())
              else router.retryConfig == newCfg.retry && router.Configs() == map p | p in old(router.Configs()) :: newCfg.breaker
    {
      hide Router.Router.Cores, Router.Router.Configs, Router.Router.Slots, Router.Router.Valid, BT.Tracker.Valid, Empty, Compare, SameChains;
      var diff := DiffConfigs(cfg, newCfg);
      UpdateRouting(diff, newCfg);
      UpdateBudget(diff.budget, newCfg.budget);
      cfg := newCfg;
    }
  }

  ghost predicate Empty(tracker: BT.Tracker)
    requires tracker.Valid()
    reads tracker, tracker.hourly, tracker.daily, tracker.hourly.buckets, tracker.daily.buckets
  {
    tracker.hourly.Contents() == [] && tracker.daily.Contents() == []
  }
}
