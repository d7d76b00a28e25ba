/** The router (`internal/router/router.go`) with breakers and semaphores of its own.

    `ExecuteChat` walks the chain in a loop that changes the breakers and semaphores it meets. It is
    proved to compute `Routing.Route` on the answers these objects really give, and to leave them in the
    state `After` describes; the laws of `RoutingLaws` then apply to it. */
module Router {
  import opened Wrappers
  import opened Retry
  import opened Routing
  import CB = CircuitBreaker
  import S = Semaphore
  import Stream

  const MAX_CONCURRENT: int := 200

  datatype ModelConfig = ModelConfig(primary: Endpoint, fallbacks: seq<Endpoint>)

  function Chain(m: ModelConfig): seq<Endpoint> { [m.primary] + m.fallbacks }

  /** The chain for a requested name: its own entry, or else the entry named "default". */
  function ChainFor(models: map<string, ModelConfig>, name: string): Option<seq<Endpoint>>
  {
    if name in models then Some(Chain(models[name]))
    else if "default" in models then Some(Chain(models["default"]))
    else None
  }

  /** The entry that a request for this name goes by: its own, or else the one named "default". */
  predicate IsEntry(models: map<string, ModelConfig>, name: string, entry: ModelConfig)
  {
    if name in models then entry == models[name] else "default" in models && entry == models["default"]
  }

  lemma ChainForIs(models: map<string, ModelConfig>, name: string)
    ensures name in models ==> ChainFor(models, name) == Some([models[name].primary] + models[name].fallbacks)
    ensures name !in models && "default" in models ==>
      ChainFor(models, name) == Some([models["default"].primary] + models["default"].fallbacks)
    ensures name !in models && "default" !in models ==> ChainFor(models, name) == None
  {
  }

  /** What surrounds one request: the clock at its breaker calls, the context and the select choice at
      its acquires, and the behaviour of its providers, by position in the chain. */
  datatype Env = Env(askedAt: nat -> int, recordedAt: nat -> int,
                     cancelled: nat -> bool, sendFirst: nat -> bool, script: nat -> Script)

  /** The breakers, their configurations, and the slots in use of the semaphores created so far. */
  datatype World = World(cores: map<string, CB.Core>, configs: map<string, CB.Config>, slots: map<string, nat>)

  predicate Consistent(w: World) { w.cores.Keys == w.configs.Keys }

  predicate Fits(w: World, site: Site) { Consistent(w) && site.guarded == w.cores.Keys }

  function SlotsOf(w: World, p: string): nat { if p in w.slots then w.slots[p] else 0 }

  /** The answers that this world gives at position `i`. */
  function AnswerIn(w: World, e: Endpoint, env: Env, i: nat): Answer
    requires Consistent(w)
  {
    var p := e.provider;
    Answer(p in w.cores && CB.AllowStep(w.cores[p], w.configs[p], env.askedAt(i)).1,
           SlotsOf(w, p) < MAX_CONCURRENT && (!env.cancelled(i) || env.sendFirst(i)),
           env.script(i))
  }

  function CoreAfter(b: CB.Core, cfg: CB.Config, v: Visit, now: int): CB.Core
  {
    match v
    case Won(_, _) => CB.OnSuccess(b, cfg, now)
    case Lost(_, _) => CB.OnFailure(b, cfg, now)
    case _ => b
  }

  /** The world after the endpoint at position `i` has been visited: its breaker was asked and, if the
      endpoint was executed, told the outcome; slots in use are what they were. */
  function After(w: World, site: Site, e: Endpoint, env: Env, i: nat): (w': World)
    requires Consistent(w) && site.guarded == w.cores.Keys
    ensures Consistent(w') && w'.cores.Keys == w.cores.Keys
  {
    var p := e.provider;
    var a := AnswerIn(w, e, env, i);
    var slots := if (p in w.cores ==> a.allowed) && p in site.providers then w.slots[p := SlotsOf(w, p)] else w.slots;
    if p !in w.cores then w.(slots := slots) else
      var asked := CB.AllowStep(w.cores[p], w.configs[p], env.askedAt(i)).0;
      w.(slots := slots,
         cores := w.cores[p := CoreAfter(asked, w.configs[p], VisitOf(site, e, a), env.recordedAt(i))])
  }

  function Asking(w: World, p: string, i: nat, ok: bool): seq<Event> { if p in w.cores then [Asked(p, i, ok)] else [] }

  /** The core of `p` once its breaker has been asked. */
  function AskedCores(w: World, p: string, now: int): map<string, CB.Core>
    requires Consistent(w)
  {
    if p in w.cores then w.cores[p := CB.AllowStep(w.cores[p], w.configs[p], now).0] else w.cores
  }

  predicate Admits(w: World, p: string, now: int)
    requires Consistent(w)
  {
    p in w.cores ==> CB.AllowStep(w.cores[p], w.configs[p], now).1
  }

  lemma SlotAnswer(w: World, e: Endpoint, env: Env, i: nat)
    requires Consistent(w)
    ensures AnswerIn(w, e, env, i).slot <==> SlotsOf(w, e.provider) < MAX_CONCURRENT && (!env.cancelled(i) || env.sendFirst(i))
  {
  }

  lemma Refused(w: World, site: Site, e: Endpoint, env: Env, i: nat)
    requires Consistent(w) && site.guarded == w.cores.Keys && !Admits(w, e.provider, env.askedAt(i))
    ensures VisitOf(site, e, AnswerIn(w, e, env, i)) == Skipped
    ensures EventsOf(site, e, i, AnswerIn(w, e, env, i)) == Asking(w, e.provider, i, false)
    ensures After(w, site, e, env, i) == w.(cores := AskedCores(w, e.provider, env.askedAt(i)))
  {
    hide CB.AllowStep, Run;
  }

  lemma NoProvider(w: World, site: Site, e: Endpoint, env: Env, i: nat)
    requires Consistent(w) && site.guarded == w.cores.Keys && Admits(w, e.provider, env.askedAt(i))
    requires e.provider !in site.providers
    ensures VisitOf(site, e, AnswerIn(w, e, env, i)) == Skipped
    ensures EventsOf(site, e, i, AnswerIn(w, e, env, i)) == Asking(w, e.provider, i, true)
    ensures After(w, site, e, env, i) == w.(cores := AskedCores(w, e.provider, env.askedAt(i)))
  {
    hide CB.AllowStep, Run;
  }

  lemma NoSlot(w: World, site: Site, e: Endpoint, env: Env, i: nat)
    requires Consistent(w) && site.guarded == w.cores.Keys && Admits(w, e.provider, env.askedAt(i))
    requires e.provider in site.providers && !AnswerIn(w, e, env, i).slot
    ensures VisitOf(site, e, AnswerIn(w, e, env, i)) == Skipped
    ensures EventsOf(site, e, i, AnswerIn(w, e, env, i)) == Asking(w, e.provider, i, true)
    ensures After(w, site, e, env, i) == w.(cores := AskedCores(w, e.provider, env.askedAt(i)),
                                            slots := w.slots[e.provider := SlotsOf(w, e.provider)])
  {
    hide CB.AllowStep, Run;
  }

  /** What an executed endpoint's breaker is told. */
  function ToldCores(w: World, p: string, v: Visit, askedAt: int, recordedAt: int): map<string, CB.Core>
    requires Consistent(w)
  {
    var cores := AskedCores(w, p, askedAt);
    if p in w.cores then cores[p := CoreAfter(cores[p], w.configs[p], v, recordedAt)] else cores
  }

  lemma WasExecuted(w: World, site: Site, e: Endpoint, env: Env, i: nat)
    requires Consistent(w) && site.guarded == w.cores.Keys && Admits(w, e.provider, env.askedAt(i))
    requires e.provider in site.providers && AnswerIn(w, e, env, i).slot
    ensures var v := Attempted(site.retry, env.script(i));
      && VisitOf(site, e, AnswerIn(w, e, env, i)) == v
      && EventsOf(site, e, i, AnswerIn(w, e, env, i)) == Asking(w, e.provider, i, true) + Executing(site, e.provider, i, env.script(i))
      && After(w, site, e, env, i) == w.(cores := ToldCores(w, e.provider, v, env.askedAt(i), env.recordedAt(i)),
                                         slots := w.slots[e.provider := SlotsOf(w, e.provider)])
  {
    hide CB.AllowStep, Run, CB.OnSuccess, CB.OnFailure, Attempted;
  }

  function Executing(site: Site, p: string, i: nat, script: Script): seq<Event>
  {
    [GotSlot(p), Called(p, Run(site.retry, script).3), FreedSlot(p)] + Recorded(site, p, i, Attempted(site.retry, script))
  }

  function WorldAt(w: World, site: Site, chain: seq<Endpoint>, env: Env, k: nat): (w': World)
    requires Consistent(w) && site.guarded == w.cores.Keys && k <= |chain|
    ensures Consistent(w') && w'.cores.Keys == w.cores.Keys
  {
    if k == 0 then w else After(WorldAt(w, site, chain, env, k - 1), site, chain[k - 1], env, k - 1)
  }

  /** The answer at position `i`, in the world the earlier positions leave behind. */
  function AnswerAt(w: World, site: Site, chain: seq<Endpoint>, env: Env, i: nat): Answer
    requires Consistent(w) && site.guarded == w.cores.Keys
  {
    if i < |chain| then AnswerIn(WorldAt(w, site, chain, env, i), chain[i], env, i)
    else Answer(false, false, env.script(i))
  }

  function Answers(w: World, site: Site, chain: seq<Endpoint>, env: Env): nat -> Answer
    requires Consistent(w) && site.guarded == w.cores.Keys
  {
    (i: nat) => AnswerAt(w, site, chain, env, i)
  }

  lemma StartOfWalk(w: World, site: Site, chain: seq<Endpoint>, env: Env)
    requires Consistent(w) && site.guarded == w.cores.Keys
    ensures var answers := Answers(w, site, chain, env);
      && WorldAt(w, site, chain, env, 0) == w && RetriesUpTo(site, chain, answers, 0) == 0
      && LastError(site, chain, answers, 0) == None && EventsUpTo(site, chain, answers, 0) == []
      && Winner(site, chain, answers, |chain|) == |chain|
  {
  }

  lemma StepOfWalk(w: World, site: Site, chain: seq<Endpoint>, env: Env, k: nat)
    requires Consistent(w) && site.guarded == w.cores.Keys && k < |chain|
    ensures var answers := Answers(w, site, chain, env);
      var v := VisitOf(site, chain[k], AnswerIn(WorldAt(w, site, chain, env, k), chain[k], env, k));
      && VisitOf(site, chain[k], answers(k)) == v
      && WorldAt(w, site, chain, env, k + 1) == After(WorldAt(w, site, chain, env, k), site, chain[k], env, k)
      && RetriesUpTo(site, chain, answers, k + 1) == RetriesUpTo(site, chain, answers, k) + RetriesOf(v)
      && LastError(site, chain, answers, k + 1) == (if v.Lost? then Some(v.error) else LastError(site, chain, answers, k))
      && EventsUpTo(site, chain, answers, k + 1) == EventsUpTo(site, chain, answers, k)
           + EventsOf(site, chain[k], k, AnswerIn(WorldAt(w, site, chain, env, k), chain[k], env, k))
      && Winner(site, chain, answers, k) == if v.Won? then k else Winner(site, chain, answers, k + 1)
  {
    hide After, VisitOf, EventsOf, AnswerIn;
    PrefixStep(site, chain, Answers(w, site, chain, env), k);
  }

  /** A request went along this chain, and these are its result, its events and the world it left. */
  ghost predicate ChatRouted(was: World, site: Site, chain: seq<Endpoint>, env: Env, r: Result, events: seq<Event>, now: World)
    requires Consistent(was) && site.guarded == was.cores.Keys
  {
    var answers := Answers(was, site, chain, env);
    (r, events) == Route(site, chain, answers) && now == WorldAt(was, site, chain, env, Visited(site, chain, answers))
  }

  /** However often a provider appears in the chain, no slot is lost or gained. */
  lemma {:induction false} SlotsConserved(w: World, site: Site, chain: seq<Endpoint>, env: Env, k: nat, p: string)
    requires Consistent(w) && site.guarded == w.cores.Keys && k <= |chain|
    ensures SlotsOf(WorldAt(w, site, chain, env, k), p) == SlotsOf(w, p)
  {
    if k > 0 {
      SlotsConserved(w, site, chain, env, k - 1, p);
    }
  }

  /** A breaker whose provider is not in the chain is left alone. */
  lemma {:induction false} OthersUntouched(w: World, site: Site, chain: seq<Endpoint>, env: Env, k: nat, p: string)
    requires Consistent(w) && site.guarded == w.cores.Keys && k <= |chain|
    requires p in w.cores && forall e :: e in chain ==> e.provider != p
    ensures WorldAt(w, site, chain, env, k).cores[p] == w.cores[p]
  {
    if k > 0 {
      OthersUntouched(w, site, chain, env, k - 1, p);
    }
  }

  // ---- streams -----------------------------------------------------------------------------

  /** A stream is opened once, without retries: it goes through the chain as a request with a single
      attempt does, except that its slot is kept until the stream has ended. */
  const OPENED: Response := Response(0, 0.0)

  function OneShot(open: Stream.Open): Script
  {
    Script(_ => if open.Opened? then Answered(OPENED) else Failed(open.error), _ => false, _ => false, _ => 0.0)
  }

  function Opening(env: Env, opens: nat -> Stream.Open): Env { env.(script := (i: nat) => OneShot(opens(i))) }

  function OneAttempt(site: Site): Site { site.(retry := Retry.Config(1, 0, 0, 1.0, [])) }

  lemma OpeningKeeps(site: Site, env: Env, opens: nat -> Stream.Open, i: nat)
    ensures OneAttempt(site).guarded == site.guarded && OneAttempt(site).providers == site.providers
    ensures OneAttempt(site).retry.maxAttempts == 1
    ensures var opening := Opening(env, opens);
      && opening.askedAt(i) == env.askedAt(i) && opening.recordedAt(i) == env.recordedAt(i)
      && opening.cancelled(i) == env.cancelled(i) && opening.sendFirst(i) == env.sendFirst(i)
      && opening.script(i) == OneShot(opens(i))
  {
  }

  function OpenVisit(open: Stream.Open): (v: Visit)
    ensures !v.Skipped? && !v.Blank? && (v.Won? <==> open.Opened?) && (v.Won? ==> v == Won(1, OPENED))
  {
    if open.Opened? then Won(1, OPENED) else Lost(1, open.error)
  }

  lemma OneShotVisit(site: Site, open: Stream.Open)
    ensures Attempted(OneAttempt(site).retry, OneShot(open)) == OpenVisit(open)
    ensures (exists k: nat :: AnswersAt(OneAttempt(site).retry, OneShot(open), k)) <==> open.Opened?
  {
    SucceedsIffAnswers(OneAttempt(site).retry, OneShot(open));
  }

  lemma {:induction false} NoRetries(site: Site, chain: seq<Endpoint>, answers: nat -> Answer, k: nat)
    requires k <= |chain| && site.retry.maxAttempts == 1
    ensures RetriesUpTo(site, chain, answers, k) == 0
  {
    hide Run;
    if k > 0 {
      NoRetries(site, chain, answers, k - 1);
      SucceedsIffAnswers(site.retry, answers(k - 1).script);
    }
  }

  /** `w` with one more slot in use. */
  function Held(w: World, p: string): World { w.(slots := w.slots[p := SlotsOf(w, p) + 1]) }

  datatype StreamResult = StreamResult(stream: Option<Stream.Turns>, sem: S.Semaphore, provider: string)

  /** A streamed request went along this chain: what it returned, with the semaphores of then, and the world
      it left. */
  ghost predicate StreamRouted(was: World, site: Site, chain: seq<Endpoint>, env: Env, opens: nat -> Stream.Open,
                               r: Result, result: Option<StreamResult>, semaphores: map<string, S.Semaphore>, now: World)
    requires Consistent(was) && site.guarded == was.cores.Keys
  {
    var site', opening := OneAttempt(site), Opening(env, opens);
    var answers := Answers(was, site', chain, opening);
    && r == Route(site', chain, answers).0
    && now == StreamWorld(was, site', chain, opening)
    && (r.Served? ==>
          var w := Winner(site', chain, answers, 0);
          && w < |chain| && result.Some? && result.value.provider == chain[w].provider && chain[w].provider in semaphores
          && result.value.sem == semaphores[chain[w].provider]
          && opens(w) == Stream.Opened(result.value.stream))
  }

  /** The world a streamed request leaves to its handler. */
  function StreamWorld(w: World, site: Site, chain: seq<Endpoint>, env: Env): (w': World)
    requires Consistent(w) && site.guarded == w.cores.Keys
    ensures Consistent(w')
  {
    var answers := Answers(w, site, chain, env);
    var k := Winner(site, chain, answers, 0);
    var end := WorldAt(w, site, chain, env, Visited(site, chain, answers));
    if k < |chain| then Held(end, chain[k].provider) else end
  }

  /** The world after one turn of the streaming loop. */
  function StreamAfter(w: World, site: Site, e: Endpoint, env: Env, i: nat): World
    requires Consistent(w) && site.guarded == w.cores.Keys
  {
    var end := After(w, site, e, env, i);
    if VisitOf(site, e, AnswerIn(w, e, env, i)).Won? then Held(end, e.provider) else end
  }

  /** The world once the breaker of `p` has been asked. */
  function AskedWorld(w: World, p: string, now: int): (w': World)
    requires Consistent(w)
    ensures Consistent(w')
  {
    w.(cores := AskedCores(w, p, now))
  }

  /** The world once a slot of `p` has been sought and, if there was one, a stream. */
  function SoughtWorld(w: World, p: string, v: Visit, now: int): World
    requires Consistent(w)
  {
    w.(cores := if p in w.cores && !v.Skipped? then w.cores[p := CoreAfter(w.cores[p], w.configs[p], v, now)] else w.cores,
       slots := w.slots[p := SlotsOf(w, p) + if v.Won? then 1 else 0])
  }

  lemma StreamTurn(w: World, site: Site, e: Endpoint, env: Env, opens: nat -> Stream.Open, i: nat)
    requires Consistent(w) && site.guarded == w.cores.Keys
    ensures var p := e.provider;
      var v := VisitOf(OneAttempt(site), e, AnswerIn(w, e, Opening(env, opens), i));
      var end := StreamAfter(w, OneAttempt(site), e, Opening(env, opens), i);
      if !Admits(w, p, env.askedAt(i)) || p !in site.providers then
        v == Skipped && end == AskedWorld(w, p, env.askedAt(i))
      else
        v == (if SlotsOf(AskedWorld(w, p, env.askedAt(i)), p) < MAX_CONCURRENT && (!env.cancelled(i) || env.sendFirst(i)) then OpenVisit(opens(i)) else Skipped)
        && end == SoughtWorld(AskedWorld(w, p, env.askedAt(i)), p, v, env.recordedAt(i))
  {
    hide CoreAfter, EventsOf, Executing, Attempted, VisitOf, After, AnswerIn, AskedCores, Admits, OneShot, OneAttempt, Opening, OpenVisit;
    var site', opening := OneAttempt(site), Opening(env, opens);
    OpeningKeeps(site, env, opens, i);
    OneShotVisit(site, opens(i));
    SlotAnswer(w, e, opening, i);
    if !Admits(w, e.provider, env.askedAt(i)) {
      Refused(w, site', e, opening, i);
    } else if e.provider !in site.providers {
      NoProvider(w, site', e, opening, i);
    } else if AnswerIn(w, e, opening, i).slot {
      WasExecuted(w, site', e, opening, i);
    } else {
      NoSlot(w, site', e, opening, i);
    }
  }

  /** The end of the walk, at the first endpoint that opens a stream or past the last. */
  lemma EndOfStream(w: World, site: Site, chain: seq<Endpoint>, env: Env, k: nat)
    requires Consistent(w) && site.guarded == w.cores.Keys && site.retry.maxAttempts == 1 && k <= |chain|
    requires Winner(site, chain, Answers(w, site, chain, env), 0) == k
    ensures var answers := Answers(w, site, chain, env);
      if k < |chain| then
        (VisitOf(site, chain[k], answers(k)) == Won(1, OPENED) ==>
          Route(site, chain, answers).0 == Served(OPENED, Meta(chain[k].provider, chain[k].model, 0, k > 0, 0.0)))
        && StreamWorld(w, site, chain, env) == Held(WorldAt(w, site, chain, env, k + 1), chain[k].provider)
      else
        Route(site, chain, answers).0 == AllFailed(Meta("", "", 0, false, 0.0), LastError(site, chain, answers, k))
        && StreamWorld(w, site, chain, env) == WorldAt(w, site, chain, env, k)
  {
    hide VisitOf, EventsOf, EventsUpTo, WorldAt, LastError, RetriesUpTo, AnswerAt;
    var answers := Answers(w, site, chain, env);
    NoRetries(site, chain, answers, if k < |chain| then k + 1 else k);
  }

  class Router {
    var models: map<string, ModelConfig>
    const providers: set<string>
    const breakers: map<string, CB.Breaker>
    var retryConfig: Retry.Config
    var semaphores: map<string, S.Semaphore>

    ghost predicate Valid()
      reads this`semaphores, semaphores.Values
    {
      && (forall p, q :: p in breakers && q in breakers && p != q ==> breakers[p] != breakers[q])
      && (forall p, q :: p in semaphores && q in semaphores && p != q ==> semaphores[p] != semaphores[q])
      && (forall p :: p in semaphores ==> semaphores[p].Valid() && semaphores[p].capacity == MAX_CONCURRENT)
    }

    ghost function Site(): Site
      reads this`retryConfig
    {
      Routing.Site(breakers.Keys, providers, retryConfig)
    }

    ghost function Cores(): map<string, CB.Core>
      reads breakers.Values
    {
      map p | p in breakers :: breakers[p].View()
    }

    ghost function Configs(): map<string, CB.Config>
      reads breakers.Values
    {
      map p | p in breakers :: breakers[p].config
    }

    ghost function Slots(): map<string, nat>
      reads this`semaphores, semaphores.Values
    {
      map p | p in semaphores :: semaphores[p].length
    }

    ghost function View(): (w: World)
      reads this`semaphores, breakers.Values, semaphores.Values
      ensures Consistent(w) && w.cores.Keys == breakers.Keys
    {
      World(Cores(), Configs(), Slots())
    }

    lemma SlotsDomain()
      ensures Slots().Keys == semaphores.Keys
    {
    }

    twostate lemma BreakersUntouched()
      requires forall p :: p in breakers ==> unchanged(breakers[p])
      ensures Cores() == old(Cores()) && Configs() == old(Configs())
    {
    }

    twostate lemma SlotsUntouched()
      requires semaphores == old(semaphores) && forall p :: p in semaphores ==> semaphores[p].length == old(semaphores[p].length)
      ensures Slots() == old(Slots())
    {
    }

    constructor (models: map<string, ModelConfig>, providers: set<string>, breakers: map<string, CB.Breaker>, retryConfig: Retry.Config)
      requires forall p, q :: p in breakers && q in breakers && p != q ==> breakers[p] != breakers[q]
      ensures Valid() && View().slots == map[]
      ensures this.models == models && this.providers == providers
      ensures this.breakers == breakers && this.retryConfig == retryConfig
    {
      this.models := models;
      this.providers := providers;
      this.breakers := breakers;
      this.retryConfig := retryConfig;
      this.semaphores := map[];
    }

    method AskBreaker(p: string, now: int) returns (ok: bool)
      requires Valid() && p in breakers
      modifies breakers[p]
      ensures Valid() && Slots() == old(Slots()) && Configs() == old(Configs())
      ensures var (core, answer) := CB.AllowStep(old(Cores())[p], old(Configs())[p], now);
        ok == answer && Cores() == old(Cores())[p := core]
    {
      hide CB.AllowStep;
      ok := breakers[p].Allow(now);
      assert forall q :: q in breakers && q != p ==> breakers[q] != breakers[p];
      SlotsUntouched();
    }

    method TellSuccess(p: string, now: int)
      requires Valid() && p in breakers
      modifies breakers[p]
      ensures Valid() && Slots() == old(Slots()) && Configs() == old(Configs())
      ensures Cores() == old(Cores())[p := CB.OnSuccess(old(Cores())[p], old(Configs())[p], now)]
    {
      hide CB.OnSuccess;
      breakers[p].RecordSuccess(now);
      assert forall q :: q in breakers && q != p ==> breakers[q] != breakers[p];
      SlotsUntouched();
    }

    method TellFailure(p: string, now: int)
      requires Valid() && p in breakers
      modifies breakers[p]
      ensures Valid() && Slots() == old(Slots()) && Configs() == old(Configs())
      ensures Cores() == old(Cores())[p := CB.OnFailure(old(Cores())[p], old(Configs())[p], now)]
    {
      hide CB.OnFailure;
      breakers[p].RecordFailure(now);
      assert forall q :: q in breakers && q != p ==> breakers[q] != breakers[p];
      SlotsUntouched();
    }

    /** The semaphore of a provider, created on first use. */
    method GetSemaphore(p: string) returns (sem: S.Semaphore)
      requires Valid()
      modifies this`semaphores
      ensures Valid() && p in semaphores && sem == semaphores[p]
      ensures fresh(semaphores.Values - old(semaphores.Values))
      ensures Cores() == old(Cores()) && Configs() == old(Configs())
      ensures Slots() == old(Slots())[p := if p in old(Slots()) then old(Slots())[p] else 0]
    {
      if p in semaphores {
        return semaphores[p];
      }
      ghost var slots := Slots();
      sem := new S.Semaphore(MAX_CONCURRENT);
      semaphores := semaphores[p := sem];
      assert Slots() == slots[p := 0];
      BreakersUntouched();
    }

    method Take(p: string, cancelled: bool, sendFirst: bool) returns (got: bool)
      requires Valid() && p in semaphores
      modifies semaphores[p]
      ensures Valid() && Cores() == old(Cores()) && Configs() == old(Configs())
      ensures got <==> old(Slots())[p] < MAX_CONCURRENT && (!cancelled || sendFirst)
      ensures Slots() == if got then old(Slots())[p := old(Slots())[p] + 1] else old(Slots())
    {
      got := semaphores[p].Acquire(cancelled, sendFirst);
      assert forall q :: q in semaphores && q != p ==> semaphores[q] != semaphores[p];
      BreakersUntouched();
    }

    method GiveBack(sem: S.Semaphore, ghost p: string)
      requires Valid() && p in semaphores && sem == semaphores[p] && Slots()[p] > 0
      modifies sem
      ensures Valid() && Cores() == old(Cores()) && Configs() == old(Configs())
      ensures Slots() == old(Slots())[p := old(Slots())[p] - 1]
    {
      var warned := sem.Release();
      assert forall q :: q in semaphores && q != p ==> semaphores[q] != sem;
      BreakersUntouched();
    }

    /** A slot taken and given back around the provider's execution leaves the slots in use as they
        were. */
    method Execute(p: string, cancelled: bool, sendFirst: bool, script: Script)
      returns (got: bool, result: Option<Response>, attempts: int, err: Option<Error>, ghost events: seq<Event>)
      requires Valid() && p in semaphores
      modifies semaphores[p]
      ensures Valid() && Cores() == old(Cores()) && Configs() == old(Configs()) && Slots() == old(Slots())
      ensures got <==> old(Slots())[p] < MAX_CONCURRENT && (!cancelled || sendFirst)
      ensures got ==> (result, attempts, err) == (Run(retryConfig, script).0, Run(retryConfig, script).1, Run(retryConfig, script).2)
      ensures events == if got then [GotSlot(p), Called(p, Run(retryConfig, script).3), FreedSlot(p)] else []
    {
      hide Run, Cores, Configs, Slots;
      result, attempts, err, events := None, 0, None, [];
      ghost var before := Slots();
      SlotsDomain();
      got := Take(p, cancelled, sendFirst);
      if got {
        ghost var calls: nat;
        ghost var waits: seq<int>;
        events := [GotSlot(p)];
        result, attempts, err, calls, waits := ExecuteWithResult(retryConfig, script);
        events := events + [Called(p, calls)];
        GiveBack(semaphores[p], p);
        events := events + [FreedSlot(p)];
        assert Slots() == before[p := before[p]];
      }
    }

    /** Asks the breaker, if the provider has one. */
    method Knock(p: string, ghost i: nat, now: int) returns (ok: bool, ghost events: seq<Event>)
      requires Valid()
      modifies breakers.Values
      ensures Valid() && Slots() == old(Slots()) && Configs() == old(Configs())
      ensures ok == Admits(old(View()), p, now) && events == Asking(old(View()), p, i, ok)
      ensures View() == AskedWorld(old(View()), p, now)
      ensures Cores() == AskedCores(old(View()), p, now)
    {
      hide CB.AllowStep;
      ok, events := true, [];
      if p in breakers {
        ok := AskBreaker(p, now);
        events := [Asked(p, i, ok)];
      }
    }

    /** Records the outcome of an executed endpoint, if the provider has a breaker. */
    method Report(p: string, ghost i: nat, v: Routing.Visit, now: int) returns (ghost events: seq<Event>)
      requires Valid() && !v.Skipped?
      modifies breakers.Values
      ensures Valid() && Slots() == old(Slots()) && Configs() == old(Configs())
      ensures events == Recorded(old(Site()), p, i, v)
      ensures Cores() == if p in breakers then old(Cores())[p := CoreAfter(old(Cores())[p], old(Configs())[p], v, now)] else old(Cores())
    {
      hide CB.OnSuccess, CB.OnFailure;
      events := [];
      if p in breakers && !v.Blank? {
        if v.Won? {
          TellSuccess(p, now);
        } else {
          TellFailure(p, now);
        }
        events := [if v.Won? then RecordedSuccess(p, i) else RecordedFailure(p, i)];
      }
    }

    /** The part of a turn after the breaker has said yes and the provider has been found. */
    method Serve(p: string, i: nat, env: Env) returns (got: bool, v: Routing.Visit, ghost events: seq<Event>)
      requires Valid()
      modifies this`semaphores, breakers.Values, semaphores.Values
      ensures Valid() && fresh(semaphores.Values - old(semaphores.Values))
      ensures got <==> SlotsOf(old(View()), p) < MAX_CONCURRENT && (!env.cancelled(i) || env.sendFirst(i))
      ensures v == if got then Attempted(retryConfig, env.script(i)) else Skipped
      ensures events == if got then Executing(Site(), p, i, env.script(i)) else []
      ensures Cores() == if p in breakers && got
                         then old(Cores())[p := CoreAfter(old(Cores())[p], old(Configs())[p], v, env.recordedAt(i))]
                         else old(Cores())
      ensures Configs() == old(Configs()) && Slots() == old(Slots())[p := SlotsOf(old(View()), p)]
    {
      hide Run, CoreAfter, Recorded;
      var sem := GetSemaphore(p);
      var result, attempts, err;
      got, result, attempts, err, events := Execute(p, env.cancelled(i), env.sendFirst(i), env.script(i));
      if !got {
        return false, Skipped, events;
      }
      match err {
        case None => v := if result == None then Blank(attempts) else Won(attempts, result.value);
        case Some(error) => v := Lost(attempts, error);
      }
      ghost var told := Report(p, i, v, env.recordedAt(i));
      events := events + told;
    }

    /** One turn of the loop. The events list what was done, in order. */
    method Visit(e: Endpoint, i: nat, env: Env) returns (v: Routing.Visit, ghost events: seq<Event>)
      requires Valid()
      modifies this`semaphores, breakers.Values, semaphores.Values
      ensures Valid() && fresh(semaphores.Values - old(semaphores.Values))
      ensures v == VisitOf(old(Site()), e, AnswerIn(old(View()), e, env, i))
      ensures events == EventsOf(old(Site()), e, i, AnswerIn(old(View()), e, env, i))
      ensures View() == After(old(View()), old(Site()), e, env, i)
    {
      hide Attempted, Executing, VisitOf, EventsOf, After, AnswerIn, Asking, AskedCores, Admits, CoreAfter, Cores, Configs, Slots;
      ghost var was, site := View(), Site();
      SlotAnswer(was, e, env, i);
      var p := e.provider;
      var ok;
      ok, events := Knock(p, i, env.askedAt(i));
      if !ok {
        Refused(was, site, e, env, i);
        return Skipped, events;
      }
      if p !in providers {
        NoProvider(was, site, e, env, i);
        return Skipped, events;
      }
      var got;
      ghost var inside: seq<Event>;
      got, v, inside := Serve(p, i, env);
      events := events + inside;
      if got {
        WasExecuted(was, site, e, env, i);
      } else {
        NoSlot(was, site, e, env, i);
      }
    }

    /** The router's main entry point, against `Routing.Route` on the answers of its own breakers and
        semaphores: a configured name goes along its own entry, the primary first, any other name along the
        default entry, if there is one. */
    method ExecuteChat(model: string, env: Env) returns (r: Result, ghost events: seq<Event>)
      requires Valid()
      modifies this`semaphores, breakers.Values, semaphores.Values
      ensures Valid() && fresh(semaphores.Values - old(semaphores.Values))
      ensures model in models ==>
        ChatRouted(old(View()), old(Site()), [models[model].primary] + models[model].fallbacks, env, r, events, View())
      ensures model !in models && "default" in models ==>
        ChatRouted(old(View()), old(Site()), [models["default"].primary] + models["default"].fallbacks, env, r, events, View())
      ensures model !in models && "default" !in models ==> r == UnknownModel && events == [] && View() == old(View())
    {
      var modelConfig;
      if model in models {
        modelConfig := models[model];
      } else if "default" in models {
        modelConfig := models["default"];
      } else {
        return UnknownModel, [];
      }
      r, events := Walk(Chain(modelConfig), env);
    }

    method Walk(chain: seq<Endpoint>, env: Env) returns (r: Result, ghost events: seq<Event>)
      requires Valid()
      modifies this`semaphores, breakers.Values, semaphores.Values
      ensures Valid() && fresh(semaphores.Values - old(semaphores.Values))
      ensures ChatRouted(old(View()), old(Site()), chain, env, r, events, View())
    {
      hide VisitOf, EventsOf, AnswerAt, WorldAt, RetriesUpTo, LastError, EventsUpTo, Winner, Cores, Configs, Slots;
      ghost var was, site := View(), Site();
      ghost var answers := Answers(was, site, chain, env);
      var meta := Meta("", "", 0, false, 0.0);
      var lastErr: Option<Error> := None;
      events := [];
      StartOfWalk(was, site, chain, env);
      for i := 0 to |chain|
        invariant Valid() && Site() == site
        invariant fresh(semaphores.Values - old(semaphores.Values))
        invariant View() == WorldAt(was, site, chain, env, i)
        invariant meta == Meta("", "", RetriesUpTo(site, chain, answers, i), false, 0.0)
        invariant lastErr == LastError(site, chain, answers, i)
        invariant events == EventsUpTo(site, chain, answers, i)
        invariant Winner(site, chain, answers, 0) == Winner(site, chain, answers, i)
      {
        ghost var now: seq<Event>;
        var v;
        v, now := Visit(chain[i], i, env);
        StepOfWalk(was, site, chain, env, i);
        events := events + now;
        meta := meta.(retries := meta.retries + RetriesOf(v));
        if v.Won? {
          meta := meta.(provider := chain[i].provider, actualModel := chain[i].model, fallback := i > 0, cost := v.response.cost);
          return Served(v.response, meta), events;
        }
        if v.Lost? {
          lastErr := Some(v.error);
        }
      }
      return AllFailed(meta, lastErr), events;
    }

    /** Opens a stream in a slot that is given back only if that fails. */
    method Open(p: string, i: nat, env: Env, open: Stream.Open) returns (sem: S.Semaphore, got: bool, v: Routing.Visit)
      requires Valid()
      modifies this`semaphores, breakers.Values, semaphores.Values
      ensures Valid() && fresh(semaphores.Values - old(semaphores.Values))
      ensures p in semaphores && sem == semaphores[p]
      ensures got <==> SlotsOf(old(View()), p) < MAX_CONCURRENT && (!env.cancelled(i) || env.sendFirst(i))
      ensures v == if got then OpenVisit(open) else Skipped
      ensures View() == SoughtWorld(old(View()), p, v, env.recordedAt(i))
    {
      hide CoreAfter, Recorded, OpenVisit, Cores, Configs, Slots;
      sem := GetSemaphore(p);
      ghost var before := Slots();
      got, v := Enter(p, env.cancelled(i), env.sendFirst(i), open);
      ghost var extra := if v.Won? then 1 else 0;
      assert before[p := before[p] + extra] == old(Slots())[p := SlotsOf(old(View()), p) + extra];
      if got {
        ghost var told := Report(p, i, v, env.recordedAt(i));
      }
    }

    /** Takes a slot and opens the stream; the slot is given back if that fails. */
    method Enter(p: string, cancelled: bool, sendFirst: bool, open: Stream.Open) returns (got: bool, v: Routing.Visit)
      requires Valid() && p in semaphores
      modifies semaphores[p]
      ensures Valid() && Cores() == old(Cores()) && Configs() == old(Configs())
      ensures got <==> old(Slots())[p] < MAX_CONCURRENT && (!cancelled || sendFirst)
      ensures v == if got then OpenVisit(open) else Skipped
      ensures Slots() == old(Slots())[p := old(Slots())[p] + if v.Won? then 1 else 0]
    {
      hide Cores, Configs, Slots, OpenVisit;
      v := Skipped;
      ghost var before := Slots();
      SlotsDomain();
      got := Take(p, cancelled, sendFirst);
      if got {
        v := OpenVisit(open);
        if v.Lost? {
          GiveBack(semaphores[p], p);
          assert Slots() == before[p := before[p]];
        }
      }
    }

    /** One turn of the streaming loop: as `Visit` with a single attempt, but a success keeps its slot. */
    method VisitStream(e: Endpoint, i: nat, env: Env, opens: nat -> Stream.Open)
      returns (v: Routing.Visit, sem: S.Semaphore?)
      requires Valid()
      modifies this`semaphores, breakers.Values, semaphores.Values
      ensures Valid() && fresh(semaphores.Values - old(semaphores.Values))
      ensures v == VisitOf(OneAttempt(old(Site())), e, AnswerIn(old(View()), e, Opening(env, opens), i))
      ensures v.Won? ==> v == Won(1, OPENED) && opens(i).Opened? && e.provider in semaphores && sem == semaphores[e.provider]
      ensures View() == StreamAfter(old(View()), OneAttempt(old(Site())), e, Opening(env, opens), i)
    {
      hide VisitOf, StreamAfter, AnswerIn, Asking, AskedCores, Admits, CoreAfter, OpenVisit, Held, After, OneAttempt, Opening, Cores, Configs, Slots,
           View, AskedWorld, SoughtWorld, SlotsOf;
      ghost var was := View();
      StreamTurn(was, Site(), e, env, opens, i);
      var p := e.provider;
      var ok;
      ghost var events: seq<Event>;
      ok, events := Knock(p, i, env.askedAt(i));
      if !ok || p !in providers {
        return Skipped, null;
      }
      var got;
      sem, got, v := Open(p, i, env, opens(i));
    }

    /** Streaming, against the route of a request with one attempt: the same endpoint, breakers told the
        same, and one slot still in use. */
    method ExecuteChatStream(model: string, env: Env, opens: nat -> Stream.Open)
      returns (r: Result, result: Option<StreamResult>)
      requires Valid()
      modifies this`semaphores, breakers.Values, semaphores.Values
      ensures Valid() && fresh(semaphores.Values - old(semaphores.Values))
      ensures result.Some? <==> r.Served?
      ensures model in models ==>
        StreamRouted(old(View()), old(Site()), [models[model].primary] + models[model].fallbacks, env, opens,
                     r, result, semaphores, View())
      ensures model !in models && "default" in models ==>
        StreamRouted(old(View()), old(Site()), [models["default"].primary] + models["default"].fallbacks, env, opens,
                     r, result, semaphores, View())
      ensures model !in models && "default" !in models ==> r == UnknownModel && View() == old(View())
    {
      var modelConfig;
      if model in models {
        modelConfig := models[model];
      } else if "default" in models {
        modelConfig := models["default"];
      } else {
        return UnknownModel, None;
      }
      r, result := WalkStream(Chain(modelConfig), env, opens);
    }

    method WalkStream(chain: seq<Endpoint>, env: Env, opens: nat -> Stream.Open)
      returns (r: Result, result: Option<StreamResult>)
      requires Valid()
      modifies this`semaphores, breakers.Values, semaphores.Values
      ensures Valid() && fresh(semaphores.Values - old(semaphores.Values))
      ensures result.Some? <==> r.Served?
      ensures StreamRouted(old(View()), old(Site()), chain, env, opens, r, result, semaphores, View())
    {
      hide VisitOf, EventsOf, AnswerAt, WorldAt, LastError, EventsUpTo, RetriesUpTo, Winner, Held, OneAttempt, Opening, Route, StreamWorld,
           After, AnswerIn, OpenVisit, Cores, Configs, Slots;
      ghost var was, site, opening := View(), OneAttempt(Site()), Opening(env, opens);
      OpeningKeeps(Site(), env, opens, 0);
      ghost var answers := Answers(was, site, chain, opening);
      var meta := Meta("", "", 0, false, 0.0);
      var lastErr: Option<Error> := None;
      StartOfWalk(was, site, chain, opening);
      for i := 0 to |chain|
        invariant Valid() && OneAttempt(Site()) == site
        invariant fresh(semaphores.Values - old(semaphores.Values))
        invariant View() == WorldAt(was, site, chain, opening, i)
        invariant lastErr == LastError(site, chain, answers, i)
        invariant Winner(site, chain, answers, 0) == Winner(site, chain, answers, i)
      {
        var v, sem := VisitStream(chain[i], i, env, opens);
        assert v.Won? ==> View() == Held(After(WorldAt(was, site, chain, opening, i), site, chain[i], opening, i), chain[i].provider);
        StepOfWalk(was, site, chain, opening, i);
        if v.Won? {
          EndOfStream(was, site, chain, opening, i);
          meta := meta.(provider := chain[i].provider, actualModel := chain[i].model, fallback := i > 0);
          return Served(OPENED, meta), Some(StreamResult(opens(i).stream, sem, chain[i].provider));
        }
        if v.Lost? {
          lastErr := Some(v.error);
        }
      }
      EndOfStream(was, site, chain, opening, |chain|);
      return AllFailed(meta, lastErr), None;
    }

    method UpdateModels(models: map<string, ModelConfig>)
      modifies this`models
      ensures this.models == models
    {
      this.models := models;
    }

    method UpdateRetryConfig(cfg: Retry.Config)
      modifies this`retryConfig
      ensures retryConfig == cfg
    {
      retryConfig := cfg;
    }
  }
}
