/** A chat request from the budget check to the answer (`internal/server/handlers.go`), on the server's own
    tracker and router, and what the budget gets to see of many requests. */
module Chat {
  import opened Wrappers
  import opened RollingWindow
  import opened WindowHistory
  import opened BudgetTracker
  import Retry
  import Routing
  import Stream
  import Streaming
  import EventStream
  import R = Router

  datatype Answer =
    | OverBudget(notice: Notice)
    | Streamed(reply: Streaming.Reply)
    | Answered(response: Retry.Response, meta: Routing.Meta)
    | ProviderError(result: Routing.Result)

  /** The clock where a request is checked, twice, and recorded. */
  datatype Times = Times(hourlyCheck: int, dailyCheck: int, record: int)

  /** What the client asks for, and what surrounds its execution. */
  datatype Request = Request(model: string, streamed: bool, flushes: bool, env: R.Env, opens: nat -> Stream.Open, times: Times)

  /** The router when a request comes: its breakers and slots, and what it is configured with. */
  datatype Scene = Scene(world: R.World, site: Routing.Site, models: map<string, R.ModelConfig>)

  predicate Coherent(s: Scene) { R.Consistent(s.world) && s.site.guarded == s.world.cores.Keys }

  datatype Spent = Spent(hourly: seq<Bucket>, daily: seq<Bucket>)

  function Checked(cfg: Config, s: Spent, at: Times): (CheckResult, Spent)
  {
    if !cfg.enabled then (CheckResult(true, false, NoNotice, 0.0, 0.0, false), s) else
      var hourly, daily := Fresh(s.hourly, at.hourlyCheck - HOUR), Fresh(s.daily, at.dailyCheck - DAY);
      (Decide(cfg, 0.0, Total(hourly), Total(daily)), Spent(hourly, daily))
  }

  function Charged(cfg: Config, s: Spent, cost: real, t: int): Spent
  {
    if cfg.enabled && cost > 0.0 then Spent(Added(s.hourly, t, cost, HOUR, MINUTE), Added(s.daily, t, cost, DAY, HOUR)) else s
  }

  /** Only an answer that came whole is charged. */
  function ChargedFor(cfg: Config, s: Spent, answer: Answer, at: Times): Spent
  {
    if answer.Answered? then Charged(cfg, s, answer.meta.cost, at.record) else s
  }

  function Executed(scene: Scene, model: string, env: R.Env): (Routing.Result, R.World)
    requires Coherent(scene)
  {
    match R.ChainFor(scene.models, model)
    case None => (Routing.UnknownModel, scene.world)
    case Some(chain) =>
      var answers := R.Answers(scene.world, scene.site, chain, env);
      (Routing.Route(scene.site, chain, answers).0,
       R.WorldAt(scene.world, scene.site, chain, env, Routing.Visited(scene.site, chain, answers)))
  }

  ghost function StreamReply(scene: Scene, req: Request, texts: Stream.Texts, describe: Streaming.Describe): (Streaming.Reply, R.World)
    requires Coherent(scene)
  {
    if !req.flushes then (Streaming.NotSupported, scene.world) else
      var (sent, end) := Streaming.Outcome(scene.world, scene.site, scene.models, req.model, req.env, req.opens, texts, describe);
      (Streaming.Events(EventStream.Frames(sent)), end)
  }

  /** The answer of an admitted request, and the router afterwards. */
  ghost function Served(scene: Scene, req: Request, texts: Stream.Texts, describe: Streaming.Describe): (Answer, R.World)
    requires Coherent(scene)
  {
    if req.streamed then
      var (reply, end) := StreamReply(scene, req, texts, describe);
      (Streamed(reply), end)
    else
      var (r, end) := Executed(scene, req.model, req.env);
      (if r.Served? then Answered(r.response, r.meta) else ProviderError(r), end)
  }

  /** The answer, the budget and the router afterwards. */
  ghost function Handled(cfg: Config, spent: Spent, scene: Scene, req: Request, texts: Stream.Texts, describe: Streaming.Describe)
    : (Answer, Spent, R.World)
    requires Coherent(scene)
  {
    var (check, now) := Checked(cfg, spent, req.times);
    if !check.allowed then (OverBudget(check.notice), now, scene.world) else
      var (answer, end) := Served(scene, req, texts, describe);
      (answer, ChargedFor(cfg, now, answer, req.times), end)
  }

  ghost function SpentOf(tracker: Tracker): Spent
    requires tracker.Valid()
    reads tracker, tracker.hourly, tracker.daily, tracker.hourly.buckets, tracker.daily.buckets
  {
    Spent(tracker.hourly.Contents(), tracker.daily.Contents())
  }

  ghost function SceneOf(router: R.Router): (s: Scene)
    reads router, router.breakers.Values, router.semaphores.Values
    ensures Coherent(s) && s.world == router.View()
  {
    Scene(router.View(), router.Site(), router.models)
  }

  method CheckBudget(tracker: Tracker, at: Times) returns (check: CheckResult)
    requires tracker.Valid()
    modifies tracker.hourly`len, tracker.hourly.buckets, tracker.daily`len, tracker.daily.buckets
    ensures tracker.Valid()
    ensures (check, SpentOf(tracker)) == Checked(tracker.cfg, old(SpentOf(tracker)), at)
  {
    hide Fresh, Total, Decide;
    check := tracker.Check(0.0, at.hourlyCheck, at.dailyCheck);
  }

  method RecordCost(tracker: Tracker, cost: real, t: int)
    requires tracker.Valid()
    modifies tracker.hourly, tracker.hourly.buckets, tracker.daily, tracker.daily.buckets
    ensures tracker.Valid() && tracker.hourly == old(tracker.hourly) && tracker.daily == old(tracker.daily)
    ensures SpentOf(tracker) == Charged(tracker.cfg, old(SpentOf(tracker)), cost, t)
  {
    hide Added;
    if cost > 0.0 {
      tracker.Record(cost, t);
    }
  }

  method Execute(router: R.Router, model: string, env: R.Env) returns (r: Routing.Result)
    requires router.Valid()
    modifies router`semaphores, router.breakers.Values, router.semaphores.Values
    ensures router.Valid() && (r, router.View()) == Executed(old(SceneOf(router)), model, env)
  {
    hide R.WorldAt, Routing.Route, Routing.Visited, R.Answers;
    ghost var events: seq<Routing.Event>;
    r, events := router.ExecuteChat(model, env);
  }

  method Relay(router: R.Router, req: Request, texts: Stream.Texts, describe: Streaming.Describe) returns (reply: Streaming.Reply)
    requires router.Valid()
    modifies router`semaphores, router.breakers.Values, router.semaphores.Values
    ensures router.Valid() && (reply, router.View()) == StreamReply(old(SceneOf(router)), req, texts, describe)
  {
    hide Streaming.Outcome;
    reply := Streaming.HandleStreamingChat(router, req.model, req.env, req.opens, req.flushes, texts, describe);
  }

  method Serve(router: R.Router, req: Request, texts: Stream.Texts, describe: Streaming.Describe) returns (answer: Answer)
    requires router.Valid()
    modifies router`semaphores, router.breakers.Values, router.semaphores.Values
    ensures router.Valid() && (answer, router.View()) == Served(old(SceneOf(router)), req, texts, describe)
  {
    hide Executed, StreamReply, R.Router.View, R.Router.Site, R.Router.Valid;
    if req.streamed {
      var reply := Relay(router, req, texts, describe);
      return Streamed(reply);
    }
    var r := Execute(router, req.model, req.env);
    return if r.Served? then Answered(r.response, r.meta) else ProviderError(r);
  }

  method ServeAndCharge(tracker: Tracker, router: R.Router, req: Request, texts: Stream.Texts, describe: Streaming.Describe)
    returns (answer: Answer)
    requires tracker.Valid() && router.Valid()
    modifies tracker.hourly, tracker.hourly.buckets, tracker.daily, tracker.daily.buckets
    modifies router`semaphores, router.breakers.Values, router.semaphores.Values
    ensures tracker.Valid() && router.Valid()
    ensures (answer, router.View()) == Served(old(SceneOf(router)), req, texts, describe)
    ensures SpentOf(tracker) == ChargedFor(tracker.cfg, old(SpentOf(tracker)), answer, req.times)
  {
    hide Charged, Served, SpentOf, SceneOf, Tracker.Valid, R.Router.View, R.Router.Site, R.Router.Valid;
    answer := Serve(router, req, texts, describe);
    if answer.Answered? {
      RecordCost(tracker, answer.meta.cost, req.times.record);
    }
  }

  method HandleChat(tracker: Tracker, router: R.Router, req: Request, texts: Stream.Texts, describe: Streaming.Describe)
    returns (answer: Answer)
    requires tracker.Valid() && router.Valid()
    modifies tracker.hourly, tracker.hourly.buckets, tracker.daily, tracker.daily.buckets
    modifies router`semaphores, router.breakers.Values, router.semaphores.Values
    ensures tracker.Valid() && router.Valid()
    ensures (answer, SpentOf(tracker), router.View()) ==
            Handled(tracker.cfg, old(SpentOf(tracker)), old(SceneOf(router)), req, texts, describe)
  {
    hide Checked, ChargedFor, Served, SpentOf, SceneOf, Tracker.Valid, R.Router.View, R.Router.Site, R.Router.Valid;
    var check := CheckBudget(tracker, req.times);
    if !check.allowed {
      return OverBudget(check.notice);
    }
    answer := ServeAndCharge(tracker, router, req, texts, describe);
  }

  // ---- many requests, one after the other --------------------------------------------------

  /** A request and the router as it finds it; other traffic may have changed the router in between. */
  datatype Moment = Moment(scene: Scene, req: Request)

  ghost predicate Possible(moments: seq<Moment>) { forall m :: m in moments ==> Coherent(m.scene) }

  /** The answer to each request, the router after each, and what the tracker holds after all. */
  datatype Course = Course(answers: seq<Answer>, worlds: seq<R.World>, spent: Spent)

  /** These requests, with a new tracker. */
  ghost function After(cfg: Config, moments: seq<Moment>, texts: Stream.Texts, describe: Streaming.Describe): (c: Course)
    requires Possible(moments)
    ensures |c.answers| == |c.worlds| == |moments|
  {
    if moments == [] then Course([], [], Spent([], [])) else
      var last := moments[|moments| - 1];
      var before := After(cfg, moments[..|moments| - 1], texts, describe);
      var (answer, spent, world) := Handled(cfg, before.spent, last.scene, last.req, texts, describe);
      Course(before.answers + [answer], before.worlds + [world], spent)
  }

  /** What an answer adds to the log of costs. */
  function Charge(answer: Answer, at: Times): seq<Op>
  {
    if answer.Answered? && answer.meta.cost > 0.0 then [AddAt(at.record, answer.meta.cost)] else []
  }

  /** The window operations of these requests: one sum each, and one add for each whole answer that cost
      something. Nothing else reaches the windows. */
  function HourlyOps(moments: seq<Moment>, answers: seq<Answer>): seq<Op>
    requires |moments| == |answers|
  {
    if moments == [] then [] else
      var k := |moments| - 1;
      HourlyOps(moments[..k], answers[..k]) + [SumAt(moments[k].req.times.hourlyCheck)] + Charge(answers[k], moments[k].req.times)
  }

  function DailyOps(moments: seq<Moment>, answers: seq<Answer>): seq<Op>
    requires |moments| == |answers|
  {
    if moments == [] then [] else
      var k := |moments| - 1;
      DailyOps(moments[..k], answers[..k]) + [SumAt(moments[k].req.times.dailyCheck)] + Charge(answers[k], moments[k].req.times)
  }

  lemma RunSnoc(ops: seq<Op>, op: Op, windowSize: int, bucketSize: int)
    ensures Run(ops + [op], windowSize, bucketSize) == Apply(Run(ops, windowSize, bucketSize), op, windowSize, bucketSize)
  {
    assert (ops + [op])[..|ops|] == ops;
  }

  lemma RunCharged(ops: seq<Op>, check: int, answer: Answer, at: Times, windowSize: int, bucketSize: int)
    ensures Run(ops + [SumAt(check)] + Charge(answer, at), windowSize, bucketSize) ==
            var purged := Fresh(Run(ops, windowSize, bucketSize), check - windowSize);
            if answer.Answered? && answer.meta.cost > 0.0 then Added(purged, at.record, answer.meta.cost, windowSize, bucketSize) else purged
  {
    hide Run;
    RunSnoc(ops, SumAt(check), windowSize, bucketSize);
    if answer.Answered? && answer.meta.cost > 0.0 {
      RunSnoc(ops + [SumAt(check)], AddAt(at.record, answer.meta.cost), windowSize, bucketSize);
    } else {
      assert ops + [SumAt(check)] + [] == ops + [SumAt(check)];
    }
  }

  lemma HandledSpent(cfg: Config, spent: Spent, scene: Scene, req: Request, texts: Stream.Texts, describe: Streaming.Describe)
    requires Coherent(scene) && cfg.enabled
    ensures var (answer, spent', _) := Handled(cfg, spent, scene, req, texts, describe);
      var hourly, daily := Fresh(spent.hourly, req.times.hourlyCheck - HOUR), Fresh(spent.daily, req.times.dailyCheck - DAY);
      spent' == if answer.Answered? && answer.meta.cost > 0.0
                then Spent(Added(hourly, req.times.record, answer.meta.cost, HOUR, MINUTE), Added(daily, req.times.record, answer.meta.cost, DAY, HOUR))
                else Spent(hourly, daily)
  {
    hide Fresh, Added, Decide, Total, Executed, StreamReply;
  }

  /** Main result: after any requests a new tracker holds what its windows make of this log: the costs of
      the whole answers, at the times they were recorded, and nothing for refused, failed or streamed
      requests. What `SumIsLogTotal` and its like say about logs applies. */
  lemma {:induction false} BudgetSeesAnswersOnly(cfg: Config, moments: seq<Moment>, texts: Stream.Texts, describe: Streaming.Describe)
    requires Possible(moments) && cfg.enabled
    ensures var Course(answers, _, spent) := After(cfg, moments, texts, describe);
      && spent.hourly == Run(HourlyOps(moments, answers), HOUR, MINUTE)
      && spent.daily == Run(DailyOps(moments, answers), DAY, HOUR)
  {
    hide Handled, Run, Fresh, Added, Charge;
    if moments == [] {
      assert Run([], HOUR, MINUTE) == [] && Run([], DAY, HOUR) == [] by { NothingRun(); }
    } else {
      var k := |moments| - 1;
      var last, at := moments[k], moments[k].req.times;
      BudgetSeesAnswersOnly(cfg, moments[..k], texts, describe);
      var Course(before, _, spent) := After(cfg, moments[..k], texts, describe);
      var answers := After(cfg, moments, texts, describe).answers;
      assert answers[..k] == before;
      HandledSpent(cfg, spent, last.scene, last.req, texts, describe);
      RunCharged(HourlyOps(moments[..k], before), at.hourlyCheck, answers[k], at, HOUR, MINUTE);
      RunCharged(DailyOps(moments[..k], before), at.dailyCheck, answers[k], at, DAY, HOUR);
    }
  }

  lemma NothingRun()
    ensures Run([], HOUR, MINUTE) == [] && Run([], DAY, HOUR) == []
  {
  }

  /** Main result: however small its limits, a new tracker never refuses or charges a streamed request
      while all requests are streamed, whatever they cost the providers. */
  lemma {:induction false} StreamsAreFree(cfg: Config, moments: seq<Moment>, texts: Stream.Texts, describe: Streaming.Describe)
    requires Possible(moments) && forall m :: m in moments ==> m.req.streamed
    ensures var Course(answers, _, spent) := After(cfg, moments, texts, describe);
      spent == Spent([], []) && forall i :: 0 <= i < |answers| ==> answers[i].Streamed?
  {
    hide StreamReply, Executed;
    if moments != [] {
      StreamsAreFree(cfg, moments[..|moments| - 1], texts, describe);
      assert moments[|moments| - 1] in moments;
    }
  }
}
