/** Which chat requests are refused, and what becomes of the others. */
module ChatLaws {
  import opened Wrappers
  import opened RollingWindow
  import opened WindowHistory
  import opened BudgetTracker
  import opened Chat
  import Retry
  import Routing
  import Laws = RoutingLaws
  import EventStream
  import Stream
  import Streaming
  import R = Router

  // ---- refusals ----------------------------------------------------------------------------

  /** The costs of the first `k` requests, as logged in each window. */
  function HourlyLog(moments: seq<Moment>, answers: seq<Answer>, k: nat): seq<Op>
    requires k <= |moments| == |answers|
  {
    HourlyOps(moments[..k], answers[..k])
  }

  function DailyLog(moments: seq<Moment>, answers: seq<Answer>, k: nat): seq<Op>
    requires k <= |moments| == |answers|
  {
    DailyOps(moments[..k], answers[..k])
  }

  lemma {:induction false} PrefixOfCourse(cfg: Config, moments: seq<Moment>, k: nat, texts: Stream.Texts, describe: Streaming.Describe)
    requires Possible(moments) && k <= |moments|
    ensures var c, front := After(cfg, moments, texts, describe), After(cfg, moments[..k], texts, describe);
      c.answers[..k] == front.answers && c.worlds[..k] == front.worlds
  {
    hide Handled;
    if k < |moments| {
      var n := |moments| - 1;
      PrefixOfCourse(cfg, moments[..n], k, texts, describe);
      assert moments[..n][..k] == moments[..k];
      var c, before := After(cfg, moments, texts, describe), After(cfg, moments[..n], texts, describe);
      assert c.answers[..k] == before.answers[..k] && c.worlds[..k] == before.worlds[..k];
    } else {
      assert moments[..k] == moments;
    }
  }

  /** One request against what is in the windows when it is checked. */
  lemma CheckedAgainst(cfg: Config, spent: Spent, scene: Scene, req: Request, texts: Stream.Texts, describe: Streaming.Describe)
    requires Coherent(scene)
    ensures var (answer, _, world) := Handled(cfg, spent, scene, req, texts, describe);
      var hourly := Total(Fresh(spent.hourly, req.times.hourlyCheck - HOUR));
      var daily := Total(Fresh(spent.daily, req.times.dailyCheck - DAY));
      var overHour, overDay := cfg.maxPerHour > 0.0 && hourly >= cfg.maxPerHour, cfg.maxPerDay > 0.0 && daily >= cfg.maxPerDay;
      && (answer.OverBudget? <==> cfg.enabled && cfg.actionOnExceeded == Reject && (overHour || overDay))
      && (answer.OverBudget? ==> world == scene.world && answer.notice == if overHour then HourlyExceeded else DailyExceeded)
      && (!answer.OverBudget? ==> (answer, world) == Served(scene, req, texts, describe))
  {
    hide Total, Fresh, StreamReply, Executed;
  }

  /** Main result, over every sequence of requests in any clock order: a request is refused exactly when the
      budget is enabled, rejects, and has a positive limit that what survives of the log in that window has
      reached when it is checked. A refused request leaves breakers and slots alone and is told the limit, the
      hourly one first; every other request is served. */
  lemma {:induction false} RefusedIff(cfg: Config, moments: seq<Moment>, k: nat, texts: Stream.Texts, describe: Streaming.Describe)
    requires Possible(moments) && k < |moments|
    ensures var Course(answers, worlds, _) := After(cfg, moments, texts, describe);
      var Moment(scene, req) := moments[k];
      var hourly := Surviving(HourlyLog(moments, answers, k), req.times.hourlyCheck, HOUR, MINUTE);
      var daily := Surviving(DailyLog(moments, answers, k), req.times.dailyCheck, DAY, HOUR);
      var overHour, overDay := cfg.maxPerHour > 0.0 && hourly >= cfg.maxPerHour, cfg.maxPerDay > 0.0 && daily >= cfg.maxPerDay;
      && (answers[k].OverBudget? <==> cfg.enabled && cfg.actionOnExceeded == Reject && (overHour || overDay))
      && (answers[k].OverBudget? ==> worlds[k] == scene.world && answers[k].notice == if overHour then HourlyExceeded else DailyExceeded)
      && (!answers[k].OverBudget? ==> (answers[k], worlds[k]) == Served(scene, req, texts, describe))
  {
    hide Handled, Served, Total, Fresh, Surviving, HourlyOps, DailyOps;
    var Moment(scene, req) := moments[k];
    assert moments[k] in moments;
    PrefixOfCourse(cfg, moments, k, texts, describe);
    PrefixOfCourse(cfg, moments, k + 1, texts, describe);
    assert moments[..k + 1][..k] == moments[..k];
    var spent := After(cfg, moments[..k], texts, describe).spent;
    var c := After(cfg, moments[..k + 1], texts, describe);
    assert After(cfg, moments, texts, describe).answers[k] == c.answers[k];
    assert After(cfg, moments, texts, describe).worlds[k] == c.worlds[k];
    CheckedAgainst(cfg, spent, scene, req, texts, describe);
    if cfg.enabled {
      var answers := After(cfg, moments, texts, describe).answers;
      BudgetSeesAnswersOnly(cfg, moments[..k], texts, describe);
      SumIsSurvivingLog(HourlyLog(moments, answers, k), req.times.hourlyCheck, HOUR, MINUTE);
      SumIsSurvivingLog(DailyLog(moments, answers, k), req.times.dailyCheck, DAY, HOUR);
    }
  }

  /** Nothing about these requests happened after `now`. */
  ghost predicate Past(moments: seq<Moment>, now: int)
  {
    forall m :: m in moments ==> m.req.times.hourlyCheck <= now && m.req.times.dailyCheck <= now && m.req.times.record <= now
  }

  lemma {:induction false} LogsAreSane(moments: seq<Moment>, answers: seq<Answer>, now: int)
    requires |moments| == |answers| && Past(moments, now)
    ensures SaneLog(HourlyOps(moments, answers), now) && SaneLog(DailyOps(moments, answers), now)
  {
    if moments != [] {
      var k := |moments| - 1;
      assert moments[k] in moments;
      LogsAreSane(moments[..k], answers[..k], now);
    }
  }

  /** Main result, when the clock does not go back: the totals that decide are those of the plain log. So a
      request is refused whenever the exact spend of the last 59 minutes has reached the hourly limit, or that
      of the last 23 hours the daily one, and only if that of the last hour or day has. */
  lemma {:induction false} RefusedIffLogTotal(cfg: Config, moments: seq<Moment>, k: nat, texts: Stream.Texts, describe: Streaming.Describe)
    requires Possible(moments) && k < |moments| && cfg.enabled && cfg.actionOnExceeded == Reject
    requires moments[k].req.times.hourlyCheck <= moments[k].req.times.dailyCheck && Past(moments[..k], moments[k].req.times.hourlyCheck)
    ensures var answers := After(cfg, moments, texts, describe).answers;
      var hourly, daily := HourlyLog(moments, answers, k), DailyLog(moments, answers, k);
      var first, second := moments[k].req.times.hourlyCheck, moments[k].req.times.dailyCheck;
      && (answers[k].OverBudget? <==>
            || (cfg.maxPerHour > 0.0 && LogTotal(hourly, first - HOUR, MINUTE) >= cfg.maxPerHour)
            || (cfg.maxPerDay > 0.0 && LogTotal(daily, second - DAY, HOUR) >= cfg.maxPerDay))
      && (cfg.maxPerHour > 0.0 && SpendSince(hourly, first - 59 * MINUTE) >= cfg.maxPerHour ==> answers[k].OverBudget?)
      && (cfg.maxPerDay > 0.0 && SpendSince(daily, second - 23 * HOUR) >= cfg.maxPerDay ==> answers[k].OverBudget?)
      && (answers[k].OverBudget? ==>
            || (cfg.maxPerHour > 0.0 && SpendSince(hourly, first - HOUR) >= cfg.maxPerHour)
            || (cfg.maxPerDay > 0.0 && SpendSince(daily, second - DAY) >= cfg.maxPerDay))
  {
    hide Handled, Served, Surviving, LogTotal, SpendSince, HourlyOps, DailyOps, After;
    var answers := After(cfg, moments, texts, describe).answers;
    var first, second := moments[k].req.times.hourlyCheck, moments[k].req.times.dailyCheck;
    RefusedIff(cfg, moments, k, texts, describe);
    LogsAreSane(moments[..k], answers[..k], first);
    LogsAreSane(moments[..k], answers[..k], second);
    SurvivingInOrder(HourlyLog(moments, answers, k), first, HOUR, MINUTE);
    SurvivingInOrder(DailyLog(moments, answers, k), second, DAY, HOUR);
    LogTotalBounds(HourlyLog(moments, answers, k), first, HOUR, MINUTE);
    LogTotalBounds(DailyLog(moments, answers, k), second, DAY, HOUR);
  }

  // ---- admitted requests -------------------------------------------------------------------

  /** Main result: only the entry of a configured name matters to its requests, and only the default entry to
      those of any other name; other entries, the default one among them, may change as they like. */
  lemma OwnEntryDecides(scene: Scene, models: map<string, R.ModelConfig>, req: Request, texts: Stream.Texts, describe: Streaming.Describe)
    requires Coherent(scene)
    requires (req.model in models <==> req.model in scene.models)
    requires if req.model in models then models[req.model] == scene.models[req.model]
             else ("default" in models <==> "default" in scene.models)
                  && ("default" in models ==> models["default"] == scene.models["default"])
    ensures Served(scene.(models := models), req, texts, describe) == Served(scene, req, texts, describe)
  {
    hide R.WorldAt, R.Answers, Routing.Route, Routing.Visited, R.OneAttempt, R.Opening, Streaming.SentFor, Streaming.StreamOf, Streaming.HandledWorld;
  }

  /** Main result: an admitted chat request is answered exactly when some endpoint of its name's own chain works,
      by the least that does; with no entry and no default it fails and touches nothing. */
  lemma AnsweredIffWorks(scene: Scene, req: Request, entry: R.ModelConfig, texts: Stream.Texts, describe: Streaming.Describe)
    requires Coherent(scene) && !req.streamed && scene.site.retry.maxAttempts >= 1
    ensures req.model !in scene.models && "default" !in scene.models ==>
      Served(scene, req, texts, describe) == (ProviderError(Routing.UnknownModel), scene.world)
    ensures var (answer, world) := Served(scene, req, texts, describe);
      var chain := [entry.primary] + entry.fallbacks;
      var answers := R.Answers(scene.world, scene.site, chain, req.env);
      R.IsEntry(scene.models, req.model, entry) ==>
      && (answer.Answered? <==> exists j :: 0 <= j < |chain| && Laws.Works(scene.site, chain[j], answers(j)))
      && (answer.Answered? || answer.ProviderError?)
      && (forall w: nat :: Laws.LeastWorking(scene.site, chain, answers, w) ==>
            answer.Answered? && answer.meta.provider == chain[w].provider && answer.meta.actualModel == chain[w].model)
      && world == R.WorldAt(scene.world, scene.site, chain, req.env, Routing.Visited(scene.site, chain, answers))
  {
    hide R.WorldAt, R.Answers, Routing.Route, Routing.Visited, Laws.Works, Laws.ExtraAttempts;
    R.ChainForIs(scene.models, req.model);
    var chain := [entry.primary] + entry.fallbacks;
    Laws.AnswersFromLeastWorking(scene.site, chain, R.Answers(scene.world, scene.site, chain, req.env));
  }

  /** Main result: an admitted streamed request is turned down without touching anything on a writer that
      cannot flush; on any other its client reads what its name's own chain brings, and the router is left as
      that chain leaves it. */
  lemma StreamedReads(scene: Scene, req: Request, entry: R.ModelConfig, texts: Stream.Texts, describe: Streaming.Describe)
    requires Coherent(scene) && req.streamed && R.IsEntry(scene.models, req.model, entry)
    requires Stream.CleanTexts(texts) && forall m :: texts.encode(m) != Stream.DONE
    requires forall i: nat :: req.opens(i).Opened? && req.opens(i).stream.Some? ==> Stream.CleanTurns(req.opens(i).stream.value)
    ensures var (answer, world) := Served(scene, req, texts, describe);
      var chain := [entry.primary] + entry.fallbacks;
      && answer.Streamed?
      && (!req.flushes ==> answer.reply == Streaming.NotSupported && world == scene.world)
      && (req.flushes ==>
            && answer.reply.Events?
            && Streaming.ReadsAlong(scene.world, scene.site, chain, req.env, req.opens, texts, describe, EventStream.Parse(answer.reply.text))
            && world == Streaming.HandledWorld(scene.world, R.OneAttempt(scene.site), chain, R.Opening(req.env, req.opens), req.opens))
  {
    hide R.WorldAt, R.Answers, R.StreamWorld, Streaming.HandledWorld, Routing.Route, EventStream.Parse, EventStream.Frames,
         R.OneAttempt, R.Opening, Streaming.StreamOf, Streaming.ReadsAlong, Streaming.SentFor;
    R.ChainForIs(scene.models, req.model);
    Streaming.ClientReads(scene.world, scene.site, scene.models, req.model, entry, req.env, req.opens, texts, describe);
  }
}
