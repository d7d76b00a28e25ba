/** The streaming handler (`internal/server/handlers.go`): what it writes and what becomes of the slot
    that the router left to it. */
module Streaming {
  import opened Wrappers
  import opened Retry
  import opened Routing
  import opened EventStream
  import opened Stream
  import CB = CircuitBreaker
  import R = Router

  /** A writer that cannot flush gets an ordinary error answer instead of a stream. */
  datatype Reply = NotSupported | Events(text: string)

  /** The message of a request that opened no stream. */
  type Describe = Result -> string

  /** What the client is sent, given how the request was routed. */
  function SentFor(texts: Texts, describe: Describe, r: Result, stream: Option<Turns>): seq<string>
  {
    if !r.Served? then [texts.encode(describe(r)), DONE]
    else if stream == None then [texts.encode(NO_STREAM), DONE]
    else Payloads(texts, stream.value)
  }

  /** The stream of the endpoint that opened one. */
  function StreamOf(site: Site, chain: seq<Endpoint>, answers: nat -> Answer, opens: nat -> Open): Option<Turns>
  {
    var w := Winner(site, chain, answers, 0);
    if w < |chain| && opens(w).Opened? then opens(w).stream else None
  }

  /** The world after the handler is done. */
  function HandledWorld(w: R.World, site: Site, chain: seq<Endpoint>, env: R.Env, opens: nat -> Open): R.World
    requires R.Consistent(w) && site.guarded == w.cores.Keys
  {
    var answers := R.Answers(w, site, chain, env);
    if StreamOf(site, chain, answers, opens).Some?
    then R.WorldAt(w, site, chain, env, Visited(site, chain, answers))
    else R.StreamWorld(w, site, chain, env)
  }

  method WriteError(texts: Texts, message: string) returns (text: string)
    ensures text == Frames([texts.encode(message), DONE])
  {
    assert [] + [texts.encode(message)] + [DONE] == [texts.encode(message), DONE];
    text := Finish("", [], Some(texts.encode(message)));
  }

  /** Giving the slot back makes up for the one that the router kept. */
  lemma ClosingRestores(w: R.World, site: Site, chain: seq<Endpoint>, env: R.Env)
    requires R.Consistent(w) && site.guarded == w.cores.Keys
    requires Winner(site, chain, R.Answers(w, site, chain, env), 0) < |chain|
    ensures var k := Winner(site, chain, R.Answers(w, site, chain, env), 0);
      var p, held := chain[k].provider, R.StreamWorld(w, site, chain, env);
      && p in held.slots && held.slots[p] > 0
      && held.(slots := held.slots[p := held.slots[p] - 1]) == R.WorldAt(w, site, chain, env, k + 1)
  {
    hide R.WorldAt, R.AnswerAt, R.AnswerIn, R.After, VisitOf, Winner, EventsOf, EventsUpTo;
    var k := Winner(site, chain, R.Answers(w, site, chain, env), 0);
    R.StepOfWalk(w, site, chain, env, k);
    WinnerIsReached(R.WorldAt(w, site, chain, env, k), site, chain[k], env, k);
  }

  lemma WinnerIsReached(w: R.World, site: Site, e: Endpoint, env: R.Env, i: nat)
    requires R.Consistent(w) && site.guarded == w.cores.Keys
    requires VisitOf(site, e, R.AnswerIn(w, e, env, i)).Won?
    ensures e.provider in R.After(w, site, e, env, i).slots
  {
    hide CB.AllowStep, R.CoreAfter, Attempted;
  }

  /** Relays the stream and gives its slot back. Without a stream the handler returns before it has
      arranged for that. */
  method Serve(router: R.Router, result: R.StreamResult, texts: Texts) returns (text: string)
    requires router.Valid() && result.provider in router.semaphores && result.sem == router.semaphores[result.provider]
    requires router.View().slots[result.provider] > 0
    modifies result.sem
    ensures router.Valid()
    ensures text == Frames(if result.stream == None then [texts.encode(NO_STREAM), DONE] else Payloads(texts, result.stream.value))
    ensures var w := old(router.View());
      router.View() == if result.stream == None then w
                       else w.(slots := w.slots[result.provider := w.slots[result.provider] - 1])
  {
    hide Payloads, Frames, R.Router.Cores, R.Router.Configs, R.Router.Slots;
    if result.stream == None {
      text := WriteError(texts, NO_STREAM);
    } else {
      text := Relay(texts, result.stream.value);
      router.GiveBack(result.sem, result.provider);
    }
  }

  /** What is sent and the world that is left, for a request on a writer that can flush. */
  ghost function Outcome(w: R.World, site: Site, models: map<string, R.ModelConfig>, model: string, env: R.Env,
                         opens: nat -> Open, texts: Texts, describe: Describe): (seq<string>, R.World)
    requires R.Consistent(w) && site.guarded == w.cores.Keys
  {
    match R.ChainFor(models, model)
    case None => ([texts.encode(describe(UnknownModel)), DONE], w)
    case Some(chain) =>
      var site', opening := R.OneAttempt(site), R.Opening(env, opens);
      var answers := R.Answers(w, site', chain, opening);
      (SentFor(texts, describe, Route(site', chain, answers).0, StreamOf(site', chain, answers, opens)),
       HandledWorld(w, site', chain, opening, opens))
  }

  /** What is left to do once the router has found an endpoint. */
  lemma Remaining(w: R.World, site: Site, models: map<string, R.ModelConfig>, model: string, env: R.Env,
                  opens: nat -> Open, texts: Texts, describe: Describe, stream: Option<Turns>)
    requires R.Consistent(w) && site.guarded == w.cores.Keys && R.ChainFor(models, model).Some?
    requires var chain := R.ChainFor(models, model).value;
      var k := Winner(R.OneAttempt(site), chain, R.Answers(w, R.OneAttempt(site), chain, R.Opening(env, opens)), 0);
      k < |chain| && opens(k) == Opened(stream)
    ensures var chain, site', opening := R.ChainFor(models, model).value, R.OneAttempt(site), R.Opening(env, opens);
      var p := chain[Winner(site', chain, R.Answers(w, site', chain, opening), 0)].provider;
      var held := R.StreamWorld(w, site', chain, opening);
      && p in held.slots && held.slots[p] > 0
      && Outcome(w, site, models, model, env, opens, texts, describe) ==
           if stream == None then ([texts.encode(NO_STREAM), DONE], held)
           else (Payloads(texts, stream.value), held.(slots := held.slots[p := held.slots[p] - 1]))
  {
    hide R.WorldAt, R.AnswerAt, R.StreamWorld, VisitOf, Winner, EventsOf, EventsUpTo, Payloads, R.ChainFor;
    ClosingRestores(w, R.OneAttempt(site), R.ChainFor(models, model).value, R.Opening(env, opens));
  }

  lemma NothingRemains(w: R.World, site: Site, models: map<string, R.ModelConfig>, model: string, env: R.Env,
                       opens: nat -> Open, texts: Texts, describe: Describe)
    requires R.Consistent(w) && site.guarded == w.cores.Keys && R.ChainFor(models, model).Some?
    requires var chain := R.ChainFor(models, model).value;
      !Route(R.OneAttempt(site), chain, R.Answers(w, R.OneAttempt(site), chain, R.Opening(env, opens))).0.Served?
    ensures var chain, site', opening := R.ChainFor(models, model).value, R.OneAttempt(site), R.Opening(env, opens);
      var r := Route(site', chain, R.Answers(w, site', chain, opening)).0;
      Outcome(w, site, models, model, env, opens, texts, describe) ==
        ([texts.encode(describe(r)), DONE], R.StreamWorld(w, site', chain, opening))
  {
    hide R.WorldAt, R.AnswerAt, VisitOf, R.ChainFor;
  }

  method HandleStreamingChat(router: R.Router, model: string, env: R.Env, opens: nat -> Open, flushes: bool,
                             texts: Texts, describe: Describe)
    returns (answer: Reply)
    requires router.Valid()
    modifies router`semaphores, router.breakers.Values, router.semaphores.Values
    ensures router.Valid()
    ensures !flushes ==> answer == NotSupported && router.View() == old(router.View())
    ensures flushes ==>
      var (sent, end) := Outcome(old(router.View()), old(router.Site()), router.models, model, env, opens, texts, describe);
      answer == Events(Frames(sent)) && router.View() == end
  {
    hide R.WorldAt, R.StreamWorld, R.Answers, Winner, VisitOf, R.Opening, R.OneAttempt, Route, Outcome, Frames, Payloads,
         R.Router.Cores, R.Router.Configs, R.Router.Slots, R.Router.View, R.Router.Valid, R.ChainFor;
    if !flushes {
      return NotSupported;
    }
    ghost var was, site := router.View(), router.Site();
    R.OpeningKeeps(site, env, opens, 0);
    R.ChainForIs(router.models, model);
    var r, result := router.ExecuteChatStream(model, env, opens);
    var text;
    if result == None {
      text := WriteError(texts, describe(r));
      if R.ChainFor(router.models, model).Some? {
        NothingRemains(was, site, router.models, model, env, opens, texts, describe);
      } else {
        UnknownOutcome(was, site, router.models, model, env, opens, texts, describe);
      }
    } else {
      Remaining(was, site, router.models, model, env, opens, texts, describe, result.value.stream);
      text := Serve(router, result.value, texts);
    }
    return Events(text);
  }

  lemma UnknownOutcome(w: R.World, site: Site, models: map<string, R.ModelConfig>, model: string, env: R.Env,
                       opens: nat -> Open, texts: Texts, describe: Describe)
    requires R.Consistent(w) && site.guarded == w.cores.Keys && R.ChainFor(models, model) == None
    ensures Outcome(w, site, models, model, env, opens, texts, describe) == ([texts.encode(describe(UnknownModel)), DONE], w)
  {
  }

  /** The breaker admits, the provider exists, a slot is obtained, and the stream is opened. */
  predicate Opens(site: Site, e: Endpoint, a: Answer, open: Open) { Reached(site, e, a) && open.Opened? }

  ghost predicate LeastOpening(site: Site, chain: seq<Endpoint>, answers: nat -> Answer, opens: nat -> Open, w: nat)
  {
    w < |chain| && Opens(site, chain[w], answers(w), opens(w)) && forall j :: 0 <= j < w ==> !Opens(site, chain[j], answers(j), opens(j))
  }

  lemma VisitOpens(w: R.World, site: Site, chain: seq<Endpoint>, env: R.Env, opens: nat -> Open, i: nat)
    requires R.Consistent(w) && site.guarded == w.cores.Keys && i < |chain|
    ensures var a := R.Answers(w, R.OneAttempt(site), chain, R.Opening(env, opens))(i);
      VisitOf(R.OneAttempt(site), chain[i], a) == if Reached(site, chain[i], a) then R.OpenVisit(opens(i)) else Skipped
  {
    R.OpeningKeeps(site, env, opens, i);
    R.OneShotVisit(site, opens(i));
    hide R.OneShot, R.Opening, R.OneAttempt, R.WorldAt, Attempted, R.OpenVisit;
  }

  /** Main result: a stream comes from the least endpoint that is reached and opens one, if there is any. */
  lemma StreamsFromLeastOpening(w: R.World, site: Site, chain: seq<Endpoint>, env: R.Env, opens: nat -> Open)
    requires R.Consistent(w) && site.guarded == w.cores.Keys
    ensures var answers := R.Answers(w, R.OneAttempt(site), chain, R.Opening(env, opens));
      var r := Route(R.OneAttempt(site), chain, answers).0;
      && (r.Served? <==> exists j :: 0 <= j < |chain| && Opens(site, chain[j], answers(j), opens(j)))
      && forall k: nat :: LeastOpening(site, chain, answers, opens, k) ==>
           && r.Served? && r.meta == Meta(chain[k].provider, chain[k].model, 0, k > 0, 0.0)
           && StreamOf(R.OneAttempt(site), chain, answers, opens) == opens(k).stream
  {
    hide R.Answers, R.OneAttempt, R.Opening, R.OpenVisit, VisitOf, Route, Winner, R.StreamWorld, Reached;
    R.OpeningKeeps(site, env, opens, 0);
    var site', opening := R.OneAttempt(site), R.Opening(env, opens);
    var answers := R.Answers(w, site', chain, opening);
    var k := Winner(site', chain, answers, 0);
    R.EndOfStream(w, site', chain, opening, k);
    forall j | 0 <= j < |chain|
      ensures Opens(site, chain[j], answers(j), opens(j)) <==> VisitOf(site', chain[j], answers(j)).Won?
      ensures VisitOf(site', chain[j], answers(j)).Won? ==> VisitOf(site', chain[j], answers(j)) == Won(1, R.OPENED)
    {
      VisitOpens(w, site, chain, env, opens, j);
    }
    forall u: nat | LeastOpening(site, chain, answers, opens, u) ensures u == k {
      assert !(u < k) && !(k < u);
    }
  }

  /** Main result: whatever slots are in use before a streamed request, the same are in use after it,
      exactly when the provider that answered handed over a stream. Without one the slot is lost. */
  lemma SlotsReturnedIff(w: R.World, site: Site, chain: seq<Endpoint>, env: R.Env, opens: nat -> Open)
    requires R.Consistent(w) && site.guarded == w.cores.Keys
    ensures var answers := R.Answers(w, site, chain, env);
      var k := Winner(site, chain, answers, 0);
      var end := HandledWorld(w, site, chain, env, opens);
      (forall p :: R.SlotsOf(end, p) == R.SlotsOf(w, p)) <==> (k < |chain| ==> StreamOf(site, chain, answers, opens).Some?)
  {
    hide R.WorldAt, R.AnswerAt, Winner, VisitOf;
    var answers := R.Answers(w, site, chain, env);
    var n := Visited(site, chain, answers);
    forall p ensures R.SlotsOf(R.WorldAt(w, site, chain, env, n), p) == R.SlotsOf(w, p) {
      R.SlotsConserved(w, site, chain, env, n, p);
    }
    var k := Winner(site, chain, answers, 0);
    if k < |chain| && StreamOf(site, chain, answers, opens) == None {
      var p := chain[k].provider;
      assert R.SlotsOf(HandledWorld(w, site, chain, env, opens), p) == R.SlotsOf(w, p) + 1;
    }
  }

  /** What is read for a request along this chain: the error of the routing when no endpoint opens a stream, a
      fixed one when the least that does hands over none, and otherwise its stream. */
  ghost predicate ReadsAlong(w: R.World, site: Site, chain: seq<Endpoint>, env: R.Env, opens: nat -> Open, texts: Texts,
                             describe: Describe, events: seq<string>)
    requires R.Fits(w, site)
  {
    var answers := R.Answers(w, R.OneAttempt(site), chain, R.Opening(env, opens));
    && ((forall j :: 0 <= j < |chain| ==> !Opens(site, chain[j], answers(j), opens(j))) ==>
          events == [texts.encode(describe(Route(R.OneAttempt(site), chain, answers).0)), "[DONE]"])
    && forall k: nat :: LeastOpening(site, chain, answers, opens, k) ==>
         if opens(k).stream == None then events == [texts.encode("internal error: stream initialization failed"), "[DONE]"]
         else ReadsAs(texts, opens(k).stream.value, events)
  }

  /** Main result: what the client of a request on a flushing writer reads, on every exit. */
  lemma ClientReads(w: R.World, site: Site, models: map<string, R.ModelConfig>, model: string, entry: R.ModelConfig,
                    env: R.Env, opens: nat -> Open, texts: Texts, describe: Describe)
    requires R.Fits(w, site)
    requires CleanTexts(texts) && forall m :: texts.encode(m) != DONE
    requires forall i: nat :: opens(i).Opened? && opens(i).stream.Some? ==> CleanTurns(opens(i).stream.value)
    ensures model !in models && "default" !in models ==>
      Parse(Frames(Outcome(w, site, models, model, env, opens, texts, describe).0)) == [texts.encode(describe(UnknownModel)), "[DONE]"]
    ensures R.IsEntry(models, model, entry) ==>
      ReadsAlong(w, site, [entry.primary] + entry.fallbacks, env, opens, texts, describe,
                 Parse(Frames(Outcome(w, site, models, model, env, opens, texts, describe).0)))
  {
    hide R.WorldAt, R.Answers, R.StreamWorld, HandledWorld, VisitOf, Winner, Route, Payloads, Parse, Frames, Breakless, R.OneAttempt,
         R.Opening, StreamOf, ReadsAs, Reached, CleanTurns;
    R.ChainForIs(models, model);
    StreamsFromLeastOpening(w, site, [entry.primary] + entry.fallbacks, env, opens);
    forall message ensures Parse(Frames([texts.encode(message), DONE])) == [texts.encode(message), DONE] {
      DoneIsClean();
      RoundTripIff([texts.encode(message), DONE]);
    }
    forall turns | CleanTurns(turns) ensures ReadsAs(texts, turns, Parse(Frames(Payloads(texts, turns)))) {
      ClientSees(texts, turns);
    }
  }

  /** However a request on a flushing writer ends, its client reads the end mark once, and last. */
  lemma EveryAnswerEnds(w: R.World, site: Site, models: map<string, R.ModelConfig>, model: string, env: R.Env,
                        opens: nat -> Open, texts: Texts, describe: Describe)
    requires R.Consistent(w) && site.guarded == w.cores.Keys
    requires CleanTexts(texts) && forall m :: texts.encode(m) != DONE
    requires forall i: nat :: opens(i).Opened? && opens(i).stream.Some? ==> CleanTurns(opens(i).stream.value)
    ensures var events := Parse(Frames(Outcome(w, site, models, model, env, opens, texts, describe).0));
      |events| > 0 && forall i :: 0 <= i < |events| ==> (events[i] == DONE <==> i == |events| - 1)
  {
    hide R.WorldAt, R.AnswerAt, R.StreamWorld, VisitOf, Winner, Route, Payloads, Parse, Frames, Breakless;
    var sent := Outcome(w, site, models, model, env, opens, texts, describe).0;
    if turns :| CleanTurns(turns) && sent == Payloads(texts, turns) {
      ClientSees(texts, turns);
    } else {
      DoneIsClean();
      RoundTripIff(sent);
    }
  }
}
