/** The fallback chain of `ExecuteChat` (`internal/router/router.go`), seen from the request.

    What the rest of the system answers at each endpoint of the chain is an arbitrary function: whether
    the breaker says yes, whether a slot is obtained, and how the provider behaves. The results here hold
    for every such function, so also when other requests move the breakers and the slots in between.
    `Router.dfy` computes the answers from breakers and semaphores of its own. */
module Routing {
  import opened Wrappers
  import opened Retry

  /** The weight is configured but plays no part in routing. */
  datatype Endpoint = Endpoint(provider: string, model: string, weight: int)

  datatype Meta = Meta(provider: string, actualModel: string, retries: int, fallback: bool, cost: real)

  datatype Answer = Answer(allowed: bool, slot: bool, script: Script)

  /** What does not change while a request is routed. */
  datatype Site = Site(guarded: set<string>, providers: set<string>, retry: Retry.Config)

  /** Skipped without being executed; executed without result or error; answered; failed. */
  datatype Visit =
    | Skipped
    | Blank(attempts: int)
    | Won(attempts: int, response: Response)
    | Lost(attempts: int, error: Error)

  /** `place` is the position in the chain at which the breaker is asked or told. */
  datatype Event =
    | Asked(provider: string, place: nat, ok: bool)
    | GotSlot(provider: string)
    | Called(provider: string, times: nat)
    | FreedSlot(provider: string)
    | RecordedSuccess(provider: string, place: nat)
    | RecordedFailure(provider: string, place: nat)

  predicate Reached(site: Site, e: Endpoint, a: Answer)
  {
    (e.provider in site.guarded ==> a.allowed) && e.provider in site.providers && a.slot
  }

  /** What the retry loop makes of a provider. */
  function Attempted(retry: Retry.Config, script: Script): (v: Visit)
    ensures !v.Skipped?
  {
    var (result, attempts, err, _, _) := Run(retry, script);
    match err
    case Some(error) => Lost(attempts, error)
    case None => if result.Some? then Won(attempts, result.value) else Blank(attempts)
  }

  function VisitOf(site: Site, e: Endpoint, a: Answer): Visit
  {
    if Reached(site, e, a) then Attempted(site.retry, a.script) else Skipped
  }

  function Recorded(site: Site, p: string, i: nat, v: Visit): seq<Event>
  {
    if p !in site.guarded then [] else
      match v
      case Won(_, _) => [RecordedSuccess(p, i)]
      case Lost(_, _) => [RecordedFailure(p, i)]
      case _ => []
  }

  function EventsOf(site: Site, e: Endpoint, i: nat, a: Answer): seq<Event>
  {
    var p := e.provider;
    (if p in site.guarded then [Asked(p, i, a.allowed)] else [])
    + if !Reached(site, e, a) then []
      else [GotSlot(p), Called(p, Run(site.retry, a.script).3), FreedSlot(p)] + Recorded(site, p, i, VisitOf(site, e, a))
  }

  // ---- the chain, one endpoint at a time ---------------------------------------------------

  function RetriesOf(v: Visit): int { if v.Skipped? then 0 else v.attempts - 1 }

  function RetriesUpTo(site: Site, chain: seq<Endpoint>, answers: nat -> Answer, k: nat): int
    requires k <= |chain|
  {
    if k == 0 then 0
    else RetriesUpTo(site, chain, answers, k - 1) + RetriesOf(VisitOf(site, chain[k - 1], answers(k - 1)))
  }

  function LastError(site: Site, chain: seq<Endpoint>, answers: nat -> Answer, k: nat): Option<Error>
    requires k <= |chain|
  {
    if k == 0 then None else
      var v := VisitOf(site, chain[k - 1], answers(k - 1));
      if v.Lost? then Some(v.error) else LastError(site, chain, answers, k - 1)
  }

  function EventsUpTo(site: Site, chain: seq<Endpoint>, answers: nat -> Answer, k: nat): seq<Event>
    requires k <= |chain|
  {
    if k == 0 then []
    else EventsUpTo(site, chain, answers, k - 1) + EventsOf(site, chain[k - 1], k - 1, answers(k - 1))
  }

  /** The first endpoint from `k` on that answers, or the length of the chain. */
  function Winner(site: Site, chain: seq<Endpoint>, answers: nat -> Answer, k: nat): (w: nat)
    requires k <= |chain|
    ensures k <= w <= |chain|
    ensures w < |chain| ==> VisitOf(site, chain[w], answers(w)).Won?
    ensures forall j :: k <= j < w ==> !VisitOf(site, chain[j], answers(j)).Won?
    decreases |chain| - k
  {
    if k == |chain| || VisitOf(site, chain[k], answers(k)).Won? then k else Winner(site, chain, answers, k + 1)
  }

  datatype Result = Served(response: Response, meta: Meta) | AllFailed(meta: Meta, lastErr: Option<Error>) | UnknownModel

  function Route(site: Site, chain: seq<Endpoint>, answers: nat -> Answer): (Result, seq<Event>)
  {
    var w := Winner(site, chain, answers, 0);
    if w == |chain| then
      (AllFailed(Meta("", "", RetriesUpTo(site, chain, answers, w), false, 0.0), LastError(site, chain, answers, w)),
       EventsUpTo(site, chain, answers, w))
    else
      var v := VisitOf(site, chain[w], answers(w));
      (Served(v.response, Meta(chain[w].provider, chain[w].model, RetriesUpTo(site, chain, answers, w + 1), w > 0, v.response.cost)),
       EventsUpTo(site, chain, answers, w + 1))
  }

  /** One more endpoint, for the loop that walks the chain. */
  lemma PrefixStep(site: Site, chain: seq<Endpoint>, answers: nat -> Answer, k: nat)
    requires k < |chain|
    ensures var v := VisitOf(site, chain[k], answers(k));
      && RetriesUpTo(site, chain, answers, k + 1) == RetriesUpTo(site, chain, answers, k) + RetriesOf(v)
      && LastError(site, chain, answers, k + 1) == (if v.Lost? then Some(v.error) else LastError(site, chain, answers, k))
      && EventsUpTo(site, chain, answers, k + 1) == EventsUpTo(site, chain, answers, k) + EventsOf(site, chain[k], k, answers(k))
      && Winner(site, chain, answers, k) == if v.Won? then k else Winner(site, chain, answers, k + 1)
  {
  }

  /** How many endpoints of the chain a request visits. */
  function Visited(site: Site, chain: seq<Endpoint>, answers: nat -> Answer): nat
  {
    var w := Winner(site, chain, answers, 0);
    if w == |chain| then w else w + 1
  }
}
