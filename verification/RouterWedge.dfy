/** How requests of the router can leave a half-open breaker refusing its provider for good. */
module RouterWedge {
  import opened Wrappers
  import opened Retry
  import opened Routing
  import opened Router
  import CB = CircuitBreaker
  import Stream
  import Streaming

  datatype Request = Request(chain: seq<Endpoint>, env: Env)

  /** The world a request leaves behind; see `Router.ExecuteChat`. */
  function Served(w: World, site: Site, req: Request): (w': World)
    requires Fits(w, site)
    ensures Fits(w', site)
  {
    WorldAt(w, site, req.chain, req.env, Visited(site, req.chain, Answers(w, site, req.chain, req.env)))
  }

  function ServedAll(w: World, site: Site, reqs: seq<Request>): (w': World)
    requires Fits(w, site)
    ensures Fits(w', site)
  {
    if reqs == [] then w else Served(ServedAll(w, site, reqs[..|reqs| - 1]), site, reqs[|reqs| - 1])
  }

  // ---- nothing gets past a wedged breaker --------------------------------------------------

  predicate Wedged(w: World, p: string)
    requires Consistent(w)
  {
    p in w.cores && w.cores[p].state == CB.HalfOpen && w.cores[p].halfOpenRequests >= CB.Limit(w.configs[p])
  }

  lemma AfterWedged(w: World, site: Site, e: Endpoint, env: Env, i: nat, p: string)
    requires Fits(w, site) && Wedged(w, p)
    ensures var w' := After(w, site, e, env, i);
      w'.cores[p] == w.cores[p] && w'.configs == w.configs
    ensures e.provider == p ==> VisitOf(site, e, AnswerIn(w, e, env, i)) == Skipped
  {
    hide Attempted;
  }

  lemma {:induction false} WalkWedged(w: World, site: Site, chain: seq<Endpoint>, env: Env, k: nat, p: string)
    requires Fits(w, site) && Wedged(w, p) && k <= |chain|
    ensures var w' := WorldAt(w, site, chain, env, k);
      Wedged(w', p) && w'.cores[p] == w.cores[p] && w'.configs == w.configs
  {
    hide After;
    if k > 0 {
      WalkWedged(w, site, chain, env, k - 1, p);
      AfterWedged(WorldAt(w, site, chain, env, k - 1), site, chain[k - 1], env, k - 1, p);
    }
  }

  // ---- requests that are let in and then skip ----------------------------------------------

  /** Whatever the breaker says, this endpoint is not executed: its provider is not registered, or the
      context is done before a slot is taken. */
  predicate Skips(site: Site, e: Endpoint, env: Env)
  {
    e.provider !in site.providers || (env.cancelled(0) && !env.sendFirst(0))
  }

  function CoreOf(w: World, p: string): CB.Core
    requires p in w.cores
  {
    w.cores[p]
  }

  /** The only trace that such a request leaves is what its admission did to the breaker. */
  lemma SkippedRequest(w: World, site: Site, e: Endpoint, env: Env)
    requires Fits(w, site) && e.provider in w.cores && Skips(site, e, env)
    ensures var w' := Served(w, site, Request([e], env));
      && CoreOf(w', e.provider) == CB.AllowStep(w.cores[e.provider], w.configs[e.provider], env.askedAt(0)).0
      && w'.configs == w.configs
  {
    hide CB.AllowStep, Attempted;
    var chain := [e];
    var answers := Answers(w, site, chain, env);
    assert WorldAt(w, site, chain, env, 1) == After(WorldAt(w, site, chain, env, 0), site, chain[0], env, 0);
    assert WorldAt(w, site, chain, env, 0) == w;
    assert !VisitOf(site, chain[0], answers(0)).Won?;
    assert Visited(site, chain, answers) == 1;
  }

  /** Requests for one endpoint, all of them skipping it. */
  ghost predicate AllSkip(site: Site, e: Endpoint, reqs: seq<Request>)
  {
    forall req :: req in reqs ==> req.chain == [e] && Skips(site, e, req.env)
  }

  lemma {:induction false} SkippedRequestsAddUp(w: World, site: Site, e: Endpoint, reqs: seq<Request>)
    requires Fits(w, site) && e.provider in w.cores && AllSkip(site, e, reqs)
    requires w.cores[e.provider].state == CB.HalfOpen && w.cores[e.provider].halfOpenRequests <= CB.Limit(w.configs[e.provider])
    ensures var w' := ServedAll(w, site, reqs);
      && w'.configs == w.configs
      && CoreOf(w', e.provider) == w.cores[e.provider].(
           halfOpenRequests := Min(w.cores[e.provider].halfOpenRequests + |reqs|, CB.Limit(w.configs[e.provider])))
  {
    hide Served;
    if reqs != [] {
      var front, last := reqs[..|reqs| - 1], reqs[|reqs| - 1];
      assert last in reqs && last == Request([e], last.env);
      SkippedRequestsAddUp(w, site, e, front);
      SkippedRequest(ServedAll(w, site, front), site, e, last.env);
    }
  }

  /** Main result: such requests wedge a half-open breaker exactly when there are as many of them as it has
      admissions left. `LostIff` says how long that lasts. */
  lemma {:induction false} SkippedRequestsWedge(w: World, site: Site, e: Endpoint, reqs: seq<Request>)
    requires Fits(w, site) && e.provider in w.cores && AllSkip(site, e, reqs)
    requires w.cores[e.provider].state == CB.HalfOpen && w.cores[e.provider].halfOpenRequests <= CB.Limit(w.configs[e.provider])
    ensures Wedged(ServedAll(w, site, reqs), e.provider)
            <==> w.cores[e.provider].halfOpenRequests + |reqs| >= CB.Limit(w.configs[e.provider])
  {
    hide ServedAll, AllSkip;
    SkippedRequestsAddUp(w, site, e, reqs);
  }

  /** From an open breaker past its timeout one more is needed, the one that makes it half-open. */
  lemma SkippedTrialsWedge(w: World, site: Site, e: Endpoint, first: Request, rest: seq<Request>)
    requires Fits(w, site) && e.provider in w.cores && AllSkip(site, e, [first]) && AllSkip(site, e, rest)
    requires w.cores[e.provider].state == CB.Open
    requires CB.TimedOut(w.cores[e.provider].lastFailureTime, w.configs[e.provider], first.env.askedAt(0))
    ensures Wedged(ServedAll(Served(w, site, first), site, rest), e.provider) <==> |rest| >= CB.Limit(w.configs[e.provider])
  {
    assert first in [first] && first == Request([e], first.env);
    hide Served, ServedAll;
    SkippedRequest(w, site, e, first.env);
    SkippedRequestsWedge(Served(w, site, first), site, e, rest);
  }

  // ---- how long a wedge lasts --------------------------------------------------------------

  /** What may happen to the router: a request, with the retry settings of its time; a streamed one; and a
      reload of the breakers' settings. */
  datatype Event =
    | Chats(req: Request, retry: Retry.Config)
    | Streams(req: Request, opens: nat -> Stream.Open)
    | Reloads(cfg: CB.Config)

  function Happened(w: World, site: Site, ev: Event): World
    requires Fits(w, site)
  {
    match ev
    case Chats(req, retry) => Served(w, site.(retry := retry), req)
    case Streams(req, opens) => Streaming.HandledWorld(w, OneAttempt(site), req.chain, Opening(req.env, opens), opens)
    case Reloads(cfg) => w.(configs := map p | p in w.configs :: cfg)
  }

  lemma HappenedFits(w: World, site: Site, ev: Event)
    requires Fits(w, site)
    ensures Fits(Happened(w, site, ev), site)
  {
    hide WorldAt, Visited, CB.AllowStep;
  }

  function AllHappened(w: World, site: Site, events: seq<Event>): (w': World)
    requires Fits(w, site)
    ensures Fits(w', site)
  {
    if events == [] then w else
      var before := AllHappened(w, site, events[..|events| - 1]);
      HappenedFits(before, site, events[|events| - 1]);
      Happened(before, site, events[|events| - 1])
  }

  ghost predicate SettingsFrom(events: seq<Event>, cfgs: iset<CB.Config>)
  {
    forall ev :: ev in events && ev.Reloads? ==> ev.cfg in cfgs
  }

  /** Half-open, and no limit that is or may come into force lets anybody in. */
  ghost predicate WedgedUnder(w: World, p: string, cfgs: iset<CB.Config>)
    requires Consistent(w)
  {
    Wedged(w, p) && forall cfg :: cfg in cfgs ==> CB.Limit(cfg) <= w.cores[p].halfOpenRequests
  }

  lemma {:induction false} EventWedged(w: World, site: Site, ev: Event, p: string, cfgs: iset<CB.Config>)
    requires Fits(w, site) && WedgedUnder(w, p, cfgs) && (ev.Reloads? ==> ev.cfg in cfgs)
    ensures var w' := Happened(w, site, ev); p in w'.cores && w'.cores[p] == w.cores[p]
    ensures Fits(Happened(w, site, ev), site) && WedgedUnder(Happened(w, site, ev), p, cfgs)
  {
    hide WorldAt, Winner, CB.AllowStep, AnswerAt, VisitOf;
    match ev
    case Chats(req, retry) =>
      var site' := site.(retry := retry);
      WalkWedged(w, site', req.chain, req.env, Visited(site', req.chain, Answers(w, site', req.chain, req.env)), p);
    case Streams(req, opens) =>
      var site', env := OneAttempt(site), Opening(req.env, opens);
      WalkWedged(w, site', req.chain, env, Visited(site', req.chain, Answers(w, site', req.chain, env)), p);
    case Reloads(_) =>
  }

  /** The provider is skipped at every place of every chain, at any time. */
  ghost predicate AlwaysSkipped(w: World, site: Site, p: string)
    requires Fits(w, site)
  {
    forall chain: seq<Endpoint>, env, i: nat :: i < |chain| && chain[i].provider == p ==>
      VisitOf(site, chain[i], Answers(w, site, chain, env)(i)) == Skipped
  }

  lemma {:induction false} WedgedSkips(w: World, site: Site, p: string)
    requires Fits(w, site) && Wedged(w, p)
    ensures AlwaysSkipped(w, site, p)
  {
    hide WorldAt, VisitOf, AnswerIn;
    forall chain: seq<Endpoint>, env, i: nat | i < |chain| && chain[i].provider == p
      ensures VisitOf(site, chain[i], Answers(w, site, chain, env)(i)) == Skipped
    {
      WalkWedged(w, site, chain, env, i, p);
      AfterWedged(WorldAt(w, site, chain, env, i), site, chain[i], env, i, p);
    }
  }

  lemma {:induction false} WedgeLasts(w: World, site: Site, events: seq<Event>, p: string, cfgs: iset<CB.Config>)
    requires Fits(w, site) && WedgedUnder(w, p, cfgs) && SettingsFrom(events, cfgs)
    ensures var w' := AllHappened(w, site, events);
      p in w'.cores && w'.cores[p] == w.cores[p] && WedgedUnder(w', p, cfgs)
  {
    hide Happened, Fits;
    if events != [] {
      var front, last := events[..|events| - 1], events[|events| - 1];
      assert last in events;
      WedgeLasts(w, site, front, p, cfgs);
      EventWedged(AllHappened(w, site, front), site, last, p, cfgs);
    }
  }

  /** Nothing that happens under these settings moves the breaker. */
  ghost predicate Lost(w: World, site: Site, p: string, cfgs: iset<CB.Config>)
    requires Fits(w, site) && p in w.cores
  {
    forall events :: SettingsFrom(events, cfgs) ==>
      p in AllHappened(w, site, events).cores && AllHappened(w, site, events).cores[p] == w.cores[p]
  }

  /** Main result: a half-open breaker is lost, whatever requests, streams and reloads come, exactly when
      its counter has reached its limit and every limit that a reload brings. Its provider is then skipped
      at every place of every chain. A single reload to a larger limit lets requests through again. */
  lemma {:induction false} LostIff(w: World, site: Site, p: string, cfgs: iset<CB.Config>)
    requires Fits(w, site) && p in w.cores && w.cores[p].state == CB.HalfOpen
    ensures Lost(w, site, p, cfgs) <==> WedgedUnder(w, p, cfgs)
    ensures WedgedUnder(w, p, cfgs) ==>
              forall events :: SettingsFrom(events, cfgs) ==> AlwaysSkipped(AllHappened(w, site, events), site, p)
  {
    hide AllHappened, AlwaysSkipped, CB.Limit, Served, Probe;
    if WedgedUnder(w, p, cfgs) {
      forall events | SettingsFrom(events, cfgs)
        ensures p in AllHappened(w, site, events).cores && AllHappened(w, site, events).cores[p] == w.cores[p]
        ensures AlwaysSkipped(AllHappened(w, site, events), site, p)
      {
        WedgeLasts(w, site, events, p, cfgs);
        WedgedSkips(AllHappened(w, site, events), site, p);
      }
    } else if !Wedged(w, p) {
      ProbeIsLetIn(w, site, p);
      HappenedOne(w, site, Probe(p));
      assert Probe(p).Chats? by { ProbeChats(p); }
      assert SettingsFrom([Probe(p)], cfgs);
    } else {
      var cfg :| cfg in cfgs && CB.Limit(cfg) > w.cores[p].halfOpenRequests;
      var w' := Happened(w, site, Reloads(cfg));
      assert w'.cores == w.cores && w'.configs[p] == cfg;
      ProbeIsLetIn(w', site, p);
      HappenedTwo(w, site, Reloads(cfg), Probe(p));
      assert Probe(p).Chats? by { ProbeChats(p); }
      assert SettingsFrom([Reloads(cfg), Probe(p)], cfgs);
    }
  }

  /** A request for `p` whose context is done: it asks the breaker and goes no further. */
  function Probe(p: string): Event
  {
    Chats(Request([Endpoint(p, "", 0)], Env(_ => 0, _ => 0, _ => true, _ => false, _ => OneShot(Stream.Refused(Other)))),
            Retry.Config(1, 0, 0, 1.0, []))
  }

  lemma ProbeChats(p: string)
    ensures Probe(p).Chats?
  {
  }

  lemma {:induction false} ProbeIsLetIn(w: World, site: Site, p: string)
    requires Fits(w, site) && p in w.cores && w.cores[p].state == CB.HalfOpen
    requires w.cores[p].halfOpenRequests < CB.Limit(w.configs[p])
    ensures var w' := Happened(w, site, Probe(p)); p in w'.cores && w'.cores[p] != w.cores[p]
  {
    hide Served, CB.Limit;
    var site' := site.(retry := Probe(p).retry);
    SkippedRequest(w, site', Endpoint(p, "", 0), Probe(p).req.env);
  }

  lemma {:induction false} HappenedOne(w: World, site: Site, ev: Event)
    requires Fits(w, site)
    ensures AllHappened(w, site, [ev]) == Happened(w, site, ev)
  {
    hide Happened;
    assert [ev][..0] == [];
  }

  lemma {:induction false} HappenedTwo(w: World, site: Site, first: Event, second: Event)
    requires Fits(w, site) && Fits(Happened(w, site, first), site)
    ensures AllHappened(w, site, [first, second]) == Happened(Happened(w, site, first), site, second)
  {
    hide Happened;
    HappenedOne(w, site, first);
    assert [first, second][..1] == [first];
  }
}
