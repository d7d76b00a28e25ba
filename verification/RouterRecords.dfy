/** What the breakers hear of routed requests. */
module RouterRecords {
  import opened Wrappers
  import opened Retry
  import opened Routing
  import opened RoutingLaws
  import opened Router
  import CB = CircuitBreaker
  import Stream
  import Streaming

  // ---- the events, replayed on one breaker -------------------------------------------------

  function Heard(b: CB.Core, cfg: CB.Config, p: string, e: Event, env: Env): CB.Core
  {
    match e
    case Asked(q, i, _) => if q == p then CB.AllowStep(b, cfg, env.askedAt(i)).0 else b
    case RecordedSuccess(q, i) => if q == p then CB.OnSuccess(b, cfg, env.recordedAt(i)) else b
    case RecordedFailure(q, i) => if q == p then CB.OnFailure(b, cfg, env.recordedAt(i)) else b
    case _ => b
  }

  /** The breaker of `p`, asked and told in the order of these events. */
  function Replay(b: CB.Core, cfg: CB.Config, p: string, events: seq<Event>, env: Env): CB.Core
  {
    if events == [] then b else Heard(Replay(b, cfg, p, events[..|events| - 1], env), cfg, p, events[|events| - 1], env)
  }

  /** Every answer in the events is the one that the breaker gives when it is asked. */
  predicate Honest(b: CB.Core, cfg: CB.Config, p: string, events: seq<Event>, env: Env)
  {
    events == [] ||
      var front, last := events[..|events| - 1], events[|events| - 1];
      && Honest(b, cfg, p, front, env)
      && (last.Asked? && last.provider == p ==> last.ok == CB.AllowStep(Replay(b, cfg, p, front, env), cfg, env.askedAt(last.place)).1)
  }

  lemma {:induction false} ReplayConcat(b: CB.Core, cfg: CB.Config, p: string, x: seq<Event>, y: seq<Event>, env: Env)
    ensures Replay(b, cfg, p, x + y, env) == Replay(Replay(b, cfg, p, x, env), cfg, p, y, env)
    ensures Honest(b, cfg, p, x + y, env) <==> Honest(b, cfg, p, x, env) && Honest(Replay(b, cfg, p, x, env), cfg, p, y, env)
  {
    hide Heard, CB.AllowStep;
    if y == [] {
      assert x + y == x;
    } else {
      assert (x + y)[..|x + y| - 1] == x + y[..|y| - 1];
      ReplayConcat(b, cfg, p, x, y[..|y| - 1], env);
    }
  }

  lemma ReplayOne(b: CB.Core, cfg: CB.Config, p: string, e: Event, env: Env)
    ensures Replay(b, cfg, p, [e], env) == Heard(b, cfg, p, e, env)
    ensures Honest(b, cfg, p, [e], env) <==>
            (e.Asked? && e.provider == p ==> e.ok == CB.AllowStep(b, cfg, env.askedAt(e.place)).1)
    ensures Replay(b, cfg, p, [], env) == b && Honest(b, cfg, p, [], env)
  {
    hide Heard, CB.AllowStep;
    assert [e][..0] == [];
  }

  predicate About(e: Event, p: string)
  {
    e.provider == p && (e.Asked? || e.RecordedSuccess? || e.RecordedFailure?)
  }

  lemma {:induction false} ReplayQuiet(b: CB.Core, cfg: CB.Config, p: string, events: seq<Event>, env: Env)
    requires forall e :: e in events ==> !About(e, p)
    ensures Replay(b, cfg, p, events, env) == b && Honest(b, cfg, p, events, env)
  {
    hide CB.AllowStep, CB.OnSuccess, CB.OnFailure;
    if events != [] {
      assert events[|events| - 1] in events;
      ReplayQuiet(b, cfg, p, events[..|events| - 1], env);
    }
  }

  /** What an endpoint's own breaker is told after it was asked. */
  lemma TellingReplays(b: CB.Core, cfg: CB.Config, site: Site, e: Endpoint, i: nat, a: Answer, env: Env)
    requires e.provider in site.guarded && Reached(site, e, a)
    ensures var p := e.provider;
      var told := [GotSlot(p), Called(p, Run(site.retry, a.script).3), FreedSlot(p)] + Recorded(site, p, i, VisitOf(site, e, a));
      Replay(b, cfg, p, told, env) == CoreAfter(b, cfg, VisitOf(site, e, a), env.recordedAt(i)) && Honest(b, cfg, p, told, env)
  {
    hide CB.AllowStep, CB.OnSuccess, CB.OnFailure, Run, VisitOf, Replay, Honest;
    var p, v := e.provider, VisitOf(site, e, a);
    var body := [GotSlot(p), Called(p, Run(site.retry, a.script).3), FreedSlot(p)];
    ReplayQuiet(b, cfg, p, body, env);
    ReplayConcat(b, cfg, p, body, Recorded(site, p, i, v), env);
    ReplayOne(b, cfg, p, if v.Won? then RecordedSuccess(p, i) else RecordedFailure(p, i), env);
  }

  lemma VisitReplays(w: World, site: Site, e: Endpoint, env: Env, i: nat, p: string)
    requires Fits(w, site) && p in w.cores
    ensures var events := EventsOf(site, e, i, AnswerIn(w, e, env, i));
      var w' := After(w, site, e, env, i);
      && w'.cores[p] == Replay(w.cores[p], w.configs[p], p, events, env) && w'.configs == w.configs
      && Honest(w.cores[p], w.configs[p], p, events, env)
  {
    hide CB.AllowStep, Run, Replay, Honest, CoreAfter, VisitOf;
    var b, cfg, a, q := w.cores[p], w.configs[p], AnswerIn(w, e, env, i), e.provider;
    var events := EventsOf(site, e, i, a);
    if q != p {
      ReplayQuiet(b, cfg, p, events, env);
    } else {
      var asked := Asked(p, i, a.allowed);
      ReplayOne(b, cfg, p, asked, env);
      if Reached(site, e, a) {
        TellingReplays(CB.AllowStep(b, cfg, env.askedAt(i)).0, cfg, site, e, i, a, env);
        var told := [GotSlot(p), Called(p, Run(site.retry, a.script).3), FreedSlot(p)] + Recorded(site, p, i, VisitOf(site, e, a));
        ReplayConcat(b, cfg, p, [asked], told, env);
        assert events == [asked] + told;
      } else {
        assert events == [asked];
        assert VisitOf(site, e, a) == Skipped by { NotReached(site, e, a); }
        assert CoreAfter(Heard(b, cfg, p, asked, env), cfg, Skipped, env.recordedAt(i)) == Heard(b, cfg, p, asked, env) by {
          NothingTold(Heard(b, cfg, p, asked, env), cfg, env.recordedAt(i));
        }
      }
    }
  }

  lemma NotReached(site: Site, e: Endpoint, a: Answer)
    requires !Reached(site, e, a)
    ensures VisitOf(site, e, a) == Skipped
  {
  }

  lemma NothingTold(b: CB.Core, cfg: CB.Config, now: int)
    ensures CoreAfter(b, cfg, Skipped, now) == b
  {
  }

  lemma AnswerThere(w: World, site: Site, chain: seq<Endpoint>, env: Env, i: nat)
    requires Fits(w, site) && i < |chain|
    ensures Answers(w, site, chain, env)(i) == AnswerIn(WorldAt(w, site, chain, env, i), chain[i], env, i)
    ensures WorldAt(w, site, chain, env, i + 1) == After(WorldAt(w, site, chain, env, i), site, chain[i], env, i)
  {
    hide AnswerIn, After;
  }

  lemma {:induction false} WalkReplays(w: World, site: Site, chain: seq<Endpoint>, env: Env, k: nat, p: string)
    requires Fits(w, site) && p in w.cores && k <= |chain|
    ensures var events := EventsUpTo(site, chain, Answers(w, site, chain, env), k);
      var w' := WorldAt(w, site, chain, env, k);
      && w'.cores[p] == Replay(w.cores[p], w.configs[p], p, events, env) && w'.configs == w.configs
      && Honest(w.cores[p], w.configs[p], p, events, env)
  {
    hide After, EventsOf, AnswerIn, Heard, CB.AllowStep, VisitOf, WorldAt, AnswerAt, EventsUpTo, Winner, LastError, RetriesUpTo, Replay, Honest;
    if k == 0 {
      StartOfWalk(w, site, chain, env);
      ReplayQuiet(w.cores[p], w.configs[p], p, [], env);
    } else {
      var answers := Answers(w, site, chain, env);
      WalkReplays(w, site, chain, env, k - 1, p);
      StepOfWalk(w, site, chain, env, k - 1);
      AnswerThere(w, site, chain, env, k - 1);
      VisitReplays(WorldAt(w, site, chain, env, k - 1), site, chain[k - 1], env, k - 1, p);
      ReplayConcat(w.cores[p], w.configs[p], p, EventsUpTo(site, chain, answers, k - 1),
                   EventsOf(site, chain[k - 1], k - 1, answers(k - 1)), env);
    }
  }

  // ---- the visits, without any events ------------------------------------------------------

  /** The breaker of `p` after the first `k` endpoints: each one of `p` asks it, and if it was reached tells
      it a success when it worked and a failure when it did not. */
  function ByVisits(b: CB.Core, cfg: CB.Config, site: Site, chain: seq<Endpoint>, answers: nat -> Answer, env: Env,
                    p: string, worked: nat -> bool, k: nat): CB.Core
    requires k <= |chain|
  {
    if k == 0 then b else
      var before := ByVisits(b, cfg, site, chain, answers, env, p, worked, k - 1);
      if chain[k - 1].provider != p then before else
        var asked := CB.AllowStep(before, cfg, env.askedAt(k - 1)).0;
        if !Reached(site, chain[k - 1], answers(k - 1)) then asked
        else if worked(k - 1) then CB.OnSuccess(asked, cfg, env.recordedAt(k - 1))
        else CB.OnFailure(asked, cfg, env.recordedAt(k - 1))
  }

  lemma VisitHeard(w: World, site: Site, e: Endpoint, env: Env, i: nat, p: string)
    requires Fits(w, site) && p in w.cores && !VisitOf(site, e, AnswerIn(w, e, env, i)).Blank?
    ensures var a, w' := AnswerIn(w, e, env, i), After(w, site, e, env, i);
      && w'.configs == w.configs
      && w'.cores[p] ==
           if e.provider != p then w.cores[p] else
             var asked := CB.AllowStep(w.cores[p], w.configs[p], env.askedAt(i)).0;
             if !Reached(site, e, a) then asked
             else if VisitOf(site, e, a).Won? then CB.OnSuccess(asked, w.configs[p], env.recordedAt(i))
             else CB.OnFailure(asked, w.configs[p], env.recordedAt(i))
  {
    hide CB.AllowStep, Run, CB.OnSuccess, CB.OnFailure;
  }

  lemma {:induction false} WalkByVisits(w: World, site: Site, chain: seq<Endpoint>, env: Env, k: nat, p: string, worked: nat -> bool)
    requires Fits(w, site) && p in w.cores && k <= |chain|
    requires forall i: nat :: i < |chain| ==>
      var v := VisitOf(site, chain[i], Answers(w, site, chain, env)(i)); !v.Blank? && (v.Won? <==> worked(i))
    ensures var w' := WorldAt(w, site, chain, env, k);
      && w'.configs == w.configs
      && w'.cores[p] == ByVisits(w.cores[p], w.configs[p], site, chain, Answers(w, site, chain, env), env, p, worked, k)
  {
    hide After, VisitOf, AnswerIn, AnswerAt, WorldAt, Reached, CB.AllowStep, CB.OnSuccess, CB.OnFailure;
    if k == 0 {
      StartOfWalk(w, site, chain, env);
    } else {
      WalkByVisits(w, site, chain, env, k - 1, p, worked);
      AnswerThere(w, site, chain, env, k - 1);
      VisitHeard(WorldAt(w, site, chain, env, k - 1), site, chain[k - 1], env, k - 1, p);
    }
  }

  ghost function Working(site: Site, chain: seq<Endpoint>, answers: nat -> Answer): nat -> bool
  {
    (i: nat) => i < |chain| && Works(site, chain[i], answers(i))
  }

  function OpensAt(site: Site, chain: seq<Endpoint>, answers: nat -> Answer, opens: nat -> Stream.Open): nat -> bool
  {
    (i: nat) => i < |chain| && Streaming.Opens(site, chain[i], answers(i), opens(i))
  }

  /** Main result, for every chain: a request leaves each breaker as its events for that provider do when they
      are replayed in order, with the answers that the breaker gives in the replay; and with at least one attempt
      allowed that is the state it gets from being asked at each endpoint of the provider and told a success where
      the endpoint was reached and worked, a failure where it was reached and did not. */
  lemma {:induction false} BreakersHearOutcomes(w: World, site: Site, chain: seq<Endpoint>, env: Env, p: string)
    requires Fits(w, site) && p in w.cores
    ensures var answers := Answers(w, site, chain, env);
      var events, n := Route(site, chain, answers).1, Visited(site, chain, answers);
      var core := WorldAt(w, site, chain, env, n).cores[p];
      && core == Replay(w.cores[p], w.configs[p], p, events, env)
      && Honest(w.cores[p], w.configs[p], p, events, env)
      && (site.retry.maxAttempts >= 1 ==>
            core == ByVisits(w.cores[p], w.configs[p], site, chain, answers, env, p, Working(site, chain, answers), n))
  {
    hide WorldAt, AnswerAt, Works, VisitOf, EventsUpTo, Replay, Honest, ByVisits, RetriesUpTo, LastError;
    var answers := Answers(w, site, chain, env);
    var n := Visited(site, chain, answers);
    WalkReplays(w, site, chain, env, n, p);
    if site.retry.maxAttempts >= 1 {
      forall i: nat | i < |chain|
        ensures var v := VisitOf(site, chain[i], answers(i)); !v.Blank? && (v.Won? <==> Working(site, chain, answers)(i))
      {
        WonIffWorks(site, chain[i], answers(i));
      }
      WalkByVisits(w, site, chain, env, n, p, Working(site, chain, answers));
    }
  }

  /** Main result: a streamed request tells the breakers a success where it opens a stream and a failure where
      an endpoint was reached and opened none. */
  lemma {:induction false} StreamsHearOutcomes(w: World, site: Site, chain: seq<Endpoint>, env: Env, opens: nat -> Stream.Open, p: string)
    requires Fits(w, site) && p in w.cores
    ensures var site', opening := OneAttempt(site), Opening(env, opens);
      var answers := Answers(w, site', chain, opening);
      var core := ByVisits(w.cores[p], w.configs[p], site, chain, answers, env, p, OpensAt(site, chain, answers, opens), Visited(site', chain, answers));
      && StreamWorld(w, site', chain, opening).cores[p] == core
      && Streaming.HandledWorld(w, site', chain, opening, opens).cores[p] == core
  {
    hide WorldAt, AnswerAt, VisitOf, ByVisits, Winner, OneAttempt, Opening, OpenVisit, Reached;
    var site', opening := OneAttempt(site), Opening(env, opens);
    OpeningKeeps(site, env, opens, 0);
    var answers := Answers(w, site', chain, opening);
    forall i: nat | i < |chain|
      ensures var v := VisitOf(site', chain[i], answers(i)); !v.Blank? && (v.Won? <==> OpensAt(site, chain, answers, opens)(i))
    {
      Streaming.VisitOpens(w, site, chain, env, opens, i);
    }
    var n := Visited(site', chain, answers);
    WalkByVisits(w, site', chain, opening, n, p, OpensAt(site, chain, answers, opens));
    SameVisits(w.cores[p], w.configs[p], site', site, chain, answers, opening, env, p, OpensAt(site, chain, answers, opens), n, opens);
  }

  /** The retry settings, the script and everything but the clock play no part. */
  lemma {:induction false} SameVisits(b: CB.Core, cfg: CB.Config, site: Site, site': Site, chain: seq<Endpoint>, answers: nat -> Answer,
                                      env: Env, env': Env, p: string, worked: nat -> bool, k: nat, opens: nat -> Stream.Open)
    requires k <= |chain| && site == OneAttempt(site') && env == Opening(env', opens)
    ensures ByVisits(b, cfg, site, chain, answers, env, p, worked, k) == ByVisits(b, cfg, site', chain, answers, env', p, worked, k)
  {
    hide CB.AllowStep, CB.OnSuccess, CB.OnFailure;
    if k > 0 {
      SameVisits(b, cfg, site, site', chain, answers, env, env', p, worked, k - 1, opens);
    }
  }

  /** Main result: an endpoint is reached exactly when its breaker, if it has one, admits after all it has been
      asked and told so far, its provider is registered, one of the provider's slots is free when the request
      comes, and the context is not done, or loses to the free slot. */
  lemma {:induction false} ReachedIff(w: World, site: Site, chain: seq<Endpoint>, env: Env, i: nat)
    requires Fits(w, site) && i < |chain|
    ensures var p, answers := chain[i].provider, Answers(w, site, chain, env);
      Reached(site, chain[i], answers(i)) <==>
        && (p in w.cores ==>
              CB.AllowStep(Replay(w.cores[p], w.configs[p], p, EventsUpTo(site, chain, answers, i), env), w.configs[p], env.askedAt(i)).1)
        && p in site.providers
        && (if p in w.slots then w.slots[p] < 200 else true)
        && (!env.cancelled(i) || env.sendFirst(i))
  {
    hide WorldAt, CB.AllowStep, Replay, EventsUpTo;
    var p := chain[i].provider;
    if p in w.cores {
      WalkReplays(w, site, chain, env, i, p);
    }
    SlotsConserved(w, site, chain, env, i, p);
  }
}
