/** What the fallback chain guarantees: which endpoint answers, and that every visit to an endpoint accounts
    for its breaker's admission, its slot and its calls. */
module RoutingLaws {
  import opened Wrappers
  import opened Retry
  import opened Routing

  // ---- which endpoint answers --------------------------------------------------------------

  /** The breaker admits, the provider exists, a slot is obtained, and the provider answers within
      the attempts it is given. */
  ghost predicate Works(site: Site, e: Endpoint, a: Answer)
  {
    Reached(site, e, a) && exists k: nat :: AnswersAt(site.retry, a.script, k)
  }

  lemma WonIffWorks(site: Site, e: Endpoint, a: Answer)
    requires site.retry.maxAttempts >= 1
    ensures VisitOf(site, e, a).Won? <==> Works(site, e, a)
    ensures !VisitOf(site, e, a).Blank?
    ensures Reached(site, e, a) <==> !VisitOf(site, e, a).Skipped?
  {
    SucceedsIffAnswers(site.retry, a.script);
  }

  ghost predicate LeastWorking(site: Site, chain: seq<Endpoint>, answers: nat -> Answer, w: nat)
  {
    w < |chain| && Works(site, chain[w], answers(w)) && forall j :: 0 <= j < w ==> !Works(site, chain[j], answers(j))
  }

  /** The extra attempts over the first `k` endpoints, counted from what each endpoint did. */
  function ExtraAttempts(site: Site, chain: seq<Endpoint>, answers: nat -> Answer, k: nat): nat
    requires k <= |chain| && site.retry.maxAttempts >= 1
  {
    if k == 0 then 0 else
      ExtraAttempts(site, chain, answers, k - 1)
      + if Reached(site, chain[k - 1], answers(k - 1)) then EndsAt(site.retry, answers(k - 1).script, 0) else 0
  }

  lemma {:induction false} RetriesAreExtraAttempts(site: Site, chain: seq<Endpoint>, answers: nat -> Answer, k: nat)
    requires k <= |chain| && site.retry.maxAttempts >= 1
    ensures RetriesUpTo(site, chain, answers, k) == ExtraAttempts(site, chain, answers, k)
  {
    if k > 0 {
      RetriesAreExtraAttempts(site, chain, answers, k - 1);
      WonIffWorks(site, chain[k - 1], answers(k - 1));
    }
  }

  /** Main result, for every chain, every breaker behaviour and every outcome script: with at least one
      attempt allowed, `ExecuteChat` answers exactly when some endpoint works, and then from the least
      such endpoint; the metadata describe that endpoint, the fallback mark says it was not the first,
      and the retries are the extra attempts of all endpoints executed so far. */
  lemma {:induction false} AnswersFromLeastWorking(site: Site, chain: seq<Endpoint>, answers: nat -> Answer)
    requires site.retry.maxAttempts >= 1
    ensures var (r, _) := Route(site, chain, answers);
      && (r.Served? <==> exists w: nat :: LeastWorking(site, chain, answers, w))
      && (r.Served? <==> exists j :: 0 <= j < |chain| && Works(site, chain[j], answers(j)))
      && (forall w: nat :: LeastWorking(site, chain, answers, w) ==>
            && r.Served?
            && r.meta.provider == chain[w].provider && r.meta.actualModel == chain[w].model
            && r.meta.fallback == (w > 0) && r.meta.cost == r.response.cost
            && r.meta.retries == ExtraAttempts(site, chain, answers, w + 1)
            && exists k: nat :: AnswersAt(site.retry, answers(w).script, k) && answers(w).script.outcome(k).response == r.response)
      && (r.AllFailed? ==> r.meta.retries == ExtraAttempts(site, chain, answers, |chain|))
  {
    var w := Winner(site, chain, answers, 0);
    forall j | 0 <= j < |chain| ensures VisitOf(site, chain[j], answers(j)).Won? <==> Works(site, chain[j], answers(j)) {
      WonIffWorks(site, chain[j], answers(j));
    }
    if w < |chain| {
      assert LeastWorking(site, chain, answers, w);
      RetriesAreExtraAttempts(site, chain, answers, w + 1);
      SucceedsIffAnswers(site.retry, answers(w).script);
    } else {
      RetriesAreExtraAttempts(site, chain, answers, w);
    }
    forall u: nat | LeastWorking(site, chain, answers, u) ensures u == w {
      assert !(u < w) && !(w < u);
    }
  }

  /** With no attempt allowed nothing is ever answered, whatever the providers would do, no provider is called
      and no breaker is told anything. */
  lemma NoAttemptsNoAnswer(site: Site, chain: seq<Endpoint>, answers: nat -> Answer)
    requires site.retry.maxAttempts <= 0
    ensures Route(site, chain, answers).0.AllFailed? && Route(site, chain, answers).0.lastErr == None
    ensures forall e :: e in Route(site, chain, answers).1 ==>
      !e.RecordedSuccess? && !e.RecordedFailure? && (e.Called? ==> e.times == 0)
  {
    var w := Winner(site, chain, answers, 0);
    NoErrorRecorded(site, chain, answers, |chain|);
  }

  lemma {:induction false} NoErrorRecorded(site: Site, chain: seq<Endpoint>, answers: nat -> Answer, k: nat)
    requires site.retry.maxAttempts <= 0 && k <= |chain|
    ensures LastError(site, chain, answers, k) == None
    ensures forall e :: e in EventsUpTo(site, chain, answers, k) ==>
      !e.RecordedSuccess? && !e.RecordedFailure? && (e.Called? ==> e.times == 0)
  {
    if k > 0 { NoErrorRecorded(site, chain, answers, k - 1); }
  }

  /** Endpoint `i` is the last of the first `k` that is reached. */
  ghost predicate LastReached(site: Site, chain: seq<Endpoint>, answers: nat -> Answer, k: nat, i: nat)
    requires k <= |chain|
  {
    i < k && Reached(site, chain[i], answers(i)) && forall j :: i < j < k ==> !Reached(site, chain[j], answers(j))
  }

  /** Main result: a request that every endpoint failed reports the error of the last one that was reached, and
      none if none was. */
  lemma {:induction false} LastErrorIsLatest(site: Site, chain: seq<Endpoint>, answers: nat -> Answer)
    requires site.retry.maxAttempts >= 1 && Route(site, chain, answers).0.AllFailed?
    ensures var lastErr := Route(site, chain, answers).0.lastErr;
      && (lastErr == None <==> forall i :: 0 <= i < |chain| ==> !Reached(site, chain[i], answers(i)))
      && forall i: nat :: LastReached(site, chain, answers, |chain|, i) ==> lastErr == Run(site.retry, answers(i).script).2
  {
    LatestOf(site, chain, answers, |chain|);
  }

  lemma {:induction false} LatestOf(site: Site, chain: seq<Endpoint>, answers: nat -> Answer, k: nat)
    requires site.retry.maxAttempts >= 1 && k <= |chain|
    requires forall j :: 0 <= j < k ==> !VisitOf(site, chain[j], answers(j)).Won?
    ensures LastError(site, chain, answers, k) == None <==> forall i :: 0 <= i < k ==> !Reached(site, chain[i], answers(i))
    ensures forall i: nat :: LastReached(site, chain, answers, k, i) ==>
              LastError(site, chain, answers, k) == Run(site.retry, answers(i).script).2
  {
    hide Run, Works, Reached;
    if k > 0 {
      LatestOf(site, chain, answers, k - 1);
      LatestStep(site, chain, answers, k);
    }
  }

  lemma LatestStep(site: Site, chain: seq<Endpoint>, answers: nat -> Answer, k: nat)
    requires site.retry.maxAttempts >= 1 && 0 < k <= |chain| && !VisitOf(site, chain[k - 1], answers(k - 1)).Won?
    ensures LastError(site, chain, answers, k) ==
      if Reached(site, chain[k - 1], answers(k - 1)) then Run(site.retry, answers(k - 1).script).2 else LastError(site, chain, answers, k - 1)
    ensures Reached(site, chain[k - 1], answers(k - 1)) ==> LastError(site, chain, answers, k).Some?
  {
    hide Run, Works;
    WonIffWorks(site, chain[k - 1], answers(k - 1));
  }

  // ---- conservation ------------------------------------------------------------------------

  predicate IsRecord(e: Event, p: string, success: bool)
  {
    if success then e.RecordedSuccess? && e.provider == p else e.RecordedFailure? && e.provider == p
  }

  /** The successes, or the failures, that the breaker of `p` is told. */
  function Records(events: seq<Event>, p: string, success: bool): nat
  {
    if events == [] then 0
    else Records(events[..|events| - 1], p, success) + if IsRecord(events[|events| - 1], p, success) then 1 else 0
  }

  function Calls(events: seq<Event>): nat
  {
    if events == [] then 0 else
      var last := events[|events| - 1];
      Calls(events[..|events| - 1]) + if last.Called? then last.times else 0
  }

  /** How many of the first `k` endpoints name provider `p`, are reached, and work, or do not. */
  ghost function Executions(site: Site, chain: seq<Endpoint>, answers: nat -> Answer, p: string, working: bool, k: nat): nat
    requires k <= |chain|
  {
    if k == 0 then 0 else
      var e, a := chain[k - 1], answers(k - 1);
      Executions(site, chain, answers, p, working, k - 1)
      + if e.provider == p && Reached(site, e, a) && Works(site, e, a) == working then 1 else 0
  }

  lemma {:induction false} RecordsConcat(a: seq<Event>, b: seq<Event>, p: string, success: bool)
    ensures Records(a + b, p, success) == Records(a, p, success) + Records(b, p, success)
  {
    if b == [] {
      assert a + b == a;
    } else {
      assert (a + b)[..|a + b| - 1] == a + b[..|b| - 1];
      RecordsConcat(a, b[..|b| - 1], p, success);
    }
  }

  lemma {:induction false} CallsConcat(a: seq<Event>, b: seq<Event>)
    ensures Calls(a + b) == Calls(a) + Calls(b)
  {
    if b == [] {
      assert a + b == a;
    } else {
      assert (a + b)[..|a + b| - 1] == a + b[..|b| - 1];
      CallsConcat(a, b[..|b| - 1]);
    }
  }

  // A monitor that reads the events one by one and rejects any order the router must not produce.
  // It remembers, for the endpoint being visited, what its provider was granted.

  datatype Monitor =
    | Between
    | Granted(provider: string)
    | InSlot(provider: string)
    | Executed(provider: string)
    | Owing(provider: string)
    | Rejected

  /** A guarded provider is only given a slot after its breaker said yes, is only called inside the
      slot, gives the slot back before anything else happens, and owes its breaker one record. */
  function Watch(site: Site, m: Monitor, e: Event): Monitor
  {
    match e
    case Asked(p, _, ok) =>
      if (m.Between? || m.Granted?) && p in site.guarded then (if ok then Granted(p) else Between) else Rejected
    case GotSlot(p) =>
      if m == Granted(p) || ((m.Between? || m.Granted?) && p !in site.guarded) then InSlot(p) else Rejected
    case Called(p, _) => if m == InSlot(p) then Executed(p) else Rejected
    case FreedSlot(p) =>
      if m == Executed(p) then (if p in site.guarded then Owing(p) else Between) else Rejected
    case RecordedSuccess(p, _) => if m == Owing(p) then Between else Rejected
    case RecordedFailure(p, _) => if m == Owing(p) then Between else Rejected
  }

  function WatchAll(site: Site, m: Monitor, events: seq<Event>): Monitor
  {
    if events == [] then m
    else Watch(site, WatchAll(site, m, events[..|events| - 1]), events[|events| - 1])
  }

  lemma {:induction false} WatchConcat(site: Site, m: Monitor, a: seq<Event>, b: seq<Event>)
    ensures WatchAll(site, m, a + b) == WatchAll(site, WatchAll(site, m, a), b)
  {
    if b == [] {
      assert a + b == a;
    } else {
      assert (a + b)[..|a + b| - 1] == a + b[..|b| - 1];
      WatchConcat(site, m, a, b[..|b| - 1]);
    }
  }

  /** No slot held and no record owed; an unused grant may be left over from a skipped endpoint. */
  predicate Settled(m: Monitor) { m.Between? || m.Granted? }

  lemma WatchThree(site: Site, m: Monitor, x: Event, y: Event, z: Event)
    ensures WatchAll(site, m, [x, y, z]) == Watch(site, Watch(site, Watch(site, m, x), y), z)
  {
    assert [x, y, z][..2] == [x, y] && [x, y][..1] == [x] && [x][..0] == [];
    assert WatchAll(site, m, [x]) == Watch(site, m, x);
    assert WatchAll(site, m, [x, y]) == Watch(site, Watch(site, m, x), y);
  }

  lemma WatchOne(site: Site, m: Monitor, x: Event)
    ensures WatchAll(site, m, [x]) == Watch(site, m, x)
  {
    assert [x][..0] == [];
  }

  lemma VisitSettles(site: Site, e: Endpoint, i: nat, a: Answer, m: Monitor)
    requires Settled(m) && site.retry.maxAttempts >= 1
    ensures Settled(WatchAll(site, m, EventsOf(site, e, i, a)))
  {
    hide WatchAll, Run;
    var p := e.provider;
    var asked := if p in site.guarded then [Asked(p, i, a.allowed)] else [];
    var m1 := if p in site.guarded then Watch(site, m, Asked(p, i, a.allowed)) else m;
    assert WatchAll(site, m, asked) == m1 by {
      if p in site.guarded { WatchOne(site, m, Asked(p, i, a.allowed)); } else { WatchNone(site, m); }
    }
    if Reached(site, e, a) {
      WonIffWorks(site, e, a);
      var body := [GotSlot(p), Called(p, Run(site.retry, a.script).3), FreedSlot(p)];
      var tail := Recorded(site, p, i, VisitOf(site, e, a));
      WatchThree(site, m1, body[0], body[1], body[2]);
      WatchConcat(site, m, asked, body + tail);
      WatchConcat(site, m1, body, tail);
      var m2 := WatchAll(site, m1, body);
      if p in site.guarded { WatchOne(site, m2, tail[0]); } else { WatchNone(site, m2); }
    } else {
      assert EventsOf(site, e, i, a) == asked;
    }
  }

  lemma WatchNone(site: Site, m: Monitor)
    ensures WatchAll(site, m, []) == m
  {
  }

  lemma CountThree(x: Event, y: Event, z: Event, p: string, success: bool)
    ensures Records([x, y, z], p, success) == Records([x], p, success) + Records([y], p, success) + Records([z], p, success)
    ensures Calls([x, y, z]) == Calls([x]) + Calls([y]) + Calls([z])
  {
    RecordsConcat([x], [y], p, success);
    RecordsConcat([x, y], [z], p, success);
    CallsConcat([x], [y]);
    CallsConcat([x, y], [z]);
    assert [x] + [y] == [x, y] && [x, y] + [z] == [x, y, z];
  }

  lemma CountOne(x: Event, p: string, success: bool)
    ensures Records([x], p, success) == if IsRecord(x, p, success) then 1 else 0
    ensures Calls([x]) == if x.Called? then x.times else 0
    ensures Records([], p, success) == 0 && Calls([]) == 0
  {
    assert [x][..0] == [];
  }

  lemma VisitCounts(site: Site, e: Endpoint, i: nat, a: Answer, p: string, success: bool)
    requires site.retry.maxAttempts >= 1
    ensures Records(EventsOf(site, e, i, a), p, success) ==
            if e.provider == p && p in site.guarded && Reached(site, e, a) && Works(site, e, a) == success then 1 else 0
    ensures Calls(EventsOf(site, e, i, a)) <= site.retry.maxAttempts
  {
    hide Run, Records, Calls, Works;
    WonIffWorks(site, e, a);
    SucceedsIffAnswers(site.retry, a.script);
    var q := e.provider;
    var asked := if q in site.guarded then [Asked(q, i, a.allowed)] else [];
    CountOne(Asked(q, i, a.allowed), p, success);
    if Reached(site, e, a) {
      var body := [GotSlot(q), Called(q, Run(site.retry, a.script).3), FreedSlot(q)];
      var tail := Recorded(site, q, i, VisitOf(site, e, a));
      RecordsConcat(asked, body + tail, p, success);
      RecordsConcat(body, tail, p, success);
      CallsConcat(asked, body + tail);
      CallsConcat(body, tail);
      CountThree(body[0], body[1], body[2], p, success);
      CountOne(body[0], p, success);
      CountOne(body[1], p, success);
      CountOne(body[2], p, success);
      if q in site.guarded { CountOne(tail[0], p, success); }
    } else {
      assert EventsOf(site, e, i, a) == asked;
    }
  }

  lemma {:induction false} PrefixConserves(site: Site, chain: seq<Endpoint>, answers: nat -> Answer, k: nat, p: string, success: bool)
    requires k <= |chain| && site.retry.maxAttempts >= 1
    ensures Settled(WatchAll(site, Between, EventsUpTo(site, chain, answers, k)))
    ensures p in site.guarded ==> Records(EventsUpTo(site, chain, answers, k), p, success) == Executions(site, chain, answers, p, success, k)
    ensures p !in site.guarded ==> Records(EventsUpTo(site, chain, answers, k), p, success) == 0
    ensures Calls(EventsUpTo(site, chain, answers, k)) <= k * site.retry.maxAttempts
  {
    hide Records, Calls, WatchAll, EventsOf, Works;
    if k == 0 {
      NothingHappened(site, p, success);
    } else {
      PrefixConserves(site, chain, answers, k - 1, p, success);
      var before, now := EventsUpTo(site, chain, answers, k - 1), EventsOf(site, chain[k - 1], k - 1, answers(k - 1));
      VisitCounts(site, chain[k - 1], k - 1, answers(k - 1), p, success);
      VisitSettles(site, chain[k - 1], k - 1, answers(k - 1), WatchAll(site, Between, before));
      RecordsConcat(before, now, p, success);
      CallsConcat(before, now);
      WatchConcat(site, Between, before, now);
      ProductStep(k, site.retry.maxAttempts);
    }
  }

  lemma ProductStep(k: nat, m: nat)
    requires k > 0
    ensures k * m == (k - 1) * m + m
  {
  }

  lemma NothingHappened(site: Site, p: string, success: bool)
    ensures Records([], p, success) == 0 && Calls([]) == 0 && WatchAll(site, Between, []) == Between
  {
  }

  /** Main result, on every path through the chain: a breaker is told exactly as many successes as its
      provider's endpoints were reached and worked, and as many failures as they were reached and did not;
      skipped ones give no record; the events are ordered so that a guarded provider is called
      only after its breaker said yes and inside a slot that is given back; and the provider calls are at
      most the attempts allowed times the chain length. */
  lemma {:induction false} Conservation(site: Site, chain: seq<Endpoint>, answers: nat -> Answer, p: string, success: bool)
    requires site.retry.maxAttempts >= 1
    ensures var (_, events) := Route(site, chain, answers);
      && (p in site.guarded ==> Records(events, p, success) == Executions(site, chain, answers, p, success, Visited(site, chain, answers)))
      && (p !in site.guarded ==> Records(events, p, success) == 0)
      && Settled(WatchAll(site, Between, events))
      && Calls(events) <= |chain| * site.retry.maxAttempts
  {
    hide WatchAll, Records, Calls, Executions, EventsUpTo, RetriesUpTo, LastError, VisitOf;
    var k := Visited(site, chain, answers);
    PrefixConserves(site, chain, answers, k, p, success);
    ProductMonotone(k, |chain|, site.retry.maxAttempts);
  }

  lemma ProductMonotone(a: nat, b: nat, m: nat)
    requires a <= b
    ensures a * m <= b * m
  {
  }
}
