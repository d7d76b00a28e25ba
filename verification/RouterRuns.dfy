/** A routed request as a run of the router's interleaved protocol. */
module RouterRuns {
  import opened Wrappers
  import opened Retry
  import opened Routing
  import opened RouterProtocol
  import S = SemaphoreProtocol

  /** How a streamed request ends at the endpoint that opens its stream; a chat request just ends. */
  datatype Kind = Chat | Relayed | HandedNothing

  /** What request `r` does at an endpoint. */
  function Turn(site: Site, e: Endpoint, a: Answer, kind: Kind, r: nat): seq<Step>
  {
    if (e.provider in site.guarded && !a.allowed) || e.provider !in site.providers then [Skip(r)]
    else if !a.slot then [Seek(r), GiveUp(r)]
    else [Seek(r), Send(r), Increment(r)]
         + if !VisitOf(site, e, a).Won? then [Fail(r), Decrement(r)]
           else match kind
             case Chat => [Succeed(r), Decrement(r)]
             case Relayed => [Open(r), Close(r), Decrement(r)]
             case HandedNothing => [OpenNothing(r)]
  }

  function Ran(s: Sys, steps: seq<Step>, capacity: nat): Sys
  {
    if steps == [] then s else Next(Ran(s, steps[..|steps| - 1], capacity), steps[|steps| - 1], capacity)
  }

  lemma {:induction false} RanConcat(s: Sys, a: seq<Step>, b: seq<Step>, capacity: nat)
    ensures Ran(s, a + b, capacity) == Ran(Ran(s, a, capacity), b, capacity)
  {
    hide Next;
    if b == [] {
      assert a + b == a;
    } else {
      assert (a + b)[..|a + b| - 1] == a + b[..|b| - 1];
      RanConcat(s, a, b[..|b| - 1], capacity);
    }
  }

  lemma {:induction false} RanShort(s: Sys, x: Step, y: Step, z: Step, capacity: nat)
    ensures Ran(s, [], capacity) == s
    ensures Ran(s, [x], capacity) == Next(s, x, capacity)
    ensures Ran(s, [x, y], capacity) == Next(Next(s, x, capacity), y, capacity)
    ensures Ran(s, [x, y, z], capacity) == Next(Next(Next(s, x, capacity), y, capacity), z, capacity)
  {
    hide Next;
    assert [x][..0] == [] && [x, y][..1] == [x] && [x, y, z][..2] == [x, y];
  }

  /** `s'` differs from `s` in where request `r` is, and has `lost` more slots of `p` in use. */
  ghost predicate Moves(s: Sys, s': Sys, r: nat, place: Place, p: string, lost: nat)
  {
    && s'.requests == s.requests && PlaceOf(s', r) == place
    && (forall q :: q != r ==> PlaceOf(s', q) == PlaceOf(s, q))
    && forall q :: SemOf(s', q) == if q == p then SemOf(s, q).(length := SemOf(s, q).length + lost, active := SemOf(s, q).active + lost)
                                   else SemOf(s, q)
  }

  /** Request `r` is ahead of endpoint `i` of this chain, and is of this kind. */
  predicate Ahead(s: Sys, r: nat, chain: seq<Endpoint>, i: nat, kind: Kind)
  {
    PlaceOf(s, r) == At(i) && ChainOf(s, r) == chain && i < |chain| && (Streamed(s, r) <==> kind != Chat)
  }

  lemma EnterRuns(s: Sys, r: nat, chain: seq<Endpoint>, i: nat, kind: Kind, capacity: nat)
    requires Ahead(s, r, chain, i, kind) && SemOf(s, chain[i].provider).length < capacity
    ensures Moves(s, Ran(s, [Seek(r), Send(r), Increment(r)], capacity), r, Calling(i), chain[i].provider, 1)
  {
    hide Next;
    RanShort(s, Seek(r), Send(r), Increment(r), capacity);
    EnterSteps(s, r, chain, i, kind, capacity);
  }

  lemma EnterSteps(s: Sys, r: nat, chain: seq<Endpoint>, i: nat, kind: Kind, capacity: nat)
    requires Ahead(s, r, chain, i, kind) && SemOf(s, chain[i].provider).length < capacity
    ensures Moves(s, Next(Next(Next(s, Seek(r), capacity), Send(r), capacity), Increment(r), capacity), r, Calling(i), chain[i].provider, 1)
  {
  }

  /** From a call or a stream back out, through a release. */
  lemma LeaveRuns(s: Sys, s': Sys, step: Step, r: nat, chain: seq<Endpoint>, i: nat, kind: Kind, capacity: nat)
    requires Ahead(s, r, chain, i, kind) && (Moves(s, s', r, Calling(i), chain[i].provider, 1) || Moves(s, s', r, Relaying(i), chain[i].provider, 1))
    requires step == Fail(r) || (step == Succeed(r) && kind == Chat) || step == Close(r)
    requires step == Close(r) <==> PlaceOf(s', r) == Relaying(i)
    ensures Moves(s, Next(Next(s', step, capacity), Decrement(r), capacity), r,
                  if step == Fail(r) then Onward(s, r, i + 1) else Done, chain[i].provider, 0)
  {
  }

  /** Main result of one endpoint: the request goes on after it, or ends there, and the slot it took is back,
      unless it was handed no stream. */
  lemma {:induction false} TurnRuns(s: Sys, r: nat, site: Site, chain: seq<Endpoint>, i: nat, a: Answer, kind: Kind, capacity: nat)
    requires Ahead(s, r, chain, i, kind) && (a.slot ==> SemOf(s, chain[i].provider).length < capacity)
    ensures var v := VisitOf(site, chain[i], a);
      var lost := v.Won? && kind == HandedNothing;
      Moves(s, Ran(s, Turn(site, chain[i], a, kind, r), capacity), r,
            if lost then Leaked(i) else if v.Won? then Done else Onward(s, r, i + 1), chain[i].provider, if lost then 1 else 0)
  {
    hide Run, Attempted, Moves, Ran;
    var e, v := chain[i], VisitOf(site, chain[i], a);
    if (e.provider in site.guarded && !a.allowed) || e.provider !in site.providers {
      RanShort(s, Skip(r), Skip(r), Skip(r), capacity);
      SkipMoves(s, r, chain, i, kind, capacity);
    } else if !a.slot {
      RanShort(s, Seek(r), GiveUp(r), GiveUp(r), capacity);
      SkipMoves(s, r, chain, i, kind, capacity);
    } else {
      var enter := [Seek(r), Send(r), Increment(r)];
      var called := Ran(s, enter, capacity);
      EnterRuns(s, r, chain, i, kind, capacity);
      hide Next;
      if !v.Won? {
        RanConcat(s, enter, [Fail(r), Decrement(r)], capacity);
        RanShort(called, Fail(r), Decrement(r), Decrement(r), capacity);
        LeaveRuns(s, called, Fail(r), r, chain, i, kind, capacity) by { PlaceIs(s, called, r, Calling(i), e.provider, 1); }
      } else {
        match kind
        case Chat =>
          RanConcat(s, enter, [Succeed(r), Decrement(r)], capacity);
          RanShort(called, Succeed(r), Decrement(r), Decrement(r), capacity);
          LeaveRuns(s, called, Succeed(r), r, chain, i, kind, capacity) by { PlaceIs(s, called, r, Calling(i), e.provider, 1); }
        case Relayed =>
          RanConcat(s, enter, [Open(r), Close(r), Decrement(r)], capacity);
          RanShort(called, Open(r), Close(r), Decrement(r), capacity);
          OpenMoves(s, called, r, chain, i, kind, capacity);
          var relaying := Next(called, Open(r), capacity);
          LeaveRuns(s, relaying, Close(r), r, chain, i, kind, capacity) by { PlaceIs(s, relaying, r, Relaying(i), e.provider, 1); }
        case HandedNothing =>
          RanConcat(s, enter, [OpenNothing(r)], capacity);
          RanShort(called, OpenNothing(r), Decrement(r), Decrement(r), capacity);
          OpenMoves(s, called, r, chain, i, kind, capacity);
      }
    }
  }

  lemma PlaceIs(s: Sys, s': Sys, r: nat, place: Place, p: string, lost: nat)
    requires Moves(s, s', r, place, p, lost)
    ensures PlaceOf(s', r) == place
  {
  }

  lemma SkipMoves(s: Sys, r: nat, chain: seq<Endpoint>, i: nat, kind: Kind, capacity: nat)
    requires Ahead(s, r, chain, i, kind)
    ensures Moves(s, Next(s, Skip(r), capacity), r, Onward(s, r, i + 1), chain[i].provider, 0)
    ensures Moves(s, Next(Next(s, Seek(r), capacity), GiveUp(r), capacity), r, Onward(s, r, i + 1), chain[i].provider, 0)
  {
  }

  lemma OpenMoves(s: Sys, s': Sys, r: nat, chain: seq<Endpoint>, i: nat, kind: Kind, capacity: nat)
    requires Ahead(s, r, chain, i, kind) && kind != Chat && Moves(s, s', r, Calling(i), chain[i].provider, 1)
    ensures Moves(s, Next(s', Open(r), capacity), r, Relaying(i), chain[i].provider, 1)
    ensures Moves(s, Next(s', OpenNothing(r), capacity), r, Leaked(i), chain[i].provider, 1)
  {
  }

  function Turns(site: Site, chain: seq<Endpoint>, answers: nat -> Answer, kind: Kind, r: nat, k: nat): seq<Step>
    requires k <= |chain|
  {
    if k == 0 then [] else Turns(site, chain, answers, kind, r, k - 1) + Turn(site, chain[k - 1], answers(k - 1), kind, r)
  }

  /** Wherever a slot is obtained, one was free. */
  ghost predicate Roomy(s: Sys, chain: seq<Endpoint>, answers: nat -> Answer, capacity: nat)
  {
    forall i: nat :: i < |chain| && answers(i).slot ==> SemOf(s, chain[i].provider).length < capacity
  }

  lemma {:induction false} TurnsRun(s: Sys, r: nat, site: Site, chain: seq<Endpoint>, answers: nat -> Answer, kind: Kind, k: nat, capacity: nat)
    requires ChainOf(s, r) == chain && (Streamed(s, r) <==> kind != Chat) && PlaceOf(s, r) == Onward(s, r, 0)
    requires Roomy(s, chain, answers, capacity) && k <= |chain|
    requires forall j: nat :: j < k ==> !VisitOf(site, chain[j], answers(j)).Won?
    ensures Moves(s, Ran(s, Turns(site, chain, answers, kind, r, k), capacity), r, Onward(s, r, k), "", 0)
  {
    hide VisitOf, Turn, Next;
    if k > 0 {
      TurnsRun(s, r, site, chain, answers, kind, k - 1, capacity);
      var mid := Ran(s, Turns(site, chain, answers, kind, r, k - 1), capacity);
      TurnRuns(mid, r, site, chain, k - 1, answers(k - 1), kind, capacity);
      RanConcat(s, Turns(site, chain, answers, kind, r, k - 1), Turn(site, chain[k - 1], answers(k - 1), kind, r), capacity);
    }
  }

  lemma Begun(s: Sys, r: nat, chain: seq<Endpoint>, answers: nat -> Answer, kind: Kind, capacity: nat)
    requires r !in s.places && Roomy(s, chain, answers, capacity)
    ensures var begun := Next(s, Begin(r, Request(chain, kind != Chat)), capacity);
      && ChainOf(begun, r) == chain && (Streamed(begun, r) <==> kind != Chat) && PlaceOf(begun, r) == Onward(begun, r, 0)
      && Roomy(begun, chain, answers, capacity)
      && (forall q :: q != r ==> PlaceOf(begun, q) == PlaceOf(s, q)) && forall p :: SemOf(begun, p) == SemOf(s, p)
  {
  }

  /** Main result: whatever else is going on, a request that is routed along a chain without interruption is a
      run of the protocol: it begins, visits the endpoints up to the one that answers, and ends with every
      semaphore as it was, or with one slot of the last provider gone when it was handed no stream. */
  lemma {:induction false} RouteIsRun(s: Sys, r: nat, site: Site, chain: seq<Endpoint>, answers: nat -> Answer, kind: Kind, capacity: nat)
    requires r !in s.places && Roomy(s, chain, answers, capacity)
    ensures var begun := Next(s, Begin(r, Request(chain, kind != Chat)), capacity);
      var w := Winner(site, chain, answers, 0);
      var end := Ran(begun, Turns(site, chain, answers, kind, r, Visited(site, chain, answers)), capacity);
      var lost := w < |chain| && kind == HandedNothing;
      && PlaceOf(end, r) == (if lost then Leaked(w) else Done)
      && (forall q :: q != r ==> PlaceOf(end, q) == PlaceOf(s, q))
      && forall p :: SemOf(end, p).length == SemOf(s, p).length + if lost && p == chain[w].provider then 1 else 0
  {
    hide VisitOf, Turn, Next, Ran;
    var begun := Next(s, Begin(r, Request(chain, kind != Chat)), capacity);
    var w := Winner(site, chain, answers, 0);
    Begun(s, r, chain, answers, kind, capacity);
    TurnsRun(begun, r, site, chain, answers, kind, w, capacity);
    if w < |chain| {
      var mid := Ran(begun, Turns(site, chain, answers, kind, r, w), capacity);
      TurnRuns(mid, r, site, chain, w, answers(w), kind, capacity);
      RanConcat(begun, Turns(site, chain, answers, kind, r, w), Turn(site, chain[w], answers(w), kind, r), capacity);
    }
  }

  // ---- waiting for a slot ------------------------------------------------------------------

  /** The requests that have sent into the channel of `p` and not yet received from it. */
  function Occupants(s: Sys, p: string): set<nat>
  {
    set r | r in s.places && !s.places[r].Done? && ProviderAt(s, r, s.places[r].i) == p
            && (s.places[r].Sent? || s.places[r].Calling? || s.places[r].Relaying? || s.places[r].Leaked?)
  }

  lemma {:induction false} OccupantsAre(s: Sys, p: string, t: S.Sys)
    requires Mirrors(s, p, t)
    ensures S.Threads(t, S.Sent) + S.Threads(t, S.Holding) == Occupants(s, p)
    ensures |Occupants(s, p)| == |S.Threads(t, S.Sent)| + |S.Threads(t, S.Holding)|
  {
    forall r ensures r in S.Threads(t, S.Sent) + S.Threads(t, S.Holding) <==> r in Occupants(s, p) {
      assert S.PcOf(t, r) == PcFor(s, r, p);
    }
    assert S.Threads(t, S.Sent) !! S.Threads(t, S.Holding);
  }

  /** Main result, in every interleaving: a request that waits for a slot is held up exactly while as many
      requests as there are slots occupy its provider, and otherwise gets in. */
  lemma {:induction false} HeldUpIff(steps: seq<Step>, r: nat, capacity: nat)
    requires PlaceOf(Exec(steps, capacity), r).Waiting?
    ensures var s := Exec(steps, capacity);
      var p, s' := ProviderAt(s, r, PlaceOf(s, r).i), Next(s, Send(r), capacity);
      && |Occupants(s, p)| <= capacity
      && PlaceOf(s', r) == (if |Occupants(s, p)| == capacity then PlaceOf(s, r) else Sent(PlaceOf(s, r).i))
  {
    hide Exec, S.Exec, Trace, S.Threads, Occupants;
    var s := Exec(steps, capacity);
    var p := ProviderAt(s, r, PlaceOf(s, r).i);
    RouterPairs(steps, p, capacity);
    S.ExecInv(Trace(steps, p, capacity), capacity);
    OccupantsAre(s, p, S.Exec(Trace(steps, p, capacity), capacity));
  }
}
