/** Many requests inside the router at once (`internal/router/router.go`), each walking its own chain, chat
    and streamed ones together. The steps are those at which a request touches a semaphore, cut where the
    semaphore's own operations are cut; what breakers and providers answer is left open. */
module RouterProtocol {
  import S = SemaphoreProtocol
  import opened Routing

  datatype Request = Request(chain: seq<Endpoint>, streamed: bool)

  /** Where a request is: ahead of endpoint `i`; waiting for a slot; past the send; calling the provider;
      relaying its stream; past the receive of a release, to end or to go on; ended with a slot it never
      gives back, because the provider reported success and handed over no stream; ended. */
  datatype Place =
    | At(i: nat)
    | Waiting(i: nat)
    | Sent(i: nat)
    | Calling(i: nat)
    | Relaying(i: nat)
    | Freed(i: nat, ends: bool)
    | Leaked(i: nat)
    | Done

  datatype Sem = Sem(length: nat, active: int, warned: bool)

  datatype Sys = Sys(requests: map<nat, Request>, places: map<nat, Place>, sems: map<string, Sem>)

  datatype Step =
    | Begin(r: nat, request: Request)
    | Skip(r: nat)
    | Seek(r: nat)
    | GiveUp(r: nat)
    | Send(r: nat)
    | Increment(r: nat)
    | Fail(r: nat)
    | Succeed(r: nat)
    | Open(r: nat)
    | OpenNothing(r: nat)
    | Close(r: nat)
    | Decrement(r: nat)

  function PlaceOf(s: Sys, r: nat): Place { if r in s.places then s.places[r] else Done }

  function ChainOf(s: Sys, r: nat): seq<Endpoint> { if r in s.requests then s.requests[r].chain else [] }

  predicate Streamed(s: Sys, r: nat) { r in s.requests && s.requests[r].streamed }

  function SemOf(s: Sys, p: string): Sem { if p in s.sems then s.sems[p] else Sem(0, 0, false) }

  function ProviderAt(s: Sys, r: nat, i: nat): string { if i < |ChainOf(s, r)| then ChainOf(s, r)[i].provider else "" }

  /** A request past its chain's end is done. */
  function Onward(s: Sys, r: nat, i: nat): Place { if i < |ChainOf(s, r)| then At(i) else Done }

  function Moved(s: Sys, r: nat, place: Place): Sys { s.(places := s.places[r := place]) }

  /** The first half of a release at endpoint `i`, which warns and does nothing when the channel is empty. */
  function Received(s: Sys, r: nat, i: nat, ends: bool): Sys
  {
    var p := ProviderAt(s, r, i);
    var sem := SemOf(s, p);
    if sem.length > 0 then Moved(s.(sems := s.sems[p := sem.(length := sem.length - 1)]), r, Freed(i, ends))
    else Moved(s.(sems := s.sems[p := sem.(warned := true)]), r, if ends then Done else Onward(s, r, i + 1))
  }

  /** A step that is not enabled leaves the state alone, so every sequence of steps is a run. */
  function Next(s: Sys, step: Step, capacity: nat): Sys
  {
    var r := step.r;
    var place := PlaceOf(s, r);
    match step
    case Begin(_, request) =>
      if r in s.places then s else
        var begun := s.(requests := s.requests[r := request]);
        Moved(begun, r, Onward(begun, r, 0))
    case Skip(_) => if place.At? then Moved(s, r, Onward(s, r, place.i + 1)) else s
    case Seek(_) => if place.At? then Moved(s, r, Waiting(place.i)) else s
    case GiveUp(_) => if place.Waiting? then Moved(s, r, Onward(s, r, place.i + 1)) else s
    case Send(_) =>
      if !place.Waiting? then s else
        var p := ProviderAt(s, r, place.i);
        var sem := SemOf(s, p);
        if sem.length < capacity
        then Moved(s.(sems := s.sems[p := sem.(length := sem.length + 1)]), r, Sent(place.i)) else s
    case Increment(_) =>
      if !place.Sent? then s else
        var p := ProviderAt(s, r, place.i);
        Moved(s.(sems := s.sems[p := SemOf(s, p).(active := SemOf(s, p).active + 1)]), r, Calling(place.i))
    case Fail(_) => if place.Calling? then Received(s, r, place.i, false) else s
    case Succeed(_) => if place.Calling? && !Streamed(s, r) then Received(s, r, place.i, true) else s
    case Open(_) => if place.Calling? && Streamed(s, r) then Moved(s, r, Relaying(place.i)) else s
    case OpenNothing(_) => if place.Calling? && Streamed(s, r) then Moved(s, r, Leaked(place.i)) else s
    case Close(_) => if place.Relaying? then Received(s, r, place.i, true) else s
    case Decrement(_) =>
      if !place.Freed? then s else
        var p := ProviderAt(s, r, place.i);
        Moved(s.(sems := s.sems[p := SemOf(s, p).(active := SemOf(s, p).active - 1)]), r,
              if place.ends then Done else Onward(s, r, place.i + 1))
  }

  const START: Sys := Sys(map[], map[], map[])

  function Exec(steps: seq<Step>, capacity: nat): Sys
  {
    if steps == [] then START else Next(Exec(steps[..|steps| - 1], capacity), steps[|steps| - 1], capacity)
  }

  // ---- what one provider's semaphore sees --------------------------------------------------

  /** The request as a thread of the semaphore of `p`. */
  function PcFor(s: Sys, r: nat, p: string): S.Pc
  {
    match PlaceOf(s, r)
    case Waiting(i) => if ProviderAt(s, r, i) == p then S.Waiting else S.Outside
    case Sent(i) => if ProviderAt(s, r, i) == p then S.Sent else S.Outside
    case Calling(i) => if ProviderAt(s, r, i) == p then S.Holding else S.Outside
    case Relaying(i) => if ProviderAt(s, r, i) == p then S.Holding else S.Outside
    case Leaked(i) => if ProviderAt(s, r, i) == p then S.Holding else S.Outside
    case Freed(i, _) => if ProviderAt(s, r, i) == p then S.Received else S.Outside
    case At(_) => S.Outside
    case Done => S.Outside
  }

  /** The semaphore's part in a step of the router, if it has one. */
  function Share(s: Sys, step: Step, p: string): seq<S.Step>
  {
    var r := step.r;
    var place := PlaceOf(s, r);
    if place.At? then (if step.Seek? && ProviderAt(s, r, place.i) == p then [S.Wait(r)] else [])
    else if place.Done? || ProviderAt(s, r, place.i) != p then []
    else match step
      case GiveUp(_) => if place.Waiting? then [S.GiveUp(r)] else []
      case Send(_) => if place.Waiting? then [S.Send(r)] else []
      case Increment(_) => if place.Sent? then [S.Increment(r)] else []
      case Fail(_) => if place.Calling? then [S.Receive(r)] else []
      case Succeed(_) => if place.Calling? && !Streamed(s, r) then [S.Receive(r)] else []
      case Close(_) => if place.Relaying? then [S.Receive(r)] else []
      case Decrement(_) => if place.Freed? then [S.Decrement(r)] else []
      case _ => []
  }

  function Trace(steps: seq<Step>, p: string, capacity: nat): seq<S.Step>
  {
    if steps == [] then [] else
      Trace(steps[..|steps| - 1], p, capacity)
      + Share(Exec(steps[..|steps| - 1], capacity), steps[|steps| - 1], p)
  }

  ghost predicate Mirrors(s: Sys, p: string, t: S.Sys)
  {
    && t.length == SemOf(s, p).length && t.active == SemOf(s, p).active && t.warned == SemOf(s, p).warned
    && forall r :: S.PcOf(t, r) == PcFor(s, r, p)
  }

  lemma {:induction false} OthersPlaces(s: Sys, step: Step, q: nat, capacity: nat)
    requires q != step.r
    ensures var s' := Next(s, step, capacity); PlaceOf(s', q) == PlaceOf(s, q) && ChainOf(s', q) == ChainOf(s, q)
  {
    hide SemOf, ProviderAt, Onward;
  }

  lemma {:induction false} OthersStay(s: Sys, step: Step, p: string, q: nat, capacity: nat)
    requires q != step.r
    ensures PcFor(Next(s, step, capacity), q, p) == PcFor(s, q, p)
  {
    OthersPlaces(s, step, q, capacity);
    hide Next, PlaceOf, ChainOf;
  }

  lemma {:induction false} ThreadsStay(t: S.Sys, x: S.Step, q: nat, capacity: nat)
    requires q != x.t
    ensures S.PcOf(S.Next(t, x, capacity), q) == S.PcOf(t, q)
  {
  }

  function Shared(t: S.Sys, share: seq<S.Step>, capacity: nat): S.Sys
  {
    if share == [] then t else S.Next(t, share[0], capacity)
  }

  /** What the mirror shows of the semaphore and of the request that moves. */
  ghost predicate MirrorsOne(s: Sys, p: string, t: S.Sys, r: nat)
  {
    && t.length == SemOf(s, p).length && t.active == SemOf(s, p).active && t.warned == SemOf(s, p).warned
    && S.PcOf(t, r) == PcFor(s, r, p)
  }

  /** The first half of a release, by a request that holds a slot at endpoint `i`. */
  lemma {:induction false} ReceiveMirrored(s: Sys, r: nat, i: nat, ends: bool, p: string, t: S.Sys, capacity: nat)
    requires MirrorsOne(s, p, t, r)
    requires PlaceOf(s, r) in {Calling(i), Relaying(i)}
    ensures MirrorsOne(Received(s, r, i, ends), p, if ProviderAt(s, r, i) == p then S.Next(t, S.Receive(r), capacity) else t, r)
  {
  }

  lemma {:induction false} HolderMirrored(s: Sys, step: Step, p: string, t: S.Sys, capacity: nat)
    requires MirrorsOne(s, p, t, step.r) && (PlaceOf(s, step.r).Calling? || PlaceOf(s, step.r).Relaying?)
    ensures MirrorsOne(Next(s, step, capacity), p, Shared(t, Share(s, step, p), capacity), step.r)
  {
    hide Received, Onward;
    var r, place := step.r, PlaceOf(s, step.r);
    ReceiveMirrored(s, r, place.i, true, p, t, capacity);
    ReceiveMirrored(s, r, place.i, false, p, t, capacity);
  }

  lemma {:induction false} CounterMirrored(s: Sys, step: Step, p: string, t: S.Sys, capacity: nat)
    requires MirrorsOne(s, p, t, step.r) && (PlaceOf(s, step.r).Sent? || PlaceOf(s, step.r).Freed?)
    ensures MirrorsOne(Next(s, step, capacity), p, Shared(t, Share(s, step, p), capacity), step.r)
  {
    hide Received;
  }

  lemma {:induction false} OwnMirrored(s: Sys, step: Step, p: string, t: S.Sys, capacity: nat)
    requires MirrorsOne(s, p, t, step.r)
    ensures MirrorsOne(Next(s, step, capacity), p, Shared(t, Share(s, step, p), capacity), step.r)
  {
    hide Received;
    var place := PlaceOf(s, step.r);
    if place.Calling? || place.Relaying? {
      HolderMirrored(s, step, p, t, capacity);
    } else if place.Sent? || place.Freed? {
      CounterMirrored(s, step, p, t, capacity);
    }
  }

  lemma {:induction false} ShareIsOwn(s: Sys, step: Step, p: string)
    ensures |Share(s, step, p)| <= 1 && forall x :: x in Share(s, step, p) ==> !x.Stray? && x.t == step.r
  {
  }

  lemma {:induction false} StepMirrored(s: Sys, step: Step, p: string, t: S.Sys, capacity: nat)
    requires Mirrors(s, p, t)
    ensures Mirrors(Next(s, step, capacity), p, Shared(t, Share(s, step, p), capacity))
    ensures |Share(s, step, p)| <= 1 && forall x :: x in Share(s, step, p) ==> !x.Stray?
  {
    hide Next, Share, PcFor, S.Next, S.PcOf;
    ShareIsOwn(s, step, p);
    OwnMirrored(s, step, p, t, capacity);
    var t' := Shared(t, Share(s, step, p), capacity);
    forall q ensures S.PcOf(t', q) == PcFor(Next(s, step, capacity), q, p) {
      assert S.PcOf(t, q) == PcFor(s, q, p);
      if q != step.r {
        OthersStay(s, step, p, q, capacity);
        if Share(s, step, p) != [] { ThreadsStay(t, Share(s, step, p)[0], q, capacity); }
      }
    }
  }

  /** Main result: whatever requests do, each provider's semaphore sees threads that release only what they
      acquired. What `SemaphoreLaws` says about such threads applies to the router. */
  lemma {:induction false} RouterPairs(steps: seq<Step>, p: string, capacity: nat)
    ensures S.Paired(Trace(steps, p, capacity))
    ensures Mirrors(Exec(steps, capacity), p, S.Exec(Trace(steps, p, capacity), capacity))
  {
    hide Next, Share, S.Next;
    if steps != [] {
      var front, last := steps[..|steps| - 1], steps[|steps| - 1];
      RouterPairs(front, p, capacity);
      var s := Exec(front, capacity);
      StepMirrored(s, last, p, S.Exec(Trace(front, p, capacity), capacity), capacity);
      var trace := Trace(front, p, capacity);
      if Share(s, last, p) != [] {
        assert (trace + Share(s, last, p))[..|trace|] == trace;
      } else {
        assert trace + Share(s, last, p) == trace;
      }
    }
  }

  // ---- calls and slots ---------------------------------------------------------------------

  /** The requests that are calling provider `p` or relaying a stream of its, and those that have lost one
      of its slots. */
  function InFlight(s: Sys, p: string): set<nat>
  {
    set r | r in s.places && (s.places[r].Calling? || s.places[r].Relaying?) && ProviderAt(s, r, s.places[r].i) == p
  }

  function LostSlots(s: Sys, p: string): set<nat>
  {
    set r | r in s.places && s.places[r].Leaked? && ProviderAt(s, r, s.places[r].i) == p
  }

  /** Every request has ended, with or without giving its slot back. */
  ghost predicate AtRest(s: Sys) { forall r :: r in s.places ==> s.places[r].Done? || s.places[r].Leaked? }

  lemma {:induction false} HoldersAre(s: Sys, p: string, t: S.Sys)
    requires Mirrors(s, p, t)
    ensures S.Threads(t, S.Holding) == InFlight(s, p) + LostSlots(s, p)
    ensures AtRest(s) ==> S.Threads(t, S.Sent) == {} && S.Threads(t, S.Received) == {}
  {
    forall r ensures r in S.Threads(t, S.Holding) <==> r in InFlight(s, p) + LostSlots(s, p) {
      assert S.PcOf(t, r) == PcFor(s, r, p);
    }
    if AtRest(s) {
      forall r ensures r !in S.Threads(t, S.Sent) && r !in S.Threads(t, S.Received) {
        assert S.PcOf(t, r) == PcFor(s, r, p);
      }
    }
  }

  /** Main result, in every interleaving of routed chat and streamed requests, however often a chain names a
      provider: the calls and streams of a provider that are in flight and the slots it has lost never exceed
      its capacity together, no release finds the channel empty, and once all requests have ended the slots
      in use are exactly the lost ones. */
  lemma {:induction false} CallsWithinCapacity(steps: seq<Step>, p: string, capacity: nat)
    ensures var s := Exec(steps, capacity);
      && |InFlight(s, p)| + |LostSlots(s, p)| <= capacity
      && !SemOf(s, p).warned
      && (AtRest(s) ==> SemOf(s, p).length == SemOf(s, p).active == |LostSlots(s, p)|)
  {
    hide Exec, S.Exec, Trace, S.Threads;
    var s, trace := Exec(steps, capacity), Trace(steps, p, capacity);
    var t := S.Exec(trace, capacity);
    RouterPairs(steps, p, capacity);
    S.ExecInv(trace, capacity);
    HoldersAre(s, p, t);
    NotBoth(s, p);
    if AtRest(s) {
      assert InFlight(s, p) == {};
    }
  }

  lemma {:induction false} NotBoth(s: Sys, p: string)
    ensures |InFlight(s, p) + LostSlots(s, p)| == |InFlight(s, p)| + |LostSlots(s, p)|
  {
    assert InFlight(s, p) !! LostSlots(s, p);
  }
}
