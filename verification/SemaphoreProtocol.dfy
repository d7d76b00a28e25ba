/** Threads interleaving inside the operations of a semaphore. */
module SemaphoreProtocol {

  /** A thread that waits in `Acquire`, one that has sent but not yet counted itself, one that holds a
      slot, and one that has received but not yet uncounted itself. */
  datatype Pc = Outside | Waiting | Sent | Holding | Received

  datatype Sys = Sys(length: nat, active: int, pcs: map<nat, Pc>, warned: bool)

  /** `TryAcquire` sends at once or not at all; a thread in `Acquire` waits until it can send or its
      context is done. `Stray` is the first half of a release by a thread that holds nothing. */
  datatype Step = Wait(t: nat) | GiveUp(t: nat) | Send(t: nat) | Increment(t: nat) | Receive(t: nat) | Decrement(t: nat) | Stray(t: nat)

  function PcOf(s: Sys, t: nat): Pc { if t in s.pcs then s.pcs[t] else Outside }

  function Next(s: Sys, step: Step, capacity: nat): Sys
  {
    match step
    case Wait(t) => if PcOf(s, t) == Outside then s.(pcs := s.pcs[t := Waiting]) else s
    case GiveUp(t) => if PcOf(s, t) == Waiting then s.(pcs := s.pcs[t := Outside]) else s
    case Send(t) =>
      if (PcOf(s, t) == Outside || PcOf(s, t) == Waiting) && s.length < capacity
      then s.(length := s.length + 1, pcs := s.pcs[t := Sent]) else s
    case Increment(t) =>
      if PcOf(s, t) == Sent then s.(active := s.active + 1, pcs := s.pcs[t := Holding]) else s
    case Receive(t) =>
      if PcOf(s, t) != Holding then s
      else if s.length > 0 then s.(length := s.length - 1, pcs := s.pcs[t := Received])
      else s.(warned := true, pcs := s.pcs[t := Outside])
    case Decrement(t) =>
      if PcOf(s, t) == Received then s.(active := s.active - 1, pcs := s.pcs[t := Outside]) else s
    case Stray(t) =>
      if PcOf(s, t) != Outside then s
      else if s.length > 0 then s.(length := s.length - 1, pcs := s.pcs[t := Received])
      else s.(warned := true)
  }

  const START: Sys := Sys(0, 0, map[], false)

  function Exec(steps: seq<Step>, capacity: nat): Sys
  {
    if steps == [] then START else Next(Exec(steps[..|steps| - 1], capacity), steps[|steps| - 1], capacity)
  }

  function Threads(s: Sys, pc: Pc): set<nat> { set t | t in s.pcs && s.pcs[t] == pc }

  /** Threads release only what they acquired. */
  ghost predicate Paired(steps: seq<Step>) { forall step :: step in steps ==> !step.Stray? }

  lemma ThreadsAfter(s: Sys, t: nat, to: Pc, pc: Pc)
    ensures Threads(s.(pcs := s.pcs[t := to]), pc) == if to == pc then Threads(s, pc) + {t} else Threads(s, pc) - {t}
  {
  }

  lemma MovePc(s: Sys, t: nat, to: Pc, pc: Pc)
    requires pc != Outside && PcOf(s, t) != to
    ensures |Threads(s.(pcs := s.pcs[t := to]), pc)|
         == |Threads(s, pc)| + (if to == pc then 1 else 0) - (if PcOf(s, t) == pc then 1 else 0)
  {
    ThreadsAfter(s, t, to, pc);
    assert t in Threads(s, pc) <==> PcOf(s, t) == pc;
    hide Threads;
  }

  ghost predicate Inv(s: Sys, capacity: nat)
  {
    && s.length == |Threads(s, Sent)| + |Threads(s, Holding)| <= capacity
    && s.active == |Threads(s, Holding)| + |Threads(s, Received)|
    && !s.warned
  }

  lemma CountsDependOnPcs(s: Sys, s': Sys, pc: Pc)
    requires s.pcs == s'.pcs
    ensures Threads(s, pc) == Threads(s', pc)
  {
  }

  lemma NextKeepsInv(s: Sys, step: Step, capacity: nat)
    requires Inv(s, capacity) && !step.Stray?
    ensures Inv(Next(s, step, capacity), capacity)
  {
    hide Threads;
    var s' := Next(s, step, capacity);
    if step.Receive? && PcOf(s, step.t) == Holding {
      HolderCounted(s, step.t);
    }
    if s' != s {
      var to := PcOf(s', step.t);
      var moved := s.(pcs := s.pcs[step.t := to]);
      forall pc | pc in {Sent, Holding, Received}
        ensures |Threads(s', pc)| == |Threads(s, pc)| + (if to == pc then 1 else 0) - (if PcOf(s, step.t) == pc then 1 else 0)
      {
        MovePc(s, step.t, to, pc);
        CountsDependOnPcs(moved, s', pc);
      }
    }
  }

  lemma HolderCounted(s: Sys, t: nat)
    requires PcOf(s, t) == Holding
    ensures |Threads(s, Holding)| > 0
  {
    assert t in Threads(s, Holding);
  }

  lemma {:induction false} ExecInv(steps: seq<Step>, capacity: nat)
    requires Paired(steps)
    ensures Inv(Exec(steps, capacity), capacity)
  {
    if steps == [] {
      assert forall pc :: Threads(START, pc) == {};
    } else {
      ExecInv(steps[..|steps| - 1], capacity);
      NextKeepsInv(Exec(steps[..|steps| - 1], capacity), steps[|steps| - 1], capacity);
    }
  }
}
