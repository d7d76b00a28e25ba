/** What the semaphore guarantees to threads that release only what they acquired, and what one that does
    not can break. */
module SemaphoreLaws {
  import opened SemaphoreProtocol

  /** Main result, in every interleaving of threads that release what they acquired: the channel length
      is the threads that have sent plus the holders, `active` the holders plus the threads in the
      middle of a release, holders never exceed the capacity, and the empty-release branch is never
      taken. Once everybody is outside, both are back to zero. */
  lemma SlotsAccounted(steps: seq<Step>, capacity: nat)
    requires Paired(steps)
    ensures var s := Exec(steps, capacity);
      && s.length == |Threads(s, Sent)| + |Threads(s, Holding)|
      && s.active == |Threads(s, Holding)| + |Threads(s, Received)| >= 0
      && |Threads(s, Holding)| <= capacity
      && !s.warned
      && ((forall t :: PcOf(s, t) == Outside) ==> s.length == 0 && s.active == 0)
  {
    var s := Exec(steps, capacity);
    ExecInv(steps, capacity);
    if forall t :: PcOf(s, t) == Outside {
      forall pc | pc != Outside ensures Threads(s, pc) == {} {
        assert forall t :: t in Threads(s, pc) ==> PcOf(s, t) == pc;
      }
    }
  }

  /** Main result: a thread in `Acquire` is held up exactly while every slot is taken by another thread,
      and as soon as any holder has received from the channel it gets in. Giving up leaves no trace. */
  lemma WaiterBlockedIff(steps: seq<Step>, t: nat, capacity: nat)
    requires Paired(steps) && PcOf(Exec(steps, capacity), t) == Waiting
    ensures var s := Exec(steps, capacity);
      && (PcOf(Next(s, Send(t), capacity), t) == Waiting <==> |Threads(s, Sent)| + |Threads(s, Holding)| == capacity)
      && (forall u :: PcOf(s, u) == Holding ==>
            PcOf(Next(Next(s, Receive(u), capacity), Send(t), capacity), t) == Sent)
      && var s' := Next(s, GiveUp(t), capacity);
         PcOf(s', t) == Outside && s'.length == s.length && s'.active == s.active && Threads(s', Holding) == Threads(s, Holding)
  {
    hide Exec;
    ExecInv(steps, capacity);
    var s := Exec(steps, capacity);
    forall u | PcOf(s, u) == Holding
      ensures PcOf(Next(Next(s, Receive(u), capacity), Send(t), capacity), t) == Sent
    {
      HolderCounted(s, u);
      assert PcOf(Next(s, Receive(u), capacity), t) == Waiting;
    }
    ThreadsAfter(s, t, Outside, Holding);
  }

  /** The comment on `Release` calls a repeated release a no-op. It is one exactly when no other thread
      has a slot. */
  lemma StrayIsNoOpIff(steps: seq<Step>, t: nat, capacity: nat)
    requires Paired(steps) && PcOf(Exec(steps, capacity), t) == Outside
    ensures var s := Exec(steps, capacity);
      var s' := Next(Next(s, Stray(t), capacity), Decrement(t), capacity);
      (s'.length == s.length && s'.active == s.active) <==> Threads(s, Sent) + Threads(s, Holding) == {}
  {
    ExecInv(steps, capacity);
    var s := Exec(steps, capacity);
    if Threads(s, Sent) + Threads(s, Holding) == {} {
      assert Threads(s, Sent) == {} && Threads(s, Holding) == {};
    }
  }

  /** Threads 0 to k - 1 each acquire a slot. */
  function Acquires(k: nat): seq<Step>
  {
    if k == 0 then [] else Acquires(k - 1) + [Send(k - 1)] + [Increment(k - 1)]
  }

  ghost predicate FirstHold(s: Sys, k: nat)
  {
    (forall t: nat :: PcOf(s, t) == if t < k then Holding else Outside) && |Threads(s, Holding)| == k
  }

  lemma OneMoreHolds(s: Sys, k: nat, capacity: nat)
    requires FirstHold(s, k) && s.length < capacity
    ensures var s' := Next(Next(s, Send(k), capacity), Increment(k), capacity);
      FirstHold(s', k + 1) && s'.length == s.length + 1 && s'.active == s.active + 1
  {
    var s' := Next(Next(s, Send(k), capacity), Increment(k), capacity);
    assert PcOf(s, k) == Outside;
    assert s'.pcs == s.pcs[k := Holding];
    forall t: nat ensures PcOf(s', t) == if t < k + 1 then Holding else Outside {
      assert t != k ==> PcOf(s', t) == PcOf(s, t);
    }
    assert Threads(s', Holding) == Threads(s, Holding) + {k};
  }

  lemma ExecTwo(front: seq<Step>, a: Step, b: Step, capacity: nat)
    ensures Exec(front + [a] + [b], capacity) == Next(Next(Exec(front, capacity), a, capacity), b, capacity)
  {
    hide Next;
    assert (front + [a] + [b])[..|front| + 1] == front + [a];
    assert (front + [a])[..|front|] == front;
  }

  lemma {:induction false} AcquiresHold(k: nat, capacity: nat)
    requires k <= capacity
    ensures FirstHold(Exec(Acquires(k), capacity), k) && Exec(Acquires(k), capacity).length == k
    ensures Paired(Acquires(k))
  {
    hide Next, FirstHold, Exec;
    if k == 0 {
      NobodyHolds(capacity);
    } else {
      AcquiresHold(k - 1, capacity);
      ExecTwo(Acquires(k - 1), Send(k - 1), Increment(k - 1), capacity);
      OneMoreHolds(Exec(Acquires(k - 1), capacity), k - 1, capacity);
    }
  }

  lemma NobodyHolds(capacity: nat)
    ensures Exec([], capacity) == START && FirstHold(START, 0)
  {
    assert Threads(START, Holding) == {};
  }

  ghost predicate Overfull(steps: seq<Step>, t: nat, capacity: nat)
  {
    |Threads(Exec(steps + [Stray(t), Decrement(t)] + [Send(t), Increment(t)], capacity), Holding)| == capacity + 1
  }

  /** One stray release on a full semaphore lets one holder too many in, for every capacity. */
  lemma StrayBreaksCapacity(capacity: nat)
    requires capacity > 0
    ensures exists steps, t :: Paired(steps) && Overfull(steps, t, capacity)
  {
    AcquiresHold(capacity, capacity);
    var steps, t := Acquires(capacity), capacity;
    var s := Exec(steps, capacity);
    var robbed := Next(Next(s, Stray(t), capacity), Decrement(t), capacity);
    assert PcOf(s, t) == Outside && robbed.pcs == s.pcs[t := Outside];
    forall u: nat ensures PcOf(robbed, u) == PcOf(s, u) {}
    assert Threads(robbed, Holding) == Threads(s, Holding);
    assert steps + [Stray(t), Decrement(t)] == steps + [Stray(t)] + [Decrement(t)];
    ExecTwo(steps, Stray(t), Decrement(t), capacity);
    var after := steps + [Stray(t), Decrement(t)];
    assert after + [Send(t), Increment(t)] == after + [Send(t)] + [Increment(t)];
    ExecTwo(after, Send(t), Increment(t), capacity);
    OneMoreHolds(robbed, capacity, capacity);
    assert Overfull(steps, t, capacity);
  }
}
