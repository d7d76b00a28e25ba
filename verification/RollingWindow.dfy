/** The bucketed rolling window of the budget tracker (`internal/budget/tracker.go`).

    Times and durations are integers (nanoseconds since the zero time); costs are exact reals.
    The class keeps the buckets in a preallocated array that `CleanExpired` compacts in place.
    Its methods are specified by the functions `Fresh`, `Total` and `Added` on bucket sequences;
    `WindowHistory.dfy` relates those functions to a plain log of timed costs. */
module RollingWindow {

  datatype Bucket = Bucket(timestamp: int, value: real)

  /** Rounds `t` down to a multiple of `d`; a non-positive `d` leaves `t` alone. */
  function Truncate(t: int, d: int): (r: int)
    ensures d > 0 ==> r <= t < r + d
    ensures d <= 0 ==> r == t
  {
    if d <= 0 then t else t - t % d
  }

  /** The buckets whose timestamp is after `cutoff`, in their original order. */
  function Fresh(bs: seq<Bucket>, cutoff: int): (r: seq<Bucket>)
    ensures |r| <= |bs|
  {
    if bs == [] then [] else
      var rest := Fresh(bs[..|bs| - 1], cutoff);
      var last := bs[|bs| - 1];
      if last.timestamp > cutoff then rest + [last] else rest
  }

  lemma FreshStep(bs: seq<Bucket>, k: nat, cutoff: int)
    requires k < |bs|
    ensures Fresh(bs[..k + 1], cutoff) ==
            if bs[k].timestamp > cutoff then Fresh(bs[..k], cutoff) + [bs[k]] else Fresh(bs[..k], cutoff)
  {
    assert bs[..k + 1][..k] == bs[..k];
  }

  lemma FreshOfNothing(cutoff: int)
    ensures Fresh([], cutoff) == []
  {
  }

  function Total(bs: seq<Bucket>): real
  {
    if bs == [] then 0.0 else Total(bs[..|bs| - 1]) + bs[|bs| - 1].value
  }

  /** The least index holding timestamp `ts`, or `|bs|` when there is none. */
  function IndexOf(bs: seq<Bucket>, ts: int): (i: nat)
    ensures i <= |bs|
    ensures i < |bs| ==> bs[i].timestamp == ts
    ensures forall k :: 0 <= k < i ==> bs[k].timestamp != ts
  {
    if bs == [] then 0
    else if bs[0].timestamp == ts then 0
    else 1 + IndexOf(bs[1..], ts)
  }

  lemma IndexOfIsLeast(bs: seq<Bucket>, ts: int, i: nat)
    requires i <= |bs| && (i < |bs| ==> bs[i].timestamp == ts)
    requires forall k :: 0 <= k < i ==> bs[k].timestamp != ts
    ensures IndexOf(bs, ts) == i
  {
    var j := IndexOf(bs, ts);
    assert !(j < i) && !(i < j);
  }

  /** Adds `value` to the first bucket stamped `ts`, or appends such a bucket. */
  function Merged(bs: seq<Bucket>, ts: int, value: real): seq<Bucket>
  {
    var i := IndexOf(bs, ts);
    if i < |bs| then bs[i := Bucket(ts, bs[i].value + value)] else bs + [Bucket(ts, value)]
  }

  function Added(bs: seq<Bucket>, t: int, value: real, windowSize: int, bucketSize: int): seq<Bucket>
  {
    Merged(Fresh(bs, t - windowSize), Truncate(t, bucketSize), value)
  }

  /** The number of buckets the constructor reserves room for. Go's division truncates toward zero;
      it differs from Dafny's only on quotients below 1, which the clamp replaces. */
  function NumBuckets(windowSize: int, bucketSize: int): (n: nat)
    requires bucketSize != 0
    ensures n >= 1
    ensures bucketSize > 0 && windowSize >= bucketSize ==> n == windowSize / bucketSize
  {
    var q := if (windowSize < 0) == (bucketSize < 0)
             then Abs(windowSize) / Abs(bucketSize)
             else -(Abs(windowSize) / Abs(bucketSize));
    if q < 1 then 1 else q
  }

  function Abs(x: int): int { if x < 0 then -x else x }

  class Window {
    const windowSize: int
    const bucketSize: int
    const numBuckets: nat
    var buckets: array<Bucket>
    var len: nat

    ghost predicate Valid()
      reads this
    {
      len <= buckets.Length
    }

    ghost function Contents(): (s: seq<Bucket>)
      reads this, buckets
      requires Valid()
      ensures |s| == len
    {
      buckets[..len]
    }

    constructor (windowSize: int, bucketSize: int)
      requires bucketSize != 0
      ensures Valid() && fresh(buckets) && Contents() == []
      ensures this.windowSize == windowSize && this.bucketSize == bucketSize
      ensures buckets.Length == numBuckets == NumBuckets(windowSize, bucketSize)
    {
      this.windowSize := windowSize;
      this.bucketSize := bucketSize;
      this.numBuckets := NumBuckets(windowSize, bucketSize);
      buckets := new Bucket[NumBuckets(windowSize, bucketSize)](_ => Bucket(0, 0.0));
      len := 0;
    }

    /** Compacts the live buckets to the front of the array, in place. */
    method CleanExpired(now: int)
      requires Valid()
      modifies this`len, buckets
      ensures Valid()
      ensures Contents() == Fresh(old(Contents()), now - windowSize)
    {
      hide Fresh;
      FreshOfNothing(now - windowSize);
      var cutoff := now - windowSize;
      ghost var was := Contents();
      ghost var kept: seq<Bucket> := [];
      var write := 0;
      for read := 0 to len
        invariant |kept| == write <= read <= len == |was| <= buckets.Length
        invariant kept == Fresh(was[..read], cutoff)
        invariant forall k :: 0 <= k < write ==> buckets[k] == kept[k]
        invariant forall k :: read <= k < len ==> buckets[k] == was[k]
      {
        var b := buckets[read];
        FreshStep(was, read, cutoff);
        if b.timestamp > cutoff {
          buckets[write] := b;
          kept := kept + [b];
          write := write + 1;
        }
      }
      assert was[..|was|] == was;
      len := write;
    }

    /** Adds `value` at time `t`. The array is replaced only when the append finds it full. */
    method Add(t: int, value: real)
      requires Valid()
      modifies this`len, this`buckets, buckets
      ensures Valid()
      ensures Contents() == Added(old(Contents()), t, value, windowSize, bucketSize)
      ensures if len <= old(buckets.Length) then buckets == old(buckets) else fresh(buckets)
    {
      CleanExpired(t);
      Insert(Truncate(t, bucketSize), value);
    }

    /** The second half of `Add`: find or create the bucket stamped `bucketTime`. */
    method Insert(bucketTime: int, value: real)
      requires Valid()
      modifies this`len, this`buckets, buckets
      ensures Valid()
      ensures Contents() == Merged(old(Contents()), bucketTime, value)
      ensures if len <= old(buckets.Length) then buckets == old(buckets) else fresh(buckets)
    {
      ghost var live := Contents();
      var i := Find(bucketTime);
      if i < len {
        buckets[i] := Bucket(bucketTime, buckets[i].value + value);
        assert Contents() == live[i := Bucket(bucketTime, live[i].value + value)];
      } else {
        if len == buckets.Length {
          Grow();
        }
        buckets[len] := Bucket(bucketTime, value);
        len := len + 1;
        assert Contents() == live + [Bucket(bucketTime, value)];
      }
    }

    /** The scan of `Add` for a bucket stamped `ts`; `len` when there is none. */
    method Find(ts: int) returns (i: nat)
      requires Valid()
      ensures i == IndexOf(Contents(), ts)
    {
      ghost var live := Contents();
      i := 0;
      while i < len && buckets[i].timestamp != ts
        invariant i <= len
        invariant forall k :: 0 <= k < i ==> live[k].timestamp != ts
      {
        assert live[i] == buckets[i];
        i := i + 1;
      }
      assert i < len ==> live[i] == buckets[i];
      IndexOfIsLeast(live, ts, i);
    }

    /** Moves the buckets to a larger array, as Go's `append` does when the slice is full. */
    method Grow()
      requires Valid()
      modifies this`buckets
      ensures Valid() && fresh(buckets) && Contents() == old(Contents()) && len < buckets.Length
    {
      var bigger := new Bucket[2 * len + 1](_ => Bucket(0, 0.0));
      for i := 0 to len
        invariant Valid() && buckets == old(buckets)
        invariant bigger[..i] == buckets[..i] && buckets[..len] == old(buckets[..len])
      {
        bigger[i] := buckets[i];
      }
      buckets := bigger;
    }

    /** The windowed total at `now`; expired buckets are dropped on the way. */
    method Sum(now: int) returns (sum: real)
      requires Valid()
      modifies this`len, buckets
      ensures Valid()
      ensures Contents() == Fresh(old(Contents()), now - windowSize)
      ensures sum == Total(Contents())
    {
      CleanExpired(now);
      sum := 0.0;
      for i := 0 to len
        invariant sum == Total(Contents()[..i])
      {
        assert Contents()[..i + 1][..i] == Contents()[..i];
        sum := sum + buckets[i].value;
      }
      assert Contents()[..len] == Contents();
    }
  }
}
