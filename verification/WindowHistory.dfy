/** What a rolling window reports over a whole history of adds and sums, stated against the plain
    log of timed costs, and how many buckets it ever needs. */
module WindowHistory {
  import opened Wrappers
  import opened RollingWindow

  datatype Op = AddAt(t: int, value: real) | SumAt(t: int)

  function Apply(bs: seq<Bucket>, op: Op, windowSize: int, bucketSize: int): seq<Bucket>
  {
    match op
    case AddAt(t, v) => Added(bs, t, v, windowSize, bucketSize)
    case SumAt(t) => Fresh(bs, t - windowSize)
  }

  /** The part of an operation's own cost that is inside the window of `now`. */
  function Kept(op: Op, now: int, windowSize: int, bucketSize: int): real
  {
    if op.AddAt? && Truncate(op.t, bucketSize) > now - windowSize then op.value else 0.0
  }

  /** The buckets left by `ops`, run in order on a new window. */
  function Run(ops: seq<Op>, windowSize: int, bucketSize: int): seq<Bucket>
  {
    if ops == [] then [] else
      Apply(Run(ops[..|ops| - 1], windowSize, bucketSize), ops[|ops| - 1], windowSize, bucketSize)
  }

  /** The reference: the total of the logged costs that are inside the window of `latest` and of
      every operation that came after them. No buckets are involved. */
  function Surviving(ops: seq<Op>, latest: int, windowSize: int, bucketSize: int): real
  {
    if ops == [] then 0.0 else
      var last := ops[|ops| - 1];
      Surviving(ops[..|ops| - 1], Max(latest, last.t), windowSize, bucketSize)
      + Kept(last, latest, windowSize, bucketSize)
  }

  /** The total of the logged costs whose truncated timestamp is after `cutoff`. */
  function LogTotal(ops: seq<Op>, cutoff: int, bucketSize: int): real
  {
    if ops == [] then 0.0 else
      var last := ops[|ops| - 1];
      LogTotal(ops[..|ops| - 1], cutoff, bucketSize)
      + if last.AddAt? && Truncate(last.t, bucketSize) > cutoff then last.value else 0.0
  }

  /** The exact spend strictly after `since`, with no truncation at all. */
  function SpendSince(ops: seq<Op>, since: int): real
  {
    if ops == [] then 0.0 else
      var last := ops[|ops| - 1];
      SpendSince(ops[..|ops| - 1], since) + if last.AddAt? && last.t > since then last.value else 0.0
  }

  // ---- buckets against totals -------------------------------------------------------------

  /** The total value of the buckets stamped after `cutoff`: what `Sum` reports. */
  function Live(bs: seq<Bucket>, cutoff: int): real
  {
    if bs == [] then 0.0 else
      Live(bs[..|bs| - 1], cutoff) + Counted(bs[|bs| - 1], cutoff)
  }

  function Counted(b: Bucket, cutoff: int): real { if b.timestamp > cutoff then b.value else 0.0 }

  lemma LiveStep(front: seq<Bucket>, b: Bucket, cutoff: int)
    ensures Live(front + [b], cutoff) == Live(front, cutoff) + Counted(b, cutoff)
  {
    assert (front + [b])[..|front|] == front;
  }

  lemma {:induction false} LiveOfFresh(bs: seq<Bucket>, a: int, b: int)
    ensures Live(Fresh(bs, a), b) == Live(bs, Max(a, b))
  {
    if bs != [] {
      var front, last := bs[..|bs| - 1], bs[|bs| - 1];
      LiveOfFresh(front, a, b);
      LiveStep(Fresh(front, a), last, b);
    }
  }

  lemma {:induction false} TotalIsLive(bs: seq<Bucket>, cutoff: int)
    ensures Total(Fresh(bs, cutoff)) == Live(bs, cutoff)
  {
    if bs != [] {
      var front, last := bs[..|bs| - 1], bs[|bs| - 1];
      TotalIsLive(front, cutoff);
      var kept := Fresh(front, cutoff);
      assert (kept + [last])[..|kept|] == kept;
    }
  }

  lemma {:induction false} LiveAfterBump(bs: seq<Bucket>, i: nat, b: Bucket, cutoff: int)
    requires i < |bs| && b.timestamp == bs[i].timestamp
    ensures Live(bs[i := b], cutoff) == Live(bs, cutoff) - Counted(bs[i], cutoff) + Counted(b, cutoff)
  {
    var front, last := bs[..|bs| - 1], bs[|bs| - 1];
    if i == |front| {
      assert bs[i := b] == front + [b];
      LiveStep(front, b, cutoff);
    } else {
      assert bs[i := b] == front[i := b] + [last];
      LiveStep(front[i := b], last, cutoff);
      LiveAfterBump(front, i, b, cutoff);
    }
  }

  lemma LiveAfterMerge(bs: seq<Bucket>, ts: int, value: real, cutoff: int)
    ensures Live(Merged(bs, ts, value), cutoff) == Live(bs, cutoff) + Counted(Bucket(ts, value), cutoff)
  {
    var i := IndexOf(bs, ts);
    if i < |bs| {
      LiveAfterBump(bs, i, Bucket(ts, bs[i].value + value), cutoff);
    } else {
      LiveStep(bs, Bucket(ts, value), cutoff);
    }
  }

  lemma LiveAfterPurge(bs: seq<Bucket>, t: int, now: int, windowSize: int)
    ensures Live(Fresh(bs, t - windowSize), now - windowSize) == Live(bs, Max(now, t) - windowSize)
  {
    hide Live, Fresh;
    LiveOfFresh(bs, t - windowSize, now - windowSize);
    assert Max(t - windowSize, now - windowSize) == Max(now, t) - windowSize;
  }

  lemma LiveAfterAdd(bs: seq<Bucket>, t: int, value: real, now: int, windowSize: int, bucketSize: int)
    ensures Live(Added(bs, t, value, windowSize, bucketSize), now - windowSize)
         == Live(bs, Max(now, t) - windowSize) + Kept(AddAt(t, value), now, windowSize, bucketSize)
  {
    hide Live, Fresh, Merged, Truncate, Max;
    LiveAfterPurge(bs, t, now, windowSize);
    LiveAfterMerge(Fresh(bs, t - windowSize), Truncate(t, bucketSize), value, now - windowSize);
  }

  /** One operation, seen from a later window: it limits the old buckets to its own window and
      contributes its own cost. */
  lemma LiveAfterOp(bs: seq<Bucket>, op: Op, now: int, windowSize: int, bucketSize: int)
    ensures Live(Apply(bs, op, windowSize, bucketSize), now - windowSize)
         == Live(bs, Max(now, op.t) - windowSize) + Kept(op, now, windowSize, bucketSize)
  {
    hide Live, Fresh, Added, Truncate, Max;
    match op
    case AddAt(t, v) => LiveAfterAdd(bs, t, v, now, windowSize, bucketSize);
    case SumAt(t) => LiveAfterPurge(bs, t, now, windowSize);
  }

  /** Main result, for every history in any clock order, any window and any bucket size: what `Sum`
      reports at `now` is the surviving part of the plain log, in spite of bucket merging and of
      buckets thrown away by earlier calls. */
  lemma SumIsSurvivingLog(ops: seq<Op>, now: int, windowSize: int, bucketSize: int)
    ensures Total(Fresh(Run(ops, windowSize, bucketSize), now - windowSize))
         == Surviving(ops, now, windowSize, bucketSize)
  {
    hide Live, Fresh, Total, Run, Surviving;
    TotalIsLive(Run(ops, windowSize, bucketSize), now - windowSize);
    LiveIsSurvivingLog(ops, now, windowSize, bucketSize);
  }

  lemma {:induction false} LiveIsSurvivingLog(ops: seq<Op>, now: int, windowSize: int, bucketSize: int)
    ensures Live(Run(ops, windowSize, bucketSize), now - windowSize) == Surviving(ops, now, windowSize, bucketSize)
  {
    hide Apply, Kept, Max;
    if ops != [] {
      var front, last := ops[..|ops| - 1], ops[|ops| - 1];
      LiveIsSurvivingLog(front, Max(now, last.t), windowSize, bucketSize);
      LiveAfterOp(Run(front, windowSize, bucketSize), last, now, windowSize, bucketSize);
    }
  }

  /** When no earlier call used a time later than `now`, nothing is lost: `Sum` is the whole log
      inside the window. */
  lemma {:induction false} SumIsLogTotal(ops: seq<Op>, now: int, windowSize: int, bucketSize: int)
    requires forall op :: op in ops ==> op.t <= now
    ensures Total(Fresh(Run(ops, windowSize, bucketSize), now - windowSize))
         == LogTotal(ops, now - windowSize, bucketSize)
  {
    SumIsSurvivingLog(ops, now, windowSize, bucketSize);
    SurvivingInOrder(ops, now, windowSize, bucketSize);
  }

  lemma {:induction false} SurvivingInOrder(ops: seq<Op>, now: int, windowSize: int, bucketSize: int)
    requires forall op :: op in ops ==> op.t <= now
    ensures Surviving(ops, now, windowSize, bucketSize) == LogTotal(ops, now - windowSize, bucketSize)
  {
    if ops != [] {
      SurvivingInOrder(ops[..|ops| - 1], now, windowSize, bucketSize);
    }
  }

  // ---- the reported sum against the exact spend --------------------------------------------

  ghost predicate SaneLog(ops: seq<Op>, now: int)
  {
    forall op :: op in ops ==> op.t <= now && (op.AddAt? ==> op.value >= 0.0)
  }

  /** Truncation only loses costs from the oldest bucket: the sum covers at least the last
      `windowSize - bucketSize` and at most the last `windowSize` of exact spend. */
  lemma {:induction false} LogTotalBounds(ops: seq<Op>, now: int, windowSize: int, bucketSize: int)
    requires SaneLog(ops, now) && bucketSize > 0
    ensures SpendSince(ops, now - (windowSize - bucketSize)) <= LogTotal(ops, now - windowSize, bucketSize)
    ensures LogTotal(ops, now - windowSize, bucketSize) <= SpendSince(ops, now - windowSize)
  {
    if ops != [] {
      var last := ops[|ops| - 1];
      assert last in ops;
      LogTotalBounds(ops[..|ops| - 1], now, windowSize, bucketSize);
    }
  }

  lemma SumBounds(ops: seq<Op>, now: int, windowSize: int, bucketSize: int)
    requires SaneLog(ops, now) && bucketSize > 0
    ensures SpendSince(ops, now - (windowSize - bucketSize))
         <= Total(Fresh(Run(ops, windowSize, bucketSize), now - windowSize))
         <= SpendSince(ops, now - windowSize)
  {
    SumIsLogTotal(ops, now, windowSize, bucketSize);
    LogTotalBounds(ops, now, windowSize, bucketSize);
  }

  /** A short window whose span plus the long window's bucket fits in the long window never
      reports more than the long one at the same time. */
  lemma {:induction false} LogTotalNested(ops: seq<Op>, now: int, short: int, shortBucket: int, long: int, longBucket: int)
    requires SaneLog(ops, now) && shortBucket > 0 && longBucket > 0 && short + longBucket <= long
    ensures LogTotal(ops, now - short, shortBucket) <= LogTotal(ops, now - long, longBucket)
  {
    if ops != [] {
      assert ops[|ops| - 1] in ops;
      LogTotalNested(ops[..|ops| - 1], now, short, shortBucket, long, longBucket);
    }
  }

  lemma NestedSums(ops: seq<Op>, now: int, short: int, shortBucket: int, long: int, longBucket: int)
    requires SaneLog(ops, now) && shortBucket > 0 && longBucket > 0 && short + longBucket <= long
    ensures Total(Fresh(Run(ops, short, shortBucket), now - short))
         <= Total(Fresh(Run(ops, long, longBucket), now - long))
  {
    SumIsLogTotal(ops, now, short, shortBucket);
    SumIsLogTotal(ops, now, long, longBucket);
    LogTotalNested(ops, now, short, shortBucket, long, longBucket);
  }

  // ---- how many buckets a window needs -----------------------------------------------------

  ghost predicate InOrder(ops: seq<Op>)
  {
    forall i, j :: 0 <= i < j < |ops| ==> ops[i].t <= ops[j].t
  }

  /** Distinct multiples of `bucketSize`, each later than the bucket of `clock - windowSize` and none
      later than `clock`, except that the bucket of `clock` itself is always allowed. */
  ghost predicate Aligned(bs: seq<Bucket>, clock: int, windowSize: int, bucketSize: int)
    requires bucketSize > 0
  {
    && (forall i, j :: 0 <= i < j < |bs| ==> bs[i].timestamp != bs[j].timestamp)
    && (forall b :: b in bs ==>
        && Truncate(b.timestamp, bucketSize) == b.timestamp <= clock
        && (b.timestamp > clock - windowSize || b.timestamp == Truncate(clock, bucketSize)))
  }

  lemma TruncateTwice(t: int, d: int)
    requires d > 0
    ensures Truncate(Truncate(t, d), d) == Truncate(t, d)
  {
    var r := Truncate(t, d);
    assert r == (t / d) * d;
    assert r == (r / d) * d + r % d;
    MultipleGrows(t / d - r / d, d);
  }

  lemma MultipleGrows(m: int, d: int)
    requires d > 0
    ensures m >= 1 ==> m * d >= d
    ensures m <= -1 ==> m * d <= -d
  {
    if m >= 1 {
      assert (m - 1) * d >= 0;
    } else if m <= -1 {
      assert (-m - 1) * d >= 0;
    }
  }

  lemma {:induction false} FreshMembers(bs: seq<Bucket>, cutoff: int)
    ensures forall b :: b in Fresh(bs, cutoff) <==> b in bs && b.timestamp > cutoff
  {
    if bs != [] {
      assert bs == bs[..|bs| - 1] + [bs[|bs| - 1]];
      FreshMembers(bs[..|bs| - 1], cutoff);
    }
  }

  lemma {:induction false} FreshDistinct(bs: seq<Bucket>, cutoff: int)
    requires forall i, j :: 0 <= i < j < |bs| ==> bs[i].timestamp != bs[j].timestamp
    ensures forall i, j :: 0 <= i < j < |Fresh(bs, cutoff)| ==>
              Fresh(bs, cutoff)[i].timestamp != Fresh(bs, cutoff)[j].timestamp
  {
    if bs != [] {
      var front, last := bs[..|bs| - 1], bs[|bs| - 1];
      FreshDistinct(front, cutoff);
      FreshMembers(front, cutoff);
      forall b | b in Fresh(front, cutoff) ensures b.timestamp != last.timestamp {
        assert b in front;
      }
    }
  }

  /** Every operation at a later time keeps the buckets aligned. */
  lemma FreshAligned(bs: seq<Bucket>, clock: int, t: int, windowSize: int, bucketSize: int)
    requires bucketSize > 0 && clock <= t && Aligned(bs, clock, windowSize, bucketSize)
    ensures Aligned(Fresh(bs, t - windowSize), t, windowSize, bucketSize)
  {
    hide Fresh, Truncate;
    FreshMembers(bs, t - windowSize);
    FreshDistinct(bs, t - windowSize);
  }

  lemma AddedAligned(bs: seq<Bucket>, clock: int, t: int, value: real, windowSize: int, bucketSize: int)
    requires bucketSize > 0 && clock <= t && Aligned(bs, clock, windowSize, bucketSize)
    ensures Aligned(Added(bs, t, value, windowSize, bucketSize), t, windowSize, bucketSize)
  {
    var live := Fresh(bs, t - windowSize);
    FreshAligned(bs, clock, t, windowSize, bucketSize);
    var ts := Truncate(t, bucketSize);
    TruncateTwice(t, bucketSize);
    var after := Merged(live, ts, value);
    forall b | b in after
      ensures Truncate(b.timestamp, bucketSize) == b.timestamp <= t
      ensures b.timestamp > t - windowSize || b.timestamp == ts
    {
      var k :| 0 <= k < |after| && after[k] == b;
      if k < |live| { assert live[k] in live && live[k].timestamp == b.timestamp; }
    }
  }

  lemma ApplyAligned(bs: seq<Bucket>, clock: int, op: Op, windowSize: int, bucketSize: int)
    requires bucketSize > 0 && clock <= op.t && Aligned(bs, clock, windowSize, bucketSize)
    ensures Aligned(Apply(bs, op, windowSize, bucketSize), op.t, windowSize, bucketSize)
  {
    match op
    case AddAt(t, v) => AddedAligned(bs, clock, t, v, windowSize, bucketSize);
    case SumAt(t) => FreshAligned(bs, clock, t, windowSize, bucketSize);
  }

  /** On a clock that never goes back, the buckets stay distinct multiples of the bucket size inside
      the window. */
  lemma {:induction false} RunAligned(ops: seq<Op>, windowSize: int, bucketSize: int)
    requires bucketSize > 0 && InOrder(ops) && ops != []
    ensures Aligned(Run(ops, windowSize, bucketSize), ops[|ops| - 1].t, windowSize, bucketSize)
  {
    var front, last := ops[..|ops| - 1], ops[|ops| - 1];
    var clock := last.t;
    if front != [] {
      clock := front[|front| - 1].t;
      RunAligned(front, windowSize, bucketSize);
    }
    ApplyAligned(Run(front, windowSize, bucketSize), clock, last, windowSize, bucketSize);
  }

  /** The least bucket number an aligned window can hold at `clock`. */
  function FirstSlot(clock: int, windowSize: int, bucketSize: int): int
    requires bucketSize > 0
  {
    Min((clock - windowSize) / bucketSize + 1, clock / bucketSize)
  }

  ghost function Range(lo: int, hi: int): (r: set<int>)
    requires lo <= hi
    ensures forall k :: k in r <==> lo <= k < hi
    ensures |r| == hi - lo
    decreases hi - lo
  {
    if lo == hi then {} else Range(lo, hi - 1) + {hi - 1}
  }

  /** Pigeonhole: distinct multiples of the bucket size need distinct slots. */
  lemma {:induction false} DistinctMultiplesFit(bs: seq<Bucket>, slots: set<int>, bucketSize: int)
    requires bucketSize > 0
    requires forall i, j :: 0 <= i < j < |bs| ==> bs[i].timestamp != bs[j].timestamp
    requires forall i :: 0 <= i < |bs| ==> bs[i].timestamp == (bs[i].timestamp / bucketSize) * bucketSize
    requires forall i :: 0 <= i < |bs| ==> bs[i].timestamp / bucketSize in slots
    ensures |bs| <= |slots|
  {
    if bs != [] {
      var front, last := bs[..|bs| - 1], bs[|bs| - 1];
      var slot := last.timestamp / bucketSize;
      forall i | 0 <= i < |front| ensures front[i].timestamp / bucketSize in slots - {slot} {
        assert bs[i].timestamp != last.timestamp;
      }
      DistinctMultiplesFit(front, slots - {slot}, bucketSize);
    }
  }

  lemma DivideMonotone(a: int, b: int, d: int)
    requires d > 0 && a <= b
    ensures a / d <= b / d
  {
    assert (a / d) * d <= a && b < (b / d + 1) * d;
    assert (a / d - b / d) * d < d;
    MultipleGrows(a / d - b / d, d);
  }

  lemma SlotOf(ts: int, clock: int, windowSize: int, bucketSize: int)
    requires bucketSize > 0 && Truncate(ts, bucketSize) == ts <= clock
    requires ts > clock - windowSize || ts == Truncate(clock, bucketSize)
    ensures ts == (ts / bucketSize) * bucketSize
    ensures FirstSlot(clock, windowSize, bucketSize) <= ts / bucketSize <= clock / bucketSize
  {
    DivideMonotone(ts, clock, bucketSize);
    if ts > clock - windowSize {
      LaterSlot(clock - windowSize, ts, bucketSize);
    } else {
      SameSlot(clock, bucketSize);
    }
  }

  lemma LaterSlot(t: int, ts: int, d: int)
    requires d > 0 && ts == Truncate(ts, d) > t
    ensures ts / d > t / d
  {
    assert ts == (ts / d) * d && (t / d) * d <= t;
    assert (ts / d - t / d) * d > 0;
    MultipleGrows(ts / d - t / d, d);
  }

  lemma SameSlot(t: int, d: int)
    requires d > 0
    ensures Truncate(t, d) / d == t / d
  {
    TruncateTwice(t, d);
    var r := Truncate(t, d);
    assert r == (r / d) * d && r == (t / d) * d;
    MultipleGrows(r / d - t / d, d);
  }

  lemma AlignedCount(bs: seq<Bucket>, clock: int, windowSize: int, bucketSize: int)
    requires bucketSize > 0 && Aligned(bs, clock, windowSize, bucketSize)
    ensures |bs| <= clock / bucketSize + 1 - FirstSlot(clock, windowSize, bucketSize)
  {
    var slots := Range(FirstSlot(clock, windowSize, bucketSize), clock / bucketSize + 1);
    forall i | 0 <= i < |bs|
      ensures bs[i].timestamp == (bs[i].timestamp / bucketSize) * bucketSize
      ensures bs[i].timestamp / bucketSize in slots
    {
      assert bs[i] in bs;
      SlotOf(bs[i].timestamp, clock, windowSize, bucketSize);
    }
    DistinctMultiplesFit(bs, slots, bucketSize);
  }

  /** The sizes for which the preallocated array is always large enough. */
  predicate Divides(windowSize: int, bucketSize: int)
    requires bucketSize > 0
  {
    windowSize < bucketSize || windowSize % bucketSize == 0
  }

  lemma SlotCount(clock: int, windowSize: int, bucketSize: int)
    requires bucketSize > 0 && Divides(windowSize, bucketSize)
    ensures clock / bucketSize + 1 - FirstSlot(clock, windowSize, bucketSize) <= NumBuckets(windowSize, bucketSize)
  {
    var m, n := (clock - windowSize) / bucketSize, clock / bucketSize;
    assert clock - windowSize < (m + 1) * bucketSize && clock >= n * bucketSize;
    assert (n - m - 1) * bucketSize < windowSize;
    if windowSize < bucketSize {
      MultipleGrows(n - m - 1, bucketSize);
    } else {
      var q := windowSize / bucketSize;
      assert windowSize == q * bucketSize;
      assert (n - m - 1 - q) * bucketSize < 0;
      MultipleGrows(n - m - 1 - q, bucketSize);
    }
  }

  ghost predicate FitsAlways(windowSize: int, bucketSize: int)
    requires bucketSize > 0
  {
    forall ops: seq<Op> :: InOrder(ops) ==> |Run(ops, windowSize, bucketSize)| <= NumBuckets(windowSize, bucketSize)
  }

  /** One add per bucket, from bucket 0 to bucket `k`. */
  function OnePerBucket(k: nat, bucketSize: int): seq<Op>
  {
    (if k == 0 then [] else OnePerBucket(k - 1, bucketSize)) + [AddAt(k * bucketSize, 1.0)]
  }

  lemma {:induction false} OnePerBucketInOrder(k: nat, bucketSize: int)
    requires bucketSize > 0
    ensures InOrder(OnePerBucket(k, bucketSize))
    ensures forall op :: op in OnePerBucket(k, bucketSize) ==> op.t <= k * bucketSize
  {
    if k > 0 {
      assert (k - 1) * bucketSize == k * bucketSize - bucketSize;
      OnePerBucketInOrder(k - 1, bucketSize);
    }
  }

  /** The buckets `OnePerBucket` leaves while none of them has expired. */
  function Filled(k: nat, bucketSize: int): (bs: seq<Bucket>)
    requires bucketSize > 0
    ensures |bs| == k + 1
    ensures forall b :: b in bs ==> 0 <= b.timestamp <= k * bucketSize
  {
    assert k > 0 ==> (k - 1) * bucketSize == k * bucketSize - bucketSize;
    (if k == 0 then [] else Filled(k - 1, bucketSize)) + [Bucket(k * bucketSize, 1.0)]
  }

  lemma AddsFreshBucket(bs: seq<Bucket>, ts: int, windowSize: int, bucketSize: int)
    requires bucketSize > 0 && Truncate(ts, bucketSize) == ts
    requires forall b :: b in bs ==> ts - windowSize < b.timestamp < ts
    ensures Apply(bs, AddAt(ts, 1.0), windowSize, bucketSize) == bs + [Bucket(ts, 1.0)]
  {
    AllFresh(bs, ts - windowSize);
    IndexOfIsLeast(bs, ts, |bs|);
  }

  lemma {:induction false} OnePerBucketFillsUp(k: nat, windowSize: int, bucketSize: int)
    requires bucketSize > 0 && k * bucketSize < windowSize
    ensures Run(OnePerBucket(k, bucketSize), windowSize, bucketSize) == Filled(k, bucketSize)
  {
    var ops := OnePerBucket(k, bucketSize);
    MultipleIsBucket(k, bucketSize);
    if k > 0 {
      assert (k - 1) * bucketSize == k * bucketSize - bucketSize;
      assert ops[..|ops| - 1] == OnePerBucket(k - 1, bucketSize);
      OnePerBucketFillsUp(k - 1, windowSize, bucketSize);
      AddsFreshBucket(Filled(k - 1, bucketSize), k * bucketSize, windowSize, bucketSize);
    } else {
      assert ops[..|ops| - 1] == [];
      AddsFreshBucket([], 0, windowSize, bucketSize);
    }
  }

  lemma MultipleIsBucket(k: int, d: int)
    requires d > 0
    ensures Truncate(k * d, d) == k * d
  {
    var r := Truncate(k * d, d);
    assert r == (k * d / d) * d;
    MultipleGrows(k - k * d / d, d);
  }

  lemma {:induction false} AllFresh(bs: seq<Bucket>, cutoff: int)
    requires forall b :: b in bs ==> b.timestamp > cutoff
    ensures Fresh(bs, cutoff) == bs
  {
    if bs != [] {
      assert bs == bs[..|bs| - 1] + [bs[|bs| - 1]];
      AllFresh(bs[..|bs| - 1], cutoff);
    }
  }

  /** Main result: on a clock that never goes back, the preallocated array is never outgrown exactly
      when the bucket size divides the window (or exceeds it). */
  lemma CapacitySufficesIffDivides(windowSize: int, bucketSize: int)
    requires bucketSize > 0
    ensures FitsAlways(windowSize, bucketSize) <==> Divides(windowSize, bucketSize)
  {
    if Divides(windowSize, bucketSize) {
      forall ops: seq<Op> | InOrder(ops)
        ensures |Run(ops, windowSize, bucketSize)| <= NumBuckets(windowSize, bucketSize)
      {
        if ops != [] {
          var clock := ops[|ops| - 1].t;
          RunAligned(ops, windowSize, bucketSize);
          AlignedCount(Run(ops, windowSize, bucketSize), clock, windowSize, bucketSize);
          SlotCount(clock, windowSize, bucketSize);
        }
      }
    } else {
      var q := windowSize / bucketSize;
      assert windowSize == q * bucketSize + windowSize % bucketSize;
      OnePerBucketFillsUp(q, windowSize, bucketSize);
      OnePerBucketInOrder(q, bucketSize);
    }
  }
}
