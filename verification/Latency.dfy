/** The latency window of the metrics collector (`internal/metrics/collector.go`), in whole
    milliseconds. */
module Latency {

  const WINDOW_SIZE: nat := 100

  datatype Sample = Sample(provider: string, millis: int)

  type Windows = map<string, seq<int>>

  function WindowOf(windows: Windows, p: string): seq<int> { if p in windows then windows[p] else [] }

  function Kept(window: seq<int>): seq<int>
  {
    if |window| > WINDOW_SIZE then window[|window| - WINDOW_SIZE..] else window
  }

  /** The index that stands for the 99th percentile in a sorted window. */
  function Rank(n: nat): int { (n as real * 0.99).Floor }

  // ---- sorting -----------------------------------------------------------------------------

  ghost predicate Sorted(s: seq<int>) { forall i, j :: 0 <= i < j < |s| ==> s[i] <= s[j] }

  ghost predicate Permutation(s: seq<int>, t: seq<int>) { multiset(s) == multiset(t) }

  /** The first `i` elements are in place. */
  ghost predicate Settled(s: seq<int>, i: nat)
  {
    forall p, q :: 0 <= p < i && p < q < |s| ==> s[p] <= s[q]
  }

  /** Element `i` is no larger than those after it, up to `j`. */
  ghost predicate LeastUpTo(s: seq<int>, i: nat, j: nat) { forall q :: i < q < j && q < |s| ==> s[i] <= s[q] }

  lemma Swapped(s: seq<int>, i: nat, j: nat, was: seq<int>)
    requires i < j < |s| && Settled(s, i) && LeastUpTo(s, i, j) && s[i] > s[j] && Permutation(s, was)
    ensures var t := s[i := s[j]][j := s[i]];
      Settled(t, i) && LeastUpTo(t, i, j + 1) && Permutation(t, was)
  {
  }

  method ExchangeSort(a: array<int>)
    modifies a
    ensures Sorted(a[..]) && Permutation(a[..], old(a[..]))
  {
    ghost var was := a[..];
    var i := 0;
    while i < a.Length
      invariant 0 <= i <= a.Length && Settled(a[..], i) && Permutation(a[..], was)
    {
      var j := i + 1;
      while j < a.Length
        invariant i < j <= a.Length && Settled(a[..], i) && LeastUpTo(a[..], i, j) && Permutation(a[..], was)
      {
        if a[i] > a[j] {
          Swapped(a[..], i, j, was);
          a[i], a[j] := a[j], a[i];
        }
        j := j + 1;
      }
      i := i + 1;
    }
  }

  /** A sorted permutation ends with the maximum. */
  lemma LastIsMaximum(s: seq<int>, t: seq<int>)
    requires Sorted(s) && Permutation(s, t) && |s| > 0
    ensures IsMaximum(s[|s| - 1], t)
  {
    assert |multiset(s)| == |s| && s[|s| - 1] in multiset(s);
    forall x | x in t ensures x <= s[|s| - 1] {
      assert x in multiset(t);
    }
  }

  ghost predicate IsMaximum(m: int, window: seq<int>)
  {
    m in window && forall x :: x in window ==> x <= m
  }

  /** The rank falls on the last element of every window that can occur, and of no longer one; the
      clamp is never needed. */
  lemma RankIsLastIff(n: nat)
    requires n > 0
    ensures 0 <= Rank(n) < n
    ensures Rank(n) == n - 1 <==> n <= WINDOW_SIZE
  {
  }

  // ---- recordings --------------------------------------------------------------------------

  function Recorded(windows: Windows, s: Sample): Windows
  {
    windows[s.provider := Kept(WindowOf(windows, s.provider) + [s.millis])]
  }

  /** The windows after these recordings, oldest first. */
  function After(samples: seq<Sample>): Windows
  {
    if samples == [] then map[] else Recorded(After(samples[..|samples| - 1]), samples[|samples| - 1])
  }

  /** All samples of one provider. */
  function Of(samples: seq<Sample>, p: string): seq<int>
  {
    if samples == [] then [] else
      var last := samples[|samples| - 1];
      Of(samples[..|samples| - 1], p) + if last.provider == p then [last.millis] else []
  }

  /** Main result: whatever was recorded in between for other providers, a provider's window holds
      exactly its last 100 samples, or all of them if there are fewer. */
  lemma {:induction false} WindowIsLastSamples(samples: seq<Sample>, p: string)
    ensures WindowOf(After(samples), p) == Kept(Of(samples, p))
    ensures var all := Of(samples, p);
      WindowOf(After(samples), p) == if |all| <= 100 then all else all[|all| - 100..]
  {
    if samples != [] {
      var front, last := samples[..|samples| - 1], samples[|samples| - 1];
      WindowIsLastSamples(front, p);
      if last.provider == p {
        KeptStep(Of(front, p), last.millis);
      }
    }
  }

  lemma KeptStep(all: seq<int>, x: int)
    ensures Kept(Kept(all) + [x]) == Kept(all + [x])
  {
  }

  class Collector {
    var latencyWindow: Windows

    ghost predicate Valid()
      reads this
    {
      forall p :: p in latencyWindow ==> 1 <= |latencyWindow[p]| <= WINDOW_SIZE
    }

    constructor ()
      ensures Valid() && latencyWindow == After([])
    {
      latencyWindow := map[];
    }

    method RecordLatency(provider: string, millis: int)
      requires Valid()
      modifies this
      ensures Valid() && latencyWindow == Recorded(old(latencyWindow), Sample(provider, millis))
    {
      var window := if provider in latencyWindow then latencyWindow[provider] else [];
      window := window + [millis];
      if |window| > 100 {
        window := window[|window| - 100..];
      }
      latencyWindow := latencyWindow[provider := window];
    }

    /** The maximum of the window, or zero when nothing was recorded. The window itself stays as it is. */
    method GetLatencyP99(provider: string) returns (p99: int)
      requires Valid()
      ensures WindowOf(latencyWindow, provider) == [] ==> p99 == 0
      ensures WindowOf(latencyWindow, provider) != [] ==> IsMaximum(p99, WindowOf(latencyWindow, provider))
    {
      var window := if provider in latencyWindow then latencyWindow[provider] else [];
      if |window| == 0 {
        return 0;
      }
      var sorted := new int[|window|](i requires 0 <= i < |window| => window[i]);
      assert sorted[..] == window;
      ExchangeSort(sorted);
      LastIsMaximum(sorted[..], window);
      RankIsLastIff(|window|);
      var n := sorted.Length;
      var idx := Rank(n);
      if idx >= n {
        idx := n - 1;
      }
      return sorted[idx];
    }
  }
}
