/** How long the waits between attempts are, and in which order. */
module RetryBackoff {
  import opened Wrappers
  import opened Retry

  // ---- one wait ----------------------------------------------------------------------------

  predicate Jitter(j: real) { -1.0 <= j < 1.0 }

  ghost predicate Jittered(script: Script) { forall k: nat :: Jitter(script.jitter(k)) }

  /** The longest a single wait can be. */
  function LongestBackoff(cfg: Config): real
  {
    Greatest(cfg.initialBackoff as real, 1.25 * cfg.maxBackoff as real)
  }

  lemma BackoffBounds(cfg: Config, attempt: nat, jitter: real)
    requires cfg.initialBackoff >= 0 && Jitter(jitter)
    ensures cfg.initialBackoff <= Backoff(cfg, attempt, jitter)
    ensures Backoff(cfg, attempt, jitter) as real <= LongestBackoff(cfg)
  {
    SwingBounds(Least(Base(cfg, attempt), cfg.maxBackoff as real), jitter);
    hide Swung, Base;
  }

  lemma SwingBounds(x: real, jitter: real)
    requires Jitter(jitter)
    ensures x >= 0.0 ==> 0.75 * x <= Swung(x, jitter) <= 1.25 * x
    ensures x < 0.0 ==> Swung(x, jitter) < 0.0
  {
    if x >= 0.0 {
      ProductSign(x, jitter + 1.0);
      ProductSign(x, 1.0 - jitter);
    } else {
      ProductSign(-x, jitter + 1.0);
    }
  }

  lemma ProductSign(a: real, b: real)
    requires a >= 0.0 && b >= 0.0
    ensures a * b >= 0.0
  {
  }

  /** Before it is cut to whole nanoseconds, the wait after attempt `k` is no longer than the next one,
      unless the cap is in play. */
  predicate ExactInOrder(cfg: Config, k: nat, j: real, j': real)
  {
    Base(cfg, k + 1) <= cfg.maxBackoff as real ==> ExactBackoff(cfg, k, j) <= ExactBackoff(cfg, k + 1, j')
  }

  lemma ProductPositive(a: real, b: real)
    requires a > 0.0 && b > 0.0
    ensures a * b > 0.0
  {
  }

  ghost predicate ExactNeverDecreases(cfg: Config)
  {
    forall k: nat, j, j' :: Jitter(j) && Jitter(j') ==> ExactInOrder(cfg, k, j, j')
  }

  lemma NextBase(cfg: Config, k: nat)
    ensures Base(cfg, k + 1) == cfg.multiplier * Base(cfg, k)
    ensures Base(cfg, 0) == cfg.initialBackoff as real
  {
    var x, p := cfg.initialBackoff as real, Power(cfg.multiplier, k);
    assert x * (cfg.multiplier * p) == cfg.multiplier * (x * p);
  }

  lemma {:induction false} BasePositive(cfg: Config, k: nat)
    requires cfg.initialBackoff > 0 && cfg.multiplier > 0.0
    ensures Base(cfg, k) > 0.0
  {
    hide Base;
    if k == 0 {
      NextBase(cfg, 0);
    } else {
      BasePositive(cfg, k - 1);
      NextBase(cfg, k - 1);
    }
  }

  lemma GrowsFastEnough(cfg: Config, k: nat, j: real, j': real)
    requires cfg.initialBackoff > 0 && cfg.multiplier >= 5.0 / 3.0
    requires Jitter(j) && Jitter(j') && Base(cfg, k + 1) <= cfg.maxBackoff as real
    ensures ExactInOrder(cfg, k, j, j')
  {
    hide Base, Swung;
    var base, next := Base(cfg, k), Base(cfg, k + 1);
    BasePositive(cfg, k);
    NextBase(cfg, k);
    assert 3.0 * next >= 5.0 * base by {
      ProductSign(cfg.multiplier - 5.0 / 3.0, base);
    }
    SwingBounds(base, j);
    SwingBounds(next, j');
  }

  lemma GrowsTooSlowly(cfg: Config)
    requires cfg.initialBackoff > 0 && 0.0 < cfg.multiplier < 5.0 / 3.0
    requires Base(cfg, 1) <= cfg.maxBackoff as real && cfg.initialBackoff <= cfg.maxBackoff
    ensures !ExactNeverDecreases(cfg)
  {
    hide Base, Swung;
    var j := 2.0 * Greatest(1.0, 0.75 * cfg.multiplier) - 1.5;
    var k: nat := 0;
    var base, next := Base(cfg, k), Base(cfg, k + 1);
    NextBase(cfg, k);
    Overtakes(base, next, cfg.multiplier, j);
    assert ExactBackoff(cfg, k + 1, -1.0) == Greatest(Swung(next, -1.0), base);
    assert ExactBackoff(cfg, k, j) == Greatest(Swung(base, j), base);
    assert ExactBackoff(cfg, k + 1, -1.0) < ExactBackoff(cfg, k, j);
    assert !ExactInOrder(cfg, k, j, -1.0);
  }

  /** With this jitter the first backoff beats the least possible second one. */
  lemma Overtakes(x: real, next: real, m: real, j: real)
    requires x > 0.0 && next == m * x && 0.0 < m < 5.0 / 3.0 && j == 2.0 * Greatest(1.0, 0.75 * m) - 1.5
    ensures Jitter(j) && Swung(x, j) > x && Swung(x, j) > Swung(next, -1.0)
  {
    var gain := 1.0 + 0.25 * j - 0.75 * m;
    assert gain > 0.0;
    ProductPositive(x, gain);
    ProductPositive(x, j);
    assert Swung(x, j) - Swung(next, -1.0) == x * gain;
  }

  /** Successive exact backoffs never decrease under any jitter, as long as the next base is not capped,
      exactly when the multiplier is at least 5/3. */
  lemma ExactNeverDecreasesIff(cfg: Config)
    requires cfg.initialBackoff > 0 && cfg.multiplier > 0.0
    requires Base(cfg, 1) <= cfg.maxBackoff as real && cfg.initialBackoff <= cfg.maxBackoff
    ensures ExactNeverDecreases(cfg) <==> cfg.multiplier >= 5.0 / 3.0
  {
    hide ExactBackoff, Base;
    if cfg.multiplier >= 5.0 / 3.0 {
      forall k: nat, j, j' | Jitter(j) && Jitter(j') ensures ExactInOrder(cfg, k, j, j') {
        if Base(cfg, k + 1) <= cfg.maxBackoff as real {
          GrowsFastEnough(cfg, k, j, j');
        }
      }
    } else {
      GrowsTooSlowly(cfg);
    }
  }

  // ---- whole nanoseconds -------------------------------------------------------------------

  function Capped(cfg: Config, k: nat): real { Least(Base(cfg, k), cfg.maxBackoff as real) }

  /** The largest whole number below `x`. */
  function Below(x: real): (n: int)
    ensures n as real < x <= n as real + 1.0
  {
    if x.Floor as real == x then x.Floor - 1 else x.Floor
  }

  /** The longest and the shortest whole wait that jitter can make of attempt `k`. */
  function LongestWait(cfg: Config, k: nat): int
  {
    var longest := Below(1.25 * Capped(cfg, k));
    if longest < cfg.initialBackoff then cfg.initialBackoff else longest
  }

  function ShortestWait(cfg: Config, k: nat): int
  {
    Greatest(0.75 * Capped(cfg, k), cfg.initialBackoff as real).Floor
  }

  predicate Sensible(cfg: Config) { cfg.initialBackoff > 0 && cfg.maxBackoff > 0 && cfg.multiplier > 0.0 }

  lemma CappedPositive(cfg: Config, k: nat)
    requires Sensible(cfg)
    ensures Capped(cfg, k) > 0.0
  {
    BasePositive(cfg, k);
  }

  lemma SwingStrict(x: real, j: real)
    requires x > 0.0 && Jitter(j)
    ensures 0.75 * x <= Swung(x, j) < 1.25 * x
    ensures Swung(x, -1.0) == 0.75 * x
  {
    ProductSign(x, j + 1.0);
    ProductPositive(x, 1.0 - j);
  }

  /** Some jitter turns `x` into `v`. */
  lemma JitterFor(x: real, v: real) returns (j: real)
    requires x > 0.0 && 0.75 * x <= v < 1.25 * x
    ensures Jitter(j) && Swung(x, j) == v
  {
    j := (v - x) / (0.25 * x);
    assert j * (0.25 * x) == v - x;
    if j < -1.0 {
      ProductPositive(-1.0 - j, 0.25 * x);
    }
    if j >= 1.0 {
      ProductSign(j - 1.0, 0.25 * x);
    }
    assert x * 0.25 * j == j * (0.25 * x);
  }

  lemma WaitsBetween(cfg: Config, k: nat, j: real)
    requires Sensible(cfg) && Jitter(j)
    ensures ShortestWait(cfg, k) <= Backoff(cfg, k, j) <= LongestWait(cfg, k)
    ensures Backoff(cfg, k, -1.0) == ShortestWait(cfg, k)
  {
    hide Base, Swung;
    CappedPositive(cfg, k);
    SwingStrict(Capped(cfg, k), j);
    SwingStrict(Capped(cfg, k), -1.0);
  }

  lemma LongestIsReached(cfg: Config, k: nat) returns (j: real)
    requires Sensible(cfg)
    ensures Jitter(j) && Backoff(cfg, k, j) == LongestWait(cfg, k)
  {
    hide Base, Swung;
    CappedPositive(cfg, k);
    var x := Capped(cfg, k);
    j := JitterFor(x, Greatest(Below(1.25 * x) as real, 0.75 * x));
  }

  /** The wait after attempt `k` is no longer than the next one, unless the cap is in play. */
  predicate InOrder(cfg: Config, k: nat, j: real, j': real)
  {
    Base(cfg, k + 1) <= cfg.maxBackoff as real ==> Backoff(cfg, k, j) <= Backoff(cfg, k + 1, j')
  }

  ghost predicate NeverDecreases(cfg: Config)
  {
    forall k: nat, j, j' :: Jitter(j) && Jitter(j') ==> InOrder(cfg, k, j, j')
  }

  ghost predicate RoomForJitter(cfg: Config)
  {
    forall k: nat :: Base(cfg, k + 1) <= cfg.maxBackoff as real ==> LongestWait(cfg, k) <= ShortestWait(cfg, k + 1)
  }

  /** Main result, for the whole waits that the program makes: while the next base is not capped they
      never decrease under any jitter exactly when no longest wait exceeds the shortest next one. */
  lemma NeverDecreasesIff(cfg: Config)
    requires Sensible(cfg)
    ensures NeverDecreases(cfg) <==> RoomForJitter(cfg)
  {
    hide Base, Backoff, LongestWait, ShortestWait;
    if RoomForJitter(cfg) {
      forall k: nat, j, j' | Jitter(j) && Jitter(j') ensures InOrder(cfg, k, j, j') {
        WaitsBetween(cfg, k, j);
        WaitsBetween(cfg, k + 1, j');
      }
    } else {
      var k: nat :| Base(cfg, k + 1) <= cfg.maxBackoff as real && LongestWait(cfg, k) > ShortestWait(cfg, k + 1);
      var j := LongestIsReached(cfg, k);
      WaitsBetween(cfg, k + 1, j);
      assert !InOrder(cfg, k, j, -1.0);
    }
  }

  lemma TruncatedMonotone(x: real, y: real)
    requires x <= y
    ensures Truncated(x) <= Truncated(y)
  {
  }

  lemma FastMultiplierNeverDecreases(cfg: Config)
    requires Sensible(cfg) && cfg.multiplier >= 5.0 / 3.0
    ensures NeverDecreases(cfg)
  {
    hide Base, ExactBackoff;
    forall k: nat, j, j' | Jitter(j) && Jitter(j') ensures InOrder(cfg, k, j, j') {
      if Base(cfg, k + 1) <= cfg.maxBackoff as real {
        GrowsFastEnough(cfg, k, j, j');
        TruncatedMonotone(ExactBackoff(cfg, k, j), ExactBackoff(cfg, k + 1, j'));
      }
    }
  }

  /** The longest wait for base `x` exceeds the shortest one for the next base by more than one. */
  predicate Spans(m: real, x: real) { 1.25 * x - Greatest(0.75 * (m * x), x) > 1.0 }

  /** With a slower multiplier the second wait can be shorter than the first as soon as the jitter of the
      initial backoff spans more than a nanosecond. */
  lemma SlowMultiplierDecreases(cfg: Config)
    requires Sensible(cfg) && cfg.multiplier < 5.0 / 3.0
    requires cfg.initialBackoff <= cfg.maxBackoff && Base(cfg, 1) <= cfg.maxBackoff as real
    requires Spans(cfg.multiplier, cfg.initialBackoff as real)
    ensures !NeverDecreases(cfg)
  {
    hide Base;
    NextBase(cfg, 0);
    assert Capped(cfg, 0) == cfg.initialBackoff as real && Capped(cfg, 1) == cfg.multiplier * cfg.initialBackoff as real;
    assert LongestWait(cfg, 0) > ShortestWait(cfg, 1);
    NeverDecreasesIff(cfg);
    var k: nat := 0;
    assert Base(cfg, k + 1) <= cfg.maxBackoff as real && LongestWait(cfg, k) > ShortestWait(cfg, k + 1);
  }

  ghost predicate SafeMultiplier(m: real)
  {
    forall cfg :: Sensible(cfg) && cfg.multiplier == m ==> NeverDecreases(cfg)
  }

  /** Main result: a multiplier keeps the whole waits in order, whatever the other settings, exactly when
      it is at least 5/3. */
  lemma SafeMultiplierIff(m: real)
    requires m > 0.0
    ensures SafeMultiplier(m) <==> m >= 5.0 / 3.0
  {
    hide NeverDecreases, Base, Spans;
    if m >= 5.0 / 3.0 {
      forall cfg | Sensible(cfg) && cfg.multiplier == m ensures NeverDecreases(cfg) {
        FastMultiplierNeverDecreases(cfg);
      }
    } else {
      var x := WideEnough(m);
      var cfg := Config(0, x, 2 * x, m, []);
      NextBase(cfg, 0);
      ProductPositive(x as real, 2.0 - m);
      SlowMultiplierDecreases(cfg);
    }
  }

  /** An initial backoff whose jitter spans more than a nanosecond. */
  lemma WideEnough(m: real) returns (x: int)
    requires 0.0 < m < 5.0 / 3.0
    ensures x > 0 && Spans(m, x as real)
  {
    var gap := 1.25 - 0.75 * m;
    var q := 1.0 / gap;
    x := q.Floor + 5;
    assert q > 0.0 && q * gap == 1.0;
    var y := x as real;
    Exceeds(y, q, gap, 1.0);
    Spread(y, m);
    assert 1.25 * y - 0.75 * (m * y) > 1.0 && 1.25 * y - y > 1.0;
  }

  lemma Exceeds(x: real, q: real, gap: real, one: real)
    requires gap > 0.0 && q * gap == one && x > q
    ensures x * gap > one
  {
  }

  lemma Spread(x: real, m: real)
    ensures 1.25 * x - 0.75 * (m * x) == x * (1.25 - 0.75 * m)
  {
  }

  // ---- a whole call ------------------------------------------------------------------------

  function Sum(xs: seq<int>): int { if xs == [] then 0 else Sum(xs[..|xs| - 1]) + xs[|xs| - 1] }

  function Times(n: nat, x: real): real { n as real * x }

  lemma TimesStep(n: nat, x: real)
    requires n > 0
    ensures Times(n, x) == Times(n - 1, x) + x
  {
    assert n as real == (n - 1) as real + 1.0;
  }

  lemma TimesMonotone(m: nat, n: nat, x: real)
    requires m <= n && x >= 0.0
    ensures Times(m, x) <= Times(n, x)
  {
    ProductSign((n - m) as real, x);
  }

  lemma {:induction false} WaitsBounded(cfg: Config, script: Script, k: nat)
    requires cfg.initialBackoff >= 0 && Jittered(script)
    ensures Sum(Waits(cfg, script, k)) as real <= Times(k, LongestBackoff(cfg))
    ensures |Waits(cfg, script, k)| == k
  {
    hide LongestBackoff, Backoff;
    if k > 0 {
      WaitsBounded(cfg, script, k - 1);
      BackoffBounds(cfg, k - 1, script.jitter(k - 1));
      var front := Waits(cfg, script, k - 1);
      var last := Backoff(cfg, k - 1, script.jitter(k - 1));
      assert (front + [last])[..|front|] == front;
      TimesStep(k, LongestBackoff(cfg));
    }
  }

  /** The planned waiting time of a whole call is bounded by one longest backoff per retry. */
  lemma TotalBackoffBound(cfg: Config, script: Script)
    requires cfg.maxAttempts >= 1 && cfg.initialBackoff >= 0 && Jittered(script)
    ensures |Run(cfg, script).4| <= cfg.maxAttempts - 1
    ensures Sum(Run(cfg, script).4) as real <= Times(cfg.maxAttempts - 1, LongestBackoff(cfg))
  {
    hide LongestBackoff, Times, Waits, Sum;
    var e := EndsAt(cfg, script, 0);
    var k := if PlansWait(cfg, script, e) then e + 1 else e;
    WaitsBounded(cfg, script, k);
    LongestIsNonNegative(cfg);
    TimesMonotone(k, cfg.maxAttempts - 1, LongestBackoff(cfg));
  }

  lemma LongestIsNonNegative(cfg: Config)
    requires cfg.initialBackoff >= 0
    ensures LongestBackoff(cfg) >= 0.0
  {
  }
}
