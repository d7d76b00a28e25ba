/** Retry with exponential backoff (`internal/resilience/retry.go`).

    A provider call and its surroundings are a script: the outcome of the k-th call, whether the
    context is done when attempt k begins, and whether it is done during the wait after attempt k. */
module Retry {

  import opened Wrappers

  /** `Classified` errors say themselves whether they are retryable, `Coded` ones only carry a status. */
  datatype Error = Classified(retryable: bool) | Coded(status: int) | Other | ContextDone

  datatype Response = Response(id: int, cost: real)

  datatype Outcome = Answered(response: Response) | Failed(error: Error)

  datatype Script = Script(outcome: nat -> Outcome, doneAt: nat -> bool, doneInWait: nat -> bool, jitter: nat -> real)

  datatype Config = Config(maxAttempts: int, initialBackoff: int, maxBackoff: int,
                           multiplier: real, retryableErrors: seq<int>)

  predicate IsRetryable(cfg: Config, e: Error)
  {
    match e
    case Classified(retryable) => retryable
    case Coded(status) => status in cfg.retryableErrors
    case Other => true
    case ContextDone => true
  }

  /** An error that says nothing about itself is worth another attempt; a status is looked up in the list. */
  method CheckRetryable(cfg: Config, e: Error) returns (yes: bool)
    ensures yes <==> e == Classified(true) || e == Other || e == ContextDone || exists code :: code in cfg.retryableErrors && e == Coded(code)
    ensures yes <==> IsRetryable(cfg, e)
  {
    match e {
      case Classified(retryable) => return retryable;
      case Coded(status) =>
        for i := 0 to |cfg.retryableErrors|
          invariant forall j :: 0 <= j < i ==> cfg.retryableErrors[j] != status
        {
          if status == cfg.retryableErrors[i] {
            return true;
          }
        }
        return false;
      case Other => return true;
      case ContextDone => return true;
    }
  }

  // ---- backoff -----------------------------------------------------------------------------

  function Power(b: real, n: nat): real { if n == 0 then 1.0 else b * Power(b, n - 1) }

  function Base(cfg: Config, attempt: nat): real { cfg.initialBackoff as real * Power(cfg.multiplier, attempt) }

  /** A quarter of `x` either way. */
  function Swung(x: real, jitter: real): real { x + x * 0.25 * jitter }

  /** The backoff before it is cut to whole nanoseconds; `jitter` is a number in [-1, 1). */
  function ExactBackoff(cfg: Config, attempt: nat, jitter: real): real
  {
    var capped := Least(Base(cfg, attempt), cfg.maxBackoff as real);
    Greatest(Swung(capped, jitter), cfg.initialBackoff as real)
  }

  /** Go's conversion truncates toward zero. */
  function Truncated(x: real): (n: int)
    ensures if x >= 0.0 then n as real <= x < n as real + 1.0 else n as real - 1.0 < x <= n as real
  {
    if x >= 0.0 then x.Floor else -((-x).Floor)
  }

  function Backoff(cfg: Config, attempt: nat, jitter: real): int { Truncated(ExactBackoff(cfg, attempt, jitter)) }

  // ---- the loop ----------------------------------------------------------------------------

  /** Attempt `k` was made, failed in a retryable way, was not the last, and its wait ran out. */
  predicate Continues(cfg: Config, script: Script, k: nat)
  {
    && !script.doneAt(k)
    && script.outcome(k).Failed? && IsRetryable(cfg, script.outcome(k).error)
    && k < cfg.maxAttempts - 1
    && !script.doneInWait(k)
  }

  /** The first attempt from `k` on that does not lead to another one. */
  function EndsAt(cfg: Config, script: Script, k: nat): (e: nat)
    requires k < cfg.maxAttempts
    ensures k <= e < cfg.maxAttempts && !Continues(cfg, script, e)
    ensures forall j: nat :: k <= j < e ==> Continues(cfg, script, j)
    decreases cfg.maxAttempts - k
  {
    if Continues(cfg, script, k) then EndsAt(cfg, script, k + 1) else k
  }

  /** The provider answers within the attempts it is given. */
  ghost predicate AnswersAt(cfg: Config, script: Script, k: nat)
  {
    && k < cfg.maxAttempts && !script.doneAt(k) && script.outcome(k).Answered?
    && forall j: nat :: j < k ==> Continues(cfg, script, j)
  }

  /** What an attempt that does not continue returns. */
  function Verdict(cfg: Config, script: Script, k: nat): (Option<Response>, Option<Error>)
  {
    if script.doneAt(k) then (None, Some(ContextDone))
    else match script.outcome(k)
      case Answered(response) => (Some(response), None)
      case Failed(error) =>
        if IsRetryable(cfg, error) && k < cfg.maxAttempts - 1 then (None, Some(ContextDone)) else (None, Some(error))
  }

  /** The backoffs planned before and, if the context ended it, in the wait after attempt `k`. */
  predicate PlansWait(cfg: Config, script: Script, k: nat)
  {
    && !script.doneAt(k) && script.outcome(k).Failed?
    && IsRetryable(cfg, script.outcome(k).error) && k < cfg.maxAttempts - 1
  }

  function Waits(cfg: Config, script: Script, k: nat): seq<int>
  {
    if k == 0 then [] else Waits(cfg, script, k - 1) + [Backoff(cfg, k - 1, script.jitter(k - 1))]
  }

  function Run(cfg: Config, script: Script): (r: (Option<Response>, int, Option<Error>, nat, seq<int>))
  {
    if cfg.maxAttempts <= 0 then (None, 0, None, 0, []) else
      var k := EndsAt(cfg, script, 0);
      var (result, err) := Verdict(cfg, script, k);
      (result, k + 1, err, if script.doneAt(k) then k else k + 1,
       Waits(cfg, script, if PlansWait(cfg, script, k) then k + 1 else k))
  }

  /** `calls` counts the provider calls and `waits` lists the planned backoffs. */
  method ExecuteWithResult(cfg: Config, script: Script)
    returns (result: Option<Response>, attempts: int, err: Option<Error>, ghost calls: nat, ghost waits: seq<int>)
    ensures (result, attempts, err) == (Run(cfg, script).0, Run(cfg, script).1, Run(cfg, script).2)
    ensures (calls, waits) == (Run(cfg, script).3, Run(cfg, script).4)
  {
    var lastErr: Option<Error> := None;
    attempts := 0;
    calls, waits := 0, [];
    var attempt := 0;
    while attempt < cfg.maxAttempts
      invariant 0 <= attempt == attempts == calls
      invariant attempt < cfg.maxAttempts ==> EndsAt(cfg, script, 0) == EndsAt(cfg, script, attempt)
      invariant attempt < cfg.maxAttempts ==> waits == Waits(cfg, script, attempt)
      invariant attempt >= cfg.maxAttempts ==> (None, attempts, lastErr, calls, waits) == Run(cfg, script)
    {
      attempts := attempts + 1;
      if script.doneAt(attempt) {
        return None, attempts, Some(ContextDone), calls, waits;
      }
      calls := calls + 1;
      match script.outcome(attempt) {
        case Answered(response) =>
          return Some(response), attempts, None, calls, waits;
        case Failed(error) =>
          lastErr := Some(error);
          var again := CheckRetryable(cfg, error);
          if !again {
            return None, attempts, Some(error), calls, waits;
          }
          if attempt < cfg.maxAttempts - 1 {
            waits := waits + [Backoff(cfg, attempt, script.jitter(attempt))];
            if script.doneInWait(attempt) {
              return None, attempts, Some(ContextDone), calls, waits;
            }
          }
      }
      attempt := attempt + 1;
    }
    return None, attempts, lastErr, calls, waits;
  }

  /** Main result: with at least one attempt allowed, the call succeeds exactly when the provider
      answers at an attempt that all earlier ones led to, and then returns that answer; the attempts
      are the provider calls made, plus one when the context was already done at the last of them. */
  lemma {:induction false} SucceedsIffAnswers(cfg: Config, script: Script)
    requires cfg.maxAttempts >= 1
    ensures var (result, attempts, err, calls, waits) := Run(cfg, script);
      && 1 <= attempts <= cfg.maxAttempts && calls <= attempts <= calls + 1
      && (attempts == calls + 1 <==> script.doneAt(attempts - 1))
      && (err == None <==> exists k: nat :: AnswersAt(cfg, script, k))
      && (err == None <==> result.Some?)
      && (forall k: nat :: AnswersAt(cfg, script, k) ==> attempts == k + 1 && result == Some(script.outcome(k).response))
  {
    var e := EndsAt(cfg, script, 0);
    forall k: nat | AnswersAt(cfg, script, k) ensures k == e {
      assert !Continues(cfg, script, k) && !Continues(cfg, script, e);
      assert k < e ==> Continues(cfg, script, k);
    }
    if Run(cfg, script).2 == None {
      assert AnswersAt(cfg, script, e);
    }
  }
}
