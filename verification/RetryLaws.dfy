/** What the retry loop does, by the kinds of error that the provider's calls fail with. */
module RetryLaws {
  import opened Wrappers
  import opened Retry

  /** The call failed with an error that says it may be retried, that carries a listed status, or that says
      nothing about itself. */
  ghost predicate Transient(codes: seq<int>, outcome: Outcome)
  {
    || outcome in {Failed(Classified(true)), Failed(Other), Failed(ContextDone)}
    || exists code :: code in codes && outcome == Failed(Coded(code))
  }

  /** The first `k` attempts were all made and each one led to the next. */
  ghost predicate Begins(cfg: Config, script: Script, k: nat)
  {
    k < cfg.maxAttempts
    && forall j: nat :: j < k ==> !script.doneAt(j) && Transient(cfg.retryableErrors, script.outcome(j)) && !script.doneInWait(j)
  }

  lemma TransientIs(cfg: Config, script: Script, k: nat)
    ensures Transient(cfg.retryableErrors, script.outcome(k)) <==> script.outcome(k).Failed? && IsRetryable(cfg, script.outcome(k).error)
  {
  }

  lemma {:induction false} BeginsUntilEnd(cfg: Config, script: Script, k: nat)
    requires cfg.maxAttempts >= 1
    ensures Begins(cfg, script, k) <==> k <= EndsAt(cfg, script, 0)
  {
    hide Transient, IsRetryable;
    var e := EndsAt(cfg, script, 0);
    forall j: nat | j < cfg.maxAttempts - 1
      ensures Continues(cfg, script, j) <==>
              !script.doneAt(j) && Transient(cfg.retryableErrors, script.outcome(j)) && !script.doneInWait(j)
    {
      TransientIs(cfg, script, j);
    }
  }

  lemma {:induction false} WaitsAre(cfg: Config, script: Script, k: nat)
    ensures |Waits(cfg, script, k)| == k
    ensures forall i: nat :: i < k ==> Waits(cfg, script, k)[i] == Backoff(cfg, i, script.jitter(i))
  {
    hide Backoff;
    if k > 0 { WaitsAre(cfg, script, k - 1); }
  }

  /** The last attempt failed in a transient way with attempts left, and the context was done in the wait. */
  ghost predicate CutShort(cfg: Config, script: Script, attempts: nat, calls: nat)
  {
    0 < calls == attempts < cfg.maxAttempts && Transient(cfg.retryableErrors, script.outcome(calls - 1))
  }

  /** Main result, for every script and every configuration: an attempt begins exactly when every earlier call
      failed in a transient way and the context left room for it, and it calls the provider unless the
      context is done; the answer is that of the one call that succeeded; otherwise the error is the
      context's if the context stopped the loop and that of the last call if not; and the waits are the
      backoffs of the attempts in turn. */
  lemma {:induction false} LoopByKind(cfg: Config, script: Script)
    ensures var (result, attempts, err, calls, waits) := Run(cfg, script);
      && 0 <= attempts
      && (forall k: nat :: k < attempts <==> Begins(cfg, script, k))
      && (forall k: nat :: k < calls <==> Begins(cfg, script, k) && !script.doneAt(k))
      && (forall r :: result == Some(r) <==> exists k: nat :: k < calls && script.outcome(k) == Answered(r))
      && (calls < attempts ==> err == Some(ContextDone))
      && (0 < calls == attempts ==>
            match script.outcome(calls - 1)
            case Answered(_) => err == None
            case Failed(e) => err == Some(if CutShort(cfg, script, attempts, calls) then ContextDone else e))
      && (forall i :: 0 <= i < |waits| ==> waits[i] == Backoff(cfg, i, script.jitter(i)))
      && |waits| == (if attempts == 0 then 0 else attempts - 1) + (if CutShort(cfg, script, attempts, calls) then 1 else 0)
  {
    hide Transient, IsRetryable, Waits, Backoff, EndsAt, Begins;
    if cfg.maxAttempts >= 1 {
      var e := EndsAt(cfg, script, 0);
      forall k: nat ensures k <= e <==> Begins(cfg, script, k) {
        BeginsUntilEnd(cfg, script, k);
      }
      forall k: nat | k <= e
        ensures Transient(cfg.retryableErrors, script.outcome(k)) <==> script.outcome(k).Failed? && IsRetryable(cfg, script.outcome(k).error)
        ensures k < e ==> Continues(cfg, script, k)
      {
        TransientIs(cfg, script, k);
        EndIs(cfg, script, k);
      }
      forall k: nat ensures k < Run(cfg, script).3 <==> Begins(cfg, script, k) && !script.doneAt(k) {
        assert k < e ==> Continues(cfg, script, k) && !script.doneAt(k);
      }
      WaitsAre(cfg, script, if PlansWait(cfg, script, e) then e + 1 else e);
    } else {
      NothingBegins(cfg, script);
    }
  }

  lemma EndIs(cfg: Config, script: Script, k: nat)
    requires cfg.maxAttempts >= 1 && k <= EndsAt(cfg, script, 0)
    ensures EndsAt(cfg, script, 0) < cfg.maxAttempts && (Continues(cfg, script, k) <==> k < EndsAt(cfg, script, 0))
  {
  }

  lemma NothingBegins(cfg: Config, script: Script)
    requires cfg.maxAttempts <= 0
    ensures forall k: nat :: !Begins(cfg, script, k)
  {
  }

  ghost predicate NeverDone(script: Script) { forall k: nat :: !script.doneAt(k) && !script.doneInWait(k) }

  /** Main result, when the context is never done: a failed call is followed by another exactly when attempts
      are left and its error says it may be retried, has a listed status, or is of no known kind; and the
      request succeeds exactly when some call within the attempts answers and all earlier ones failed so. */
  lemma {:induction false} AnotherCallIff(cfg: Config, script: Script, k: nat)
    requires NeverDone(script)
    ensures var (result, attempts, err, calls, waits) := Run(cfg, script);
      && (k < calls && script.outcome(k).Failed? ==>
            var e := script.outcome(k).error;
            (k + 1 < calls <==>
               && k + 1 < cfg.maxAttempts
               && (e == Classified(true) || (e.Coded? && e.status in cfg.retryableErrors) || e == Other || e == ContextDone)))
      && (k + 1 == calls && result.Some? <==>
            k < cfg.maxAttempts && script.outcome(k).Answered?
            && forall j: nat :: j < k ==> Transient(cfg.retryableErrors, script.outcome(j)))
      && attempts == calls
  {
    hide Run, IsRetryable, Waits, Backoff, EndsAt;
    LoopByKind(cfg, script);
    var (result, attempts, err, calls, waits) := Run(cfg, script);
    assert Begins(cfg, script, calls) <==> calls < attempts;
    assert attempts >= 0 && (Begins(cfg, script, attempts) <==> attempts < calls);
    assert Begins(cfg, script, k) <==> k < calls;
    assert Begins(cfg, script, k + 1) <==> k + 1 < calls;
  }

  /** With no attempt allowed the loop reports neither a result nor an error. */
  lemma {:induction false} NoAttemptsNoError(cfg: Config, script: Script)
    ensures Run(cfg, script).0 == None && Run(cfg, script).2 == None <==> cfg.maxAttempts <= 0
  {
    if cfg.maxAttempts >= 1 {
      SucceedsIffAnswers(cfg, script);
    }
  }
}
