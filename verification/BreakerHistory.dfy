/** The shared breaker against the log of what happened to it. */
module BreakerHistory {
  import opened CircuitBreaker
  import opened BreakerProtocol

  /** Main result, in every interleaving: the state is the last one logged and only the four legal
      edges occur; the failure count is the run of failures at the end of the log while closed, the
      success count the successes of the current half-open episode, and both are zero elsewhere and
      below their thresholds always. */
  lemma CountersMatchHistory(clock: int, steps: seq<Step>, team: set<nat>, cfg: Config)
    requires Positive(cfg)
    ensures var s := Exec(clock, steps, team, cfg);
      && s.core.state == StateAfter(s.log) && OnlyLegalEdges(s.log)
      && s.core.failureCount == (if s.core.state == Closed then TrailingFailures(s.log) else 0) < cfg.failureThreshold
      && s.core.successCount == (if s.core.state == HalfOpen then EpisodeSuccesses(s.log) else 0) < cfg.successThreshold
  {
    hide Exec;
    ExecInv(clock, steps, team, cfg);
  }

  /** Main result, in every interleaving: the half-open counter never exceeds its limit, and the
      write-locked admissions of an episode are that counter plus the callers that acted on an open
      copy, each once. A team of n callers is therefore let in at most limit + n times. */
  lemma EpisodeAdmissionsBound(clock: int, steps: seq<Step>, team: set<nat>, cfg: Config)
    requires Positive(cfg)
    ensures var s := Exec(clock, steps, team, cfg);
      && 0 <= s.core.halfOpenRequests <= Limit(cfg)
      && EpisodeAdmissions(s.log) == s.core.halfOpenRequests + |OpenAdmitted(s.log)|
      && OpenAdmitted(s.log) <= team
      && EpisodeAdmissions(s.log) <= Limit(cfg) + |team|
  {
    hide Exec;
    ExecInv(clock, steps, team, cfg);
    SubsetSize(OpenAdmitted(Exec(clock, steps, team, cfg).log), team);
  }
}
