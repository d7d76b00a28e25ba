/** The circuit breaker (`internal/resilience/circuitbreaker.go`): its three states, its counters and
    the operations that move them. Times are integers; the zero time is 0.

    The class carries the fields of the original and updates them in place. Each method is tied to a
    function on `Core`, the value of those fields; what those functions guarantee over whole runs, with
    `Allow` cut at its lock boundaries, is in `BreakerProtocol.dfy`. */
module CircuitBreaker {

  datatype State = Closed | Open | HalfOpen

  datatype Config = Config(failureThreshold: int, successThreshold: int, timeout: int, halfOpenMaxRequests: int)

  const DEFAULT_HALF_OPEN_MAX_REQUESTS: int := 50

  /** The half-open request limit; an unset limit means the default. */
  function Limit(cfg: Config): (n: nat)
    ensures n >= 1
  {
    if cfg.halfOpenMaxRequests <= 0 then DEFAULT_HALF_OPEN_MAX_REQUESTS else cfg.halfOpenMaxRequests
  }

  datatype Core = Core(state: State, failureCount: int, successCount: int, halfOpenRequests: int,
                       lastFailureTime: int, lastStateChange: int)

  function NewCore(now: int): Core { Core(Closed, 0, 0, 0, 0, now) }

  function TransitionTo(b: Core, to: State, now: int): (r: Core)
    ensures r.state == to && r.lastFailureTime == b.lastFailureTime
    ensures b.state == to ==> r == b
    ensures b.state != to ==> r.failureCount == r.successCount == r.halfOpenRequests == 0
  {
    if b.state == to then b else Core(to, 0, 0, 0, b.lastFailureTime, now)
  }

  /** The write-locked part of `Allow` for a caller that saw the breaker open and timed out. */
  function EnterHalfOpen(b: Core, now: int): Core
  {
    if b.state == Open then TransitionTo(b, HalfOpen, now) else b
  }

  /** The write-locked part of `Allow` for a caller that saw the breaker half-open. The state is not
      looked at again. */
  function TakeHalfOpenSlot(b: Core, cfg: Config): (Core, bool)
  {
    if b.halfOpenRequests >= Limit(cfg) then (b, false)
    else (b.(halfOpenRequests := b.halfOpenRequests + 1), true)
  }

  predicate TimedOut(lastFailure: int, cfg: Config, now: int) { now - lastFailure > cfg.timeout }

  /** `Allow` run without interruption. */
  function AllowStep(b: Core, cfg: Config, now: int): (Core, bool)
  {
    match b.state
    case Closed => (b, true)
    case Open => if TimedOut(b.lastFailureTime, cfg, now) then (EnterHalfOpen(b, now), true) else (b, false)
    case HalfOpen => TakeHalfOpenSlot(b, cfg)
  }

  function OnSuccess(b: Core, cfg: Config, now: int): Core
  {
    match b.state
    case Closed => b.(failureCount := 0)
    case Open => b
    case HalfOpen =>
      var counted := b.(successCount := b.successCount + 1);
      if counted.successCount >= cfg.successThreshold then TransitionTo(counted, Closed, now) else counted
  }

  /** A failure refreshes the failure time in every state, also when the breaker is already open. */
  function OnFailure(b: Core, cfg: Config, now: int): Core
  {
    var stamped := b.(lastFailureTime := now);
    match b.state
    case Closed =>
      var counted := stamped.(failureCount := b.failureCount + 1);
      if counted.failureCount >= cfg.failureThreshold then TransitionTo(counted, Open, now) else counted
    case Open => stamped
    case HalfOpen => TransitionTo(stamped, Open, now)
  }

  class Breaker {
    var state: State
    var config: Config
    var failureCount: int
    var successCount: int
    var halfOpenRequests: int
    var lastFailureTime: int
    var lastStateChange: int

    function View(): Core
      reads this
    {
      Core(state, failureCount, successCount, halfOpenRequests, lastFailureTime, lastStateChange)
    }

    constructor (cfg: Config, now: int)
      ensures View() == NewCore(now) && config == cfg
    {
      state := Closed;
      config := cfg;
      failureCount, successCount, halfOpenRequests := 0, 0, 0;
      lastFailureTime := 0;
      lastStateChange := now;
    }

    method Transition(newState: State, now: int)
      modifies this
      ensures View() == TransitionTo(old(View()), newState, now)
      ensures config == old(config)
    {
      if state == newState {
        return;
      }
      state := newState;
      lastStateChange := now;
      failureCount := 0;
      successCount := 0;
      halfOpenRequests := 0;
    }

    method Allow(now: int) returns (ok: bool)
      modifies this
      ensures (View(), ok) == AllowStep(old(View()), config, now)
      ensures config == old(config)
    {
      var seen := state;
      var lastFailure := lastFailureTime;
      match seen {
        case Closed =>
          ok := true;
        case Open =>
          ok := now - lastFailure > config.timeout;
          if ok && state == Open {
            Transition(HalfOpen, now);
          }
        case HalfOpen =>
          var maxRequests := config.halfOpenMaxRequests;
          if maxRequests <= 0 {
            maxRequests := DEFAULT_HALF_OPEN_MAX_REQUESTS;
          }
          ok := halfOpenRequests < maxRequests;
          if ok {
            halfOpenRequests := halfOpenRequests + 1;
          }
      }
    }

    method RecordSuccess(now: int)
      modifies this
      ensures View() == OnSuccess(old(View()), config, now)
      ensures config == old(config)
    {
      match state {
        case Closed =>
          failureCount := 0;
        case Open =>
        case HalfOpen =>
          successCount := successCount + 1;
          if successCount >= config.successThreshold {
            Transition(Closed, now);
          }
      }
    }

    method RecordFailure(now: int)
      modifies this
      ensures View() == OnFailure(old(View()), config, now)
      ensures config == old(config)
    {
      lastFailureTime := now;
      match state {
        case Closed =>
          failureCount := failureCount + 1;
          if failureCount >= config.failureThreshold {
            Transition(Open, now);
          }
        case Open =>
        case HalfOpen =>
          Transition(Open, now);
      }
    }

    method UpdateConfig(cfg: Config)
      modifies this
      ensures config == cfg && View() == old(View())
    {
      config := cfg;
    }
  }
}
