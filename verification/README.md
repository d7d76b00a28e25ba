# Verified model of resillm

resillm is a proxy that puts a resilience layer in front of LLM providers: a fallback router with
retries, circuit breakers and per-provider semaphores; a rolling-window budget; a sharded per-address
rate limiter; hot reload; streamed answers; and a latency window for metrics. This project models those
parts in Dafny and proves what they promise, over every input, every run and every interleaving.

Where the program updates objects in place, so does the model: `Window`, `Tracker`, `Breaker`,
`Semaphore`, `Router`, `ShardedRateLimiter`, `Server` and `Collector` are classes whose methods are proved
to compute functions of the old state. The laws are then lemmas about those functions. Where several
threads share an object, a second module cuts its operations at their lock boundaries and lets any number
of callers interleave; a step that is not enabled leaves the state alone, so every sequence of steps is a
run.

| files | subject |
|---|---|
| `RollingWindow`, `WindowHistory` | buckets compacted in place, against a plain log of timed costs |
| `BudgetTracker`, `BudgetProtocol`, `BudgetExtent`, `BudgetTotals`, `BudgetOvershoot`, `BudgetExactness` | the admission decision, and how far exactly check-then-record can overshoot, across reloads |
| `CircuitBreaker`, `BreakerProtocol`, `BreakerHistory`, `BreakerReconfigured`, `BreakerThresholds` | the three-state machine, its interleavings, and changes of its settings |
| `BreakerRecovery`, `BreakerOpenPeriod`, `RouterWedge` | when it can get stuck, how long it stays open, and how requests can wedge it |
| `Semaphore`, `SemaphoreProtocol`, `SemaphoreLaws` | the channel length and the counter that lags behind it |
| `Retry`, `RetryLaws`, `RetryBackoff` | the retry loop by kinds of error, and the backoff arithmetic |
| `Routing`, `RoutingLaws`, `Router`, `RouterRecords`, `RouterProtocol`, `RouterRuns` | the fallback chain as seen by a request, the router that walks it on real objects, what its breakers hear, and many requests inside it at once |
| `Stream`, `EventStream`, `Streaming` | the receive loop, the frames and how a client reads them, the slot of a stream |
| `RateLimiter`, `RateLimiterProtocol`, `RateLimiterShards`, `RateLimiterEviction`, `RateLimiterConformance`, `RateLimiterRuns` | shards as one map, eviction against a map that never forgets, and exactly which requests are admitted |
| `Chat`, `ChatLaws`, `ChatProtocol` | a request from the budget check to the answer, which of many are refused, and one as a run of the budget's protocol |
| `Reload`, `ReloadHistory` | the comparison of configurations and the live components over many reloads |
| `Latency` | the sliding window, the exchange sort and the rank |

Times are integers and passed in. Costs, tokens and backoffs are exact reals. Jitter is any real in
[-1, 1). Providers are scripts of outcomes, the shard hash is any function, and the choices that Go
leaves open (which case of a select is taken, in which order a map is walked) are parameters or arbitrary.
The event stream format is that of sections 9.2.5 and 9.2.6 of the WHATWG HTML Standard. A lemma marked
as a main result in the sources is one that no single body shows.

## What the code does that its documentation does not say

Each of these is proved, with the exact condition where there is one.

- A repeated `Release` is documented as a no-op (`internal/providers/semaphore.go:63`). It is one exactly when
  nobody else has a slot (`SemaphoreLaws.StrayIsNoOpIff`); on a full semaphore it lets one holder too many in
  (`SemaphoreLaws.StrayBreaksCapacity`).
- The breaker is documented to leave the open state after the timeout (`INTERNALS.md:258`). It always waits that
  long exactly when no two callers share it (`BreakerOpenPeriod.OpenLastsIff`): any two callers with copies of
  the same open state can end the next open period in the instant it begins
  (`BreakerOpenPeriod.OpenPeriodCanBeCutShort`). The waiting time is kept when the copy is current
  (`BreakerOpenPeriod.OpenPeriodLastsOnCurrentCopy`).
- The breaker is documented to recover by itself (`README.md:696`). The router can be let in by a half-open
  breaker and then skip the endpoint without recording anything (`internal/router/router.go:90-105`). Under any
  configuration that leaves the breaker refusing everybody once there are as many such requests as
  admissions left (`RouterWedge.SkippedRequestsWedge`; in the interleaved protocol
  `BreakerRecovery.AbandoningWedges`). It stays so, whatever requests, streams and reloads come, exactly as
  long as no reload brings a limit above its counter (`RouterWedge.LostIff`,
  `BreakerReconfigured.StuckForGoodIff`). With a record for every admission and fixed settings it cannot
  happen exactly when the success threshold is at most the half-open limit plus one
  (`BreakerRecovery.WedgeFreeIff`).
- A reload that lowers a threshold or the half-open limit can leave a count at or above it. Over a whole
  timeline of settings that is ruled out exactly when they never fall (`BreakerThresholds`).
- With a negative number of attempts (zero is replaced by three when the file is read,
  `internal/config/config.go:202`) the retry loop returns neither a result nor an error, and the router
  answers nothing (`RetryLaws.NoAttemptsNoError`, `RoutingLaws.NoAttemptsNoAnswer`).
- A provider that reports success without a stream costs its semaphore a slot: the handler returns before it
  has arranged the release (`Streaming.SlotsReturnedIff`).
- The preallocated buckets suffice exactly when the bucket size divides the window or is larger than it
  (`WindowHistory.CapacitySufficesIffDivides`); the two windows of the tracker satisfy this.
- Streamed requests pass the budget check and never record a cost: a tracker that sees only streams never
  refuses one (`Chat.StreamsAreFree`), and its windows hold the costs of whole answers only
  (`Chat.BudgetSeesAnswersOnly`). The overshoot bound is about recorded spend.
- A reload applies the retry, breaker and budget settings only when a compared field changed, so the others
  drift, exactly when a reload changes them without one (`ReloadHistory.NeverDriftsIff`, `ReloadHistory.InStepIff`). A
  reload that changes the budget forgets what was spent (`Reload.Server.ApplyConfig`), and each one allows
  the whole limit and the whole overshoot again (`BudgetExactness.HourlyExactly`), for the daily limit as
  far as the hours of the day go round (`BudgetExactness.DailyExactly`).
- Backoffs may decrease from one retry to the next; a multiplier rules that out whatever the other settings
  exactly when it is at least 5/3 (`RetryBackoff.SafeMultiplierIff`, and for given settings
  `RetryBackoff.NeverDecreasesIff`).

## Model

| member | source | states |
|---|---|---|
| `RollingWindow.Window.constructor` | internal/budget/tracker.go:211-223 | a new window is empty and has room for window size over bucket size buckets, at least one |
| `RollingWindow.Window.CleanExpired` | internal/budget/tracker.go:265-276 | the in-place compaction keeps exactly the buckets after the cutoff, in order |
| `RollingWindow.Window.Add` | internal/budget/tracker.go:226-248 | purges, then adds to the first bucket of the truncated time or appends one; the array is replaced only when outgrown |
| `RollingWindow.Window.Sum` | internal/budget/tracker.go:251-262 | the total of the unexpired buckets, which are all that is left |
| `WindowHistory.SumIsSurvivingLog` | internal/budget/tracker.go:226-276 | for adds and sums in any clock order, `Sum` is the log total of the costs inside the window of every later operation |
| `WindowHistory.SumIsLogTotal` | internal/budget/tracker.go:226-276 | when no call was later than now, `Sum` is the total over the plain log of entries whose truncated time is inside the window |
| `WindowHistory.SumBounds` | internal/budget/tracker.go:226-276 | `Sum` lies between the exact spend of the last window minus one bucket and that of the last window |
| `WindowHistory.RunAligned` | internal/budget/tracker.go:226-276 | on a non-decreasing clock bucket times stay distinct multiples of the bucket size within the window |
| `WindowHistory.CapacitySufficesIffDivides` | internal/budget/tracker.go:211-276 | the preallocated capacity is never exceeded on any non-decreasing clock if and only if the bucket size divides the window or is larger than it |
| `BudgetTracker.Tracker.Check` | internal/budget/tracker.go:64-124 | the decision on the two windowed totals read one after the other; a disabled tracker allows everything |
| `BudgetTracker.Tracker.Record` | internal/budget/tracker.go:127-138 | adds the cost to both windows, or to neither when disabled |
| `BudgetTracker.Decide` | internal/budget/tracker.go:64-124 | refuses exactly when the action is reject and a positive limit is reached, warns exactly when it allows that, and gives each notice in exactly its case, the hourly limit before the daily one |
| `BudgetTracker.AlertIff` | internal/budget/tracker.go:88-96 | the alert is raised if and only if the threshold's share of a positive limit is spent |
| `BudgetTracker.HourlyNeverExceedsDaily` | internal/budget/tracker.go:55-61 | over any history the hourly sum is at most the daily sum at the same time |
| `BudgetTracker.TrackerWindowsFit` | internal/budget/tracker.go:55-61 | on a non-decreasing clock the windows never hold more than 60 and 24 buckets |
| `BudgetExtent.OvershootBound` | internal/server/handlers.go:83-121 | in every interleaving and under any reloads, with at most k outstanding requests of cost at most c, each limit that a tracker enforces, alone or with the other, is passed by less than k*c, whatever the other trackers do |
| `BudgetExtent.ReportedSpend` | internal/budget/tracker.go:251-262 | the spend bounded above is what the two `Sum` calls report |
| `BudgetExtent.SpendBelowReach` | internal/server/handlers.go:83-121 | in the same runs a tracker's hourly total stays below its lowest enforced limit + k*c, its daily one below the daily limit + k*c and the hourly bound per hour used, of at most 24; a disabled tracker reports nothing |
| `BudgetExactness.DailyExactly` | internal/server/server.go:198-208 | for every sequence of trackers, of any settings, what is really spent in a day has a bound only if every recording tracker enforces a limit, and stays below x in every run if and only if x is at least what the trackers can reach together under every division of the 24 hours |
| `BudgetExactness.DailyExactlyAlone` | internal/server/handlers.go:83-121 | for a tracker that is never replaced: if and only if x >= min(daily limit + k*c, 24 * (hourly limit + k*c)), or the one of them whose limit is enforced |
| `BudgetExactness.HourlyExactly` | internal/server/server.go:198-208 | for every sequence of trackers, of any settings, what is really spent in an hour has a bound only if every recording tracker enforces a limit, and stays below x in every run if and only if x >= the sum of lowest limit + k*c |
| `Chat.HandleChat` | internal/server/handlers.go:83-121 | on live tracker and router: refused, streamed, failed and answered requests, and the exact windows, breakers and slots each leaves; which of them happens is in the rows of `ChatLaws` |
| `Chat.BudgetSeesAnswersOnly` | internal/server/handlers.go:83-121 | after any requests the windows are those of the log of whole answers with a cost; nothing is recorded for streams, failures and refusals |
| `Chat.StreamsAreFree` | internal/server/handlers.go:102-106 | under every configuration a tracker that sees only streamed requests refuses none and stays empty |
| `ChatLaws.RefusedIff` | internal/server/handlers.go:83-88 | over every sequence of requests in any clock order, one is refused if and only if the budget is enabled, rejects, and a positive limit is at most what survives of the log in its window at the check; a refusal touches no breaker or slot and names the limit, the hourly one first; all others are served |
| `ChatLaws.RefusedIffLogTotal` | internal/server/handlers.go:83-88 | on a clock that does not go back those are the plain log totals; a limit reached by the exact spend of the last 59 minutes or 23 hours refuses, and nothing refuses unless that of the last hour or day has |
| `ChatLaws.AnsweredIffWorks` | internal/server/handlers.go:102-121 | an admitted chat request is answered if and only if some endpoint of its own entry's chain, or of the default one's for an unknown name, works, by the least that does |
| `ChatLaws.StreamedReads` | internal/server/handlers.go:102-106 | an admitted streamed request is turned down untouched on a writer that cannot flush; on any other its client reads what that chain brings |
| `ChatLaws.OwnEntryDecides` | internal/router/router.go:55-65 | changing any entry but a name's own, the default one included, changes nothing for that name |
| `ChatProtocol.HandledIsRun` | internal/server/handlers.go:83-121 | a request handled without interruption is a run of the budget's interleaved protocol, with the same admission and the same books |
| `CircuitBreaker.Breaker.Allow` | internal/resilience/circuitbreaker.go:70-112 | the uninterrupted call changes the fields and answers as the three-state machine says |
| `CircuitBreaker.Breaker.RecordSuccess` | internal/resilience/circuitbreaker.go:115-135 | resets the failures, counts towards closing, or does nothing, by state |
| `CircuitBreaker.Breaker.RecordFailure` | internal/resilience/circuitbreaker.go:138-160 | stamps the failure in every state, also when open, counts towards opening, or reopens |
| `CircuitBreaker.Breaker.UpdateConfig` | internal/resilience/circuitbreaker.go:216-220 | replaces the thresholds and touches no counter |
| `BreakerHistory.CountersMatchHistory` | internal/resilience/circuitbreaker.go:70-181 | with N callers inside `Allow`, the counters are those of the event log, below their thresholds, and only four edges occur |
| `BreakerHistory.EpisodeAdmissionsBound` | internal/resilience/circuitbreaker.go:70-112 | the half-open counter never exceeds its limit; an episode's locked admissions are that counter plus the callers on open copies, at most limit + N |
| `BreakerReconfigured.CountersMatchUnderUpdates` | internal/resilience/circuitbreaker.go:70-220 | the counters stay those of the log under any changes of the settings between any two steps |
| `BreakerReconfigured.TimesMatchUnderUpdates` | internal/resilience/circuitbreaker.go:138-181 | in the same runs the failure time is that of the last failure logged, in whatever state it was recorded, and the change time that of the last change |
| `BreakerReconfigured.AllowFollowsLog` | internal/resilience/circuitbreaker.go:70-112 | after any such run an uninterrupted `Allow` admits if and only if the log says closed; or open, and more than the timeout has passed since the last failure logged; or half-open, with the episode's locked admissions, apart from those on an open copy, below the limit set, or 50 |
| `BreakerReconfigured.NextRecordActs` | internal/resilience/circuitbreaker.go:115-160 | the state after every record: a failure opens a closed breaker, and a success closes a half-open one, if and only if the count it makes has reached the threshold then in force; a failure reopens a half-open one; nothing else moves it |
| `BreakerReconfigured.WithinLargest` | internal/resilience/circuitbreaker.go:216-220 | the counts stay below the largest settings ever in force |
| `BreakerThresholds.FailuresStayBelowIff` | internal/resilience/circuitbreaker.go:138-220 | over every timeline of settings the failure count stays below the threshold in force if and only if no earlier threshold is above a later one |
| `BreakerThresholds.AdmissionsStayWithinIff` | internal/resilience/circuitbreaker.go:92-220 | the same for the half-open counter and its limit |
| `BreakerThresholds.SuccessesStayBelowIff` | internal/resilience/circuitbreaker.go:115-220 | after every run under given settings the success count is below a bound, such as a new threshold, if and only if min(threshold - 1, limit + callers) is |
| `BreakerRecovery.AskIsAllow` | internal/resilience/circuitbreaker.go:70-112 | the split pieces run in a row are the class's `Allow` |
| `BreakerRecovery.CallsAreRuns` | internal/resilience/circuitbreaker.go:70-112 | runs of uninterrupted calls are runs of the interleaved protocol |
| `BreakerRecovery.AtomicAdmissionsBound` | internal/resilience/circuitbreaker.go:70-112 | with uninterrupted calls an episode admits exactly its counter plus one, at most limit + 1 |
| `BreakerRecovery.WedgeFreeIff` | internal/resilience/circuitbreaker.go:92-160 | with one record per admission no run wedges the half-open state if and only if success threshold <= limit + 1 |
| `BreakerRecovery.NeverStuck` | internal/resilience/circuitbreaker.go:92-160 | in every interleaving a half-open breaker that refuses has an admitted caller yet to record |
| `BreakerRecovery.AbandoningWedges` | internal/router/router.go:90-105 | admissions that are never recorded wedge the breaker under every configuration |
| `BreakerReconfigured.StuckForGoodIff` | internal/resilience/circuitbreaker.go:92-107 | with everybody outside, nothing that anybody does under any changing settings moves a half-open breaker if and only if no limit ever in force exceeds its counter |
| `RouterWedge.SkippedRequest` | internal/router/router.go:76-105 | a request let in by the breaker and then skipped changes the breaker by its admission and by nothing else |
| `RouterWedge.SkippedRequestsWedge` | internal/router/router.go:76-105 | such requests leave a half-open breaker refusing if and only if there are as many of them as admissions left |
| `RouterWedge.SkippedTrialsWedge` | internal/router/router.go:76-105 | from an open breaker past its timeout the same with one request more |
| `RouterWedge.LostIff` | internal/router/router.go:55-241 | no sequence of requests, streams and reloads moves a half-open breaker if and only if its counter has reached its limit and every limit a reload brings; its provider is then skipped at every place of every chain |
| `BreakerOpenPeriod.OpenLastsIff` | internal/resilience/circuitbreaker.go:70-112 | in every run of a team the open state lasts longer than the timeout, since the last failure logged or since the logged opening, if and only if the team has at most one caller or the timeout is negative |
| `BreakerOpenPeriod.OpenPeriodCanBeCutShort` | internal/resilience/circuitbreaker.go:71-90 | under every configuration any two callers can end an open period in the instant it begins |
| `BreakerOpenPeriod.AtomicAllowEndsIff` | internal/resilience/circuitbreaker.go:80-90 | after every interleaving an uninterrupted `Allow` ends the open period if and only if more than the timeout has passed since the last failure logged, and is refused otherwise |
| `BreakerOpenPeriod.OpenPeriodLastsOnCurrentCopy` | internal/resilience/circuitbreaker.go:71-90 | in every interleaving a caller whose copy holds the time of the last failure logged has waited as long |
| `Semaphore.Semaphore.Acquire` | internal/providers/semaphore.go:36-47 | run without other threads: takes a slot exactly when there is room and the context does not win, and counts it; a caller of a full channel returns only without a slot |
| `SemaphoreLaws.WaiterBlockedIff` | internal/providers/semaphore.go:36-47 | a thread waiting in `Acquire` is held up if and only if every slot is taken by another thread, gets in once a holder has received, and leaves no trace when it gives up |
| `Semaphore.Semaphore.Release` | internal/providers/semaphore.go:64-75 | frees a slot, or warns and changes nothing when none is taken |
| `SemaphoreLaws.SlotsAccounted` | internal/providers/semaphore.go:36-75 | with send, increment, receive and decrement as separate steps: length = sent + holders, active = holders + mid-release >= 0, holders <= capacity, no empty release |
| `SemaphoreLaws.StrayIsNoOpIff` | internal/providers/semaphore.go:62-75 | a release without a slot is a no-op if and only if nobody has one |
| `SemaphoreLaws.StrayBreaksCapacity` | internal/providers/semaphore.go:62-75 | for every capacity one such release lets capacity + 1 holders in |
| `RetryBackoff.BackoffBounds` | internal/resilience/retry.go:100-120 | under any jitter a backoff is at least the initial one and at most max(initial, 1.25*max) |
| `RetryBackoff.NeverDecreasesIff` | internal/resilience/retry.go:100-120 | the whole-nanosecond waits never decrease under any jitter, while uncapped, if and only if no longest wait exceeds the shortest next one |
| `RetryBackoff.SafeMultiplierIff` | internal/resilience/retry.go:100-120 | a multiplier keeps them in order under all other settings if and only if it is at least 5/3 |
| `RetryBackoff.ExactNeverDecreasesIff` | internal/resilience/retry.go:100-117 | before truncation, given settings keep them in order if and only if the multiplier is at least 5/3 |
| `Retry.ExecuteWithResult` | internal/resilience/retry.go:60-97 | the loop computes the outcome read off the first attempt that does not lead to another, with its calls and waits |
| `Retry.CheckRetryable` | internal/resilience/retry.go:123-141 | the scan of the list: yes if and only if the error says so, has a listed status, or is of no known kind |
| `RetryLaws.LoopByKind` | internal/resilience/retry.go:60-97 | for every script: which attempts begin and which of them call the provider, by the kinds of the earlier errors and the context; whose answer and whose error is returned; and the backoffs waited, in order |
| `RetryLaws.AnotherCallIff` | internal/resilience/retry.go:60-141 | with a context that is never done, a failed call is followed by another if and only if attempts are left and its error is retryable, has a listed status or is of no known kind; success and the number of calls follow |
| `Retry.SucceedsIffAnswers` | internal/resilience/retry.go:60-97 | it succeeds if and only if the provider answers at an attempt all earlier ones led to; attempts = calls, + 1 only when cancelled at the loop head |
| `RetryLaws.NoAttemptsNoError` | internal/resilience/retry.go:60-97 | no result and no error exactly when no attempt is allowed |
| `RetryBackoff.TotalBackoffBound` | internal/resilience/retry.go:60-120 | a call plans at most max attempts - 1 waits, together at most that many longest backoffs |
| `RoutingLaws.AnswersFromLeastWorking` | internal/router/router.go:55-159 | for every chain, breaker behaviour and script: answers if and only if some endpoint works, from the least one, with metadata of that endpoint |
| `RoutingLaws.Conservation` | internal/router/router.go:76-156 | a breaker is told as many successes as its provider's endpoints were reached and worked, as many failures as they were reached and did not; calls only after admission and inside a slot that is given back; calls <= attempts * chain length |
| `RoutingLaws.LastErrorIsLatest` | internal/router/router.go:138-158 | a request that fails reports the error of the last endpoint reached, and none if and only if none was |
| `RoutingLaws.NoAttemptsNoAnswer` | internal/router/router.go:107-125 | with no attempts allowed every request fails, without a last error, and no provider is called and no breaker told anything |
| `Router.Router.ExecuteChat` | internal/router/router.go:55-159 | a configured name goes along its own primary and fallbacks, any other along those of the default entry, or is unknown; the loop over live breakers and semaphores returns the routing result for the answers these objects give and leaves exactly the world that route describes |
| `Router.Router.GetSemaphore` | internal/providers/semaphore.go:113-133 | returns the provider's semaphore, creating an empty one on first use and disturbing no other |
| `Router.SlotsConserved` | internal/router/router.go:98-112 | after any part of any chain, repeated providers included, the slots in use are those at the start |
| `Router.OthersUntouched` | internal/router/router.go:76-156 | a breaker whose provider is not in the chain is not changed |
| `RouterRecords.BreakersHearOutcomes` | internal/router/router.go:76-144 | for every chain each breaker ends as it does when the request's events for it are replayed in order, asked as `Allow`, told as success and failure, with the answers it gives in the replay; and as it does when it is told a success at each endpoint reached that works and a failure at each that does not |
| `RouterRecords.StreamsHearOutcomes` | internal/router/router.go:190-230 | the same for streams: a success where one is opened, a failure where the endpoint was reached and opened none |
| `RouterRecords.ReachedIff` | internal/router/router.go:76-106 | an endpoint is reached if and only if its breaker admits after all it has heard so far, the provider is registered, fewer than 200 of its slots are in use, and the context is not done or loses to the free slot |
| `RouterProtocol.RouterPairs` | internal/router/router.go:98-112 | in every interleaving of routed chat and streamed requests each provider's semaphore sees threads that release only what they acquired |
| `RouterProtocol.CallsWithinCapacity` | internal/router/router.go:98-241 | in every such interleaving a provider's calls and streams in flight and its lost slots together never exceed its capacity, and at rest the slots in use are exactly the lost ones |
| `RouterRuns.RouteIsRun` | internal/router/router.go:68-156 | whatever else is going on, a chat or streamed request routed without interruption is a run of that protocol, which ends with every semaphore as it was, or one slot gone when no stream was handed over |
| `RouterRuns.HeldUpIff` | internal/router/router.go:98-105 | in every interleaving a request waiting for a slot is held up if and only if as many requests as there are slots occupy its provider |
| `Router.Router.ExecuteChatStream` | internal/router/router.go:169-241 | along the same chain for a name, routes as a request with a single attempt does, tells the breakers the same, and keeps one slot for the caller |
| `Router.StreamTurn` | internal/router/router.go:190-238 | one endpoint of a stream's chain: a refused open frees its slot, a successful one keeps it |
| `Stream.Relay` | internal/server/handlers.go:217-267 | the receive loop writes the frames of the chunks before the first stop, at most one error and the end mark |
| `Stream.ClientSees` | internal/server/handlers.go:217-267 | a client parsing those bytes gets the chunks in order, an error exactly when the stream failed, with the keys removed from a broken stream's message, and the end mark once and last |
| `EventStream.RoundTripIff` | internal/server/handlers.go:436-456 | the frames of any payloads, empty ones included, are read back as those payloads if and only if none has a line break |
| `Streaming.HandleStreamingChat` | internal/server/handlers.go:164-268 | what is written and the breakers and slots left behind, on every exit of the handler |
| `Streaming.StreamsFromLeastOpening` | internal/router/router.go:190-238 | a stream comes from the least endpoint that is reached and opens one, if and only if there is one |
| `Streaming.SlotsReturnedIff` | internal/server/handlers.go:184-208 | all slots are back after a streamed request if and only if the provider that answered handed over a stream |
| `Streaming.ClientReads` | internal/server/handlers.go:164-268 | what the client of a flushing writer reads on every exit: the routing error, the fixed error when no stream was handed over, or the stream of the least endpoint that opens one |
| `Streaming.EveryAnswerEnds` | internal/server/handlers.go:164-268 | on a flushing writer every request's client reads the end mark exactly once, and last |
| `RateLimiter.ShardedRateLimiter.GetLimiter` | internal/server/ratelimit.go:77-109 | refreshes the entry in the address's shard or inserts a full bucket, and returns its limiter |
| `RateLimiter.ShardedRateLimiter.Allow` | internal/server/ratelimit.go:112-114 | the decision and the new bucket are those of the address's limiter |
| `RateLimiter.Purge` | internal/server/ratelimit.go:136-144 | walking one shard in any order removes exactly the entries older than the cutoff and counts them |
| `RateLimiter.ShardedRateLimiter.Cleanup` | internal/server/ratelimit.go:132-150 | sweeps every shard and subtracts exactly the number of removed entries |
| `RateLimiterShards.ShardsAreOneMap` | internal/server/ratelimit.go:69-150 | in every interleaving an address lives only in shard hash mod 256, limiters are not shared, and the counter is entries + removals not yet subtracted |
| `RateLimiterShards.SameLimiterIffNotEvicted` | internal/server/ratelimit.go:77-109 | in every interleaving two lookups of an address hand out the same limiter if and only if its entry was in the table all the time in between |
| `RateLimiterRuns.AllowIsRun` | internal/server/ratelimit.go:77-114 | an uninterrupted lookup and decision of the interleaved protocol change the table and answer as the class's `Allow` |
| `RateLimiterRuns.CleanupIsRun` | internal/server/ratelimit.go:132-150 | an uninterrupted cleanup of the protocol is the class's |
| `RateLimiterEviction.EvictionInvisibleIff` | internal/server/ratelimit.go:77-150 | every decision equals that of a flat map that never evicts if and only if a bucket refills between its last use and its earliest eviction |
| `RateLimiterEviction.LongTtlSuffices` | internal/server/ratelimit.go:117-150 | rate * ttl >= burst is enough when callers use their limiter at once |
| `RateLimiterEviction.AdmissionsBounded` | internal/server/ratelimit.go:77-150 | under the same condition one address gets at most burst + rate * (t - s) admissions in any interval |
| `RateLimiterConformance.AdmittedIff` | internal/server/ratelimit.go:77-150 | under the same condition a request is admitted if and only if, since each earlier admission of its address, it and the admissions from that one on number at most burst + rate * elapsed time |
| `Reload.ModelsEqual` | internal/config/watcher.go:251-265 | equal exactly when the chains name the same providers and models |
| `Reload.ModelsChanged` | internal/config/watcher.go:195-208 | the one-way walk after a size comparison decides equality of names and chains both ways |
| `Reload.DiffConfigs` | internal/config/watcher.go:192-248 | every flag is set exactly when one of its own compared fields differs, the model flag when a name or a chain's providers and models do |
| `Reload.Server.ApplyConfig` | internal/server/server.go:171-236 | the tracker stays the same object if and only if the three compared budget fields agree, and is a new empty one otherwise; models, retry and breaker settings are replaced exactly when what is compared of them differs; breaker counters and slots are kept |
| `Reload.Server.constructor` | internal/server/server.go:49-93 | every component is wired with the given configuration, one breaker per provider, and the router asks the very breakers that the server updates |
| `ReloadHistory.LiveFollowsStored` | internal/server/server.go:171-236 | over every sequence of reloads the router's chain for every requested name is the stored one, and the compared settings agree with the router's own and those of the breakers it asks |
| `ReloadHistory.RoutingSeesTargets` | internal/router/router.go:55-159 | chains that agree in what the comparison looks at are routed identically |
| `ReloadHistory.LiveComesFromLastFlagged` | internal/server/server.go:171-236 | over every sequence of reloads the live settings come whole from the last configuration that raised their flag |
| `ReloadHistory.InStepIff` | internal/config/watcher.go:218-240 | they are the stored ones if and only if that configuration agrees with the last one, for retry, breakers and budget |
| `ReloadHistory.NeverDriftsIff` | internal/config/watcher.go:218-240 | retry, breaker and budget settings, each: live and stored agree at every moment if and only if no reload changes them without changing a compared field (or, for breakers, there are none) |
| `ReloadHistory.SettingsCanDrift` | internal/config/watcher.go:218-240 | from every configuration one reload is enough for each of them to drift |
| `Latency.ExchangeSort` | internal/metrics/collector.go:290-297 | the in-place exchange sort yields a sorted permutation |
| `Latency.RankIsLastIff` | internal/metrics/collector.go:299-302 | the rank is always inside the window, so the clamp never fires, and is the last element if and only if the window has at most 100 samples |
| `Latency.WindowIsLastSamples` | internal/metrics/collector.go:224-237 | after any recordings for any providers a provider's window is its last 100 samples, or all if fewer |
| `Latency.Collector.RecordLatency` | internal/metrics/collector.go:224-237 | appends to the provider's window and drops all but the last 100 |
| `Latency.Collector.GetLatencyP99` | internal/metrics/collector.go:277-305 | the maximum of the provider's window, or zero when it is empty; the window is not changed |

## Left out

- Router.Router.ExecuteChat: the class runs one request without interruption. The laws in `RoutingLaws` hold for arbitrary answers of breakers and semaphores, so also when other requests act in between; the slot counts under contention are the subject of `RouterProtocol`.
- RateLimiterEviction.EvictionInvisibleIff: stated for callers that hold a limiter for at most the TTL before asking it; the limiter objects are numbered values, not heap objects.
- BudgetExtent.OvershootBound: the clock is shared by all callers and does not go back; finding the current tracker and locking it to record is one step.
- BreakerHistory.CountersMatchHistory: the configuration is fixed during a run; `BreakerReconfigured` is about runs in which it changes.
- BreakerRecovery.WedgeFreeIff: the configuration is fixed during a run.
- BreakerThresholds.SuccessesStayBelowIff: for one change of the settings, where the other two counts are treated over whole timelines.
- RouterWedge.LostIff: requests come one after the other; callers that are inside the breaker at the same time are in `BreakerReconfigured.StuckForGoodIff`.
- Stream.Relay: a stream ends, or its client leaves, after finitely many turns; each frame is one string, where the handler makes three writes and a flush.
- Semaphore.Semaphore.Acquire: a single call has nobody to wait for, so a caller that finds the channel full is one that gives up; waiting for other threads is in `SemaphoreLaws.WaiterBlockedIff`. Which of several waiting threads Go serves first is not modelled.
- Chat.HandleChat: one request without interruption; other requests act in between in `BudgetProtocol`, of which it is a run (`ChatProtocol.HandledIsRun`), and the state of the router is arbitrary in the laws about many requests.
- Provider clients and the network: replaced by scripts of outcomes.
- YAML, environment expansion, file watching and debouncing: only the configuration records and their comparison are modelled.
- HTTP routing, headers, JSON encoding, logging, Prometheus counters, request validation, admin authentication and address extraction.
- Load shedding (`internal/server/loadshed.go`) and the price table (`internal/pricing/calculator.go`): costs are assumed to be non-negative.
- The token bucket library: its contract (starts full, refills at a constant rate up to the burst, a refusal changes nothing) is assumed.
- Floating-point rounding, integer overflow of durations, and unsynchronised reads under Go's memory model, such as reading a breaker's configuration outside its lock.
- `Retrier.Execute`, `Tracker.Status`, breaker and semaphore statistics: readers or near copies of what is modelled.
- The double check in `ProviderSemaphores.Get` under two simultaneous first uses: it follows the same pattern as the limiter's creation, which is modelled with interleaving.
- Fields that the comparison ignores and the server keeps elsewhere, such as timeouts and server addresses.
