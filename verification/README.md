# Verification model of the execution engine

This project models, in Dafny 4.11, the core of the Go runtime and proves properties of it. `dafny verify dfyconfig.toml`
checks everything.

- **Dispatch engine.** `Scheduler.dfy` is the weighted-credit priority scheduler as a class, refined to five FIFO
  sequences; `Fairness.dfy` proves conservation, bounded overtaking and the exact 16/8/4/2/1 share over whole runs.
  `Retry.dfy` and `Attempts.dfy` are the backoff arithmetic, the retry loop and every exit of a run. `Engine.dfy` is the
  concurrent protocol of submitters, cancellers, the dispatcher, running executions, notifiers and waiters as a step relation
  whose actions are single critical sections and channel operations. `Places.dfy`, `Slots.dfy`, `Depth.dfy`, `Wakeups.dfy`,
  `Waiting.dfy`, `States.dfy`, `Cancellation.dfy`, `Progress.dfy`, `Finality.dfy` and `Waking.dfy` prove what all its
  interleavings keep, and `Runs.dfy` connects the runs of `Attempts.dfy` to its actions.
- **Event bus.** `Topics.dfy` matches topic patterns, `BusLog.dfy` reasons about histories of channel operations, and
  `EventBus.dfy` is the bus as a class in which Publish, Enqueue and DeadLetter call each other.
- **Context algebra.** `Contexts.dfy` (layers and derivations), `Wire.dfy` (serialization), `Merge.dfy` (merging) and
  `CostCell.dfy` (the lock-free cost counter under all interleavings).
- **Guards.** `Pipeline.dfy` (validation, composition, authentication and authorization), `RateLimit.dfy` (token buckets)
  and `Lifecycle.dfy` (the runtime lifecycle).

How to read the protocol: a `System` is the shared state, an `Action` is one atomic step of one goroutine, and `Run` follows
any sequence of actions (one that is not enabled changes nothing). `Reachable` states are those of all runs from the initial
one, and `Leads` relates a state to all its continuations, so a statement about every reachable state and every continuation
covers all interleavings. Inside Dequeue the dispatcher moves one queue position per action, because the filter reads provider
counts that other goroutines change meanwhile. Provider outcomes, panics, random draws, clock readings, handler outcomes, the
token verifier and the decisions of stateful middleware are parameters; statements hold for all their values. Strings are sequences
of bytes, and amounts and times of the rate limiter and the cost counters are real numbers.

Where the code does not do what one might expect, the model follows the code, and a lemma gives the concrete case or the exact
condition:

- Terminal states are not absorbing. Submit's QUEUED write, the start of a run, a retry and the recovery block can overwrite
  what Cancel wrote. `Finality.TerminalFinalIff` and `Finality.CancelFinalIff` say exactly when they cannot.
- Not every Wait is woken: one can register after the last notification, or find an execution that finished in a state that
  is not terminal. `Waking.WaiterWakesIff` says exactly which waiters can still be woken.
- Submit's capacity check is a bound on the queue only with a single submitter at a time (`Depth.CapacityKeptIff`).
- A cancelled RUNNING execution is not always reported as TIMED_OUT: where Cancel meets the run decides between TIMED_OUT,
  FAILED and the provider's own answer (`Attempts.CancelledRunState`).
- A provider result that carries an error together with the state SUCCEEDED ends SUCCEEDED (`Attempts.SucceedsIff` gives the
  exact condition). A nil result with a nil error, a failed result without an error to publish, and a panicking event
  subscriber end in the recovery block.
- Backoff products can wrap to negative delays, which MaxDelay does not clamp (`Retry.DelayExactIff`).
- A job of a class outside the five is queued but never dequeued (`Finality.QueuedCanRunIff`).
- WithMetadata and WithCostBudget on a context without a request layer hide a trace ID carried as a plain value
  (`Contexts.TraceLostIff`).
- Merge does not enforce the metadata cap (`Merge.MergeWithinCapIff`), and a missing runtime layer can make its result depend
  on the grouping (`Merge.MergeAssociativeIff`).
- DEGRADED can be requested through Transition with every component healthy (`Lifecycle.DegradedExplainedIff`).

## Model

| member | source | states |
|---|---|---|
| `Scheduler.PriorityScheduler.Enqueue` | core/execution/scheduler.go:37-46 | appends the job to the queue of its class (an empty priority means Normal) and changes nothing else |
| `Scheduler.PriorityScheduler.FindAndRemove` | core/execution/scheduler.go:48-58 | takes the first job of one class that the filter accepts out of its place, pays one credit of that class, keeps all other jobs in order; with no acceptable job nothing changes |
| `Scheduler.PriorityScheduler.Dequeue` | core/execution/scheduler.go:60-103 | the two sweeps with the refill between them give the answer and the state of the specification Dequeued, whose meaning is DequeueMeaning; credits stay in [0, weight] and every job in the queue of its class |
| `Scheduler.DequeueMeaning` | core/execution/scheduler.go:60-103 | Dequeue refines five FIFO sequences: nothing is returned exactly when no job of a known class is eligible; otherwise the first eligible job of the first class in priority order that is eligible and has credit, or, if no eligible class has credit, of the first eligible class after all credits are refilled; everything else keeps its order |
| `Scheduler.PriorityScheduler.Remove` | core/execution/scheduler.go:105-118 | succeeds exactly when some queue holds the ID, and then takes its first occurrence out of one queue, leaving everything else, credits included |
| `Scheduler.PriorityScheduler.Size` | core/execution/scheduler.go:120-129 | the number of jobs over all queues, unknown classes included |
| `Fairness.Conservation` | core/execution/scheduler.go:37-118 | over every run of Enqueue, Dequeue (any filters) and Remove: queued plus returned plus removed copies of a job equal initially queued plus enqueued copies, and the state stays valid |
| `Fairness.EachJobOnce` | core/execution/scheduler.go:37-118 | with distinct IDs, from an empty scheduler, each enqueued job is exactly one of still queued, returned once, removed once; nothing else ever appears |
| `Fairness.BoundedOvertaking` | core/execution/scheduler.go:60-103 | a job at index k of class p that every filter accepts is returned within 31 * (1 + n) Dequeue calls as soon as n * weight(p) >= k + 1, that is within 31 * (1 + ceil((k+1)/weight(p))), whatever is enqueued or removed in between |
| `Fairness.WeightedShare` | core/execution/scheduler.go:16-28 | from full credits with n * weight eligible jobs in every class, the next 31n Dequeues are n rounds of exactly 16 Critical, 8 High, 4 Normal, 2 Low and 1 Background job, each class first in first out |
| `Fairness.UnknownClassNeverReturned` | core/execution/scheduler.go:64-70 | a job of a class outside the five stays queued until it is removed; Dequeue never returns it |
| `Retry.CalculateBackoff` | core/execution/retry.go:29-70 | for every policy and attempt: base times the strategy's factor (doubling, capped at 1000000) truncated to 64 bits, clamped to a positive MaxDelay; with jitter the drawn value, which lies in [0, delay) |
| `Retry.DelaysGrow` | core/execution/retry.go:40-58 | without MaxDelay and overflow: constant delays equal the base, linear ones start with it and grow by it, exponential ones start with it and double while the factor is at most a million, then stay at a million times the base; attempts below 1 count as 1 |
| `Retry.MaxDelayCaps` | core/execution/retry.go:60-62 | a positive MaxDelay replaces exactly the delays above it |
| `Retry.DelayExactIff` | core/execution/retry.go:43-62 | the 64-bit delay equals the mathematical one exactly when the product fits in 64 bits, or when both it and its truncation reach MaxDelay |
| `Retry.OverflowWitness` | core/execution/retry.go:46-62 | a policy whose product wraps to a negative delay that no MaxDelay clamps |
| `Retry.DelayMonotone` | core/execution/retry.go:40-62 | without overflow and jitter no strategy shortens the delay from one attempt to a later one |
| `Retry.AgreesWithSdk` | sdk-python/src/runtime/_client/retry.py:12-26 | the exponential delay equals the Python client's min(base * 2^(attempt-1), max) whenever 0 < max <= base * 1000000 |
| `Retry.AgreesWithSdkIff` | sdk-python/src/runtime/_client/retry.py:12-26 | and it does so before every attempt exactly when max <= base * 1000000 or base is 0 |
| `Retry.DelayAtMostMax` | core/execution/retry.go:60-62 | a positive MaxDelay bounds every delay, overflowed or not |
| `Attempts.Execution.RunSingleAttempt` | core/execution/manager.go:422-526 | appends exactly one attempt record with the attempt's number and error, and returns the provider's outcome or the timeout error that fits; a panic comes before or after the record |
| `Attempts.Execution.WaitBackoff` | core/execution/manager.go:393-420 | asks for the backoff of the attempt that failed; the state is RETRYING if the wait is cut short (with the context's plain error) or publishing panics, and RUNNING otherwise |
| `Attempts.Execution.ExecuteAttempts` | core/execution/manager.go:542-566 | the loop ends as the specification WholeLoop says, with its result and error or its panic, with records numbered 1..k, and with exactly the backoffs and state writes in between |
| `Attempts.LoopMeaning` | core/execution/manager.go:547-563 | k <= MaxAttempts; every attempt before the last failed retryably and its backoff ran out; the loop stopped for one of its five reasons (complete, wait cut short, three panics) and reports the matching result and error |
| `Attempts.LoopReaches` | core/execution/manager.go:547-563 | if all attempts before n fail retryably and their backoffs run out, the loop continues exactly as from attempt n |
| `Attempts.NextAttemptIff` | core/execution/manager.go:501-563 | which outcomes are retried: without a RetryableCheck a platform error marked retryable, any other error and the attempt's own timeout, but not a non-retryable error, the end of the whole deadline or an answer; with one, exactly the errors it accepts |
| `Attempts.Execution.HandleResult` | core/execution/manager.go:602-644 | the recorded result and state for every combination of result and error; both nil is the nil dereference that the caller recovers from |
| `Attempts.ErrorsRecorded` | core/execution/manager.go:568-600 | an error is recorded with its category, text and flag; timeouts end TIMED_OUT, cancellations CANCELLED, all else FAILED, each with its status |
| `Attempts.ResultsRecorded` | core/execution/manager.go:609-630 | a result without error and with no status but success ends SUCCEEDED; any other ends in the state it names, or FAILED if it names none; one that carries no error although publishing it needs one ends in the recovery block |
| `Attempts.AttemptsRecorded` | core/execution/manager.go:430-524 | the k-th record has number k, and the error of attempt k if it had one |
| `Attempts.FailuresRecorded` | core/execution/manager.go:700-771 | every panic, and a provider that does not resolve, ends FAILED with an internal, not retryable error and its own text |
| `Attempts.Execution.RunStream` | core/execution/manager.go:822-916 | the three ends of a streaming run and its panics: the matching final write, then one semaphore receive and one notification, unless it panics |
| `Attempts.StreamEnds` | core/execution/manager.go:830-914 | an error on opening ends FAILED with it, a closed channel SUCCEEDED, the end of the context TIMED_OUT with its error |
| `Attempts.Execution.RunExecution` | core/execution/manager.go:699-916 | a whole run by any exit (normal, failed resolve, three stream ends, middleware short circuit) and with a panic at any point: it leaves the result of RunResult and its records; it receives from the semaphore exactly once and notifies exactly once, in this order, after its last state write; its state writes are those of RunMoves; the i-th backoff is the delay of attempt i, or less with jitter |
| `Attempts.AttemptsCounted` | core/execution/manager.go:622-642 | AttemptCount is the number of attempts recorded whenever an error, or a result that reports no failure, is recorded and published; an error decides the final state by its category |
| `Attempts.TotalBackoff` | core/execution/manager.go:393-394 | all backoffs of one run together ask for at most (MaxAttempts-1) * MaxDelay |
| `Attempts.StateDecided` | core/execution/manager.go:547-644 | for a run without stream and middleware: if some attempt is the last one, its outcome alone decides the recorded state; if none is (a wait cut short, a panic, no attempt allowed) the run is FAILED |
| `Attempts.SucceedsIff` | core/execution/manager.go:609-629 | the recorded state is SUCCEEDED just when the last attempt answered cleanly, if and only if the last attempt's result does not report a failure together with the state SUCCEEDED |
| `Attempts.ContradictoryResultSucceeds` | core/execution/manager.go:611-618 | such a contradictory result occurs and makes the run SUCCEEDED |
| `Attempts.TimedOutIff` | core/execution/manager.go:499-525 | exactly the runs whose last attempt expired, or itself reports a timeout, end TIMED_OUT |
| `Attempts.CancelledRunState` | core/execution/manager.go:270-274 | a RUNNING execution cancelled during attempt n or before the wait after it ends TIMED_OUT exactly when no wait follows and the attempt was cut off (or reports a timeout itself), FAILED when a wait follows or the provider's plain error won the race, and otherwise as the attempt ended |
| `Attempts.CancelledRunWitnesses` | core/execution/manager.go:415-417 | both reports of a cancelled run occur: TIMED_OUT and FAILED |
| `Runs.RunFollowsProtocol` | core/execution/manager.go:699-943 | the connection of run and protocol: from every reachable state at which the goroutine of an execution starts, the moves of a run, whatever it meets, are enabled actions one after the other; at the end the execution is done in the state of RunResult, one slot and one notifier later |
| `Runs.EveryRunOccurs` | core/execution/manager.go:699-820 | conversely every sequence of moves (any number of backoffs, an end inside one more, any final state, overwritten or not) is that of some run |
| `Runs.RecoveryCanOverwrite` | core/execution/manager.go:700-725 | whatever result a run has written, the same run with a panicking event subscriber ends with the recovery block's FAILED |
| `Engine.NewConfig` | core/execution/manager.go:51-91 | the capacities fixed at construction: at least one slot and a non-empty wake-up buffer |
| `Engine.ScanIsDequeue` | core/execution/manager.go:334-349 | the dispatcher's position-by-position scan, in which other goroutines may change provider counts between two positions, is the scheduler's Dequeue when they do not |
| `Engine.ScanStepFollows` | core/execution/manager.go:334-353 | each step of the scan keeps the answer the scan will give, until the dispatcher holds it or parks without one |
| `Places.PlaceNext` | core/execution/manager.go:97-366 | every step of every goroutine keeps: an execution is at exactly one of submitter, queue (once, in its class), dispatcher, own goroutine, removed, done |
| `Places.RemoveSucceedsIff` | core/execution/manager.go:241 | Remove inside Cancel succeeds exactly when the execution is queued |
| `States.StatesOfPlaces` | core/execution/manager.go:134-139 | in every reachable state PENDING and QUEUED are shown exactly up to the start of the run, RUNNING while an attempt is made, RETRYING in a backoff, and CANCELLED at any of these places but the attempt |
| `States.CancelCommitsIff` | core/execution/manager.go:235-268 | Cancel commits exactly for executions that are not cancelled yet and have not started or are in a backoff, never while an attempt is made |
| `States.WaitBlocksIff` | core/execution/manager.go:288-300 | Wait returns at once exactly for the four terminal states |
| `Slots.SlotAccounting` | core/execution/manager.go:328-366 | in every reachable state the semaphore holds one slot per execution dispatched and not yet released (plus one being dispatched), never more than its capacity; provider counts equal the provider's executions in flight and never exceed a limit; neither semaphore operation blocks; every execution releases at most once, and exactly once when it is done (that every exit of a run releases is RunExecution) |
| `Slots.QueueDepthBound` | core/execution/manager.go:127-141 | with at most n Submit calls at a time the queue never holds more than queueSize + n - 1 executions, although the capacity is checked outside the enqueue |
| `Depth.BoundReached` | core/execution/manager.go:127-141 | for every capacity and every n >= 1 some run with at most n submitters at a time reaches the depth queueSize + n - 1 |
| `Depth.CapacityKeptIff` | core/execution/manager.go:127-141 | the queue keeps to its capacity in all runs with at most n submitters at a time exactly when n <= 1 or the capacity is 0 |
| `Wakeups.NoStrandedWork` | core/execution/manager.go:317-366 | no stranded work: when the dispatcher is parked, no wake-up is buffered and nobody is between a state change and its wake-up, then the semaphore is full or every queued execution of a known class has a provider with a limit and at least that many (for a positive limit exactly that many) of its executions in flight; wake-ups may be dropped |
| `Wakeups.ScanTakesIff` | core/execution/manager.go:334-349 | a scan standing at a queued job takes it exactly when its provider has no limit or fewer executions in flight than its limit, and passes on otherwise |
| `Wakeups.WakeUpLostIff` | core/execution/manager.go:153-156 | the wake-ups in the channel never exceed its buffer, and sending one is lost exactly when the buffer is full |
| `Progress.DriveToHeld` | core/execution/manager.go:317-366 | no deadlock: from every reachable state before shutdown there is a continuation in which the dispatcher takes a given queued execution, if its class is one of the five and its provider's limit is positive |
| `Finality.QueuedCanRunIff` | core/execution/manager.go:328-364 | a queued execution can still be dispatched in some continuation exactly when the dispatcher has not stopped, its class is one of the five and its provider's limit, if any, is positive |
| `Waiting.WakeupsSafe` | core/execution/manager.go:279-315 | in every reachable state no waiter channel has been closed twice, and a closed channel or a terminal state means that the result is set, so Wait returns a non-nil result |
| `Waiting.ReachableFull` | core/execution/manager.go:279-315 | in every reachable state a waiter's channel is where it says: registered once, on one notifier's list, or closed once |
| `Cancellation.NotifyClosesRegistered` | core/execution/manager.go:934-943 | every waiter registered when a notifier takes the list is closed by that notifier exactly once, in every continuation |
| `Cancellation.CancelBeforeDispatchIsFinal` | core/execution/manager.go:240-268 | if Remove succeeds inside Cancel the execution is never dispatched and stays CANCELLED with a result in every continuation |
| `Finality.TerminalFinalIff` | core/execution/manager.go:240-277 | in every reachable state and for every execution in a terminal state: the state stays in all continuations exactly when no goroutine can write it again, decided by where the execution is |
| `Finality.CancelFinalIff` | core/execution/manager.go:223-277 | what Cancel writes stays in all continuations exactly when Remove succeeded, or the run was past its last write, or the execution was about to be queued without a chance to run |
| `Cancellation.CancelUndoneWitness` | core/execution/manager.go:134-139 | a Cancel that meets a submitter before its QUEUED write is undone by that write |
| `Waking.WaiterWakesIff` | core/execution/manager.go:279-315 | in every reachable state, a waiter's channel that is not closed is closed in some continuation exactly when a notifier has taken it or is summoned for its execution, or the execution can still be cancelled, is with its submitter before QUEUED, held or running, or queued with a chance to run; all other waiters wait forever |
| `Waking.LateWaiterWitness` | core/execution/manager.go:288-300 | a Wait that checks the state before the last notify and registers after it is reachable and never woken |
| `Waking.RunningForeverWitness` | core/execution/manager.go:611-618 | a provider result with an error and the state RUNNING leaves a finished execution on which a later Wait is never woken |
| `Topics.MatchTopic` | core/events/bus.go:178-204 | the loop over segments decides the recursive match of pattern and topic |
| `Topics.SegmentsMatchIff` | core/events/bus.go:185-203 | closed form: equal length and agreement segment by segment, or a double star after a prefix that agrees |
| `Topics.MatchesIff` | core/events/bus.go:178-204 | a pattern matches exactly if it is a single star, or has the topic's segments with stars for any one, or such segments before a double star |
| `Topics.SplitJoin` | core/events/bus.go:170-186 | splitting at dots loses nothing and leaves no dot inside a segment |
| `EventBus.Bus.RegisterNamespace` | core/events/bus.go:158-168 | a prefix, with or without its final dot, can be taken once |
| `EventBus.Bus.Subscribe` | core/events/bus.go:269-287 | adds one subscription with an empty queue, the current capacity and policy; the history so far stays explained |
| `EventBus.Bus.GetMatching` | core/events/bus.go:226-242 | exactly the subscriptions that want the event, each once, whatever order the pattern map is visited in |
| `EventBus.Bus.KnownTopicIff` | core/events/bus.go:206-224 | a topic is known exactly when its first segment is a registered namespace and, in strict mode under the four reserved ones, the topic is canonical |
| `EventBus.Bus.Publish` | core/events/bus.go:24-263 | an event without topic is published under its type, one without type gets its topic as type; succeeds exactly if the topic is known, and then offers the event exactly once to every subscription whose pattern matches and whose predicate accepts it; every dead letter it causes is offered likewise, and nothing else; terminates although it dead-letters through itself; every quiet queue ends as its overflow policy says |
| `EventBus.Bus.Enqueue` | core/events/bus.go:336-355 | at a subscription that does not match dead letters a new event joins the queue while there is room; a full one drops its oldest for it under DropOldest and stays as it is under DropNewest; the event is offered once; a dead letter never increases the number of ordinary events held |
| `EventBus.QueueNextMeaning` | core/events/bus.go:336-355 | the same for the specification of the queue after an event, which Publish refers to |
| `EventBus.Bus.DeadLetter` | core/events/bus.go:357-375 | every dropped ordinary event becomes one more published letter with its subscriber and reason; a dropped dead letter becomes none |
| `EventBus.Bus.HandleWithRecovery` | core/events/bus.go:317-334 | handled exactly when the first, or after errors the second or third try returns nil; otherwise one letter with the reason panic or error; the handled event leaves the consumer |
| `EventBus.OrdinaryOffers` | core/events/bus.go:257-260 | for ordinary events a Publish offers the event once to each subscription that wants it and nothing else to anybody |
| `EventBus.BusConservation` | core/events/bus.go:309-375 | between calls each ordinary event offered to a subscription is, with multiplicity, exactly one of handled, being handled, queued, dead-lettered; queues never exceed their capacity |
| `BusLog.OffersAccounted` | core/events/bus.go:309-355 | over every legal history of channel operations: offered equals handled plus dropped plus queued plus in the handler |
| `BusLog.QueueWithinCapacity` | core/events/bus.go:336-355 | no queue ever exceeds its capacity |
| `BusLog.QueuesAreFifo` | core/events/bus.go:309-315 | what was accepted is what left at the head followed by what is queued |
| `BusLog.ReceivedInAcceptanceOrder` | core/events/bus.go:309-315 | the events a consumer receives are a subsequence of the events accepted, in that order |
| `BusLog.DropsCallForLetters` | core/events/bus.go:343-353 | the letters called for concern exactly the drops of ordinary events, one each |
| `Contexts.MeasureMetadata` | core/context/context.go:285-290 | the loop sums key and value bytes, in any order of the map |
| `Contexts.SizeWith` | core/context/context.go:285-297 | a new entry adds its key and value bytes, an entry under an existing key replaces the value's |
| `Contexts.WithMetadata` | core/context/context.go:283-321 | accepts an entry exactly when the metadata with it (replacing an entry of the same key) stays within 4096 bytes; a refused entry leaves the context as it is |
| `Contexts.RootCapped` | core/context/context.go:143-341 | nothing derived from a root by any sequence of derivations carries more than 4096 bytes of metadata, and no user layer carries a credential claim |
| `Contexts.ClaimsFiltered` | core/context/context.go:157-172 | a user layer carries all given claims but token, password, secret and jwt |
| `Contexts.UserShown` | core/context/context.go:399-442 | the user shown is the user layer's, else the session's, else the plain value |
| `Contexts.BudgetShared` | core/context/context.go:201-206 | every sequence of derivations that attaches no new budget keeps the same cost cell |
| `Contexts.DeadlineOnlyShrinks` | core/context/context.go:178-236 | the enforced deadline never moves later |
| `Contexts.DeadlineInForce` | core/context/context.go:174-236 | the deadline in force after each derivation: the earlier of the old one and the one a timeout asks for |
| `Contexts.RecordedDeadline` | core/context/context.go:174-247 | a child records the deadline in force; an execution records the one it asked for, which is in force exactly when no earlier one is |
| `Contexts.TraceSurvives` | core/context/context.go:186-247 | the trace of a context with a request layer survives every sequence of derivations |
| `Contexts.TraceLostIff` | core/context/context.go:303-341 | a trace is lost by one derivation exactly when there is no request layer and an entry or a budget puts an empty one in front |
| `Contexts.ParentRecorded` | core/context/context.go:191-255 | a new execution or child records its predecessor as parent, starts at attempt 1 and inherits the metadata |
| `Contexts.Inherited` | core/context/context.go:174-281 | an execution keeps the trace or invents one from its ID, and keeps the budget; a child inherits trace, priority and budget; an attempt changes its number only |
| `Wire.PriorityRoundTrips` | core/context/serialization.go:26-58 | priority to integer and back is the identity exactly on the five classes, and back again exactly on 0..4 |
| `Wire.CodesOrdered` | core/context/serialization.go:26-58 | the codes are 4 down to 0 in serving order; unknown classes are encoded as Normal and unknown codes decode to it |
| `Wire.ToProtoShows` | core/context/serialization.go:60-93 | the message holds what the accessors show, with the priority's code |
| `Wire.FromProto` | core/context/serialization.go:107-143 | for every message and every order of its metadata: the accessors show the message's session, user, execution, parent and trace (an invented one if missing) and the class of its code; a maximal part of the metadata within 4096 bytes is kept; and ToProto of the result is the message exactly when it is faithful |
| `Wire.DerivedRoundTrip` | core/context/serialization.go:60-93 | for contexts built without Merge: the wire form is faithful exactly when the context names execution and trace, or no execution, trace, parent or special priority at all |
| `Wire.ExecutionsRoundTrip` | core/context/serialization.go:60-143 | everything derived from a context with execution and trace IDs, under non-empty IDs, survives the wire |
| `Wire.NormalisedOnce` | core/context/serialization.go:107-143 | whatever one trip makes of a message of any size is faithful, so a second trip changes nothing more |
| `Merge.ApplyOverlayFields` | core/context/context.go:724-746 | every field that the overlay sets wins, every other stays |
| `Merge.MergeMetadata` | core/context/context.go:748-768 | one result for every order of the keys: the union with the strategy's winner, or the conflict exactly when the keys intersect under ErrorOnConflict |
| `Merge.MergeRequest` | core/context/context.go:671-722 | the merged request layer, or the first conflict |
| `Merge.OverlayPrevails` | core/context/context.go:716-767 | under OverlayWins each of the seven fields and each metadata value is the overlay's where the overlay sets it, and the base's where it does not |
| `Merge.BasePrevails` | core/context/context.go:685-767 | under the other two strategies, when they succeed, all fields and shared metadata values are the base's |
| `Merge.OverlayShows` | core/context/context.go:548-722 | merged contexts show the overlay's trace, execution, parent, priority, budget, attempt and user where it sets them, else the base's; the session is the base's if it has one |
| `Merge.BaseShows` | core/context/context.go:638-708 | under BaseWins the base's layers stay and missing ones are taken over; under ErrorOnConflict two users conflict |
| `Merge.JoinMonoid` | core/context/context.go:671-746 | under OverlayWins request layers form an idempotent monoid with the absent layer as identity, on all fields and metadata |
| `Merge.BaseWinsSwaps` | core/context/context.go:748-768 | BaseWins metadata is OverlayWins with the arguments swapped, and every other field is the base's |
| `Merge.NoConflictIff` | core/context/context.go:710-768 | ErrorOnConflict succeeds exactly when the overlay names no other execution and the metadata keys are disjoint; then all strategies agree on the metadata |
| `Merge.MergeAssociativeIff` | core/context/context.go:548-574 | for all contexts, the two groupings under OverlayWins agree in everything the accessors show, errors included, exactly when the runtime guard cannot tell them apart: if the first two contexts pass it, the third passes it against the one exactly when against the other |
| `Merge.RuntimesEverywhere` | core/context/context.go:548-574 | in particular they agree for contexts that each have a runtime layer |
| `Merge.LeftMissingWitness` | core/context/context.go:549-553 | without a runtime layer on the left only the right grouping is rejected |
| `Merge.MiddleMissingWitness` | core/context/context.go:549-553 | without one in the middle only the left grouping is rejected |
| `Merge.MergeWithinCapIff` | core/context/context.go:671-768 | per strategy, a successful merge of two contexts stays within 4096 metadata bytes exactly when the winner's metadata and the loser's other entries (under ErrorOnConflict both metadata) together do |
| `Merge.MergeExceedsCap` | core/context/context.go:748-768 | two contexts at the cap can merge to 8192 bytes, under every strategy |
| `CostCell.NoLostUpdates` | core/context/context.go:60-73 | over every interleaving of loads and swaps by any number of threads a counter holds its initial value plus the amount of every completed call |
| `CostCell.CallsAddOnce` | core/context/context.go:60-73 | each call adds its amount exactly once: called equals added plus under way, per thread and counter |
| `CostCell.FailedSwapMeansProgress` | core/context/context.go:64-72 | between a load and its failed swap another thread's swap on the same counter succeeded |
| `CostCell.RetriesBounded` | core/context/context.go:64-72 | a thread never retries more often than the others succeed |
| `CostCell.DerivedSeeAllSpending` | core/context/context.go:53-58 | every context derived from a budgeted one reports the same amount: what was spent before and everything added since through any of them |
| `Pipeline.Pipeline.Register` | core/middleware/pipeline.go:50-53 | appends a stage |
| `Pipeline.Pipeline.Validate` | core/middleware/pipeline.go:56-72 | succeeds exactly when every dependency is provided by a strictly earlier stage and no capability twice; a refusal names the first stage at fault |
| `Pipeline.Pipeline.Wrap` | core/middleware/pipeline.go:75-86 | the backward loop is the right fold of the stages over the core handler |
| `Pipeline.ChainReaches` | core/middleware/pipeline.go:75-86 | the wrapped handler calls the core at most once, exactly when each stage in list order admits the request with the context derived so far, and returns the core's reply |
| `Pipeline.PipelineSound` | core/middleware/auth.go:28-113 | in every validated list of the repository's stages with Authorization: the core is reached exactly when the verifier accepted the token for a non-empty user, who is an admin if the request is Critical, and every other gate admits the request, each seeing the authenticated user |
| `Pipeline.EntitledIff` | core/middleware/auth.go:28-110 | the token is the entry auth-token or else Authorization; entitled means: verified, a non-empty user, and role admin if the request is Critical |
| `Pipeline.GatesAlone` | core/middleware/ratelimit.go:38-81 | what rate limiting, the cost guard, the cache and the observers each let through, and their refusals |
| `Pipeline.WrappedSound` | core/middleware/auth.go:82-113 | if the wrapped handler reaches the core the request is entitled, and the core runs once with the verified user in its context |
| `Pipeline.UnvalidatedWitness` | core/middleware/auth.go:78-113 | a list that Validate refuses can reach the core without a token |
| `RateLimit.RateLimiter.Handle` | core/middleware/ratelimit.go:38-81 | admits exactly when the refilled bucket of the user holds a token, which is then paid; other buckets are untouched; tokens stay in [0, capacity] |
| `RateLimit.WindowBound` | core/middleware/ratelimit.go:38-81 | over every history of all users, in any window of consecutive calls lasting span seconds a user is admitted at most capacity + rate * span times |
| `RateLimit.UsersIsolated` | core/middleware/ratelimit.go:45-53 | the decisions on a user's calls are those of a history in which nobody else called |
| `RateLimit.SpacedNeverRefused` | core/middleware/ratelimit.go:55-77 | calls at least 1/rate apart are never refused if the capacity is at least one token, and always refused if it is less |
| `Lifecycle.LifecycleManager.Transition` | core/lifecycle/manager.go:119-165 | follows the table; a refused request changes nothing; booting clears the components |
| `Lifecycle.LifecycleManager.ReportComponentHealth` | core/lifecycle/manager.go:223-257 | records the report and moves the runtime as fatal failure, failure or last recovery demand; ignored while draining or stopped |
| `Lifecycle.LifecycleManager.CheckRestartCooldown` | core/lifecycle/manager.go:168-183 | accepts exactly when no restart was accepted less than the cooldown ago, and then records it |
| `Lifecycle.RequestsExact` | core/lifecycle/manager.go:119-165 | a request moves the runtime exactly along the table; only booting changes the components, which it clears |
| `Lifecycle.ReportsExact` | core/lifecycle/manager.go:185-257 | what a report does in each phase: recorded; fatal failures fail, others degrade, the last recovery restores, and all other cases leave the phase |
| `Lifecycle.EdgesExact` | core/lifecycle/manager.go:128-198 | both writers together can move the runtime exactly along the table and from READY to DEGRADED |
| `Lifecycle.NoWayBack` | core/lifecycle/manager.go:128-146 | over every history: UNINITIALIZED is never entered again, DRAINING only leads to STOPPED, STOPPED is left never, and neither takes reports |
| `Lifecycle.FailedOnlyReboots` | core/lifecycle/manager.go:142-163 | a failed runtime stays failed until it is BOOTING with no component recorded |
| `Lifecycle.ServingNeedsReady` | core/lifecycle/manager.go:128-198 | a runtime that has not served yet, or has failed, goes from BOOTING to READY before it runs or degrades |
| `Lifecycle.DegradedExplainedIff` | core/lifecycle/manager.go:185-220 | over every history DEGRADED means a recorded unhealthy component exactly when no degradation without one was requested; reports alone never break it |
| `Lifecycle.AcceptedApart` | core/lifecycle/manager.go:168-183 | accepted restarts are a cooldown apart even if the clock goes back |
| `Lifecycle.RestartsInWindow` | core/lifecycle/manager.go:168-183 | any window holds at most length/cooldown + 1 accepted restarts |
| `Lifecycle.ApartAccepted` | core/lifecycle/manager.go:168-183 | restarts that are a cooldown apart are all accepted |

## Left out

- Configuration loading, bootstrap wiring, telemetry, logging, spans, metrics and the process exit after a recovered panic have no effect on the modelled state.
- Execution IDs are fresh: resubmitting an ID in use is not modelled, since it replaces the entry of a running execution.
- A panic in the deferred end of a tracing span, which would follow the release of a run, is left out; notifyWaiters cannot panic, since no channel is closed twice.
- The protocol lets the recovery block write FAILED again and again where a run does it once; this changes no state.
- Cancel on a RUNNING execution has no action of its own, since it only ends a context; what follows is `Attempts.CancelledRunState`. Stream chunk delivery is left out.
- The execution lock: Cancel's check, Remove, state write and the start of its notification are one action, since Cancel holds the lock throughout; the events it publishes in between are left out.
- Shutdown is the dispatcher leaving its loop; submitters may go on afterwards, as in the code. The readiness check of Submit and its move from READY to RUNNING are left out.
- A nil filter of Dequeue and a nil predicate of a subscription are the ones that accept everything.
- A RetryableCheck and a backoff that is cut short are parameters; wall-clock timeouts are not derived from the configured durations.
- Unsubscribe, event IDs, timestamps and trace IDs, and error texts of letters are left out. A queue of capacity 0 is modelled without the direct hand-off to a waiting consumer that an unbuffered Go channel allows.
- The consumers of the bus: each channel operation is atomic and one Publish runs at a time in `EventBus.dfy`; interleavings of the channel operations themselves are covered by the histories of `BusLog.dfy`.
- Wire.FromProto: the deadline field is left out, because it is converted through the current time; its remainder is a parameter.
- Merge.MergeAssociativeIff: the variables of session stores, which Merge updates in place in a global store, are left out; session layers themselves are included.
- CostBudget.TryReserve checks without reserving, so no bound on the amount spent follows, and none is claimed.
- The response cache is a stage that may answer by itself; its keys and its sharing of results are left out.
- Pipeline.PipelineSound: is about lists of the repository's own stages; any other stage may change the user in the context. Validate and Wrap are modelled for arbitrary stages.
- RateLimit.WindowBound: assumes a clock that does not go back, which Go's monotonic readings guarantee.
- Lifecycle reasons, report times and the HealthStatus snapshot are left out.
- Floating-point rounding is left out.
