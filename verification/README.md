# WorkIt: verified models of the concurrency core

WorkIt is an in-process structured-concurrency runtime for TypeScript. This project models
the parts of `packages/core` where timing, ordering and shared state decide correctness,
and proves what they promise. `dafny verify dfyconfig.toml` checks everything.

Asynchronous code is modelled as steps: one step per synchronous stretch between awaits,
with the environment free to choose which promise, timer or call comes next. Objects and
closures that the source updates in place are classes whose methods are proved against a
specification function; statements about all runs are lemmas about that function.

## Map

- `RetryPolicies`, `TimePolicy`: duration bounds, backoff, and the recursive planner.
- `PolicyRuns`: what the `run` helpers do with a policy tree, over a script of everything
  the environment decides (leaf times, outcomes, backoff results, jitter, races, aborts).
- `PlanSoundness`, `PlanOverrun`, `PlanExact`, `PlanTight`: the planner judged against those runs,
  from above and from below; `PlanAccepted`: which policies have a plan.
- `RetryDemand`, `RetryAdmission`: aggregate retry demand and the budget verdict.
- `ScopeTree`, `ScopeDrain`, `ScopeClosing`, `CancellationTree`, `ScopeSteps`: the ownership
  tree, draining before closing, closed scopes, cancellation through combined abort signals,
  and exactly which event changes what.
- `Contexts`, `Budgets`, `BudgetRuns`: overlay contexts and shared budget cells.
- `CircuitBreaker`, `BreakerAdmission`, `Hedge`, `HedgeOutcomes`: small shared state with many
  calls in flight.
- `Channel`, `ChannelRuns`, `ChannelAnswers`: the bounded channel.
- `Exporter`, `ExporterCircuits`: the telemetry exporter queue and its circuit.
- `WorkerPool`, `PoolFailures`: `run.pool`, whose workers claim, await and write slots in any
  order, and what stops it.
- `Bisection`, `BisectionRuns`, `BisectionCalls`: batch embedding that splits rejected batches,
  its output from the pool, and its calls one by one.
- `Candidates`, `CandidateSelection`, `CandidateFates`: candidate search with classified
  failures and evidence.
- `Activity`, `ActivityOutcomes`: claim, run once, replay.

## What the proofs found

- The planner's `upperBoundMs` is not a bound for every accepted policy, although the
  package README (`packages/core/README.md`, line 545) calls it conservative. A timeout or
  deadline rejects at its limit, but a scope opened below it (by series or parallel) lives
  on, and an enclosing group closes only after that scope. The model follows the code:
  `PlanOverrun` gives the inputs, `PlanSoundness.RunInTime` the condition under which the
  bound holds for all seven kinds of policy, and `PlanExact.PlannedBoundHoldsIff` the exact
  condition for every tree without retry and hedge. The bounds on
  attempts, leaf time and budget charges hold of every accepted policy.
- `criticalPathMs` always equals `upperBoundMs`.
- Timeouts and refused budget charges carry the cancellation brand, so `run.retry` does not
  retry them.
- The scope constructor does not look at its parent's state: a scope can be opened under a
  closed one and stay open. `ScopeClosing.ClosedStayDrainedIff` says exactly which steps break
  the tree's promise.
- A call whose activity id was evicted and claimed again can finish the later claim's
  record; the at-most-once results are therefore stated per claim, until eviction.
- A retry-budget verdict can be wrong only when the demand exceeds 2^53-1
  (`RetryAdmission.VerdictExactIff`), and then is wrong for some trees (`CapHidesDemand`).

## Model

| member | source | states |
|---|---|---|
| RetryPolicies.EstimateBoundsRuntime | packages/core/src/time-policy/index.ts:461-484 | whatever the backoff function returns and jitter draws, the runtime sleeps at most the delay the planner booked, exactly that delay without jitter or a function, and an accepted policy can only fail on a bad backoff result |
| RetryPolicies.DelaysGrow | packages/core/src/time-policy/index.ts:461-484 | each planned delay from the one before: the first is the initial delay, then it stays, grows by it or doubles, never beyond the maximum; a function is planned as the maximum |
| RetryPolicies.JitterExactly | packages/core/src/engine/retry.ts:42-57 | without jitter the runtime sleeps the planned delay (or the function's answer, clamped); with it, a half plus the drawn share of the other half |
| TimePolicy.SumRetryDelays | packages/core/src/time-policy/index.ts:160-171 | the loop over attempts sums the planned delays, with the first invalid delay as the error |
| TimePolicy.CriticalPathIsUpperBound | packages/core/src/time-policy/index.ts:209-268 | in every plan, at every depth, the critical path equals the upper bound and no bound is negative |
| PlanAccepted.AcceptedIff | packages/core/src/time-policy/index.ts:209-229 | a policy is accepted if and only if every number in it is valid and it is at most 64 levels deep |
| PlanTight.PlanIsMet | packages/core/src/time-policy/index.ts:160-268 | for every accepted tree of all seven kinds without empty compositions or truncating limits: some run, successful or failing as asked, makes exactly `attempts` leaf invocations, works exactly `parallelWorkMs`, charges each key exactly its demand, and settles exactly at `upperBoundMs` without jitter, or as close to it as the draw lets it |
| PlanTight.SilentIff | packages/core/src/time-policy/index.ts:160-484 | a plan carries no warning if and only if the tree has no empty composition, no truncating limit, no jitter and no backoff function that is used |
| PlanTight.SilentPlanIsExact | packages/core/src/time-policy/index.ts:160-268 | so a plan without warnings is exact to the millisecond: a run settles at its bound |
| PlanTight.ValidIff | packages/core/src/time-policy/index.ts:417-439 | a plan is valid if and only if every deadline anywhere in the tree leaves what the part below it is planned to take |
| PlanSoundness.RunCosts | packages/core/src/time-policy/index.ts:209-268 | every run of every accepted policy, zombies of timeouts and hedges included, makes at most `attempts` leaf invocations, spends at most `parallelWorkMs` leaf time, and charges each key at most its structural demand |
| PlanSoundness.RunInTime | packages/core/src/time-policy/index.ts:389-439 | every run of an accepted policy in which no truncating limit below a group hides a scope settles within `upperBoundMs`; if no truncating limit hides one anywhere, the scopes it opened have closed by then too |
| PlanOverrun.HiddenScopeOverruns | packages/core/src/time-policy/index.ts:389-415 | a concrete accepted, valid plan with bound `limit` whose run settles at d > limit: a group waits for the scope a timeout left behind |
| PlanOverrun.SuccessfulRunOverruns | packages/core/src/time-policy/index.ts:191-207 | the overrun also happens in a run that succeeds, through the attempt a hedge left behind |
| PlanExact.PlannedBoundHoldsIff | packages/core/src/time-policy/index.ts:389-439 | for every accepted tree without retry and hedge (attempts, series and parallel, empty or not, timeouts, deadlines) and every start: every run settles within the planned bound if and only if no run exists or the latest settlement, scopes counted, a number computed from the tree and the start, does |
| PlanExact.SuccessKeepsBound | packages/core/src/time-policy/index.ts:242-268 | for the same trees every run that succeeds settles within the planned bound, hidden scopes or not |
| PlanExact.SuccessMeetsBound | packages/core/src/time-policy/index.ts:389-439 | and some success of such a tree settles exactly at the bound, truncating limits or not, as long as its deadlines still leave the time they were planned with |
| PlanExact.ValidIffSuccessesInTime | packages/core/src/time-policy/index.ts:417-439 | a deadline around such a tree is called feasible if and only if every success started when the plan was made comes by the deadline |
| PlanExact.RunWithinWorst | packages/core/src/run/index.ts:173-238 | no run settles, and no scope it opened closes, later than the computed worst; a run succeeds only at the computed success times, with every scope closed |
| PlanExact.WorstRun | packages/core/src/run/index.ts:173-238 | whenever a run exists, one settles, and has its scopes close, exactly at the computed worst |
| PlanExact.LaterStart | packages/core/src/run/index.ts:173-238 | starting later delays a success only as far as the start itself, so the success times are an interval that moves with the start |
| RetryDemand.CollectRetryBudgetDemand | packages/core/src/time-policy/index.ts:333-370 | the multiplier-passing walk with capped products and sums adds to each key min(2^53-1, multiplier * structural demand), capped once, and lists the keys in the order first met |
| RetryDemand.KeysInOrder | packages/core/src/time-policy/index.ts:333-362 | the plan lists each key once, where the tree first names it |
| RetryDemand.DemandMap.Add | packages/core/src/time-policy/index.ts:364-366 | one key grows, capped; a new key joins the end of the order |
| RetryDemand.CapOnce | packages/core/src/time-policy/index.ts:364-370 | capping every intermediate product and sum comes to capping the exact total once |
| RetryAdmission.PlanTimePolicy | packages/core/src/time-policy/index.ts:285-331 | the plan fails exactly as the static plan or the snapshots do; otherwise one entry per key in walk order, required = capped demand, status by the snapshot with that key, valid exactly when the base is valid and every entry admissible |
| RetryAdmission.ReadSnapshots | packages/core/src/time-policy/index.ts:372-387 | duplicate or invalid snapshots are refused; otherwise each key maps to its one snapshot |
| RetryAdmission.DemandIsPlanned | packages/core/src/time-policy/index.ts:333-362 | no key that a run could charge is missing from the plan |
| RetryAdmission.AdmissibleNeverStopped | packages/core/src/time-policy/index.ts:301-322 | a run with sole use of a budget whose key is admissible and unsaturated is never refused a charge |
| RetryAdmission.FullRun | packages/core/src/time-policy/index.ts:333-362 | for attempts, default retries and non-empty series some run charges every key exactly its demand, so the demand is tight |
| RetryAdmission.StoppedIffDemandExceeds | packages/core/src/run/index.ts:240-280 | for those trees the budget stops some run if and only if the demand exceeds what remains |
| RetryAdmission.VerdictExactIff | packages/core/src/time-policy/index.ts:301-322 | the verdict is right if and only if the cap hid no demand, or too little budget remains even for the cap, or enough remains for the whole demand |
| RetryAdmission.CapHidesDemand | packages/core/src/time-policy/index.ts:368-370 | the failing case exists: six nested retries of 1000 attempts are accepted and want 10^18 - 1 charges; with 2^53 - 1 remaining the key is admissible and some run is stopped |
| ScopeTree.ScopeImpl.constructor | packages/core/src/engine/scope.ts:131-147 | the new signal is aborted exactly as the parent is, and otherwise follows every controller up to the root; the parent records the child |
| ScopeTree.ScopeImpl.Spawn | packages/core/src/engine/scope.ts:157-202 | a task is recorded if and only if the scope is running; otherwise nothing changes |
| ScopeTree.ScopeImpl.CancelWith | packages/core/src/engine/scope.ts:295-305 | only a running scope is cancelled: it marks itself, runs its handlers once more, and every signal that follows it and is not yet aborted takes the reason |
| ScopeTree.ScopeImpl.OnBodySettled | packages/core/src/engine/scope.ts:210-242 | the status follows the outcome; exactly the first failure of a foreground task is noted and cancels the scope |
| ScopeTree.ScopeImpl.OnAwaited | packages/core/src/engine/scope.ts:360-366 | after an await exactly the records with settled bodies go, and the loop head is evaluated again |
| ScopeTree.ScopeImpl.FinishClose | packages/core/src/engine/scope.ts:380-390 | the scope leaves its parent and is closed |
| ScopeDrain.DrainExitIsSafe | packages/core/src/engine/scope.ts:350-366 | over every interleaving of opens, spawns, settlements and cancels: when a scope leaves its drain loop no task ever spawned on it has a running body and every scope ever opened under it is closed |
| ScopeDrain.RoundEndsDrain | packages/core/src/engine/scope.ts:352-366 | a round whose awaited tasks and scopes have all settled, with nothing added meanwhile, leaves the loop |
| ScopeDrain.CloseAwaitsAll | packages/core/src/engine/scope.ts:350-358 | over every run, `close` begins by awaiting every task ever spawned on the scope and every scope still open under it |
| ScopeDrain.RoundAwaitsRest | packages/core/src/engine/scope.ts:352-366 | a round ends if and only if all it awaited has settled, and goes on with exactly the bodies still running and the scopes still open; with neither the loop is left |
| ScopeClosing.UndrainedOnlyByLate | packages/core/src/engine/scope.ts:350-391 | in every reachable tree a scope that has left its drain loop has something running on it or open under it if and only if a task spawned on it, or a scope opened under it, after it left is still running or open |
| ScopeClosing.StepKeepsDrained | packages/core/src/engine/scope.ts:380-382 | that every closed scope is drained survives a step if and only if the step neither opens a scope under a closed one nor closes a scope while something that came late is left behind |
| ScopeClosing.ClosedStayDrainedIff | packages/core/src/engine/scope.ts:350-391 | a whole run keeps every closed scope drained at every moment if and only if none of its steps is one of those two |
| ScopeClosing.NothingOpenBelowClosed | packages/core/src/engine/scope.ts:350-391 | with no spawn on and no open under a scope during its own defers or later, every scope anywhere below a closed scope is closed and has no running body |
| ScopeClosing.LateChildStaysOpen | packages/core/src/engine/scope.ts:131-143 | the restriction is needed: a scope opened under a closed one is accepted and stays running |
| CancellationTree.SignalIsFirstCancel | packages/core/src/engine/scope.ts:138-140 | in every reachable tree a scope's signal is aborted if and only if it or an ancestor was cancelled, and its reason is that of the earliest such cancellation |
| CancellationTree.FirstCancelIsEarliest | packages/core/src/engine/scope.ts:295-300 | the reading of the cancellation log: an entry about the scope or one above it, with none earlier |
| CancellationTree.HandlersRunOnce | packages/core/src/engine/scope.ts:295-305 | cancel handlers run at most once per scope, exactly as often as its cancellation was accepted |
| CancellationTree.OnlyForward | packages/core/src/engine/scope.ts:119-119 | along every run a scope's state only moves forward, and a reason once set never changes |
| CancellationTree.FailureAbortsSubtree | packages/core/src/engine/scope.ts:227-231 | the first foreground failure leaves every signal below the scope aborted, with that failure unless it was aborted before |
| ScopeSteps.FailureIsFirstError | packages/core/src/engine/scope.ts:227-231 | in every run the failure noted on a scope is the first error of its foreground tasks, read off the events |
| ScopeSteps.RunningIff | packages/core/src/engine/scope.ts:295-300 | a scope is running if and only if no cancellation of it was accepted and no step closed it |
| ScopeSteps.SettlementExactly | packages/core/src/engine/scope.ts:210-242 | in every reachable tree a settled body cancels its scope if and only if it fails, is in the foreground, no foreground task of the scope failed before, and the scope still runs; a body that resolves, is cancelled or is in the background changes its own status and nothing else |
| ScopeSteps.CancelCallExactly | packages/core/src/engine/scope.ts:295-305 | a cancel call is accepted if and only if the scope exists and still runs, and otherwise changes nothing |
| ScopeSteps.SpawnExactly | packages/core/src/engine/scope.ts:157-202 | a task is recorded if and only if its scope exists and still runs, and otherwise nothing changes |
| ScopeSteps.OthersCancelNothing | packages/core/src/engine/scope.ts:131-147 | no event but a settled body or a cancel call cancels anything or aborts a signal |
| Contexts.FindValue | packages/core/src/engine/context.ts:99-104 | the loop up the chain finds what the nearest bag holding the key says |
| Contexts.WithShadows | packages/core/src/engine/context.ts:61-65 | an overlay shadows one key and no other |
| Contexts.EntriesSnapshot | packages/core/src/engine/context.ts:73-84 | the flattened snapshot has every key once, and agrees with `find` for every key |
| Budgets.FindBudgetOwner | packages/core/src/engine/scope.ts:644-663 | the loop ends at the topmost scope of the unbroken parent chain seeing the same cell |
| Budgets.ConsumeBudget | packages/core/src/engine/scope.ts:593-619 | a charge is refused as negative, unset or exceeding, in that order; only an accepted one moves the cell, and only an exceeding one cancels the owner, aborting what follows it |
| BudgetRuns.Conservation | packages/core/src/engine/scope.ts:603-618 | over any run of installs, overlays, opens and charges each cell's spent is its installed value plus the charges that returned normally, and never exceeds its limit |
| BudgetRuns.AcceptedExactly | packages/core/src/engine/scope.ts:598-619 | over any run a charge is accepted if and only if it is not negative, a cell is visible, and what the cell was installed with, all charges accepted since, and this one fit the limit; it then moves that cell and no other, shadowed or not |
| BudgetRuns.VerdictExactly | packages/core/src/engine/scope.ts:598-619 | what the charging task is told, by the log: a negative amount first, a missing cell next, and otherwise the limit and what the total would have come to |
| BudgetRuns.RefusedExactly | packages/core/src/engine/scope.ts:604-617 | a charge without room changes no cell and cancels exactly one scope, the end of the unbroken chain; any other refused charge changes nothing |
| BudgetRuns.OwnerIsTopmost | packages/core/src/engine/scope.ts:644-663 | the owner is the one scope such that every scope up to it sees the same cell and its parent does not (if and only if) |
| BudgetRuns.RefusedStaysRefused | packages/core/src/engine/scope.ts:603-617 | a charge once refused for lack of room is refused at every later moment of every run |
| CircuitBreaker.Breaker.BeginCall | packages/core/src/run/index.ts:402-421 | admission against the shared variables, with the half-open epoch the call carries |
| CircuitBreaker.Breaker.EndCall | packages/core/src/run/index.ts:422-441 | what a settlement makes of the circuit, by the epoch the call was admitted in |
| CircuitBreaker.ProbesBounded | packages/core/src/run/index.ts:402-421 | for every interleaving each half-open epoch starts at most `halfOpenMaxCalls` bodies |
| CircuitBreaker.HistoryIsLawful | packages/core/src/run/index.ts:394-441 | over every interleaving, each body that starts first after the circuit was opened starts at least `resetAfterMs` after the failure that last opened it; the circuit closes if and only if a probe of the current epoch succeeds while half-open |
| CircuitBreaker.FailedEpochNeverCloses | packages/core/src/run/index.ts:422-441 | after a current-epoch probe fails, no settlement of that or an earlier epoch, or of a call admitted while closed, ever closes the circuit |
| CircuitBreaker.CounterIsFailuresSince | packages/core/src/run/index.ts:394-441 | while closed, `failures` is the number of failures of closed-admitted calls since the circuit last closed or one of them succeeded, and stays below the threshold |
| BreakerAdmission.AdmissionExactly | packages/core/src/run/index.ts:402-421 | over every interleaving each call gets exactly the verdict its history asks for: refused as open if and only if the circuit has been open since some `at` and it comes before `at + resetAfterMs`; from then on the first call starts a new epoch; while half-open a call starts if and only if the epoch has started fewer than `halfOpenMaxCalls`; a closed circuit refuses nothing |
| BreakerAdmission.RunAgrees | packages/core/src/run/index.ts:394-441 | the shared variables always say what a plain reading of the history of starts and settlements says |
| BreakerAdmission.OpenCircuitRecovers | packages/core/src/run/index.ts:409-421 | with room for probes, the first call at or after `at + resetAfterMs` starts a body, in an epoch in which none has started |
| Hedge.Hedged.SetUpLoop | packages/core/src/run/index.ts:345-354 | the set-up leaves the state of max set-up steps, with a parent abort after any of its attempts |
| Hedge.Hedged.OnReject | packages/core/src/run/index.ts:333-343 | a rejection counts, and the one that completes max settles with the aggregate |
| Hedge.HedgeProtocol | packages/core/src/run/index.ts:282-356 | for every interleaving: one settlement at most; while unsettled after set-up, started attempts + live timers = max; the aggregate rejection comes after exactly max failures; a win or parent abort leaves every started attempt aborted |
| Hedge.AbortedAtStart | packages/core/src/run/index.ts:309-312 | a hedge whose parent is already aborted rejects once with the parent reason, and in every continuation starts nothing and sets no timer |
| Hedge.SettledIsFinal | packages/core/src/run/index.ts:302-312 | once settled no event starts an attempt or settles again |
| Hedge.UnsettledCanProceed | packages/core/src/run/index.ts:325-354 | an unsettled hedge always has a live timer or a running body |
| HedgeOutcomes.FirstEventDecides | packages/core/src/run/index.ts:302-343 | over every interleaving the hedge has settled if and only if some event could settle it, with what the first such event brought: the value of the body that resolved, the parent's reason, or every error in the order of rejection |
| HedgeOutcomes.SetUpExactly | packages/core/src/run/index.ts:345-354 | an undisturbed set-up starts all attempts in order when they are not staggered, and otherwise the first, with a timer for each other |
| HedgeOutcomes.EveryAttemptOnce | packages/core/src/run/index.ts:325-354 | over every interleaving, while unsettled each attempt waits for its timer if and only if it has not started, and none starts twice |
| Channel.BoundedChannel.PumpAll | packages/core/src/channel/index.ts:130-165 | the three loops do what the recursive specification says, and terminate |
| Channel.BoundedChannel.SendValue | packages/core/src/channel/index.ts:80-94 | a send is rejected when closed, rejected when aborted, else queued and pumped |
| Channel.BoundedChannel.CloseWith | packages/core/src/channel/index.ts:110-128 | the first close rejects every waiting sender in order and pumps; later ones do nothing |
| ChannelRuns.FirstInFirstOut | packages/core/src/channel/index.ts:80-165 | after any operations, delivered ++ buffer ++ waiting values is what was sent in call order minus the rejected sends, and a send has resolved exactly when its value was delivered or buffered |
| ChannelAnswers.AnsweredInTurn | packages/core/src/channel/index.ts:96-165 | after any operations, the receives answered by a value or an end of stream, in that order, followed by those waiting, are exactly the receive calls in call order minus the aborted ones |
| ChannelAnswers.SendExactly | packages/core/src/channel/index.ts:80-94 | on a channel at rest a send is refused, handed to the first waiting receiver, buffered, or left waiting last, each under its exact condition and with the whole new state |
| ChannelAnswers.ReceiveExactly | packages/core/src/channel/index.ts:96-108 | on a channel at rest a receive is refused, given the oldest buffered value (the first waiting sender takes its place), given a sender's value directly, told the end, or left waiting last |
| ChannelAnswers.CloseExactly | packages/core/src/channel/index.ts:110-128 | the first close refuses each waiting sender and ends each waiting receiver, in turn and with its reason, and keeps what is buffered |
| ChannelRuns.SettledOnce | packages/core/src/channel/index.ts:80-183 | no operation settles twice, and one has settled if and only if it is no longer waiting |
| ChannelRuns.AlwaysQuiescent | packages/core/src/channel/index.ts:130-165 | after every operation: buffer within capacity; waiting receivers mean an empty buffer and no waiting sender; waiting senders mean an open channel and a full buffer; a closed channel has no waiting sender and delivers every buffered value before any end of stream |
| ChannelRuns.AbortKeeps | packages/core/src/channel/index.ts:168-183 | an abort keeps all of that without calling pump |
| ChannelRuns.PumpKeeps | packages/core/src/channel/index.ts:130-165 | one pump restores quiescence after any queued operation and keeps FIFO and exactly-once |
| Exporter.ExporterCircuit.Export | packages/core/src/observability/index.ts:223-264 | an offer drops the oldest, queues, refuses and starts the drain exactly as the specification |
| Exporter.ExporterCircuit.OnSettled | packages/core/src/observability/index.ts:282-305 | what a settled exporter call makes of the circuit and counters |
| Exporter.Conservation | packages/core/src/observability/index.ts:205-314 | after every step offered + filtered = exported + dropped + queued + in flight; queuedBytes is the exact sum; both bounds hold; calls are single-flight; a non-empty queue has a running drain |
| Exporter.CallsInOfferOrder | packages/core/src/observability/index.ts:266-305 | exporter calls are an in-order subsequence of the offers, the queue comes after them, and none is made while open before `openedUntil` |
| Exporter.RoomIsMinimal | packages/core/src/observability/index.ts:237-258 | room is made by dropping the oldest events, and no more of them than the two bounds require |
| ExporterCircuits.RunAgrees | packages/core/src/observability/index.ts:282-305 | over every run the circuit is what the settled calls and their times say: it opens at a failure if and only if it was half-open or that failure completes `failureThreshold` in a row, until `openForMs` after it, and any success closes it |
| ExporterCircuits.QueuedEventExactly | packages/core/src/observability/index.ts:266-289 | the next queued event is dropped unsent if and only if the circuit is open and it comes less than `openForMs` after the failed call that opened it; otherwise it is what the exporter is called with |
| ExporterCircuits.OfferedEventExactly | packages/core/src/observability/index.ts:223-289 | the same for an event offered to an idle exporter |
| ExporterCircuits.BusyOfferWaits | packages/core/src/observability/index.ts:266-268 | an offer behind a running drain only queues: no call is made and the drain stays |
| Bisection.Accumulator.EmbedIndexedBatch | packages/core/src/ai/index.ts:532-562 | the recursion filling the shared map and array is the functional specification, outcome included |
| Bisection.BisectionCost | packages/core/src/ai/index.ts:532-562 | when the provider rejects exactly the batches holding one of k bad items, n items take at most 1 + 2k * ceil(log2 n) calls |
| Bisection.CeilLog2IsLog | packages/core/src/ai/index.ts:556-561 | the number of halvings is the least exponent whose power of two reaches n (if and only if) |
| Bisection.CostAtMostTwice | packages/core/src/ai/index.ts:532-562 | whatever the provider answers, at most 2n - 1 calls |
| BisectionRuns.ChunkIndexed | packages/core/src/ai/index.ts:568-574 | the loop cuts consecutive chunks of the given size with their indices |
| BisectionRuns.MergeChunks | packages/core/src/ai/index.ts:305-325 | the merge gives the dense results in index order and the errors sorted by index |
| BisectionRuns.BatchPartition | packages/core/src/ai/index.ts:532-562 | a batch that returns has put each of its indices into exactly one of results and errors, errors in order |
| BisectionRuns.ThrowsOnlyOnFail | packages/core/src/ai/index.ts:548-554 | a batch throws only when the classifier refuses to split a rejection of several items |
| BisectionCalls.ThrowsIff | packages/core/src/ai/index.ts:532-562 | a batch throws if and only if some call it makes fails on several items and may not be split; that is its last call and what it failed with is thrown; it is aborted if and only if an abort is seen before a call |
| BisectionCalls.EmbedMakesCalls | packages/core/src/ai/index.ts:532-562 | the recursion makes exactly the listed calls, numbered on: the batch, then its halves in order, until one stops; it ends as the last of them does |
| BisectionCalls.ThrownChunkReportsFirst | packages/core/src/ai/index.ts:290-303 | a chunk that throws is reported for its first item alone with the failure of its last call, and nothing found on the way is kept |
| BisectionRuns.OutputPartition | packages/core/src/ai/index.ts:262-325 | errors come out in increasing order with their own items; each input index is in exactly one of results and errors if and only if no chunk threw |
| BisectionRuns.SplittersNeverThrow | packages/core/src/ai/index.ts:548-554 | when every multi-item rejection is split no chunk throws, so the partition holds |
| BisectionRuns.OutputIgnoresBatching | packages/core/src/ai/index.ts:262-325 | for a provider deterministic per item the output is the same for every batch size and call numbering |
| BisectionRuns.PoolKeepsOutput | packages/core/src/ai/index.ts:305-325 | whatever order the chunks finish in and however many workers run them, the output of a pool that resolves is that of the chunks in order |
| BisectionRuns.OutputIgnoresSchedule | packages/core/src/ai/index.ts:262-325 | for a provider deterministic per item, two calls that resolve give the same output whatever their batch sizes, concurrency and finishing orders, and its errors are the bad items in order |
| WorkerPool.Pool.ClaimNext | packages/core/src/run/index.ts:158-165 | a worker at the head of its loop is done, or claims the next index and awaits it unless the scope refuses the spawn |
| WorkerPool.Pool.OnResolved | packages/core/src/run/index.ts:158-165 | a resolved task writes its own slot and the worker goes on |
| WorkerPool.StartsOnceWithinConcurrency | packages/core/src/run/index.ts:149-171 | over every interleaving tasks start in index order, each at most once; each started task has settled or is held by one worker; at most `concurrency` are in flight |
| WorkerPool.FullyUsed | packages/core/src/run/index.ts:149-171 | while tasks are left and no worker was rejected, exactly min(concurrency, tasks) are in flight |
| WorkerPool.SlotsAreAnswers | packages/core/src/run/index.ts:149-171 | when every worker is done each task has started and settled once, and the slots are exactly the answers by index |
| PoolFailures.FailureStopsStarts | packages/core/src/run/index.ts:149-171 | after an ordinary failure, or once the scope is cancelled, no task starts in any continuation |
| PoolFailures.CancellationStopsOnlyItsWorker | packages/core/src/run/index.ts:149-171 | a cancelled task ends its own worker and changes nothing else |
| PoolFailures.ResolvingGoesOn | packages/core/src/run/index.ts:158-165 | over every run that nothing has stopped, however many tasks were cancelled, a worker whose task resolves starts the next task while one is left |
| PoolFailures.OpenIffNotStopped | packages/core/src/run/index.ts:149-171 | the pool can start tasks if and only if no ordinary failure and no scope cancellation has come |
| Candidates.SearchVisits | packages/core/src/candidates/index.ts:77-115 | the search visits strictly increasing positions, within candidates * times, and goes on from all but the last |
| Candidates.SelectsFirstAcceptable | packages/core/src/candidates/index.ts:77-115 | a value is selected if and only if some visited attempt is accepted; all earlier ones were passed over; at most candidates * times attempts |
| CandidateFates.SearchIsByFates | packages/core/src/candidates/index.ts:117-210 | whatever the callbacks answer, selection is the left-to-right search in which each attempt has one fate (taken, turned down, judged by the caller, out of budget or time, called off, broken) read off what its callbacks returned or threw |
| CandidateFates.FateDecides | packages/core/src/candidates/classification.ts:79-100 | classified inside the attempt and again around it, an error comes to the one decision its fate asks for |
| CandidateFates.EvidenceByFates | packages/core/src/candidates/evidence.ts:26-40 | the evidence of a selection that does not throw tells the fate of the i-th attempt visited, for every i within the limit |
| CandidateSelection.FirstAcceptable | packages/core/src/candidates/index.ts:77-115 | the candidate loop over retry finds what the left-to-right search finds, rejects exactly the invalid configurations, and unless it throws returns evidence i for attempt i with its own decision, the rest counted as dropped |
| CandidateSelection.RunRetry | packages/core/src/candidates/index.ts:117-142 | one candidate's retry, owned by the classifier, visits exactly the search's attempts of that candidate and keeps both buffers aligned |
| CandidateSelection.MapCandidateEvidence | packages/core/src/candidates/evidence.ts:26-40 | attempt i is paired with decision i |
| CandidateSelection.AttemptRecorder.Record | packages/core/src/replay/index.ts:251-270 | a full recorder counts what it drops and keeps what it has |
| Activity.MemoryStore.Start | packages/core/src/activity/index.ts:160-169 | an existing record is returned untouched; a new claim evicts the oldest when full |
| Activity.MemoryStore.Finish | packages/core/src/activity/index.ts:170-180 | only a started record of the same input takes a terminal state, in its place |
| Activity.ActivityCall.OnBodySettled | packages/core/src/activity/index.ts:239-271 | what one call does when its body settles, with a failing `finish` caught by the same block |
| Activity.BodyStartsOncePerClaim | packages/core/src/activity/index.ts:231-240 | over every interleaving, the bodies started for an id plus its claims still waiting are its evictions, plus one if it is stored: at most one body until eviction |
| Activity.RecordIsFinal | packages/core/src/activity/index.ts:170-180 | from any state, a stored record keeps its input hash, takes one terminal state and keeps it until evicted |
| Activity.ReturnsStoredResult | packages/core/src/activity/index.ts:234-249 | every call that returns normally returned the result the store holds for that input until the id is evicted |
| ActivityOutcomes.BodyDecides | packages/core/src/activity/index.ts:239-271 | over every interleaving, unless the id was evicted, the body of the claiming call decides: its value is stored and returned, its failure or cancellation is stored and thrown |
| ActivityOutcomes.OpenRecordIsClosed | packages/core/src/activity/index.ts:170-180 | a body that ends while its record is open is recorded as it ended, in place and with its time, and its call ends the same way |
| ActivityOutcomes.StaleBodyIsRefused | packages/core/src/activity/index.ts:239-271 | a body that ends after its record was evicted or taken over writes nothing, and its call does not return |
| ActivityOutcomes.ResumesByWhatItFound | packages/core/src/activity/index.ts:231-237 | whatever happens in between, a call that found a record of its input replays that record as it stood, one of another input conflicts, and only a call that found none runs its body |
| Activity.OtherInputConflicts | packages/core/src/activity/index.ts:235-236 | a call that finds its id stored for another hash can only end in a conflict, in every continuation |
| Activity.EvictsInClaimOrder | packages/core/src/activity/index.ts:160-169 | the store never exceeds maxRecords; evicted ids then stored ids are the claims in order |

## Left out

- PlanExact.PlannedBoundHoldsIff: retry and hedge are excluded; exact backoff delays and staggered starts leave gaps between possible success times, and only an ordinary failure is retried, so the latest run is no longer the one in which every task is as late as it can be. For them only the sufficient condition of `PlanSoundness.RunInTime` is proved.
- PlanTight.PlanIsMet: a truncating limit cuts runs short and an empty composition is planned as nothing to do, so neither the attempts nor the work planned need be reached there; `PlanExact.SuccessMeetsBound` still meets the time bound under truncating limits, without retry and hedge.
- PlanTight.SilentIff: which warning codes are given, and in what order, is modelled but not characterised.
- PlanSoundness.RunInTime: a leaf keeps to its declared duration, timers are ideal, each deadline is planned no later than it starts, and cleanup callbacks take no time; task functions do not throw synchronously.
- RetryAdmission.FullRun: parallel, hedge, timeout and deadline are excluded, since one child failing can stop its siblings before they charge.
- Exporter.Conservation: callbacks other than the exporter are assumed to return normally.
- BudgetRuns.Conservation: amounts are whole multiples of 10^-12, so the rounding of sums is the identity; infinite and NaN amounts are not modelled.
- Hedge.HedgeProtocol: a fractional or non-finite `max` is not modelled.
- ScopeTree.ScopeImpl.constructor: links are numbered in `ScopeTree.Step`; the classes are tied to the same per-scope functions, but the whole tree of objects is not shown to be one `System` value.
- CandidateSelection.FirstAcceptable: no deadline, since a late body and the deadline wrapper can both record there; callbacks return well-formed decisions and metadata is not carried.
- WorkerPool.SlotsAreAnswers: the check that the concurrency is a positive integer is a precondition here.
- ScopeTree.ScopeImpl.Spawn: idempotency keys, which return an existing handle instead of a new record, and the validation of names, kinds and policy shortcuts.
- Budgets.ConsumeBudget: amounts that are not finite, and rounding to twelve decimals.
- Durations as strings, planner warning texts, and the `estimateRetry` and `estimateHedge` entry points: they only start the same analysis one level down.
- Real clocks, timer lateness and `AsyncLocalStorage`: time is an input to each step.
- Scope details without influence on ownership: names, scope deadlines (a cancel call), events, status snapshots, and a second caller of `close()`, which the source does not have.
- `TelemetryBudget`: the event bus charges it directly, outside `consumeBudget`.
- Public copies of budget states, context defaults and key validation: single folds and checks.
- Bisection's retry and timeout wrappers, its fail mode, and cancellation errors thrown by the provider (one that escapes a chunk is rethrown): the model starts where the wrapped provider call settles with an ordinary answer.
- Activity names, versions, JSON normalization and hashing: the input hash is an opaque value, and results are stated up to hash equality.
- File, SQLite and Postgres stores: external; their interleavings are not those of one process.
- `race`, `any`, `supervise`, `bracket`, the `work` stream, receipts, diagnostics and tree rendering: not modelled, as their own claims are shallow next to the ones above.
