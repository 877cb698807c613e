# Verification model of the trax saga coordinator

trax runs sagas: linear chains of steps that are executed one after the other and, when one fails or
a committed saga is called off, compensated from the last executed step back to the first. This
project models the coordinator's state machine and its supporting parts in Dafny and proves what they
keep, over every input and every run.

Check the whole project with `dafny verify dfyconfig.toml`.

## How the model is built

1. **Tables and handlers.** `Store.dfy` is the saga store: a table of sagas, a table of steps, at most
   one open transaction, and operations any of which may fail (`faults` counts the failures).
   `Coordinator.dfy` holds the coordinator's methods, written as the source writes them: list the
   rows in whatever order they come, rebuild the order, check the neighbours, update rows one by one
   in a transaction, publish, commit, or roll back and perhaps mark the saga invalid.
2. **One action per call.** `Transitions.dfy` says what each call does to the ordered rows of one saga
   (`Enabled`, `Apply`). Every handler is proved to leave the committed tables as they were, or
   changed by exactly that action, or with the saga marked invalid, whichever operation fails; and
   to do the action when nothing fails. `Settling.dfy` says, on the stored rows and the bus, what all
   the calls of one driver's run come to when nothing fails, through the follow-up loop.
3. **A counter machine.** `Machine.dfy` reads the step vector as a word: `D^i X P^m`, `D^n`,
   `p^i Y d^j A^m`, `d^j A^m`. Every action is one step of a five-constructor machine or leaves it
   where it is, and keeps the history each state goes with.
4. **Runs.** `Runs.dfy` draws the consequences for whole runs of one saga, `StoreRuns.dfy` for the
   whole store: many sagas interleaved, new ones submitted, children spawned. Its runs (`Reaches`,
   `RunsTo`) allow every call of the step processor on a saga in any state; what they keep is kept by
   the drivers a fortiori.
5. **Drivers.** `Drivers.dfy` says what really happens: the poller picks steps of running sagas and
   of sagas asked to compensate, and works on them later; a result changes its step and fires an
   immediate run; submissions and requests come from outside. A `Service` is the store with the runs
   that are due. The methods of `Coordinator.dfy` are proved to be such events, and any sequence of
   them a course of the service (`Serve`). `Services.dfy` proves what every service keeps and that
   nothing opens a saga the drivers have lost, `Steering.dfy` and `StoreEnds.dfy` that they can bring
   every other one to its end, `StoreWitnesses.dfy` gives services that come about.
6. **Supporting parts.** `StepOrder.dfy` (order reconstruction), `Validators.dfy` (exact languages),
   `Inputs.dfy` (what a step is to be sent), `Requests.dfy` (what it was sent, over whole runs),
   `Submission.dfy`, `Hierarchy.dfy` (parents, roots, depths),
   `InFlight.dfy` (the executor's guard), `SortedKeys.dfy` (the order of keys), `LockProtocol.dfy`
   (any number of clients of the shared lock cache, as a state machine), `MultiLock.dfy` (the lock
   loops, proved to make only steps of it), `KeyedLock.dfy` (the expiring lock table).

Letters: C candidate, R running, S succeeded, D done, F failed, P pending, A aborted; in lower case the
compensation states, with b for blocked.

Assumptions that the source states or relies on: one call of a handler is atomic (the mutex per saga
and the one coordinator per affinity group); clocks give positive times, and the coordinator's and the
lock table's clock do not go back; drawn ids are new; results come only for steps that were sent a
request. Runs of the store register only sagas with a step, and children only while the step they hang
off has run and is not yet being compensated; `OnSubmission` says that exactly these submissions keep the store in shape.
Store and broker failures, context expiry and time are nondeterministic choices of the model.

## What the proofs brought to light

- The poller works on running sagas only, and no driver looks at a running step again. So the drivers
  lose sagas for good: one marked invalid or blocked, unless what is left of it is one outstanding
  result and the run it fires, or runs that were due before (`OpenWhileNothingIsDue` spells it out for
  sagas with nothing due); and any saga whose step was started and whose request could not be sent
  (`AnUnsentRequest`). A saga can still be compensated if and only if no saga below it is lost
  (`CompensableIffOpenBelow`, `RunningSagasCanEnd`); a lost child holds its parent up for good
  (`LostChildrenHoldTheirStep`, and `AStuckSaga` for such a service). Only an operator who force-marks
  a blocked saga helps.
- A fresh log can be sent if and only if the clock has not gone back since the step was started
  (`FreshLogsAreDue`); if it has, the follow-up call does nothing and the saga is lost in the same way.
- The immediate driver marks a saga invalid when its step is compensation-pending or
  compensation-blocked by the time it runs, and (nothing failing) only then: `ProcessStepWithMutex`.
  Such runs do come to be due for steps in both states: `TriggersCanMeetPending`,
  `TriggersCanMeetBlocked`.
- The result handler leaves its transaction open exactly when the context had expired at its first
  check after the begin (the rollback is arranged only later): `ProcessSagaStepExecutionResult`,
  out-parameter `firstCheck`.
- A driver that cannot list the steps for validation marks a healthy saga invalid. Nothing else makes
  the polling driver do so (`PollStep`, out-parameter `unlisted`), and every new saga can be lost that
  way (`HealthySagasCanBeLost`). Without such a failure, and without an immediate run that comes too
  late, no sequence of events ever marks a saga invalid: `Serve`.
- Marking a saga invalid from the failed-execution branch also stores the new compensation reason:
  `ProcessExecutionFailed`.
- A positive keyed-lock ttl below one millisecond gives a lock that is expired from the start:
  `AcquiredLocksAreLive`.
- Refreshing an expired keyed lock revives it unless a reap came first: `RefreshRevivesExpiredRows`.
- A lock that runs out costs other callers theirs: the late unlock deletes whatever is there by then
  (`ExpiredLocksAreStolen`). Exclusion is broken by a believed lock running out or by deleting a key
  one does not hold, and by nothing else: `ExclusionBreaksOnlyByTakingAway`.
- Releasing a list of held keys can delete another caller's lock if and only if the list names a key
  twice: `DuplicatesAreWhatSteals`.
- A saga shares its idempotency key with another template or id if and only if one of the two contains
  a dot: `KeysAreSharedThroughDots`.
- The query by root returns the tree below a saga only for sagas without a parent: `RootIndexIsTheTree`.
- Order reconstruction ends if and only if the walk from the head revisits no row
  (`OrderableIffNoRowRevisited`); a step row that names itself as successor sends it into an endless
  loop (`SelfLinkHasNoOrder`).
- The document comment of `ReleaseMultiLock` calls it safe for keys that expired or were never
  acquired; such a key's current lock is deleted, whoever set it.

## Model

| member | source | states |
|---|---|---|
| Machine.ActionRefinesMachine | pkg/trax/coordinator.go:1861-3106 | Every action of the coordinator on a saga in shape is allowed by the counter machine, and the saga afterwards spells the machine's next position with matching saga state and histories |
| Machine.EnabledActionsArePermitted | pkg/trax/coordinator.go:1886-3102 | Only the step at the machine's counter, in the right phase, can be worked on; ExecutionBlocked is never entered |
| Machine.ChecksPassInShape | pkg/trax/coordinator.go:1887-1962 | On a saga in shape every neighbour and history check of the step processor succeeds, exactly for the states it has a branch for |
| Runs.RunRefinesMachine | pkg/trax/coordinator.go:3139-3157 | The shape language is kept by every run from creation on, whatever the mix of polling, triggers, results and compensation requests |
| Runs.LastInFirstOut | pkg/trax/coordinator.go:2994-3042 | Steps start in the order 0, 1, 2, .. and are compensated from the last started one back; a compensated saga compensated exactly the started steps: 0 to k when step k failed, all of them when it had been committed |
| Runs.FailureEndsTheForwardRun | pkg/trax/coordinator.go:2503-2553 | If step k failed, exactly the steps 0 to k are ever started, so the walk back is k, k-1, .., 0 |
| Runs.InitiationUndoesEverything | pkg/trax/coordinator.go:3641-3734 | If a committed saga was sent back, all n steps were started, so the walk back is n-1, .., 0 |
| Runs.SagaStateTellsSteps | pkg/trax/coordinator.go:2400-2431 | Running means exactly one active step; committed and compensation-requested mean all done; compensated means done compensations followed by aborted steps |
| Runs.CommittedLeavesByRequest | pkg/trax/store_psql.go:2047-2063 | Only a request to compensate or being marked invalid takes a saga out of the committed state, and neither touches a step |
| Runs.RunsAreBounded | pkg/trax/coordinator.go:1700-1713 | A saga of n steps performs at most 8n + 2 actions, plus two for every late result that revives a blocked compensation |
| Drivers.CoursesAreRuns | pkg/trax/coordinator.go:1504-1713 | Whatever the drivers, results, submissions and requests do in a service is a run of its store, so all that such runs keep is kept |
| Services.CoursesKeepFits | pkg/trax/coordinator.go:1553-1578 | In every service that comes about, steps with a result were sent a request, runs are due only for stored steps that have had their turn, and requests are out for stored steps only |
| Services.CoursesOpenNothing | pkg/trax/coordinator.go:1553-1578 | Nothing that can happen opens a saga again that the drivers have lost |
| Services.OpenWhileNothingIsDue | pkg/trax/coordinator.go:1561-1567 | For a saga without due runs, exactly at which positions and in which saga states the drivers can still go on with it |
| StoreEnds.AnyFailureCanBeUndone | pkg/trax/coordinator.go:2447-3042 | In any service, whichever step k of a newly submitted saga fails, the drivers can compensate it completely, in the order k, k-1, .., 0 |
| StoreEnds.RunningSagasCanEnd | pkg/trax/coordinator.go:1553-1713 | In every service that comes about the drivers can bring a running saga to be committed if and only if its active step was not left running without a request, to be blocked always once a compensation failed, and otherwise to be compensated if and only if every saga below it is open |
| StoreEnds.CompensableIffOpenBelow | pkg/trax/coordinator.go:1553-1713 | The drivers can still come to compensate a saga if and only if every saga below it, itself included, is open: a condition on saga state, position, requests that are out and runs that are due |
| StoreEnds.LostChildrenHoldTheirStep | pkg/trax/coordinator.go:2617-2662 | A saga that is not open is never committed or compensated, and the step that spawned it never starts its compensation |
| StoreEnds.CleanRunsHaveNoInvalidSaga | pkg/trax/coordinator.go:1861-3106 | On runs from the empty store in which nothing marks a saga invalid, the state is entered by no other way |
| StoreWitnesses.AStuckSaga | pkg/trax/coordinator.go:2617-2662 | A service that comes about in which a running saga stays at its candidate compensation for good, behind a child marked invalid at its first step by a failed listing |
| StoreWitnesses.AnUnsentRequest | pkg/trax/coordinator.go:1684-1687 | A service that comes about in which a running saga can never be committed or compensated, because its first step was started and its request not sent |
| StoreWitnesses.ACompensatedFamily | pkg/trax/coordinator.go:2617-2662 | A service that comes about in which a saga and the child its step spawned are both compensated |
| StoreWitnesses.HealthySagasCanBeLost | pkg/trax/coordinator.go:3158-3166 | Every newly submitted saga passes validation at its first step, and a poll that picks it and cannot list its steps marks it invalid and loses it for good |
| StoreWitnesses.TriggersCanMeetPending | pkg/trax/coordinator.go:1744-1856 | Every saga of two or more steps can come to have an immediate run due for a step that awaits compensation, and that run marks it invalid |
| StoreWitnesses.TriggersCanMeetBlocked | pkg/trax/coordinator.go:1744-1856 | Every saga can come to have an immediate run due for a step whose compensation is blocked, and that run marks it invalid |
| Runs.ReceiptsFindTheirPlace | pkg/trax/coordinator.go:865-887 | A result is stored as the execution's result while the saga runs forward and as the compensation's while it is undone, never the other way round |
| Runs.ResultsAreFinal | pkg/trax/coordinator.go:811-843 | Once a step's execution has ended no run changes its result, and once it is compensated none changes its compensation result |
| Runs.RunKeepsIdentity | pkg/trax/coordinator.go:3374-3413 | No run changes ids, links or template of a step row, nor any other column of the saga row than state and reason |
| Invariants.MoveKeepsDbInv | pkg/trax/coordinator.go:1861-3106 | Whatever one saga does, every saga of the store stays in shape, every sent request stays published, and every child keeps step with its parent |
| Invariants.CompensatedIsAbsorbing | pkg/trax/coordinator.go:3000-3042 | No action but marking it invalid moves a compensated saga |
| Invariants.StepsOnlyProgress | pkg/trax/coordinator.go:2617-2701 | A step whose compensation started never gets back before that point, it starts only by the start-compensation action, and a step that ran never becomes one that did not |
| StoreRuns.RunsKeepShape | pkg/trax/coordinator.go:1504-1713 | The invariant of the whole store survives every run of interleaved sagas, submissions and requests |
| StoreRuns.StoredSagasUndoLastInFirstOut | pkg/trax/coordinator.go:2968-2994 | Last in, first out (with the steps a failure or a call-off leaves started) and the bound on the number of actions hold for each saga of a store in which any number of others run |
| StoreRuns.RunsProject | pkg/trax/coordinator.go:1553-1578 | One saga's part in any run of the store is a run of that saga |
| StoreRuns.CascadeReachesEveryDescendant | pkg/trax/coordinator.go:2617-2662 | In every store that can come about, all descendants of a compensated saga are compensated, at any depth |
| StoreRuns.CompensatedTrees | pkg/trax/coordinator.go:2617-2662 | The same from the invariant alone, by induction along the path of descendants |
| StoreRuns.CompensatedIsForever | pkg/trax/coordinator.go:3036-3042 | A compensated saga's row never changes again, so stale reads of children are safe |
| StoreRuns.SentRequestsWerePublished | pkg/trax/coordinator.go:2229-2299 | A request-sent timestamp in a step's history means that the request is on the bus |
| StoreRuns.ForceMarkingLeavesChildren | pkg/trax/store_psql.go:2070-2091 | Force-marking a blocked saga keeps its children compensated if and only if no uncompensated child hangs off a step whose compensation has not started |
| StoreRuns.ChildrenMustComeInTime | pkg/trax/coordinator.go:2617-2662 | A child keeps step with its parent from registration on if and only if its step has run and is not yet being compensated |
| StoreRuns.TriggerIsAMove | pkg/trax/store_psql.go:2047-2063 | Asking a committed saga to compensate from outside is one of the moves the invariant covers |
| StoreRuns.RegistrationKeepsShape | pkg/trax/coordinator.go:1187-1237 | A newly stored saga leaves the whole store in shape |
| Coordinators.Coordinator.ProcessExecutionCandidate | pkg/trax/coordinator.go:1886-2045 | C becomes R with a fresh execution id and one log of the present time whose request is still to be sent, or the saga is invalidated, or nothing; decided by the neighbours |
| Coordinators.Coordinator.ProcessExecutionRunning | pkg/trax/coordinator.go:2046-2318 | R waits, times out to F, or records the sending of the one request it published: for this step and the execution on its row, with under every key the last preceding result, else the saga input; panics exactly when a result was received while it waits |
| Coordinators.Coordinator.ProcessExecutionSucceeded | pkg/trax/coordinator.go:2319-2446 | S becomes D and the next step the candidate, or the saga is committed once all are done, or it is invalidated; all or nothing |
| Coordinators.Coordinator.ProcessExecutionFailed | pkg/trax/coordinator.go:2447-2568 | F becomes c, later steps are aborted, earlier ones await compensation and the reason is stored; all or nothing |
| Coordinators.Coordinator.ProcessCompensationCandidate | pkg/trax/coordinator.go:2569-2711 | c becomes r only when every child of the step is compensated; otherwise committed children are asked to compensate and the step waits |
| Coordinators.Coordinator.CascadeToChildren | pkg/trax/coordinator.go:2617-2662 | Only committed children of this step are asked; reports exactly whether any child is uncompensated |
| Coordinators.Coordinator.ProcessCompensationRunning | pkg/trax/coordinator.go:2712-2913 | r waits, times out to f, or records the sending of the one request it published: for this step and the execution on its row, with under every key the last later compensation result, else the last result up to its own, else the saga input; when listing failed, with the saga input |
| Coordinators.Coordinator.ProcessCompensationSucceeded | pkg/trax/coordinator.go:2914-3055 | s becomes d and the step before it the candidate, or the saga is compensated when the pattern is d* A*; all or nothing |
| Coordinators.Coordinator.ProcessCompensationFailed | pkg/trax/coordinator.go:3056-3090 | f becomes b and the saga is blocked; all or nothing |
| Coordinators.Coordinator.ProcessSagaStep | pkg/trax/coordinator.go:1861-3106 | One call is one action or a wait; invalid only when a check failed; a follow-up is asked for only after progress that leaves fewer calls |
| Coordinators.Coordinator.CheckCompensatedPattern | pkg/trax/coordinator.go:3003-3033 | Accepts exactly compensated steps followed by aborted ones |
| Coordinators.Coordinator.ProcessUntilSettled | pkg/trax/coordinator.go:1700-1713 | The follow-up loop ends after at most four calls, never meets its cap of ten and never panics; when nothing fails the step is at rest afterwards: from C its request is out and marked sent, from F and c its compensation request if its children are compensated (else they were asked), S is D with the next step a candidate or the saga committed, s is d with the step before a candidate or the saga compensated, f is b with the saga blocked, all on the stored rows and the bus |
| Coordinators.Coordinator.PollStep | pkg/trax/coordinator.go:1655-1713 | The polling driver keeps the store in shape and makes exactly one poller's run; when nothing fails it brings a step in C, S, F, c, s or f to rest as ProcessUntilSettled does, begins the walk back of a saga asked to compensate, and changes nothing otherwise; it marks a saga invalid only when its steps could not be listed for validation, and then unless something else fails too |
| Coordinators.Coordinator.Serve | pkg/trax/coordinator.go:1504-1713 | Picks, polls, immediate runs, results, submissions and requests, called for in any order, are each answered by the event they are for when it is due and the store works, and make a course of the service; no saga is marked invalid on it unless a listing for validation failed or an immediate run met a step in p or b |
| Coordinators.Coordinator.ProcessStepWithMutex | pkg/trax/coordinator.go:1744-1856 | The immediate driver makes exactly one immediate run; when nothing fails it brings a step in S, F, s or f (and C, c) to rest as ProcessUntilSettled does, leaves R and r alone, and marks the saga invalid if and only if the step is p or b |
| Coordinators.Coordinator.ProcessSagaStepExecutionResult | pkg/trax/coordinator.go:708-1081 | A result is dropped, recorded, or recorded and turned into the step's next state, all or nothing; the saga is invalidated only for a step without history; the transaction is left open exactly when the context had expired at the first check after its begin |
| Coordinators.Coordinator.OnResultMessage | pkg/trax/coordinator.go:640-650 | With progress reports filtered out, a result for a requested step is taken and fires a run exactly when the step is in R, r or b and nothing fails: stored as the execution's or the compensation's result and in the last log, the state by its status; it keeps the store in shape and never invalidates a saga |
| Coordinators.Coordinator.ProgressReportsWouldPanic | pkg/trax/coordinator.go:640-645 | Recording a progress report on a waiting step would break its history and make the step processor panic until the deadline |
| Coordinators.Coordinator.InitiateCompensationForCommittedSaga | pkg/trax/coordinator.go:3641-3734 | A compensation-requested saga whose steps are all done starts its walk back from the last step; otherwise it is marked invalid; the stored reason quotes the parent's |
| Coordinators.Coordinator.IsSagaStateValid | pkg/trax/coordinator.go:3108-3202 | The verdict of the validator for the saga's mode, or false when the steps cannot be listed |
| Coordinators.Coordinator.BuildCompensationInput | pkg/trax/coordinator.go:2804-2845 | The loops compute the compensation input, and only the saga input when listing fails |
| Settling.CallTakesOn | pkg/trax/coordinator.go:1700-1713 | A call in which nothing fails takes a run on, and one that asks for no follow-up has brought the step to what its first state calls for |
| Settling.WaitingIsExclusive | pkg/trax/coordinator.go:2060-2145 | A running step sends while it has not sent, then waits up to the deadline, and after it times out; exactly one of the three, and none before its time |
| Transitions.ReasonQuotesTheFirstError | pkg/trax/coordinator.go:3556-3571 | The reason quotes the first error that an execution log reports, itself or in its result, and says so when none does |
| Transitions.FailuresAreQuoted | pkg/trax/coordinator.go:2499-2505 | The error in a failed result becomes the saga's compensation reason once the failure has been processed |
| Transitions.TimeOutsAreUnknown | pkg/trax/coordinator.go:2105-2112 | After a time-out the reason says that the error is unknown |
| Coordinators.Coordinator.ExtractCompensationReason | pkg/trax/coordinator.go:3556-3571 | The error of the first execution log that carries one |
| Coordinators.Coordinator.AbandonTransaction | pkg/trax/coordinator.go:2327-2364 | After a failed handler the tables are as before, or differ only in the saga being invalid |
| Coordinators.Coordinator.TransitSagaStepToState | pkg/trax/coordinator.go:3374-3413 | Exactly the step's state column changes; the row read back has the new state, so the check after it never panics |
| Coordinators.Coordinator.TransitSagaToState | pkg/trax/coordinator.go:3339-3372 | The same for a saga row, which also takes the struct's reason |
| Stores.Store.BeginTransaction | pkg/trax/store_psql.go:459-480 | Opens a snapshot of the committed tables, at most one at a time |
| Stores.Store.CommitTransaction | pkg/trax/store_psql.go:482-498 | The committed tables become the transaction's, or stay when it fails |
| Stores.Store.RollbackTransaction | pkg/trax/store_psql.go:500-514 | The committed tables stay |
| Stores.Store.UpdateSagaStepState | pkg/trax/store_psql.go:1388-1416 | Writes the state column of one row, or fails and writes nothing |
| Stores.Store.UpdateSagaStepInstanceExecutionHistory | pkg/trax/store_psql.go:1458-1479 | Writes execution id and history together, or nothing |
| Stores.Store.ListSagaStepInstancesBySagaInstanceId | pkg/trax/store_psql.go:1964-1989 | Exactly the saga's rows, each once, in no particular order |
| Stores.Store.TriggerSagaCompensation | pkg/trax/store_psql.go:2047-2063 | Changes only a committed saga, and only its state |
| Stores.Store.ForceMarkSagaCompensated | pkg/trax/store_psql.go:2070-2091 | Changes only a blocked saga, with a reason |
| Stores.Store.GetChildSagaInstances | pkg/trax/store_inmem.go:502-510 | Exactly the sagas with that parent, each once, in no particular order |
| Stores.Store.GetSagaHierarchy | pkg/trax/store_inmem.go:512-520 | Exactly the sagas with that root, each once, in no particular order |
| Stores.Store.SaveSagaInstanceIdempotently | pkg/trax/store_psql.go:1006-1104 | Saves exactly when no row has the key; a taken row id is an error |
| Stores.Store.SaveSagaStepInstanceIdempotently | pkg/trax/store_psql.go:1290-1386 | The same for a step row |
| Coordinators.Coordinator.VerdictsAgree | pkg/trax/coordinator.go:1677-1699 | On a store in shape the validator accepts every step the polling driver hands to the processor |
| Coordinators.Coordinator.RequestedStepsRan | pkg/trax/coordinator.go:889-914 | A step with a request on the bus has run and has a history, so the missing-history branch is unreachable |
| Validators.ForwardAcceptsIsTheLanguage | pkg/trax/coordinator.go:3221-3284 | The forward validator's verdict is membership in D^i x P* or D^i x P* y P* |
| Validators.UndoAcceptsIsTheLanguage | pkg/trax/coordinator.go:3286-3337 | The compensating validator's verdict is membership in p^i x comp* A* |
| Validators.ValidateNonCompensatingMode | pkg/trax/coordinator.go:3221-3284 | The loops and flags return true exactly on that language |
| Validators.ValidateCompensatingMode | pkg/trax/coordinator.go:3286-3337 | The loops and flags return true exactly on that language |
| Validators.ValidatorsOnShapes | pkg/trax/coordinator.go:3139-3202 | On a reachable shape, exactly which steps validation accepts |
| Inputs.CompensationInputPrecedence | pkg/trax/coordinator.go:2804-2845 | A compensation sees the last later compensation result for a key, else the last result up to its own step, else the saga input |
| Inputs.InputsAreDetermined | pkg/trax/coordinator.go:2195-2228 | The precedence of results has one outcome under every key: exactly one input fits, and the coordinator builds it |
| Requests.RequestsCarryTheResults | pkg/trax/coordinator.go:2195-2258 | In every store that comes about, each request on the bus names the execution on its step's row and carries, under every key, the result that the step is to see by the rows as they are stored now; a compensation request perhaps the saga input alone |
| Requests.ActionsKeepSources | pkg/trax/coordinator.go:2804-2845 | Once a step may have been sent a request no action changes the results, compensation results or execution id it was built from |
| Inputs.ForwardInputPrecedence | pkg/trax/coordinator.go:2195-2228 | An execution sees the last preceding result for a key, else the saga input |
| StepOrder.OrderSagaStepsInSequence | pkg/trax/coordinator.go:3573-3619 | Returns the chain from the head to the row after which nothing comes, or the rows unchanged when there is no head |
| StepOrder.OrderIsUnique | pkg/trax/coordinator.go:3573-3619 | Rows have at most one order |
| StepOrder.LinkedRowsHaveTheirOrder | pkg/trax/coordinator.go:3573-3619 | The linked rows of a saga, listed in any order, have exactly the template's order |
| StepOrder.OrderableIffNoRowRevisited | pkg/trax/coordinator.go:3594-3615 | The walk from the head comes to an end if and only if it revisits no row |
| StepOrder.SelfLinkHasNoOrder | pkg/trax/coordinator.go:3594-3615 | A head that points at itself has no order: the loop would not end |
| Coordinators.Coordinator.GetPreviousStepsInOrder | pkg/trax/coordinator.go:3622-3639 | The steps before the given one, in order |
| Submissions.SubmitSaga | pkg/trax/coordinator.go:1125-1288 | All rows of a new saga are stored in one transaction, column by column as they were submitted (input, template, parent, root, depth, links, drawn ids), or nothing is; a known key changes nothing; refused exactly for unknown templates or a taken id |
| Submissions.OnSubmission | pkg/trax/coordinator.go:1125-1288 | An accepted submission registers exactly the linked rows of the template, and keeps the whole store in shape if and only if the template has a step and a child comes in time under another, existing saga |
| Submissions.OrderRoundTrip | pkg/trax/coordinator.go:1187-1288 | After any run the saga row still has the submitted input, template, parent, root and depth, and for any listing of its step rows reordering ends and yields the saga row's step ids in template order |
| Submissions.RedeliveryIsRecognised | pkg/trax/store_psql.go:1006-1024 | Once stored, a saga's key stays taken through every run, so a redelivered submission is recognised |
| Submissions.SagaKeysIdentify | pkg/trax/common.go:5-8 | Sagas whose ids have no dot share a key only when id and template agree |
| Submissions.StepKeysIdentify | pkg/trax/common.go:10-13 | Step rows whose ids and template names have no dot share a key if and only if id, step template and saga template agree |
| Submissions.KeysAreSharedThroughDots | pkg/trax/common.go:5-8 | A saga's key is also that of another template or id if and only if its template name or its id contains a dot |
| Submissions.FreshStepsHaveNewKeys | pkg/trax/store_psql.go:1290-1305 | A step row with a newly drawn id is never skipped as already saved |
| Hierarchy.RunsKeepHierarchy | pkg/trax/sub_saga_executor.go:99-116 | Along every run in which children come from published requests, root and depth on every row agree with the parent's |
| Hierarchy.SpawnedChildrenAreFound | pkg/trax/sub_saga_executor.go:99-116 | A child submitted by a step that works on a published request is registered, found under its parent's root and below its parent, one level deeper, with the template and input it was given |
| Hierarchy.RootIndexIsTheTree | pkg/trax/store_inmem.go:502-520 | The query by root returns exactly the closure of the query by parent if and only if the saga has no parent |
| Hierarchy.HierarchyQueryReturnsTheTree | pkg/trax/store_inmem.go:512-520 | For a top-level saga the returned rows are exactly its descendants and itself |
| Hierarchy.DepthIsDistance | pkg/trax/coordinator.go:1167-1176 | A saga's depth is its distance from its root |
| Hierarchy.ParentsAreAcyclic | pkg/trax/coordinator.go:1167-1176 | No saga is its own ancestor |
| Hierarchy.SpawnedChildrenAreInTime | pkg/trax/coordinator.go:2617-2662 | A child spawned from a published request comes in time if and only if its step's compensation has not started |
| InFlightGuards.Executor.OnRequest | pkg/trax/executor.go:392-519 | The part of a callback under the mutex registers a run exactly when the key is free and the key status calls for it |
| InFlightGuards.Executor.OnReturn | pkg/trax/executor.go:280-303 | Completing a run removes its key and concludes it as a success for a result, as failed for the service's error, as an error for a failed call |
| InFlightGuards.ConclusionsTellReturns | pkg/trax/executor.go:280-303 | Over every interleaving a run is concluded exactly when its execution came back, and with the status of the way it came back |
| InFlightGuards.DeliveriesStartRuns | pkg/trax/executor.go:392-480 | Over every interleaving a delivery starts a run exactly when none of its key is in progress and the key is new or completed, or left over from before a restart and the executor detaches |
| InFlightGuards.OnlyRunsSettle | pkg/trax/executor.go:392-537 | What is published without a run only says that work goes on, or that the key could not be checked |
| InFlightGuards.Executor.ReportDetached | pkg/trax/executor.go:308-314 | A detached goroutine publishes its own run's status |
| InFlightGuards.Executor.PublishReply | pkg/trax/executor.go:521-537 | A callback publishes the status of the run it executed, or the fixed status it decided on |
| InFlightGuards.InterleavingsKeepConsistent | pkg/trax/executor.go:244-519 | Under any interleaving a key is in the in-flight map exactly while one run of it is between registration and removal |
| InFlightGuards.RunsDoNotOverlap | pkg/trax/executor.go:398-430 | Two runs of one key are never in progress together |
| InFlightGuards.KeysStayGuarded | pkg/trax/executor.go:398-430 | Until a run is concluded no delivery of its key starts another |
| InFlightGuards.RunsArePublishedOnce | pkg/trax/executor.go:280-315 | A run is published at most once, under its own key: Success if and only if its execution came back with a result and no error, Failed if and only if the service reported an error, Error if and only if the call failed |
| InFlightGuards.EndedRunsCanBePublished | pkg/trax/executor.go:505-537 | A run that ended can always be published by the callback or goroutine it belongs to |
| SortedKeys.SortStrings | pkg/cache/redis_impl.go:495-504 | Sorts in place and keeps the elements |
| SortedKeys.RemoveDuplicates | pkg/cache/redis_impl.go:422-428 | Strictly ascending, with the same elements |
| SortedKeys.AscendingIsUnique | pkg/cache/redis_impl.go:417-428 | Callers with the same keys lock them in the same order |
| MultiLocks.LockServer.AcquireMultiLock | pkg/cache/redis_impl.go:509-582 | Makes only steps of the lock protocol, with others in between; on success the call owns all keys unless exclusion was broken on the way, on failure it owns none and one of the keys was found locked, unless a request of its own failed, and a timeout was waited for; its locks live at least their time |
| MultiLocks.LockServer.AcquireInOrder | pkg/cache/redis_impl.go:447-478 | Locks the keys one by one or gives back, key by key, what it got, in steps of the protocol |
| MultiLocks.LockServer.ReleaseAll | pkg/cache/redis_impl.go:435-445 | Unlocks what was acquired, last first, one request a key, in steps of the protocol that delete no key it does not hold |
| MultiLocks.LockServer.MultiMutex | pkg/cache/redis_impl.go:411-493 | At every moment of the callback the call owns all keys unless exclusion was broken; afterwards it owns none unless a request of its own failed |
| MultiLocks.LockServer.Mutex | pkg/cache/redis_impl.go:360-406 | The same for one key |
| MultiLocks.LockServer.ReleaseMultiLock | pkg/cache/redis_impl.go:584-604 | Unlocks the keys one by one in the given order and reports whether every request succeeded; deletes nothing it does not hold when all are held and none is named twice |
| MultiLocks.LockServer.LockMutex | pkg/cache/redis_impl.go:347-353 | Sets the key exactly when it is absent; a failed request may have set it |
| MultiLocks.LockServer.UnlockMutex | pkg/cache/redis_impl.go:355-358 | Deletes the key whoever set it, and no other; a failed request may have deleted it |
| LockProtocol.ExclusionBreaksOnlyByTakingAway | pkg/cache/redis_impl.go:347-358 | A step leaves every client owning what it believes to hold if and only if no believed lock runs out in it and nobody deletes a believed key without holding it |
| LockProtocol.RunsAreSafe | pkg/cache/redis_impl.go:347-358 | Along runs in which no lock runs out and nobody unlocks a key it does not hold, clients own what they believe to hold and no unlock deletes another's lock |
| LockProtocol.LocksExclude | pkg/cache/redis_impl.go:347-358 | No two clients believe to hold the same key before a lock has run out or somebody unlocked a key it did not hold |
| LockProtocol.ClientsAreKept | pkg/cache/redis_impl.go:347-358 | Whatever the others do, a client's locks live at least their time, and a client none of whose requests failed owns nothing it does not know of |
| LockProtocol.NobodyWaitsForItself | pkg/cache/redis_impl.go:448-479 | The waits-for relation has no cycle, locks running out or not, unless a request failed |
| LockProtocol.SomebodyCanMove | pkg/cache/redis_impl.go:448-479 | While clients are about some client is not waiting, so there is no deadlock, unless a request failed |
| LockProtocol.UnlockingTouchesOnlyOwnKeys | pkg/cache/redis_impl.go:355-358 | While clients own what they believe to hold, giving back a held key deletes that lock and nobody else's |
| LockProtocol.ExpiredLocksAreStolen | pkg/cache/redis_impl.go:355-358 | With a lock that ran out, an unlock deletes another client's lock and two clients hold one key |
| LockProtocol.DuplicatesAreWhatSteals | pkg/cache/redis_impl.go:584-604 | Giving back a list of held keys can, with no lock running out, delete another client's lock if and only if the list names a key twice |
| KeyedLocks.KeyedLockStore.Acquire | pkg/cache/pgsql_keyed_lock.go:168-209 | Takes a free or expired key for the whole milliseconds of the ttl, five minutes when there is none; is blocked exactly by a live row |
| KeyedLocks.KeyedLockStore.Release | pkg/cache/pgsql_keyed_lock.go:211-228 | Deletes exactly the holder's rows |
| KeyedLocks.KeyedLockStore.Refresh | pkg/cache/pgsql_keyed_lock.go:230-255 | Moves the expiry of exactly the holder's rows, expired ones included, by the whole milliseconds of the ttl, and returns how many |
| KeyedLocks.KeyedLockStore.IsHeldBy | pkg/cache/pgsql_keyed_lock.go:257-276 | True exactly when the holder has a live row |
| KeyedLocks.KeyedLockStore.ReapExpired | pkg/cache/pgsql_keyed_lock.go:278-297 | Deletes exactly the expired rows |
| KeyedLocks.ExclusiveUntilTheDeadline | pkg/cache/pgsql_keyed_lock.go:168-255 | After an acquisition, without a release, the next attempt succeeds if and only if the holder's last deadline has passed |
| KeyedLocks.ReapAtWill | pkg/cache/pgsql_keyed_lock.go:278-297 | Reaping at any points of a run changes no answer, provided nobody refreshes an expired lock |
| KeyedLocks.RefreshRevivesExpiredRows | pkg/cache/pgsql_keyed_lock.go:230-255 | A reap before a refresh makes no difference if and only if none of the holder's rows has expired or the refresh grants no time |
| KeyedLocks.AcquiredLocksAreLive | pkg/cache/pgsql_keyed_lock.go:182-192 | An acquired lock is alive if and only if the ttl is not positive or at least a millisecond |

## Left out

- Database races finer than one handler call, and concurrent deliveries of one result: the source assumes one coordinator per affinity group and takes a mutex per saga; acquiring that mutex is not part of the drivers here.
- Commits whose outcome the client cannot tell: a failed commit changes nothing here.
- Context expiry is a choice at each check and each operation, not a state: that a deadline once passed stays passed is not modelled.
- Aliasing of step and saga structs inside a handler: structs are values that methods return.
- The saga states Paused and Cancelled, which the source marks as not handled.
- Deciding that the compensation of a step really ran: in r any result counts as its compensation result, and the model keeps that.
- Fairness of the drivers: what they can bring about is proved, not that they do. Both skip R and r, so time-outs would need direct calls of the step processor, which no driver makes; a service has none.
- Empty saga templates in runs of the store: they give a running saga without steps (`SubmitSaga` and `OnSubmission` cover storing them).
- Affinity groups: the poller here picks steps of all groups.
- Runs of the drivers that are lost with their process: they are runs that do nothing.
- How often a result is delivered: a step that was sent a request can get results any number of times, as redelivery allows; that a blocked or unsent compensation goes on at all depends on it.
- Force-marking is not an event of the service; `ForceMarkingLeavesChildren` says what it does to a store.
- Stores.Store.GetChildSagaInstances: the order by creation that PostgreSQL gives; the in-memory store gives none.
- Stores.Store.GetSagaHierarchy: the order by depth and creation that PostgreSQL gives; the in-memory store gives none.
- Columns no property needs: trace, zone, labels, tags, metadata, annexes, timestamps of rows; idempotency keys are taken within one cluster and zone.
- Submissions.SubmitSaga: the drawn ids are parameters that are assumed new to the store.
- MultiLocks.LockServer.AcquireMultiLock: a negative timeout, which waits without end, is not modelled; nor that some call gets its turn under contention.
- MultiLocks.LockServer.MultiMutex: a negative timeout is not modelled; nor a panic of the callback, while the deferred unlock is.
- MultiLocks.LockServer.Mutex: the same.
- InFlightGuards.Executor.OnRequest: the restart of a process, which empties the in-flight map, is not a step; keys left in progress by an earlier process are.
- Publishing an executor's status can fail in the source and is then only reported or redelivered; here publication is the attempt.
- Polling for a child's completion, output merging and HTTP in pkg/trax/sub_saga_executor.go.
- Message transport, JSON, SQL text, notifications, template reload, back-off, circuit breaker, announcement of submitters, logging, command line, daemons.
- Placeholder renumbering of search filters, publisher confirms and channel pools, which have no part in the saga protocol.
