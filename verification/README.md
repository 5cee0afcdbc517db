# Order pipeline: a verified model

The repository runs food orders through `placed -> confirmed -> preparing -> ready ->
out_for_delivery -> delivered` with a Postgres-backed task queue. Many worker processes claim
tasks under leases, call downstream services outside any transaction, and finalize, reschedule
or fail the task afterwards, while operators cancel orders and reopen failed tasks at any time.

This project models that protocol and proves what every run of it keeps.

* `OrderLifecycle`, `TransitionSpecs`, `Settings`, `Rows` - the order state machine, the
  workers' transition table and dispatch, the tunable delays (in ticks), and the three tables.
* `Transactions` - what each database transaction does to the tables, as functions.
* `OrderDatabase` - the same transactions run statement by statement on tables updated in
  place; each method is proved to end in the tables its function gives and to keep the
  constraints of the schema.
* `Pipeline` - the step system: tables, one clock, and the program counter of every worker. A
  step is one transaction; finalizing is two, because another transaction may run between the
  read and the guarded update. A transaction that aborts (deadlock victim, lost connection) is
  a step that does not happen; a crash or an exception is `StopWorker` or `Abandon`, possible at
  every point. The downstream answer is arbitrary: success, "not yet" with any hint, or error.
  Timestamps a caller takes before opening its transaction may be older than the clock.
* `PipelineInvariant`, `PipelineSteps`, `PipelineOrderSteps`, `PipelineChanges` - the inductive
  invariant and its preservation by all fourteen kinds of step.
* `StepLaws`, `RequestLaws`, `LoadLaws`, `AttentionLaws` - what each step does, column by
  column, told without the functions that do it, and what leases, cancellations, counters and
  overdue orders therefore mean over runs.
* `PipelineTheorems`, `EventLog`, `Intake`, `ClaimFairness`, `PollTermination`, `Backoff`,
  `PunctualBypass`, `Deadlines`, `Simulator`, `Dashboard`, `LatencyTie` - the properties.
* `Progress` - no reachable state is a dead end; it also shows that the states the other
  theorems speak of exist under every configuration.
* `LoadSteps`, `LoadGenerator`, `WorkerLoop` - the load generator as an event-loop step system
  (a step runs from one suspension to the next) and as an object, and the polling loop of a worker.

History that no transaction reads (`System.hist`, `System.work`) records how often a row was
written, its retryable errors and its operator retries; the theorems relate it to the columns.
`Config.tick` is the least the clock moves per step: results hold for 0, a clock that may stand
still, unless they ask for a strictly increasing one.

Where the code and its documentation disagree the model follows the code:

* `docs/design.md:306-328` moves an order to `failed` when a task runs out of attempts or time;
  the code only fails the task, and no code produces the order state `failed`.
* `docs/design.md:317-322` renews leases and reclaims expired tasks only when due; the code
  never renews a lease and reclaims on `locked_until` alone.
* `docs/design.md:346-380` describes a `downstream_calls` table; it is not implemented, so calls
  are at-least-once and only database effects are unique.
* The comment at `backend/api/task_store.py:47-51` promises a window of the original length on
  every operator retry; the code grants it on the first one and more on later ones
  (`Deadlines.LaterWindows`, with `Deadlines.SecondWindowExample`).

Some properties one might expect are not true of the code. Each has its exact condition and a
concrete failing input:

* The latency window can misread an order: exactly when its hops into `ready` and
  `out_for_delivery` share a timestamp (`Dashboard.WindowFollowsLog`), which a clock that may
  stand still allows (`LatencyTie.TieIsReachable`).
* A restarted load generator can have two producers: exactly when a start is accepted while a
  stop still waits for a producer that has not exited (`LoadSteps.OneProducerExactly`,
  `LoadSteps.OverlapKeepsOldProducer`). The order limit holds all the same.
* The operator-retry window above.

## Model

| member | source | states |
|---|---|---|
| OrderLifecycle.PathsAreRigid | backend/common/state_machine.py:37-64 | along any walk of the transition table the k-th state is fixed by the first, so no state repeats and no walk is longer than six states |
| OrderLifecycle.TerminalIffNoSuccessor | backend/common/state_machine.py:37-69 | a state is terminal exactly when it has no next state |
| TransitionSpecs.SpecTableFollowsLifecycle | backend/worker/tasks.py:215-278 | the k-th task of the lifecycle is dispatched to a handler for exactly the k-th hop, and its follow-up is the (k+1)-st task, first due after exactly that stage's initial delay and with exactly that stage's deadline |
| TransitionSpecs.DispatchedTasksAreLifecycleTasks | backend/worker/tasks.py:2476-2502 | dispatch accepts no task type and target other than those of a lifecycle stage, and sends them to that stage's handler |
| Settings.BoundedPoll | backend/worker/tasks.py:430-451 | the next poll falls at now plus the delay or at the deadline, whichever is first; before the deadline always in the future |
| Backoff.DelayDoubles | backend/worker/tasks.py:330-341 | the wait starts at the base and doubles with every failure until the cap holds it |
| Settings.HintOr | backend/worker/tasks.py:423-427 | a positive hint is the delay used; a missing or non-positive one falls back |
| Rows.LatestOccurrence | backend/worker/tasks.py:622-641 | the newest timestamp among the selected events, none exactly when there is no event |
| PipelineSteps.SourceEventIsCurrentHop | backend/worker/tasks.py:613-643 | on an order in a handler's source state its event query returns exactly the event that began the current stage |
| PipelineSteps.SettleOutcome | backend/worker/tasks.py:1014-1046 | the shared checks let a worker go on exactly when it owns the row and the order is in the source state; an owned row of a cancelled order is completed as a terminal no-op, and a row that is not owned is left alone |
| OrderDatabase.OrderDatabase.constructor | backend/alembic/versions/20260625_0002_add_order_intake_tables.py:101-157 | empty tables satisfy every constraint of the schema |
| OrderDatabase.RowUpdateKeepsConstraints | backend/alembic/versions/20260625_0002_add_order_intake_tables.py:125-157 | rewriting a row without waking it up or renaming it keeps unique keys, foreign keys and check constraints |
| OrderDatabase.OrderDatabase.UpdateOwned | backend/worker/tasks.py:581-594 | a guarded update writes the row, and reports one row, exactly when this worker holds the running row |
| OrderDatabase.OrderDatabase.CompleteClaimedTask | backend/worker/tasks.py:566-594 | completes exactly an owned row, and nothing else changes |
| OrderDatabase.OrderDatabase.RescheduleClaimedTask | backend/worker/tasks.py:776-815 | requeues exactly an owned row with one more attempt and the error kept |
| OrderDatabase.OrderDatabase.ReschedulePollTask | backend/worker/tasks.py:818-853 | requeues exactly an owned row with the same attempts and the error cleared |
| OrderDatabase.OrderDatabase.FailClaimedTask | backend/worker/tasks.py:856-889 | fails exactly an owned row, spending an attempt |
| OrderDatabase.OrderDatabase.FailWithoutAttemptIncrement | backend/worker/tasks.py:892-927 | fails exactly an owned row without spending an attempt |
| OrderDatabase.OrderDatabase.ReleaseClaimedTask | backend/worker/tasks.py:526-563 | releases exactly an owned row; with the arguments of the unsupported-task path it is that transaction |
| OrderDatabase.OrderDatabase.ClaimOneTask | backend/worker/tasks.py:454-523 | takes the first eligible unlocked row in claim order for thirty seconds, and takes none exactly when no row is eligible |
| OrderDatabase.OrderDatabase.SettleFirst | backend/worker/tasks.py:1020-1046 | the common opening: skip when not ours, complete as a no-op when the order is terminal or has moved on, otherwise change nothing |
| OrderDatabase.OrderDatabase.RetryOrFailClaimedTask | backend/worker/tasks.py:930-994 | requeues an owned row at the given time or fails it, as the budget it is given says, spending one attempt; changes nothing when the row is no longer ours; with the columns of the row it is the backoff rule |
| OrderDatabase.OrderDatabase.PrepareTransitionCall | backend/worker/tasks.py:997-1053 | command handlers: either the settled no-op or the call with the time of the event that began the stage |
| OrderDatabase.OrderDatabase.PreparePollCall | backend/worker/tasks.py:1210-1297 | poll handlers: as above, spending an attempt when deadline, source event or courier is missing |
| OrderDatabase.OrderDatabase.RescheduleTransitionTask | backend/worker/tasks.py:1891-1984 | a failed command call spends an attempt after the ownership check alone |
| OrderDatabase.OrderDatabase.ReschedulePollAfterError | backend/worker/tasks.py:1359-1419 | a failed poll re-checks the order before spending an attempt |
| OrderDatabase.OrderDatabase.RescheduleTransitionAfterPending | backend/worker/tasks.py:1812-1888 | a pending command is requeued after the hint or the base delay without spending an attempt |
| OrderDatabase.OrderDatabase.ReschedulePollAfterNotYet | backend/worker/tasks.py:1422-1541 | a pending poll fails at its deadline and is otherwise requeued after the hint or the interval, at the deadline if that is sooner, attempts unchanged |
| OrderDatabase.OrderDatabase.LoadForFinalize | backend/worker/tasks.py:1633-1692 | the locked read of a finalizing worker yields the order version or settles as a no-op |
| OrderDatabase.OrderDatabase.InsertFollowupTask | backend/worker/tasks.py:1544-1604 | the insert does nothing exactly when an active row has the key |
| OrderDatabase.OrderDatabase.CommitFinalize | backend/worker/tasks.py:1694-1809 | order, event, follow-up and completed task change together exactly when version and state still match; otherwise only the task is completed |
| OrderDatabase.OrderDatabase.CreateOrGetOrder | backend/api/order_store.py:50-200 | order, creation event and first task are written together for a new key; an old key changes nothing |
| OrderDatabase.OrderDatabase.CancelOrder | backend/api/order_store.py:203-337 | a live order becomes cancelled, exactly its pending and running tasks become cancelled, unlocked and marked, and one event names them; unknown and finished orders are left alone |
| OrderDatabase.OrderDatabase.RetryFailedTasks | backend/api/task_store.py:23-163 | every failed row of the order is reopened with one event each, in any order the database returns them, or nothing changes at all |
| OrderDatabase.OrderDatabase.AppendReopenEvents | backend/api/task_store.py:116-157 | the loop appends exactly one event per reopened row |
| StepLaws.StepsRun | backend/worker/tasks.py:2467-2526 | exactly when each step of a worker can run |
| StepLaws.ProcessLaw | backend/worker/main.py:57-80 | workers come up, give up and go down without a trace in the tables |
| StepLaws.ClaimLaw | backend/worker/tasks.py:490-523 | a claim leases exactly the claimed row, for thirty seconds from now, and changes no other column or row |
| StepLaws.ClaimChoice | backend/worker/tasks.py:470-489 | a task can be claimed exactly when its row is unlocked, queued and due or leased and expired, and least by update, due and creation time and id among such rows |
| StepLaws.ReportLaw | backend/worker/tasks.py:755-773 | what a transaction reports when it does not go on |
| StepLaws.SkipLaw | backend/worker/tasks.py:755-773 | a worker that no longer holds its row writes nothing |
| StepLaws.NoopLaw | backend/worker/tasks.py:1020-1046 | a held task whose order is terminal or elsewhere is completed, every column given |
| StepLaws.PrepareLaw | backend/worker/tasks.py:1253-1297 | what is asked downstream, from the latest event that began the state, or which attempt is spent, with every missing-data branch and its error text |
| StepLaws.ErrorLaw | backend/worker/tasks.py:930-994 | a failed call spends one attempt, keeps the error and requeues after min(base * 2^attempts, cap), or fails the task when the budget is used up |
| StepLaws.PendingLaw | backend/worker/tasks.py:1821-1888 | a pending command is due again after the hint, or after the base delay without one |
| StepLaws.PollLaw | backend/worker/tasks.py:1516-1533 | a check inside its deadline is due again after the hint, or after its own interval without one, or at the deadline if that is sooner |
| StepLaws.DeadlineLaw | backend/worker/tasks.py:1487-1514 | a check at or past its deadline fails with its message and no attempt spent |
| StepLaws.NoDeadlineLaw | backend/worker/tasks.py:1463-1486 | a check without a deadline spends an attempt |
| StepLaws.LoadLaw | backend/worker/tasks.py:1655-1692 | a success opens the transaction on the version read and writes nothing yet |
| StepLaws.CommitLaw | backend/worker/tasks.py:1711-1809 | when version and state match, the state advances, the version counts it, the courier is kept or set, one event is appended, the task is completed and the follow-up with its exact times is queued |
| StepLaws.GuardLaw | backend/worker/tasks.py:1727-1738 | when they do not, only the task is completed |
| StepLaws.ReleaseLaw | backend/worker/tasks.py:2502-2526 | a task no handler knows is queued for later with a note |
| RequestLaws.RequestsRun | backend/api/order_store.py:50-60 | requests wait for nothing but open transactions |
| RequestLaws.IntakeLaw | backend/api/order_store.py:63-162 | a new key makes one placed order, one creation event and one first task due at once, every column given |
| RequestLaws.RepeatLaw | backend/api/order_store.py:164-200 | a known key changes nothing |
| RequestLaws.CancelLaw | backend/api/order_store.py:241-335 | cancelling a live order cancels exactly its pending and running tasks, unlocks them with the operator error, changes no other row, and the event names exactly the rows that changed |
| RequestLaws.NoCancelLaw | backend/api/order_store.py:230-239 | cancelling an unknown or finished order changes nothing |
| RequestLaws.CancelledHasNoWork | backend/api/order_store.py:269-296 | after that the order stays cancelled and has no pending or running task in any later state until an operator retries its failed ones |
| RequestLaws.ReopenLaw | backend/api/task_store.py:52-157 | an operator retry queues exactly the failed rows of the order, due at once with a full budget and a new deadline, sixty seconds if there was none, and one event per row records what was reset |
| RequestLaws.LeaseIsExclusive | backend/worker/tasks.py:470-497 | while nothing else writes the row, nobody can claim a claimed task again within thirty seconds, and from then on any idle worker can when the row is unlocked and none is before it |
| RequestLaws.DueMeansClaimable | backend/worker/tasks.py:476-479 | a queued task can be claimed exactly from its due time on |
| PipelineChanges.NextKeepsInv | backend/worker/tasks.py:2467-2526 | every step of workers, API and crashes keeps the invariant |
| PipelineChanges.RunKeepsInv | backend/worker/tasks.py:2467-2526 | the invariant holds throughout every run |
| PipelineChanges.Classify | backend/worker/tasks.py:1633-1809 | a step changes the tables only as an intake, a hop, a cancellation, a reopening, or one active row rewritten by a worker that completes it only for a cancelled order |
| PipelineTheorems.WorkToken | backend/worker/tasks.py:1633-1809 | each live order has exactly one pending, running or failed task, dispatchable from its state to the next; each passed stage has exactly one completed task; a delivered order has five tasks and no work |
| PipelineTheorems.DedupeKeysUnique | backend/alembic/versions/20260625_0002_add_order_intake_tables.py:150-157 | no two task rows ever share a dedupe key |
| PipelineTheorems.ActiveKeysStayUnique | backend/alembic/versions/20260625_0002_add_order_intake_tables.py:150-157 | the partial unique index holds in every state |
| PipelineTheorems.IntakeNeverRejected | backend/api/order_store.py:120-160 | the plain insert of the first task never violates the index |
| PipelineTheorems.OperatorRetryNeverRejected | backend/api/task_store.py:52-113 | reopening failed tasks never violates the index |
| PipelineTheorems.FollowupNeverSuppressed | backend/worker/tasks.py:1774-1793 | after a hop into a state with a successor, the task for the next hop is in the queue, pending |
| PipelineTheorems.NoUnsupportedTask | backend/worker/tasks.py:2502-2528 | the unsupported-task path is never reached |
| PipelineTheorems.FencingIsExact | backend/worker/tasks.py:755-773 | the ownership check, which has no claim number, passes exactly when nothing has written the row since this worker's claim |
| PipelineTheorems.EveryWriteIsCounted | backend/worker/tasks.py:566-594 | task rows are never deleted and every change of one counts as a write |
| PipelineTheorems.LateWritesAreHarmless | backend/worker/tasks.py:755-773 | a worker whose claim was overtaken or cancelled changes no table in any of its transactions |
| PipelineTheorems.StaleClaimsStayStale | backend/worker/main.py:57-74 | a claim that was overtaken never becomes current again |
| PipelineTheorems.NoStranding | backend/worker/tasks.py:1669-1738 | a task becomes completed only by the commit of its own hop or when its order is already cancelled |
| PipelineTheorems.GuardedUpdateAlwaysMatches | backend/worker/tasks.py:1711-1738 | while the task row is locked nobody moves the order, so the optimistic no-op is unreachable |
| Progress.NoDeadEnd | backend/worker/tasks.py:2467-2526 | from every reachable state every order that is not cancelled can still be delivered, whatever crashed, expired, failed or timed out before |
| Progress.DeliveryHappens | backend/worker/tasks.py:2438-2464 | under every configuration some run delivers an order |
| Progress.ClaimUntil | backend/worker/tasks.py:454-523 | one worker that claims and gives up whatever comes first reaches any claimable task |
| Progress.StopAllWorkers | backend/worker/main.py:57-74 | every worker may die at any point without a trace in the tables |
| EventLog.ReplayGivesState | backend/worker/tasks.py:1711-1773 | folding an order's events gives its state, and its version counts the state-changing ones |
| EventLog.LogShape | backend/api/order_store.py:103-119 | one creation, then transitions of the table with no repeated target, then at most one cancellation |
| EventLog.HopsAreChronological | backend/worker/tasks.py:1766-1793 | hops are stamped in commit order, at least a tick apart |
| EventLog.CourierWrittenOnce | backend/worker/tasks.py:2022-2055 | courier_ref changes exactly at ready -> out_for_delivery, from nothing to what the courier service answered |
| EventLog.CancelledStep | backend/api/order_store.py:214-296 | no step changes a cancelled order or its log, adds a task to it, or adds a worker calling downstream for it |
| EventLog.CancellationIsFinal | backend/api/order_store.py:203-337 | the same over whole runs, whatever answers, reclaims and operator retries follow |
| EventLog.NoCallWhenCancelled | backend/worker/tasks.py:1022-1033 | preparing a task of a cancelled order never yields a call |
| EventLog.PreparedCallIsExact | backend/worker/tasks.py:1253-1297 | an owned task of an order that is not cancelled always yields its call, with the right reference and the time of the event that began the stage: the fallback and the missing-data retries are dead |
| EventLog.AttemptAccounting | backend/worker/tasks.py:776-994 | attempts counts the errors since creation or the last operator retry; active rows have budget left; a failed row has none left exactly when it did not time out |
| EventLog.PollsAreFree | backend/worker/tasks.py:818-853 | a "not yet" answer never changes the attempts of any task |
| Intake.IntakeRefinesFirstWriter | backend/api/order_store.py:50-200 | in any run every create request is answered as the first-writer-wins map of the earlier requests says, and a request that is not accepted changes no table |
| Intake.OneAcceptedPerKey | backend/api/order_store.py:164-200 | of all requests with a key exactly the first is accepted; equal repeats get its order, different bodies a conflict naming it |
| Intake.OneOrderPerKey | backend/api/order_store.py:63-162 | a key has at most one order, with exactly one creation event and one initial task |
| ClaimFairness.Recoverable | backend/worker/tasks.py:470-485 | every queued or leased task has a finite time from which the claim query considers it, at most one lease away when leased |
| ClaimFairness.ClaimOrderIsTotal | backend/worker/tasks.py:486 | the claim order is a strict total order |
| ClaimFairness.CandidateIsUnique | backend/worker/tasks.py:486-489 | at most one row is the candidate |
| ClaimFairness.CandidateExists | backend/worker/tasks.py:470-489 | some row is the candidate whenever one is eligible |
| ClaimFairness.RowsAreStamped | backend/worker/tasks.py:490-497 | every row a step writes carries the stamp of that step or a later clock |
| ClaimFairness.ClaimMovesBehind | backend/worker/tasks.py:470-497 | a claim that passes a waiting row over takes a row ahead of it and puts it behind |
| ClaimFairness.BoundedBypass | backend/worker/tasks.py:470-497 | while a claimable task waits and writes are stamped after it, at most as many claims succeed as rows were ahead of it |
| PunctualBypass.PunctualBypass | backend/worker/tasks.py:470-497 | under a strictly increasing clock with every transaction stamped as it runs, the same without any assumption on single stamps |
| PunctualBypass.RunIsStamped | backend/worker/tasks.py:490-497 | in such runs every row was written strictly before now and before the open transaction |
| PollTermination.FuelBurns | backend/worker/tasks.py:1487-1527 | between operator retries no step adds to a check task's error budget plus polling time, and every finished round uses some up |
| PollTermination.RoundsAreBounded | backend/worker/tasks.py:2381-2421 | along any run without an operator retry a check task goes through at most that many rounds |
| Backoff.DelayMonotone | backend/worker/tasks.py:330-341 | more failures never mean a shorter wait |
| Backoff.UncappedFirst | backend/worker/tasks.py:330-341 | the waits the cap leaves alone are exactly the first k |
| Backoff.TotalWaitClosedForm | backend/worker/tasks.py:330-341 | n waits sum to base * (2^k - 1) + (n - k) * cap, k of them uncapped |
| Backoff.TotalWaitBounds | backend/worker/tasks.py:330-341 | the sum is at most base * (2^n - 1) and at most n * cap |
| Backoff.WaitsFollowBackoff | backend/worker/tasks.py:945-977 | in every run the waits since creation or the last operator retry are exactly the first `attempts` backoffs |
| Backoff.ExhaustedTaskWaited | backend/worker/tasks.py:1945-1968 | a task that exhausted m attempts has waited the closed form of m - 1 waits, within both bounds |
| Deadlines.DeadlineFollowsLaw | backend/api/task_store.py:75-86 | in every reachable state the deadline column is the one the task's own history of operator retries gives; command tasks have none |
| Deadlines.DeadlineLaw | backend/api/task_store.py:75-86 | after retries R1..Rn it is Rn + W + the sum over i < n of Ri - created_at |
| Deadlines.SecondWindow | backend/api/task_store.py:47-86 | the first retry grants the original window; when exactly the second one does too |
| Deadlines.LaterWindows | backend/api/task_store.py:47-86 | a later retry grants the original window exactly when all earlier ones were stamped at the task's creation, and never less |
| Deadlines.SecondWindowExample | backend/api/task_store.py:47-86 | the row update applied twice: a 60 s window that a second retry turns into 160 s |
| Deadlines.DeadlineNeverEarlier | backend/api/task_store.py:75-86 | no operator retry moves a deadline to before the original one |
| Deadlines.TimelyPollBeatsDeadline | backend/worker/tasks.py:1487-1514 | a poll answered by the simulator and judged within the budget passes its deadline check |
| Deadlines.TimelyRunsNeverTimeOut | backend/worker/tasks.py:2381-2408 | if simulator delay plus lag fits the poll window, and no operator retry is stamped before its task existed, every failed task of any run has spent all its attempts: none failed by deadline, operator retries included |
| Simulator.ReadDelayRange | backend/downstream_sim/app.py:219-246 | whatever the environment holds, the range is positive and ordered |
| Simulator.Delay | backend/downstream_sim/app.py:256-282 | the delay of an order lies in the configured range |
| Simulator.DelayInterpolates | backend/downstream_sim/app.py:219-282 | the delay is the point of the unit hash between the two bounds, with every fallback of the bounds |
| Simulator.AnswerTime | backend/downstream_sim/app.py:312-320 | ready exactly from that delay after the start on, and the configured retry hint until then |
| Simulator.AnswersSwitchOnce | backend/downstream_sim/app.py:285-320 | answers switch once, from "not yet" to ready, inside the configured range |
| Simulator.DegenerateRanges | backend/downstream_sim/app.py:232-246 | a misordered range acts as its minimum; without bounds the fixed delay decides |
| Dashboard.WindowFollowsLog | backend/api/dashboard_store.py:565-600 | in every reachable state the window reads an order's hops in log order exactly when the hop into out_for_delivery does not tie with the one into ready |
| LatencyTie.TieIsReachable | backend/api/dashboard_store.py:586-589 | under a clock that may stand still some reachable order has that tie, and no sorted listing of its rows is its log |
| Dashboard.RankIsAlphabetical | backend/api/dashboard_store.py:586-589 | the ranks break ties as the names of the states sort |
| Dashboard.StrictClockHasNoTies | backend/api/dashboard_store.py:586-589 | a strictly increasing clock rules that tie out |
| Dashboard.LatencyTelescopes | backend/api/dashboard_store.py:524-600 | for every delivered order the lag pairs are exactly the five hops, each of positive duration, and they sum to the duration of the pipeline query |
| Dashboard.NoSilentStall | backend/api/dashboard_store.py:301-389 | a live order is missing from the attention set exactly when it is younger than the service level, was updated within the threshold of its state, and its only live task is queued or leased without error |
| AttentionLaws.AttentionExactly | backend/api/dashboard_store.py:301-389 | an order is called to attention exactly when it is live and its creation event is at least the service level old, or it overstayed its state, or one of its tasks failed, lost its lease or carries an error |
| AttentionLaws.OverdueStaysListed | backend/api/dashboard_store.py:376-380 | once an order's creation event is that old, it is called to attention then and in every later state while it is live |
| AttentionLaws.SeverityRanks | backend/api/dashboard_store.py:447-455 | the six ranks and their order |
| Dashboard.AttentionOverview | backend/api/dashboard_store.py:391-470 | run on the first fifty rows of a listing that carries its own length, the loader reports the number of all attention orders, and its items are the first of them without the count column |
| Dashboard.UrgentOrdersAreListed | backend/api/dashboard_store.py:447-459 | while at most fifty orders are of some severity or worse, the page lists all of them |
| LoadSteps.LoadIsConserved | backend/loadgen/app.py:122-327 | at every suspension point attempted = successful + failed + uncounted sends, successful = created + reused, and free, held and sending permits add up to the limit |
| LoadSteps.KeysAreUnique | backend/loadgen/app.py:259-299 | no two sends carry the same idempotency key |
| LoadLaws.CountersCountAnswers | backend/loadgen/app.py:292-327 | in every state of every run the created, reused and failed counters are the numbers of 201 answers, 200 answers and other outcomes since the last accepted start |
| LoadLaws.StartLaw | backend/loadgen/app.py:122-159 | a start is refused while running or draining, otherwise begins a new run with cleared counters |
| LoadLaws.StopLaw | backend/loadgen/app.py:161-185 | what a stop does up to its first await |
| LoadLaws.StretchLaw | backend/loadgen/app.py:227-257 | one stretch of the producer loop sends exactly as many orders as are due, as permits allow and as the run still asks for, numbered on from the counter, and ends asleep, queued or exited accordingly |
| LoadLaws.TimeOutLaw | backend/loadgen/app.py:246-257 | a producer whose send time has come sends if the run is on and a permit is free, queues without one, exits after a stop |
| LoadLaws.ResumeLaw | backend/loadgen/app.py:259-278 | a producer handed a permit sends with it, or gives it back after a stop |
| LoadLaws.SmallStepsLaw | backend/loadgen/app.py:161-185 | the rest of a stop, the hand-over of a permit, an answer and the done callback |
| LoadLaws.StepsRun | backend/loadgen/app.py:227-278 | exactly when each step of the loop can run |
| LoadSteps.OrderLimitHolds | backend/loadgen/app.py:227-278 | however starts and stops overlap, attempted never exceeds max_orders, and is below it while the run is on |
| LoadSteps.FinalCountsAreComplete | backend/loadgen/app.py:161-185 | when a stop returns and no start was accepted since it began, attempted = successful + failed and the run is over |
| LoadSteps.OneProducerExactly | backend/loadgen/app.py:122-185 | in any run there is never more than one producer alive if and only if no start is accepted while a stop still waits for a producer that has not exited |
| LoadSteps.OverlapKeepsOldProducer | backend/loadgen/app.py:122-185 | a run in which a start is accepted while a stop waits: the old producer wakes to a running generator and both send for the new run |
| LoadGenerator.LoadGenerator.constructor | backend/loadgen/app.py:85-109 | a new generator is idle with all permits free |
| LoadGenerator.LoadGenerator.Start | backend/loadgen/app.py:122-159 | refuses while running or draining, otherwise resets the counters and adds one producer |
| LoadGenerator.LoadGenerator.BeginStop | backend/loadgen/app.py:161-185 | clears the running flag and awaits the newest producer if it was set, otherwise goes on to the requests in flight; if it returns, the counts are complete |
| LoadGenerator.LoadGenerator.CollectInflight | backend/loadgen/app.py:177-185 | waits for a snapshot that holds every uncounted send, or returns with complete counts |
| LoadGenerator.LoadGenerator.FinishStop | backend/loadgen/app.py:181-185 | returns once everything in the snapshot is done |
| LoadGenerator.LoadGenerator.CheckProducer | backend/loadgen/app.py:231-257 | the loop goes on exactly while the run is on, below its limit and due; reaching the limit ends the run |
| LoadGenerator.LoadGenerator.RunProducerLoop | backend/loadgen/app.py:227-257 | from its top to its next suspension the loop sends, queues, sleeps or exits exactly as the step function says |
| LoadGenerator.LoadGenerator.SendOrQueue | backend/loadgen/app.py:259-278 | launches at once exactly when a permit is free and nobody is queued before it |
| LoadGenerator.LoadGenerator.TimeOutProducer | backend/loadgen/app.py:246-257 | a producer whose send time has come launches without another look at the top of the loop |
| LoadGenerator.LoadGenerator.ResumeProducer | backend/loadgen/app.py:259-278 | a producer handed a permit launches if the run is still on, otherwise gives it back, and goes on |
| LoadGenerator.LoadGenerator.AcquirePermit | backend/loadgen/app.py:261 | takes one permit |
| LoadGenerator.LoadGenerator.LaunchOrderRequest | backend/loadgen/app.py:259-278 | a launch happens exactly while running, with a sequence number above all of its run; otherwise the permit goes back |
| LoadGenerator.LoadGenerator.RecordOutcome | backend/loadgen/app.py:280-327 | a created order counts as created, a reused one as reused, anything else as failed, and the permit comes back |
| LoadGenerator.LoadGenerator.DiscardSend | backend/loadgen/app.py:277-278 | the done callback removes only a counted send |
| WorkerLoop.RunTaskPollLoop | backend/worker/main.py:53-80 | an empty or failed poll sleeps 100 ms doubled for each such poll before it, at most 1 s, again from 100 ms after work; the loop ends at the first look at a set stop event, which may be the first, and lets the poll under way finish |

## Left out

- HTTP transport, JSON shape checks, routes, CORS, connection pools, logging, heartbeats and the claim-log cache; downstream outcomes are an arbitrary choice instead.
- Exactly-once downstream calls: the code makes them at-least-once; only database effects are modelled as unique.
- Deadlock freedom: workers lock task then order, cancel locks order then tasks; the loser of a deadlock is a step that does not happen.
- Blocking: a transaction that waits for a row lock is a step not enabled yet; fairness of lock waits is not modelled. Statements of one transaction other than a finalizing one are taken together, and `now()` is the clock when the step runs.
- Order state `failed`, `check_pickup` tasks, pickup events, `delivered_at` and lease renewal: no code produces them.
- Liveness of `advance_state` polls: they have no deadline, so a service that says "not yet" for ever keeps them going.
- Order of `cancelled_at` against transitions: it is read before the lock is taken, so it may be older than the last hop.
- Freshness of uuids is assumed: new order, task and run ids are unused ones. Ids are numbers; the dedupe key is the triple its text is built from.
- SHA-256 is an uninterpreted number in the unit interval, and simulator delays are real numbers without rounding; `_utc_datetime` has no counterpart because all times share one clock.
- Environment parsing of the worker settings: any positive values are allowed, and `max_attempts` is any positive number instead of the column default 5.
- The texts of error messages are the code's where it has fixed ones; the unsupported-task text omits the type and target it quotes, and `_short_error` truncation is not modelled.
- Percentiles, averages, rounding, rolling windows, `_count_map`, the other dashboard lists, kill switches, the React dashboard, Alembic mechanics and Compose files: display, setup or easy members.
- Rates and wake-ups of the load generator: how many orders a producer sends before it sleeps and when it wakes is an arbitrary choice, and `update_rate` therefore has no effect to model. Sends end in a response or a counted HTTP error.
- The order in which the semaphore serves queued producers: any of them may be handed a free permit, possibly later than it becomes free.
- Dashboard.LatencyTelescopes: the rolling-window filters of the two queries are not applied; it compares the rows before them.
- PunctualBypass.PunctualBypass: its runs do not interleave a finalizing transaction with other steps; BoundedBypass covers those that do.
- Dashboard.AttentionOverview: the secondary sort keys of the page and the lateral join that shows each order's latest task are not modelled.
- ClaimFairness.BoundedBypass: says how often a waiting task is passed over, not that workers keep claiming.
- Progress.NoDeadEnd: says that delivery stays possible, not that it happens; that would need fair workers and services that answer.
- OrderDatabase.OrderDatabase.ClaimOneTask: the rows other transactions have locked are a parameter; SKIP LOCKED itself is not modelled.
