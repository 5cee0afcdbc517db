/** What each database transaction of the workers and of the API does to the three tables.
    `now` is the database clock when the transaction runs; `at` is the timestamp its caller
    took before opening it. */
module Transactions {
  import opened Optional
  import opened OrderLifecycle
  import opened Rows
  import opened Settings
  import opened TransitionSpecs

  datatype Action =
    | Transitioned
    | RetryScheduled
    | Exhausted
    | TimedOut
    | MissingTask
    | NotRunning
    | LostOwnership
    | TerminalNoop
    | StaleNoop
    | OptimisticNoop
    | PollScheduled
    | Released

  datatype TxResult = TxResult(db: Db, action: Action)

  const MISSING_COURIER_ERROR := "missing courier_ref for check_delivery"
  const UNSUPPORTED_ERROR := "unsupported task; waiting for handler"
  const CANCELLED_REASON := "operator_cancelled"
  const CANCELLED_TASK_ERROR := "order cancelled by operator"

  function TimeoutError(handler: Handler): string {
    if handler.ReadyCheck? then "restaurant ready deadline exceeded"
    else "courier delivery deadline exceeded"
  }

  function MissingDeadlineError(handler: Handler): string {
    if handler.ReadyCheck? then "check_ready task is missing deadline_at"
    else "check_delivery task is missing deadline_at"
  }

  function MissingEventError(handler: Handler): string {
    if handler.ReadyCheck? then "missing confirmed -> preparing event for check_ready"
    else "missing ready -> out_for_delivery event for check_delivery"
  }

  // ---------------------------------------------------------------- row updates

  /** The touch_updated_at trigger: an update that leaves updated_at as it was gets the
      database clock instead. */
  function TouchedAt(previous: Time, at: Time, now: Time): Time {
    if at == previous then now else at
  }

  function ClaimedRow(cfg: Config, row: Task, w: WorkerId, now: Time): Task {
    row.(status := Running, lockedBy := Some(w), lockedUntil := Some(now + Lease(cfg)),
         updatedAt := now)
  }

  /** A row leaving a lease, with its new status. */
  function Unleased(row: Task, status: TaskStatus, lastError: Option<string>, at: Time, now: Time): Task {
    row.(status := status, lastError := lastError, lockedBy := None, lockedUntil := None,
         updatedAt := TouchedAt(row.updatedAt, at, now))
  }

  function CompletedRow(row: Task, at: Time, now: Time): Task {
    Unleased(row, Completed, None, at, now).(completedAt := Some(at))
  }

  function RetriedRow(row: Task, next: Time, error: string, at: Time, now: Time): Task {
    Unleased(row, Pending, Some(error), at, now).(attempts := row.attempts + 1, nextRunAt := next)
  }

  function PolledRow(row: Task, next: Time, at: Time, now: Time): Task {
    Unleased(row, Pending, None, at, now).(nextRunAt := next)
  }

  function ExhaustedRow(row: Task, error: string, at: Time, now: Time): Task {
    Unleased(row, TaskFailed, Some(error), at, now).(attempts := row.attempts + 1)
  }

  function TimedOutRow(row: Task, error: string, at: Time, now: Time): Task {
    Unleased(row, TaskFailed, Some(error), at, now)
  }

  function ReleasedRow(row: Task, next: Option<Time>, error: Option<string>, at: Time, now: Time): Task {
    Unleased(row, Pending, if error.Some? then error else row.lastError, at, now)
      .(nextRunAt := next.GetOr(row.nextRunAt))
  }

  function CancelledRow(row: Task, at: Time, now: Time): Task {
    Unleased(row, TaskCancelled, Some(CANCELLED_TASK_ERROR), at, now)
  }

  /** The deadline an operator retry gives a failed task. */
  function ReopenedDeadline(cfg: Config, row: Task, at: Time): Option<Time> {
    if row.IsCheck() then
      var window := match row.deadlineAt
                    case Some(d) => d - row.createdAt
                    case None => FALLBACK_WINDOW_SECONDS * cfg.second;
      Some(at + Max(window, cfg.second))
    else
      row.deadlineAt
  }

  function ReopenedRow(cfg: Config, row: Task, at: Time, now: Time): Task {
    Unleased(row, Pending, None, at, now)
      .(attempts := 0, nextRunAt := at, deadlineAt := ReopenedDeadline(cfg, row, at),
        completedAt := None)
  }

  function WithTask(db: Db, t: TaskId, row: Task): Db {
    db.(tasks := db.tasks[t := row])
  }

  // ---------------------------------------------------------------- claiming

  predicate Claimable(row: Task, now: Time) {
    || (row.status == Pending && row.nextRunAt <= now)
    || (row.status == Running && row.lockedUntil.Some? && row.lockedUntil.value < now)
  }

  /** `order by updated_at, next_run_at, created_at, id`. */
  predicate ClaimsBefore(a: Task, aId: TaskId, b: Task, bId: TaskId) {
    a.updatedAt < b.updatedAt || (a.updatedAt == b.updatedAt && (
      a.nextRunAt < b.nextRunAt || (a.nextRunAt == b.nextRunAt && (
        a.createdAt < b.createdAt || (a.createdAt == b.createdAt && aId < bId)))))
  }

  predicate Eligible(tasks: map<TaskId, Task>, locked: set<TaskId>, now: Time, t: TaskId) {
    t in tasks && t !in locked && Claimable(tasks[t], now)
  }

  /** The row `for update skip locked limit 1` returns when `locked` rows are skipped. */
  predicate IsCandidate(tasks: map<TaskId, Task>, locked: set<TaskId>, now: Time, t: TaskId) {
    && Eligible(tasks, locked, now, t)
    && forall u :: u in tasks && u != t && Eligible(tasks, locked, now, u) ==>
                     ClaimsBefore(tasks[t], t, tasks[u], u)
  }

  function Claim(cfg: Config, db: Db, now: Time, t: TaskId, w: WorkerId): Db
    requires t in db.tasks
  {
    WithTask(db, t, ClaimedRow(cfg, db.tasks[t], w, now))
  }

  // ---------------------------------------------------------------- ownership

  /** _owned_task_check_result over the row the code loaded; None means "still ours". */
  function OwnershipCheck(row: Option<Task>, w: WorkerId): Option<Action> {
    match row
    case None => Some(MissingTask)
    case Some(r) =>
      if r.status != Running then Some(NotRunning)
      else if r.lockedBy != Some(w) then Some(LostOwnership)
      else None
  }

  function FindTask(db: Db, t: TaskId): Option<Task> {
    if t in db.tasks then Some(db.tasks[t]) else None
  }

  /** The task row of the `order_tasks join orders` queries. */
  function JoinedTask(db: Db, t: TaskId): Option<Task> {
    if t in db.tasks && db.tasks[t].orderId in db.orders then Some(db.tasks[t]) else None
  }

  predicate Owned(db: Db, t: TaskId, w: WorkerId) {
    OwnershipCheck(FindTask(db, t), w) == None
  }

  predicate OwnedJoined(db: Db, t: TaskId, w: WorkerId) {
    OwnershipCheck(JoinedTask(db, t), w) == None
  }

  function OrderOf(db: Db, t: TaskId): Order
    requires t in db.tasks && db.tasks[t].orderId in db.orders
  {
    db.orders[db.tasks[t].orderId]
  }

  /** The checks all worker transactions but one share: skip when not ours, complete as a
      no-op when the order is terminal or has left the source state. None means "go on". */
  function Settle(db: Db, now: Time, t: TaskId, w: WorkerId, source: OrderState, at: Time): (r: Option<TxResult>)
    ensures r == None ==> OwnedJoined(db, t, w) && OrderOf(db, t).state == source
  {
    match OwnershipCheck(JoinedTask(db, t), w)
    case Some(skip) => Some(TxResult(db, skip))
    case None =>
      if IsTerminal(OrderOf(db, t).state) then
        Some(TxResult(WithTask(db, t, CompletedRow(db.tasks[t], at, now)), TerminalNoop))
      else if OrderOf(db, t).state != source then
        Some(TxResult(WithTask(db, t, CompletedRow(db.tasks[t], at, now)), StaleNoop))
      else
        None
  }

  /** _retry_or_fail_claimed_task. */
  function RetryOrFail(cfg: Config, db: Db, now: Time, t: TaskId, error: string, at: Time): TxResult
    requires t in db.tasks
  {
    var row := db.tasks[t];
    if row.attempts + 1 >= row.maxAttempts then
      TxResult(WithTask(db, t, ExhaustedRow(row, error, at, now)), Exhausted)
    else
      var next := at + RetryDelay(cfg, row.attempts);
      TxResult(WithTask(db, t, RetriedRow(row, next, error, at, now)), RetryScheduled)
  }

  // ---------------------------------------------------------------- prepare

  /** What a worker sends downstream: the reference it names and the time the simulator
      measures its delay from. */
  datatype DownstreamCall = DownstreamCall(orderId: OrderId, ref: string, startedAt: Time)

  datatype PrepareResult = Stop(tx: TxResult) | Proceed(call: DownstreamCall)

  function SourceQuery(o: OrderId, handler: Handler): EventQuery {
    match handler
    case ReadyCheck => HopBetween(o, Confirmed, Preparing)
    case DeliveryCheck => HopBetween(o, Ready, OutForDelivery)
    case _ => IntoState(o, SpecOf(handler).source)
  }

  function Prepare(cfg: Config, db: Db, now: Time, t: TaskId, w: WorkerId, handler: Handler, at: Time): PrepareResult {
    match Settle(db, now, t, w, SpecOf(handler).source, at)
    case Some(tx) => Stop(tx)
    case None =>
      var row, order := db.tasks[t], OrderOf(db, t);
      var started := LatestOccurrence(Select(db.events, SourceQuery(row.orderId, handler)));
      if handler.Polls() then
        if row.deadlineAt == None then
          Stop(RetryOrFail(cfg, db, now, t, MissingDeadlineError(handler), at))
        else if started == None then
          Stop(RetryOrFail(cfg, db, now, t, MissingEventError(handler), at))
        else if handler.DeliveryCheck? then
          if order.courierRef == None then
            Stop(RetryOrFail(cfg, db, now, t, MISSING_COURIER_ERROR, at))
          else
            Proceed(DownstreamCall(row.orderId, order.courierRef.value, started.value))
        else
          Proceed(DownstreamCall(row.orderId, order.restaurantRef, started.value))
      else
        Proceed(DownstreamCall(row.orderId, order.restaurantRef, started.GetOr(order.updatedAt)))
  }

  // ---------------------------------------------------------------- after the call

  /** A failed call. Command tasks do not look at the order again before spending an
      attempt (backend/worker/tasks.py:1891-1984); poll tasks do. */
  function FinishError(cfg: Config, db: Db, now: Time, t: TaskId, w: WorkerId, handler: Handler, error: string,
                       at: Time): TxResult {
    if handler.Polls() then
      match Settle(db, now, t, w, SpecOf(handler).source, at)
      case Some(tx) => tx
      case None => RetryOrFail(cfg, db, now, t, error, at)
    else
      match OwnershipCheck(FindTask(db, t), w)
      case Some(skip) => TxResult(db, skip)
      case None => RetryOrFail(cfg, db, now, t, error, at)
  }

  /** A valid "not yet" answer. */
  function FinishNotYet(cfg: Config, db: Db, now: Time, t: TaskId, w: WorkerId, handler: Handler, hint: Option<int>,
                        at: Time): TxResult {
    match Settle(db, now, t, w, SpecOf(handler).source, at)
    case Some(tx) => tx
    case None =>
      var row := db.tasks[t];
      var delay := HintOr(hint, PollInterval(cfg, handler));
      if !handler.Polls() then
        TxResult(WithTask(db, t, PolledRow(row, at + delay, at, now)), PollScheduled)
      else if row.deadlineAt == None then
        RetryOrFail(cfg, db, now, t, MissingDeadlineError(handler), at)
      else if at >= row.deadlineAt.value then
        TxResult(WithTask(db, t, TimedOutRow(row, TimeoutError(handler), at, now)), TimedOut)
      else
        var next := BoundedPoll(at, delay, row.deadlineAt.value);
        TxResult(WithTask(db, t, PolledRow(row, next, at, now)), PollScheduled)
  }

  datatype LoadResult = LoadStop(tx: TxResult) | Loaded(version: int)

  /** The first half of _finalize_transition_task: lock the task row and read the order. */
  function LoadForTransition(db: Db, now: Time, t: TaskId, w: WorkerId, source: OrderState, at: Time): LoadResult {
    match Settle(db, now, t, w, source, at)
    case Some(tx) => LoadStop(tx)
    case None => Loaded(OrderOf(db, t).version)
  }

  predicate ActiveKey(tasks: map<TaskId, Task>, key: DedupeKey) {
    exists u :: u in tasks && tasks[u].Active() && tasks[u].dedupeKey == Some(key)
  }

  function NewTask(cfg: Config, o: OrderId, taskType: TaskType, target: OrderState, plan: Schedule, at: Time): Task {
    Task(o, taskType, Some(target), Pending, 0, cfg.maxAttempts, plan.nextRunAt, plan.deadlineAt,
         None, None, Some(DedupeKey(o, taskType, target)), None, at, at, None)
  }

  /** `insert ... on conflict (dedupe_key) do nothing`. */
  function InsertFollowup(tasks: map<TaskId, Task>, t: TaskId, row: Task): map<TaskId, Task>
    requires row.dedupeKey.Some?
  {
    if ActiveKey(tasks, row.dedupeKey.value) then tasks else tasks[t := row]
  }

  function TransitionedOrder(order: Order, spec: TransitionSpec, courier: Option<string>, at: Time, now: Time): Order {
    order.(state := spec.target, version := order.version + 1,
           updatedAt := TouchedAt(order.updatedAt, at, now),
           courierRef := if courier.Some? then courier else order.courierRef)
  }

  function TransitionEvent(o: OrderId, spec: TransitionSpec, t: TaskId, w: WorkerId, at: Time): Event {
    Event(o, StateTransition, Some(spec.source), Some(spec.target), Some(t), Some(w), at, NoMetadata)
  }

  function WithFollowup(cfg: Config, tasks: map<TaskId, Task>, o: OrderId, spec: TransitionSpec, newId: TaskId,
                        at: Time): map<TaskId, Task> {
    if spec.nextType.Some? && spec.nextTarget.Some? then
      InsertFollowup(tasks, newId,
                     NewTask(cfg, o, spec.nextType.value, spec.nextTarget.value,
                             FollowupSchedule(cfg, spec, at), at))
    else tasks
  }

  /** The second half: the guarded order update and everything that commits with it. */
  function CommitTransition(cfg: Config, db: Db, now: Time, t: TaskId, w: WorkerId, spec: TransitionSpec,
                            readVersion: int, courier: Option<string>, newId: TaskId, at: Time): TxResult
    requires t in db.tasks && db.tasks[t].orderId in db.orders
  {
    var row, order := db.tasks[t], OrderOf(db, t);
    if order.version != readVersion || order.state != spec.source then
      TxResult(WithTask(db, t, CompletedRow(row, at, now)), OptimisticNoop)
    else
      TxResult(
        Db(db.orders[row.orderId := TransitionedOrder(order, spec, courier, at, now)],
           WithFollowup(cfg, db.tasks, row.orderId, spec, newId, at)[t := CompletedRow(row, at, now)],
           db.events + [TransitionEvent(row.orderId, spec, t, w, at)]),
        Transitioned)
  }

  /** release_claimed_task, as the unsupported-task path calls it. */
  function ReleaseUnsupported(cfg: Config, db: Db, now: Time, t: TaskId, w: WorkerId, at: Time): TxResult {
    if Owned(db, t, w) then
      TxResult(WithTask(db, t,
                        ReleasedRow(db.tasks[t], Some(at + cfg.unsupportedDelay), Some(UNSUPPORTED_ERROR), at,
                                    now)), Released)
    else
      TxResult(db, LostOwnership)
  }

  // ---------------------------------------------------------------- API: intake

  datatype CreateOutcome =
    | Accepted(orderId: OrderId)
    | Reused(orderId: OrderId)
    | Conflict(orderId: OrderId)
    | Rejected

  datatype CreateResult = CreateResult(db: Db, outcome: CreateOutcome)

  datatype OrderRequest = OrderRequest(key: string, restaurantRef: string, customerRef: Option<string>)

  predicate HasKey(orders: map<OrderId, Order>, o: OrderId, key: string) {
    o in orders && orders[o].idempotencyKey == key
  }

  predicate KeyTaken(orders: map<OrderId, Order>, key: string) {
    exists o :: o in orders && HasKey(orders, o, key)
  }

  predicate SameBody(order: Order, req: OrderRequest) {
    order.restaurantRef == req.restaurantRef && order.customerRef == req.customerRef
  }

  function NewOrder(req: OrderRequest, at: Time): Order {
    Order(req.key, Placed, 0, req.customerRef, req.restaurantRef, None, None, at, at, None)
  }

  function CreationEvent(o: OrderId, at: Time): Event {
    Event(o, OrderCreated, None, None, None, None, at, NoMetadata)
  }

  function FirstTask(cfg: Config, o: OrderId, at: Time): Task {
    NewTask(cfg, o, AdvanceState, Confirmed, Schedule(at, None), at)
  }

  function WithAccepted(cfg: Config, db: Db, req: OrderRequest, o: OrderId, t: TaskId, at: Time): Db {
    Db(db.orders[o := NewOrder(req, at)], db.tasks[t := FirstTask(cfg, o, at)],
       db.events + [CreationEvent(o, at)])
  }

  /** create_or_get_order with the fresh ids it draws. Rejected is the unique violation the
      plain insert of the first task would raise; the transaction then rolls back. */
  ghost function CreateOrGet(cfg: Config, db: Db, req: OrderRequest, o: OrderId, t: TaskId, at: Time): CreateResult {
    if KeyTaken(db.orders, req.key) then
      var existing :| existing in db.orders && HasKey(db.orders, existing, req.key);
      if SameBody(db.orders[existing], req) then CreateResult(db, Reused(existing))
      else CreateResult(db, Conflict(existing))
    else if ActiveKey(db.tasks, DedupeKey(o, AdvanceState, Confirmed)) then
      CreateResult(db, Rejected)
    else
      CreateResult(WithAccepted(cfg, db, req, o, t, at), Accepted(o))
  }

  // ---------------------------------------------------------------- API: cancel

  datatype CancelOutcome = NoSuchOrder | AlreadyTerminal | CancelledNow

  datatype CancelResult = CancelResult(db: Db, outcome: CancelOutcome)

  function OpenTasks(tasks: map<TaskId, Task>, o: OrderId): set<TaskId> {
    set t | t in tasks && tasks[t].orderId == o && tasks[t].Active()
  }

  function CancelledOrder(order: Order, at: Time, now: Time): Order {
    order.(state := Cancelled, version := order.version + 1, terminalReason := Some(CANCELLED_REASON),
           cancelledAt := if order.cancelledAt.Some? then order.cancelledAt else Some(at),
           updatedAt := TouchedAt(order.updatedAt, at, now))
  }

  function CancelEvent(o: OrderId, from: OrderState, open: set<TaskId>, at: Time): Event {
    Event(o, OrderCancelled, Some(from), Some(Cancelled), None, None, at, CancelMetadata(open))
  }

  function WithCancelledTasks(tasks: map<TaskId, Task>, open: set<TaskId>, at: Time, now: Time): map<TaskId, Task> {
    map t | t in tasks :: if t in open then CancelledRow(tasks[t], at, now) else tasks[t]
  }

  function CancelOrder(db: Db, now: Time, o: OrderId, at: Time): CancelResult {
    if o !in db.orders then CancelResult(db, NoSuchOrder)
    else if IsTerminal(db.orders[o].state) then CancelResult(db, AlreadyTerminal)
    else
      var open := OpenTasks(db.tasks, o);
      CancelResult(Db(db.orders[o := CancelledOrder(db.orders[o], at, now)],
                      WithCancelledTasks(db.tasks, open, at, now),
                      db.events + [CancelEvent(o, db.orders[o].state, open, at)]),
                   CancelledNow)
  }

  // ---------------------------------------------------------------- API: operator retry

  datatype RetryOutcome = UnknownOrder | UniqueViolation | Reopened

  datatype RetryResult = RetryResult(db: Db, outcome: RetryOutcome)

  function FailedTasks(tasks: map<TaskId, Task>, o: OrderId): set<TaskId> {
    set t | t in tasks && tasks[t].orderId == o && tasks[t].status == TaskFailed
  }

  /** `ids` lists the set once each, in whatever order the database returned the rows. */
  ghost predicate Lists(ids: seq<TaskId>, s: set<TaskId>) {
    && (forall t :: t in ids <==> t in s)
    && (forall i, j :: 0 <= i < j < |ids| ==> ids[i] != ids[j])
  }

  function WithReopenedTasks(cfg: Config, tasks: map<TaskId, Task>, failed: set<TaskId>, at: Time,
                             now: Time): map<TaskId, Task> {
    map t | t in tasks :: if t in failed then ReopenedRow(cfg, tasks[t], at, now) else tasks[t]
  }

  function ReopenEvent(o: OrderId, t: TaskId, row: Task, at: Time): Event {
    Event(o, RetryEvent, None, None, Some(t), None, at,
          RetryMetadata(row.taskType, row.target, row.attempts, row.maxAttempts, row.lastError))
  }

  function ReopenEvents(tasks: map<TaskId, Task>, o: OrderId, ids: seq<TaskId>, at: Time): (events: seq<Event>)
    requires forall t :: t in ids ==> t in tasks
    ensures |events| == |ids|
    ensures forall i :: 0 <= i < |ids| ==> events[i] == ReopenEvent(o, ids[i], tasks[ids[i]], at)
  {
    if ids == [] then []
    else ReopenEvents(tasks, o, ids[..|ids| - 1], at)
         + [ReopenEvent(o, ids[|ids| - 1], tasks[ids[|ids| - 1]], at)]
  }

  /** The partial unique index on dedupe_key. */
  predicate ActiveKeysUnique(tasks: map<TaskId, Task>) {
    forall t, u ::
      (t in tasks && u in tasks && t != u && tasks[t].Active() && tasks[u].Active()
       && tasks[t].dedupeKey.Some?) ==> tasks[t].dedupeKey != tasks[u].dedupeKey
  }

  ghost function RetryFailed(cfg: Config, db: Db, now: Time, o: OrderId, ids: seq<TaskId>, at: Time): RetryResult
    requires Lists(ids, FailedTasks(db.tasks, o))
  {
    if o !in db.orders then RetryResult(db, UnknownOrder)
    else
      var tasks := WithReopenedTasks(cfg, db.tasks, FailedTasks(db.tasks, o), at, now);
      if !ActiveKeysUnique(tasks) then RetryResult(db, UniqueViolation)
      else RetryResult(Db(db.orders, tasks, db.events + ReopenEvents(db.tasks, o, ids, at)), Reopened)
  }
}
