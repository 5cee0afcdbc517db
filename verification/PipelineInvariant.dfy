/** The inductive invariant of the pipeline, order by order. */
module PipelineInvariant {
  import opened Optional
  import opened OrderLifecycle
  import opened Rows
  import opened Settings
  import opened TransitionSpecs
  import opened Transactions
  import opened Pipeline

  /** The lifecycle events of an order, in commit order. */
  function Log(s: System, o: OrderId): seq<Event> {
    Select(s.db.events, LifecycleOf(o))
  }

  /** Transitions a log records. */
  function Hops(order: Order, log: seq<Event>): int {
    |log| - 1 - (if order.state == Cancelled then 1 else 0)
  }

  predicate IsHop(e: Event, o: OrderId, k: nat)
    requires 0 < k <= HOPS
  {
    && e.orderId == o && e.kind == StateTransition
    && e.fromState == Some(Stage(k - 1)) && e.toState == Some(Stage(k))
  }

  /** One creation, then the first `Hops` transitions of the path, then at most one
      cancellation; the order row carries exactly what the log says. */
  ghost predicate LogOk(cfg: Config, now: Time, o: OrderId, order: Order, log: seq<Event>) {
    var h := Hops(order, log);
    && 0 <= h <= HOPS
    && order.state != Failed
    && order.version == |log| - 1
    && log[0] == CreationEvent(o, log[0].occurredAt)
    && order.createdAt == log[0].occurredAt
    && (forall k :: 0 < k <= h ==> IsHop(log[k], o, k))
    && (forall k :: 0 < k <= h ==> log[k - 1].occurredAt + cfg.tick <= log[k].occurredAt)
    && log[h].occurredAt + cfg.tick <= now
    && (forall k :: 0 < k <= h && StageWindow(cfg, k - 1).Some? ==> log[k - 1].occurredAt < log[k].occurredAt)
    && (order.state != Cancelled ==>
          && order.state == Stage(h)
          && order.terminalReason == None && order.cancelledAt == None
          && (0 < cfg.tick ==> order.updatedAt == log[h].occurredAt))
    && (order.state == Cancelled ==>
          && h < HOPS
          && log[h + 1].kind == OrderCancelled
          && log[h + 1].fromState == Some(Stage(h)) && log[h + 1].toState == Some(Cancelled)
          && order.terminalReason == Some(CANCELLED_REASON)
          && order.cancelledAt == Some(log[h + 1].occurredAt))
    && (order.courierRef.Some? <==> 4 <= h)
    && log[|log| - 1].occurredAt <= order.updatedAt <= now
  }

  /** The deadline of a task created at `created` with poll window `w`, after the operator
      retries `reopened`. */
  function DeadlineAfter(created: Time, w: int, second: int, reopened: seq<Time>): Time {
    if reopened == [] then created + w
    else reopened[|reopened| - 1]
         + Max(DeadlineAfter(created, w, second, reopened[..|reopened| - 1]) - created, second)
  }

  /** A check task is not due at its creation, so by the time it is claimed it is older than
      the clock. */
  predicate Aged(row: Task, now: Time) {
    && (row.status == Pending ==> row.createdAt < now || row.createdAt < row.nextRunAt)
    && (row.status == Running || row.status == Completed || row.status == TaskFailed ==> row.createdAt < now)
  }

  ghost predicate DeadlineOk(cfg: Config, k: nat, row: Task, h: History) {
    match StageWindow(cfg, k)
    case None => row.deadlineAt == None
    case Some(w) => row.deadlineAt == Some(DeadlineAfter(row.createdAt, w, cfg.second, h.reopenedAt))
  }

  /** The columns of the k-th task of order o, whatever its status. */
  ghost predicate TaskOk(cfg: Config, now: Time, o: OrderId, k: nat, row: Task, h: History)
    requires k < HOPS
  {
    && row.orderId == o
    && row.taskType == StageTaskType(k)
    && row.target == Some(Stage(k + 1))
    && row.dedupeKey == Some(DedupeKey(o, StageTaskType(k), Stage(k + 1)))
    && row.maxAttempts == cfg.maxAttempts
    && DeadlineOk(cfg, k, row, h)
       // attempts
    && 0 <= row.attempts == h.errors <= row.maxAttempts
    && (row.Active() ==> row.attempts < row.maxAttempts)
    && (row.status == TaskFailed ==> row.attempts == row.maxAttempts || h.timedOut)
    && (h.timedOut ==> row.status == TaskFailed && row.attempts < row.maxAttempts)
       // lease
    && (row.lockedBy.Some? <==> row.status == Running)
    && (row.lockedUntil.Some? <==> row.status == Running)
    && (row.status == Running ==> row.nextRunAt <= now && row.lockedUntil.value <= now + Lease(cfg))
    && (row.IsCheck() ==> Aged(row, now))
       // outcome columns
    && (row.completedAt.Some? <==> row.status == Completed)
    && (row.status == Completed ==> row.lastError == None)
    && (row.status == TaskFailed ==> row.lastError.Some?)
    && (row.status == TaskCancelled ==> row.lastError == Some(CANCELLED_TASK_ERROR))
  }

  /** Earlier stages are completed; the current one carries the work of a live order. */
  predicate StatusOk(state: OrderState, h: int, k: nat, status: TaskStatus) {
    && (k < h ==> status == Completed)
    && (k == h && state != Cancelled ==> status == Pending || status == Running || status == TaskFailed)
  }

  /** The k-th task of order o. */
  ghost predicate TaskAt(cfg: Config, s: System, o: OrderId, k: nat)
    requires o in s.db.orders && o in s.work && k < |s.work[o]|
  {
    var order, log, t := s.db.orders[o], Log(s, o), s.work[o][k];
    && t in s.db.tasks && t in s.hist
    && k < HOPS && k < |log|
    && TaskOk(cfg, s.now, o, k, s.db.tasks[t], s.hist[t])
    && s.db.tasks[t].createdAt == log[k].occurredAt
    && StatusOk(order.state, Hops(order, log), k, s.db.tasks[t].status)
  }

  ghost predicate WorkOk(cfg: Config, s: System, o: OrderId)
    requires o in s.db.orders && o in s.work
  {
    && |s.work[o]| == Min(Hops(s.db.orders[o], Log(s, o)) + 1, HOPS)
    && forall k {:trigger TaskAt(cfg, s, o, k)} :: 0 <= k < |s.work[o]| ==> TaskAt(cfg, s, o, k)
  }

  ghost predicate OrderInv(cfg: Config, s: System, o: OrderId)
    requires o in s.db.orders && o in s.work
  {
    LogOk(cfg, s.now, o, s.db.orders[o], Log(s, o)) && WorkOk(cfg, s, o)
  }

  /** Position of a task among the tasks of its order. */
  predicate Indexed(s: System, t: TaskId)
    requires t in s.db.tasks
  {
    var row := s.db.tasks[t];
    && row.orderId in s.work
    && row.target.Some? && OnPath(row.target.value)
    && 0 < StageIndex(row.target.value) <= |s.work[row.orderId]|
    && s.work[row.orderId][StageIndex(row.target.value) - 1] == t
  }

  ghost predicate StructureOk(s: System) {
    && s.work.Keys == s.db.orders.Keys
    && s.hist.Keys == s.db.tasks.Keys
    && (forall t {:trigger Indexed(s, t)} :: t in s.db.tasks ==> Indexed(s, t))
    && (forall e :: e in s.db.events ==> e.orderId in s.db.orders)
    && (forall o, p :: (o in s.db.orders && p in s.db.orders
          && s.db.orders[o].idempotencyKey == s.db.orders[p].idempotencyKey) ==> o == p)
  }

  /** A worker's claim is current exactly when the ownership check passes. */
  ghost predicate WorkerOk(cfg: Config, s: System, p: Phase, w: WorkerId) {
    !p.Idle? ==>
      && p.task.id in s.db.tasks && p.task.id in s.hist
      && s.db.tasks[p.task.id].orderId == p.task.orderId
      && s.db.tasks[p.task.id].taskType == p.task.taskType
      && s.db.tasks[p.task.id].target == p.task.target
      && p.since <= s.now
      && p.epoch <= s.hist[p.task.id].epoch
      && (p.epoch == s.hist[p.task.id].epoch <==> Owned(s.db, p.task.id, w))
      && (Owned(s.db, p.task.id, w) ==>
            && s.db.tasks[p.task.id].nextRunAt <= p.since
            && s.db.tasks[p.task.id].createdAt + cfg.tick <= p.since
            && (s.db.tasks[p.task.id].IsCheck() ==> s.db.tasks[p.task.id].createdAt < p.since)
            && (p.Calling? ==> p.call.startedAt == s.db.tasks[p.task.id].createdAt))
      && (p.Finalizing? ==> FinalizingOk(s, p, w))
  }

  /** While a transition transaction is open, what it read is still true. */
  ghost predicate FinalizingOk(s: System, p: Phase, w: WorkerId)
    requires p.Finalizing? && p.task.id in s.db.tasks
  {
    && OwnedJoined(s.db, p.task.id, w)
    && p.since <= p.at <= p.begun <= s.now
    && HandlerOf(p.task).Some?
    && OrderOf(s.db, p.task.id).state == SpecOf(HandlerOf(p.task).value).source
    && OrderOf(s.db, p.task.id).version == p.version
    && (p.courier.Some? <==> HandlerOf(p.task) == Some(CourierAssign))
  }

  ghost predicate Inv(cfg: Config, s: System) {
    && StructureOk(s)
    && (forall o {:trigger OrderInv(cfg, s, o)} :: o in s.db.orders ==> OrderInv(cfg, s, o))
    && (forall w {:trigger WorkerOk(cfg, s, s.workers[w], w)} :: w in s.workers ==> WorkerOk(cfg, s, s.workers[w], w))
  }
}
