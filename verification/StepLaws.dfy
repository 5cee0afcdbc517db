/** What each step of a worker does, column by column, in any state whose foreign keys hold:
    the rows it writes, the rows it leaves alone and where it leaves the worker. */
module StepLaws {
  import opened Optional
  import opened OrderLifecycle
  import opened Rows
  import opened Settings
  import opened TransitionSpecs
  import opened Transactions
  import opened Pipeline

  ghost predicate ForeignKeys(db: Db) {
    forall t :: t in db.tasks ==> db.tasks[t].orderId in db.orders
  }

  /** Worker w still holds the running row of its task. */
  predicate Mine(s: System, w: WorkerId)
    requires HasTask(s, w)
  {
    var t := s.workers[w].task.id;
    t in s.db.tasks && s.db.tasks[t].status == Running && s.db.tasks[t].lockedBy == Some(w)
  }

  /** The order of the task is in the state the task starts from. */
  predicate Due(s: System, w: WorkerId)
    requires HasTask(s, w)
  {
    var p := s.workers[w];
    && p.task.id in s.db.tasks && s.db.tasks[p.task.id].orderId in s.db.orders && p.task.target.Some?
    && CanTransition(s.db.orders[s.db.tasks[p.task.id].orderId].state, p.task.target.value)
  }

  /** The step wrote the row of w's task and nothing else, and w is idle. */
  ghost predicate Wrote(cfg: Config, s: System, s': System, w: WorkerId, row: Task)
    requires HasTask(s, w)
  {
    && s'.db == s.db.(tasks := s.db.tasks[s.workers[w].task.id := row])
    && s'.workers == s.workers[w := Idle]
  }

  /** updated_at after an update stamped `at`: the trigger replaces an unchanged value by now(). */
  function Stamp(s: System, row: Task, at: Time): Time {
    if row.updatedAt == at then s.now else at
  }

  function RowOf(s: System, w: WorkerId): Task
    requires HasTask(s, w) && s.workers[w].task.id in s.db.tasks
  {
    s.db.tasks[s.workers[w].task.id]
  }

  lemma SourceIsDue(s: System, w: WorkerId)
    requires HasTask(s, w) && HandlerOf(s.workers[w].task).Some?
    requires s.workers[w].task.id in s.db.tasks && RowOf(s, w).orderId in s.db.orders
    ensures Due(s, w) <==>
              s.db.orders[RowOf(s, w).orderId].state == SpecOf(HandlerOf(s.workers[w].task).value).source
  {
    var task := s.workers[w].task;
    DispatchedTasksAreLifecycleTasks(task.taskType, task.target);
    SpecTableFollowsLifecycle(DEFAULTS, StageIndex(task.target.value) - 1, 0);
  }

  // ---------------------------------------------------------------- claim

  /** A claim leases exactly the claimed row for thirty seconds from now, and the worker
      remembers which order, type and target it is for. */
  lemma ClaimLaw(cfg: Config, s: System, w: WorkerId, t: TaskId)
    requires Enabled(s, ClaimTask(w, t))
    ensures t in s.db.tasks
    ensures var s', row := Next(cfg, s, ClaimTask(w, t)), s.db.tasks[t];
            && s'.db == s.db.(tasks := s.db.tasks[t := row.(
                                status := Running, lockedBy := Some(w),
                                lockedUntil := Some(s.now + 30 * cfg.second), updatedAt := s.now)])
            && w in s'.workers && s'.workers[w].Claimed? && s'.workers[w].since == s.now
            && s'.workers[w].task == ClaimedTask(t, row.orderId, row.taskType, row.target)
  {
  }

  /** A claim is enabled exactly for an idle worker and the least unlocked row, by update,
      due and creation time and id, among those that are queued and due or leased and expired. */
  lemma ClaimChoice(s: System, w: WorkerId, t: TaskId)
    ensures Enabled(s, ClaimTask(w, t)) <==>
              && w in s.workers && s.workers[w] == Idle
              && t in s.db.tasks && Takes(s, t)
              && forall u :: u in s.db.tasks && u != t && Takes(s, u) ==>
                               Earlier(SortKey(s.db.tasks[t], t), SortKey(s.db.tasks[u], u))
  {
    forall u | u in s.db.tasks
      ensures Takes(s, u) <==> Eligible(s.db.tasks, Locked(s), s.now, u)
    {
    }
    forall u | t in s.db.tasks && u in s.db.tasks
      ensures Earlier(SortKey(s.db.tasks[t], t), SortKey(s.db.tasks[u], u))
              <==> ClaimsBefore(s.db.tasks[t], t, s.db.tasks[u], u)
    {
      KeyOrder(s.db.tasks[t], t, s.db.tasks[u], u);
    }
  }

  lemma KeyOrder(a: Task, t: TaskId, b: Task, u: TaskId)
    ensures Earlier(SortKey(a, t), SortKey(b, u)) <==> ClaimsBefore(a, t, b, u)
  {
    var x, y := SortKey(a, t), SortKey(b, u);
    var x1, y1 := x[1..], y[1..];
    var x2, y2 := x1[1..], y1[1..];
    var x3, y3 := x2[1..], y2[1..];
    assert !Earlier(x3[1..], y3[1..]);
    assert Earlier(x3, y3) <==> t < u;
    assert Earlier(x2, y2) <==> a.createdAt < b.createdAt || (a.createdAt == b.createdAt && Earlier(x3, y3));
    assert Earlier(x1, y1) <==> a.nextRunAt < b.nextRunAt || (a.nextRunAt == b.nextRunAt && Earlier(x2, y2));
  }

  /** Queued and due, or leased and expired, and not locked by an open transaction. */
  ghost predicate Takes(s: System, t: TaskId)
    requires t in s.db.tasks
  {
    var row := s.db.tasks[t];
    && (forall w :: w in s.workers && s.workers[w].Finalizing? ==> s.workers[w].task.id != t)
    && if row.status == Pending then row.nextRunAt <= s.now
       else row.status == Running && row.lockedUntil.Some? && row.lockedUntil.value < s.now
  }

  function SortKey(row: Task, t: TaskId): seq<int> {
    [row.updatedAt, row.nextRunAt, row.createdAt, t]
  }

  /** Lexicographic order. */
  predicate Earlier(a: seq<int>, b: seq<int>)
    requires |a| == |b|
  {
    a != [] && (a[0] < b[0] || (a[0] == b[0] && Earlier(a[1..], b[1..])))
  }

  /** A worker may run a transaction on its task with any stamp taken since its last step, as
      soon as no open transaction holds the row. */
  ghost predicate MayRun(s: System, w: WorkerId, at: Time) {
    && w in s.workers && s.workers[w] != Idle && s.workers[w].since <= at <= s.now
    && forall v :: v in s.workers && s.workers[v].Finalizing? ==> s.workers[v].task.id != s.workers[w].task.id
  }

  predicate Known(task: ClaimedTask) {
    task == ClaimedTask(task.id, task.orderId, AdvanceState, Some(Confirmed))
    || task == ClaimedTask(task.id, task.orderId, AdvanceState, Some(Preparing))
    || task == ClaimedTask(task.id, task.orderId, CheckReady, Some(Ready))
    || task == ClaimedTask(task.id, task.orderId, AdvanceState, Some(OutForDelivery))
    || task == ClaimedTask(task.id, task.orderId, CheckDelivery, Some(Delivered))
  }

  /** Which steps of a worker can run: a claimed task is prepared if a handler knows it and
      released if not; a call may be answered in any way; the process may start, fail or stop at
      any time. */
  lemma StepsRun(s: System, w: WorkerId, error: string, answeredAt: Time, hint: Option<int>, courier: Option<string>,
                 at: Time)
    ensures Enabled(s, StartWorker(w)) <==> w !in s.workers
    ensures (Enabled(s, StopWorker(w)) <==> w in s.workers) && (Enabled(s, Abandon(w)) <==> w in s.workers)
    ensures Enabled(s, PrepareCall(w, at)) <==>
              MayRun(s, w, at) && s.workers[w].Claimed? && Known(s.workers[w].task)
    ensures Enabled(s, ReleaseTask(w, at)) <==>
              MayRun(s, w, at) && s.workers[w].Claimed? && !Known(s.workers[w].task)
    ensures Enabled(s, CallFailed(w, error, at)) <==>
              MayRun(s, w, at) && s.workers[w].Calling? && Known(s.workers[w].task)
    ensures Enabled(s, CallNotYet(w, answeredAt, hint, at)) <==>
              MayRun(s, w, at) && s.workers[w].Calling? && Known(s.workers[w].task)
              && s.workers[w].since <= answeredAt <= at
    ensures Enabled(s, CallSucceeded(w, courier, at)) <==>
              MayRun(s, w, at) && s.workers[w].Calling? && Known(s.workers[w].task)
              && (courier.Some? <==> s.workers[w].task.target == Some(OutForDelivery))
  {
    if HasTask(s, w) {
      KnownIsHandled(s.workers[w].task);
    }
  }

  lemma KnownIsHandled(task: ClaimedTask)
    ensures HandlerOf(task).Some? <==> Known(task)
    ensures HandlerOf(task) == Some(CourierAssign) <==> Known(task) && task.target == Some(OutForDelivery)
  {
  }

  // ---------------------------------------------------------------- checks

  /** The task of a worker transaction that checks the order: all but the error path of the
      command handlers. */
  predicate ChecksOrder(s: System, step: Step)
    requires Enabled(s, step)
  {
    || step.PrepareCall? || step.CallNotYet? || step.CallSucceeded?
    || (step.CallFailed? && (s.workers[step.worker].task.taskType == CheckReady
                             || s.workers[step.worker].task.taskType == CheckDelivery))
  }

  /** Workers come up, give up and go down without a trace in the tables; the clock moves by a
      tick with every step, and by more when time passes. */
  lemma ProcessLaw(cfg: Config, s: System, w: WorkerId, d: nat)
    ensures w !in s.workers ==>
              Next(cfg, s, StartWorker(w)) == s.(workers := s.workers[w := Idle], now := s.now + cfg.tick)
    ensures w in s.workers ==>
              Next(cfg, s, StopWorker(w)) == s.(workers := s.workers - {w}, now := s.now + cfg.tick)
    ensures w in s.workers ==>
              Next(cfg, s, Abandon(w)) == s.(workers := s.workers[w := Idle], now := s.now + cfg.tick)
    ensures Next(cfg, s, Tick(d)) == s.(now := s.now + d + cfg.tick)
  {
  }

  lemma ClockLaw(cfg: Config, s: System, step: Step)
    requires Enabled(s, step) && !step.Tick?
    ensures Next(cfg, s, step).now == s.now + cfg.tick
  {
  }

  /** What a transaction reports when it does not go on: no row, a row that is not running, a
      row someone else runs, a terminal order, an order in another state. */
  lemma ReportLaw(db: Db, now: Time, t: TaskId, w: WorkerId, source: OrderState, at: Time)
    requires ForeignKeys(db)
    ensures var r := Settle(db, now, t, w, source, at);
            if t !in db.tasks then r == Some(TxResult(db, MissingTask))
            else if db.tasks[t].status != Running then r == Some(TxResult(db, NotRunning))
            else if db.tasks[t].lockedBy != Some(w) then r == Some(TxResult(db, LostOwnership))
            else if NextOrderState(db.orders[db.tasks[t].orderId].state) == None then
              r.Some? && r.value.action == TerminalNoop
            else if db.orders[db.tasks[t].orderId].state != source then
              r.Some? && r.value.action == StaleNoop
            else r == None
  {
    if t in db.tasks {
      TerminalIffNoSuccessor(db.orders[db.tasks[t].orderId].state);
    }
  }

  /** A worker that no longer holds its row writes nothing and is idle. */
  lemma SkipLaw(cfg: Config, s: System, step: Step)
    requires ForeignKeys(s.db) && Enabled(s, step)
    requires step.PrepareCall? || step.CallFailed? || step.CallNotYet? || step.CallSucceeded? || step.ReleaseTask?
    requires !Mine(s, step.worker)
    ensures Next(cfg, s, step).db == s.db && Next(cfg, s, step).workers == s.workers[step.worker := Idle]
  {
  }

  /** A held task whose order is terminal or has left the source state is completed without a
      transition. */
  lemma NoopLaw(cfg: Config, s: System, step: Step)
    requires ForeignKeys(s.db) && Enabled(s, step) && ChecksOrder(s, step)
    requires Mine(s, step.worker) && !Due(s, step.worker)
    ensures var row := RowOf(s, step.worker);
            Wrote(cfg, s, Next(cfg, s, step), step.worker,
                  row.(status := Completed, completedAt := Some(step.at), lastError := None,
                       lockedBy := None, lockedUntil := None, updatedAt := Stamp(s, row, step.at)))
  {
    SourceIsDue(s, step.worker);
    NotDueSettles(s, step);
  }

  lemma NotDueSettles(s: System, step: Step)
    requires ForeignKeys(s.db) && Enabled(s, step) && ChecksOrder(s, step)
    requires Mine(s, step.worker) && !Due(s, step.worker)
    ensures var w := step.worker;
            var row, t := RowOf(s, w), s.workers[w].task.id;
            var r := Settle(s.db, s.now, t, w, SpecOf(HandlerOf(s.workers[w].task).value).source, step.at);
            && r.Some? && (r.value.action == TerminalNoop || r.value.action == StaleNoop)
            && r.value.db == s.db.(tasks := s.db.tasks[t := row.(
                 status := Completed, completedAt := Some(step.at), lastError := None,
                 lockedBy := None, lockedUntil := None, updatedAt := Stamp(s, row, step.at))])
  {
    SourceIsDue(s, step.worker);
  }

  lemma DueGoesOn(s: System, w: WorkerId, at: Time)
    requires ForeignKeys(s.db) && HasTask(s, w) && HandlerOf(s.workers[w].task).Some?
    requires Mine(s, w) && Due(s, w)
    ensures Settle(s.db, s.now, s.workers[w].task.id, w, SpecOf(HandlerOf(s.workers[w].task).value).source, at) == None
  {
    SourceIsDue(s, w);
  }

  // ---------------------------------------------------------------- errors

  /** Two to the number of attempts, doubled attempt by attempt. */
  function Doubled(base: int, attempts: int): int
    decreases attempts
  {
    if attempts <= 0 then base else 2 * Doubled(base, attempts - 1)
  }

  lemma {:induction false} DoubledIsPower(base: int, n: nat)
    ensures Doubled(base, n) == base * Pow2(n)
  {
    if n > 0 {
      DoubledIsPower(base, n - 1);
      assert base * Pow2(n) == 2 * (base * Pow2(n - 1));
    }
  }

  /** The row after a retryable failure. */
  ghost predicate AfterFailure(cfg: Config, s: System, row: Task, row': Task, error: string, at: Time) {
    && row' == row.(status := row'.status, attempts := row.attempts + 1, nextRunAt := row'.nextRunAt,
                    lastError := Some(error), lockedBy := None, lockedUntil := None, updatedAt := Stamp(s, row, at))
    && if row.attempts + 1 < row.maxAttempts
       then && row'.status == Pending
            && row'.nextRunAt == at + (if Doubled(cfg.retryBase, row.attempts) <= cfg.retryCap
                                       then Doubled(cfg.retryBase, row.attempts) else cfg.retryCap)
       else row'.status == TaskFailed && row'.nextRunAt == row.nextRunAt
  }

  lemma FailureLaw(cfg: Config, s: System, t: TaskId, error: string, at: Time)
    requires t in s.db.tasks
    ensures var tx := RetryOrFail(cfg, s.db, s.now, t, error, at);
            && t in tx.db.tasks && tx.db == s.db.(tasks := s.db.tasks[t := tx.db.tasks[t]])
            && AfterFailure(cfg, s, s.db.tasks[t], tx.db.tasks[t], error, at)
  {
    DoubledIsPower(cfg.retryBase, Max(s.db.tasks[t].attempts, 0));
    if s.db.tasks[t].attempts < 0 {
      assert Doubled(cfg.retryBase, s.db.tasks[t].attempts) == Doubled(cfg.retryBase, 0);
    }
  }

  /** A failed call spends one attempt of a held task: it is queued again after the doubled
      and capped delay, or fails when the budget is used up; the error is kept. Command tasks
      do not look at the order first, polls do. */
  lemma ErrorLaw(cfg: Config, s: System, w: WorkerId, error: string, at: Time)
    requires ForeignKeys(s.db) && Enabled(s, CallFailed(w, error, at)) && Mine(s, w)
    requires ChecksOrder(s, CallFailed(w, error, at)) ==> Due(s, w)
    ensures var s', t := Next(cfg, s, CallFailed(w, error, at)), s.workers[w].task.id;
            && t in s'.db.tasks && Wrote(cfg, s, s', w, s'.db.tasks[t])
            && AfterFailure(cfg, s, RowOf(s, w), s'.db.tasks[t], error, at)
  {
    var t := s.workers[w].task.id;
    FailureLaw(cfg, s, t, error, at);
    if ChecksOrder(s, CallFailed(w, error, at)) {
      DueGoesOn(s, w, at);
    }
  }

  // ---------------------------------------------------------------- "not yet"

  /** A positive hint of the service, or else the worker's own interval for the task. */
  function Wait(cfg: Config, task: ClaimedTask, hint: Option<int>): int {
    if hint.Some? && 0 < hint.value then hint.value
    else if task.taskType == CheckReady then cfg.readyInterval
    else if task.taskType == CheckDelivery then cfg.deliveryInterval
    else cfg.retryBase
  }

  /** A "not yet" queues a held command task again after the wait, attempts unchanged. */
  lemma PendingLaw(cfg: Config, s: System, w: WorkerId, answeredAt: Time, hint: Option<int>, at: Time)
    requires ForeignKeys(s.db) && Enabled(s, CallNotYet(w, answeredAt, hint, at)) && Mine(s, w) && Due(s, w)
    requires s.workers[w].task.taskType == AdvanceState
    ensures var row := RowOf(s, w);
            Wrote(cfg, s, Next(cfg, s, CallNotYet(w, answeredAt, hint, at)), w,
                  row.(status := Pending, nextRunAt := at + Wait(cfg, s.workers[w].task, hint), lastError := None,
                       lockedBy := None, lockedUntil := None, updatedAt := Stamp(s, row, at)))
  {
    DueGoesOn(s, w, at);
  }

  /** A check task inside its deadline is polled again after the wait, or at the deadline if
      that is sooner. */
  lemma PollLaw(cfg: Config, s: System, w: WorkerId, answeredAt: Time, hint: Option<int>, at: Time)
    requires ForeignKeys(s.db) && Enabled(s, CallNotYet(w, answeredAt, hint, at)) && Mine(s, w) && Due(s, w)
    requires s.workers[w].task.taskType == CheckReady || s.workers[w].task.taskType == CheckDelivery
    requires RowOf(s, w).deadlineAt.Some? && at < RowOf(s, w).deadlineAt.value
    ensures var row, due := RowOf(s, w), at + Wait(cfg, s.workers[w].task, hint);
            Wrote(cfg, s, Next(cfg, s, CallNotYet(w, answeredAt, hint, at)), w,
                  row.(status := Pending,
                       nextRunAt := if due < row.deadlineAt.value then due else row.deadlineAt.value,
                       lastError := None, lockedBy := None, lockedUntil := None, updatedAt := Stamp(s, row, at)))
  {
    DueGoesOn(s, w, at);
  }

  /** A check task at or past its deadline fails without spending an attempt. */
  lemma DeadlineLaw(cfg: Config, s: System, w: WorkerId, answeredAt: Time, hint: Option<int>, at: Time)
    requires ForeignKeys(s.db) && Enabled(s, CallNotYet(w, answeredAt, hint, at)) && Mine(s, w) && Due(s, w)
    requires s.workers[w].task.taskType == CheckReady || s.workers[w].task.taskType == CheckDelivery
    requires RowOf(s, w).deadlineAt.Some? && RowOf(s, w).deadlineAt.value <= at
    ensures var row := RowOf(s, w);
            Wrote(cfg, s, Next(cfg, s, CallNotYet(w, answeredAt, hint, at)), w,
                  row.(status := TaskFailed,
                       lastError := Some(if s.workers[w].task.taskType == CheckReady
                                         then "restaurant ready deadline exceeded"
                                         else "courier delivery deadline exceeded"),
                       lockedBy := None, lockedUntil := None, updatedAt := Stamp(s, row, at)))
  {
    DueGoesOn(s, w, at);
  }

  /** A check task without a deadline is treated as an error. */
  lemma NoDeadlineLaw(cfg: Config, s: System, w: WorkerId, answeredAt: Time, hint: Option<int>, at: Time)
    requires ForeignKeys(s.db) && Enabled(s, CallNotYet(w, answeredAt, hint, at)) && Mine(s, w) && Due(s, w)
    requires s.workers[w].task.taskType == CheckReady || s.workers[w].task.taskType == CheckDelivery
    requires RowOf(s, w).deadlineAt == None
    ensures var s', t := Next(cfg, s, CallNotYet(w, answeredAt, hint, at)), s.workers[w].task.id;
            && t in s'.db.tasks && Wrote(cfg, s, s', w, s'.db.tasks[t])
            && AfterFailure(cfg, s, RowOf(s, w), s'.db.tasks[t],
                            if s.workers[w].task.taskType == CheckReady
                            then "check_ready task is missing deadline_at"
                            else "check_delivery task is missing deadline_at", at)
  {
    var t, handler := s.workers[w].task.id, HandlerOf(s.workers[w].task).value;
    DueGoesOn(s, w, at);
    NoDeadlineRetries(cfg, s.db, s.now, t, w, handler, hint, at);
    FailureLaw(cfg, s, t, MissingDeadlineError(handler), at);
  }

  lemma NoDeadlineRetries(cfg: Config, db: Db, now: Time, t: TaskId, w: WorkerId, handler: Handler, hint: Option<int>,
                          at: Time)
    requires Settle(db, now, t, w, SpecOf(handler).source, at) == None && handler.Polls()
    requires db.tasks[t].deadlineAt == None
    ensures FinishNotYet(cfg, db, now, t, w, handler, hint, at)
            == RetryOrFail(cfg, db, now, t, MissingDeadlineError(handler), at)
  {
  }

  // ---------------------------------------------------------------- prepare

  /** The events that begin the state a task starts from: the creation for the first hop, the
      transition into the state for commands, exactly that hop for checks. */
  predicate Begins(e: Event, o: OrderId, task: ClaimedTask) {
    && e.orderId == o && task.target.Some?
    && if task.target == Some(Confirmed) then e.kind == OrderCreated
       else
         && e.kind == StateTransition && e.toState.Some? && CanTransition(e.toState.value, task.target.value)
         && (task.taskType != AdvanceState ==>
               e.fromState.Some? && CanTransition(e.fromState.value, e.toState.value))
  }

  /** The latest of them, if there is any. */
  ghost predicate BeganAt(events: seq<Event>, o: OrderId, task: ClaimedTask, began: Option<Time>) {
    match began
    case None => forall e :: e in events ==> !Begins(e, o, task)
    case Some(time) =>
      && (exists e :: e in events && Begins(e, o, task) && e.occurredAt == time)
      && (forall e :: e in events && Begins(e, o, task) ==> e.occurredAt <= time)
  }

  lemma QueryMatches(e: Event, o: OrderId, task: ClaimedTask)
    requires HandlerOf(task).Some?
    ensures Matches(SourceQuery(o, HandlerOf(task).value), e) <==> Begins(e, o, task)
  {
  }

  lemma QueryFindsBegin(events: seq<Event>, o: OrderId, task: ClaimedTask)
    requires HandlerOf(task).Some?
    ensures BeganAt(events, o, task, LatestOccurrence(Select(events, SourceQuery(o, HandlerOf(task).value))))
  {
    var q := SourceQuery(o, HandlerOf(task).value);
    forall e | e in events
      ensures Begins(e, o, task) <==> e in Select(events, q)
    {
      QueryMatches(e, o, task);
      if Matches(q, e) {
        SelectFinds(events, q, e);
      }
    }
  }

  /** What the worker of a held, due task asks downstream, or which attempt it spends instead:
      checks need a deadline, the event that began the state and, for delivery, a courier;
      commands fall back to the order's update time. */
  ghost predicate AsksOrSpends(cfg: Config, s: System, s': System, w: WorkerId, at: Time, began: Option<Time>)
    requires HasTask(s, w) && s.workers[w].task.id in s.db.tasks && RowOf(s, w).orderId in s.db.orders
  {
    var p, row := s.workers[w], RowOf(s, w);
    var order := s.db.orders[row.orderId];
    if p.task.taskType == AdvanceState then
      Asks(s, s', w, order.restaurantRef, if began.Some? then began.value else order.updatedAt)
    else if row.deadlineAt == None then
      Spends(cfg, s, s', w, at, if p.task.taskType == CheckReady then "check_ready task is missing deadline_at"
                                else "check_delivery task is missing deadline_at")
    else if began == None then
      Spends(cfg, s, s', w, at,
             if p.task.taskType == CheckReady then "missing confirmed -> preparing event for check_ready"
             else "missing ready -> out_for_delivery event for check_delivery")
    else if p.task.taskType == CheckReady then
      Asks(s, s', w, order.restaurantRef, began.value)
    else if order.courierRef == None then
      Spends(cfg, s, s', w, at, "missing courier_ref for check_delivery")
    else
      Asks(s, s', w, order.courierRef.value, began.value)
  }

  ghost predicate Asks(s: System, s': System, w: WorkerId, ref: string, startedAt: Time)
    requires HasTask(s, w) && s.workers[w].task.id in s.db.tasks
  {
    var p := s.workers[w];
    && s'.db == s.db
    && s'.workers == s.workers[w := Calling(p.task, s.now, p.epoch,
                                            DownstreamCall(RowOf(s, w).orderId, ref, startedAt))]
  }

  ghost predicate Spends(cfg: Config, s: System, s': System, w: WorkerId, at: Time, error: string)
    requires HasTask(s, w) && s.workers[w].task.id in s.db.tasks
  {
    var t := s.workers[w].task.id;
    && t in s'.db.tasks && Wrote(cfg, s, s', w, s'.db.tasks[t])
    && AfterFailure(cfg, s, RowOf(s, w), s'.db.tasks[t], error, at)
  }

  /** A held, due task is prepared with the latest event that began its state. */
  lemma PrepareLaw(cfg: Config, s: System, w: WorkerId, at: Time) returns (began: Option<Time>)
    requires ForeignKeys(s.db) && Enabled(s, PrepareCall(w, at)) && Mine(s, w) && Due(s, w)
    ensures BeganAt(s.db.events, RowOf(s, w).orderId, s.workers[w].task, began)
    ensures AsksOrSpends(cfg, s, Next(cfg, s, PrepareCall(w, at)), w, at, began)
  {
    var p, row := s.workers[w], RowOf(s, w);
    began := LatestOccurrence(Select(s.db.events, SourceQuery(row.orderId, HandlerOf(p.task).value)));
    QueryFindsBegin(s.db.events, row.orderId, p.task);
    DueGoesOn(s, w, at);
    if p.task.taskType == AdvanceState {
      PrepareCommand(cfg, s, w, at, began);
    } else {
      PrepareCheck(cfg, s, w, at, began);
    }
  }

  ghost predicate PreparesFrom(s: System, w: WorkerId, at: Time, began: Option<Time>)
    requires HasTask(s, w)
  {
    && HandlerOf(s.workers[w].task).Some? && Mine(s, w) && RowOf(s, w).orderId in s.db.orders
    && Settle(s.db, s.now, s.workers[w].task.id, w, SpecOf(HandlerOf(s.workers[w].task).value).source, at) == None
    && began == LatestOccurrence(Select(s.db.events,
                                        SourceQuery(RowOf(s, w).orderId, HandlerOf(s.workers[w].task).value)))
  }

  lemma PrepareCommand(cfg: Config, s: System, w: WorkerId, at: Time, began: Option<Time>)
    requires Enabled(s, PrepareCall(w, at)) && PreparesFrom(s, w, at, began)
    requires s.workers[w].task.taskType == AdvanceState
    ensures AsksOrSpends(cfg, s, Next(cfg, s, PrepareCall(w, at)), w, at, began)
  {
    var order := s.db.orders[RowOf(s, w).orderId];
    AskedInPrepare(cfg, s, w, at, order.restaurantRef, if began.Some? then began.value else order.updatedAt);
  }

  lemma PrepareCheck(cfg: Config, s: System, w: WorkerId, at: Time, began: Option<Time>)
    requires Enabled(s, PrepareCall(w, at)) && PreparesFrom(s, w, at, began)
    requires s.workers[w].task.taskType != AdvanceState
    ensures AsksOrSpends(cfg, s, Next(cfg, s, PrepareCall(w, at)), w, at, began)
  {
    var row, handler := RowOf(s, w), HandlerOf(s.workers[w].task).value;
    var order := s.db.orders[row.orderId];
    if row.deadlineAt == None {
      SpentInPrepare(cfg, s, w, at, MissingDeadlineError(handler));
    } else if began == None {
      SpentInPrepare(cfg, s, w, at, MissingEventError(handler));
    } else if handler.ReadyCheck? {
      AskedInPrepare(cfg, s, w, at, order.restaurantRef, began.value);
    } else if order.courierRef == None {
      SpentInPrepare(cfg, s, w, at, MISSING_COURIER_ERROR);
    } else {
      AskedInPrepare(cfg, s, w, at, order.courierRef.value, began.value);
    }
  }

  lemma AskedInPrepare(cfg: Config, s: System, w: WorkerId, at: Time, ref: string, startedAt: Time)
    requires Enabled(s, PrepareCall(w, at)) && Mine(s, w)
    requires Prepare(cfg, s.db, s.now, s.workers[w].task.id, w, HandlerOf(s.workers[w].task).value, at)
             == Proceed(DownstreamCall(RowOf(s, w).orderId, ref, startedAt))
    ensures Asks(s, Next(cfg, s, PrepareCall(w, at)), w, ref, startedAt)
  {
  }

  lemma SpentInPrepare(cfg: Config, s: System, w: WorkerId, at: Time, error: string)
    requires Enabled(s, PrepareCall(w, at)) && Mine(s, w)
    requires Prepare(cfg, s.db, s.now, s.workers[w].task.id, w, HandlerOf(s.workers[w].task).value, at)
             == Stop(RetryOrFail(cfg, s.db, s.now, s.workers[w].task.id, error, at))
    ensures Spends(cfg, s, Next(cfg, s, PrepareCall(w, at)), w, at, error)
  {
    FailureLaw(cfg, s, s.workers[w].task.id, error, at);
  }

  // ---------------------------------------------------------------- finalize

  /** A success opens the transition transaction on what is read now, and writes nothing yet. */
  lemma LoadLaw(cfg: Config, s: System, w: WorkerId, courier: Option<string>, at: Time)
    requires ForeignKeys(s.db) && Enabled(s, CallSucceeded(w, courier, at)) && Mine(s, w) && Due(s, w)
    ensures var s', p := Next(cfg, s, CallSucceeded(w, courier, at)), s.workers[w];
            && s'.db == s.db
            && s'.workers == s.workers[w := Finalizing(p.task, p.since, p.epoch, at, s.now,
                                                       s.db.orders[RowOf(s, w).orderId].version, courier)]
  {
    DueGoesOn(s, w, at);
  }

  /** The follow-up task of a hop into `state` at `at`, if there is one. */
  function Followup(cfg: Config, o: OrderId, state: OrderState, at: Time): Option<Task> {
    match state
    case Confirmed => Some(Queued(cfg, o, AdvanceState, Preparing, at, None, at))
    case Preparing => Some(Queued(cfg, o, CheckReady, Ready, at + cfg.readyInitial, Some(at + cfg.readyDeadline), at))
    case Ready => Some(Queued(cfg, o, AdvanceState, OutForDelivery, at, None, at))
    case OutForDelivery =>
      Some(Queued(cfg, o, CheckDelivery, Delivered, at + cfg.deliveryInitial, Some(at + cfg.deliveryDeadline), at))
    case _ => None
  }

  function Queued(cfg: Config, o: OrderId, taskType: TaskType, target: OrderState, due: Time, deadline: Option<Time>,
                  at: Time): Task {
    Task(o, taskType, Some(target), Pending, 0, cfg.maxAttempts, due, deadline, None, None,
         Some(DedupeKey(o, taskType, target)), None, at, at, None)
  }

  /** The tables after a committed hop of order o: the state advances by one, the version
      counts it, the courier is kept or set, the task is completed, one event is appended, and
      the follow-up is queued unless an active row has its key. */
  ghost predicate Hops(cfg: Config, s: System, db': Db, w: WorkerId, o: OrderId, newId: TaskId)
    requires HasTask(s, w) && s.workers[w].Finalizing? && s.workers[w].task.id in s.db.tasks && o in s.db.orders
    requires s.workers[w].task.target.Some?
  {
    var p, row, order := s.workers[w], RowOf(s, w), s.db.orders[o];
    var target := p.task.target.value;
    var next := Followup(cfg, o, target, p.at);
    && db'.orders == s.db.orders[o := order.(
         state := target, version := order.version + 1,
         courierRef := if p.courier.Some? then p.courier else order.courierRef,
         updatedAt := if order.updatedAt == p.at then p.begun else p.at)]
    && db'.events == s.db.events + [Event(o, StateTransition, Some(order.state), Some(target), Some(p.task.id),
                                          Some(w), p.at, NoMetadata)]
    && db'.tasks == (if next.Some? && !ActiveKey(s.db.tasks, next.value.dedupeKey.value)
                     then s.db.tasks[newId := next.value] else s.db.tasks)[
         p.task.id := row.(status := Completed, completedAt := Some(p.at), lastError := None, lockedBy := None,
                           lockedUntil := None, updatedAt := if row.updatedAt == p.at then p.begun else p.at)]
  }

  /** The guarded update matches when version and state are what was read, and then the hop
      commits whole. */
  lemma CommitLaw(cfg: Config, s: System, w: WorkerId, newId: TaskId)
    requires Enabled(s, CommitFinalize(w, newId)) && Due(s, w)
    requires s.db.orders[RowOf(s, w).orderId].version == s.workers[w].version
    ensures Next(cfg, s, CommitFinalize(w, newId)).workers == s.workers[w := Idle]
    ensures Hops(cfg, s, Next(cfg, s, CommitFinalize(w, newId)).db, w, RowOf(s, w).orderId, newId)
  {
    SourceIsDue(s, w);
    CommitTxLaw(cfg, s, w, newId);
  }

  lemma CommitTxLaw(cfg: Config, s: System, w: WorkerId, newId: TaskId)
    requires HasTask(s, w) && s.workers[w].Finalizing? && HandlerOf(s.workers[w].task).Some? && Due(s, w)
    requires s.db.orders[RowOf(s, w).orderId].state == SpecOf(HandlerOf(s.workers[w].task).value).source
    requires s.db.orders[RowOf(s, w).orderId].version == s.workers[w].version
    ensures var p := s.workers[w];
            Hops(cfg, s, CommitTransition(cfg, s.db, p.begun, p.task.id, w, SpecOf(HandlerOf(p.task).value), p.version,
                                          p.courier, newId, p.at).db, w, RowOf(s, w).orderId, newId)
  {
    var p, o := s.workers[w], RowOf(s, w).orderId;
    DispatchedTasksAreLifecycleTasks(p.task.taskType, p.task.target);
    SpecTableFollowsLifecycle(cfg, StageIndex(p.task.target.value) - 1, p.at);
    FollowupLaw(cfg, s.db.tasks, o, p.task, newId, p.at);
  }

  lemma FollowupLaw(cfg: Config, tasks: map<TaskId, Task>, o: OrderId, task: ClaimedTask, newId: TaskId, at: Time)
    requires HandlerOf(task).Some? && task.target.Some?
    ensures var next := Followup(cfg, o, task.target.value, at);
            WithFollowup(cfg, tasks, o, SpecOf(HandlerOf(task).value), newId, at) ==
            if next.Some? && !ActiveKey(tasks, next.value.dedupeKey.value) then tasks[newId := next.value] else tasks
  {
  }

  /** Otherwise only the task is completed. */
  lemma GuardLaw(cfg: Config, s: System, w: WorkerId, newId: TaskId)
    requires Enabled(s, CommitFinalize(w, newId))
    requires !Due(s, w) || s.db.orders[RowOf(s, w).orderId].version != s.workers[w].version
    ensures var p, row := s.workers[w], RowOf(s, w);
            Wrote(cfg, s, Next(cfg, s, CommitFinalize(w, newId)), w,
                  row.(status := Completed, completedAt := Some(p.at), lastError := None, lockedBy := None,
                       lockedUntil := None, updatedAt := if row.updatedAt == p.at then p.begun else p.at))
  {
    SourceIsDue(s, w);
  }

  /** A task no handler knows goes back to the queue with a note, for later. */
  lemma ReleaseLaw(cfg: Config, s: System, w: WorkerId, at: Time)
    requires Enabled(s, ReleaseTask(w, at)) && Mine(s, w)
    ensures var row := RowOf(s, w);
            Wrote(cfg, s, Next(cfg, s, ReleaseTask(w, at)), w,
                  row.(status := Pending, nextRunAt := at + cfg.unsupportedDelay,
                       lastError := Some("unsupported task; waiting for handler"),
                       lockedBy := None, lockedUntil := None, updatedAt := Stamp(s, row, at)))
  {
  }
}
