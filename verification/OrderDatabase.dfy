/** The transactions as the programs run them: statement by statement, on tables that are
    updated in place. Each method ends in the tables its specification function gives, and
    keeps the constraints the schema declares. */
module OrderDatabase {
  import opened Optional
  import opened OrderLifecycle
  import opened Rows
  import opened Settings
  import opened TransitionSpecs
  import opened Transactions
  import opened Pipeline
  import opened ClaimFairness

  /** What a prepare phase hands to its caller. */
  datatype Prepared = Skip(action: Action) | Call(call: DownstreamCall)

  ghost predicate KeysUnique(orders: map<OrderId, Order>) {
    forall o, p :: o in orders && p in orders && orders[o].idempotencyKey == orders[p].idempotencyKey ==> o == p
  }

  /** Unique keys, foreign keys and check constraints of the schema. */
  ghost predicate Constraints(db: Db) {
    && KeysUnique(db.orders)
    && ActiveKeysUnique(db.tasks)
    && (forall t :: t in db.tasks ==>
          db.tasks[t].orderId in db.orders && 0 <= db.tasks[t].attempts && 0 < db.tasks[t].maxAttempts)
    && (forall e :: e in db.events ==> e.orderId in db.orders)
  }

  /** A row update that does not wake the row up and keeps what the row is. */
  predicate KeepsIdentity(before: Task, after: Task) {
    && after.orderId == before.orderId && after.dedupeKey == before.dedupeKey
    && after.maxAttempts == before.maxAttempts && before.attempts <= after.attempts
    && (after.Active() ==> before.Active())
  }

  lemma RowUpdateKeepsConstraints(db: Db, t: TaskId, row: Task)
    requires Constraints(db) && t in db.tasks && KeepsIdentity(db.tasks[t], row)
    ensures Constraints(WithTask(db, t, row))
  {
  }

  lemma {:induction false} AnyListing(s: set<TaskId>) returns (ids: seq<TaskId>)
    ensures Lists(ids, s)
  {
    if s == {} {
      ids := [];
    } else {
      var t :| t in s;
      var rest := AnyListing(s - {t});
      ids := rest + [t];
    }
  }

  /** What a "not yet" answer does to a check task. */
  lemma PollOutcome(cfg: Config, db: Db, now: Time, t: TaskId, w: WorkerId, handler: Handler, hint: Option<int>,
                    at: Time)
    requires handler.Polls()
    ensures var settled := Settle(db, now, t, w, SpecOf(handler).source, at);
            FinishNotYet(cfg, db, now, t, w, handler, hint, at) ==
            if settled.Some? then settled.value
            else if db.tasks[t].deadlineAt == None then
              RetryOrFail(cfg, db, now, t, MissingDeadlineError(handler), at)
            else if at >= db.tasks[t].deadlineAt.value then
              TxResult(WithTask(db, t, TimedOutRow(db.tasks[t], TimeoutError(handler), at, now)), TimedOut)
            else
              var next := NextPoll(cfg, handler, hint, at, db.tasks[t].deadlineAt.value);
              TxResult(WithTask(db, t, PolledRow(db.tasks[t], next, at, now)), PollScheduled)
  {
  }

  /** The hint or the handler's interval from now, at the deadline if that is sooner. */
  function NextPoll(cfg: Config, handler: Handler, hint: Option<int>, at: Time, deadline: Time): Time
    requires handler.Polls()
  {
    Min(at + (if hint.Some? && 0 < hint.value then hint.value
              else if handler.ReadyCheck? then cfg.readyInterval else cfg.deliveryInterval), deadline)
  }

  /** What a "not yet" answer does to a command task. */
  lemma PendingOutcome(cfg: Config, db: Db, now: Time, t: TaskId, w: WorkerId, handler: Handler, hint: Option<int>,
                       at: Time)
    requires !handler.Polls()
    ensures var settled := Settle(db, now, t, w, SpecOf(handler).source, at);
            FinishNotYet(cfg, db, now, t, w, handler, hint, at) ==
            if settled.Some? then settled.value
            else TxResult(WithTask(db, t, PolledRow(db.tasks[t], at + HintOr(hint, cfg.retryBase), at, now)),
                          PollScheduled)
  {
  }

  lemma EventKeepsConstraints(db: Db, e: Event)
    requires Constraints(db) && e.orderId in db.orders
    ensures Constraints(db.(events := db.events + [e]))
  {
  }

  lemma OrderUpdateKeepsConstraints(db: Db, o: OrderId, order: Order)
    requires Constraints(db) && o in db.orders && order.idempotencyKey == db.orders[o].idempotencyKey
    ensures Constraints(db.(orders := db.orders[o := order]))
  {
  }

  lemma ReopenOneMore(rows: map<TaskId, Task>, o: OrderId, ids: seq<TaskId>, t: TaskId, at: Time)
    requires t in rows && forall u :: u in ids ==> u in rows
    ensures ReopenEvents(rows, o, ids + [t], at) == ReopenEvents(rows, o, ids, at) + [ReopenEvent(o, t, rows[t], at)]
  {
    assert (ids + [t])[..|ids|] == ids;
  }

  class OrderDatabase {
    const cfg: Config
    var orders: map<OrderId, Order>
    var tasks: map<TaskId, Task>
    var events: seq<Event>

    ghost function Contents(): Db
      reads this
    {
      Db(orders, tasks, events)
    }

    ghost predicate Valid()
      reads this
    {
      Constraints(Contents())
    }

    constructor (cfg: Config)
      ensures this.cfg == cfg && Contents() == Db(map[], map[], []) && Valid()
    {
      this.cfg := cfg;
      orders := map[];
      tasks := map[];
      events := [];
    }

    // -------------------------------------------------------------- guarded row updates

    /** `update order_tasks set ... where id = t and status = 'running' and locked_by = w`. */
    method UpdateOwned(t: TaskId, w: WorkerId, row: Task) returns (updated: bool)
      requires Valid() && (Owned(Contents(), t, w) ==> KeepsIdentity(tasks[t], row))
      modifies this`tasks
      ensures Valid()
      ensures updated <==> Owned(old(Contents()), t, w)
      ensures Contents() == if updated then WithTask(old(Contents()), t, row) else old(Contents())
    {
      updated := false;
      if t in tasks && tasks[t].status == Running && tasks[t].lockedBy == Some(w) {
        RowUpdateKeepsConstraints(Contents(), t, row);
        tasks := tasks[t := row];
        updated := true;
      }
    }

    method CompleteClaimedTask(t: TaskId, w: WorkerId, at: Time, now: Time) returns (updated: bool)
      requires Valid()
      modifies this`tasks
      ensures Valid()
      ensures updated <==> Owned(old(Contents()), t, w)
      ensures Contents() == if updated then WithTask(old(Contents()), t, CompletedRow(old(tasks)[t], at, now))
                            else old(Contents())
    {
      updated := false;
      if t in tasks {
        updated := UpdateOwned(t, w, CompletedRow(tasks[t], at, now));
      }
    }

    method RescheduleClaimedTask(t: TaskId, w: WorkerId, nextRunAt: Time, error: string, at: Time, now: Time)
      returns (updated: bool)
      requires Valid()
      modifies this`tasks
      ensures Valid()
      ensures updated <==> Owned(old(Contents()), t, w)
      ensures Contents() == if updated then WithTask(old(Contents()), t,
                                                     RetriedRow(old(tasks)[t], nextRunAt, error, at, now))
                            else old(Contents())
    {
      updated := false;
      if t in tasks {
        updated := UpdateOwned(t, w, RetriedRow(tasks[t], nextRunAt, error, at, now));
      }
    }

    method ReschedulePollTask(t: TaskId, w: WorkerId, nextRunAt: Time, at: Time, now: Time) returns (updated: bool)
      requires Valid()
      modifies this`tasks
      ensures Valid()
      ensures updated <==> Owned(old(Contents()), t, w)
      ensures Contents() == if updated then WithTask(old(Contents()), t, PolledRow(old(tasks)[t], nextRunAt, at, now))
                            else old(Contents())
    {
      updated := false;
      if t in tasks {
        updated := UpdateOwned(t, w, PolledRow(tasks[t], nextRunAt, at, now));
      }
    }

    method FailClaimedTask(t: TaskId, w: WorkerId, error: string, at: Time, now: Time) returns (updated: bool)
      requires Valid()
      modifies this`tasks
      ensures Valid()
      ensures updated <==> Owned(old(Contents()), t, w)
      ensures Contents() == if updated then WithTask(old(Contents()), t, ExhaustedRow(old(tasks)[t], error, at, now))
                            else old(Contents())
    {
      updated := false;
      if t in tasks {
        updated := UpdateOwned(t, w, ExhaustedRow(tasks[t], error, at, now));
      }
    }

    method FailWithoutAttemptIncrement(t: TaskId, w: WorkerId, error: string, at: Time, now: Time)
      returns (updated: bool)
      requires Valid()
      modifies this`tasks
      ensures Valid()
      ensures updated <==> Owned(old(Contents()), t, w)
      ensures Contents() == if updated then WithTask(old(Contents()), t, TimedOutRow(old(tasks)[t], error, at, now))
                            else old(Contents())
    {
      updated := false;
      if t in tasks {
        updated := UpdateOwned(t, w, TimedOutRow(tasks[t], error, at, now));
      }
    }

    method ReleaseClaimedTask(t: TaskId, w: WorkerId, nextRunAt: Option<Time>, error: Option<string>, at: Time,
                              now: Time) returns (updated: bool)
      requires Valid()
      modifies this`tasks
      ensures Valid()
      ensures updated <==> Owned(old(Contents()), t, w)
      ensures Contents() == if updated then WithTask(old(Contents()), t,
                                                     ReleasedRow(old(tasks)[t], nextRunAt, error, at, now))
                            else old(Contents())
      ensures nextRunAt == Some(at + cfg.unsupportedDelay) && error == Some(UNSUPPORTED_ERROR) ==>
                Contents() == ReleaseUnsupported(cfg, old(Contents()), now, t, w, at).db
    {
      updated := false;
      if t in tasks {
        updated := UpdateOwned(t, w, ReleasedRow(tasks[t], nextRunAt, error, at, now));
      }
    }

    // -------------------------------------------------------------- claim

    /** claim_one_task: takes the first eligible row in claim order, skipping locked ones, and
        finds nothing only when no row is eligible. */
    method ClaimOneTask(locked: set<TaskId>, now: Time, w: WorkerId) returns (claimed: Option<ClaimedTask>)
      requires Valid()
      modifies this`tasks
      ensures Valid()
      ensures match claimed
              case None => Contents() == old(Contents()) && forall t :: !Eligible(old(tasks), locked, now, t)
              case Some(task) =>
                && IsCandidate(old(tasks), locked, now, task.id)
                && Contents() == Claim(cfg, old(Contents()), now, task.id, w)
                && tasks == old(tasks)[task.id := old(tasks)[task.id].(
                              status := Running, lockedBy := Some(w), lockedUntil := Some(now + 30 * cfg.second),
                              updatedAt := now)]
                && task == ClaimedTask(task.id, old(tasks)[task.id].orderId, old(tasks)[task.id].taskType,
                                       old(tasks)[task.id].target)
    {
      claimed := None;
      if exists t :: t in tasks && IsCandidate(tasks, locked, now, t) {
        var t :| t in tasks && IsCandidate(tasks, locked, now, t);
        claimed := Some(ClaimedTask(t, tasks[t].orderId, tasks[t].taskType, tasks[t].target));
        RowUpdateKeepsConstraints(Contents(), t, ClaimedRow(cfg, tasks[t], w, now));
        tasks := tasks[t := ClaimedRow(cfg, tasks[t], w, now)];
      } else {
        forall t
          ensures !Eligible(tasks, locked, now, t)
        {
          if Eligible(tasks, locked, now, t) {
            var c := CandidateExists(tasks, locked, now, t);
            assert false;
          }
        }
      }
    }

    // -------------------------------------------------------------- shared checks

    /** The opening of every worker transaction: None means the caller goes on. */
    method SettleFirst(t: TaskId, w: WorkerId, source: OrderState, at: Time, now: Time) returns (done: Option<Action>)
      requires Valid()
      modifies this`tasks
      ensures Valid()
      ensures match Settle(old(Contents()), now, t, w, source, at)
              case Some(tx) => done == Some(tx.action) && Contents() == tx.db
              case None => done == None && Contents() == old(Contents())
    {
      done := OwnershipCheck(if t in tasks && tasks[t].orderId in orders then Some(tasks[t]) else None, w);
      if done == None {
        var state := orders[tasks[t].orderId].state;
        if IsTerminal(state) {
          var updated := CompleteClaimedTask(t, w, at, now);
          done := Some(TerminalNoop);
        } else if state != source {
          var updated := CompleteClaimedTask(t, w, at, now);
          done := Some(StaleNoop);
        }
      }
    }

    /** _retry_or_fail_claimed_task, given the budget columns its caller read. */
    method RetryOrFailClaimedTask(t: TaskId, w: WorkerId, attempts: int, maxAttempts: int, nextRunAt: Time,
                                  error: string,
                                  at: Time, now: Time) returns (action: Action)
      requires Valid()
      modifies this`tasks
      ensures Valid()
      ensures !Owned(old(Contents()), t, w) ==> action == LostOwnership && Contents() == old(Contents())
      ensures Owned(old(Contents()), t, w) ==>
                if attempts + 1 >= maxAttempts
                then action == Exhausted
                     && Contents() == WithTask(old(Contents()), t, ExhaustedRow(old(tasks)[t], error, at, now))
                else action == RetryScheduled
                     && Contents() == WithTask(old(Contents()), t, RetriedRow(old(tasks)[t], nextRunAt, error, at, now))
      ensures (Owned(old(Contents()), t, w) && attempts == old(tasks)[t].attempts
               && maxAttempts == old(tasks)[t].maxAttempts && nextRunAt == at + RetryDelay(cfg, attempts)) ==>
                TxResult(Contents(), action) == RetryOrFail(cfg, old(Contents()), now, t, error, at)
    {
      var updated;
      if attempts + 1 >= maxAttempts {
        updated := FailClaimedTask(t, w, error, at, now);
        action := if updated then Exhausted else LostOwnership;
      } else {
        updated := RescheduleClaimedTask(t, w, nextRunAt, error, at, now);
        action := if updated then RetryScheduled else LostOwnership;
      }
    }

    /** The same with the columns of the row as it is now. */
    method SpendAttempt(t: TaskId, w: WorkerId, error: string, at: Time, now: Time) returns (action: Action)
      requires Valid() && Owned(Contents(), t, w)
      modifies this`tasks
      ensures Valid()
      ensures TxResult(Contents(), action) == RetryOrFail(cfg, old(Contents()), now, t, error, at)
    {
      var row := tasks[t];
      action := RetryOrFailClaimedTask(t, w, row.attempts, row.maxAttempts, at + RetryDelay(cfg, row.attempts), error,
                                       at, now);
    }

    // -------------------------------------------------------------- prepare

    /** _prepare_transition_call and _prepare_courier_assign_call. */
    method PrepareTransitionCall(t: TaskId, w: WorkerId, handler: Handler, at: Time, now: Time)
      returns (prepared: Prepared)
      requires Valid() && !handler.Polls()
      modifies this`tasks
      ensures Valid()
      ensures match Prepare(cfg, old(Contents()), now, t, w, handler, at)
              case Stop(tx) => prepared == Skip(tx.action) && Contents() == tx.db
              case Proceed(call) => prepared == Call(call) && Contents() == old(Contents())
    {
      var done := SettleFirst(t, w, SpecOf(handler).source, at, now);
      if done.Some? {
        prepared := Skip(done.value);
      } else {
        var row := tasks[t];
        var order := orders[row.orderId];
        var started := LatestOccurrence(Select(events, SourceQuery(row.orderId, handler)));
        prepared := Call(DownstreamCall(row.orderId, order.restaurantRef, started.GetOr(order.updatedAt)));
      }
    }

    /** _prepare_ready_check_call and _prepare_delivery_check_call. */
    method PreparePollCall(t: TaskId, w: WorkerId, handler: Handler, at: Time, now: Time) returns (prepared: Prepared)
      requires Valid() && handler.Polls()
      modifies this`tasks
      ensures Valid()
      ensures match Prepare(cfg, old(Contents()), now, t, w, handler, at)
              case Stop(tx) => prepared == Skip(tx.action) && Contents() == tx.db
              case Proceed(call) => prepared == Call(call) && Contents() == old(Contents())
    {
      var done := SettleFirst(t, w, SpecOf(handler).source, at, now);
      if done.Some? {
        prepared := Skip(done.value);
      } else {
        var row := tasks[t];
        var order := orders[row.orderId];
        var started := LatestOccurrence(Select(events, SourceQuery(row.orderId, handler)));
        var problem :=
          if row.deadlineAt == None then Some(MissingDeadlineError(handler))
          else if started == None then Some(MissingEventError(handler))
          else if handler.DeliveryCheck? && order.courierRef == None then Some(MISSING_COURIER_ERROR)
          else None;
        if problem.Some? {
          var action := SpendAttempt(t, w, problem.value, at, now);
          prepared := Skip(action);
        } else {
          var ref := if handler.DeliveryCheck? then order.courierRef.value else order.restaurantRef;
          prepared := Call(DownstreamCall(row.orderId, ref, started.value));
        }
      }
    }

    // -------------------------------------------------------------- after the call

    /** _reschedule_transition_task: command tasks check ownership only. */
    method RescheduleTransitionTask(t: TaskId, w: WorkerId, handler: Handler, error: string, at: Time, now: Time)
      returns (action: Action)
      requires Valid() && !handler.Polls()
      modifies this`tasks
      ensures Valid()
      ensures TxResult(Contents(), action) == FinishError(cfg, old(Contents()), now, t, w, handler, error, at)
    {
      var skip := OwnershipCheck(if t in tasks then Some(tasks[t]) else None, w);
      if skip.Some? {
        action := skip.value;
      } else {
        action := SpendAttempt(t, w, error, at, now);
      }
    }

    /** _reschedule_ready_check_after_error and _reschedule_delivery_check_after_error. */
    method ReschedulePollAfterError(t: TaskId, w: WorkerId, handler: Handler, error: string, at: Time, now: Time)
      returns (action: Action)
      requires Valid() && handler.Polls()
      modifies this`tasks
      ensures Valid()
      ensures TxResult(Contents(), action) == FinishError(cfg, old(Contents()), now, t, w, handler, error, at)
    {
      var done := SettleFirst(t, w, SpecOf(handler).source, at, now);
      if done.Some? {
        action := done.value;
      } else {
        action := SpendAttempt(t, w, error, at, now);
      }
    }

    /** _reschedule_transition_after_pending. */
    method RescheduleTransitionAfterPending(t: TaskId, w: WorkerId, handler: Handler, hint: Option<int>, at: Time,
                                            now: Time) returns (action: Action)
      requires Valid() && !handler.Polls()
      modifies this`tasks
      ensures Valid()
      ensures TxResult(Contents(), action) == FinishNotYet(cfg, old(Contents()), now, t, w, handler, hint, at)
    {
      PendingOutcome(cfg, Contents(), now, t, w, handler, hint, at);
      var nextRunAt := at + HintOr(hint, cfg.retryBase);
      var done := SettleFirst(t, w, SpecOf(handler).source, at, now);
      if done.Some? {
        action := done.value;
      } else {
        var updated := ReschedulePollTask(t, w, nextRunAt, at, now);
        action := if updated then PollScheduled else LostOwnership;
      }
    }

    /** _reschedule_ready_check_after_not_ready and _reschedule_delivery_check_after_in_transit. */
    method ReschedulePollAfterNotYet(t: TaskId, w: WorkerId, handler: Handler, hint: Option<int>, at: Time, now: Time)
      returns (action: Action)
      requires Valid() && handler.Polls()
      modifies this`tasks
      ensures Valid()
      ensures TxResult(Contents(), action) == FinishNotYet(cfg, old(Contents()), now, t, w, handler, hint, at)
      ensures action == PollScheduled ==>
                && t in tasks && tasks[t].status == Pending && tasks[t].deadlineAt.Some?
                && at < tasks[t].deadlineAt.value
                && tasks[t].nextRunAt == NextPoll(cfg, handler, hint, at, tasks[t].deadlineAt.value)
    {
      PollOutcome(cfg, Contents(), now, t, w, handler, hint, at);
      var done := SettleFirst(t, w, SpecOf(handler).source, at, now);
      if done.Some? {
        action := done.value;
      } else if tasks[t].deadlineAt == None {
        action := SpendAttempt(t, w, MissingDeadlineError(handler), at, now);
      } else if at >= tasks[t].deadlineAt.value {
        var updated := FailWithoutAttemptIncrement(t, w, TimeoutError(handler), at, now);
        action := if updated then TimedOut else LostOwnership;
      } else {
        var delay := HintOr(hint, PollInterval(cfg, handler));
        var updated := ReschedulePollTask(t, w, BoundedPoll(at, delay, tasks[t].deadlineAt.value), at, now);
        action := if updated then PollScheduled else LostOwnership;
      }
    }

    // -------------------------------------------------------------- finalize

    /** The opening of _finalize_transition_task: lock the task row, check it, and read the
        order version the guarded update will ask for. */
    method LoadForFinalize(t: TaskId, w: WorkerId, source: OrderState, at: Time, now: Time)
      returns (load: Option<int>, action: Action)
      requires Valid()
      modifies this`tasks
      ensures Valid()
      ensures match LoadForTransition(old(Contents()), now, t, w, source, at)
              case LoadStop(tx) => load == None && action == tx.action && Contents() == tx.db
              case Loaded(version) => load == Some(version) && Contents() == old(Contents())
    {
      var done := SettleFirst(t, w, source, at, now);
      if done.Some? {
        load, action := None, done.value;
      } else {
        load, action := Some(orders[tasks[t].orderId].version), Transitioned;
      }
    }

    /** `insert into order_tasks ... on conflict (dedupe_key) where active do nothing`. */
    method InsertFollowupTask(t: TaskId, row: Task)
      requires Valid() && t !in tasks && row.dedupeKey.Some? && row.orderId in orders
      requires 0 <= row.attempts && 0 < row.maxAttempts
      modifies this`tasks
      ensures Valid()
      ensures tasks == InsertFollowup(old(tasks), t, row)
    {
      if !ActiveKey(tasks, row.dedupeKey.value) {
        tasks := tasks[t := row];
      }
    }

    /** The rest of _finalize_transition_task, with the version it read; the task row is still
        locked, so the worker still owns it. */
    method CommitFinalize(t: TaskId, w: WorkerId, spec: TransitionSpec, version: int, courier: Option<string>,
                          newId: TaskId, at: Time, now: Time)
      returns (action: Action)
      requires Valid() && OwnedJoined(Contents(), t, w) && newId !in tasks
      modifies this
      ensures Valid()
      ensures TxResult(Contents(), action) == CommitTransition(cfg, old(Contents()), now, t, w, spec, version, courier,
                                                               newId, at)
    {
      var o := tasks[t].orderId;
      if orders[o].version != version || orders[o].state != spec.source {
        var updated := CompleteClaimedTask(t, w, at, now);
        action := OptimisticNoop;
      } else {
        OrderUpdateKeepsConstraints(Contents(), o, TransitionedOrder(orders[o], spec, courier, at, now));
        orders := orders[o := TransitionedOrder(orders[o], spec, courier, at, now)];
        EventKeepsConstraints(Contents(), TransitionEvent(o, spec, t, w, at));
        events := events + [TransitionEvent(o, spec, t, w, at)];
        if spec.nextType.Some? && spec.nextTarget.Some? {
          var plan := FollowupSchedule(cfg, spec, at);
          InsertFollowupTask(newId, NewTask(cfg, o, spec.nextType.value, spec.nextTarget.value, plan, at));
        }
        var updated := CompleteClaimedTask(t, w, at, now);
        action := Transitioned;
      }
    }

    // -------------------------------------------------------------- API

    /** create_or_get_order. */
    method CreateOrGetOrder(req: OrderRequest, o: OrderId, t: TaskId, at: Time) returns (outcome: CreateOutcome)
      requires Valid() && o !in orders && t !in tasks
      modifies this
      ensures Valid()
      ensures CreateResult(Contents(), outcome) == CreateOrGet(cfg, old(Contents()), req, o, t, at)
    {
      if KeyTaken(orders, req.key) {
        var existing :| existing in orders && HasKey(orders, existing, req.key);
        outcome := if SameBody(orders[existing], req) then Reused(existing) else Conflict(existing);
      } else if ActiveKey(tasks, DedupeKey(o, AdvanceState, Confirmed)) {
        outcome := Rejected;
      } else {
        orders := orders[o := NewOrder(req, at)];
        events := events + [CreationEvent(o, at)];
        tasks := tasks[t := FirstTask(cfg, o, at)];
        outcome := Accepted(o);
      }
    }

    /** cancel_order. */
    method CancelOrder(o: OrderId, at: Time, now: Time) returns (outcome: CancelOutcome)
      requires Valid()
      modifies this
      ensures Valid()
      ensures CancelResult(Contents(), outcome) == Transactions.CancelOrder(old(Contents()), now, o, at)
      ensures outcome == CancelledNow <==> o in old(orders) && NextOrderState(old(orders)[o].state).Some?
      ensures outcome == CancelledNow ==>
                && orders[o].state == Cancelled && tasks.Keys == old(tasks.Keys)
                && forall t :: t in tasks ==>
                     if old(tasks)[t].orderId == o
                        && (old(tasks)[t].status == Pending || old(tasks)[t].status == Running)
                     then tasks[t].status == TaskCancelled && tasks[t].lockedBy == None && tasks[t].lockedUntil == None
                          && tasks[t].lastError == Some("order cancelled by operator")
                     else tasks[t] == old(tasks)[t]
    {
      if o !in orders {
        outcome := NoSuchOrder;
      } else if IsTerminal(orders[o].state) {
        outcome := AlreadyTerminal;
      } else {
        var from := orders[o].state;
        orders := orders[o := CancelledOrder(orders[o], at, now)];
        var open := OpenTasks(tasks, o);
        tasks := WithCancelledTasks(tasks, open, at, now);
        events := events + [CancelEvent(o, from, open, at)];
        outcome := CancelledNow;
      }
    }

    /** retry_failed_tasks_for_order: one update reopens the failed rows, then a loop appends
        one event per row in the order the database returned them. A unique violation rolls
        everything back. */
    method RetryFailedTasks(o: OrderId, at: Time, now: Time)
      returns (outcome: RetryOutcome, retried: nat, ghost ids: seq<TaskId>)
      requires Valid()
      modifies this
      ensures Valid()
      ensures Lists(ids, FailedTasks(old(tasks), o))
      ensures RetryResult(Contents(), outcome) == RetryFailed(cfg, old(Contents()), now, o, ids, at)
      ensures retried == if outcome == Reopened then |FailedTasks(old(tasks), o)| else 0
    {
      var failed := FailedTasks(tasks, o);
      retried := 0;
      if o !in orders {
        outcome := UnknownOrder;
        ids := AnyListing(failed);
      } else {
        var reopened := WithReopenedTasks(cfg, tasks, failed, at, now);
        if !ActiveKeysUnique(reopened) {
          outcome := UniqueViolation;
          ids := AnyListing(failed);
        } else {
          var rows := tasks;
          tasks := reopened;
          ids := AppendReopenEvents(o, failed, rows, at);
          retried := |failed|;
          outcome := Reopened;
        }
      }
    }

    method AppendReopenEvents(o: OrderId, failed: set<TaskId>, rows: map<TaskId, Task>, at: Time)
      returns (ghost ids: seq<TaskId>)
      requires failed <= rows.Keys && o in orders && Valid()
      modifies this`events
      ensures Valid() && Lists(ids, failed)
      ensures events == old(events) + ReopenEvents(rows, o, ids, at)
    {
      ids := [];
      var rest := failed;
      while rest != {}
        invariant rest <= failed && Lists(ids, failed - rest) && Valid()
        invariant forall t :: t in ids ==> t in rows
        invariant events == old(events) + ReopenEvents(rows, o, ids, at)
        decreases rest
      {
        var t :| t in rest;
        ReopenOneMore(rows, o, ids, t, at);
        EventKeepsConstraints(Contents(), ReopenEvent(o, t, rows[t], at));
        events := events + [ReopenEvent(o, t, rows[t], at)];
        rest := rest - {t};
        ids := ids + [t];
      }
    }
  }
}
