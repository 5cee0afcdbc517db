/** What the API does, column by column, and what leases and cancellations mean over runs. */
module RequestLaws {
  import opened Optional
  import opened OrderLifecycle
  import opened Rows
  import opened Settings
  import opened Transactions
  import opened Pipeline
  import opened PipelineInvariant
  import opened PipelineChanges
  import opened PipelineTheorems
  import opened StepLaws

  // ---------------------------------------------------------------- requests can run

  /** Requests wait for nothing but open transactions: with stamps that are not in the future,
      fresh ids and any listing of the failed rows, they are enabled. */
  lemma RequestsRun(s: System, o: OrderId, t: TaskId, req: OrderRequest, ids: seq<TaskId>, at: Time)
    requires at <= s.now
    ensures o !in s.db.orders && t !in s.db.tasks ==> Enabled(s, CreateOrder(req, o, t, at))
    ensures (forall w :: w in s.workers ==> !s.workers[w].Finalizing?) ==> Enabled(s, Cancel(o, at))
    ensures (&& (forall u :: u in ids <==> u in s.db.tasks && s.db.tasks[u].orderId == o
                                           && s.db.tasks[u].status == TaskFailed)
             && (forall i, j :: 0 <= i < j < |ids| ==> ids[i] != ids[j])) ==>
              Enabled(s, OperatorRetry(o, ids, at))
  {
  }

  // ---------------------------------------------------------------- intake

  /** A new key makes one placed order, one creation event and one first task that is due at
      once; nothing else changes. */
  lemma IntakeLaw(cfg: Config, s: System, req: OrderRequest, o: OrderId, t: TaskId, at: Time)
    requires ForeignKeys(s.db) && Enabled(s, CreateOrder(req, o, t, at)) && KeysBelong(s.db)
    requires forall p :: p in s.db.orders ==> s.db.orders[p].idempotencyKey != req.key
    ensures Next(cfg, s, CreateOrder(req, o, t, at)).db == Db(
              s.db.orders[o := Order(req.key, Placed, 0, req.customerRef, req.restaurantRef, None, None, at, at, None)],
              s.db.tasks[t := Task(o, AdvanceState, Some(Confirmed), Pending, 0, cfg.maxAttempts, at, None, None, None,
                                   Some(DedupeKey(o, AdvanceState, Confirmed)), None, at, at, None)],
              s.db.events + [Event(o, OrderCreated, None, None, None, None, at, NoMetadata)])
  {
    assert !ActiveKey(s.db.tasks, DedupeKey(o, AdvanceState, Confirmed));
  }

  /** A row's key names its own order. */
  ghost predicate KeysBelong(db: Db) {
    forall t :: t in db.tasks && db.tasks[t].dedupeKey.Some? ==>
                  db.tasks[t].dedupeKey.value.orderId == db.tasks[t].orderId
  }

  /** A known key changes nothing. */
  lemma RepeatLaw(cfg: Config, s: System, req: OrderRequest, o: OrderId, t: TaskId, at: Time, p: OrderId)
    requires Enabled(s, CreateOrder(req, o, t, at))
    requires p in s.db.orders && s.db.orders[p].idempotencyKey == req.key
    ensures Next(cfg, s, CreateOrder(req, o, t, at)).db == s.db
  {
    assert HasKey(s.db.orders, p, req.key);
  }

  // ---------------------------------------------------------------- cancel

  /** The row may still be worked on. */
  predicate IsOpen(row: Task) {
    row.status == Pending || row.status == Running
  }

  function ChangedRows(before: map<TaskId, Task>, after: map<TaskId, Task>): set<TaskId> {
    set t | t in before && t in after && after[t] != before[t]
  }

  /** Cancelling a live order cancels the order, every task of it that was pending or running,
      and nothing else; the event names exactly the rows that changed. */
  lemma CancelLaw(cfg: Config, s: System, o: OrderId, at: Time)
    requires Enabled(s, Cancel(o, at)) && o in s.db.orders && NextOrderState(s.db.orders[o].state).Some?
    ensures var db', order := Next(cfg, s, Cancel(o, at)).db, s.db.orders[o];
            && db'.orders == s.db.orders[o := order.(
                 state := Cancelled, version := order.version + 1, terminalReason := Some("operator_cancelled"),
                 cancelledAt := if order.cancelledAt.Some? then order.cancelledAt else Some(at),
                 updatedAt := if order.updatedAt == at then s.now else at)]
            && db'.tasks.Keys == s.db.tasks.Keys
            && (forall t :: t in s.db.tasks ==>
                  db'.tasks[t] == if s.db.tasks[t].orderId == o && IsOpen(s.db.tasks[t])
                                  then s.db.tasks[t].(status := TaskCancelled, lockedBy := None, lockedUntil := None,
                                                      lastError := Some("order cancelled by operator"),
                                                      updatedAt := Stamp(s, s.db.tasks[t], at))
                                  else s.db.tasks[t])
            && |db'.events| == |s.db.events| + 1 && db'.events[..|s.db.events|] == s.db.events
            && db'.events[|s.db.events|] == Event(o, OrderCancelled, Some(order.state), Some(Cancelled), None, None, at,
                                                  CancelMetadata(ChangedRows(s.db.tasks, db'.tasks)))
    ensures Next(cfg, s, Cancel(o, at)).workers == s.workers
  {
    var db' := Next(cfg, s, Cancel(o, at)).db;
    assert ChangedRows(s.db.tasks, db'.tasks) == OpenTasks(s.db.tasks, o);
  }

  /** Cancelling an unknown, delivered, cancelled or failed order changes nothing. */
  lemma NoCancelLaw(cfg: Config, s: System, o: OrderId, at: Time)
    requires Enabled(s, Cancel(o, at))
    requires o in s.db.orders ==> NextOrderState(s.db.orders[o].state) == None
    ensures Next(cfg, s, Cancel(o, at)).db == s.db
  {
  }

  /** No task of order o may be worked on. */
  ghost predicate NothingOpen(s: System, o: OrderId) {
    forall t :: t in s.db.tasks && s.db.tasks[t].orderId == o ==> !IsOpen(s.db.tasks[t])
  }

  /** Only an operator retry of the order itself puts work of a cancelled order back. */
  lemma ClosedStaysClosed(cfg: Config, s: System, step: Step, o: OrderId)
    requires Inv(cfg, s) && Enabled(s, step)
    requires o in s.db.orders && s.db.orders[o].state == Cancelled && NothingOpen(s, o)
    requires !(step.OperatorRetry? && step.orderId == o)
    ensures o in Next(cfg, s, step).db.orders && Next(cfg, s, step).db.orders[o].state == Cancelled
    ensures NothingOpen(Next(cfg, s, step), o)
  {
    var c := Classify(cfg, s, step);
    ClosedAcross(cfg, s, Next(cfg, s, step), c, o);
  }

  lemma ClosedAcross(cfg: Config, s: System, s': System, c: Change, o: OrderId)
    requires ChangeOk(cfg, s, s', c) && !(c.ReopenChange? && c.orderId == o)
    requires o in s.db.orders && s.db.orders[o].state == Cancelled && NothingOpen(s, o)
    ensures o in s'.db.orders && s'.db.orders[o].state == Cancelled && NothingOpen(s', o)
  {
  }

  /** After a live order is cancelled it stays cancelled, and none of its tasks is pending or
      running until an operator retries the order's failed ones. */
  lemma {:induction false} CancelledHasNoWork(cfg: Config, states: seq<System>, steps: seq<Step>, o: OrderId, at: Time,
                                              i: nat, j: nat)
    requires IsRun(cfg, states, steps) && Inv(cfg, states[0]) && i < j <= |steps| && steps[i] == Cancel(o, at)
    requires o in states[i].db.orders && NextOrderState(states[i].db.orders[o].state).Some?
    requires forall n :: i < n < j ==> !(steps[n].OperatorRetry? && steps[n].orderId == o)
    ensures o in states[j].db.orders && states[j].db.orders[o].state == Cancelled
    ensures forall t :: t in states[j].db.tasks && states[j].db.tasks[t].orderId == o ==>
                          states[j].db.tasks[t].status != Pending && states[j].db.tasks[t].status != Running
    decreases j
  {
    if i == j - 1 {
      CancelCloses(cfg, states[i], o, at);
    } else {
      CancelledHasNoWork(cfg, states, steps, o, at, i, j - 1);
      ClosedRunStep(cfg, states, steps, o, j - 1);
    }
  }

  lemma CancelCloses(cfg: Config, s: System, o: OrderId, at: Time)
    requires Enabled(s, Cancel(o, at)) && o in s.db.orders && NextOrderState(s.db.orders[o].state).Some?
    ensures var s' := Next(cfg, s, Cancel(o, at));
            o in s'.db.orders && s'.db.orders[o].state == Cancelled && NothingOpen(s', o)
  {
    CancelLaw(cfg, s, o, at);
  }

  lemma ClosedRunStep(cfg: Config, states: seq<System>, steps: seq<Step>, o: OrderId, n: nat)
    requires IsRun(cfg, states, steps) && Inv(cfg, states[0]) && n < |steps|
    requires o in states[n].db.orders && states[n].db.orders[o].state == Cancelled && NothingOpen(states[n], o)
    requires !(steps[n].OperatorRetry? && steps[n].orderId == o)
    ensures o in states[n + 1].db.orders && states[n + 1].db.orders[o].state == Cancelled
    ensures NothingOpen(states[n + 1], o)
  {
    RunKeepsInv(cfg, states, steps, n);
    ClosedStaysClosed(cfg, states[n], steps[n], o);
  }

  // ---------------------------------------------------------------- operator retry

  /** Every failed row of the order is queued anew, due at once, with a full budget; a check
      gets a deadline as long after the retry as the old one was after its creation, at least a
      second, and sixty seconds if it had none; one event per row tells what was reset. */
  lemma ReopenLaw(cfg: Config, s: System, o: OrderId, ids: seq<TaskId>, at: Time)
    requires Inv(cfg, s) && Enabled(s, OperatorRetry(o, ids, at)) && o in s.db.orders
    ensures Reopens(cfg, s, Next(cfg, s, OperatorRetry(o, ids, at)).db, o, ids, at)
    ensures Next(cfg, s, OperatorRetry(o, ids, at)).workers == s.workers
  {
    ReopeningKeepsIndex(cfg, s, o, ids, at);
    ReopenTables(cfg, s, o, ids, at);
  }

  function NewDeadline(cfg: Config, row: Task, at: Time): Option<Time> {
    if row.taskType != CheckReady && row.taskType != CheckDelivery then row.deadlineAt
    else if row.deadlineAt == None then Some(at + 60 * cfg.second)
    else if row.deadlineAt.value - row.createdAt < cfg.second then Some(at + cfg.second)
    else Some(at + row.deadlineAt.value - row.createdAt)
  }

  ghost predicate Reopens(cfg: Config, s: System, db': Db, o: OrderId, ids: seq<TaskId>, at: Time)
    requires forall t :: t in ids ==> t in s.db.tasks
  {
    && db'.orders == s.db.orders && db'.tasks.Keys == s.db.tasks.Keys
    && (forall t :: t in s.db.tasks ==>
          var row := s.db.tasks[t];
          db'.tasks[t] == if row.orderId == o && row.status == TaskFailed
                          then row.(status := Pending, attempts := 0, nextRunAt := at,
                                    deadlineAt := NewDeadline(cfg, row, at),
                                    lastError := None, lockedBy := None, lockedUntil := None, completedAt := None,
                                    updatedAt := Stamp(s, row, at))
                          else row)
    && |db'.events| == |s.db.events| + |ids| && db'.events[..|s.db.events|] == s.db.events
    && (forall i :: 0 <= i < |ids| ==>
          var row := s.db.tasks[ids[i]];
          db'.events[|s.db.events| + i]
          == Event(o, RetryEvent, None, None, Some(ids[i]), None, at,
                   RetryMetadata(row.taskType, row.target, row.attempts, row.maxAttempts, row.lastError)))
  }

  lemma ReopenedRowLaw(cfg: Config, s: System, row: Task, at: Time)
    ensures ReopenedRow(cfg, row, at, s.now)
            == row.(status := Pending, attempts := 0, nextRunAt := at, deadlineAt := NewDeadline(cfg, row, at),
                    lastError := None, lockedBy := None, lockedUntil := None, completedAt := None,
                    updatedAt := Stamp(s, row, at))
  {
  }

  lemma ReopenTables(cfg: Config, s: System, o: OrderId, ids: seq<TaskId>, at: Time)
    requires Enabled(s, OperatorRetry(o, ids, at)) && o in s.db.orders
    requires RetryFailed(cfg, s.db, s.now, o, ids, at).outcome != UniqueViolation
    ensures Reopens(cfg, s, RetryFailed(cfg, s.db, s.now, o, ids, at).db, o, ids, at)
  {
    var db' := RetryFailed(cfg, s.db, s.now, o, ids, at).db;
    forall t | t in s.db.tasks
      ensures ReopenedRow(cfg, s.db.tasks[t], at, s.now)
              == s.db.tasks[t].(status := Pending, attempts := 0, nextRunAt := at,
                                deadlineAt := NewDeadline(cfg, s.db.tasks[t], at),
                                lastError := None, lockedBy := None, lockedUntil := None, completedAt := None,
                                updatedAt := Stamp(s, s.db.tasks[t], at))
    {
      ReopenedRowLaw(cfg, s, s.db.tasks[t], at);
    }
    var more := ReopenEvents(s.db.tasks, o, ids, at);
    assert db'.events == s.db.events + more;
    forall i | 0 <= i < |ids|
      ensures db'.events[|s.db.events| + i] == ReopenEvent(o, ids[i], s.db.tasks[ids[i]], at)
    {
      assert db'.events[|s.db.events| + i] == more[i];
    }
  }

  // ---------------------------------------------------------------- leases over runs

  /** Claim steps bind for thirty seconds: while nothing else writes the row, nobody can claim
      the task again within them, and from then on any idle worker can as soon as the row is
      unlocked and no other row is waiting before it. */
  lemma LeaseIsExclusive(cfg: Config, states: seq<System>, steps: seq<Step>, w: WorkerId, t: TaskId, i: nat, n: nat)
    requires IsRun(cfg, states, steps) && i < n <= |steps| && steps[i] == ClaimTask(w, t)
    requires t in states[i + 1].db.tasks && t in states[n].db.tasks
    requires states[n].db.tasks[t] == states[i + 1].db.tasks[t]
    ensures forall v :: Enabled(states[n], ClaimTask(v, t)) ==> states[i].now + 30 * cfg.second < states[n].now
    ensures forall v :: Available(states[n], v, t) && states[i].now + 30 * cfg.second < states[n].now ==>
                          Enabled(states[n], ClaimTask(v, t))
  {
    ClaimLaw(cfg, states[i], w, t);
    assert states[n].db.tasks[t].status == Running
           && states[n].db.tasks[t].lockedUntil == Some(states[i].now + 30 * cfg.second);
    forall v
      ensures Enabled(states[n], ClaimTask(v, t)) ==> states[i].now + 30 * cfg.second < states[n].now
      ensures Available(states[n], v, t) && states[i].now + 30 * cfg.second < states[n].now ==>
                Enabled(states[n], ClaimTask(v, t))
    {
      ClaimChoice(states[n], v, t);
    }
  }

  /** Worker v is idle, no open transaction holds the row, and no other row could be taken. */
  ghost predicate Available(s: System, v: WorkerId, t: TaskId) {
    && v in s.workers && s.workers[v] == Idle
    && (forall w :: w in s.workers && s.workers[w].Finalizing? ==> s.workers[w].task.id != t)
    && (forall u :: u in s.db.tasks && u != t ==> !Takes(s, u))
  }

  /** A queued task can be claimed from its due time on. */
  lemma DueMeansClaimable(s: System, v: WorkerId, t: TaskId)
    requires t in s.db.tasks && s.db.tasks[t].status == Pending && Available(s, v, t)
    ensures Enabled(s, ClaimTask(v, t)) <==> s.db.tasks[t].nextRunAt <= s.now
  {
    ClaimChoice(s, v, t);
  }
}
