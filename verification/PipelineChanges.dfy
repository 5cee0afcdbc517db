/** Every step of a state that satisfies the invariant is one of six kinds of change. */
module PipelineChanges {
  import opened Optional
  import opened OrderLifecycle
  import opened Rows
  import opened Settings
  import opened TransitionSpecs
  import opened Transactions
  import opened Pipeline
  import opened PipelineInvariant
  import opened PipelineSteps
  import opened PipelineOrderSteps

  datatype Change =
    | NoChange
    | RowChange(taskId: TaskId, row: Task)
    | NewOrderChange(orderId: OrderId, taskId: TaskId, req: OrderRequest, at: Time)
    | HopChange(worker: WorkerId, orderId: OrderId, stage: nat, taskId: TaskId, newId: TaskId)
    | CancelChange(orderId: OrderId, at: Time)
    | ReopenChange(orderId: OrderId, ids: seq<TaskId>, at: Time)

  /** What a worker may write to a running row without touching the order: release it back to
      the queue, fail it, or, only if the order is cancelled, complete it. */
  ghost predicate RowChangeOk(cfg: Config, s: System, s': System, t: TaskId, row: Task) {
    && t in s.db.tasks && t in s.hist && t in s'.hist
    && s.db.tasks[t].orderId in s.db.orders
    && s'.db == WithTask(s.db, t, row)
    && s'.hist == s.hist[t := s'.hist[t]]
    && s'.hist[t].epoch == s.hist[t].epoch + 1
    && s.db.tasks[t].Active()
    && row.orderId == s.db.tasks[t].orderId && row.createdAt == s.db.tasks[t].createdAt
    && row.taskType == s.db.tasks[t].taskType && row.target == s.db.tasks[t].target
    && (row.status == Completed ==> OrderOf(s.db, t).state == Cancelled)
  }

  ghost predicate ChangeOk(cfg: Config, s: System, s': System, c: Change) {
    match c
    case NoChange => s'.db == s.db && s'.work == s.work && s'.hist == s.hist
    case RowChange(t, row) => s'.work == s.work && RowChangeOk(cfg, s, s', t, row)
    case NewOrderChange(o, t, req, at) =>
      && o !in s.db.orders && t !in s.db.tasks && !KeyTaken(s.db.orders, req.key)
      && s' == Created(cfg, s, req, o, t, at)
    case HopChange(w, o, k, t, newId) =>
      && ReadyToCommit(cfg, s, w, newId, o, k, t)
      && s' == Hopped(cfg, s, w, o, k, t, newId)
    case CancelChange(o, at) =>
      && o in s.db.orders && !IsTerminal(s.db.orders[o].state)
      && s' == Advance(cfg, AfterCancel(s, o, at))
    case ReopenChange(o, ids, at) =>
      && o in s.db.orders && Lists(ids, FailedTasks(s.db.tasks, o))
      && s' == ReopenedState(cfg, s, o, ids, at)
  }

  /** A worker transaction that either found the task lost, or rewrote the worker's own row
      without changing what the task is, completing it only for a cancelled order. */
  ghost predicate OwnRowOnly(s: System, w: WorkerId, tx: TxResult)
    requires HasTask(s, w)
  {
    var t := s.workers[w].task.id;
    || (tx.db == s.db && (tx.action == MissingTask || tx.action == NotRunning || tx.action == LostOwnership))
    || (&& Owned(s.db, t, w) && t in tx.db.tasks && tx.db == WithTask(s.db, t, tx.db.tasks[t])
        && t in s.hist && HistoryAfter(s.hist[t], tx.action).epoch == s.hist[t].epoch + 1
        && tx.db.tasks[t].orderId == s.db.tasks[t].orderId
        && tx.db.tasks[t].createdAt == s.db.tasks[t].createdAt
        && tx.db.tasks[t].taskType == s.db.tasks[t].taskType && tx.db.tasks[t].target == s.db.tasks[t].target
        && (tx.db.tasks[t].status == Completed && s.db.tasks[t].orderId in s.db.orders
            ==> OrderOf(s.db, t).state == Cancelled))
  }

  lemma SettledChange(cfg: Config, s: System, w: WorkerId, tx: TxResult) returns (c: Change)
    requires Inv(cfg, s) && HasTask(s, w) && OwnRowOnly(s, w, tx)
    ensures c.NoChange? || c.RowChange?
    ensures ChangeOk(cfg, s, Advance(cfg, SettledBy(s, w, s.workers[w].task.id, tx)), c)
  {
    var t := s.workers[w].task.id;
    assert WorkerOk(cfg, s, s.workers[w], w);
    if tx.db == s.db && (tx.action == MissingTask || tx.action == NotRunning || tx.action == LostOwnership) {
      c := NoChange;
    } else {
      var o, k := OwnedTask(cfg, s, w);
      c := RowChange(t, tx.db.tasks[t]);
    }
  }

  lemma SettleIsOwnRow(cfg: Config, s: System, w: WorkerId, source: OrderState, at: Time)
    requires Inv(cfg, s) && HasTask(s, w) && HandlerOf(s.workers[w].task).Some?
    requires source == SpecOf(HandlerOf(s.workers[w].task).value).source
    requires Settle(s.db, s.now, s.workers[w].task.id, w, source, at).Some?
    ensures OwnRowOnly(s, w, Settle(s.db, s.now, s.workers[w].task.id, w, source, at).value)
  {
    SettleOutcome(cfg, s, w, source, at);
    assert WorkerOk(cfg, s, s.workers[w], w);
  }

  lemma RetryIsOwnRow(cfg: Config, s: System, w: WorkerId, error: string, at: Time)
    requires HasTask(s, w) && s.workers[w].task.id in s.hist && Owned(s.db, s.workers[w].task.id, w)
    ensures OwnRowOnly(s, w, RetryOrFail(cfg, s.db, s.now, s.workers[w].task.id, error, at))
  {
  }

  lemma ErrorIsOwnRow(cfg: Config, s: System, w: WorkerId, error: string, at: Time)
    requires Inv(cfg, s) && HasTask(s, w) && HandlerOf(s.workers[w].task).Some?
    ensures OwnRowOnly(s, w, FinishError(cfg, s.db, s.now, s.workers[w].task.id, w,
                                         HandlerOf(s.workers[w].task).value, error, at))
  {
    var t, handler := s.workers[w].task.id, HandlerOf(s.workers[w].task).value;
    assert WorkerOk(cfg, s, s.workers[w], w);
    SettleOutcome(cfg, s, w, SpecOf(handler).source, at);
    if handler.Polls() && Settle(s.db, s.now, t, w, SpecOf(handler).source, at).Some? {
      SettleIsOwnRow(cfg, s, w, SpecOf(handler).source, at);
    } else if Owned(s.db, t, w) {
      RetryIsOwnRow(cfg, s, w, error, at);
    }
  }

  lemma NotYetIsOwnRow(cfg: Config, s: System, w: WorkerId, hint: Option<int>, at: Time)
    requires Inv(cfg, s) && HasTask(s, w) && HandlerOf(s.workers[w].task).Some?
    ensures OwnRowOnly(s, w, FinishNotYet(cfg, s.db, s.now, s.workers[w].task.id, w,
                                          HandlerOf(s.workers[w].task).value, hint, at))
  {
    var t, handler := s.workers[w].task.id, HandlerOf(s.workers[w].task).value;
    SettleOutcome(cfg, s, w, SpecOf(handler).source, at);
    if Settle(s.db, s.now, t, w, SpecOf(handler).source, at).Some? {
      SettleIsOwnRow(cfg, s, w, SpecOf(handler).source, at);
    } else {
      var o, k := OwnedTask(cfg, s, w);
      NotYetRowFits(cfg, s, w, hint, at, o, k);
    }
  }

  lemma ReleaseIsOwnRow(cfg: Config, s: System, w: WorkerId, at: Time)
    requires Inv(cfg, s) && HasTask(s, w)
    ensures OwnRowOnly(s, w, ReleaseUnsupported(cfg, s.db, s.now, s.workers[w].task.id, w, at))
  {
    assert WorkerOk(cfg, s, s.workers[w], w);
  }

  lemma PrepareChange(cfg: Config, s: System, w: WorkerId, at: Time) returns (c: Change)
    requires Inv(cfg, s) && Enabled(s, PrepareCall(w, at))
    ensures c.NoChange? || c.RowChange?
    ensures ChangeOk(cfg, s, Advance(cfg, AfterPrepare(cfg, s, w, at)), c)
  {
    var source := SpecOf(HandlerOf(s.workers[w].task).value).source;
    PrepareOutcome(cfg, s, w, at);
    if Settle(s.db, s.now, s.workers[w].task.id, w, source, at).Some? {
      SettleIsOwnRow(cfg, s, w, source, at);
      c := SettledChange(cfg, s, w, Settle(s.db, s.now, s.workers[w].task.id, w, source, at).value);
    } else {
      c := NoChange;
    }
  }

  lemma LoadChange(cfg: Config, s: System, w: WorkerId, courier: Option<string>, at: Time) returns (c: Change)
    requires Inv(cfg, s) && Enabled(s, CallSucceeded(w, courier, at))
    ensures c.NoChange? || c.RowChange?
    ensures ChangeOk(cfg, s, Advance(cfg, AfterLoad(s, w, courier, at)), c)
  {
    var source := SpecOf(HandlerOf(s.workers[w].task).value).source;
    if Settle(s.db, s.now, s.workers[w].task.id, w, source, at).Some? {
      SettleIsOwnRow(cfg, s, w, source, at);
      c := SettledChange(cfg, s, w, Settle(s.db, s.now, s.workers[w].task.id, w, source, at).value);
    } else {
      c := NoChange;
    }
  }

  lemma ClaimChange(cfg: Config, s: System, w: WorkerId, t: TaskId) returns (c: Change)
    requires Inv(cfg, s) && Enabled(s, ClaimTask(w, t))
    ensures c.RowChange? && c.taskId == t && c.row == ClaimedRow(cfg, s.db.tasks[t], w, s.now)
    ensures ChangeOk(cfg, s, Advance(cfg, AfterClaim(cfg, s, w, t)), c)
  {
    var o, k := TaskFacts(cfg, s, t);
    c := RowChange(t, ClaimedRow(cfg, s.db.tasks[t], w, s.now));
  }

  /** Steps of one worker on its own task, other than the commit of a transition. */
  lemma WorkerStepChange(cfg: Config, s: System, step: Step) returns (c: Change)
    requires Inv(cfg, s) && Enabled(s, step)
    requires IsRowStep(step)
    ensures c.NoChange? || c.RowChange?
    ensures ChangeOk(cfg, s, Next(cfg, s, step), c)
  {
    match step
    case ClaimTask(w, t) => c := ClaimChange(cfg, s, w, t);
    case PrepareCall(w, at) => c := PrepareChange(cfg, s, w, at);
    case CallSucceeded(w, courier, at) => c := LoadChange(cfg, s, w, courier, at);
    case CallFailed(w, error, at) =>
      ErrorIsOwnRow(cfg, s, w, error, at);
      c := SettledChange(cfg, s, w, FinishError(cfg, s.db, s.now, s.workers[w].task.id, w,
                                                HandlerOf(s.workers[w].task).value, error, at));
    case CallNotYet(w, _, hint, at) =>
      NotYetIsOwnRow(cfg, s, w, hint, at);
      c := SettledChange(cfg, s, w, FinishNotYet(cfg, s.db, s.now, s.workers[w].task.id, w,
                                                 HandlerOf(s.workers[w].task).value, hint, at));
    case ReleaseTask(w, at) =>
      ReleaseIsOwnRow(cfg, s, w, at);
      c := SettledChange(cfg, s, w, ReleaseUnsupported(cfg, s.db, s.now, s.workers[w].task.id, w, at));
  }

  lemma CreateChange(cfg: Config, s: System, req: OrderRequest, o: OrderId, t: TaskId, at: Time) returns (c: Change)
    requires Enabled(s, CreateOrder(req, o, t, at))
    ensures ChangeOk(cfg, s, Advance(cfg, AfterCreate(cfg, s, req, o, t, at)), c)
    ensures c == NoChange || c == NewOrderChange(o, t, req, at)
  {
    if CreateOrGet(cfg, s.db, req, o, t, at).outcome.Accepted? {
      c := NewOrderChange(o, t, req, at);
    } else {
      c := NoChange;
    }
  }

  lemma CommitChange(cfg: Config, s: System, w: WorkerId, newId: TaskId) returns (c: Change)
    requires Inv(cfg, s) && Enabled(s, CommitFinalize(w, newId))
    ensures ChangeOk(cfg, s, Advance(cfg, AfterCommit(cfg, s, w, newId)), c)
    ensures c.HopChange? && c.worker == w
  {
    var o, k := CommitIsReady(cfg, s, w, newId);
    CommitSucceeds(cfg, s, w, newId, o, k, s.workers[w].task.id);
    c := HopChange(w, o, k, s.workers[w].task.id, newId);
  }

  lemma CancelChangeOf(cfg: Config, s: System, o: OrderId, at: Time) returns (c: Change)
    ensures ChangeOk(cfg, s, Advance(cfg, AfterCancel(s, o, at)), c)
    ensures c == NoChange || c == CancelChange(o, at)
  {
    c := if o in s.db.orders && !IsTerminal(s.db.orders[o].state) then CancelChange(o, at) else NoChange;
  }

  lemma ReopenChangeOf(cfg: Config, s: System, o: OrderId, ids: seq<TaskId>, at: Time) returns (c: Change)
    requires Lists(ids, FailedTasks(s.db.tasks, o))
    ensures ChangeOk(cfg, s, Advance(cfg, AfterOperatorRetry(cfg, s, o, ids, at)), c)
    ensures c == NoChange || c == ReopenChange(o, ids, at)
  {
    c := if RetryFailed(cfg, s.db, s.now, o, ids, at).outcome == Reopened then ReopenChange(o, ids, at) else NoChange;
  }

  /** Steps that change no table. */
  predicate IsQuiet(step: Step) {
    step.StartWorker? || step.StopWorker? || step.Abandon? || step.Tick?
  }

  /** Steps in which a worker writes nothing but the row of one task. */
  predicate IsRowStep(step: Step) {
    step.ClaimTask? || step.PrepareCall? || step.CallFailed? || step.CallNotYet?
    || step.CallSucceeded? || step.ReleaseTask?
  }

  /** The kind of change and its parts are those of the step. */
  predicate FitsStep(step: Step, c: Change) {
    && (c.HopChange? <==> step.CommitFinalize?)
    && (c.HopChange? ==> c.worker == step.worker)
    && (c.NewOrderChange? ==> step == CreateOrder(c.req, c.orderId, c.taskId, c.at))
    && (c.ReopenChange? ==> step == OperatorRetry(c.orderId, c.ids, c.at))
    && (c.CancelChange? ==> step == Cancel(c.orderId, c.at))
    && (c.RowChange? ==> IsRowStep(step))
  }

  lemma QuietChange(cfg: Config, s: System, step: Step)
    requires Enabled(s, step) && IsQuiet(step)
    ensures ChangeOk(cfg, s, Next(cfg, s, step), NoChange)
  {
  }

  lemma Classify(cfg: Config, s: System, step: Step) returns (c: Change)
    requires Inv(cfg, s) && Enabled(s, step)
    ensures ChangeOk(cfg, s, Next(cfg, s, step), c) && FitsStep(step, c)
  {
    if IsQuiet(step) {
      QuietChange(cfg, s, step);
      c := NoChange;
    } else if IsRowStep(step) {
      c := WorkerStepChange(cfg, s, step);
    } else if step.CommitFinalize? {
      c := CommitChange(cfg, s, step.worker, step.taskId);
    } else {
      c := RequestChange(cfg, s, step);
    }
  }

  lemma RequestChange(cfg: Config, s: System, step: Step) returns (c: Change)
    requires Enabled(s, step) && (step.CreateOrder? || step.Cancel? || step.OperatorRetry?)
    ensures ChangeOk(cfg, s, Next(cfg, s, step), c) && FitsStep(step, c)
  {
    if step.CreateOrder? {
      c := CreateChange(cfg, s, step.req, step.orderId, step.taskId, step.at);
    } else if step.Cancel? {
      c := CancelChangeOf(cfg, s, step.orderId, step.at);
    } else {
      c := ReopenChangeOf(cfg, s, step.orderId, step.ids, step.at);
    }
  }

  // ---------------------------------------------------------------- worker transactions

  /** Steps that are one transaction of a worker on the task it holds. */
  predicate HasStepWorker(step: Step) {
    step.PrepareCall? || step.ReleaseTask? || step.CallFailed? || step.CallNotYet? || step.CallSucceeded?
  }

  /** The transaction a worker step settles with, if it settles. */
  function WorkerTx(cfg: Config, s: System, step: Step): Option<TxResult>
    requires HasStepWorker(step) && HasTask(s, step.worker)
    requires !step.ReleaseTask? ==> HandlerOf(s.workers[step.worker].task).Some?
  {
    var w := step.worker;
    var task := s.workers[w].task;
    match step
    case ReleaseTask(_, at) => Some(ReleaseUnsupported(cfg, s.db, s.now, task.id, w, at))
    case CallFailed(_, error, at) => Some(FinishError(cfg, s.db, s.now, task.id, w, HandlerOf(task).value, error, at))
    case CallNotYet(_, _, hint, at) => Some(FinishNotYet(cfg, s.db, s.now, task.id, w, HandlerOf(task).value, hint, at))
    case PrepareCall(_, at) =>
      (match Prepare(cfg, s.db, s.now, task.id, w, HandlerOf(task).value, at)
       case Stop(tx) => Some(tx)
       case Proceed(_) => None)
    case CallSucceeded(_, _, at) =>
      (match LoadForTransition(s.db, s.now, task.id, w, SpecOf(HandlerOf(task).value).source, at)
       case LoadStop(tx) => Some(tx)
       case Loaded(_) => None)
  }

  lemma WorkerTxDb(cfg: Config, s: System, step: Step)
    requires Enabled(s, step) && HasStepWorker(step)
    ensures var tx := WorkerTx(cfg, s, step);
            Next(cfg, s, step).db == if tx.Some? then tx.value.db else s.db
  {
  }

  // ---------------------------------------------------------------- induction over runs

  lemma NextKeepsInv(cfg: Config, s: System, step: Step)
    requires Inv(cfg, s) && Enabled(s, step)
    ensures Inv(cfg, Next(cfg, s, step))
  {
    match step
    case CreateOrder(req, o, t, at) => CreateKeepsInv(cfg, s, req, o, t, at);
    case ClaimTask(w, t) => ClaimKeepsInv(cfg, s, w, t);
    case PrepareCall(w, at) => PrepareKeepsInv(cfg, s, w, at);
    case ReleaseTask(w, at) => ReleaseKeepsInv(cfg, s, w, at);
    case CallFailed(w, error, at) => CallFailedKeepsInv(cfg, s, w, error, at);
    case CallNotYet(w, answeredAt, hint, at) => CallNotYetKeepsInv(cfg, s, w, answeredAt, hint, at);
    case CallSucceeded(w, courier, at) => LoadKeepsInv(cfg, s, w, courier, at);
    case CommitFinalize(w, t) => CommitKeepsInv(cfg, s, w, t);
    case Cancel(o, at) => CancelKeepsInv(cfg, s, o, at);
    case OperatorRetry(o, ids, at) => OperatorRetryKeepsInv(cfg, s, o, ids, at);
    case StartWorker(w) => QuietStep(cfg, s, Next(cfg, s, step));
    case StopWorker(w) => QuietStep(cfg, s, Next(cfg, s, step));
    case Abandon(w) => QuietStep(cfg, s, Next(cfg, s, step));
    case Tick(d) => QuietStep(cfg, s, Next(cfg, s, step));
  }

  lemma {:induction false} RunKeepsInv(cfg: Config, states: seq<System>, steps: seq<Step>, i: nat)
    requires IsRun(cfg, states, steps) && Inv(cfg, states[0]) && i <= |steps|
    ensures Inv(cfg, states[i])
  {
    if i > 0 {
      RunKeepsInv(cfg, states, steps, i - 1);
      NextKeepsInv(cfg, states[i - 1], steps[i - 1]);
    }
  }

  lemma ReachableInv(cfg: Config, s: System)
    requires Reachable(cfg, s)
    ensures Inv(cfg, s)
  {
    var states: seq<System>, steps: seq<Step> :|
      IsRun(cfg, states, steps) && Init(states[0]) && states[|steps|] == s;
    RunKeepsInv(cfg, states, steps, |steps|);
  }

  /** One more step of a run is a run. */
  lemma RunExtends(cfg: Config, states: seq<System>, steps: seq<Step>, step: Step)
    requires IsRun(cfg, states, steps) && Enabled(states[|steps|], step)
    ensures IsRun(cfg, states + [Next(cfg, states[|steps|], step)], steps + [step])
  {
    var states', steps' := states + [Next(cfg, states[|steps|], step)], steps + [step];
    forall i | 0 <= i < |steps'|
      ensures Enabled(states'[i], steps'[i]) && states'[i + 1] == Next(cfg, states'[i], steps'[i])
    {
      assert i < |steps| ==> steps'[i] == steps[i] && states'[i] == states[i] && states'[i + 1] == states[i + 1];
    }
  }

  /** One more step of a reachable state is reachable. */
  lemma ReachableNext(cfg: Config, s: System, step: Step)
    requires Reachable(cfg, s) && Enabled(s, step)
    ensures Reachable(cfg, Next(cfg, s, step))
  {
    var states: seq<System>, steps: seq<Step> :|
      IsRun(cfg, states, steps) && Init(states[0]) && states[|steps|] == s;
    RunExtends(cfg, states, steps, step);
    var states', steps' := states + [Next(cfg, s, step)], steps + [step];
    assert Init(states'[0]) && states'[|steps'|] == Next(cfg, s, step);
  }
}
