/** The pipeline as a step system: the three tables, one clock, and the program counter of
    every live worker process. Each database transaction is one step; a transaction that
    aborts is a step that does not happen. */
module Pipeline {
  import opened Optional
  import opened OrderLifecycle
  import opened Rows
  import opened Settings
  import opened TransitionSpecs
  import opened Transactions

  /** The copy of the row that claim_one_task returns. */
  datatype ClaimedTask = ClaimedTask(id: TaskId, orderId: OrderId, taskType: TaskType, target: Option<OrderState>)

  /** Where a worker is in claim_and_process_one_task. `since` is the clock when its last
      step ended and `epoch` counts the writes of the row up to and including its claim.
      In Finalizing the transition transaction is open and holds the lock on the task row:
      it began at `begun`, was stamped `at`, and read `version` from the order. */
  datatype Phase =
    | Idle
    | Claimed(task: ClaimedTask, since: Time, epoch: nat)
    | Calling(task: ClaimedTask, since: Time, epoch: nat, call: DownstreamCall)
    | Finalizing(task: ClaimedTask, since: Time, epoch: nat,
                 at: Time, begun: Time, version: int, courier: Option<string>)

  /** History of one task row; no transaction reads it. `epoch` counts the writes of the row,
      `errors` the retryable failures since creation or the last operator retry, and
      `reopenedAt` lists the operator retries. */
  datatype History = History(epoch: nat, errors: nat, timedOut: bool, reopenedAt: seq<Time>)

  /** `work[o]` is the history of tasks inserted for o, oldest first. */
  datatype System = System(
    db: Db,
    now: Time,
    workers: map<WorkerId, Phase>,
    work: map<OrderId, seq<TaskId>>,
    hist: map<TaskId, History>)

  datatype Step =
    | CreateOrder(req: OrderRequest, orderId: OrderId, taskId: TaskId, at: Time)
    | StartWorker(worker: WorkerId)
    | StopWorker(worker: WorkerId)
    | Abandon(worker: WorkerId)
    | ClaimTask(worker: WorkerId, taskId: TaskId)
    | PrepareCall(worker: WorkerId, at: Time)
    | ReleaseTask(worker: WorkerId, at: Time)
    | CallFailed(worker: WorkerId, error: string, at: Time)
    | CallNotYet(worker: WorkerId, answeredAt: Time, hint: Option<int>, at: Time)
    | CallSucceeded(worker: WorkerId, courier: Option<string>, at: Time)
    | CommitFinalize(worker: WorkerId, taskId: TaskId)
    | Cancel(orderId: OrderId, at: Time)
    | OperatorRetry(orderId: OrderId, ids: seq<TaskId>, at: Time)
    | Tick(ticks: nat)

  /** Task rows locked by an open transition transaction. */
  function Locked(s: System): set<TaskId> {
    set w | w in s.workers && s.workers[w].Finalizing? :: s.workers[w].task.id
  }

  predicate HasTask(s: System, w: WorkerId) {
    w in s.workers && !s.workers[w].Idle?
  }

  function HandlerOf(task: ClaimedTask): Option<Handler> {
    Dispatch(task.taskType, task.target)
  }

  /** Worker w, holding a task in phase Claimed or Calling, runs a transaction it stamped
      `at`; the transaction waits while another one holds the row lock. */
  predicate CanRun(s: System, w: WorkerId, at: Time) {
    && HasTask(s, w)
    && s.workers[w].since <= at <= s.now
    && s.workers[w].task.id !in Locked(s)
  }

  /** The worker's call is answered; only the courier handler has a courier to record. */
  predicate CanFinish(s: System, w: WorkerId, at: Time) {
    CanRun(s, w, at) && s.workers[w].Calling? && HandlerOf(s.workers[w].task).Some?
  }

  ghost predicate Enabled(s: System, step: Step) {
    match step
    case CreateOrder(_, o, t, at) => o !in s.db.orders && t !in s.db.tasks && at <= s.now
    case StartWorker(w) => w !in s.workers
    case StopWorker(w) => w in s.workers
    case Abandon(w) => w in s.workers
    case ClaimTask(w, t) =>
      w in s.workers && s.workers[w].Idle? && IsCandidate(s.db.tasks, Locked(s), s.now, t)
    case PrepareCall(w, at) =>
      CanRun(s, w, at) && s.workers[w].Claimed? && HandlerOf(s.workers[w].task).Some?
    case ReleaseTask(w, at) =>
      CanRun(s, w, at) && s.workers[w].Claimed? && HandlerOf(s.workers[w].task) == None
    case CallFailed(w, _, at) => CanFinish(s, w, at)
    case CallNotYet(w, answeredAt, _, at) =>
      CanFinish(s, w, at) && s.workers[w].since <= answeredAt <= at
    case CallSucceeded(w, courier, at) =>
      CanFinish(s, w, at) && (courier.Some? <==> HandlerOf(s.workers[w].task) == Some(CourierAssign))
    case CommitFinalize(w, t) =>
      && w in s.workers && s.workers[w].Finalizing? && t !in s.db.tasks
      && HandlerOf(s.workers[w].task).Some?
      && s.workers[w].task.id in s.db.tasks
      && s.db.tasks[s.workers[w].task.id].orderId in s.db.orders
    case Cancel(o, at) => at <= s.now && OpenTasks(s.db.tasks, o) !! Locked(s)
    case OperatorRetry(o, ids, at) => at <= s.now && Lists(ids, FailedTasks(s.db.tasks, o))
    case Tick(_) => true
  }

  // ---------------------------------------------------------------- effects

  function HistoryAfter(h: History, action: Action): History {
    match action
    case MissingTask => h
    case NotRunning => h
    case LostOwnership => h
    case RetryScheduled => h.(epoch := h.epoch + 1, errors := h.errors + 1)
    case Exhausted => h.(epoch := h.epoch + 1, errors := h.errors + 1)
    case TimedOut => h.(epoch := h.epoch + 1, timedOut := true)
    case _ => h.(epoch := h.epoch + 1)
  }

  function Advance(cfg: Config, s: System): System {
    s.(now := s.now + cfg.tick)
  }

  /** Worker w moves to `phase`. */
  function Moved(s: System, w: WorkerId, phase: Phase): System {
    s.(workers := s.workers[w := phase])
  }

  /** A transaction on task t settles: its tables are installed and the worker is idle. */
  function SettledBy(s: System, w: WorkerId, t: TaskId, tx: TxResult): System {
    Moved(s, w, Idle).(
      db := tx.db,
      hist := if t in s.hist then s.hist[t := HistoryAfter(s.hist[t], tx.action)] else s.hist)
  }

  function WithNewOrder(s: System, db: Db, o: OrderId, t: TaskId): System {
    s.(db := db, work := s.work[o := [t]], hist := s.hist[t := History(0, 0, false, [])])
  }

  ghost function AfterCreate(cfg: Config, s: System, req: OrderRequest, o: OrderId, t: TaskId, at: Time): System {
    var r := CreateOrGet(cfg, s.db, req, o, t, at);
    if r.outcome.Accepted? then WithNewOrder(s, r.db, o, t) else s
  }

  function AfterClaim(cfg: Config, s: System, w: WorkerId, t: TaskId): System
    requires t in s.db.tasks
  {
    var row := s.db.tasks[t];
    var h := if t in s.hist then s.hist[t] else History(0, 0, false, []);
    Moved(s, w, Claimed(ClaimedTask(t, row.orderId, row.taskType, row.target), s.now, h.epoch + 1)).(
      db := Claim(cfg, s.db, s.now, t, w),
      hist := s.hist[t := h.(epoch := h.epoch + 1)])
  }

  function AfterPrepare(cfg: Config, s: System, w: WorkerId, at: Time): System
    requires HasTask(s, w) && HandlerOf(s.workers[w].task).Some?
  {
    var p := s.workers[w];
    match Prepare(cfg, s.db, s.now, p.task.id, w, HandlerOf(p.task).value, at)
    case Stop(tx) => SettledBy(s, w, p.task.id, tx)
    case Proceed(call) => Moved(s, w, Calling(p.task, s.now, p.epoch, call))
  }

  function AfterLoad(s: System, w: WorkerId, courier: Option<string>, at: Time): System
    requires HasTask(s, w) && HandlerOf(s.workers[w].task).Some?
  {
    var p := s.workers[w];
    match LoadForTransition(s.db, s.now, p.task.id, w, SpecOf(HandlerOf(p.task).value).source, at)
    case LoadStop(tx) => SettledBy(s, w, p.task.id, tx)
    case Loaded(version) => Moved(s, w, Finalizing(p.task, p.since, p.epoch, at, s.now, version, courier))
  }

  function AfterCommit(cfg: Config, s: System, w: WorkerId, newId: TaskId): System
    requires w in s.workers && s.workers[w].Finalizing? && HandlerOf(s.workers[w].task).Some?
    requires s.workers[w].task.id in s.db.tasks
    requires s.db.tasks[s.workers[w].task.id].orderId in s.db.orders
  {
    var p := s.workers[w];
    var o := s.db.tasks[p.task.id].orderId;
    var tx := CommitTransition(cfg, s.db, p.begun, p.task.id, w, SpecOf(HandlerOf(p.task).value), p.version, p.courier,
                               newId, p.at);
    var s' := SettledBy(s, w, p.task.id, tx);
    if newId in tx.db.tasks && newId !in s.db.tasks then
      s'.(work := s'.work[o := (if o in s.work then s.work[o] else []) + [newId]],
          hist := s'.hist[newId := History(0, 0, false, [])])
    else s'
  }

  function Bumped(hist: map<TaskId, History>, touched: set<TaskId>): map<TaskId, History> {
    map t | t in hist :: if t in touched then hist[t].(epoch := hist[t].epoch + 1) else hist[t]
  }

  function AfterCancel(s: System, o: OrderId, at: Time): System {
    var r := CancelOrder(s.db, s.now, o, at);
    if r.outcome == CancelledNow then
      s.(db := r.db, hist := Bumped(s.hist, OpenTasks(s.db.tasks, o)))
    else s
  }

  function ReopenedHistory(h: History, at: Time): History {
    History(h.epoch + 1, 0, false, h.reopenedAt + [at])
  }

  function WithReopenings(hist: map<TaskId, History>, failed: set<TaskId>, at: Time): map<TaskId, History> {
    map t | t in hist :: if t in failed then ReopenedHistory(hist[t], at) else hist[t]
  }

  ghost function AfterOperatorRetry(cfg: Config, s: System, o: OrderId, ids: seq<TaskId>, at: Time): System
    requires Lists(ids, FailedTasks(s.db.tasks, o))
  {
    var r := RetryFailed(cfg, s.db, s.now, o, ids, at);
    if r.outcome == Reopened then
      s.(db := r.db, hist := WithReopenings(s.hist, FailedTasks(s.db.tasks, o), at))
    else s
  }

  ghost function Effect(cfg: Config, s: System, step: Step): System
    requires Enabled(s, step)
  {
    match step
    case CreateOrder(req, o, t, at) => AfterCreate(cfg, s, req, o, t, at)
    case StartWorker(w) => Moved(s, w, Idle)
    case StopWorker(w) => s.(workers := s.workers - {w})
    case Abandon(w) => Moved(s, w, Idle)
    case ClaimTask(w, t) => AfterClaim(cfg, s, w, t)
    case PrepareCall(w, at) => AfterPrepare(cfg, s, w, at)
    case ReleaseTask(w, at) =>
      var t := s.workers[w].task.id;
      SettledBy(s, w, t, ReleaseUnsupported(cfg, s.db, s.now, t, w, at))
    case CallFailed(w, error, at) =>
      var task := s.workers[w].task;
      SettledBy(s, w, task.id, FinishError(cfg, s.db, s.now, task.id, w, HandlerOf(task).value, error, at))
    case CallNotYet(w, _, hint, at) =>
      var task := s.workers[w].task;
      SettledBy(s, w, task.id, FinishNotYet(cfg, s.db, s.now, task.id, w, HandlerOf(task).value, hint, at))
    case CallSucceeded(w, courier, at) => AfterLoad(s, w, courier, at)
    case CommitFinalize(w, t) => AfterCommit(cfg, s, w, t)
    case Cancel(o, at) => AfterCancel(s, o, at)
    case OperatorRetry(o, ids, at) => AfterOperatorRetry(cfg, s, o, ids, at)
    case Tick(d) => s.(now := s.now + d)
  }

  ghost function Next(cfg: Config, s: System, step: Step): System
    requires Enabled(s, step)
  {
    Advance(cfg, Effect(cfg, s, step))
  }

  predicate Init(s: System) {
    s.db == Db(map[], map[], []) && s.workers == map[] && s.work == map[] && s.hist == map[]
  }

  /** A finite run: one more state than steps. */
  ghost predicate IsRun(cfg: Config, states: seq<System>, steps: seq<Step>) {
    && |states| == |steps| + 1
    && forall i :: 0 <= i < |steps| ==>
                     Enabled(states[i], steps[i]) && states[i + 1] == Next(cfg, states[i], steps[i])
  }

  ghost predicate Reachable(cfg: Config, s: System) {
    exists states: seq<System>, steps: seq<Step> ::
      IsRun(cfg, states, steps) && Init(states[0]) && states[|steps|] == s
  }
}
