/** What the pipeline guarantees in every reachable state and along every run. */
module PipelineTheorems {
  import opened Optional
  import opened Sets
  import opened OrderLifecycle
  import opened Rows
  import opened Settings
  import opened TransitionSpecs
  import opened Transactions
  import opened Pipeline
  import opened PipelineInvariant
  import opened PipelineSteps
  import opened PipelineOrderSteps
  import opened PipelineChanges

  // ---------------------------------------------------------------- one unit of work per order

  function LiveTasks(s: System, o: OrderId): set<TaskId> {
    set t | t in s.db.tasks && s.db.tasks[t].orderId == o && s.db.tasks[t].Live()
  }

  function CompletedTasks(s: System, o: OrderId, target: OrderState): set<TaskId> {
    set t | t in s.db.tasks && s.db.tasks[t].orderId == o && s.db.tasks[t].target == Some(target)
            && s.db.tasks[t].status == Completed
  }

  function TasksOf(s: System, o: OrderId): set<TaskId> {
    set t | t in s.db.tasks && s.db.tasks[t].orderId == o
  }

  /** Exactly one row of the order aims at Stage(k + 1). */
  lemma TaskOfStage(cfg: Config, s: System, o: OrderId, k: nat)
    requires Inv(cfg, s) && o in s.db.orders && o in s.work && k < |s.work[o]|
    ensures k < HOPS && s.work[o][k] in TasksOf(s, o)
    ensures forall t :: t in TasksOf(s, o) && s.db.tasks[t].target == Some(Stage(k + 1)) ==> t == s.work[o][k]
  {
    assert OrderInv(cfg, s, o);
    assert TaskAt(cfg, s, o, k);
    forall t | t in TasksOf(s, o) && s.db.tasks[t].target == Some(Stage(k + 1))
      ensures t == s.work[o][k]
    {
      assert Indexed(s, t);
      assert StageIndex(Stage(k + 1)) == k + 1;
    }
  }

  /** Every non-terminal order has exactly one pending, running or failed task; it is
      dispatchable and its handler starts from the order's state and targets the next one.
      Each stage already passed has exactly one completed task, and a delivered order has five
      of them and no work left. */
  lemma WorkToken(cfg: Config, s: System, o: OrderId)
    requires Reachable(cfg, s) && o in s.db.orders
    ensures var state := s.db.orders[o].state;
            !IsTerminal(state) ==>
              && |LiveTasks(s, o)| == 1
              && (forall t :: t in LiveTasks(s, o) ==>
                    && s.db.tasks[t].target == NextOrderState(state)
                    && Dispatch(s.db.tasks[t].taskType, s.db.tasks[t].target).Some?
                    && SpecOf(Dispatch(s.db.tasks[t].taskType, s.db.tasks[t].target).value).source == state)
    ensures var state := s.db.orders[o].state;
            OnPath(state) ==>
              forall passed: OrderState :: (OnPath(passed) && 0 < StageIndex(passed) <= StageIndex(state))
                ==> |CompletedTasks(s, o, passed)| == 1
    ensures s.db.orders[o].state == Delivered ==> LiveTasks(s, o) == {} && |TasksOf(s, o)| == HOPS
  {
    ReachableInv(cfg, s);
    assert s.db.orders[o].state != Failed by { assert OrderInv(cfg, s, o); }
    if OnPath(s.db.orders[o].state) {
      LiveWork(cfg, s, o);
      PassedStages(cfg, s, o);
      if s.db.orders[o].state == Delivered {
        DeliveredTasks(cfg, s, o);
      }
    }
  }

  lemma PassedStages(cfg: Config, s: System, o: OrderId)
    requires Inv(cfg, s) && o in s.db.orders && OnPath(s.db.orders[o].state)
    ensures forall passed: OrderState ::
              (OnPath(passed) && 0 < StageIndex(passed) <= StageIndex(s.db.orders[o].state))
              ==> |CompletedTasks(s, o, passed)| == 1
  {
    forall passed: OrderState | OnPath(passed) && 0 < StageIndex(passed) <= StageIndex(s.db.orders[o].state)
      ensures |CompletedTasks(s, o, passed)| == 1
    {
      PassedStage(cfg, s, o, StageIndex(passed) - 1);
    }
  }

  lemma PassedStage(cfg: Config, s: System, o: OrderId, j: nat)
    requires Inv(cfg, s) && o in s.db.orders && OnPath(s.db.orders[o].state) && j < StageIndex(s.db.orders[o].state)
    ensures |CompletedTasks(s, o, Stage(j + 1))| == 1
  {
    assert OrderInv(cfg, s, o);
    var h := Hops(s.db.orders[o], Log(s, o));
    assert StageIndex(Stage(h)) == h;
    TaskOfStage(cfg, s, o, j);
    assert TaskAt(cfg, s, o, j);
    assert CompletedTasks(s, o, Stage(j + 1)) == {s.work[o][j]};
  }

  lemma LiveWork(cfg: Config, s: System, o: OrderId)
    requires Inv(cfg, s) && o in s.db.orders && OnPath(s.db.orders[o].state)
    ensures var h := StageIndex(s.db.orders[o].state);
            if h < HOPS then
              && o in s.work && h < |s.work[o]| && LiveTasks(s, o) == {s.work[o][h]}
              && s.work[o][h] in s.db.tasks
              && s.db.tasks[s.work[o][h]].target == NextOrderState(s.db.orders[o].state)
              && Dispatch(s.db.tasks[s.work[o][h]].taskType, s.db.tasks[s.work[o][h]].target) == Some(StageHandler(h))
              && SpecOf(StageHandler(h)).source == s.db.orders[o].state
            else LiveTasks(s, o) == {}
  {
    assert OrderInv(cfg, s, o);
    var h := Hops(s.db.orders[o], Log(s, o));
    assert StageIndex(Stage(h)) == h;
    forall t | t in LiveTasks(s, o)
      ensures h < HOPS && h < |s.work[o]| && t == s.work[o][h]
    {
      OpenTaskIsCurrent(cfg, s, t);
    }
    if h < HOPS {
      assert TaskAt(cfg, s, o, h);
      SpecTableFollowsLifecycle(cfg, h, 0);
    }
  }

  /** The history of an order's tasks lists all its rows, each once. */
  lemma WorkListsTasks(cfg: Config, s: System, o: OrderId)
    requires Inv(cfg, s) && o in s.db.orders
    ensures o in s.work && |TasksOf(s, o)| == |s.work[o]|
  {
    assert OrderInv(cfg, s, o);
    var w := s.work[o];
    forall k | 0 <= k < |w|
      ensures w[k] in TasksOf(s, o) && k < HOPS && s.db.tasks[w[k]].target == Some(Stage(k + 1))
    {
      assert TaskAt(cfg, s, o, k);
    }
    forall i, j | 0 <= i < j < |w|
      ensures w[i] != w[j]
    {
      assert StageIndex(Stage(i + 1)) == i + 1 && StageIndex(Stage(j + 1)) == j + 1;
    }
    forall t | t in TasksOf(s, o)
      ensures t in w
    {
      assert Indexed(s, t);
    }
    DistinctSize(w, TasksOf(s, o));
  }

  lemma DeliveredTasks(cfg: Config, s: System, o: OrderId)
    requires Inv(cfg, s) && o in s.db.orders && s.db.orders[o].state == Delivered
    ensures |TasksOf(s, o)| == HOPS
  {
    assert OrderInv(cfg, s, o);
    assert |s.work[o]| == HOPS by {
      assert Stage(Hops(s.db.orders[o], Log(s, o))) == Delivered;
    }
    WorkListsTasks(cfg, s, o);
  }

  // ---------------------------------------------------------------- the dedupe index

  /** No two task rows share a dedupe key at all, so the partial unique index can never
      reject a statement of the pipeline. */
  lemma DedupeKeysUnique(cfg: Config, s: System, t: TaskId, u: TaskId)
    requires Inv(cfg, s) && t in s.db.tasks && u in s.db.tasks
    requires s.db.tasks[t].dedupeKey == s.db.tasks[u].dedupeKey
    ensures t == u
  {
    var o, k := KeyOf(cfg, s, t);
    var q, i := KeyOf(cfg, s, u);
    assert StageIndex(Stage(k + 1)) == k + 1 && StageIndex(Stage(i + 1)) == i + 1;
  }

  /** A row's key determines its place in the history of its order. */
  lemma KeyOf(cfg: Config, s: System, t: TaskId) returns (o: OrderId, k: nat)
    requires Inv(cfg, s) && t in s.db.tasks
    ensures k < HOPS && o in s.work && k < |s.work[o]| && s.work[o][k] == t
    ensures s.db.tasks[t].dedupeKey == Some(DedupeKey(o, StageTaskType(k), Stage(k + 1)))
  {
    o, k := TaskFacts(cfg, s, t);
  }

  lemma ActiveKeysStayUnique(cfg: Config, s: System)
    requires Inv(cfg, s)
    ensures ActiveKeysUnique(s.db.tasks)
  {
    forall t, u | t in s.db.tasks && u in s.db.tasks && t != u
      ensures s.db.tasks[t].dedupeKey != s.db.tasks[u].dedupeKey
    {
      if s.db.tasks[t].dedupeKey == s.db.tasks[u].dedupeKey {
        DedupeKeysUnique(cfg, s, t, u);
      }
    }
  }

  /** The plain insert of the first task never violates the index. */
  lemma IntakeNeverRejected(cfg: Config, s: System, req: OrderRequest, o: OrderId, t: TaskId, at: Time)
    requires Reachable(cfg, s) && Enabled(s, CreateOrder(req, o, t, at))
    ensures CreateOrGet(cfg, s.db, req, o, t, at).outcome != Rejected
  {
    ReachableInv(cfg, s);
    NoActiveFirstTask(cfg, s, o);
  }

  lemma NoActiveFirstTask(cfg: Config, s: System, o: OrderId)
    requires Inv(cfg, s) && o !in s.db.orders
    ensures !ActiveKey(s.db.tasks, DedupeKey(o, AdvanceState, Confirmed))
  {
    forall u | u in s.db.tasks
      ensures s.db.tasks[u].dedupeKey != Some(DedupeKey(o, AdvanceState, Confirmed))
    {
      var q, i := TaskFacts(cfg, s, u);
    }
  }

  /** Reopening failed tasks never violates the index. */
  lemma OperatorRetryNeverRejected(cfg: Config, s: System, o: OrderId, ids: seq<TaskId>, at: Time)
    requires Reachable(cfg, s) && Enabled(s, OperatorRetry(o, ids, at))
    ensures RetryFailed(cfg, s.db, s.now, o, ids, at).outcome != UniqueViolation
  {
    ReachableInv(cfg, s);
    ReopeningKeepsIndex(cfg, s, o, ids, at);
  }

  lemma ReopeningKeepsIndex(cfg: Config, s: System, o: OrderId, ids: seq<TaskId>, at: Time)
    requires Inv(cfg, s) && Enabled(s, OperatorRetry(o, ids, at))
    ensures RetryFailed(cfg, s.db, s.now, o, ids, at).outcome != UniqueViolation
  {
    forall t, u | t in s.db.tasks && u in s.db.tasks && t != u
      ensures s.db.tasks[t].dedupeKey != s.db.tasks[u].dedupeKey
    {
      if s.db.tasks[t].dedupeKey == s.db.tasks[u].dedupeKey {
        DedupeKeysUnique(cfg, s, t, u);
      }
    }
  }

  /** `on conflict do nothing` never drops a follow-up: when a hop commits into a state that
      has a successor, the task for the next hop is in the queue, pending. */
  lemma FollowupNeverSuppressed(cfg: Config, s: System, w: WorkerId, newId: TaskId)
    requires Reachable(cfg, s) && Enabled(s, CommitFinalize(w, newId))
    ensures var s' := Next(cfg, s, CommitFinalize(w, newId));
            var o := s.db.tasks[s.workers[w].task.id].orderId;
            && o in s'.db.orders
            && (NextOrderState(s'.db.orders[o].state).Some? ==>
                  && newId in s'.db.tasks && s'.db.tasks[newId].status == Pending
                  && s'.db.tasks[newId].orderId == o
                  && s'.db.tasks[newId].target == NextOrderState(s'.db.orders[o].state))
  {
    ReachableInv(cfg, s);
    var o, k := CommitIsReady(cfg, s, w, newId);
    CommitSucceeds(cfg, s, w, newId, o, k, s.workers[w].task.id);
    HoppedFollowup(cfg, s, w, newId, o, k, s.workers[w].task.id);
  }

  lemma HoppedFollowup(cfg: Config, s: System, w: WorkerId, newId: TaskId, o: OrderId, k: nat, t: TaskId)
    requires ReadyToCommit(cfg, s, w, newId, o, k, t)
    ensures var s' := Hopped(cfg, s, w, o, k, t, newId);
            && o in s'.db.orders
            && (NextOrderState(s'.db.orders[o].state).Some? ==>
                  && newId in s'.db.tasks && s'.db.tasks[newId].status == Pending
                  && s'.db.tasks[newId].orderId == o
                  && s'.db.tasks[newId].target == NextOrderState(s'.db.orders[o].state))
  {
    SpecTableFollowsLifecycle(cfg, k, s.now);
  }

  lemma ClaimedIsDispatchable(cfg: Config, s: System, w: WorkerId)
    requires Inv(cfg, s) && HasTask(s, w)
    ensures HandlerOf(s.workers[w].task).Some?
  {
    assert WorkerOk(cfg, s, s.workers[w], w);
    var o, k := TaskFacts(cfg, s, s.workers[w].task.id);
    SpecTableFollowsLifecycle(cfg, k, s.now);
  }

  /** The unsupported-task path is never taken. */
  lemma NoUnsupportedTask(cfg: Config, s: System, w: WorkerId, at: Time)
    requires Reachable(cfg, s)
    ensures HasTask(s, w) ==> HandlerOf(s.workers[w].task).Some?
    ensures !Enabled(s, ReleaseTask(w, at))
  {
    ReachableInv(cfg, s);
    if HasTask(s, w) {
      ClaimedIsDispatchable(cfg, s, w);
    }
  }

  // ---------------------------------------------------------------- fencing

  /** The ownership check has no claim number, yet it accepts a worker exactly when the row
      has not been written by anyone since this worker's claim. */
  lemma FencingIsExact(cfg: Config, s: System, w: WorkerId)
    requires Reachable(cfg, s) && HasTask(s, w)
    ensures s.workers[w].task.id in s.hist
    ensures Owned(s.db, s.workers[w].task.id, w) <==> s.workers[w].epoch == s.hist[s.workers[w].task.id].epoch
  {
    ReachableInv(cfg, s);
    assert WorkerOk(cfg, s, s.workers[w], w);
  }

  /** What any change does to a task row that existed before. */
  lemma TaskAcross(cfg: Config, s: System, s': System, c: Change, t: TaskId)
    requires ChangeOk(cfg, s, s', c) && t in s.db.tasks && t in s.hist && s.hist.Keys == s.db.tasks.Keys
    ensures t in s'.db.tasks && t in s'.hist
    ensures s'.db.tasks[t] != s.db.tasks[t] ==> s'.hist[t].epoch == s.hist[t].epoch + 1
    ensures s.hist[t].epoch <= s'.hist[t].epoch
    ensures s'.db.tasks[t].orderId == s.db.tasks[t].orderId && s'.db.tasks[t].taskType == s.db.tasks[t].taskType
    ensures s'.db.tasks[t].target == s.db.tasks[t].target && s'.db.tasks[t].createdAt == s.db.tasks[t].createdAt
    ensures s'.db.tasks[t].status == Completed && s.db.tasks[t].status != Completed ==>
              (c.HopChange? && c.taskId == t) || (c.RowChange? && c.taskId == t && c.row.status == Completed)
  {
  }

  /** A task row never changes without its write count growing by one, and never disappears. */
  lemma EveryWriteIsCounted(cfg: Config, s: System, step: Step, t: TaskId)
    requires Inv(cfg, s) && Enabled(s, step) && t in s.db.tasks
    ensures var s' := Next(cfg, s, step);
            && t in s'.db.tasks && t in s'.hist && t in s.hist
            && (s'.db.tasks[t] != s.db.tasks[t] ==> s'.hist[t].epoch == s.hist[t].epoch + 1)
            && s.hist[t].epoch <= s'.hist[t].epoch
  {
    var c := Classify(cfg, s, step);
    TaskAcross(cfg, s, Next(cfg, s, step), c, t);
  }

  /** Steps of worker w. */
  predicate StepOf(step: Step, w: WorkerId) {
    match step
    case PrepareCall(v, _) => v == w
    case ReleaseTask(v, _) => v == w
    case CallFailed(v, _, _) => v == w
    case CallNotYet(v, _, _, _) => v == w
    case CallSucceeded(v, _, _) => v == w
    case CommitFinalize(v, _) => v == w
    case _ => false
  }

  /** A worker whose claim is not the latest write of the row changes no table, whatever the
      downstream service answered; and it is idle afterwards. */
  lemma LateWritesAreHarmless(cfg: Config, s: System, w: WorkerId, step: Step)
    requires Reachable(cfg, s) && Enabled(s, step) && StepOf(step, w)
    requires HasTask(s, w) && s.workers[w].task.id in s.hist
    requires s.workers[w].epoch != s.hist[s.workers[w].task.id].epoch
    ensures Next(cfg, s, step).db == s.db
    ensures w in Next(cfg, s, step).workers && Next(cfg, s, step).workers[w] == Idle
  {
    FencingIsExact(cfg, s, w);
    ReachableInv(cfg, s);
    assert WorkerOk(cfg, s, s.workers[w], w);
    if !step.ReleaseTask? {
      var handler := HandlerOf(s.workers[w].task).value;
      if !step.CommitFinalize? {
        SettleOutcome(cfg, s, w, SpecOf(handler).source, step.at);
      }
    }
  }

  /** A claim that is out of date stays so: along any run, as long as the worker still works
      on that claim, none of its steps changes a table. */
  lemma {:induction false} StaleClaimsStayStale(cfg: Config, states: seq<System>, steps: seq<Step>, t: TaskId,
                                                epoch: nat, i: nat, j: nat)
    requires IsRun(cfg, states, steps) && Inv(cfg, states[0]) && i <= j <= |steps|
    requires t in states[i].db.tasks && t in states[i].hist && epoch < states[i].hist[t].epoch
    ensures t in states[j].db.tasks && t in states[j].hist && epoch < states[j].hist[t].epoch
    decreases j
  {
    if i < j {
      StaleClaimsStayStale(cfg, states, steps, t, epoch, i, j - 1);
      RunKeepsInv(cfg, states, steps, j - 1);
      EveryWriteIsCounted(cfg, states[j - 1], steps[j - 1], t);
    }
  }

  // ---------------------------------------------------------------- no stranding

  /** A task only becomes completed by the commit of the hop it is for, or when its order was
      cancelled already: no no-op ever consumes the only work of a live order. */
  lemma NoStranding(cfg: Config, s: System, step: Step, t: TaskId)
    requires Reachable(cfg, s) && Enabled(s, step) && t in s.db.tasks
    requires s.db.tasks[t].status != Completed
    requires t in Next(cfg, s, step).db.tasks && Next(cfg, s, step).db.tasks[t].status == Completed
    ensures var s', o := Next(cfg, s, step), s.db.tasks[t].orderId;
            && o in s.db.orders && o in s'.db.orders
            && (s.db.orders[o].state == Cancelled
                || (&& step.CommitFinalize?
                    && CanTransition(s.db.orders[o].state, s'.db.orders[o].state)
                    && s.db.tasks[t].target == Some(s'.db.orders[o].state)))
  {
    ReachableInv(cfg, s);
    var c := Classify(cfg, s, step);
    var o, k := TaskFacts(cfg, s, t);
    TaskAcross(cfg, s, Next(cfg, s, step), c, t);
    if c.HopChange? {
      HopAdvances(cfg, s, Next(cfg, s, step), c);
    }
  }

  /** A hop moves the order of its task to the state the task aims at. */
  lemma HopAdvances(cfg: Config, s: System, s': System, c: Change)
    requires c.HopChange? && ChangeOk(cfg, s, s', c)
    requires c.taskId in s.db.tasks && s.db.tasks[c.taskId].target == Some(Stage(c.stage + 1))
    ensures var o := c.orderId;
            && o == s.db.tasks[c.taskId].orderId && o in s.db.orders && o in s'.db.orders
            && CanTransition(s.db.orders[o].state, s'.db.orders[o].state)
            && s'.db.orders[o].state == Stage(c.stage + 1)
  {
    SpecTableFollowsLifecycle(cfg, c.stage, s.now);
  }

  /** The guarded update of an open transition transaction always matches one row: while the
      task row is locked nobody moves the order, so the optimistic no-op is unreachable. */
  lemma GuardedUpdateAlwaysMatches(cfg: Config, s: System, w: WorkerId, newId: TaskId)
    requires Reachable(cfg, s) && Enabled(s, CommitFinalize(w, newId))
    ensures var p := s.workers[w];
            CommitTransition(cfg, s.db, p.begun, p.task.id, w, SpecOf(HandlerOf(p.task).value), p.version,
                             p.courier, newId, p.at).action == Transitioned
  {
    ReachableInv(cfg, s);
    assert WorkerOk(cfg, s, s.workers[w], w);
  }
}
