/** The steps that change several rows at once: intake, transition, cancel, operator retry. */
module PipelineOrderSteps {
  import opened Optional
  import opened OrderLifecycle
  import opened Rows
  import opened Settings
  import opened TransitionSpecs
  import opened Transactions
  import opened Pipeline
  import opened PipelineInvariant
  import opened PipelineSteps

  // ---------------------------------------------------------------- workers across a step

  /** A step by someone else left the worker's row and order alone, or revoked its claim. */
  ghost predicate Respects(s: System, s': System, p: Phase, w: WorkerId)
    requires !p.Idle? && p.task.id in s.db.tasks && p.task.id in s.hist
  {
    var t := p.task.id;
    && t in s'.db.tasks && t in s'.hist
    && if s'.db.tasks[t] == s.db.tasks[t] && s'.hist[t] == s.hist[t] then
         p.Finalizing? ==>
           var o := s.db.tasks[t].orderId;
           o in s.db.orders ==> o in s'.db.orders && s'.db.orders[o] == s.db.orders[o]
       else
         && s'.db.tasks[t].orderId == s.db.tasks[t].orderId
         && s'.db.tasks[t].taskType == s.db.tasks[t].taskType
         && s'.db.tasks[t].target == s.db.tasks[t].target
         && s.hist[t].epoch < s'.hist[t].epoch
         && s'.db.tasks[t].lockedBy == None
         && !p.Finalizing?
  }

  lemma WorkerAcross(cfg: Config, s: System, s': System, p: Phase, w: WorkerId)
    requires WorkerOk(cfg, s, p, w) && s.now <= s'.now
    requires !p.Idle? ==> Respects(s, s', p, w)
    ensures WorkerOk(cfg, s', p, w)
  {
  }

  /** Appending events of other orders or of other kinds leaves a log alone. */
  lemma {:induction false} LogUnchanged(events: seq<Event>, more: seq<Event>, q: EventQuery)
    requires forall i :: 0 <= i < |more| ==> !Matches(q, more[i])
    ensures Select(events + more, q) == Select(events, q)
  {
    if more == [] {
      assert events + more == events;
    } else {
      var last, front := more[|more| - 1], more[..|more| - 1];
      LogUnchanged(events, front, q);
      assert events + more == (events + front) + [last];
      SelectAppend(events + front, last, q);
    }
  }

  // ---------------------------------------------------------------- cancel

  lemma CancelLog(cfg: Config, now: Time, o: OrderId, order: Order, log: seq<Event>, open: set<TaskId>, at: Time)
    requires LogOk(cfg, now, o, order, log) && !IsTerminal(order.state) && at <= now
    ensures LogOk(cfg, now + cfg.tick, o, CancelledOrder(order, at, now), log + [CancelEvent(o, order.state, open, at)])
    ensures Hops(CancelledOrder(order, at, now), log + [CancelEvent(o, order.state, open, at)]) == Hops(order, log)
  {
    var log' := log + [CancelEvent(o, order.state, open, at)];
    var h := Hops(order, log);
    forall k | 0 < k <= h
      ensures IsHop(log'[k], o, k)
    {
      assert IsHop(log[k], o, k);
    }
  }

  lemma CancelOwnLog(cfg: Config, s: System, o: OrderId, at: Time)
    requires o in s.db.orders && LogOk(cfg, s.now, o, s.db.orders[o], Log(s, o))
    requires !IsTerminal(s.db.orders[o].state) && at <= s.now
    ensures var s' := Advance(cfg, AfterCancel(s, o, at));
            && Log(s', o) == Log(s, o) + [CancelEvent(o, s.db.orders[o].state, OpenTasks(s.db.tasks, o), at)]
            && LogOk(cfg, s'.now, o, s'.db.orders[o], Log(s', o))
            && Hops(s'.db.orders[o], Log(s', o)) == Hops(s.db.orders[o], Log(s, o))
  {
    var open := OpenTasks(s.db.tasks, o);
    SelectAppend(s.db.events, CancelEvent(o, s.db.orders[o].state, open, at), LifecycleOf(o));
    CancelLog(cfg, s.now, o, s.db.orders[o], Log(s, o), open, at);
  }

  lemma CancelOwnOrder(cfg: Config, s: System, o: OrderId, at: Time)
    requires o in s.db.orders && o in s.work && OrderInv(cfg, s, o)
    requires !IsTerminal(s.db.orders[o].state) && at <= s.now
    ensures OrderInv(cfg, Advance(cfg, AfterCancel(s, o, at)), o)
  {
    var s' := Advance(cfg, AfterCancel(s, o, at));
    CancelOwnLog(cfg, s, o, at);
    forall k | 0 <= k < |s'.work[o]|
      ensures TaskAt(cfg, s', o, k)
    {
      assert TaskAt(cfg, s, o, k);
      CancelledTaskOk(cfg, s, o, at, k);
    }
  }

  lemma CancelledTaskOk(cfg: Config, s: System, o: OrderId, at: Time, k: nat)
    requires o in s.db.orders && o in s.work && k < |s.work[o]| && TaskAt(cfg, s, o, k)
    requires !IsTerminal(s.db.orders[o].state)
    ensures var s', t := Advance(cfg, AfterCancel(s, o, at)), s.work[o][k];
            && t in s'.db.tasks && t in s'.hist
            && TaskOk(cfg, s'.now, o, k, s'.db.tasks[t], s'.hist[t])
            && s'.db.tasks[t].createdAt == s.db.tasks[t].createdAt
            && (s.db.tasks[t].status == Completed ==> s'.db.tasks[t].status == Completed)
  {
    TaskOkLater(cfg, s.now, s.now + cfg.tick, o, k, s.db.tasks[s.work[o][k]], s.hist[s.work[o][k]]);
  }

  lemma CancelOtherOrder(cfg: Config, s: System, o: OrderId, at: Time, q: OrderId)
    requires o in s.db.orders && !IsTerminal(s.db.orders[o].state)
    requires q in s.db.orders && q in s.work && OrderInv(cfg, s, q) && q != o
    ensures OrderInv(cfg, Advance(cfg, AfterCancel(s, o, at)), q)
  {
    var s' := Advance(cfg, AfterCancel(s, o, at));
    SelectAppend(s.db.events, CancelEvent(o, s.db.orders[o].state, OpenTasks(s.db.tasks, o), at), LifecycleOf(q));
    forall k | 0 <= k < |s.work[q]|
      ensures var t := s.work[q][k]; t in s.db.tasks && t in s.hist && s.db.tasks[t].orderId == q
    {
      assert TaskAt(cfg, s, q, k);
    }
    FrameOrder(cfg, s, s', q);
  }

  lemma CancelWorker(cfg: Config, s: System, o: OrderId, at: Time, w: WorkerId)
    requires Inv(cfg, s) && o in s.db.orders && !IsTerminal(s.db.orders[o].state)
    requires OpenTasks(s.db.tasks, o) !! Locked(s)
    requires w in s.workers
    ensures WorkerOk(cfg, Advance(cfg, AfterCancel(s, o, at)), s.workers[w], w)
  {
    var s', p := Advance(cfg, AfterCancel(s, o, at)), s.workers[w];
    assert WorkerOk(cfg, s, p, w);
    if !p.Idle? {
      var t := p.task.id;
      if p.Finalizing? {
        assert t in Locked(s);
        assert s.db.tasks[t].orderId == o ==> t in OpenTasks(s.db.tasks, o);
      }
    }
    WorkerAcross(cfg, s, s', p, w);
  }

  lemma CancelStructure(cfg: Config, s: System, o: OrderId, at: Time)
    requires StructureOk(s) && o in s.db.orders && !IsTerminal(s.db.orders[o].state)
    ensures StructureOk(Advance(cfg, AfterCancel(s, o, at)))
  {
    var s' := Advance(cfg, AfterCancel(s, o, at));
    forall t | t in s'.db.tasks
      ensures Indexed(s', t)
    {
      assert Indexed(s, t);
    }
  }

  lemma CancelKeepsInv(cfg: Config, s: System, o: OrderId, at: Time)
    requires Inv(cfg, s) && Enabled(s, Cancel(o, at))
    ensures Inv(cfg, Advance(cfg, AfterCancel(s, o, at)))
  {
    var s' := Advance(cfg, AfterCancel(s, o, at));
    if o !in s.db.orders || IsTerminal(s.db.orders[o].state) {
      assert s'.workers == s.workers;
      QuietStep(cfg, s, s');
    } else {
      CancelStructure(cfg, s, o, at);
      forall q | q in s'.db.orders
        ensures OrderInv(cfg, s', q)
      {
        assert OrderInv(cfg, s, q);
        if q == o { CancelOwnOrder(cfg, s, o, at); } else { CancelOtherOrder(cfg, s, o, at, q); }
      }
      forall w | w in s'.workers
        ensures WorkerOk(cfg, s', s'.workers[w], w)
      {
        CancelWorker(cfg, s, o, at, w);
      }
    }
  }

  // ---------------------------------------------------------------- operator retry

  lemma ReopenedTaskOk(cfg: Config, now: Time, o: OrderId, k: nat, row: Task, h: History, at: Time)
    requires k < HOPS && TaskOk(cfg, now, o, k, row, h) && row.status == TaskFailed
    ensures TaskOk(cfg, now + cfg.tick, o, k, ReopenedRow(cfg, row, at, now), ReopenedHistory(h, at))
  {
    assert (h.reopenedAt + [at])[..|h.reopenedAt|] == h.reopenedAt;
  }

  /** The state after an operator retry that went through. */
  function ReopenedState(cfg: Config, s: System, o: OrderId, ids: seq<TaskId>, at: Time): System
    requires forall t :: t in ids ==> t in s.db.tasks
  {
    var failed := FailedTasks(s.db.tasks, o);
    Advance(cfg, s.(db := Db(s.db.orders, WithReopenedTasks(cfg, s.db.tasks, failed, at, s.now),
                             s.db.events + ReopenEvents(s.db.tasks, o, ids, at)),
                    hist := WithReopenings(s.hist, failed, at)))
  }

  lemma ReopenTask(cfg: Config, s: System, o: OrderId, ids: seq<TaskId>, at: Time, q: OrderId, k: nat)
    requires forall t :: t in ids ==> t in s.db.tasks
    requires q in s.db.orders && q in s.work && k < |s.work[q]| && TaskAt(cfg, s, q, k)
    requires var s' := ReopenedState(cfg, s, o, ids, at);
             Log(s', q) == Log(s, q)
    ensures TaskAt(cfg, ReopenedState(cfg, s, o, ids, at), q, k)
  {
    var t := s.work[q][k];
    if t in FailedTasks(s.db.tasks, o) {
      ReopenedTaskOk(cfg, s.now, q, k, s.db.tasks[t], s.hist[t], at);
    } else {
      TaskOkLater(cfg, s.now, s.now + cfg.tick, q, k, s.db.tasks[t], s.hist[t]);
    }
  }

  lemma ReopenLog(cfg: Config, s: System, o: OrderId, ids: seq<TaskId>, at: Time, q: OrderId)
    requires forall t :: t in ids ==> t in s.db.tasks
    ensures Log(ReopenedState(cfg, s, o, ids, at), q) == Log(s, q)
  {
    LogUnchanged(s.db.events, ReopenEvents(s.db.tasks, o, ids, at), LifecycleOf(q));
  }

  lemma ReopenWork(cfg: Config, s: System, o: OrderId, ids: seq<TaskId>, at: Time, q: OrderId)
    requires forall t :: t in ids ==> t in s.db.tasks
    requires q in s.db.orders && q in s.work && WorkOk(cfg, s, q)
    ensures WorkOk(cfg, ReopenedState(cfg, s, o, ids, at), q)
  {
    var s' := ReopenedState(cfg, s, o, ids, at);
    ReopenLog(cfg, s, o, ids, at, q);
    forall k | 0 <= k < |s'.work[q]|
      ensures TaskAt(cfg, s', q, k)
    {
      assert TaskAt(cfg, s, q, k);
      ReopenTask(cfg, s, o, ids, at, q, k);
    }
  }

  lemma ReopenOrder(cfg: Config, s: System, o: OrderId, ids: seq<TaskId>, at: Time, q: OrderId)
    requires forall t :: t in ids ==> t in s.db.tasks
    requires q in s.db.orders && q in s.work && OrderInv(cfg, s, q)
    ensures OrderInv(cfg, ReopenedState(cfg, s, o, ids, at), q)
  {
    ReopenLog(cfg, s, o, ids, at, q);
    ReopenWork(cfg, s, o, ids, at, q);
  }

  lemma ReopenStructure(cfg: Config, s: System, o: OrderId, ids: seq<TaskId>, at: Time)
    requires forall t :: t in ids ==> t in s.db.tasks
    requires StructureOk(s) && o in s.db.orders
    ensures StructureOk(ReopenedState(cfg, s, o, ids, at))
  {
    var s' := ReopenedState(cfg, s, o, ids, at);
    forall t | t in s'.db.tasks
      ensures Indexed(s', t)
    {
      assert Indexed(s, t);
    }
    forall e | e in s'.db.events
      ensures e.orderId in s'.db.orders
    {
      var more := ReopenEvents(s.db.tasks, o, ids, at);
      if e !in s.db.events {
        assert e in more;
      }
    }
  }

  lemma ReopenWorker(cfg: Config, s: System, o: OrderId, ids: seq<TaskId>, at: Time, w: WorkerId)
    requires forall t :: t in ids ==> t in s.db.tasks
    requires w in s.workers && WorkerOk(cfg, s, s.workers[w], w)
    ensures WorkerOk(cfg, ReopenedState(cfg, s, o, ids, at), s.workers[w], w)
  {
    WorkerAcross(cfg, s, ReopenedState(cfg, s, o, ids, at), s.workers[w], w);
  }

  lemma OperatorRetryKeepsInv(cfg: Config, s: System, o: OrderId, ids: seq<TaskId>, at: Time)
    requires Inv(cfg, s) && Enabled(s, OperatorRetry(o, ids, at))
    ensures Inv(cfg, Advance(cfg, AfterOperatorRetry(cfg, s, o, ids, at)))
  {
    var s' := Advance(cfg, AfterOperatorRetry(cfg, s, o, ids, at));
    assert s'.workers == s.workers;
    if RetryFailed(cfg, s.db, s.now, o, ids, at).outcome != Reopened {
      QuietStep(cfg, s, s');
    } else {
      assert s' == ReopenedState(cfg, s, o, ids, at);
      ReopenStructure(cfg, s, o, ids, at);
      forall q | q in s'.db.orders
        ensures OrderInv(cfg, s', q)
      {
        assert OrderInv(cfg, s, q);
        ReopenOrder(cfg, s, o, ids, at, q);
      }
      forall w | w in s'.workers
        ensures WorkerOk(cfg, s', s'.workers[w], w)
      {
        assert WorkerOk(cfg, s, s.workers[w], w);
        ReopenWorker(cfg, s, o, ids, at, w);
      }
    }
  }

  // ---------------------------------------------------------------- intake

  lemma NewLogOk(cfg: Config, now: Time, req: OrderRequest, o: OrderId, at: Time)
    requires at <= now
    ensures LogOk(cfg, now + cfg.tick, o, NewOrder(req, at), [CreationEvent(o, at)])
  {
  }

  lemma NewTaskOk(cfg: Config, now: Time, o: OrderId, k: nat, at: Time, plan: Schedule)
    requires k < HOPS
    requires plan.deadlineAt == match StageWindow(cfg, k) case Some(w) => Some(at + w) case None => None
    requires StageWindow(cfg, k).Some? ==> at < plan.nextRunAt
    ensures TaskOk(cfg, now, o, k, NewTask(cfg, o, StageTaskType(k), Stage(k + 1), plan, at), History(0, 0, false, []))
  {
  }

  /** The state after an accepted request. */
  function Created(cfg: Config, s: System, req: OrderRequest, o: OrderId, t: TaskId, at: Time): System {
    Advance(cfg, WithNewOrder(s, WithAccepted(cfg, s.db, req, o, t, at), o, t))
  }

  lemma NewOrderLog(cfg: Config, s: System, req: OrderRequest, o: OrderId, t: TaskId, at: Time)
    requires StructureOk(s) && o !in s.db.orders
    ensures Log(Created(cfg, s, req, o, t, at), o) == [CreationEvent(o, at)]
  {
    SelectAppend(s.db.events, CreationEvent(o, at), LifecycleOf(o));
    SelectNone(s.db.events, LifecycleOf(o));
  }

  /** A freshly inserted task takes its place as the current stage. */
  lemma NewTaskAt(cfg: Config, s': System, o: OrderId, k: nat, t: TaskId, at: Time, plan: Schedule)
    requires k < HOPS && o in s'.db.orders && o in s'.work && k < |s'.work[o]| && s'.work[o][k] == t
    requires plan.deadlineAt == match StageWindow(cfg, k) case Some(w) => Some(at + w) case None => None
    requires StageWindow(cfg, k).Some? ==> at < plan.nextRunAt
    requires t in s'.db.tasks && t in s'.hist && s'.hist[t] == History(0, 0, false, [])
    requires s'.db.tasks[t] == NewTask(cfg, o, StageTaskType(k), Stage(k + 1), plan, at)
    requires k < |Log(s', o)| && Log(s', o)[k].occurredAt == at
    requires k == Hops(s'.db.orders[o], Log(s', o))
    ensures TaskAt(cfg, s', o, k)
  {
    NewTaskOk(cfg, s'.now, o, k, at, plan);
  }

  lemma NewWorkOk(cfg: Config, s: System, req: OrderRequest, o: OrderId, t: TaskId, at: Time)
    requires Log(Created(cfg, s, req, o, t, at), o) == [CreationEvent(o, at)]
    ensures WorkOk(cfg, Created(cfg, s, req, o, t, at), o)
  {
    var s' := Created(cfg, s, req, o, t, at);
    assert Stage(1) == Confirmed && StageTaskType(0) == AdvanceState;
    NewTaskAt(cfg, s', o, 0, t, at, Schedule(at, None));
  }

  lemma NewOrderInv(cfg: Config, s: System, req: OrderRequest, o: OrderId, t: TaskId, at: Time)
    requires StructureOk(s) && o !in s.db.orders && t !in s.db.tasks && at <= s.now
    ensures OrderInv(cfg, Created(cfg, s, req, o, t, at), o)
  {
    var s' := Created(cfg, s, req, o, t, at);
    NewOrderLog(cfg, s, req, o, t, at);
    NewLogOk(cfg, s.now, req, o, at);
    NewWorkOk(cfg, s, req, o, t, at);
  }

  lemma CreateStructure(cfg: Config, s: System, req: OrderRequest, o: OrderId, t: TaskId, at: Time)
    requires StructureOk(s) && o !in s.db.orders && t !in s.db.tasks
    requires !KeyTaken(s.db.orders, req.key)
    ensures StructureOk(Created(cfg, s, req, o, t, at))
  {
    var s' := Created(cfg, s, req, o, t, at);
    forall u | u in s'.db.tasks
      ensures Indexed(s', u)
    {
      if u != t {
        assert Indexed(s, u);
      }
    }
    forall p | p in s.db.orders
      ensures s.db.orders[p].idempotencyKey != req.key
    {
      assert s.db.orders[p].idempotencyKey == req.key ==> HasKey(s.db.orders, p, req.key);
    }
  }

  lemma CreateOtherOrder(cfg: Config, s: System, req: OrderRequest, o: OrderId, t: TaskId, at: Time, q: OrderId)
    requires o !in s.db.orders && t !in s.db.tasks
    requires q in s.db.orders && q in s.work && OrderInv(cfg, s, q)
    ensures OrderInv(cfg, Created(cfg, s, req, o, t, at), q)
  {
    var s' := Created(cfg, s, req, o, t, at);
    SelectAppend(s.db.events, CreationEvent(o, at), LifecycleOf(q));
    forall k | 0 <= k < |s.work[q]|
      ensures s.work[q][k] in s.db.tasks
    {
      assert TaskAt(cfg, s, q, k);
    }
    FrameOrder(cfg, s, s', q);
  }

  lemma CreatedKeepsInv(cfg: Config, s: System, req: OrderRequest, o: OrderId, t: TaskId, at: Time)
    requires Inv(cfg, s) && o !in s.db.orders && t !in s.db.tasks && at <= s.now
    requires !KeyTaken(s.db.orders, req.key)
    ensures Inv(cfg, Created(cfg, s, req, o, t, at))
  {
    var s' := Created(cfg, s, req, o, t, at);
    CreateStructure(cfg, s, req, o, t, at);
    forall q | q in s'.db.orders
      ensures OrderInv(cfg, s', q)
    {
      if q == o {
        NewOrderInv(cfg, s, req, o, t, at);
      } else {
        assert OrderInv(cfg, s, q);
        CreateOtherOrder(cfg, s, req, o, t, at, q);
      }
    }
    forall w | w in s'.workers
      ensures WorkerOk(cfg, s', s'.workers[w], w)
    {
      assert WorkerOk(cfg, s, s.workers[w], w);
      WorkerAcross(cfg, s, s', s.workers[w], w);
    }
  }

  lemma CreateKeepsInv(cfg: Config, s: System, req: OrderRequest, o: OrderId, t: TaskId, at: Time)
    requires Inv(cfg, s) && Enabled(s, CreateOrder(req, o, t, at))
    ensures Inv(cfg, Advance(cfg, AfterCreate(cfg, s, req, o, t, at)))
  {
    if CreateOrGet(cfg, s.db, req, o, t, at).outcome.Accepted? {
      CreatedKeepsInv(cfg, s, req, o, t, at);
    } else {
      QuietStep(cfg, s, Advance(cfg, s));
    }
  }

  // ---------------------------------------------------------------- transition

  /** A follow-up task is never suppressed: no active row has its dedupe key. */
  lemma NoActiveFollowup(cfg: Config, s: System, o: OrderId, k: nat)
    requires Inv(cfg, s) && o in s.db.orders && o in s.work
    requires k + 1 < HOPS && |s.work[o]| <= k + 1
    ensures !ActiveKey(s.db.tasks, DedupeKey(o, StageTaskType(k + 1), Stage(k + 2)))
  {
    forall u | u in s.db.tasks && s.db.tasks[u].Active()
      ensures s.db.tasks[u].dedupeKey != Some(DedupeKey(o, StageTaskType(k + 1), Stage(k + 2)))
    {
      var q, i := TaskFacts(cfg, s, u);
      assert StageIndex(Stage(i + 1)) == i + 1 && StageIndex(Stage(k + 2)) == k + 2;
    }
  }

  lemma TransitionLog(cfg: Config, now: Time, o: OrderId, order: Order, log: seq<Event>, k: nat,
                      t: TaskId, w: WorkerId, courier: Option<string>, at: Time, begun: Time)
    requires LogOk(cfg, now, o, order, log) && k < HOPS && k == Hops(order, log) && order.state == Stage(k)
    requires log[k].occurredAt + cfg.tick <= at <= begun <= now
    requires StageWindow(cfg, k).Some? ==> log[k].occurredAt < at
    requires courier.Some? <==> k == 3
    ensures var spec := SpecOf(StageHandler(k));
            var order', log' := TransitionedOrder(order, spec, courier, at, begun),
                                log + [TransitionEvent(o, spec, t, w, at)];
            LogOk(cfg, now + cfg.tick, o, order', log') && Hops(order', log') == k + 1
  {
    var spec := SpecOf(StageHandler(k));
    var log' := log + [TransitionEvent(o, spec, t, w, at)];
    SpecTableFollowsLifecycle(cfg, k, at);
    forall i | 0 < i <= k + 1
      ensures IsHop(log'[i], o, i)
    {
      if i <= k {
        assert IsHop(log[i], o, i);
      }
    }
  }

  /** The tables after the k-th hop of order o commits. */
  function Hopped(cfg: Config, s: System, w: WorkerId, o: OrderId, k: nat, t: TaskId, newId: TaskId): System
    requires w in s.workers && s.workers[w].Finalizing?
    requires t in s.db.tasks && t in s.hist && o in s.db.orders && o in s.work && k < HOPS
  {
    var p, spec := s.workers[w], SpecOf(StageHandler(k));
    var tasks := if k + 1 < HOPS then
                   s.db.tasks[newId := NewTask(cfg, o, StageTaskType(k + 1), Stage(k + 2),
                                               FollowupSchedule(cfg, spec, p.at), p.at)]
                 else s.db.tasks;
    var hist := s.hist[t := BumpedHistory(s.hist[t])];
    System(
      Db(s.db.orders[o := TransitionedOrder(s.db.orders[o], spec, p.courier, p.at, p.begun)],
         tasks[t := CompletedRow(s.db.tasks[t], p.at, p.begun)],
         s.db.events + [TransitionEvent(o, spec, t, w, p.at)]),
      s.now + cfg.tick,
      s.workers[w := Idle],
      if k + 1 < HOPS then s.work[o := s.work[o] + [newId]] else s.work,
      if k + 1 < HOPS then hist[newId := History(0, 0, false, [])] else hist)
  }

  /** What the open transaction of worker w relies on. */
  ghost predicate ReadyToCommit(cfg: Config, s: System, w: WorkerId, newId: TaskId, o: OrderId, k: nat, t: TaskId)
  {
    && w in s.workers && s.workers[w].Finalizing? && newId !in s.db.tasks
    && t == s.workers[w].task.id && t in s.db.tasks && t in s.hist
    && o in s.db.orders && o in s.work && s.db.tasks[t].orderId == o
    && k < HOPS && |s.work[o]| == k + 1 && s.work[o][k] == t
    && s.db.tasks[t].status == Running
    && HandlerOf(s.workers[w].task) == Some(StageHandler(k))
    && k == Hops(s.db.orders[o], Log(s, o))
    && s.db.orders[o].state == Stage(k) && s.db.orders[o].version == s.workers[w].version
    && (s.workers[w].courier.Some? <==> k == 3)
    && s.db.tasks[t].createdAt + cfg.tick <= s.workers[w].at <= s.workers[w].begun <= s.now
    && (StageWindow(cfg, k).Some? ==> s.db.tasks[t].createdAt < s.workers[w].at)
    && Owned(s.db, t, w)
  }

  lemma CommitIsReady(cfg: Config, s: System, w: WorkerId, newId: TaskId) returns (o: OrderId, k: nat)
    requires Inv(cfg, s) && Enabled(s, CommitFinalize(w, newId))
    ensures ReadyToCommit(cfg, s, w, newId, o, k, s.workers[w].task.id)
  {
    assert WorkerOk(cfg, s, s.workers[w], w);
    o, k := OwnedTask(cfg, s, w);
    OpenTaskIsCurrent(cfg, s, s.workers[w].task.id);
  }

  /** No active row stands in the way of the follow-up. */
  lemma FollowupIsInserted(cfg: Config, s: System, o: OrderId, k: nat, newId: TaskId, at: Time)
    requires Inv(cfg, s) && o in s.db.orders && o in s.work && k < HOPS && |s.work[o]| == k + 1
    ensures WithFollowup(cfg, s.db.tasks, o, SpecOf(StageHandler(k)), newId, at) ==
            if k + 1 < HOPS then
              s.db.tasks[newId := NewTask(cfg, o, StageTaskType(k + 1), Stage(k + 2),
                                          FollowupSchedule(cfg, SpecOf(StageHandler(k)), at), at)]
            else s.db.tasks
  {
    SpecTableFollowsLifecycle(cfg, k, at);
    if k + 1 < HOPS {
      NoActiveFollowup(cfg, s, o, k);
    }
  }

  /** The guarded update of a reachable state always succeeds, and its follow-up is inserted. */
  lemma CommitSucceeds(cfg: Config, s: System, w: WorkerId, newId: TaskId, o: OrderId, k: nat, t: TaskId)
    requires Inv(cfg, s) && Enabled(s, CommitFinalize(w, newId)) && ReadyToCommit(cfg, s, w, newId, o, k, t)
    ensures Advance(cfg, AfterCommit(cfg, s, w, newId)) == Hopped(cfg, s, w, o, k, t, newId)
  {
    SpecTableFollowsLifecycle(cfg, k, s.workers[w].at);
    FollowupIsInserted(cfg, s, o, k, newId, s.workers[w].at);
  }

  lemma HoppedLog(cfg: Config, s: System, w: WorkerId, newId: TaskId, o: OrderId, k: nat, t: TaskId)
    requires StructureOk(s) && ReadyToCommit(cfg, s, w, newId, o, k, t)
    requires LogOk(cfg, s.now, o, s.db.orders[o], Log(s, o)) && WorkOk(cfg, s, o)
    ensures var s' := Hopped(cfg, s, w, o, k, t, newId);
            && Log(s', o) == Log(s, o) + [TransitionEvent(o, SpecOf(StageHandler(k)), t, w, s.workers[w].at)]
            && LogOk(cfg, s'.now, o, s'.db.orders[o], Log(s', o))
            && Hops(s'.db.orders[o], Log(s', o)) == k + 1
  {
    var p := s.workers[w];
    SelectAppend(s.db.events, TransitionEvent(o, SpecOf(StageHandler(k)), t, w, p.at), LifecycleOf(o));
    StageBegan(cfg, s, o, k);
    TransitionLog(cfg, s.now, o, s.db.orders[o], Log(s, o), k, t, w, p.courier, p.at, p.begun);
  }

  /** A task is created by the event that begins its stage. */
  lemma StageBegan(cfg: Config, s: System, o: OrderId, k: nat)
    requires o in s.db.orders && o in s.work && WorkOk(cfg, s, o) && k < |s.work[o]|
    ensures s.work[o][k] in s.db.tasks && k < |Log(s, o)|
    ensures s.db.tasks[s.work[o][k]].createdAt == Log(s, o)[k].occurredAt
  {
    assert TaskAt(cfg, s, o, k);
  }

  lemma CompletedTaskOk(cfg: Config, now: Time, o: OrderId, k: nat, row: Task, h: History, at: Time, begun: Time)
    requires k < HOPS && row.status == Running && TaskOk(cfg, now, o, k, row, h)
    ensures TaskOk(cfg, now + cfg.tick, o, k, CompletedRow(row, at, begun), BumpedHistory(h))
  {
  }

  lemma HoppedOldTask(cfg: Config, s: System, w: WorkerId, newId: TaskId, o: OrderId, k: nat, t: TaskId, i: nat)
    requires ReadyToCommit(cfg, s, w, newId, o, k, t) && i <= k && TaskAt(cfg, s, o, i)
    requires var s' := Hopped(cfg, s, w, o, k, t, newId);
             && Log(s', o) == Log(s, o) + [TransitionEvent(o, SpecOf(StageHandler(k)), t, w, s.workers[w].at)]
             && Hops(s'.db.orders[o], Log(s', o)) == k + 1
    ensures TaskAt(cfg, Hopped(cfg, s, w, o, k, t, newId), o, i)
  {
    var s', p, u := Hopped(cfg, s, w, o, k, t, newId), s.workers[w], s.work[o][i];
    if u == t {
      CompletedTaskOk(cfg, s.now, o, i, s.db.tasks[t], s.hist[t], p.at, p.begun);
    } else {
      TaskOkLater(cfg, s.now, s'.now, o, i, s.db.tasks[u], s.hist[u]);
    }
  }

  lemma HoppedNewTask(cfg: Config, s: System, w: WorkerId, newId: TaskId, o: OrderId, k: nat, t: TaskId)
    requires StructureOk(s) && ReadyToCommit(cfg, s, w, newId, o, k, t) && k + 1 < HOPS
    requires LogOk(cfg, s.now, o, s.db.orders[o], Log(s, o)) && WorkOk(cfg, s, o)
    ensures TaskAt(cfg, Hopped(cfg, s, w, o, k, t, newId), o, k + 1)
  {
    var s', p := Hopped(cfg, s, w, o, k, t, newId), s.workers[w];
    HoppedLog(cfg, s, w, newId, o, k, t);
    SpecTableFollowsLifecycle(cfg, k, p.at);
    NewTaskAt(cfg, s', o, k + 1, newId, p.at, FollowupSchedule(cfg, SpecOf(StageHandler(k)), p.at));
  }

  lemma HoppedTask(cfg: Config, s: System, w: WorkerId, newId: TaskId, o: OrderId, k: nat, t: TaskId, i: nat)
    requires StructureOk(s) && ReadyToCommit(cfg, s, w, newId, o, k, t)
    requires LogOk(cfg, s.now, o, s.db.orders[o], Log(s, o)) && WorkOk(cfg, s, o)
    requires i < |Hopped(cfg, s, w, o, k, t, newId).work[o]|
    ensures TaskAt(cfg, Hopped(cfg, s, w, o, k, t, newId), o, i)
  {
    if i <= k {
      HoppedLog(cfg, s, w, newId, o, k, t);
      assert TaskAt(cfg, s, o, i);
      HoppedOldTask(cfg, s, w, newId, o, k, t, i);
    } else {
      HoppedNewTask(cfg, s, w, newId, o, k, t);
    }
  }

  lemma HoppedOwnOrder(cfg: Config, s: System, w: WorkerId, newId: TaskId, o: OrderId, k: nat, t: TaskId)
    requires StructureOk(s) && ReadyToCommit(cfg, s, w, newId, o, k, t) && OrderInv(cfg, s, o)
    ensures OrderInv(cfg, Hopped(cfg, s, w, o, k, t, newId), o)
  {
    var s' := Hopped(cfg, s, w, o, k, t, newId);
    HoppedLog(cfg, s, w, newId, o, k, t);
    forall i | 0 <= i < |s'.work[o]|
      ensures TaskAt(cfg, s', o, i)
    {
      HoppedTask(cfg, s, w, newId, o, k, t, i);
    }
  }

  lemma HoppedOtherOrder(cfg: Config, s: System, w: WorkerId, newId: TaskId, o: OrderId, k: nat, t: TaskId, q: OrderId)
    requires ReadyToCommit(cfg, s, w, newId, o, k, t)
    requires q != o && q in s.db.orders && q in s.work && OrderInv(cfg, s, q)
    ensures OrderInv(cfg, Hopped(cfg, s, w, o, k, t, newId), q)
  {
    var s' := Hopped(cfg, s, w, o, k, t, newId);
    SelectAppend(s.db.events, TransitionEvent(o, SpecOf(StageHandler(k)), t, w, s.workers[w].at), LifecycleOf(q));
    forall i | 0 <= i < |s.work[q]|
      ensures s.work[q][i] in s.db.tasks && s.work[q][i] != t
    {
      assert TaskAt(cfg, s, q, i);
    }
    FrameOrder(cfg, s, s', q);
  }

  lemma HoppedIndexed(cfg: Config, s: System, w: WorkerId, newId: TaskId, o: OrderId, k: nat, t: TaskId, u: TaskId)
    requires StructureOk(s) && ReadyToCommit(cfg, s, w, newId, o, k, t)
    requires u in Hopped(cfg, s, w, o, k, t, newId).db.tasks
    ensures Indexed(Hopped(cfg, s, w, o, k, t, newId), u)
  {
    if u in s.db.tasks {
      assert Indexed(s, u);
    } else {
      assert StageIndex(Stage(k + 2)) == k + 2;
    }
  }

  lemma HoppedStructure(cfg: Config, s: System, w: WorkerId, newId: TaskId, o: OrderId, k: nat, t: TaskId)
    requires StructureOk(s) && ReadyToCommit(cfg, s, w, newId, o, k, t)
    ensures StructureOk(Hopped(cfg, s, w, o, k, t, newId))
  {
    var s' := Hopped(cfg, s, w, o, k, t, newId);
    forall u | u in s'.db.tasks
      ensures Indexed(s', u)
    {
      HoppedIndexed(cfg, s, w, newId, o, k, t, u);
    }
  }

  lemma HoppedWorker(cfg: Config, s: System, w: WorkerId, newId: TaskId, o: OrderId, k: nat, t: TaskId, v: WorkerId)
    requires Inv(cfg, s) && ReadyToCommit(cfg, s, w, newId, o, k, t)
    requires v in s.workers && v != w
    ensures WorkerOk(cfg, Hopped(cfg, s, w, o, k, t, newId), s.workers[v], v)
  {
    var s', p := Hopped(cfg, s, w, o, k, t, newId), s.workers[v];
    assert WorkerOk(cfg, s, p, v);
    if p.Finalizing? && s.db.tasks[p.task.id].orderId == o {
      OpenTaskIsCurrent(cfg, s, p.task.id);
    }
    WorkerAcross(cfg, s, s', p, v);
  }

  lemma CommitKeepsInv(cfg: Config, s: System, w: WorkerId, newId: TaskId)
    requires Inv(cfg, s) && Enabled(s, CommitFinalize(w, newId))
    ensures Inv(cfg, Advance(cfg, AfterCommit(cfg, s, w, newId)))
  {
    var o, k := CommitIsReady(cfg, s, w, newId);
    var t := s.workers[w].task.id;
    var s' := Hopped(cfg, s, w, o, k, t, newId);
    CommitSucceeds(cfg, s, w, newId, o, k, t);
    HoppedStructure(cfg, s, w, newId, o, k, t);
    forall q | q in s'.db.orders
      ensures OrderInv(cfg, s', q)
    {
      assert OrderInv(cfg, s, q);
      if q == o { HoppedOwnOrder(cfg, s, w, newId, o, k, t); } else { HoppedOtherOrder(cfg, s, w, newId, o, k, t, q); }
    }
    forall v | v in s'.workers
      ensures WorkerOk(cfg, s', s'.workers[v], v)
    {
      if v != w {
        HoppedWorker(cfg, s, w, newId, o, k, t, v);
      }
    }
  }
}
