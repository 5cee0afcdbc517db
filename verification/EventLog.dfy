/** The event log is a faithful history of the orders, and cancellation is final. */
module EventLog {
  import opened Optional
  import opened OrderLifecycle
  import opened Rows
  import opened Settings
  import opened TransitionSpecs
  import opened Transactions
  import opened Pipeline
  import opened PipelineInvariant
  import opened PipelineSteps
  import opened PipelineOrderSteps
  import opened PipelineChanges

  /** Replays lifecycle events from nothing, refusing any event that does not continue the
      state reached so far. */
  function Replay(log: seq<Event>): Option<OrderState> {
    if log == [] then None
    else
      var e, before := log[|log| - 1], Replay(log[..|log| - 1]);
      match e.kind
      case OrderCreated => if |log| == 1 then Some(Placed) else None
      case StateTransition =>
        if before.Some? && e.fromState == before && e.toState.Some? && CanTransition(before.value, e.toState.value)
        then e.toState else None
      case OrderCancelled =>
        if before.Some? && e.fromState == before && !IsTerminal(before.value) && e.toState == Some(Cancelled)
        then Some(Cancelled) else None
      case _ => None
  }

  lemma {:induction false} ReplayPath(cfg: Config, now: Time, o: OrderId, order: Order, log: seq<Event>, k: nat)
    requires LogOk(cfg, now, o, order, log) && k <= Hops(order, log)
    ensures Replay(log[..k + 1]) == Some(Stage(k))
  {
    assert log[..k + 1][..k] == log[..k];
    if k > 0 {
      ReplayPath(cfg, now, o, order, log, k - 1);
      assert IsHop(log[k], o, k);
      assert log[..k + 1][k] == log[k];
    }
  }

  /** Folding an order's log gives its state; the version counts the state-changing events;
      each lifecycle state is entered at most once. */
  lemma ReplayGivesState(cfg: Config, s: System, o: OrderId)
    requires Reachable(cfg, s) && o in s.db.orders
    ensures Replay(Log(s, o)) == Some(s.db.orders[o].state)
    ensures s.db.orders[o].version == |Log(s, o)| - 1
  {
    ReachableInv(cfg, s);
    assert OrderInv(cfg, s, o);
    var order, log := s.db.orders[o], Log(s, o);
    var h := Hops(order, log);
    ReplayPath(cfg, s.now, o, order, log, h);
    if order.state == Cancelled {
      assert log[..|log| - 1] == log[..h + 1];
    } else {
      assert log == log[..h + 1];
    }
  }

  lemma {:induction false} ChronologicalHops(cfg: Config, now: Time, o: OrderId, order: Order, log: seq<Event>, i: nat,
                                             j: nat)
    requires LogOk(cfg, now, o, order, log) && i <= j <= Hops(order, log)
    ensures log[i].occurredAt + (j - i) * cfg.tick <= log[j].occurredAt
  {
    if i < j {
      ChronologicalHops(cfg, now, o, order, log, i, j - 1);
      assert (j - i) * cfg.tick == (j - 1 - i) * cfg.tick + cfg.tick;
    }
  }

  lemma {:induction false} HopsBeforeNow(cfg: Config, now: Time, o: OrderId, order: Order, log: seq<Event>, j: nat)
    requires LogOk(cfg, now, o, order, log) && j <= Hops(order, log)
    ensures log[j].occurredAt <= now
    decreases Hops(order, log) - j
  {
    if j < Hops(order, log) {
      HopsBeforeNow(cfg, now, o, order, log, j + 1);
      assert log[j + 1 - 1].occurredAt + cfg.tick <= log[j + 1].occurredAt;
    }
  }

  lemma TransitionsAreHops(cfg: Config, now: Time, o: OrderId, order: Order, log: seq<Event>, j: nat)
    requires LogOk(cfg, now, o, order, log) && j < |log|
    ensures log[j].kind == OrderCreated <==> j == 0
    ensures log[j].kind == StateTransition <==> 0 < j <= Hops(order, log)
    ensures log[j].kind == OrderCancelled <==> j == |log| - 1 && order.state == Cancelled
    ensures 0 < j <= Hops(order, log) <= HOPS ==> IsHop(log[j], o, j)
  {
    assert 0 < j <= Hops(order, log) ==> IsHop(log[j], o, j);
  }

  lemma DistinctTargets(cfg: Config, now: Time, o: OrderId, order: Order, log: seq<Event>, i: nat, j: nat)
    requires LogOk(cfg, now, o, order, log) && i < |log| && j < |log|
    requires log[i].kind == StateTransition && log[j].kind == StateTransition
    ensures log[i].fromState.Some? && log[i].toState.Some?
    ensures CanTransition(log[i].fromState.value, log[i].toState.value)
    ensures log[i].toState == log[j].toState ==> i == j
  {
    TransitionsAreHops(cfg, now, o, order, log, i);
    TransitionsAreHops(cfg, now, o, order, log, j);
    assert StageIndex(Stage(j)) == j && StageIndex(Stage(i)) == i;
  }

  /** The log is one creation, then hops along the transition table that never repeat a
      state, then at most one cancellation, and nothing else. */
  lemma LogShape(cfg: Config, s: System, o: OrderId)
    requires Reachable(cfg, s) && o in s.db.orders
    ensures Log(s, o) != []
    ensures forall e :: e in Log(s, o) ==>
              e.kind == OrderCreated || e.kind == StateTransition || e.kind == OrderCancelled
    ensures forall i :: 0 <= i < |Log(s, o)| ==> (Log(s, o)[i].kind == OrderCreated <==> i == 0)
    ensures forall i :: 0 <= i < |Log(s, o)| ==>
              (Log(s, o)[i].kind == OrderCancelled <==> i == |Log(s, o)| - 1 && s.db.orders[o].state == Cancelled)
    ensures forall i, j :: (0 <= i < |Log(s, o)| && 0 <= j < |Log(s, o)|
                && Log(s, o)[i].kind == StateTransition && Log(s, o)[j].kind == StateTransition) ==>
              && Log(s, o)[i].fromState.Some? && Log(s, o)[i].toState.Some?
              && CanTransition(Log(s, o)[i].fromState.value, Log(s, o)[i].toState.value)
              && (Log(s, o)[i].toState == Log(s, o)[j].toState ==> i == j)
  {
    ReachableInv(cfg, s);
    assert OrderInv(cfg, s, o);
    forall i | 0 <= i < |Log(s, o)|
      ensures Log(s, o)[i].kind == OrderCreated <==> i == 0
      ensures Log(s, o)[i].kind == OrderCancelled <==> i == |Log(s, o)| - 1 && s.db.orders[o].state == Cancelled
    {
      TransitionsAreHops(cfg, s.now, o, s.db.orders[o], Log(s, o), i);
    }
    forall i, j | 0 <= i < |Log(s, o)| && 0 <= j < |Log(s, o)|
        && Log(s, o)[i].kind == StateTransition && Log(s, o)[j].kind == StateTransition
      ensures
        && Log(s, o)[i].fromState.Some? && Log(s, o)[i].toState.Some?
        && CanTransition(Log(s, o)[i].fromState.value, Log(s, o)[i].toState.value)
        && (Log(s, o)[i].toState == Log(s, o)[j].toState ==> i == j)
    {
      DistinctTargets(cfg, s.now, o, s.db.orders[o], Log(s, o), i, j);
    }
  }

  /** Lifecycle events are stamped in the order they commit, with at least the clock's tick
      between hops; a strictly increasing clock therefore stamps them strictly increasingly. */
  lemma HopsAreChronological(cfg: Config, s: System, o: OrderId, i: nat, j: nat)
    requires Reachable(cfg, s) && o in s.db.orders
    requires i < j < |Log(s, o)| && Log(s, o)[j].kind == StateTransition
    ensures Log(s, o)[i].occurredAt + (j - i) * cfg.tick <= Log(s, o)[j].occurredAt <= s.now
  {
    ReachableInv(cfg, s);
    assert OrderInv(cfg, s, o);
    var order, log := s.db.orders[o], Log(s, o);
    TransitionsAreHops(cfg, s.now, o, order, log, j);
    ChronologicalHops(cfg, s.now, o, order, log, i, j);
    HopsBeforeNow(cfg, s.now, o, order, log, j);
  }

  // ---------------------------------------------------------------- courier

  /** courier_ref is written exactly once, by the hop ready -> out_for_delivery, and holds
      what the courier service answered. */
  lemma CourierWrittenOnce(cfg: Config, s: System, step: Step, o: OrderId)
    requires Reachable(cfg, s) && Enabled(s, step) && o in s.db.orders
    ensures var s' := Next(cfg, s, step);
            && o in s'.db.orders
            && (s'.db.orders[o].courierRef != s.db.orders[o].courierRef <==>
                  s.db.orders[o].state == Ready && s'.db.orders[o].state == OutForDelivery)
            && (s'.db.orders[o].courierRef != s.db.orders[o].courierRef ==>
                  && s.db.orders[o].courierRef == None
                  && step.CommitFinalize? && s'.db.orders[o].courierRef == s.workers[step.worker].courier)
  {
    ReachableInv(cfg, s);
    assert OrderInv(cfg, s, o);
    var c := Classify(cfg, s, step);
    OrderAcross(cfg, s, Next(cfg, s, step), c, o);
  }

  lemma OrderAcrossHop(cfg: Config, s: System, s': System, c: Change, o: OrderId)
    requires ChangeOk(cfg, s, s', c) && c.HopChange? && o in s.db.orders
    ensures o in s'.db.orders
    ensures if c.orderId == o then
              && c.worker in s.workers && s.workers[c.worker].Finalizing? && c.stage < HOPS
              && s.db.orders[o].state == Stage(c.stage) && c.stage == Hops(s.db.orders[o], Log(s, o))
              && s'.db.orders[o].state == Stage(c.stage + 1)
              && s'.db.orders[o].courierRef ==
                 (if c.stage == 3 then s.workers[c.worker].courier else s.db.orders[o].courierRef)
              && (c.stage == 3 ==> s.workers[c.worker].courier.Some?)
            else
              s'.db.orders[o] == s.db.orders[o] && Log(s', o) == Log(s, o)
  {
    SpecTableFollowsLifecycle(cfg, c.stage, s.now);
    SelectAppend(s.db.events,
                 TransitionEvent(c.orderId, SpecOf(StageHandler(c.stage)), c.taskId, c.worker, s.workers[c.worker].at),
                 LifecycleOf(o));
  }

  /** What any change does to an order row and its log. */
  lemma OrderAcross(cfg: Config, s: System, s': System, c: Change, o: OrderId)
    requires ChangeOk(cfg, s, s', c) && o in s.db.orders && LogOk(cfg, s.now, o, s.db.orders[o], Log(s, o))
    ensures o in s'.db.orders
    ensures if c.HopChange? && c.orderId == o then
              && c.worker in s.workers && s.workers[c.worker].Finalizing? && c.stage < HOPS
              && s.db.orders[o].state == Stage(c.stage) && c.stage == Hops(s.db.orders[o], Log(s, o))
              && s'.db.orders[o].state == Stage(c.stage + 1)
              && s'.db.orders[o].courierRef ==
                 (if c.stage == 3 then s.workers[c.worker].courier else s.db.orders[o].courierRef)
              && (c.stage == 3 ==> s.workers[c.worker].courier.Some?)
            else if c.CancelChange? && c.orderId == o then
              && !IsTerminal(s.db.orders[o].state)
              && s'.db.orders[o].state == Cancelled
              && s'.db.orders[o].courierRef == s.db.orders[o].courierRef
            else
              s'.db.orders[o] == s.db.orders[o] && Log(s', o) == Log(s, o)
  {
    if c.HopChange? {
      OrderAcrossHop(cfg, s, s', c, o);
    } else if c.CancelChange? {
      SelectAppend(s.db.events,
                   CancelEvent(c.orderId, s.db.orders[c.orderId].state, OpenTasks(s.db.tasks, c.orderId), c.at),
                   LifecycleOf(o));
    } else {
      OrderAcrossOthers(cfg, s, s', c, o);
    }
  }

  /** Row rewrites, intake and reopenings leave existing orders and their logs alone. */
  lemma OrderAcrossOthers(cfg: Config, s: System, s': System, c: Change, o: OrderId)
    requires ChangeOk(cfg, s, s', c) && o in s.db.orders && !c.HopChange? && !c.CancelChange?
    ensures o in s'.db.orders && s'.db.orders[o] == s.db.orders[o] && Log(s', o) == Log(s, o)
  {
    if c.NewOrderChange? {
      SelectAppend(s.db.events, CreationEvent(c.orderId, c.at), LifecycleOf(o));
    } else if c.ReopenChange? {
      LogUnchanged(s.db.events, ReopenEvents(s.db.tasks, c.orderId, c.ids, c.at), LifecycleOf(o));
    }
  }

  // ---------------------------------------------------------------- cancellation

  /** Workers with a downstream call under way for order o. */
  function Callers(s: System, o: OrderId): set<WorkerId> {
    set w | w in s.workers && s.workers[w].Calling? && s.workers[w].task.orderId == o
  }

  /** Only a prepare step starts a call. */
  lemma CallsStartInPrepare(cfg: Config, s: System, step: Step, w: WorkerId)
    requires Enabled(s, step)
    requires w in Next(cfg, s, step).workers && Next(cfg, s, step).workers[w].Calling?
    ensures (step.PrepareCall? && step.worker == w) || (w in s.workers && s.workers[w] == Next(cfg, s, step).workers[w])
  {
  }

  lemma CancelledCallers(cfg: Config, s: System, step: Step, o: OrderId)
    requires Inv(cfg, s) && Enabled(s, step) && o in s.db.orders && s.db.orders[o].state == Cancelled
    ensures Callers(Next(cfg, s, step), o) <= Callers(s, o)
  {
    var s' := Next(cfg, s, step);
    forall w | w in Callers(s', o)
      ensures w in Callers(s, o)
    {
      CallsStartInPrepare(cfg, s, step, w);
      if step.PrepareCall? && step.worker == w && s.workers[w].task.orderId == o {
        NoCallWhenCancelled(cfg, s, w, step.at, o);
      }
    }
  }

  /** No step changes a cancelled order, its history or its list of tasks, and no step starts
      a downstream call for it. */
  lemma CancelledStep(cfg: Config, s: System, step: Step, o: OrderId)
    requires Inv(cfg, s) && Enabled(s, step) && o in s.db.orders && s.db.orders[o].state == Cancelled
    ensures var s' := Next(cfg, s, step);
            && o in s'.db.orders && o in s.work && o in s'.work
            && s'.db.orders[o] == s.db.orders[o]
            && Log(s', o) == Log(s, o)
            && s'.work[o] == s.work[o]
            && Callers(s', o) <= Callers(s, o)
  {
    assert OrderInv(cfg, s, o);
    var c := Classify(cfg, s, step);
    OrderAcross(cfg, s, Next(cfg, s, step), c, o);
    WorkAcross(cfg, s, Next(cfg, s, step), c, o);
    CancelledCallers(cfg, s, step, o);
  }

  /** Only a hop of the order itself gives it another task. */
  lemma WorkAcross(cfg: Config, s: System, s': System, c: Change, o: OrderId)
    requires ChangeOk(cfg, s, s', c) && o in s.work && o in s.db.orders
    ensures o in s'.work
    ensures !(c.HopChange? && c.orderId == o) ==> s'.work[o] == s.work[o]
  {
  }

  lemma NoCallWhenCancelled(cfg: Config, s: System, w: WorkerId, at: Time, o: OrderId)
    requires Inv(cfg, s) && Enabled(s, PrepareCall(w, at))
    requires o in s.db.orders && s.db.orders[o].state == Cancelled && s.workers[w].task.orderId == o
    ensures AfterPrepare(cfg, s, w, at).workers[w].Idle?
  {
    var source := SpecOf(HandlerOf(s.workers[w].task).value).source;
    assert WorkerOk(cfg, s, s.workers[w], w);
    SettleOutcome(cfg, s, w, source, at);
    PrepareOutcome(cfg, s, w, at);
    if Owned(s.db, s.workers[w].task.id, w) {
      var p, k := OwnedTask(cfg, s, w);
    }
  }

  /** Between s and s' nothing about order o changed, and no worker started a call for it. */
  ghost predicate Frozen(s: System, s': System, o: OrderId) {
    && o in s.db.orders && o in s'.db.orders && s'.db.orders[o] == s.db.orders[o]
    && Log(s', o) == Log(s, o)
    && o in s.work && o in s'.work && s'.work[o] == s.work[o]
    && Callers(s', o) <= Callers(s, o)
  }

  lemma FrozenStep(cfg: Config, states: seq<System>, steps: seq<Step>, o: OrderId, n: nat)
    requires IsRun(cfg, states, steps) && Inv(cfg, states[0]) && n < |steps|
    requires o in states[n].db.orders && states[n].db.orders[o].state == Cancelled
    ensures Frozen(states[n], states[n + 1], o)
  {
    RunKeepsInv(cfg, states, steps, n);
    CancelledStep(cfg, states[n], steps[n], o);
  }

  lemma FrozenFromStart(cfg: Config, states: seq<System>, steps: seq<Step>, o: OrderId, i: nat)
    requires IsRun(cfg, states, steps) && Inv(cfg, states[0]) && i <= |steps| && o in states[i].db.orders
    ensures Frozen(states[i], states[i], o)
  {
    RunKeepsInv(cfg, states, steps, i);
    assert OrderInv(cfg, states[i], o);
  }

  lemma FrozenTwice(s: System, s': System, s'': System, o: OrderId)
    requires Frozen(s, s', o) && Frozen(s', s'', o)
    ensures Frozen(s, s'', o)
  {
  }

  /** Cancellation is absorbing: whatever in-flight successes, lease reclaims or operator
      retries follow, the order row, its history and its task list never change again, and no
      worker starts another downstream call for it. */
  lemma {:induction false} CancellationIsFinal(cfg: Config, states: seq<System>, steps: seq<Step>, o: OrderId,
                                               i: nat, j: nat)
    requires IsRun(cfg, states, steps) && Inv(cfg, states[0]) && i <= j <= |steps|
    requires o in states[i].db.orders && states[i].db.orders[o].state == Cancelled
    ensures Frozen(states[i], states[j], o)
    decreases j
  {
    if i < j {
      CancellationIsFinal(cfg, states, steps, o, i, j - 1);
      FrozenStep(cfg, states, steps, o, j - 1);
      FrozenTwice(states[i], states[j - 1], states[j], o);
    } else {
      FrozenFromStart(cfg, states, steps, o, i);
    }
  }

  // ---------------------------------------------------------------- the call itself

  /** Whenever a worker whose ownership check passes prepares a call for an order that is not
      cancelled, the call goes out, names the order's restaurant (or, when polling delivery,
      its courier) and carries the time of the event that began the current stage: the
      updated_at fallback and the missing-data retries are dead code. */
  lemma PreparedCallIsExact(cfg: Config, s: System, w: WorkerId, at: Time)
    requires Reachable(cfg, s) && Enabled(s, PrepareCall(w, at)) && Owned(s.db, s.workers[w].task.id, w)
    ensures var t := s.workers[w].task.id;
            && t in s.db.tasks && s.db.tasks[t].orderId in s.db.orders
            && var o, order := s.db.tasks[t].orderId, OrderOf(s.db, t);
            order.state != Cancelled ==>
              && Log(s, o) != []
              && Log(s, o)[|Log(s, o)| - 1].toState.GetOr(Placed) == order.state
              && Prepare(cfg, s.db, s.now, t, w, HandlerOf(s.workers[w].task).value, at)
                 == Proceed(DownstreamCall(
                              o,
                              if order.state == OutForDelivery then order.courierRef.GetOr("") else order.restaurantRef,
                              Log(s, o)[|Log(s, o)| - 1].occurredAt))
              && (order.state == OutForDelivery ==> order.courierRef.Some?)
  {
    ReachableInv(cfg, s);
    var o, k := OwnedTask(cfg, s, w);
    if s.db.orders[o].state != Cancelled {
      SettleOutcome(cfg, s, w, Stage(k), at);
      SourceEventIsCurrentHop(cfg, s, o, k, StageHandler(k));
      assert k > 0 ==> IsHop(Log(s, o)[k], o, k);
      OwnedDeadline(cfg, s, w);
    }
  }

  lemma OwnedDeadline(cfg: Config, s: System, w: WorkerId)
    requires Inv(cfg, s) && HasTask(s, w) && Owned(s.db, s.workers[w].task.id, w)
    ensures s.workers[w].task.id in s.db.tasks
    ensures HandlerOf(s.workers[w].task).Some?
    ensures HandlerOf(s.workers[w].task).value.Polls() <==> s.db.tasks[s.workers[w].task.id].deadlineAt.Some?
  {
    var o, k := OwnedTask(cfg, s, w);
    SpecTableFollowsLifecycle(cfg, k, s.now);
  }

  // ---------------------------------------------------------------- attempts

  /** `attempts` counts the retryable errors since creation or the last operator retry; queued
      and leased tasks have budget left; a failed one has none left or ran out of time. */
  lemma AttemptAccounting(cfg: Config, s: System, t: TaskId)
    requires Reachable(cfg, s) && t in s.db.tasks
    ensures t in s.hist && s.db.tasks[t].attempts == s.hist[t].errors <= s.db.tasks[t].maxAttempts
    ensures s.db.tasks[t].Active() ==> s.db.tasks[t].attempts < s.db.tasks[t].maxAttempts
    ensures s.db.tasks[t].status == TaskFailed ==>
              (s.db.tasks[t].attempts == s.db.tasks[t].maxAttempts <==> !s.hist[t].timedOut)
  {
    ReachableInv(cfg, s);
    var o, k := TaskFacts(cfg, s, t);
  }

  /** A "not yet" answer never spends an attempt, whatever it does to the task. */
  lemma PollsAreFree(cfg: Config, s: System, step: Step)
    requires Reachable(cfg, s) && Enabled(s, step) && step.CallNotYet?
    ensures SameAttempts(s.db, Next(cfg, s, step).db)
  {
    ReachableInv(cfg, s);
    WorkerTxDb(cfg, s, step);
    FreePoll(cfg, s, step.worker, step.hint, step.at);
  }

  lemma FreePoll(cfg: Config, s: System, w: WorkerId, hint: Option<int>, at: Time)
    requires Inv(cfg, s) && CanFinish(s, w, at)
    ensures var task := s.workers[w].task;
            var tx := FinishNotYet(cfg, s.db, s.now, task.id, w, HandlerOf(task).value, hint, at);
            SameAttempts(s.db, tx.db)
  {
    var t, handler := s.workers[w].task.id, HandlerOf(s.workers[w].task).value;
    if Settle(s.db, s.now, t, w, SpecOf(handler).source, at) == None {
      OwnedDeadline(cfg, s, w);
      DuePollIsFree(cfg, s.db, s.now, t, w, handler, hint, at);
    } else {
      SettledIsFree(s.db, s.now, t, w, SpecOf(handler).source, at);
    }
  }

  predicate SameAttempts(db: Db, db': Db) {
    forall t :: t in db.tasks ==> t in db'.tasks && db'.tasks[t].attempts == db.tasks[t].attempts
  }

  lemma SettledIsFree(db: Db, now: Time, t: TaskId, w: WorkerId, source: OrderState, at: Time)
    requires Settle(db, now, t, w, source, at).Some?
    ensures SameAttempts(db, Settle(db, now, t, w, source, at).value.db)
  {
  }

  lemma DuePollIsFree(cfg: Config, db: Db, now: Time, t: TaskId, w: WorkerId, handler: Handler, hint: Option<int>,
                      at: Time)
    requires Settle(db, now, t, w, SpecOf(handler).source, at) == None
    requires handler.Polls() <==> db.tasks[t].deadlineAt.Some?
    ensures SameAttempts(db, FinishNotYet(cfg, db, now, t, w, handler, hint, at).db)
  {
  }
}
