/** Which orders the dashboard calls to the operator's attention, told from the event log and
    the task rows, and how it ranks them. */
module AttentionLaws {
  import opened Optional
  import opened OrderLifecycle
  import opened Rows
  import opened Settings
  import opened Pipeline
  import opened PipelineInvariant
  import opened PipelineChanges
  import opened EventLog
  import opened Dashboard

  /** Something is wrong with the task: it failed, its lease ran out, or its last try failed. */
  predicate Troubled(row: Task, now: Time) {
    if row.status == Pending then row.lastError != None
    else if row.status == Running then row.lastError != None || (row.lockedUntil.Some? && row.lockedUntil.value < now)
    else row.status == TaskFailed
  }

  /** The log has a creation of order o at or before `time`. */
  ghost predicate CreatedBy(events: seq<Event>, o: OrderId, time: Time) {
    exists e :: e in events && e.orderId == o && e.kind == OrderCreated && e.occurredAt <= time
  }

  /** The order has been in its state for the threshold of that state. */
  predicate Overstayed(order: Order, now: Time, limits: Limits) {
    order.state in limits.thresholds && order.updatedAt + limits.thresholds[order.state] <= now
  }

  /** A live order is called to attention exactly when its creation event is at least the
      service level old, it was not updated for the threshold of its state, or one of its tasks
      is in trouble; finished orders never are. */
  lemma AttentionExactly(cfg: Config, s: System, limits: Limits, o: OrderId)
    requires Reachable(cfg, s)
    ensures o in AttentionSet(s.db, s.now, limits) <==>
              && o in s.db.orders && NextOrderState(s.db.orders[o].state).Some?
              && (|| CreatedBy(s.db.events, o, s.now - limits.sla)
                  || Overstayed(s.db.orders[o], s.now, limits)
                  || exists t :: t in s.db.tasks && s.db.tasks[t].orderId == o && Troubled(s.db.tasks[t], s.now))
  {
    ReachableInv(cfg, s);
    if o in s.db.orders {
      CreationInEvents(cfg, s, o, s.now - limits.sla);
      TerminalIffNoSuccessor(s.db.orders[o].state);
      TroubledTasks(s, o);
    }
  }

  lemma TroubledTasks(s: System, o: OrderId)
    ensures ProblemTasks(s.db, s.now, o) != {} <==>
              exists t :: t in s.db.tasks && s.db.tasks[t].orderId == o && Troubled(s.db.tasks[t], s.now)
  {
    forall t | t in s.db.tasks
      ensures Troubled(s.db.tasks[t], s.now) <==> HasProblem(s.db.tasks[t], s.now)
    {
    }
    if t :| t in ProblemTasks(s.db, s.now, o) {
      assert Troubled(s.db.tasks[t], s.now);
    }
    if t :| t in s.db.tasks && s.db.tasks[t].orderId == o && Troubled(s.db.tasks[t], s.now) {
      assert t in ProblemTasks(s.db, s.now, o);
    }
  }

  /** The creation event of an order carries its creation time. */
  lemma CreationInEvents(cfg: Config, s: System, o: OrderId, time: Time)
    requires Inv(cfg, s) && o in s.db.orders
    ensures CreatedBy(s.db.events, o, time) <==> s.db.orders[o].createdAt <= time
  {
    assert OrderInv(cfg, s, o);
    var log := Log(s, o);
    assert log[0] in log && log[0] in s.db.events;
    forall e | e in s.db.events && e.orderId == o && e.kind == OrderCreated
      ensures e == log[0]
    {
      SelectFinds(s.db.events, LifecycleOf(o), e);
      var i :| 0 <= i < |log| && log[i] == e;
      TransitionsAreHops(cfg, s.now, o, s.db.orders[o], log, i);
    }
  }

  // ---------------------------------------------------------------- over runs

  /** Events are only appended. */
  lemma EventsAcross(cfg: Config, s: System, s': System, c: Change)
    requires ChangeOk(cfg, s, s', c)
    ensures |s.db.events| <= |s'.db.events| && s'.db.events[..|s.db.events|] == s.db.events
  {
  }

  lemma {:induction false} EventsStay(cfg: Config, states: seq<System>, steps: seq<Step>, e: Event, i: nat, j: nat)
    requires IsRun(cfg, states, steps) && Inv(cfg, states[0]) && i <= j <= |steps| && e in states[i].db.events
    ensures e in states[j].db.events
    decreases j
  {
    if i < j {
      EventsStay(cfg, states, steps, e, i, j - 1);
      RunKeepsInv(cfg, states, steps, j - 1);
      EventStep(cfg, states[j - 1], steps[j - 1], e);
    }
  }

  lemma EventStep(cfg: Config, s: System, step: Step, e: Event)
    requires Inv(cfg, s) && Enabled(s, step) && e in s.db.events
    ensures e in Next(cfg, s, step).db.events
  {
    var c := Classify(cfg, s, step);
    EventsAcross(cfg, s, Next(cfg, s, step), c);
    assert e in Next(cfg, s, step).db.events[..|s.db.events|];
  }

  lemma {:induction false} TimeStands(cfg: Config, states: seq<System>, steps: seq<Step>, i: nat, j: nat)
    requires IsRun(cfg, states, steps) && i <= j <= |steps|
    ensures states[i].now <= states[j].now
    decreases j
  {
    if i < j {
      TimeStands(cfg, states, steps, i, j - 1);
      ClockStep(cfg, states[j - 1], steps[j - 1]);
    }
  }

  lemma ClockStep(cfg: Config, s: System, step: Step)
    requires Enabled(s, step)
    ensures s.now <= Next(cfg, s, step).now
  {
  }

  /** Once an order's creation event is as old as the service level, the order is called to
      attention, then and in every later state in which it is still live. */
  lemma OverdueStaysListed(cfg: Config, states: seq<System>, steps: seq<Step>, limits: Limits, e: Event, i: nat, j: nat)
    requires IsRun(cfg, states, steps) && Init(states[0]) && i <= j <= |steps|
    requires e in states[i].db.events && e.kind == OrderCreated && e.occurredAt + limits.sla <= states[i].now
    requires e.orderId in states[j].db.orders && NextOrderState(states[j].db.orders[e.orderId].state).Some?
    ensures e.orderId in AttentionSet(states[j].db, states[j].now, limits)
  {
    RunKeepsInv(cfg, states, steps, 0);
    EventsStay(cfg, states, steps, e, i, j);
    TimeStands(cfg, states, steps, i, j);
    RunStateReachable(cfg, states, steps, j);
    AttentionExactly(cfg, states[j], limits, e.orderId);
    assert CreatedBy(states[j].db.events, e.orderId, states[j].now - limits.sla);
  }

  lemma RunStateReachable(cfg: Config, states: seq<System>, steps: seq<Step>, j: nat)
    requires IsRun(cfg, states, steps) && Init(states[0]) && j <= |steps|
    ensures Reachable(cfg, states[j])
  {
    var states', steps' := states[..j + 1], steps[..j];
    assert IsRun(cfg, states', steps') && Init(states'[0]) && states'[|steps'|] == states[j];
  }

  // ---------------------------------------------------------------- ranking

  ghost predicate SomeTask(db: Db, o: OrderId, has: Task -> bool) {
    exists t :: t in db.tasks && db.tasks[t].orderId == o && has(db.tasks[t])
  }

  /** The six ranks, most severe first: a failed task, an expired lease, a task in trouble that
      no handler knows, an overdue order, one that overstayed its state, anything else. */
  lemma SeverityRanks(db: Db, now: Time, limits: Limits, o: OrderId)
    requires o in db.orders
    ensures var failed := SomeTask(db, o, (row: Task) => row.status == TaskFailed);
            var expired := SomeTask(db, o, (row: Task) =>
              row.status == Running && row.lockedUntil.Some? && row.lockedUntil.value < now);
            var unknown := SomeTask(db, o, (row: Task) =>
              Troubled(row, now) && row.lastError.Some?
              && "unsupported task" <= row.lastError.value);
            var overdue := db.orders[o].createdAt + limits.sla <= now;
            Severity(db, now, limits, o) ==
            if failed then 0 else if expired then 1 else if unknown then 2 else if overdue then 3
            else if Overstayed(db.orders[o], now, limits) then 4 else 5
  {
    var failed := (row: Task) => row.status == TaskFailed;
    var expired := (row: Task) => row.status == Running && row.lockedUntil.Some? && row.lockedUntil.value < now;
    var unknown := (row: Task) =>
      Troubled(row, now) && row.lastError.Some? && "unsupported task" <= row.lastError.value;
    assert HasFailedTask(db, o) <==> SomeTask(db, o, failed);
    assert HasExpiredLease(db, now, o) <==> SomeTask(db, o, expired);
    UnknownTasks(db, now, o, unknown);
  }

  lemma UnknownTasks(db: Db, now: Time, o: OrderId, unknown: Task -> bool)
    requires unknown == ((row: Task) =>
      Troubled(row, now) && row.lastError.Some? && "unsupported task" <= row.lastError.value)
    ensures HasUnsupportedTask(db, now, o) <==> SomeTask(db, o, unknown)
  {
    forall t | t in db.tasks && db.tasks[t].lastError.Some?
      ensures IsUnsupported(db.tasks[t].lastError.value) <==> "unsupported task" <= db.tasks[t].lastError.value
    {
    }
    if HasUnsupportedTask(db, now, o) {
      var t :| t in ProblemTasks(db, now, o) && db.tasks[t].lastError.Some?
               && IsUnsupported(db.tasks[t].lastError.value);
      assert unknown(db.tasks[t]);
    }
    if SomeTask(db, o, unknown) {
      var t :| t in db.tasks && db.tasks[t].orderId == o && unknown(db.tasks[t]);
      assert t in ProblemTasks(db, now, o);
    }
  }
}
