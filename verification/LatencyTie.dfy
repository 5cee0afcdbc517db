/** The tie that makes the latency window misread an order does occur: under a clock that may
    stand still, two hops of one order can share a timestamp. */
module LatencyTie {
  import opened OrderLifecycle
  import opened Rows
  import opened Settings
  import opened TransitionSpecs
  import opened Transactions
  import opened Pipeline
  import opened PipelineInvariant
  import opened PipelineSteps
  import opened PipelineOrderSteps
  import opened PipelineChanges
  import opened PipelineTheorems
  import opened Progress
  import opened Dashboard

  /** While the clock stands still a worker can carry an order over one hop, stamped now. */
  lemma HopNow(cfg: Config, s0: System, s: System, w: WorkerId, o: OrderId, k: nat, t: TaskId)
    returns (s': System, newId: TaskId)
    requires cfg.tick == 0 && Onward(cfg, s0, s) && AtWork(s, w, o, k, t) && s.workers[w].Claimed?
    ensures Onward(cfg, s0, s') && s'.now == s.now && s'.workers == map[w := Idle]
    ensures o in s'.db.orders && s'.db.orders[o].state == Stage(k + 1)
    ensures |Log(s', o)| == |Log(s, o)| + 1 && Log(s', o)[..|Log(s, o)|] == Log(s, o)
    ensures Log(s', o)[|Log(s, o)|].occurredAt == s.now
    ensures k + 1 < HOPS ==>
              && newId in s'.db.tasks && s'.db.tasks[newId].orderId == o && s'.db.tasks[newId].status == Pending
              && s'.db.tasks[newId].nextRunAt == s.now + StageDelay(cfg, k + 1)
  {
    var calling := Call(cfg, s0, s, w, o, k, t);
    var answered := Answer(cfg, s0, calling, w, o, k, t);
    s', newId := Commit(cfg, s0, answered, w, o, k, t);
    assert Log(answered, o) == Log(s, o);
    HoppedNow(cfg, answered, w, newId, o, k, t);
  }

  lemma HoppedNow(cfg: Config, s: System, w: WorkerId, newId: TaskId, o: OrderId, k: nat, t: TaskId)
    requires cfg.tick == 0 && Reachable(cfg, s) && ReadyToCommit(cfg, s, w, newId, o, k, t)
    requires s.workers.Keys == {w}
    ensures var s' := Hopped(cfg, s, w, o, k, t, newId);
            && s'.now == s.now && s'.workers == map[w := Idle]
            && |Log(s', o)| == |Log(s, o)| + 1 && Log(s', o)[..|Log(s, o)|] == Log(s, o)
            && Log(s', o)[|Log(s, o)|].occurredAt == s.workers[w].at
            && (k + 1 < HOPS ==>
                  && newId in s'.db.tasks && s'.db.tasks[newId].orderId == o && s'.db.tasks[newId].status == Pending
                  && s'.db.tasks[newId].nextRunAt == s.workers[w].at + StageDelay(cfg, k + 1))
  {
    ReachableInv(cfg, s);
    assert OrderInv(cfg, s, o);
    HoppedLog(cfg, s, w, newId, o, k, t);
    if k + 1 < HOPS {
      HoppedFollowupDue(cfg, s, w, newId, o, k, t);
    }
  }

  lemma HoppedFollowupDue(cfg: Config, s: System, w: WorkerId, newId: TaskId, o: OrderId, k: nat, t: TaskId)
    requires ReadyToCommit(cfg, s, w, newId, o, k, t) && k + 1 < HOPS
    ensures var s' := Hopped(cfg, s, w, o, k, t, newId);
            && newId in s'.db.tasks && s'.db.tasks[newId].orderId == o && s'.db.tasks[newId].status == Pending
            && s'.db.tasks[newId].nextRunAt == s.workers[w].at + StageDelay(cfg, k + 1)
  {
    SpecTableFollowsLifecycle(cfg, k, s.workers[w].at);
  }

  /** In a database with a single order its live task is the only row that can be claimed. */
  lemma OnlyCandidate(cfg: Config, s: System, w: WorkerId, o: OrderId, u: TaskId)
    requires Inv(cfg, s) && s.db.orders.Keys == {o} && !IsTerminal(s.db.orders[o].state)
    requires s.workers == map[w := Idle]
    requires u in s.db.tasks && s.db.tasks[u].orderId == o && Claimable(s.db.tasks[u], s.now)
    ensures Enabled(s, ClaimTask(w, u))
  {
    LiveWork(cfg, s, o);
    NothingLocked(s, w);
    assert u in LiveTasks(s, o);
    forall v | v in s.db.tasks && Eligible(s.db.tasks, Locked(s), s.now, v)
      ensures v == u
    {
      var p, i := TaskFacts(cfg, s, v);
      assert v in LiveTasks(s, o);
    }
  }

  /** The order reaches stage k, its task in the hands of a lone worker. */
  lemma ReachStage(cfg: Config, s0: System, s: System, o: OrderId, k: nat, w: WorkerId)
    returns (s': System, t: TaskId)
    requires Onward(cfg, s0, s) && o in s.db.orders && OnPath(s.db.orders[o].state)
    requires StageIndex(s.db.orders[o].state) <= k < HOPS
    ensures Onward(cfg, s0, s') && AtWork(s', w, o, k, t) && s'.workers[w].Claimed?
    decreases k - StageIndex(s.db.orders[o].state)
  {
    ReachableInv(cfg, s);
    var i, u := StandsSomewhere(cfg, s, o);
    assert StageIndex(Stage(i)) == i && StageIndex(Stage(i + 1)) == i + 1;
    if i < k {
      var further := MoveOn(cfg, s0, s, o, i, u);
      s', t := ReachStage(cfg, s0, further, o, k, w);
    } else {
      t := u;
      s' := ClaimIt(cfg, s0, s, o, k, t, w);
    }
  }

  /** The courier task of a ready order is claimed at the moment it is created. */
  lemma ClaimNow(cfg: Config, s0: System, s: System, w: WorkerId, o: OrderId, u: TaskId) returns (s': System)
    requires cfg.tick == 0 && Onward(cfg, s0, s) && s.db.orders.Keys == {o} && s.db.orders[o].state == Ready
    requires s.workers == map[w := Idle] && u in s.db.tasks && s.db.tasks[u].orderId == o
    requires s.db.tasks[u].status == Pending && s.db.tasks[u].nextRunAt <= s.now
    ensures Onward(cfg, s0, s') && s'.now == s.now && Log(s', o) == Log(s, o)
    ensures AtWork(s', w, o, 3, u) && s'.workers[w].Claimed?
  {
    ReachableInv(cfg, s);
    OnlyCandidate(cfg, s, w, o, u);
    ClaimedIsAtWork(cfg, s, w, o, 3, u);
    s' := Take(cfg, s0, s, ClaimTask(w, u));
  }

  /** With a clock that may stand still there is a reachable order whose hops into ready and
      out_for_delivery tie, so the window cannot list them in log order. */
  lemma TieIsReachable(cfg: Config, req: OrderRequest) returns (s: System, o: OrderId)
    requires cfg.tick == 0
    ensures Reachable(cfg, s) && o in s.db.orders
    ensures !NoAmbiguousTie(Timeline(s.db.events, o))
    ensures forall sorted :: IsWindowOrder(Timeline(s.db.events, o), sorted) ==> sorted != Timeline(s.db.events, o)
  {
    o := 0;
    var w := "worker";
    var placed := FirstOrder(cfg, req);
    var preparing, t := ReachStage(cfg, placed, placed, o, 2, w);
    var ready, u := HopNow(cfg, placed, preparing, w, o, 2, t);
    var courier := ClaimNow(cfg, placed, ready, w, o, u);
    var v: TaskId;
    s, v := HopNow(cfg, placed, courier, w, o, 3, u);
    TiedLog(cfg, preparing, ready, courier, s, o);
    forall sorted | IsWindowOrder(Timeline(s.db.events, o), sorted)
      ensures sorted != Timeline(s.db.events, o)
    {
      WindowFollowsLog(cfg, s, o, sorted);
    }
  }

  lemma TiedLog(cfg: Config, preparing: System, ready: System, courier: System, s: System, o: OrderId)
    requires Reachable(cfg, preparing) && o in preparing.db.orders && preparing.db.orders[o].state == Preparing
    requires Reachable(cfg, s) && o in s.db.orders && s.db.orders[o].state == OutForDelivery
    requires |Log(ready, o)| == |Log(preparing, o)| + 1 && Log(courier, o) == Log(ready, o)
    requires |Log(s, o)| == |Log(courier, o)| + 1 && Log(s, o)[..|Log(courier, o)|] == Log(courier, o)
    requires Log(ready, o)[|Log(preparing, o)|].occurredAt == Log(s, o)[|Log(courier, o)|].occurredAt
    ensures !NoAmbiguousTie(Timeline(s.db.events, o))
  {
    ReachableInv(cfg, preparing);
    ReachableInv(cfg, s);
    HopsOfState(cfg, preparing, o);
    assert Log(s, o)[3] == Log(ready, o)[3];
    TimelineShape(cfg, s, o);
    HopsOfState(cfg, s, o);
  }

  lemma HopsOfState(cfg: Config, s: System, o: OrderId)
    requires Inv(cfg, s) && o in s.db.orders && OnPath(s.db.orders[o].state)
    ensures Hops(s.db.orders[o], Log(s, o)) == StageIndex(s.db.orders[o].state)
    ensures |Log(s, o)| == StageIndex(s.db.orders[o].state) + 1
  {
    assert OrderInv(cfg, s, o);
    var h := Hops(s.db.orders[o], Log(s, o));
    assert StageIndex(Stage(h)) == h;
  }
}
