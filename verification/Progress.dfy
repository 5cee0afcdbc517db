/** No reachable state is a dead end: whatever crashes, lost leases and failed tasks it holds,
    every order that is not cancelled can still be delivered. */
module Progress {
  import opened Optional
  import opened OrderLifecycle
  import opened Rows
  import opened Settings
  import opened TransitionSpecs
  import opened Transactions
  import opened Pipeline
  import opened PipelineInvariant
  import opened PipelineSteps
  import opened PipelineOrderSteps
  import opened PipelineChanges
  import opened PipelineTheorems
  import opened EventLog
  import opened ClaimFairness
  import opened OrderDatabase

  /** Some run leads from s to s'. */
  ghost predicate Leads(cfg: Config, s: System, s': System) {
    exists states: seq<System>, steps: seq<Step> ::
      IsRun(cfg, states, steps) && states[0] == s && states[|steps|] == s'
  }

  /** A reachable state s0 can go on to s without taking new orders. */
  ghost predicate Onward(cfg: Config, s0: System, s: System) {
    Leads(cfg, s0, s) && Reachable(cfg, s) && s.db.orders.Keys == s0.db.orders.Keys
  }

  lemma LeadsToItself(cfg: Config, s: System)
    ensures Leads(cfg, s, s)
  {
    var states: seq<System>, steps: seq<Step> := [s], [];
    assert IsRun(cfg, states, steps) && states[0] == s && states[|steps|] == s;
  }

  lemma Take(cfg: Config, s0: System, s: System, step: Step) returns (s': System)
    requires Onward(cfg, s0, s) && Enabled(s, step) && !step.CreateOrder?
    ensures s' == Next(cfg, s, step) && Onward(cfg, s0, s')
  {
    s' := Next(cfg, s, step);
    ReachableNext(cfg, s, step);
    LeadsOn(cfg, s0, s, step);
    SameOrders(cfg, s, step);
  }

  lemma SameOrders(cfg: Config, s: System, step: Step)
    requires Reachable(cfg, s) && Enabled(s, step) && !step.CreateOrder?
    ensures Next(cfg, s, step).db.orders.Keys == s.db.orders.Keys
  {
    ReachableInv(cfg, s);
    var c := Classify(cfg, s, step);
  }

  lemma LeadsOn(cfg: Config, s0: System, s: System, step: Step)
    requires Leads(cfg, s0, s) && Enabled(s, step)
    ensures Leads(cfg, s0, Next(cfg, s, step))
  {
    var states: seq<System>, steps: seq<Step> :|
      IsRun(cfg, states, steps) && states[0] == s0 && states[|steps|] == s;
    RunExtends(cfg, states, steps, step);
    var states', steps' := states + [Next(cfg, s, step)], steps + [step];
    assert states'[0] == s0 && states'[|steps'|] == Next(cfg, s, step);
  }

  // ---------------------------------------------------------------- clearing the stage

  /** Every worker may die, taking its open transaction with it. */
  lemma {:induction false} StopAllWorkers(cfg: Config, s0: System, s: System) returns (s': System)
    requires Onward(cfg, s0, s)
    ensures Onward(cfg, s0, s') && s'.workers == map[] && s'.db == s.db && s'.work == s.work
    decreases |s.workers|
  {
    if s.workers == map[] {
      s' := s;
    } else {
      var w :| w in s.workers;
      var stopped := Take(cfg, s0, s, StopWorker(w));
      assert stopped.workers == s.workers - {w};
      assert s.workers.Keys == (s.workers - {w}).Keys + {w};
      s' := StopAllWorkers(cfg, s0, stopped);
    }
  }

  /** The order stands at stage k and t is its live task. */
  ghost predicate Standing(s: System, o: OrderId, k: nat, t: TaskId) {
    && k < HOPS && o in s.db.orders && s.db.orders[o].state == Stage(k)
    && t in s.db.tasks && t in LiveTasks(s, o)
  }

  lemma StandsSomewhere(cfg: Config, s: System, o: OrderId) returns (k: nat, t: TaskId)
    requires Inv(cfg, s) && o in s.db.orders && !IsTerminal(s.db.orders[o].state)
    ensures Standing(s, o, k, t)
  {
    LiveWork(cfg, s, o);
    k := StageIndex(s.db.orders[o].state);
    t := s.work[o][k];
  }

  lemma StandingFacts(cfg: Config, s: System, o: OrderId, k: nat, t: TaskId)
    requires Inv(cfg, s) && Standing(s, o, k, t)
    ensures StageIndex(Stage(k)) == k && s.db.tasks[t].orderId == o
    ensures Dispatch(s.db.tasks[t].taskType, s.db.tasks[t].target) == Some(StageHandler(k))
    ensures SpecOf(StageHandler(k)).source == Stage(k)
    ensures s.db.tasks[t].Active() || s.db.tasks[t].status == TaskFailed
    ensures s.db.tasks[t].status == Running ==> s.db.tasks[t].lockedUntil.Some?
  {
    LiveWork(cfg, s, o);
    var p, i := TaskFacts(cfg, s, t);
  }

  /** An operator reopens the task if it failed. */
  lemma Revive(cfg: Config, s0: System, s: System, o: OrderId, k: nat, t: TaskId) returns (s': System)
    requires Onward(cfg, s0, s) && s.workers == map[] && Standing(s, o, k, t)
    ensures Onward(cfg, s0, s') && s'.workers == map[] && Standing(s', o, k, t) && s'.db.tasks[t].Active()
  {
    ReachableInv(cfg, s);
    StandingFacts(cfg, s, o, k, t);
    if s.db.tasks[t].status == TaskFailed {
      var ids := AnyListing(FailedTasks(s.db.tasks, o));
      var step := OperatorRetry(o, ids, s.now);
      ReopeningKeepsIndex(cfg, s, o, ids, s.now);
      s' := Take(cfg, s0, s, step);
      assert t in FailedTasks(s.db.tasks, o);
    } else {
      s' := s;
    }
  }

  /** Time passes until the task is claimable and older than the clock. */
  lemma WaitUntilClaimable(cfg: Config, s0: System, s: System, o: OrderId, k: nat, t: TaskId) returns (s': System)
    requires Onward(cfg, s0, s) && s.workers == map[] && Standing(s, o, k, t) && s.db.tasks[t].Active()
    ensures Onward(cfg, s0, s') && s'.workers == map[] && s'.db == s.db
    ensures Claimable(s'.db.tasks[t], s'.now) && s'.db.tasks[t].updatedAt < s'.now
  {
    ReachableInv(cfg, s);
    StandingFacts(cfg, s, o, k, t);
    var row := s.db.tasks[t];
    var patience := Max(0, ClaimableFrom(row) - s.now) + Max(0, row.updatedAt - s.now) + 1;
    s' := Take(cfg, s0, s, Tick(patience));
  }

  // ---------------------------------------------------------------- claiming

  /** Only worker w is up, it is idle, and task t waits to be claimed. */
  ghost predicate Waiting(s: System, w: WorkerId, t: TaskId) {
    && s.workers == map[w := Idle]
    && t in s.db.tasks && Claimable(s.db.tasks[t], s.now) && s.db.tasks[t].updatedAt < s.now
  }

  lemma NothingLocked(s: System, w: WorkerId)
    requires s.workers.Keys == {w} && !s.workers[w].Finalizing?
    ensures Locked(s) == {}
  {
  }

  /** One claim: either the task itself, or one that was ahead of it and no longer is. */
  lemma ClaimOnce(cfg: Config, s0: System, s: System, w: WorkerId, t: TaskId) returns (s': System, c: TaskId)
    requires Onward(cfg, s0, s) && Waiting(s, w, t)
    ensures Enabled(s, ClaimTask(w, c)) && s' == Next(cfg, s, ClaimTask(w, c)) && Onward(cfg, s0, s')
    ensures c != t ==> t in s'.db.tasks && s'.db.tasks[t] == s.db.tasks[t] && |Ahead(s', t)| < |Ahead(s, t)|
  {
    NothingLocked(s, w);
    ReachableInv(cfg, s);
    assert Eligible(s.db.tasks, Locked(s), s.now, t);
    c := CandidateExists(s.db.tasks, Locked(s), s.now, t);
    s' := Take(cfg, s0, s, ClaimTask(w, c));
    if c != t {
      ClaimMovesBehind(cfg, s, ClaimTask(w, c), t);
    }
  }

  /** The worker claims and gives up whatever comes first, until it claims the task. */
  lemma {:induction false} ClaimUntil(cfg: Config, s0: System, s: System, w: WorkerId, t: TaskId)
    returns (before: System, s': System)
    requires Onward(cfg, s0, s) && Waiting(s, w, t)
    ensures Onward(cfg, s0, before) && Enabled(before, ClaimTask(w, t)) && s' == Next(cfg, before, ClaimTask(w, t))
    ensures Onward(cfg, s0, s') && before.workers == map[w := Idle]
    ensures before.db.orders == s.db.orders && t in before.db.tasks && before.db.tasks[t] == s.db.tasks[t]
    decreases |Ahead(s, t)|
  {
    var c: TaskId;
    s', c := ClaimOnce(cfg, s0, s, w, t);
    if c == t {
      before := s;
    } else {
      var again := Take(cfg, s0, s', Abandon(w));
      assert again.workers == map[w := Idle];
      assert Ahead(again, t) == Ahead(s', t);
      before, s' := ClaimUntil(cfg, s0, again, w, t);
    }
  }

  // ---------------------------------------------------------------- one hop

  /** Worker w, alone, has claimed the live task t of order o. */
  ghost predicate AtWork(s: System, w: WorkerId, o: OrderId, k: nat, t: TaskId) {
    && Standing(s, o, k, t) && s.db.tasks[t].orderId == o
    && s.workers.Keys == {w} && !s.workers[w].Idle?
    && s.workers[w].task.id == t && s.workers[w].since <= s.now
    && HandlerOf(s.workers[w].task) == Some(StageHandler(k))
    && SpecOf(StageHandler(k)).source == Stage(k)
    && Owned(s.db, t, w)
  }

  lemma ClaimedIsAtWork(cfg: Config, s: System, w: WorkerId, o: OrderId, k: nat, t: TaskId)
    requires Inv(cfg, s) && Standing(s, o, k, t) && s.workers == map[w := Idle] && Enabled(s, ClaimTask(w, t))
    ensures AtWork(Next(cfg, s, ClaimTask(w, t)), w, o, k, t) && Next(cfg, s, ClaimTask(w, t)).workers[w].Claimed?
  {
    StandingFacts(cfg, s, o, k, t);
    var s' := Next(cfg, s, ClaimTask(w, t));
    assert s'.db.tasks[t] == ClaimedRow(cfg, s.db.tasks[t], w, s.now);
  }

  /** Its call goes out. */
  lemma Call(cfg: Config, s0: System, s: System, w: WorkerId, o: OrderId, k: nat, t: TaskId) returns (s': System)
    requires Onward(cfg, s0, s) && AtWork(s, w, o, k, t) && s.workers[w].Claimed?
    ensures Onward(cfg, s0, s') && AtWork(s', w, o, k, t) && s'.workers[w].Calling?
    ensures s'.db == s.db && s'.now == s.now + cfg.tick
  {
    NothingLocked(s, w);
    PreparedCallIsExact(cfg, s, w, s.now);
    s' := Take(cfg, s0, s, PrepareCall(w, s.now));
  }

  /** The downstream service answers with success, and the worker opens its transaction. */
  lemma Answer(cfg: Config, s0: System, s: System, w: WorkerId, o: OrderId, k: nat, t: TaskId) returns (s': System)
    requires Onward(cfg, s0, s) && AtWork(s, w, o, k, t) && s.workers[w].Calling?
    ensures Onward(cfg, s0, s') && AtWork(s', w, o, k, t) && s'.workers[w].Finalizing?
    ensures s'.db == s.db && s'.now == s.now + cfg.tick && s'.workers[w].at == s.now
  {
    NothingLocked(s, w);
    var courier := if HandlerOf(s.workers[w].task) == Some(CourierAssign) then Some("courier") else None;
    s' := Take(cfg, s0, s, CallSucceeded(w, courier, s.now));
  }

  lemma UnusedId(ids: set<nat>) returns (n: nat)
    ensures n !in ids
  {
    n := AboveAll(ids);
    assert n in ids ==> n < n;
  }

  lemma {:induction false} AboveAll(ids: set<nat>) returns (n: nat)
    ensures forall i :: i in ids ==> i < n
  {
    if ids == {} {
      n := 0;
    } else {
      var i :| i in ids;
      var m: nat := AboveAll(ids - {i});
      assert ids == (ids - {i}) + {i};
      n := if m <= i then i + 1 else m;
    }
  }

  /** The transition commits, and its follow-up gets the id newId. */
  lemma Commit(cfg: Config, s0: System, s: System, w: WorkerId, o: OrderId, k: nat, t: TaskId)
    returns (s': System, newId: TaskId)
    requires Onward(cfg, s0, s) && AtWork(s, w, o, k, t) && s.workers[w].Finalizing?
    ensures Onward(cfg, s0, s') && o in s'.db.orders && s'.db.orders[o].state == Stage(k + 1)
    ensures ReadyToCommit(cfg, s, w, newId, o, k, t) && s' == Hopped(cfg, s, w, o, k, t, newId)
  {
    ReachableInv(cfg, s);
    newId := UnusedId(s.db.tasks.Keys);
    CommitIsPossible(cfg, s, w, o, k, t, newId);
    s' := Take(cfg, s0, s, CommitFinalize(w, newId));
    CommitStep(cfg, s, w, o, k, t, newId);
  }

  lemma CommitStep(cfg: Config, s: System, w: WorkerId, o: OrderId, k: nat, t: TaskId, newId: TaskId)
    requires Inv(cfg, s) && Enabled(s, CommitFinalize(w, newId)) && ReadyToCommit(cfg, s, w, newId, o, k, t)
    ensures Next(cfg, s, CommitFinalize(w, newId)) == Hopped(cfg, s, w, o, k, t, newId)
    ensures var s' := Hopped(cfg, s, w, o, k, t, newId);
            o in s'.db.orders && s'.db.orders[o].state == Stage(k + 1)
  {
    CommitSucceeds(cfg, s, w, newId, o, k, t);
    SpecTableFollowsLifecycle(cfg, k, s.now);
  }

  lemma CommitIsPossible(cfg: Config, s: System, w: WorkerId, o: OrderId, k: nat, t: TaskId, newId: TaskId)
    requires Inv(cfg, s) && AtWork(s, w, o, k, t) && s.workers[w].Finalizing? && newId !in s.db.tasks
    ensures Enabled(s, CommitFinalize(w, newId)) && ReadyToCommit(cfg, s, w, newId, o, k, t)
  {
    assert WorkerOk(cfg, s, s.workers[w], w);
    var p, i := CommitIsReady(cfg, s, w, newId);
    assert StageIndex(Stage(i)) == i && StageIndex(Stage(k)) == k;
  }

  /** A lone worker with the live task waiting for it. */
  lemma GetReady(cfg: Config, s0: System, s: System, o: OrderId, k: nat, t: TaskId, w: WorkerId) returns (s': System)
    requires Onward(cfg, s0, s) && Standing(s, o, k, t)
    ensures Onward(cfg, s0, s') && Standing(s', o, k, t) && Waiting(s', w, t)
  {
    var quiet := StopAllWorkers(cfg, s0, s);
    var revived := Revive(cfg, s0, quiet, o, k, t);
    var ready := WaitUntilClaimable(cfg, s0, revived, o, k, t);
    s' := Take(cfg, s0, ready, StartWorker(w));
  }

  lemma DoHop(cfg: Config, s0: System, s: System, w: WorkerId, o: OrderId, k: nat, t: TaskId) returns (s': System)
    requires Onward(cfg, s0, s) && AtWork(s, w, o, k, t) && s.workers[w].Claimed?
    ensures Onward(cfg, s0, s') && o in s'.db.orders && s'.db.orders[o].state == Stage(k + 1)
  {
    var calling := Call(cfg, s0, s, w, o, k, t);
    var answered := Answer(cfg, s0, calling, w, o, k, t);
    var newId: TaskId;
    s', newId := Commit(cfg, s0, answered, w, o, k, t);
  }

  lemma StandsAcrossClaims(s: System, before: System, o: OrderId, k: nat, t: TaskId)
    requires Standing(s, o, k, t) && before.db.orders == s.db.orders
    requires t in before.db.tasks && before.db.tasks[t] == s.db.tasks[t]
    ensures Standing(before, o, k, t)
  {
  }

  /** Any standing task can be claimed by a lone worker. */
  lemma ClaimIt(cfg: Config, s0: System, s: System, o: OrderId, k: nat, t: TaskId, w: WorkerId) returns (s': System)
    requires Onward(cfg, s0, s) && Standing(s, o, k, t)
    ensures Onward(cfg, s0, s') && AtWork(s', w, o, k, t) && s'.workers[w].Claimed?
  {
    var ready := GetReady(cfg, s0, s, o, k, t, w);
    var before, claimed := ClaimUntil(cfg, s0, ready, w, t);
    StandsAcrossClaims(ready, before, o, k, t);
    ReachableInv(cfg, before);
    ClaimedIsAtWork(cfg, before, w, o, k, t);
    s' := claimed;
  }

  lemma MoveOn(cfg: Config, s0: System, s: System, o: OrderId, k: nat, t: TaskId) returns (s': System)
    requires Onward(cfg, s0, s) && Standing(s, o, k, t)
    ensures Onward(cfg, s0, s') && o in s'.db.orders && s'.db.orders[o].state == Stage(k + 1)
  {
    var w := "worker";
    var claimed := ClaimIt(cfg, s0, s, o, k, t, w);
    s' := DoHop(cfg, s0, claimed, w, o, k, t);
  }

  // ---------------------------------------------------------------- the theorem

  lemma {:induction false} Deliver(cfg: Config, s0: System, s: System, o: OrderId) returns (s': System)
    requires Onward(cfg, s0, s) && o in s.db.orders && OnPath(s.db.orders[o].state)
    ensures Onward(cfg, s0, s') && o in s'.db.orders && s'.db.orders[o].state == Delivered
    decreases HOPS - StageIndex(s.db.orders[o].state)
  {
    if s.db.orders[o].state == Delivered {
      s' := s;
    } else {
      s' := Advanced(cfg, s0, s, o);
      s' := Deliver(cfg, s0, s', o);
    }
  }

  lemma Advanced(cfg: Config, s0: System, s: System, o: OrderId) returns (s': System)
    requires Onward(cfg, s0, s) && o in s.db.orders && OnPath(s.db.orders[o].state)
    requires s.db.orders[o].state != Delivered
    ensures Onward(cfg, s0, s') && o in s'.db.orders && OnPath(s'.db.orders[o].state)
    ensures StageIndex(s.db.orders[o].state) < StageIndex(s'.db.orders[o].state)
  {
    ReachableInv(cfg, s);
    var k, t := StandsSomewhere(cfg, s, o);
    s' := MoveOn(cfg, s0, s, o, k, t);
    StagesAdvance(k);
  }

  lemma StagesAdvance(k: nat)
    requires k < HOPS
    ensures OnPath(Stage(k)) && OnPath(Stage(k + 1)) && StageIndex(Stage(k)) == k && StageIndex(Stage(k + 1)) == k + 1
  {
  }

  /** From every reachable state every order that is not cancelled can still be delivered: no
      interleaving of crashes, stale writes, exhausted budgets and missed deadlines strands it. */
  lemma NoDeadEnd(cfg: Config, s: System, o: OrderId) returns (s': System)
    requires Reachable(cfg, s) && o in s.db.orders && s.db.orders[o].state != Cancelled
    ensures Leads(cfg, s, s') && Reachable(cfg, s')
    ensures o in s'.db.orders && s'.db.orders[o].state == Delivered
  {
    ReachableInv(cfg, s);
    assert OrderInv(cfg, s, o);
    LeadsToItself(cfg, s);
    s' := Deliver(cfg, s, s, o);
  }

  /** One order has been placed, and nothing else has happened. */
  lemma FirstOrder(cfg: Config, req: OrderRequest) returns (s: System)
    ensures Onward(cfg, s, s) && s.db.orders.Keys == {0} && s.db.orders[0].state == Placed
  {
    var empty := System(Db(map[], map[], []), 0, map[], map[], map[]);
    var states: seq<System>, steps: seq<Step> := [empty], [];
    assert IsRun(cfg, states, steps) && Init(states[0]) && states[|steps|] == empty;
    assert Reachable(cfg, empty);
    var step := CreateOrder(req, 0, 0, 0);
    s := Next(cfg, empty, step);
    ReachableNext(cfg, empty, step);
    LeadsToItself(cfg, s);
  }

  /** In particular delivered orders exist in some run under every configuration. */
  lemma DeliveryHappens(cfg: Config, req: OrderRequest) returns (s: System, o: OrderId)
    ensures Reachable(cfg, s) && o in s.db.orders && s.db.orders[o].state == Delivered
  {
    var placed := FirstOrder(cfg, req);
    s := Deliver(cfg, placed, placed, 0);
    o := 0;
  }
}
