/** Queued work is always claimable in the end, and the claim order lets no task be bypassed
    more often than there are rows ahead of it. */
module ClaimFairness {
  import opened Optional
  import opened Sets
  import opened OrderLifecycle
  import opened Rows
  import opened Settings
  import opened TransitionSpecs
  import opened Transactions
  import opened Pipeline
  import opened PipelineInvariant
  import opened PipelineSteps
  import opened PipelineChanges

  /** From this time on the claim query considers the row. */
  function ClaimableFrom(row: Task): Time {
    if row.status == Running then row.lockedUntil.GetOr(0) + 1 else row.nextRunAt
  }

  /** No queued or leased task is lost: it becomes claimable at a finite time, a leased one at
      most one lease from now, and stays claimable until someone writes the row. */
  lemma Recoverable(cfg: Config, s: System, t: TaskId, later: Time)
    requires Reachable(cfg, s) && t in s.db.tasks && s.db.tasks[t].Active()
    ensures Claimable(s.db.tasks[t], later) <==> ClaimableFrom(s.db.tasks[t]) <= later
    ensures s.db.tasks[t].status == Running ==> ClaimableFrom(s.db.tasks[t]) <= s.now + Lease(cfg) + 1
  {
    ReachableInv(cfg, s);
    var o, k := TaskFacts(cfg, s, t);
  }

  /** The claim order is a strict total order on rows. */
  lemma ClaimOrderIsTotal(a: Task, aId: TaskId, b: Task, bId: TaskId, c: Task, cId: TaskId)
    ensures !ClaimsBefore(a, aId, a, aId)
    ensures aId != bId ==> ClaimsBefore(a, aId, b, bId) || ClaimsBefore(b, bId, a, aId)
    ensures ClaimsBefore(a, aId, b, bId) ==> !ClaimsBefore(b, bId, a, aId)
    ensures ClaimsBefore(a, aId, b, bId) && ClaimsBefore(b, bId, c, cId) ==> ClaimsBefore(a, aId, c, cId)
  {
  }

  /** Hence at most one row is the candidate, and some row is whenever one is eligible. */
  lemma CandidateIsUnique(tasks: map<TaskId, Task>, locked: set<TaskId>, now: Time, t: TaskId, u: TaskId)
    requires IsCandidate(tasks, locked, now, t) && IsCandidate(tasks, locked, now, u)
    ensures t == u
  {
    if t != u {
      ClaimOrderIsTotal(tasks[t], t, tasks[u], u, tasks[t], t);
    }
  }

  lemma CandidateExists(tasks: map<TaskId, Task>, locked: set<TaskId>, now: Time, t: TaskId) returns (c: TaskId)
    requires Eligible(tasks, locked, now, t)
    ensures IsCandidate(tasks, locked, now, c)
  {
    var pool := set u | u in tasks && Eligible(tasks, locked, now, u);
    c := LeastOf(tasks, pool, t);
  }

  lemma {:induction false} LeastOf(tasks: map<TaskId, Task>, pool: set<TaskId>, t: TaskId) returns (c: TaskId)
    requires pool <= tasks.Keys && t in pool
    ensures c in pool && forall u :: u in pool && u != c ==> ClaimsBefore(tasks[c], c, tasks[u], u)
    decreases |pool|
  {
    c := t;
    var rest := pool - {t};
    if rest == {} {
      assert pool == {t};
    } else {
      var u: TaskId :| u in rest;
      var d: TaskId := LeastOf(tasks, rest, u);
      ClaimOrderIsTotal(tasks[t], t, tasks[d], d, tasks[t], t);
      c := if ClaimsBefore(tasks[d], d, tasks[t], t) then d else t;
      forall v | v in pool && v != c
        ensures ClaimsBefore(tasks[c], c, tasks[v], v)
      {
        ClaimOrderIsTotal(tasks[t], t, tasks[d], d, tasks[v], v);
      }
    }
  }

  // ---------------------------------------------------------------- bounded bypass

  /** Queued rows the claim query would prefer to t. */
  function Ahead(s: System, t: TaskId): set<TaskId>
    requires t in s.db.tasks
  {
    set u | u in s.db.tasks && s.db.tasks[u].Active() && ClaimsBefore(s.db.tasks[u], u, s.db.tasks[t], t)
  }

  /** The timestamp a step writes into updated_at. */
  function StampOf(s: System, step: Step): Option<Time> {
    match step
    case CreateOrder(_, _, _, at) => Some(at)
    case ClaimTask(_, _) => Some(s.now)
    case PrepareCall(_, at) => Some(at)
    case ReleaseTask(_, at) => Some(at)
    case CallFailed(_, _, at) => Some(at)
    case CallNotYet(_, _, _, at) => Some(at)
    case CallSucceeded(_, _, at) => Some(at)
    case CommitFinalize(w, _) => if w in s.workers && s.workers[w].Finalizing? then Some(s.workers[w].at) else None
    case Cancel(_, at) => Some(at)
    case OperatorRetry(_, _, at) => Some(at)
    case _ => None
  }

  /** Everything the step writes is stamped after time `since`. */
  predicate StampedAfter(s: System, step: Step, since: Time) {
    match StampOf(s, step)
    case Some(at) => since < at
    case None => true
  }

  ghost predicate FreshRows(s: System, s': System, since: Time) {
    forall u :: u in s'.db.tasks && (u !in s.db.tasks || s'.db.tasks[u] != s.db.tasks[u]) ==>
                  since < s'.db.tasks[u].updatedAt
  }

  /** The transaction wrote at most row t, with the caller's stamp or a later clock. */
  predicate StampedTx(db: Db, tx: TxResult, t: TaskId, at: Time, now: Time) {
    || tx.db == db
    || (&& t in db.tasks && t in tx.db.tasks && tx.db == WithTask(db, t, tx.db.tasks[t])
        && tx.db.tasks[t].updatedAt == TouchedAt(db.tasks[t].updatedAt, at, now))
  }

  lemma SettleStamped(db: Db, now: Time, t: TaskId, w: WorkerId, source: OrderState, at: Time)
    ensures Settle(db, now, t, w, source, at).Some? ==>
              StampedTx(db, Settle(db, now, t, w, source, at).value, t, at, now)
  {
  }

  lemma ErrorStamped(cfg: Config, db: Db, now: Time, t: TaskId, w: WorkerId, handler: Handler, error: string, at: Time)
    ensures StampedTx(db, FinishError(cfg, db, now, t, w, handler, error, at), t, at, now)
  {
    SettleStamped(db, now, t, w, SpecOf(handler).source, at);
  }

  lemma NotYetStamped(cfg: Config, db: Db, now: Time, t: TaskId, w: WorkerId, handler: Handler, hint: Option<int>,
                      at: Time)
    ensures StampedTx(db, FinishNotYet(cfg, db, now, t, w, handler, hint, at), t, at, now)
  {
    SettleStamped(db, now, t, w, SpecOf(handler).source, at);
  }

  lemma RetryStamped(cfg: Config, db: Db, now: Time, t: TaskId, error: string, at: Time)
    requires t in db.tasks
    ensures StampedTx(db, RetryOrFail(cfg, db, now, t, error, at), t, at, now)
  {
  }

  lemma PrepareStamped(cfg: Config, db: Db, now: Time, t: TaskId, w: WorkerId, handler: Handler, at: Time)
    ensures var r := Prepare(cfg, db, now, t, w, handler, at);
            r.Stop? ==> StampedTx(db, r.tx, t, at, now)
  {
    var settled := Settle(db, now, t, w, SpecOf(handler).source, at);
    if settled.Some? {
      SettleStamped(db, now, t, w, SpecOf(handler).source, at);
      assert Prepare(cfg, db, now, t, w, handler, at) == Stop(settled.value);
    } else {
      PrepareRetryStamped(cfg, db, now, t, w, handler, at);
    }
  }

  lemma PrepareRetryStamped(cfg: Config, db: Db, now: Time, t: TaskId, w: WorkerId, handler: Handler, at: Time)
    requires Settle(db, now, t, w, SpecOf(handler).source, at) == None
    ensures var r := Prepare(cfg, db, now, t, w, handler, at);
            r.Stop? ==> StampedTx(db, r.tx, t, at, now)
  {
    var r := Prepare(cfg, db, now, t, w, handler, at);
    if r.Stop? {
      var error :| r.tx == RetryOrFail(cfg, db, now, t, error, at);
      RetryStamped(cfg, db, now, t, error, at);
    }
  }

  lemma WorkerTxStamped(cfg: Config, s: System, step: Step)
    requires Enabled(s, step) && HasStepWorker(step)
    ensures WorkerTx(cfg, s, step).Some? ==>
              StampedTx(s.db, WorkerTx(cfg, s, step).value, s.workers[step.worker].task.id, step.at, s.now)
  {
    var task := s.workers[step.worker].task;
    match step
    case ReleaseTask(_, _) =>
    case CallFailed(w, error, at) => ErrorStamped(cfg, s.db, s.now, task.id, w, HandlerOf(task).value, error, at);
    case CallNotYet(w, _, hint, at) => NotYetStamped(cfg, s.db, s.now, task.id, w, HandlerOf(task).value, hint, at);
    case PrepareCall(w, at) => PrepareStamped(cfg, s.db, s.now, task.id, w, HandlerOf(task).value, at);
    case CallSucceeded(w, _, at) => SettleStamped(s.db, s.now, task.id, w, SpecOf(HandlerOf(task).value).source, at);
  }

  lemma WorkerRowStamped(cfg: Config, s: System, step: Step, since: Time)
    requires Enabled(s, step) && HasStepWorker(step) && StampedAfter(s, step, since)
    ensures FreshRows(s, Next(cfg, s, step), since)
  {
    WorkerTxDb(cfg, s, step);
    WorkerTxStamped(cfg, s, step);
  }

  lemma ClaimStamped(cfg: Config, s: System, w: WorkerId, t: TaskId, since: Time)
    requires Enabled(s, ClaimTask(w, t)) && since < s.now
    ensures FreshRows(s, Advance(cfg, AfterClaim(cfg, s, w, t)), since)
  {
  }

  /** Changes made by the API and by committing transitions. */
  lemma ChangeStamped(cfg: Config, s: System, step: Step, c: Change, since: Time)
    requires Enabled(s, step) && StampedAfter(s, step, since)
    requires ChangeOk(cfg, s, Next(cfg, s, step), c) && !c.RowChange?
    requires c.NewOrderChange? ==> step == CreateOrder(c.req, c.orderId, c.taskId, c.at)
    requires c.HopChange? ==> step.CommitFinalize? && step.worker == c.worker
    requires c.ReopenChange? ==> step == OperatorRetry(c.orderId, c.ids, c.at)
    requires c.CancelChange? ==> step == Cancel(c.orderId, c.at)
    ensures FreshRows(s, Next(cfg, s, step), since)
  {
  }

  /** Rows carry the stamp of the step that wrote them (or, by the trigger, a later clock). */
  lemma RowsAreStamped(cfg: Config, s: System, step: Step, since: Time)
    requires Inv(cfg, s) && Enabled(s, step) && StampedAfter(s, step, since)
    ensures FreshRows(s, Next(cfg, s, step), since)
  {
    if HasStepWorker(step) {
      WorkerRowStamped(cfg, s, step, since);
    } else if step.ClaimTask? {
      ClaimStamped(cfg, s, step.worker, step.taskId, since);
    } else {
      var c := Classify(cfg, s, step);
      ChangeStamped(cfg, s, step, c, since);
    }
  }

  function Claims(steps: seq<Step>, i: nat, j: nat): nat
    requires i <= j <= |steps|
    decreases j
  {
    if i == j then 0 else Claims(steps, i, j - 1) + (if steps[j - 1].ClaimTask? then 1 else 0)
  }

  /** Task t waits through a step: its row is not written, everything that is written is
      stamped after it, and at a claim the row is eligible and unlocked. */
  ghost predicate WaitsThrough(cfg: Config, s: System, step: Step, t: TaskId)
    requires Enabled(s, step)
  {
    && t in s.db.tasks && t in Next(cfg, s, step).db.tasks
    && Next(cfg, s, step).db.tasks[t] == s.db.tasks[t]
    && StampedAfter(s, step, s.db.tasks[t].updatedAt)
    && (step.ClaimTask? ==> Eligible(s.db.tasks, Locked(s), s.now, t))
  }

  /** A claim that passes t over takes a row from ahead of it and puts that row behind it. */
  lemma ClaimMovesBehind(cfg: Config, s: System, step: Step, t: TaskId)
    requires Inv(cfg, s) && Enabled(s, step) && WaitsThrough(cfg, s, step, t)
    ensures |Ahead(Next(cfg, s, step), t)| + (if step.ClaimTask? then 1 else 0) <= |Ahead(s, t)|
  {
    var s' := Next(cfg, s, step);
    RowsAreStamped(cfg, s, step, s.db.tasks[t].updatedAt);
    forall u | u in Ahead(s', t)
      ensures u in Ahead(s, t)
    {
      assert u in s.db.tasks && s'.db.tasks[u] == s.db.tasks[u];
    }
    if step.ClaimTask? {
      var u := step.taskId;
      ClaimedRowMoved(cfg, s, step.worker, u, t);
      assert u in Ahead(s, t) && u !in Ahead(s', t);
      SubsetSize(Ahead(s', t), Ahead(s, t) - {u});
    } else {
      SubsetSize(Ahead(s', t), Ahead(s, t));
    }
  }

  lemma ClaimedRowMoved(cfg: Config, s: System, w: WorkerId, u: TaskId, t: TaskId)
    requires Inv(cfg, s) && Enabled(s, ClaimTask(w, u)) && WaitsThrough(cfg, s, ClaimTask(w, u), t)
    ensures u in Ahead(s, t) && u !in Ahead(Next(cfg, s, ClaimTask(w, u)), t)
  {
    var s' := Next(cfg, s, ClaimTask(w, u));
    assert s'.db.tasks[u] == ClaimedRow(cfg, s.db.tasks[u], w, s.now);
  }

  lemma BypassStep(cfg: Config, states: seq<System>, steps: seq<Step>, t: TaskId, n: nat)
    requires IsRun(cfg, states, steps) && Inv(cfg, states[0]) && n < |steps|
    requires WaitsThrough(cfg, states[n], steps[n], t)
    ensures t in states[n].db.tasks && t in states[n + 1].db.tasks
    ensures |Ahead(states[n + 1], t)| + (if steps[n].ClaimTask? then 1 else 0) <= |Ahead(states[n], t)|
  {
    RunKeepsInv(cfg, states, steps, n);
    ClaimMovesBehind(cfg, states[n], steps[n], t);
  }

  /** What is left ahead of t at every state of a run. */
  function AheadCounts(states: seq<System>, t: TaskId): (counts: seq<nat>)
    ensures |counts| == |states|
    ensures forall n :: 0 <= n < |states| && t in states[n].db.tasks ==> counts[n] == |Ahead(states[n], t)|
  {
    seq(|states|, n requires 0 <= n < |states| => if t in states[n].db.tasks then |Ahead(states[n], t)| else 0)
  }

  /** A count that falls with every claim and never rises bounds the claims. */
  lemma {:induction false} ClaimsUseUp(steps: seq<Step>, counts: seq<nat>, i: nat, j: nat)
    requires i <= j <= |steps| < |counts|
    requires forall n :: i <= n < j ==> Falls(steps, counts, n)
    ensures Claims(steps, i, j) + counts[j] <= counts[i]
    decreases j
  {
    if i < j {
      ClaimsUseUp(steps, counts, i, j - 1);
      assert Falls(steps, counts, j - 1);
    }
  }

  predicate Falls(steps: seq<Step>, counts: seq<nat>, n: nat)
    requires n < |steps| < |counts|
  {
    counts[n + 1] + (if steps[n].ClaimTask? then 1 else 0) <= counts[n]
  }

  /** Bounded bypass: while a claimable task waits, at most as many claims succeed as there
      were queued rows ahead of it; so it is claimed within that number plus one. */
  lemma BoundedBypass(cfg: Config, states: seq<System>, steps: seq<Step>, t: TaskId, i: nat, j: nat)
    requires IsRun(cfg, states, steps) && Inv(cfg, states[0]) && i <= j <= |steps|
    requires t in states[i].db.tasks
    requires forall n :: i <= n < j ==> WaitsThrough(cfg, states[n], steps[n], t)
    ensures t in states[j].db.tasks
    ensures Claims(steps, i, j) + |Ahead(states[j], t)| <= |Ahead(states[i], t)|
  {
    var counts := AheadCounts(states, t);
    if i < j {
      BypassStep(cfg, states, steps, t, j - 1);
    }
    forall n | i <= n < j
      ensures Falls(steps, counts, n)
    {
      BypassStep(cfg, states, steps, t, n);
    }
    ClaimsUseUp(steps, counts, i, j);
  }
}
