/** Polling and error retries of a check task are finite between operator retries. */
module PollTermination {
  import opened Optional
  import opened Rows
  import opened Settings
  import opened TransitionSpecs
  import opened Transactions
  import opened Pipeline
  import opened PipelineInvariant
  import opened PipelineSteps
  import opened PipelineChanges
  import opened PipelineTheorems

  /** Error budget left plus polling time left; nothing once the row is out of the queue. */
  function Fuel(row: Task): (fuel: int)
    ensures row.attempts <= row.maxAttempts ==> 0 <= fuel
  {
    if row.Active() then
      row.maxAttempts - row.attempts + Max(0, row.deadlineAt.GetOr(row.nextRunAt) - row.nextRunAt)
    else 0
  }

  /** The step ends a round of processing of task t by the worker that owns it: its call was
      answered "not yet" or failed. */
  predicate EndsRound(s: System, step: Step, t: TaskId) {
    && (step.CallFailed? || step.CallNotYet?)
    && HasTask(s, step.worker) && s.workers[step.worker].task.id == t
    && Owned(s.db, t, step.worker)
  }

  predicate Reopens(s: System, step: Step, t: TaskId) {
    step.OperatorRetry? && t in FailedTasks(s.db.tasks, step.orderId)
  }

  /** A failed call either ends the task or uses up fuel. */
  lemma ErrorBurnsFuel(cfg: Config, s: System, w: WorkerId, error: string, at: Time)
    requires Inv(cfg, s) && Enabled(s, CallFailed(w, error, at)) && Owned(s.db, s.workers[w].task.id, w)
    requires s.workers[w].task.id in s.db.tasks && s.db.tasks[s.workers[w].task.id].IsCheck()
    ensures var t := s.workers[w].task.id;
            var tx := FinishError(cfg, s.db, s.now, t, w, HandlerOf(s.workers[w].task).value, error, at);
            t in tx.db.tasks && Fuel(tx.db.tasks[t]) < Fuel(s.db.tasks[t])
  {
    var t, handler := s.workers[w].task.id, HandlerOf(s.workers[w].task).value;
    assert WorkerOk(cfg, s, s.workers[w], w);
    SettleOutcome(cfg, s, w, SpecOf(handler).source, at);
    OwnedRow(cfg, s, w);
    RetryBurnsFuel(cfg, s.db, s.now, t, error, at);
  }

  lemma OwnedRow(cfg: Config, s: System, w: WorkerId)
    requires Inv(cfg, s) && HasTask(s, w) && Owned(s.db, s.workers[w].task.id, w)
    ensures s.workers[w].task.id in s.db.tasks
    ensures var row := s.db.tasks[s.workers[w].task.id];
            row.status == Running && 0 <= row.attempts < row.maxAttempts && (row.IsCheck() ==> row.deadlineAt.Some?)
  {
    var o, k := OwnedTask(cfg, s, w);
  }

  lemma RetryBurnsFuel(cfg: Config, db: Db, now: Time, t: TaskId, error: string, at: Time)
    requires t in db.tasks && db.tasks[t].status == Running && db.tasks[t].deadlineAt.Some?
    requires 0 <= db.tasks[t].attempts < db.tasks[t].maxAttempts
    requires db.tasks[t].nextRunAt <= at
    ensures var tx := RetryOrFail(cfg, db, now, t, error, at);
            t in tx.db.tasks && Fuel(tx.db.tasks[t]) < Fuel(db.tasks[t])
  {
  }

  /** So does a "not yet" answer, without spending an attempt. */
  lemma NotYetBurnsFuel(cfg: Config, s: System, w: WorkerId, hint: Option<int>, at: Time)
    requires Inv(cfg, s) && CanFinish(s, w, at) && Owned(s.db, s.workers[w].task.id, w)
    requires s.workers[w].task.id in s.db.tasks && s.db.tasks[s.workers[w].task.id].IsCheck()
    ensures var t := s.workers[w].task.id;
            var tx := FinishNotYet(cfg, s.db, s.now, t, w, HandlerOf(s.workers[w].task).value, hint, at);
            t in tx.db.tasks && Fuel(tx.db.tasks[t]) < Fuel(s.db.tasks[t])
  {
    var t, handler := s.workers[w].task.id, HandlerOf(s.workers[w].task).value;
    assert WorkerOk(cfg, s, s.workers[w], w);
    var o, k := OwnedTask(cfg, s, w);
    SettleOutcome(cfg, s, w, SpecOf(handler).source, at);
  }

  lemma ClaimKeepsFuel(cfg: Config, s: System, w: WorkerId, t: TaskId)
    requires Inv(cfg, s) && Enabled(s, ClaimTask(w, t))
    ensures Fuel(ClaimedRow(cfg, s.db.tasks[t], w, s.now)) == Fuel(s.db.tasks[t])
  {
    var o, k := TaskFacts(cfg, s, t);
  }

  /** Prepare and the read of a finalizing worker never requeue the task: if they write its
      row at all, the row leaves the queue. */
  lemma ChecksKeepFuel(cfg: Config, s: System, step: Step, t: TaskId)
    requires Inv(cfg, s) && Enabled(s, step) && t in s.db.tasks
    requires step.PrepareCall? || step.CallSucceeded?
    ensures t in Next(cfg, s, step).db.tasks
    ensures Next(cfg, s, step).db.tasks[t] == s.db.tasks[t] || !Next(cfg, s, step).db.tasks[t].Active()
  {
    var w := step.worker;
    var source := SpecOf(HandlerOf(s.workers[w].task).value).source;
    SettleOutcome(cfg, s, w, source, step.at);
    if step.PrepareCall? {
      PrepareOutcome(cfg, s, w, step.at);
    }
  }

  /** Between operator retries no step adds fuel to a check task, and every finished round of
      processing takes at least one unit. */
  lemma FuelBurns(cfg: Config, s: System, step: Step, t: TaskId)
    requires Inv(cfg, s) && Enabled(s, step) && t in s.db.tasks && s.db.tasks[t].IsCheck()
    requires !Reopens(s, step, t)
    ensures t in Next(cfg, s, step).db.tasks && Next(cfg, s, step).db.tasks[t].IsCheck()
    ensures Fuel(Next(cfg, s, step).db.tasks[t]) + (if EndsRound(s, step, t) then 1 else 0) <= Fuel(s.db.tasks[t])
  {
    var s' := Next(cfg, s, step);
    var o, k := TaskFacts(cfg, s, t);
    var c := Classify(cfg, s, step);
    TaskAcross(cfg, s, s', c, t);
    if EndsRound(s, step, t) {
      if step.CallFailed? {
        ErrorBurnsFuel(cfg, s, step.worker, step.error, step.at);
      } else {
        NotYetBurnsFuel(cfg, s, step.worker, step.hint, step.at);
      }
    } else if step.CallFailed? || step.CallNotYet? {
      OthersLeaveRow(cfg, s, step, t);
    } else if c.RowChange? && c.taskId == t {
      if step.ClaimTask? {
        FuelOfClaim(cfg, s, step.worker, step.taskId, c, t);
      } else if step.ReleaseTask? {
        ClaimedIsDispatchable(cfg, s, step.worker);
      } else {
        ChecksKeepFuel(cfg, s, step, t);
      }
    } else {
      UntouchedFuel(cfg, s, s', c, t);
    }
  }

  lemma FuelOfClaim(cfg: Config, s: System, w: WorkerId, u: TaskId, c: Change, t: TaskId)
    requires Inv(cfg, s) && Enabled(s, ClaimTask(w, u)) && t in s.db.tasks
    requires c.RowChange? && c.taskId == t && ChangeOk(cfg, s, Next(cfg, s, ClaimTask(w, u)), c)
    ensures Fuel(c.row) == Fuel(s.db.tasks[t])
  {
    ClaimKeepsFuel(cfg, s, w, u);
    assert Next(cfg, s, ClaimTask(w, u)).db.tasks[t] == c.row;
  }

  /** A worker that answers for another task, or that lost the row, leaves it alone. */
  lemma OthersLeaveRow(cfg: Config, s: System, step: Step, t: TaskId)
    requires Inv(cfg, s) && Enabled(s, step) && (step.CallFailed? || step.CallNotYet?) && t in s.db.tasks
    requires !EndsRound(s, step, t)
    ensures t in Next(cfg, s, step).db.tasks && Next(cfg, s, step).db.tasks[t] == s.db.tasks[t]
  {
    var w := step.worker;
    if step.CallFailed? {
      ErrorIsOwnRow(cfg, s, w, step.error, step.at);
    } else {
      NotYetIsOwnRow(cfg, s, w, step.hint, step.at);
    }
  }

  /** Changes that do not rewrite an active row in place leave it alone or end it. */
  lemma UntouchedFuel(cfg: Config, s: System, s': System, c: Change, t: TaskId)
    requires ChangeOk(cfg, s, s', c) && t in s.db.tasks && t in s'.db.tasks
    requires !(c.RowChange? && c.taskId == t)
    requires c.ReopenChange? ==> t !in FailedTasks(s.db.tasks, c.orderId)
    requires s.db.tasks[t].attempts <= s.db.tasks[t].maxAttempts
    ensures Fuel(s'.db.tasks[t]) <= Fuel(s.db.tasks[t])
  {
  }

  /** Rounds of task t that end in steps i..j of a run. */
  function Rounds(states: seq<System>, steps: seq<Step>, t: TaskId, i: nat, j: nat): nat
    requires i <= j <= |steps| && |states| == |steps| + 1
    decreases j
  {
    if i == j then 0
    else Rounds(states, steps, t, i, j - 1) + (if EndsRound(states[j - 1], steps[j - 1], t) then 1 else 0)
  }

  lemma FuelIsNatural(cfg: Config, s: System, t: TaskId)
    requires Inv(cfg, s) && t in s.db.tasks
    ensures 0 <= Fuel(s.db.tasks[t])
  {
    var o, k := TaskFacts(cfg, s, t);
  }

  lemma RoundStep(cfg: Config, states: seq<System>, steps: seq<Step>, t: TaskId, n: nat)
    requires IsRun(cfg, states, steps) && Inv(cfg, states[0]) && n < |steps|
    requires t in states[n].db.tasks && states[n].db.tasks[t].IsCheck() && !Reopens(states[n], steps[n], t)
    ensures t in states[n + 1].db.tasks && states[n + 1].db.tasks[t].IsCheck()
    ensures Fuel(states[n + 1].db.tasks[t]) + (if EndsRound(states[n], steps[n], t) then 1 else 0)
            <= Fuel(states[n].db.tasks[t])
  {
    RunKeepsInv(cfg, states, steps, n);
    FuelBurns(cfg, states[n], steps[n], t);
  }

  /** No step of i..j reopens t. */
  ghost predicate NeverReopened(states: seq<System>, steps: seq<Step>, t: TaskId, i: nat, j: nat)
    requires i <= j <= |steps| && |states| == |steps| + 1
  {
    forall n :: i <= n < j ==> !Reopens(states[n], steps[n], t)
  }

  /** A check task stays one. */
  lemma {:induction false} StaysCheck(cfg: Config, states: seq<System>, steps: seq<Step>, t: TaskId, i: nat, j: nat)
    requires IsRun(cfg, states, steps) && Inv(cfg, states[0]) && i <= j <= |steps|
    requires t in states[i].db.tasks && states[i].db.tasks[t].IsCheck() && NeverReopened(states, steps, t, i, j)
    ensures t in states[j].db.tasks && states[j].db.tasks[t].IsCheck()
    decreases j
  {
    if i < j {
      StaysCheck(cfg, states, steps, t, i, j - 1);
      RoundStep(cfg, states, steps, t, j - 1);
    }
  }

  /** Fuel at every state of a run. */
  function FuelAlong(states: seq<System>, t: TaskId): (fuel: seq<int>)
    ensures |fuel| == |states|
    ensures forall n :: 0 <= n < |states| && t in states[n].db.tasks ==> fuel[n] == Fuel(states[n].db.tasks[t])
  {
    seq(|states|, n requires 0 <= n < |states| => if t in states[n].db.tasks then Fuel(states[n].db.tasks[t]) else 0)
  }

  predicate Burns(states: seq<System>, steps: seq<Step>, t: TaskId, fuel: seq<int>, n: nat)
    requires n < |steps| && |states| == |fuel| == |steps| + 1
  {
    fuel[n + 1] + (if EndsRound(states[n], steps[n], t) then 1 else 0) <= fuel[n]
  }

  lemma {:induction false} RoundsUseUp(states: seq<System>, steps: seq<Step>, t: TaskId, fuel: seq<int>, i: nat, j: nat)
    requires i <= j <= |steps| && |states| == |fuel| == |steps| + 1
    requires forall n :: i <= n < j ==> Burns(states, steps, t, fuel, n)
    ensures Rounds(states, steps, t, i, j) + fuel[j] <= fuel[i]
    decreases j
  {
    if i < j {
      RoundsUseUp(states, steps, t, fuel, i, j - 1);
      assert Burns(states, steps, t, fuel, j - 1);
    }
  }

  lemma RoundsBurnFuel(cfg: Config, states: seq<System>, steps: seq<Step>, t: TaskId, i: nat, j: nat)
    requires IsRun(cfg, states, steps) && Inv(cfg, states[0]) && i <= j <= |steps|
    requires t in states[i].db.tasks && states[i].db.tasks[t].IsCheck() && NeverReopened(states, steps, t, i, j)
    ensures t in states[j].db.tasks
    ensures Rounds(states, steps, t, i, j) + Fuel(states[j].db.tasks[t]) <= Fuel(states[i].db.tasks[t])
  {
    var fuel := FuelAlong(states, t);
    StaysCheck(cfg, states, steps, t, i, j);
    forall n | i <= n < j
      ensures Burns(states, steps, t, fuel, n)
    {
      StaysCheck(cfg, states, steps, t, i, n);
      RoundStep(cfg, states, steps, t, n);
    }
    RoundsUseUp(states, steps, t, fuel, i, j);
  }

  /** Along any run without an operator retry of the task, a check task goes through at most
      as many rounds as it had fuel: its error budget plus its polling time. */
  lemma RoundsAreBounded(cfg: Config, states: seq<System>, steps: seq<Step>, t: TaskId, i: nat, j: nat)
    requires IsRun(cfg, states, steps) && Inv(cfg, states[0]) && i <= j <= |steps|
    requires t in states[i].db.tasks && states[i].db.tasks[t].IsCheck() && NeverReopened(states, steps, t, i, j)
    ensures Rounds(states, steps, t, i, j) <= Fuel(states[i].db.tasks[t])
  {
    RoundsBurnFuel(cfg, states, steps, t, i, j);
    RunKeepsInv(cfg, states, steps, j);
    FuelIsNatural(cfg, states[j], t);
  }
}
