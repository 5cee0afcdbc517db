/** The deadlines of check tasks: what operator retries make of them, and why a service that
    answers in time never runs into them. */
module Deadlines {
  import opened Optional
  import opened Rows
  import opened Settings
  import opened TransitionSpecs
  import opened Transactions
  import opened Pipeline
  import opened PipelineInvariant
  import opened PipelineSteps
  import opened PipelineOrderSteps
  import opened PipelineChanges
  import opened PipelineTheorems
  import Simulator

  // ---------------------------------------------------------------- the operator-retry law

  function SumSince(created: Time, reopened: seq<Time>): int {
    if reopened == [] then 0
    else SumSince(created, reopened[..|reopened| - 1]) + (reopened[|reopened| - 1] - created)
  }

  /** After operator retries at R1..Rn, none stamped before the task was created, the deadline
      is Rn plus the original window plus the age of the task at each earlier retry. */
  lemma {:induction false} DeadlineLaw(created: Time, w: int, second: int, reopened: seq<Time>)
    requires 0 < second && reopened != []
    requires forall i :: 0 <= i < |reopened| - 1 ==> created <= reopened[i]
    ensures DeadlineAfter(created, w, second, reopened)
            == reopened[|reopened| - 1] + Max(w, second) + SumSince(created, reopened[..|reopened| - 1])
    ensures 0 <= SumSince(created, reopened[..|reopened| - 1])
  {
    var front := reopened[..|reopened| - 1];
    if front != [] {
      DeadlineLaw(created, w, second, front);
      assert front[|front| - 1] == reopened[|reopened| - 2];
    }
  }

  /** The window an operator retry at time r opens. */
  function WindowOf(created: Time, w: int, second: int, earlier: seq<Time>, r: Time): int {
    DeadlineAfter(created, w, second, earlier + [r]) - r
  }

  lemma TwoRetries(created: Time, w: int, second: int, r1: Time, r2: Time)
    ensures DeadlineAfter(created, w, second, [r1]) == r1 + Max(w, second)
    ensures DeadlineAfter(created, w, second, [r1, r2]) == r2 + Max(r1 + Max(w, second) - created, second)
  {
    assert [r1][..0] == [];
    assert [r1, r2][..1] == [r1];
  }

  /** The first operator retry grants exactly the original window (never under one second).
      The second grants it again exactly when the first one was stamped at the very creation
      of the task, or before it with a window of a second or less; stamped later, it grants
      more. The comment on the code promises the original window every time. */
  lemma SecondWindow(created: Time, w: int, second: int, r1: Time, r2: Time)
    requires 0 < second
    ensures WindowOf(created, w, second, [], r1) == Max(w, second)
    ensures WindowOf(created, w, second, [r1], r2) == Max(w, second)
            <==> r1 == created || (r1 < created && w <= second)
    ensures created < r1 ==> WindowOf(created, w, second, [r1], r2) == Max(w, second) + (r1 - created)
  {
    TwoRetries(created, w, second, r1, r2);
    assert [] + [r1] == [r1] && [r1] + [r2] == [r1, r2];
  }

  lemma {:induction false} SumIsZero(created: Time, reopened: seq<Time>)
    requires forall i :: 0 <= i < |reopened| ==> created <= reopened[i]
    ensures 0 <= SumSince(created, reopened)
    ensures SumSince(created, reopened) == 0 <==> forall i :: 0 <= i < |reopened| ==> reopened[i] == created
  {
    if reopened != [] {
      SumIsZero(created, reopened[..|reopened| - 1]);
    }
  }

  /** However many retries went before, as long as none was stamped before the task existed, a
      retry grants the original window plus the age of the task at each of them: the original
      window exactly when all of them were stamped at the creation. */
  lemma LaterWindows(created: Time, w: int, second: int, earlier: seq<Time>, r: Time)
    requires 0 < second && forall i :: 0 <= i < |earlier| ==> created <= earlier[i]
    ensures WindowOf(created, w, second, earlier, r) == Max(w, second) + SumSince(created, earlier)
    ensures WindowOf(created, w, second, earlier, r) == Max(w, second)
            <==> forall i :: 0 <= i < |earlier| ==> earlier[i] == created
  {
    assert (earlier + [r])[..|earlier|] == earlier;
    DeadlineLaw(created, w, second, earlier + [r]);
    SumIsZero(created, earlier);
  }

  /** A concrete row: created at 0 with a 60 s window, failed, reopened at 100, failed again and
      reopened at 500. Its deadlines are 160 and then 660: the second window is 160 s. */
  lemma SecondWindowExample(cfg: Config, row: Task, now: Time)
    requires cfg.second == 1 && row.IsCheck() && row.createdAt == 0 && row.deadlineAt == Some(60)
    ensures var once := ReopenedRow(cfg, row, 100, now);
            var twice := ReopenedRow(cfg, once.(status := TaskFailed), 500, now);
            && once.deadlineAt == Some(100 + 60) && once.createdAt == 0
            && twice.deadlineAt == Some(500 + 160)
  {
  }

  /** With honest stamps no operator retry ever moves a deadline to before the original one. */
  lemma {:induction false} DeadlineNeverEarlier(created: Time, w: int, second: int, reopened: seq<Time>)
    requires forall i :: 0 <= i < |reopened| ==> created <= reopened[i]
    ensures created + w <= DeadlineAfter(created, w, second, reopened)
  {
    if reopened != [] {
      DeadlineNeverEarlier(created, w, second, reopened[..|reopened| - 1]);
    }
  }

  /** In every reachable state the deadline column of a check task is the one the law gives
      for its own history of retries, and command tasks have none. */
  lemma DeadlineFollowsLaw(cfg: Config, s: System, t: TaskId)
    requires Reachable(cfg, s) && t in s.db.tasks
    ensures t in s.hist
    ensures var row, h := s.db.tasks[t], s.hist[t];
            match row.taskType
            case CheckReady => row.deadlineAt == Some(DeadlineAfter(row.createdAt, cfg.readyDeadline, cfg.second,
                                                                    h.reopenedAt))
            case CheckDelivery => row.deadlineAt == Some(DeadlineAfter(row.createdAt, cfg.deliveryDeadline, cfg.second,
                                                                       h.reopenedAt))
            case _ => row.deadlineAt == None
  {
    ReachableInv(cfg, s);
    var o, k := TaskFacts(cfg, s, t);
  }

  // ---------------------------------------------------------------- timing composition

  /** Worst simulator delays of the two polled phases, and the most that may pass between a
      "not yet" answer and the deadline check of the worker that received it. */
  datatype Budget = Budget(readyDelay: real, deliveryDelay: real, lag: int)

  predicate FitsWindows(cfg: Config, b: Budget) {
    && b.readyDelay + b.lag as real <= cfg.readyDeadline as real
    && b.deliveryDelay + b.lag as real <= cfg.deliveryDeadline as real
  }

  /** The simulator, started from the time the worker sent it, really said "not yet". */
  ghost predicate SimulatorSaidNotYet(maxDelay: real, startedAt: Time, answeredAt: Time) {
    exists phase: Simulator.SimPhase ::
      && phase.Valid()
      && Simulator.ReadDelayRange(phase.env).high <= maxDelay
      && Simulator.DelayedStatus(phase, startedAt as real, answeredAt as real).NotYet?
  }

  lemma NotYetMeansEarly(maxDelay: real, startedAt: Time, answeredAt: Time)
    requires SimulatorSaidNotYet(maxDelay, startedAt, answeredAt)
    ensures (answeredAt as real) < startedAt as real + maxDelay
  {
    var phase: Simulator.SimPhase :|
      && phase.Valid()
      && Simulator.ReadDelayRange(phase.env).high <= maxDelay
      && Simulator.DelayedStatus(phase, startedAt as real, answeredAt as real).NotYet?;
    Simulator.AnswersSwitchOnce(phase, startedAt as real, answeredAt as real, answeredAt as real);
  }

  /** The environment keeps to the budget in this step: polls are answered by the simulator
      and judged promptly, and operators do not stamp a retry before the task existed. */
  ghost predicate Timely(b: Budget, s: System, step: Step) {
    && (step.CallNotYet? && HasTask(s, step.worker) && s.workers[step.worker].Calling? ==>
          && step.at - step.answeredAt <= b.lag
          && (HandlerOf(s.workers[step.worker].task) == Some(ReadyCheck) ==>
                SimulatorSaidNotYet(b.readyDelay, s.workers[step.worker].call.startedAt, step.answeredAt))
          && (HandlerOf(s.workers[step.worker].task) == Some(DeliveryCheck) ==>
                SimulatorSaidNotYet(b.deliveryDelay, s.workers[step.worker].call.startedAt, step.answeredAt)))
    && (step.OperatorRetry? ==>
          forall t :: t in FailedTasks(s.db.tasks, step.orderId) ==> s.db.tasks[t].createdAt <= step.at)
  }

  /** No task has timed out, and no operator retry predates its task. */
  ghost predicate OnTime(s: System, t: TaskId) {
    t in s.hist && t in s.db.tasks ==>
      && !s.hist[t].timedOut
      && forall i :: 0 <= i < |s.hist[t].reopenedAt| ==> s.db.tasks[t].createdAt <= s.hist[t].reopenedAt[i]
  }

  /** The deadline check of a timely poll passes. */
  lemma TimelyPollBeatsDeadline(cfg: Config, b: Budget, s: System, step: Step)
    requires Inv(cfg, s) && Enabled(s, step) && step.CallNotYet? && Timely(b, s, step) && FitsWindows(cfg, b)
    requires Owned(s.db, s.workers[step.worker].task.id, step.worker)
    requires OnTime(s, s.workers[step.worker].task.id)
    ensures var t := s.workers[step.worker].task.id;
            FinishNotYet(cfg, s.db, s.now, t, step.worker, HandlerOf(s.workers[step.worker].task).value, step.hint,
                         step.at).action
            != TimedOut
  {
    var w := step.worker;
    var t, p := s.workers[w].task.id, s.workers[w];
    assert WorkerOk(cfg, s, p, w);
    var o, k := OwnedTask(cfg, s, w);
    var row := s.db.tasks[t];
    if StageHandler(k).Polls() {
      var window := StageWindow(cfg, k).value;
      DeadlineNeverEarlier(row.createdAt, window, cfg.second, s.hist[t].reopenedAt);
      NotYetMeansEarly(if k == 2 then b.readyDelay else b.deliveryDelay, p.call.startedAt, step.answeredAt);
      assert step.at < row.createdAt + window;
    }
  }

  /** Only a "not yet" answer can time a task out, only an operator retry adds a reopening. */
  lemma HistoryAcross(cfg: Config, s: System, step: Step, t: TaskId)
    requires Inv(cfg, s) && Enabled(s, step)
    requires !step.OperatorRetry? && t in Next(cfg, s, step).hist
    ensures t in s.hist ==> Next(cfg, s, step).hist[t].reopenedAt == s.hist[t].reopenedAt
    ensures t !in s.hist ==> Next(cfg, s, step).hist[t] == History(0, 0, false, [])
    ensures !step.CallNotYet? && t in s.hist && Next(cfg, s, step).hist[t].timedOut ==> s.hist[t].timedOut
  {
    if step.CommitFinalize? {
      HopHistory(cfg, s, step.worker, step.taskId, t);
    } else if step.ClaimTask? {
      assert step.taskId in s.hist;
    } else if HasStepWorker(step) {
      SettledHistory(cfg, s, step, t);
    }
  }

  lemma HopHistory(cfg: Config, s: System, w: WorkerId, newId: TaskId, t: TaskId)
    requires Inv(cfg, s) && Enabled(s, CommitFinalize(w, newId))
    requires t in Next(cfg, s, CommitFinalize(w, newId)).hist
    ensures var h := Next(cfg, s, CommitFinalize(w, newId)).hist[t];
            if t in s.hist then h.reopenedAt == s.hist[t].reopenedAt && h.timedOut == s.hist[t].timedOut
            else h == History(0, 0, false, [])
  {
    var c := CommitChange(cfg, s, w, newId);
  }

  lemma WorkerTxHistory(cfg: Config, s: System, step: Step)
    requires Enabled(s, step) && HasStepWorker(step)
    ensures var tx, t := WorkerTx(cfg, s, step), s.workers[step.worker].task.id;
            Next(cfg, s, step).hist ==
            if tx.Some? && t in s.hist then s.hist[t := HistoryAfter(s.hist[t], tx.value.action)] else s.hist
  {
  }

  lemma PrepareNeverTimesOut(cfg: Config, db: Db, now: Time, t: TaskId, w: WorkerId, handler: Handler, at: Time)
    ensures var r := Prepare(cfg, db, now, t, w, handler, at);
            r.Stop? ==> r.tx.action != TimedOut
  {
  }

  lemma OnlyNotYetTimesOut(cfg: Config, s: System, step: Step)
    requires Enabled(s, step) && HasStepWorker(step) && !step.CallNotYet?
    ensures var tx := WorkerTx(cfg, s, step);
            tx.Some? ==> tx.value.action != TimedOut
  {
    if step.PrepareCall? {
      PrepareNeverTimesOut(cfg, s.db, s.now, s.workers[step.worker].task.id, step.worker,
                           HandlerOf(s.workers[step.worker].task).value, step.at);
    }
  }

  lemma SettledHistory(cfg: Config, s: System, step: Step, t: TaskId)
    requires Enabled(s, step) && HasStepWorker(step) && t in Next(cfg, s, step).hist
    ensures t in s.hist && Next(cfg, s, step).hist[t].reopenedAt == s.hist[t].reopenedAt
    ensures !step.CallNotYet? && Next(cfg, s, step).hist[t].timedOut ==> s.hist[t].timedOut
  {
    WorkerTxHistory(cfg, s, step);
    if !step.CallNotYet? {
      OnlyNotYetTimesOut(cfg, s, step);
    }
  }

  lemma OnTimeStep(cfg: Config, b: Budget, s: System, step: Step, t: TaskId)
    requires Inv(cfg, s) && Enabled(s, step) && Timely(b, s, step) && FitsWindows(cfg, b)
    requires forall u {:trigger OnTime(s, u)} :: OnTime(s, u)
    ensures OnTime(Next(cfg, s, step), t)
  {
    var s' := Next(cfg, s, step);
    assert OnTime(s, t);
    if t in s'.hist && t in s'.db.tasks {
      if step.OperatorRetry? {
        RetryOnTime(cfg, b, s, step, t);
      } else {
        HistoryAcross(cfg, s, step, t);
        if t in s.db.tasks {
          var c := Classify(cfg, s, step);
          assert t in s.hist;
          TaskAcross(cfg, s, s', c, t);
          if step.CallNotYet? {
            NotYetOnTime(cfg, b, s, step, t);
          }
        }
      }
    }
  }

  lemma RetryOnTime(cfg: Config, b: Budget, s: System, step: Step, t: TaskId)
    requires Inv(cfg, s) && Enabled(s, step) && Timely(b, s, step) && step.OperatorRetry?
    requires OnTime(s, t)
    ensures OnTime(Next(cfg, s, step), t)
  {
    var s' := Next(cfg, s, step);
    var c := ReopenChangeOf(cfg, s, step.orderId, step.ids, step.at);
    if c.ReopenChange? {
      ReopenedOnTime(cfg, s, step.orderId, step.ids, step.at, t);
    } else {
      assert s'.db == s.db && s'.hist == s.hist;
    }
  }

  lemma ReopenedOnTime(cfg: Config, s: System, o: OrderId, ids: seq<TaskId>, at: Time, t: TaskId)
    requires forall u :: u in ids ==> u in s.db.tasks
    requires forall u :: u in FailedTasks(s.db.tasks, o) ==> s.db.tasks[u].createdAt <= at
    requires s.hist.Keys == s.db.tasks.Keys && OnTime(s, t)
    ensures OnTime(ReopenedState(cfg, s, o, ids, at), t)
  {
  }

  lemma NotYetOnTime(cfg: Config, b: Budget, s: System, step: Step, t: TaskId)
    requires Inv(cfg, s) && Enabled(s, step) && Timely(b, s, step) && FitsWindows(cfg, b) && step.CallNotYet?
    requires OnTime(s, t) && t in s.hist && t in s.db.tasks
    ensures t in Next(cfg, s, step).hist && !Next(cfg, s, step).hist[t].timedOut
  {
    var w := step.worker;
    var u, handler := s.workers[w].task.id, HandlerOf(s.workers[w].task).value;
    if u == t {
      SettleOutcome(cfg, s, w, SpecOf(handler).source, step.at);
      if Owned(s.db, t, w) {
        TimelyPollBeatsDeadline(cfg, b, s, step);
      }
    }
  }

  lemma {:induction false} TimelyRunsStayOnTime(cfg: Config, b: Budget, states: seq<System>, steps: seq<Step>, i: nat,
                                                t: TaskId)
    requires IsRun(cfg, states, steps) && Init(states[0]) && FitsWindows(cfg, b)
    requires forall n :: 0 <= n < |steps| ==> Timely(b, states[n], steps[n])
    requires i <= |steps|
    ensures OnTime(states[i], t)
    decreases i
  {
    if i > 0 {
      var before := states[i - 1];
      forall u
        ensures OnTime(before, u)
      {
        TimelyRunsStayOnTime(cfg, b, states, steps, i - 1, u);
      }
      RunKeepsInv(cfg, states, steps, i - 1);
      OnTimeStep(cfg, b, states[i - 1], steps[i - 1], t);
    }
  }

  /** If the simulator delay plus the lag of the worker's check fits in the poll window, and no
      operator retry is stamped before its task existed, then no task of a run that starts
      empty ever fails by deadline: a failed one has spent all its attempts. */
  lemma TimelyRunsNeverTimeOut(cfg: Config, b: Budget, states: seq<System>, steps: seq<Step>, i: nat, t: TaskId)
    requires IsRun(cfg, states, steps) && Init(states[0]) && FitsWindows(cfg, b)
    requires forall n :: 0 <= n < |steps| ==> Timely(b, states[n], steps[n])
    requires i <= |steps| && t in states[i].db.tasks && states[i].db.tasks[t].status == TaskFailed
    ensures states[i].db.tasks[t].attempts == states[i].db.tasks[t].maxAttempts
  {
    TimelyRunsStayOnTime(cfg, b, states, steps, i, t);
    RunKeepsInv(cfg, states, steps, i);
    var o, k := TaskFacts(cfg, states[i], t);
  }
}
