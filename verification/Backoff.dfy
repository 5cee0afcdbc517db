/** Exponential backoff: the waits between failures, added up over a run. */
module Backoff {
  import opened Optional
  import opened OrderLifecycle
  import opened Rows
  import opened Settings
  import opened TransitionSpecs
  import opened Transactions
  import opened Pipeline
  import opened PipelineInvariant
  import opened PipelineSteps
  import opened PipelineChanges
  import opened PipelineTheorems
  import opened PollTermination

  // ---------------------------------------------------------------- arithmetic

  /** The first n waits of a task, added up. */
  function TotalWait(cfg: Config, n: nat): int {
    if n == 0 then 0 else TotalWait(cfg, n - 1) + RetryDelay(cfg, n - 1)
  }

  predicate Uncapped(cfg: Config, attempts: nat) {
    cfg.retryBase * Pow2(attempts) <= cfg.retryCap
  }

  /** How many of the first n waits the cap leaves alone. */
  function UncappedWaits(cfg: Config, n: nat): (k: nat)
    ensures k <= n
  {
    if n == 0 then 0 else UncappedWaits(cfg, n - 1) + (if Uncapped(cfg, n - 1) then 1 else 0)
  }

  lemma {:induction false} PowersGrow(i: nat, j: nat)
    requires i <= j
    ensures Pow2(i) <= Pow2(j)
  {
    if i < j {
      PowersGrow(i, j - 1);
    }
  }

  lemma ScaledPowersGrow(base: int, i: nat, j: nat)
    requires 0 < base && i <= j
    ensures base * Pow2(i) <= base * Pow2(j)
  {
    PowersGrow(i, j);
  }

  /** Waiting never gets shorter with more failures. */
  lemma DelayMonotone(cfg: Config, a: int, b: int)
    requires a <= b
    ensures RetryDelay(cfg, a) <= RetryDelay(cfg, b)
  {
    ScaledPowersGrow(cfg.retryBase, Max(a, 0), Max(b, 0));
  }

  /** The wait starts at the base and doubles with every failure, until the cap holds it. */
  lemma DelayDoubles(cfg: Config, a: nat)
    ensures RetryDelay(cfg, 0) == Min(cfg.retryBase, cfg.retryCap)
    ensures RetryDelay(cfg, a + 1) == Min(2 * RetryDelay(cfg, a), cfg.retryCap)
  {
    assert Pow2(0) == 1 && Pow2(a + 1) == 2 * Pow2(a);
    assert cfg.retryBase * Pow2(a + 1) == 2 * (cfg.retryBase * Pow2(a));
  }

  /** Once a wait is capped all later ones are, so the uncapped waits are the first k. */
  lemma {:induction false} UncappedFirst(cfg: Config, n: nat, i: nat)
    requires i < n
    ensures i < UncappedWaits(cfg, n) <==> Uncapped(cfg, i)
    decreases n
  {
    if i < n - 1 {
      UncappedFirst(cfg, n - 1, i);
      if Uncapped(cfg, n - 1) {
        ScaledPowersGrow(cfg.retryBase, i, n - 1);
      }
    } else {
      if Uncapped(cfg, n - 1) {
        AllUncapped(cfg, n);
      }
    }
  }

  lemma {:induction false} AllUncapped(cfg: Config, n: nat)
    requires n > 0 ==> Uncapped(cfg, n - 1)
    ensures UncappedWaits(cfg, n) == n
  {
    if n > 1 {
      ScaledPowersGrow(cfg.retryBase, n - 2, n - 1);
      AllUncapped(cfg, n - 1);
    }
  }

  function ClosedForm(base: int, cap: int, n: nat, k: nat): int {
    base * (Pow2(k) - 1) + (n - k) * cap
  }

  lemma OneMoreDoubling(base: int, cap: int, n: nat)
    ensures ClosedForm(base, cap, n + 1, n + 1) == ClosedForm(base, cap, n, n) + base * Pow2(n)
  {
    assert base * (Pow2(n + 1) - 1) == base * (Pow2(n) - 1) + base * Pow2(n);
  }

  lemma OneMoreCap(base: int, cap: int, n: nat, k: nat)
    ensures ClosedForm(base, cap, n + 1, k) == ClosedForm(base, cap, n, k) + cap
  {
    assert (n + 1 - k) * cap == (n - k) * cap + cap;
  }

  /** The closed form: k doubling waits from the base, then the cap. */
  lemma {:induction false} TotalWaitClosedForm(cfg: Config, n: nat)
    ensures TotalWait(cfg, n) == ClosedForm(cfg.retryBase, cfg.retryCap, n, UncappedWaits(cfg, n))
  {
    if n > 0 {
      TotalWaitClosedForm(cfg, n - 1);
      if Uncapped(cfg, n - 1) {
        AllUncapped(cfg, n);
        OneMoreDoubling(cfg.retryBase, cfg.retryCap, n - 1);
      } else {
        OneMoreCap(cfg.retryBase, cfg.retryCap, n - 1, UncappedWaits(cfg, n - 1));
      }
    }
  }

  /** All waits doubled, or all at the cap, is at least as long. */
  lemma {:induction false} TotalWaitBounds(cfg: Config, n: nat)
    ensures TotalWait(cfg, n) <= ClosedForm(cfg.retryBase, cfg.retryCap, n, n)
    ensures TotalWait(cfg, n) <= ClosedForm(cfg.retryBase, cfg.retryCap, n, 0)
  {
    if n > 0 {
      TotalWaitBounds(cfg, n - 1);
      OneMoreDoubling(cfg.retryBase, cfg.retryCap, n - 1);
      OneMoreCap(cfg.retryBase, cfg.retryCap, n - 1, 0);
    }
  }

  // ---------------------------------------------------------------- in a run

  /** The transaction spends at most one attempt of task t: it requeues the task after the
      backoff of the attempts spent before, or fails it for want of budget. */
  predicate SpendsOne(cfg: Config, before: Task, after: Task, at: Time) {
    || after.attempts == before.attempts
    || (&& after.attempts == before.attempts + 1
        && if after.attempts < before.maxAttempts
           then after.status == Pending && after.nextRunAt == at + RetryDelay(cfg, before.attempts)
           else after.status == TaskFailed)
  }

  predicate SpendsTx(cfg: Config, db: Db, tx: TxResult, t: TaskId, at: Time) {
    || tx.db == db
    || (&& t in db.tasks && t in tx.db.tasks && tx.db == WithTask(db, t, tx.db.tasks[t])
        && SpendsOne(cfg, db.tasks[t], tx.db.tasks[t], at))
  }

  lemma SettleSpends(cfg: Config, db: Db, now: Time, t: TaskId, w: WorkerId, source: OrderState, at: Time)
    ensures Settle(db, now, t, w, source, at).Some? ==>
              SpendsTx(cfg, db, Settle(db, now, t, w, source, at).value, t, at)
  {
  }

  lemma RetrySpends(cfg: Config, db: Db, now: Time, t: TaskId, error: string, at: Time)
    requires t in db.tasks
    ensures SpendsTx(cfg, db, RetryOrFail(cfg, db, now, t, error, at), t, at)
  {
  }

  lemma ErrorSpends(cfg: Config, db: Db, now: Time, t: TaskId, w: WorkerId, handler: Handler, error: string, at: Time)
    ensures SpendsTx(cfg, db, FinishError(cfg, db, now, t, w, handler, error, at), t, at)
  {
    SettleSpends(cfg, db, now, t, w, SpecOf(handler).source, at);
    if t in db.tasks {
      RetrySpends(cfg, db, now, t, error, at);
    }
  }

  lemma NotYetSpends(cfg: Config, db: Db, now: Time, t: TaskId, w: WorkerId, handler: Handler, hint: Option<int>,
                     at: Time)
    ensures SpendsTx(cfg, db, FinishNotYet(cfg, db, now, t, w, handler, hint, at), t, at)
  {
    SettleSpends(cfg, db, now, t, w, SpecOf(handler).source, at);
    if t in db.tasks {
      RetrySpends(cfg, db, now, t, MissingDeadlineError(handler), at);
    }
  }

  lemma PrepareSpends(cfg: Config, db: Db, now: Time, t: TaskId, w: WorkerId, handler: Handler, at: Time)
    ensures var r := Prepare(cfg, db, now, t, w, handler, at);
            r.Stop? ==> SpendsTx(cfg, db, r.tx, t, at)
  {
    var r := Prepare(cfg, db, now, t, w, handler, at);
    var settled := Settle(db, now, t, w, SpecOf(handler).source, at);
    if settled.Some? {
      SettleSpends(cfg, db, now, t, w, SpecOf(handler).source, at);
    } else if r.Stop? {
      var error :| r.tx == RetryOrFail(cfg, db, now, t, error, at);
      RetrySpends(cfg, db, now, t, error, at);
    }
  }

  lemma WorkerTxSpends(cfg: Config, s: System, step: Step)
    requires Enabled(s, step) && HasStepWorker(step)
    ensures WorkerTx(cfg, s, step).Some? ==>
              SpendsTx(cfg, s.db, WorkerTx(cfg, s, step).value, s.workers[step.worker].task.id, step.at)
  {
    var task := s.workers[step.worker].task;
    match step
    case ReleaseTask(_, _) =>
    case CallFailed(w, error, at) => ErrorSpends(cfg, s.db, s.now, task.id, w, HandlerOf(task).value, error, at);
    case CallNotYet(w, _, hint, at) => NotYetSpends(cfg, s.db, s.now, task.id, w, HandlerOf(task).value, hint, at);
    case PrepareCall(w, at) => PrepareSpends(cfg, s.db, s.now, task.id, w, HandlerOf(task).value, at);
    case CallSucceeded(w, _, at) => SettleSpends(cfg, s.db, s.now, task.id, w, SpecOf(HandlerOf(task).value).source,
                                                 at);
  }

  /** The wait a step adds: a worker transaction that spends an attempt and requeues. */
  function WaitAdded(s: System, step: Step, s': System, t: TaskId): int {
    if t in s.db.tasks && t in s'.db.tasks && HasStepWorker(step)
       && s.db.tasks[t].attempts < s'.db.tasks[t].attempts && s'.db.tasks[t].status == Pending
    then s'.db.tasks[t].nextRunAt - step.at
    else 0
  }

  /** Waits of task t since it was created or last reopened, up to state j of a run. */
  function Waited(states: seq<System>, steps: seq<Step>, t: TaskId, j: nat): int
    requires |states| == |steps| + 1 && j <= |steps|
  {
    if j == 0 then 0
    else if Reopens(states[j - 1], steps[j - 1], t) then 0
    else Waited(states, steps, t, j - 1) + WaitAdded(states[j - 1], steps[j - 1], states[j], t)
  }

  /** A step that does not reopen the task spends at most one attempt, and only a worker's
      transaction spends any. */
  lemma AttemptsAcross(cfg: Config, s: System, step: Step, t: TaskId)
    requires Inv(cfg, s) && Enabled(s, step) && t in s.db.tasks && !Reopens(s, step, t)
    ensures t in Next(cfg, s, step).db.tasks
    ensures var before, after := s.db.tasks[t], Next(cfg, s, step).db.tasks[t];
            if HasStepWorker(step) then SpendsOne(cfg, before, after, step.at) else after.attempts == before.attempts
  {
    if HasStepWorker(step) {
      WorkerTxDb(cfg, s, step);
      WorkerTxSpends(cfg, s, step);
    } else if step.ClaimTask? {
    } else {
      var c := Classify(cfg, s, step);
      QuietAttempts(cfg, s, Next(cfg, s, step), c, t);
    }
  }

  lemma QuietAttempts(cfg: Config, s: System, s': System, c: Change, t: TaskId)
    requires ChangeOk(cfg, s, s', c) && t in s.db.tasks && !c.RowChange?
    requires c.ReopenChange? ==> t !in FailedTasks(s.db.tasks, c.orderId)
    ensures t in s'.db.tasks && s'.db.tasks[t].attempts == s.db.tasks[t].attempts
  {
  }

  lemma ReopenedAttempts(cfg: Config, s: System, step: Step, t: TaskId)
    requires Inv(cfg, s) && Enabled(s, step) && t in s.db.tasks && Reopens(s, step, t)
    ensures t in Next(cfg, s, step).db.tasks && Next(cfg, s, step).db.tasks[t].attempts == 0
  {
    var o, k := TaskFacts(cfg, s, t);
    ReopeningKeepsIndex(cfg, s, step.orderId, step.ids, step.at);
    var c := ReopenChangeOf(cfg, s, step.orderId, step.ids, step.at);
  }

  lemma NewTaskHasNoAttempts(cfg: Config, s: System, step: Step, t: TaskId)
    requires Inv(cfg, s) && Enabled(s, step) && t !in s.db.tasks && t in Next(cfg, s, step).db.tasks
    ensures Next(cfg, s, step).db.tasks[t].attempts == 0
  {
    var c := Classify(cfg, s, step);
  }

  /** `waited` is what a task with this budget should have waited. */
  predicate WaitedInFull(cfg: Config, tasks: map<TaskId, Task>, t: TaskId, waited: int) {
    if t in tasks
    then 0 <= tasks[t].attempts && waited == TotalWait(cfg, Min(tasks[t].attempts, cfg.maxAttempts - 1))
    else waited == 0
  }

  lemma BudgetFacts(cfg: Config, s: System, t: TaskId)
    requires Inv(cfg, s) && t in s.db.tasks
    ensures 0 <= s.db.tasks[t].attempts <= s.db.tasks[t].maxAttempts == cfg.maxAttempts
    ensures s.db.tasks[t].Active() ==> s.db.tasks[t].attempts < s.db.tasks[t].maxAttempts
  {
    var o, k := TaskFacts(cfg, s, t);
  }

  lemma RequeueAddsItsDelay(cfg: Config, s: System, step: Step, s': System, t: TaskId, waited: int)
    requires t in s.db.tasks && t in s'.db.tasks && WaitedInFull(cfg, s.db.tasks, t, waited)
    requires s.db.tasks[t].attempts <= s.db.tasks[t].maxAttempts == cfg.maxAttempts
    requires if HasStepWorker(step) then SpendsOne(cfg, s.db.tasks[t], s'.db.tasks[t], step.at)
             else s'.db.tasks[t].attempts == s.db.tasks[t].attempts
    ensures WaitedInFull(cfg, s'.db.tasks, t, waited + WaitAdded(s, step, s', t))
  {
  }

  lemma WaitsStep(cfg: Config, s: System, step: Step, t: TaskId, waited: int)
    requires Inv(cfg, s) && Enabled(s, step) && WaitedInFull(cfg, s.db.tasks, t, waited)
    ensures var s' := Next(cfg, s, step);
            WaitedInFull(cfg, s'.db.tasks, t,
                         if Reopens(s, step, t) then 0 else waited + WaitAdded(s, step, s', t))
  {
    if t in s.db.tasks {
      if Reopens(s, step, t) {
        ReopenedAttempts(cfg, s, step, t);
      } else {
        BudgetFacts(cfg, s, t);
        AttemptsAcross(cfg, s, step, t);
        RequeueAddsItsDelay(cfg, s, step, Next(cfg, s, step), t, waited);
      }
    } else if t in Next(cfg, s, step).db.tasks {
      NewTaskHasNoAttempts(cfg, s, step, t);
    }
  }

  /** The waits of the current retry budget are, at every moment of every run, exactly the
      first `attempts` backoffs; the failure that exhausts the budget adds none. */
  lemma {:induction false} WaitsFollowBackoff(cfg: Config, states: seq<System>, steps: seq<Step>, t: TaskId, j: nat)
    requires IsRun(cfg, states, steps) && Init(states[0]) && j <= |steps|
    ensures WaitedInFull(cfg, states[j].db.tasks, t, Waited(states, steps, t, j))
  {
    if j > 0 {
      var s, step := states[j - 1], steps[j - 1];
      WaitsFollowBackoff(cfg, states, steps, t, j - 1);
      RunKeepsInv(cfg, states, steps, j - 1);
      WaitsStep(cfg, s, step, t, Waited(states, steps, t, j - 1));
    }
  }

  /** So a task that used up its budget of m attempts waited base * (2^k - 1) for its first k
      waits and (m - 1 - k) * cap for the others; the total never exceeds what it would be
      with every wait doubled, or with every wait at the cap. */
  lemma ExhaustedTaskWaited(cfg: Config, states: seq<System>, steps: seq<Step>, t: TaskId, j: nat)
    requires IsRun(cfg, states, steps) && Init(states[0]) && j <= |steps|
    requires t in states[j].db.tasks && states[j].db.tasks[t].attempts == states[j].db.tasks[t].maxAttempts
    ensures states[j].db.tasks[t].maxAttempts == cfg.maxAttempts
    ensures var n, waited := cfg.maxAttempts - 1, Waited(states, steps, t, j);
            && waited == ClosedForm(cfg.retryBase, cfg.retryCap, n, UncappedWaits(cfg, n))
            && waited <= ClosedForm(cfg.retryBase, cfg.retryCap, n, n)
            && waited <= ClosedForm(cfg.retryBase, cfg.retryCap, n, 0)
  {
    RunKeepsInv(cfg, states, steps, j);
    BudgetFacts(cfg, states[j], t);
    WaitsFollowBackoff(cfg, states, steps, t, j);
    TotalWaitClosedForm(cfg, cfg.maxAttempts - 1);
    TotalWaitBounds(cfg, cfg.maxAttempts - 1);
  }
}
