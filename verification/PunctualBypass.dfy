/** Bounded bypass without assumptions on single stamps: under a strictly increasing clock, when
    every transaction is stamped as it runs. */
module PunctualBypass {
  import opened Rows
  import opened Settings
  import opened Transactions
  import opened Pipeline
  import opened PipelineInvariant
  import opened PipelineChanges
  import opened ClaimFairness

  predicate EndsTransaction(step: Step) {
    step.CommitFinalize? || step.StopWorker? || step.Abandon?
  }

  /** The step is stamped with the clock, and a finalizing transaction is not interleaved. */
  predicate Punctual(s: System, step: Step) {
    && (!step.CommitFinalize? ==> match StampOf(s, step)
                                  case Some(at) => at == s.now
                                  case None => true)
    && (forall w :: w in s.workers && s.workers[w].Finalizing? ==> EndsTransaction(step))
  }

  /** Every row was written before now, and before the open transaction, if there is one. */
  ghost predicate Stamped(s: System) {
    && (forall t :: t in s.db.tasks ==> s.db.tasks[t].updatedAt < s.now)
    && (forall w, t :: w in s.workers && s.workers[w].Finalizing? && t in s.db.tasks ==>
                         s.db.tasks[t].updatedAt < s.workers[w].at)
    && (forall v, w ::
          (v in s.workers && w in s.workers && s.workers[v].Finalizing? && s.workers[w].Finalizing?) ==> v == w)
  }

  /** Rows a step writes are stamped no later than the clock. */
  ghost predicate NotAhead(s: System, s': System) {
    forall t :: t in s'.db.tasks && (t !in s.db.tasks || s'.db.tasks[t] != s.db.tasks[t]) ==>
                  s'.db.tasks[t].updatedAt <= s.now
  }

  lemma WorkerNotAhead(cfg: Config, s: System, step: Step)
    requires Enabled(s, step) && HasStepWorker(step)
    ensures NotAhead(s, Next(cfg, s, step))
  {
    WorkerTxDb(cfg, s, step);
    WorkerTxStamped(cfg, s, step);
  }

  lemma ChangeNotAhead(cfg: Config, s: System, s': System, c: Change)
    requires ChangeOk(cfg, s, s', c) && !c.RowChange?
    requires c.NewOrderChange? || c.ReopenChange? || c.CancelChange? ==> c.at <= s.now
    requires c.HopChange? ==> s.workers[c.worker].at <= s.workers[c.worker].begun <= s.now
    ensures NotAhead(s, s')
  {
  }

  lemma StepNotAhead(cfg: Config, s: System, step: Step)
    requires Inv(cfg, s) && Enabled(s, step)
    ensures NotAhead(s, Next(cfg, s, step))
  {
    if HasStepWorker(step) {
      WorkerNotAhead(cfg, s, step);
    } else if !step.ClaimTask? {
      var c := Classify(cfg, s, step);
      if c.HopChange? {
        assert WorkerOk(cfg, s, s.workers[c.worker], c.worker);
      }
      ChangeNotAhead(cfg, s, Next(cfg, s, step), c);
    }
  }

  /** A transaction opens only in a load, stamped by it, and ends before anything else runs. */
  lemma OpenTransactions(cfg: Config, s: System, step: Step, w: WorkerId)
    requires Enabled(s, step) && Punctual(s, step) && Stamped(s)
    requires w in Next(cfg, s, step).workers && Next(cfg, s, step).workers[w].Finalizing?
    ensures Next(cfg, s, step).db == s.db
    ensures || (step.CallSucceeded? && step.worker == w && Next(cfg, s, step).workers[w].at == s.now
                && forall v :: v in s.workers ==> !s.workers[v].Finalizing?)
            || (w in s.workers && Next(cfg, s, step).workers[w] == s.workers[w])
  {
  }

  lemma StepKeepsStamped(cfg: Config, s: System, step: Step)
    requires 0 < cfg.tick && Inv(cfg, s) && Enabled(s, step) && Punctual(s, step) && Stamped(s)
    ensures Stamped(Next(cfg, s, step))
  {
    var s' := Next(cfg, s, step);
    StepNotAhead(cfg, s, step);
    forall t | t in s'.db.tasks
      ensures s'.db.tasks[t].updatedAt < s'.now
    {
      ClockMoves(cfg, s, step);
    }
    forall w | w in s'.workers && s'.workers[w].Finalizing?
      ensures forall t :: t in s'.db.tasks ==> s'.db.tasks[t].updatedAt < s'.workers[w].at
    {
      OpenTransactions(cfg, s, step, w);
    }
    forall v, w | v in s'.workers && w in s'.workers && s'.workers[v].Finalizing? && s'.workers[w].Finalizing?
      ensures v == w
    {
      OpenTransactions(cfg, s, step, v);
      OpenTransactions(cfg, s, step, w);
    }
  }

  lemma ClockMoves(cfg: Config, s: System, step: Step)
    requires Enabled(s, step)
    ensures s.now + cfg.tick <= Next(cfg, s, step).now
  {
  }

  lemma {:induction false} RunIsStamped(cfg: Config, states: seq<System>, steps: seq<Step>, i: nat)
    requires 0 < cfg.tick && IsRun(cfg, states, steps) && Init(states[0]) && i <= |steps|
    requires forall n :: 0 <= n < |steps| ==> Punctual(states[n], steps[n])
    ensures Stamped(states[i])
  {
    if i > 0 {
      RunIsStamped(cfg, states, steps, i - 1);
      RunKeepsInv(cfg, states, steps, i - 1);
      StepKeepsStamped(cfg, states[i - 1], steps[i - 1]);
    }
  }

  /** Nobody writes the row of t in the step, and at a claim it is eligible and unlocked. */
  ghost predicate Queues(cfg: Config, s: System, step: Step, t: TaskId)
    requires Enabled(s, step)
  {
    && t in s.db.tasks && t in Next(cfg, s, step).db.tasks
    && Next(cfg, s, step).db.tasks[t] == s.db.tasks[t]
    && (step.ClaimTask? ==> Eligible(s.db.tasks, Locked(s), s.now, t))
  }

  lemma PunctualMeansAfter(s: System, step: Step, t: TaskId)
    requires Enabled(s, step) && Punctual(s, step) && Stamped(s) && t in s.db.tasks
    ensures StampedAfter(s, step, s.db.tasks[t].updatedAt)
  {
  }

  /** Under a strictly increasing clock, when writes are stamped at their step, a task that
      waits is passed over at most as often as rows were ahead of it. */
  lemma PunctualBypass(cfg: Config, states: seq<System>, steps: seq<Step>, t: TaskId, i: nat, j: nat)
    requires 0 < cfg.tick && IsRun(cfg, states, steps) && Init(states[0]) && i <= j <= |steps|
    requires forall n :: 0 <= n < |steps| ==> Punctual(states[n], steps[n])
    requires t in states[i].db.tasks
    requires forall n :: i <= n < j ==> Queues(cfg, states[n], steps[n], t)
    ensures t in states[j].db.tasks
    ensures Claims(steps, i, j) + |Ahead(states[j], t)| <= |Ahead(states[i], t)|
  {
    RunKeepsInv(cfg, states, steps, 0);
    forall n | i <= n < j
      ensures WaitsThrough(cfg, states[n], steps[n], t)
    {
      RunIsStamped(cfg, states, steps, n);
      PunctualMeansAfter(states[n], steps[n], t);
    }
    BoundedBypass(cfg, states, steps, t, i, j);
  }
}
