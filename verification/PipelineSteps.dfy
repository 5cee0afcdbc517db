/** Every step keeps the invariant. */
module PipelineSteps {
  import opened Optional
  import opened OrderLifecycle
  import opened Rows
  import opened Settings
  import opened TransitionSpecs
  import opened Transactions
  import opened Pipeline
  import opened PipelineInvariant

  // ---------------------------------------------------------------- frames

  /** Nothing the invariant of order p reads has changed, except that time has passed. */
  ghost predicate SameOrder(s: System, s': System, p: OrderId)
    requires p in s.db.orders && p in s.work
  {
    && p in s'.db.orders && p in s'.work
    && s'.db.orders[p] == s.db.orders[p]
    && s'.work[p] == s.work[p]
    && Log(s', p) == Log(s, p)
    && s.now <= s'.now
    && forall k :: 0 <= k < |s.work[p]| ==>
         var t := s.work[p][k];
         && (t in s.db.tasks ==> t in s'.db.tasks && s'.db.tasks[t] == s.db.tasks[t])
         && (t in s.hist ==> t in s'.hist && s'.hist[t] == s.hist[t])
  }

  lemma TaskOkLater(cfg: Config, now: Time, later: Time, o: OrderId, k: nat, row: Task, h: History)
    requires k < HOPS && now <= later
    requires TaskOk(cfg, now, o, k, row, h)
    ensures TaskOk(cfg, later, o, k, row, h)
  {
  }

  lemma FrameOrder(cfg: Config, s: System, s': System, p: OrderId)
    requires p in s.db.orders && p in s.work
    requires OrderInv(cfg, s, p)
    requires SameOrder(s, s', p)
    ensures OrderInv(cfg, s', p)
  {
    forall k | 0 <= k < |s'.work[p]|
      ensures TaskAt(cfg, s', p, k)
    {
      assert TaskAt(cfg, s, p, k);
      TaskOkLater(cfg, s.now, s'.now, p, k, s.db.tasks[s.work[p][k]], s.hist[s.work[p][k]]);
    }
  }

  /** Facts about a task of a state that satisfies the invariant. */
  lemma TaskFacts(cfg: Config, s: System, t: TaskId) returns (o: OrderId, k: nat)
    requires Inv(cfg, s) && t in s.db.tasks
    ensures o == s.db.tasks[t].orderId && o in s.db.orders && o in s.work
    ensures k < |s.work[o]| <= HOPS && s.work[o][k] == t
    ensures |s.work[o]| == Min(Hops(s.db.orders[o], Log(s, o)) + 1, HOPS)
    ensures k <= Hops(s.db.orders[o], Log(s, o)) && k < |Log(s, o)|
    ensures t in s.hist && TaskOk(cfg, s.now, o, k, s.db.tasks[t], s.hist[t])
    ensures s.db.tasks[t].createdAt == Log(s, o)[k].occurredAt
    ensures StatusOk(s.db.orders[o].state, Hops(s.db.orders[o], Log(s, o)), k, s.db.tasks[t].status)
    ensures LogOk(cfg, s.now, o, s.db.orders[o], Log(s, o))
  {
    assert Indexed(s, t);
    o := s.db.tasks[t].orderId;
    k := StageIndex(s.db.tasks[t].target.value) - 1;
    assert OrderInv(cfg, s, o);
    assert TaskAt(cfg, s, o, k);
  }

  /** Only the current stage of an order has a task that is not completed. */
  lemma OpenTaskIsCurrent(cfg: Config, s: System, t: TaskId)
    requires Inv(cfg, s) && t in s.db.tasks && s.db.tasks[t].status != Completed
    ensures var o := s.db.tasks[t].orderId;
            && o in s.db.orders && o in s.work
            && var h := Hops(s.db.orders[o], Log(s, o));
            0 <= h < HOPS && |s.work[o]| == h + 1 && s.work[o][h] == t
  {
    var o, k := TaskFacts(cfg, s, t);
  }

  // ---------------------------------------------------------------- one row rewritten

  /** The state after one worker transaction that rewrote one task row. */
  function Rewritten(cfg: Config, s: System, w: WorkerId, p: Phase, t: TaskId, row: Task, h: History): System {
    Advance(cfg, Moved(s, w, p).(db := WithTask(s.db, t, row), hist := s.hist[t := h]))
  }

  /** The new row and history fit the task's place in its order. */
  ghost predicate RowFits(cfg: Config, s: System, t: TaskId, o: OrderId, k: nat, row: Task, h: History)
    requires t in s.db.tasks && o in s.db.orders && k < HOPS
  {
    && row.createdAt == s.db.tasks[t].createdAt
    && TaskOk(cfg, s.now + cfg.tick, o, k, row, h)
    && StatusOk(s.db.orders[o].state, Hops(s.db.orders[o], Log(s, o)), k, row.status)
  }

  /** No other worker can be relying on the row. */
  ghost predicate RowFenced(s: System, w: WorkerId, t: TaskId, row: Task, h: History)
    requires t in s.db.tasks && t in s.hist
  {
    && h.epoch == s.hist[t].epoch + 1
    && row.orderId == s.db.tasks[t].orderId
    && row.taskType == s.db.tasks[t].taskType
    && row.target == s.db.tasks[t].target
    && (row.lockedBy.Some? ==> row.lockedBy == Some(w))
    && (forall v :: v in s.workers && v != w && s.workers[v].Finalizing? ==> s.workers[v].task.id != t)
  }

  lemma RewriteOtherOrder(cfg: Config, s: System, w: WorkerId, p: Phase, t: TaskId, row: Task, h: History, q: OrderId)
    requires t in s.db.tasks && q in s.db.orders && q in s.work
    requires OrderInv(cfg, s, q)
    requires t !in s.work[q]
    ensures OrderInv(cfg, Rewritten(cfg, s, w, p, t, row, h), q)
  {
    var s' := Rewritten(cfg, s, w, p, t, row, h);
    assert SameOrder(s, s', q);
    FrameOrder(cfg, s, s', q);
  }

  lemma RewriteOwnOrder(cfg: Config, s: System, w: WorkerId, p: Phase, t: TaskId, row: Task, h: History, o: OrderId,
                        k: nat)
    requires t in s.db.tasks && o in s.db.orders && o in s.work
    requires OrderInv(cfg, s, o)
    requires k < |s.work[o]| && s.work[o][k] == t
    requires forall i :: 0 <= i < |s.work[o]| && i != k ==> s.work[o][i] != t
    requires RowFits(cfg, s, t, o, k, row, h)
    ensures OrderInv(cfg, Rewritten(cfg, s, w, p, t, row, h), o)
  {
    var s' := Rewritten(cfg, s, w, p, t, row, h);
    assert Log(s', o) == Log(s, o);
    forall i | 0 <= i < |s'.work[o]|
      ensures TaskAt(cfg, s', o, i)
    {
      assert TaskAt(cfg, s, o, i);
      if i != k {
        TaskOkLater(cfg, s.now, s'.now, o, i, s.db.tasks[s.work[o][i]], s.hist[s.work[o][i]]);
      }
    }
  }

  lemma RewriteStructure(cfg: Config, s: System, w: WorkerId, p: Phase, t: TaskId, row: Task, h: History)
    requires StructureOk(s) && t in s.db.tasks && t in s.hist
    requires RowFenced(s, w, t, row, h)
    ensures StructureOk(Rewritten(cfg, s, w, p, t, row, h))
  {
    var s' := Rewritten(cfg, s, w, p, t, row, h);
    forall u | u in s'.db.tasks
      ensures Indexed(s', u)
    {
      assert Indexed(s, u);
    }
  }

  lemma RewriteWorker(cfg: Config, s: System, w: WorkerId, p: Phase, t: TaskId, row: Task, h: History, v: WorkerId)
    requires t in s.db.tasks && t in s.hist && RowFenced(s, w, t, row, h)
    requires v in s.workers && v != w && WorkerOk(cfg, s, s.workers[v], v)
    ensures WorkerOk(cfg, Rewritten(cfg, s, w, p, t, row, h), s.workers[v], v)
  {
    var q := s.workers[v];
    if !q.Idle? && q.task.id == t {
      assert row.lockedBy != Some(v);
    }
  }

  /** A task id appears once in the whole work history. */
  lemma OnlyPosition(cfg: Config, s: System, t: TaskId, q: OrderId, i: nat)
    requires StructureOk(s) && q in s.db.orders && q in s.work
    requires WorkOk(cfg, s, q) && i < |s.work[q]| && s.work[q][i] == t
    ensures t in s.db.tasks && s.db.tasks[t].orderId == q && s.db.tasks[t].target == Some(Stage(i + 1))
  {
    assert TaskAt(cfg, s, q, i);
  }

  lemma RewriteOrder(cfg: Config, s: System, w: WorkerId, p: Phase, t: TaskId, row: Task, h: History,
                     o: OrderId, k: nat, q: OrderId)
    requires StructureOk(s) && t in s.db.tasks && t in s.hist
    requires o in s.work && o in s.db.orders && OrderInv(cfg, s, o)
    requires q in s.work && q in s.db.orders && OrderInv(cfg, s, q)
    requires k < |s.work[o]| <= HOPS && s.work[o][k] == t
    requires RowFits(cfg, s, t, o, k, row, h)
    ensures OrderInv(cfg, Rewritten(cfg, s, w, p, t, row, h), q)
  {
    OnlyPosition(cfg, s, t, o, k);
    forall i | 0 <= i < |s.work[q]| && s.work[q][i] == t
      ensures q == o && i == k
    {
      OnlyPosition(cfg, s, t, q, i);
      assert StageIndex(Stage(i + 1)) == i + 1;
    }
    if q == o {
      RewriteOwnOrder(cfg, s, w, p, t, row, h, o, k);
    } else {
      RewriteOtherOrder(cfg, s, w, p, t, row, h, q);
    }
  }

  lemma RewriteKeepsInv(cfg: Config, s: System, w: WorkerId, p: Phase, t: TaskId, row: Task, h: History, o: OrderId,
                        k: nat)
    requires Inv(cfg, s) && t in s.db.tasks && t in s.hist
    requires o in s.work && o in s.db.orders && k < |s.work[o]| <= HOPS && s.work[o][k] == t
    requires RowFits(cfg, s, t, o, k, row, h) && RowFenced(s, w, t, row, h)
    requires WorkerOk(cfg, Rewritten(cfg, s, w, p, t, row, h), p, w)
    ensures Inv(cfg, Rewritten(cfg, s, w, p, t, row, h))
  {
    var s' := Rewritten(cfg, s, w, p, t, row, h);
    RewriteStructure(cfg, s, w, p, t, row, h);
    forall q | q in s'.db.orders
      ensures OrderInv(cfg, s', q)
    {
      assert OrderInv(cfg, s, q) && OrderInv(cfg, s, o);
      RewriteOrder(cfg, s, w, p, t, row, h, o, k, q);
    }
    forall v | v in s'.workers
      ensures WorkerOk(cfg, s', s'.workers[v], v)
    {
      if v != w {
        assert WorkerOk(cfg, s, s.workers[v], v);
        RewriteWorker(cfg, s, w, p, t, row, h, v);
      }
    }
  }

  // ---------------------------------------------------------------- steps that write no table

  /** Steps that leave the tables alone keep the invariant when the workers they move do. */
  lemma QuietStep(cfg: Config, s: System, s': System)
    requires Inv(cfg, s)
    requires s'.db == s.db && s'.work == s.work && s'.hist == s.hist && s.now <= s'.now
    requires forall w :: w in s'.workers ==>
               (w in s.workers && s'.workers[w] == s.workers[w]) || WorkerOk(cfg, s', s'.workers[w], w)
    ensures Inv(cfg, s')
  {
    forall q | q in s'.db.orders
      ensures OrderInv(cfg, s', q)
    {
      assert OrderInv(cfg, s, q);
      assert Log(s', q) == Log(s, q);
      FrameOrder(cfg, s, s', q);
    }
    forall t | t in s'.db.tasks
      ensures Indexed(s', t)
    {
      assert Indexed(s, t);
    }
    forall w | w in s'.workers
      ensures WorkerOk(cfg, s', s'.workers[w], w)
    {
      if w in s.workers && s'.workers[w] == s.workers[w] {
        assert WorkerOk(cfg, s, s.workers[w], w);
      }
    }
  }

  // ---------------------------------------------------------------- claim

  function BumpedHistory(h: History): History {
    h.(epoch := h.epoch + 1)
  }

  lemma ClaimedRowFits(cfg: Config, s: System, w: WorkerId, t: TaskId, o: OrderId, k: nat)
    requires t in s.db.tasks && t in s.hist && o in s.db.orders && k < HOPS
    requires Claimable(s.db.tasks[t], s.now)
    requires TaskOk(cfg, s.now, o, k, s.db.tasks[t], s.hist[t])
    requires StatusOk(s.db.orders[o].state, Hops(s.db.orders[o], Log(s, o)), k, s.db.tasks[t].status)
    ensures RowFits(cfg, s, t, o, k, ClaimedRow(cfg, s.db.tasks[t], w, s.now), BumpedHistory(s.hist[t]))
  {
  }

  function ClaimPhase(s: System, t: TaskId): Phase
    requires t in s.db.tasks && t in s.hist
  {
    var row := s.db.tasks[t];
    Claimed(ClaimedTask(t, row.orderId, row.taskType, row.target), s.now, s.hist[t].epoch + 1)
  }

  lemma ClaimIsRewrite(cfg: Config, s: System, w: WorkerId, t: TaskId)
    requires t in s.db.tasks && t in s.hist
    ensures Advance(cfg, AfterClaim(cfg, s, w, t)) ==
            Rewritten(cfg, s, w, ClaimPhase(s, t), t, ClaimedRow(cfg, s.db.tasks[t], w, s.now),
                      BumpedHistory(s.hist[t]))
  {
  }

  lemma ClaimKeepsInv(cfg: Config, s: System, w: WorkerId, t: TaskId)
    requires Inv(cfg, s) && Enabled(s, ClaimTask(w, t))
    ensures Inv(cfg, Advance(cfg, AfterClaim(cfg, s, w, t)))
  {
    var o, k := TaskFacts(cfg, s, t);
    ClaimIsRewrite(cfg, s, w, t);
    ClaimedRowFits(cfg, s, w, t, o, k);
    forall v | v in s.workers && s.workers[v].Finalizing?
      ensures s.workers[v].task.id != t
    {
      assert s.workers[v].task.id in Locked(s);
    }
    RewriteKeepsInv(cfg, s, w, ClaimPhase(s, t), t, ClaimedRow(cfg, s.db.tasks[t], w, s.now),
                    BumpedHistory(s.hist[t]), o, k);
  }

  // ---------------------------------------------------------------- owned tasks

  /** What a worker whose ownership check passes knows: its task is the current stage of an
      order that is in that stage or cancelled, and its handler is the one for that stage. */
  lemma OwnedTask(cfg: Config, s: System, w: WorkerId) returns (o: OrderId, k: nat)
    requires Inv(cfg, s) && HasTask(s, w) && Owned(s.db, s.workers[w].task.id, w)
    ensures var t := s.workers[w].task.id;
            && t in s.db.tasks && t in s.hist && s.db.tasks[t].status == Running
            && o == s.db.tasks[t].orderId && o in s.db.orders && o in s.work
            && k < |s.work[o]| <= HOPS && s.work[o][k] == t
            && k == Hops(s.db.orders[o], Log(s, o)) && k < |Log(s, o)|
            && s.db.tasks[t].createdAt == Log(s, o)[k].occurredAt
            && (s.db.orders[o].state == Stage(k) || s.db.orders[o].state == Cancelled)
            && LogOk(cfg, s.now, o, s.db.orders[o], Log(s, o))
            && TaskOk(cfg, s.now, o, k, s.db.tasks[t], s.hist[t])
            && HandlerOf(s.workers[w].task) == Some(StageHandler(k))
            && SpecOf(StageHandler(k)).source == Stage(k)
            && OwnedJoined(s.db, t, w)
  {
    assert WorkerOk(cfg, s, s.workers[w], w);
    o, k := TaskFacts(cfg, s, s.workers[w].task.id);
    SpecTableFollowsLifecycle(cfg, k, s.now);
  }

  /** The shared checks stop a worker exactly when it lost the task or the order is cancelled;
      completing a task as stale never happens. */
  lemma SettleOutcome(cfg: Config, s: System, w: WorkerId, source: OrderState, at: Time)
    requires Inv(cfg, s) && HasTask(s, w) && HandlerOf(s.workers[w].task).Some?
    requires source == SpecOf(HandlerOf(s.workers[w].task).value).source
    ensures var t := s.workers[w].task.id;
            match Settle(s.db, s.now, t, w, source, at)
            case None =>
              && Owned(s.db, t, w) && OwnedJoined(s.db, t, w)
              && OrderOf(s.db, t).state == source && !IsTerminal(source)
            case Some(tx) =>
              if Owned(s.db, t, w) then
                && OwnedJoined(s.db, t, w) && OrderOf(s.db, t).state == Cancelled
                && tx == TxResult(WithTask(s.db, t, CompletedRow(s.db.tasks[t], at, s.now)), TerminalNoop)
              else
                tx.db == s.db && (tx.action == NotRunning || tx.action == LostOwnership)
  {
    var t := s.workers[w].task.id;
    assert WorkerOk(cfg, s, s.workers[w], w);
    var o', k' := TaskFacts(cfg, s, t);
    assert JoinedTask(s.db, t) == FindTask(s.db, t);
    if Owned(s.db, t, w) {
      var o, k := OwnedTask(cfg, s, w);
    }
  }

  /** A worker transaction that rewrote the worker's own row and released the lease. */
  lemma SettledRewrite(cfg: Config, s: System, w: WorkerId, tx: TxResult, row: Task, o: OrderId, k: nat)
    requires Inv(cfg, s) && HasTask(s, w)
    requires s.workers[w].Finalizing? || s.workers[w].task.id !in Locked(s)
    requires Owned(s.db, s.workers[w].task.id, w)
    requires var t := s.workers[w].task.id;
             && t in s.db.tasks && t in s.hist
             && o in s.work && o in s.db.orders && k < |s.work[o]| <= HOPS && s.work[o][k] == t
             && tx.db == WithTask(s.db, t, row)
             && HistoryAfter(s.hist[t], tx.action).epoch == s.hist[t].epoch + 1
             && RowFits(cfg, s, t, o, k, row, HistoryAfter(s.hist[t], tx.action))
             && row.lockedBy == None && row.orderId == s.db.tasks[t].orderId
             && row.taskType == s.db.tasks[t].taskType && row.target == s.db.tasks[t].target
    ensures Inv(cfg, Advance(cfg, SettledBy(s, w, s.workers[w].task.id, tx)))
  {
    var t := s.workers[w].task.id;
    var h' := HistoryAfter(s.hist[t], tx.action);
    assert Advance(cfg, SettledBy(s, w, t, tx)) == Rewritten(cfg, s, w, Idle, t, row, h');
    forall v | v in s.workers && v != w && s.workers[v].Finalizing?
      ensures s.workers[v].task.id != t
    {
      assert WorkerOk(cfg, s, s.workers[v], v);
      assert s.workers[v].task.id in Locked(s);
    }
    RewriteKeepsInv(cfg, s, w, Idle, t, row, h', o, k);
  }

  /** A worker that found it no longer owns its task. */
  lemma SettledSkip(cfg: Config, s: System, w: WorkerId, tx: TxResult)
    requires Inv(cfg, s) && HasTask(s, w)
    requires tx.db == s.db
    requires tx.action == MissingTask || tx.action == NotRunning || tx.action == LostOwnership
    ensures Inv(cfg, Advance(cfg, SettledBy(s, w, s.workers[w].task.id, tx)))
  {
    var s' := Advance(cfg, SettledBy(s, w, s.workers[w].task.id, tx));
    assert s'.hist == s.hist;
    QuietStep(cfg, s, s');
  }

  lemma CompletedRowFits(cfg: Config, s: System, t: TaskId, at: Time, o: OrderId, k: nat)
    requires t in s.db.tasks && t in s.hist && o in s.db.orders && k < HOPS
    requires s.db.tasks[t].status == Running && TaskOk(cfg, s.now, o, k, s.db.tasks[t], s.hist[t])
    requires s.db.orders[o].state == Cancelled
    ensures RowFits(cfg, s, t, o, k, CompletedRow(s.db.tasks[t], at, s.now), BumpedHistory(s.hist[t]))
  {
  }

  lemma TerminalNoopKeepsInv(cfg: Config, s: System, w: WorkerId, at: Time)
    requires Inv(cfg, s) && HasTask(s, w) && Owned(s.db, s.workers[w].task.id, w)
    requires s.workers[w].task.id !in Locked(s)
    requires OwnedJoined(s.db, s.workers[w].task.id, w) && OrderOf(s.db, s.workers[w].task.id).state == Cancelled
    ensures var t := s.workers[w].task.id;
            Inv(cfg, Advance(cfg, SettledBy(s, w, t, TxResult(WithTask(s.db, t, CompletedRow(s.db.tasks[t], at, s.now)),
                                                             TerminalNoop))))
  {
    var t := s.workers[w].task.id;
    var o, k := OwnedTask(cfg, s, w);
    CompletedRowFits(cfg, s, t, at, o, k);
    SettledRewrite(cfg, s, w, TxResult(WithTask(s.db, t, CompletedRow(s.db.tasks[t], at, s.now)), TerminalNoop),
                   CompletedRow(s.db.tasks[t], at, s.now), o, k);
  }

  /** The shared checks, when they stop a worker, keep the invariant. */
  lemma SettleKeepsInv(cfg: Config, s: System, w: WorkerId, source: OrderState, at: Time)
    requires Inv(cfg, s) && HasTask(s, w) && HandlerOf(s.workers[w].task).Some?
    requires source == SpecOf(HandlerOf(s.workers[w].task).value).source
    requires s.workers[w].task.id !in Locked(s)
    requires Settle(s.db, s.now, s.workers[w].task.id, w, source, at).Some?
    ensures Inv(cfg, Advance(cfg, SettledBy(s, w, s.workers[w].task.id,
                                            Settle(s.db, s.now, s.workers[w].task.id, w, source, at).value)))
  {
    var t := s.workers[w].task.id;
    var tx := Settle(s.db, s.now, t, w, source, at).value;
    SettleOutcome(cfg, s, w, source, at);
    if Owned(s.db, t, w) {
      TerminalNoopKeepsInv(cfg, s, w, at);
    } else {
      SettledSkip(cfg, s, w, tx);
    }
  }

  lemma RetryRowFits(cfg: Config, s: System, t: TaskId, error: string, at: Time, o: OrderId, k: nat)
    requires t in s.db.tasks && t in s.hist && o in s.db.orders && k < HOPS
    requires s.db.tasks[t].status == Running
    requires TaskOk(cfg, s.now, o, k, s.db.tasks[t], s.hist[t])
    requires k == Hops(s.db.orders[o], Log(s, o))
    ensures var tx := RetryOrFail(cfg, s.db, s.now, t, error, at);
            && t in tx.db.tasks && tx.db == WithTask(s.db, t, tx.db.tasks[t])
            && RowFits(cfg, s, t, o, k, tx.db.tasks[t], HistoryAfter(s.hist[t], tx.action))
            && tx.db.tasks[t].lockedBy == None
  {
  }

  lemma RetryOrFailKeepsInv(cfg: Config, s: System, w: WorkerId, error: string, at: Time)
    requires Inv(cfg, s) && HasTask(s, w) && s.workers[w].task.id !in Locked(s)
    requires Owned(s.db, s.workers[w].task.id, w)
    ensures Inv(cfg, Advance(cfg, SettledBy(s, w, s.workers[w].task.id,
                                            RetryOrFail(cfg, s.db, s.now, s.workers[w].task.id, error, at))))
  {
    var t := s.workers[w].task.id;
    var o, k := OwnedTask(cfg, s, w);
    var tx := RetryOrFail(cfg, s.db, s.now, t, error, at);
    RetryRowFits(cfg, s, t, error, at, o, k);
    SettledRewrite(cfg, s, w, tx, tx.db.tasks[t], o, k);
  }

  // ---------------------------------------------------------------- prepare

  /** A prepared check task never takes the missing-data branches: its deadline, its source
      event and (for delivery) its courier are there. */
  lemma PrepareOutcome(cfg: Config, s: System, w: WorkerId, at: Time)
    requires Inv(cfg, s) && HasTask(s, w) && HandlerOf(s.workers[w].task).Some?
    ensures var t, handler := s.workers[w].task.id, HandlerOf(s.workers[w].task).value;
            match Settle(s.db, s.now, t, w, SpecOf(handler).source, at)
            case Some(tx) => Prepare(cfg, s.db, s.now, t, w, handler, at) == Stop(tx)
            case None =>
              && t in s.db.tasks
              && Prepare(cfg, s.db, s.now, t, w, handler, at).Proceed?
              && Prepare(cfg, s.db, s.now, t, w, handler, at).call.startedAt == s.db.tasks[t].createdAt
  {
    var t, handler := s.workers[w].task.id, HandlerOf(s.workers[w].task).value;
    SettleOutcome(cfg, s, w, SpecOf(handler).source, at);
    if Settle(s.db, s.now, t, w, SpecOf(handler).source, at) == None {
      var o, k := OwnedTask(cfg, s, w);
      SourceEventIsCurrentHop(cfg, s, o, k, handler);
    }
  }

  lemma HopMatches(o: OrderId, k: nat, i: nat, e: Event)
    requires i <= k < HOPS
    requires if i == 0 then e == CreationEvent(o, e.occurredAt) else IsHop(e, o, i)
    ensures Matches(SourceQuery(o, StageHandler(k)), e) <==> i == k
  {
  }

  lemma SourceQueryIsLifecycle(o: OrderId, k: nat, e: Event)
    requires k < HOPS && Matches(SourceQuery(o, StageHandler(k)), e)
    ensures Matches(LifecycleOf(o), e)
  {
  }

  /** The event query of a handler returns exactly the event that began the current stage. */
  lemma SourceEventIsCurrentHop(cfg: Config, s: System, o: OrderId, k: nat, handler: Handler)
    requires o in s.db.orders && k < HOPS && handler == StageHandler(k)
    requires LogOk(cfg, s.now, o, s.db.orders[o], Log(s, o))
    requires k == Hops(s.db.orders[o], Log(s, o)) && s.db.orders[o].state == Stage(k)
    ensures Select(s.db.events, SourceQuery(o, handler)) == [Log(s, o)[k]]
    ensures LatestOccurrence(Select(s.db.events, SourceQuery(o, handler))) == Some(Log(s, o)[k].occurredAt)
  {
    var log, q := Log(s, o), SourceQuery(o, StageHandler(k));
    forall e | Matches(q, e)
      ensures Matches(LifecycleOf(o), e)
    {
      SourceQueryIsLifecycle(o, k, e);
    }
    SelectWithin(s.db.events, LifecycleOf(o), q);
    forall i | 0 <= i <= k
      ensures Matches(q, log[i]) <==> i == k
    {
      assert i > 0 ==> IsHop(log[i], o, i);
      HopMatches(o, k, i, log[i]);
    }
    SelectOne(log, q, k);
  }

  lemma PrepareKeepsInv(cfg: Config, s: System, w: WorkerId, at: Time)
    requires Inv(cfg, s) && Enabled(s, PrepareCall(w, at))
    ensures Inv(cfg, Advance(cfg, AfterPrepare(cfg, s, w, at)))
  {
    var p, handler := s.workers[w], HandlerOf(s.workers[w].task).value;
    PrepareOutcome(cfg, s, w, at);
    if Settle(s.db, s.now, p.task.id, w, SpecOf(handler).source, at).Some? {
      SettleKeepsInv(cfg, s, w, SpecOf(handler).source, at);
    } else {
      var s' := Advance(cfg, AfterPrepare(cfg, s, w, at));
      assert WorkerOk(cfg, s, p, w);
      QuietStep(cfg, s, s');
    }
  }

  // ---------------------------------------------------------------- after the call

  lemma CallFailedKeepsInv(cfg: Config, s: System, w: WorkerId, error: string, at: Time)
    requires Inv(cfg, s) && Enabled(s, CallFailed(w, error, at))
    ensures Inv(cfg, Next(cfg, s, CallFailed(w, error, at)))
  {
    var t, handler := s.workers[w].task.id, HandlerOf(s.workers[w].task).value;
    var tx := FinishError(cfg, s.db, s.now, t, w, handler, error, at);
    assert Next(cfg, s, CallFailed(w, error, at)) == Advance(cfg, SettledBy(s, w, t, tx));
    assert WorkerOk(cfg, s, s.workers[w], w);
    SettleOutcome(cfg, s, w, SpecOf(handler).source, at);
    if handler.Polls() && Settle(s.db, s.now, t, w, SpecOf(handler).source, at).Some? {
      SettleKeepsInv(cfg, s, w, SpecOf(handler).source, at);
    } else if Owned(s.db, t, w) {
      RetryOrFailKeepsInv(cfg, s, w, error, at);
    } else {
      SettledSkip(cfg, s, w, tx);
    }
  }

  /** The rows a "not yet" answer writes. */
  lemma NotYetRowFits(cfg: Config, s: System, w: WorkerId, hint: Option<int>, at: Time, o: OrderId, k: nat)
    requires HasTask(s, w) && k < HOPS && HandlerOf(s.workers[w].task) == Some(StageHandler(k))
    requires var t := s.workers[w].task.id;
             && t in s.db.tasks && t in s.hist && o in s.db.orders
             && s.db.tasks[t].status == Running
             && TaskOk(cfg, s.now, o, k, s.db.tasks[t], s.hist[t])
             && k == Hops(s.db.orders[o], Log(s, o))
             && Settle(s.db, s.now, t, w, SpecOf(StageHandler(k)).source, at) == None
    ensures var t := s.workers[w].task.id;
            var tx := FinishNotYet(cfg, s.db, s.now, t, w, StageHandler(k), hint, at);
            && t in tx.db.tasks && tx.db == WithTask(s.db, t, tx.db.tasks[t])
            && (tx.action == PollScheduled || tx.action == TimedOut)
            && RowFits(cfg, s, t, o, k, tx.db.tasks[t], HistoryAfter(s.hist[t], tx.action))
            && tx.db.tasks[t].lockedBy == None
  {
  }

  lemma NotYetKeepsInv(cfg: Config, s: System, w: WorkerId, hint: Option<int>, at: Time)
    requires Inv(cfg, s) && CanFinish(s, w, at)
    ensures Inv(cfg, Advance(cfg, SettledBy(s, w, s.workers[w].task.id,
                                            FinishNotYet(cfg, s.db, s.now, s.workers[w].task.id, w,
                                                         HandlerOf(s.workers[w].task).value, hint, at))))
  {
    var t, handler := s.workers[w].task.id, HandlerOf(s.workers[w].task).value;
    SettleOutcome(cfg, s, w, SpecOf(handler).source, at);
    if Settle(s.db, s.now, t, w, SpecOf(handler).source, at).Some? {
      SettleKeepsInv(cfg, s, w, SpecOf(handler).source, at);
    } else {
      var o, k := OwnedTask(cfg, s, w);
      var tx := FinishNotYet(cfg, s.db, s.now, t, w, handler, hint, at);
      NotYetRowFits(cfg, s, w, hint, at, o, k);
      SettledRewrite(cfg, s, w, tx, tx.db.tasks[t], o, k);
    }
  }

  lemma CallNotYetKeepsInv(cfg: Config, s: System, w: WorkerId, answeredAt: Time, hint: Option<int>, at: Time)
    requires Inv(cfg, s) && Enabled(s, CallNotYet(w, answeredAt, hint, at))
    ensures Inv(cfg, Next(cfg, s, CallNotYet(w, answeredAt, hint, at)))
  {
    NotYetKeepsInv(cfg, s, w, hint, at);
  }

  lemma ReleaseKeepsInv(cfg: Config, s: System, w: WorkerId, at: Time)
    requires Inv(cfg, s) && Enabled(s, ReleaseTask(w, at))
    ensures Inv(cfg, Next(cfg, s, ReleaseTask(w, at)))
  {
    var t := s.workers[w].task.id;
    var tx := ReleaseUnsupported(cfg, s.db, s.now, t, w, at);
    if Owned(s.db, t, w) {
      var o, k := OwnedTask(cfg, s, w);
    } else {
      SettledSkip(cfg, s, w, tx);
    }
  }

  lemma LoadKeepsInv(cfg: Config, s: System, w: WorkerId, courier: Option<string>, at: Time)
    requires Inv(cfg, s) && Enabled(s, CallSucceeded(w, courier, at))
    ensures Inv(cfg, Advance(cfg, AfterLoad(s, w, courier, at)))
  {
    var p, source := s.workers[w], SpecOf(HandlerOf(s.workers[w].task).value).source;
    SettleOutcome(cfg, s, w, source, at);
    if Settle(s.db, s.now, p.task.id, w, source, at).Some? {
      SettleKeepsInv(cfg, s, w, source, at);
    } else {
      var s' := Advance(cfg, AfterLoad(s, w, courier, at));
      assert WorkerOk(cfg, s, p, w);
      QuietStep(cfg, s, s');
    }
  }
}
