/** Idempotent intake: however create requests interleave with everything else the pipeline
    does, their answers are those of a map that keeps the first request of every key. */
module Intake {
  import opened Optional
  import opened OrderLifecycle
  import opened Rows
  import opened Settings
  import opened Transactions
  import opened Pipeline
  import opened PipelineInvariant
  import opened PipelineChanges
  import opened PipelineTheorems
  import opened EventLog

  /** The order a key was first used for, and the body it was used with. */
  datatype Entry = Entry(orderId: OrderId, restaurantRef: string, customerRef: Option<string>)

  type Book = map<string, Entry>

  predicate SameRequest(entry: Entry, req: OrderRequest) {
    entry.restaurantRef == req.restaurantRef && entry.customerRef == req.customerRef
  }

  /** The reference answer, from the first writers alone. */
  function Answer(book: Book, req: OrderRequest, newId: OrderId): CreateOutcome {
    if req.key !in book then Accepted(newId)
    else if SameRequest(book[req.key], req) then Reused(book[req.key].orderId)
    else Conflict(book[req.key].orderId)
  }

  /** First writer wins: a later request never replaces an entry. */
  function Entered(book: Book, req: OrderRequest, o: OrderId): Book {
    if req.key in book then book else book[req.key := Entry(o, req.restaurantRef, req.customerRef)]
  }

  /** The book a run of steps writes. */
  function FirstWriters(steps: seq<Step>): Book {
    if steps == [] then map[]
    else
      var earlier, last := FirstWriters(steps[..|steps| - 1]), steps[|steps| - 1];
      if last.CreateOrder? then Entered(earlier, last.req, last.orderId) else earlier
  }

  /** The orders table holds exactly the entries of the book. */
  ghost predicate Keeps(orders: map<OrderId, Order>, book: Book) {
    && (forall o :: o in orders ==>
          && orders[o].idempotencyKey in book
          && book[orders[o].idempotencyKey] == Entry(o, orders[o].restaurantRef, orders[o].customerRef))
    && (forall key :: key in book ==> HasKey(orders, book[key].orderId, key))
  }

  /** On a table that keeps a book, create_or_get_order answers as the book does. */
  lemma AnswersByBook(cfg: Config, db: Db, book: Book, req: OrderRequest, o: OrderId, t: TaskId, at: Time)
    requires Keeps(db.orders, book)
    requires !ActiveKey(db.tasks, DedupeKey(o, AdvanceState, Confirmed))
    ensures CreateOrGet(cfg, db, req, o, t, at).outcome == Answer(book, req, o)
    ensures !Answer(book, req, o).Accepted? ==> CreateOrGet(cfg, db, req, o, t, at).db == db
  {
    if req.key in book {
      assert HasKey(db.orders, book[req.key].orderId, req.key);
    }
    if KeyTaken(db.orders, req.key) {
      var existing :| existing in db.orders && HasKey(db.orders, existing, req.key);
      assert book[req.key].orderId == existing;
    }
  }

  /** The same orders with the same keys and bodies. */
  ghost predicate SameIdentities(orders: map<OrderId, Order>, orders': map<OrderId, Order>) {
    && orders'.Keys == orders.Keys
    && forall o :: o in orders ==>
         && orders'[o].idempotencyKey == orders[o].idempotencyKey
         && orders'[o].restaurantRef == orders[o].restaurantRef
         && orders'[o].customerRef == orders[o].customerRef
  }

  /** No step other than an accepted intake adds an order or touches a key or a body. */
  lemma IdentitiesAcross(cfg: Config, s: System, s': System, c: Change)
    requires ChangeOk(cfg, s, s', c) && !c.NewOrderChange?
    ensures SameIdentities(s.db.orders, s'.db.orders)
  {
  }

  lemma SameIdentitiesKeepBook(orders: map<OrderId, Order>, orders': map<OrderId, Order>, book: Book)
    requires SameIdentities(orders, orders') && Keeps(orders, book)
    ensures Keeps(orders', book)
  {
  }

  lemma IntakeKeepsBook(cfg: Config, db: Db, book: Book, req: OrderRequest, o: OrderId, t: TaskId, at: Time)
    requires Keeps(db.orders, book) && o !in db.orders
    requires !ActiveKey(db.tasks, DedupeKey(o, AdvanceState, Confirmed))
    ensures Keeps(CreateOrGet(cfg, db, req, o, t, at).db.orders, Entered(book, req, o))
  {
    AnswersByBook(cfg, db, book, req, o, t, at);
    if req.key !in book {
      assert CreateOrGet(cfg, db, req, o, t, at).db == WithAccepted(cfg, db, req, o, t, at);
    }
  }

  lemma OthersKeepBook(cfg: Config, s: System, step: Step, book: Book)
    requires Inv(cfg, s) && Enabled(s, step) && Keeps(s.db.orders, book) && !step.CreateOrder?
    ensures Keeps(Next(cfg, s, step).db.orders, book)
  {
    var s' := Next(cfg, s, step);
    var c := Classify(cfg, s, step);
    IdentitiesAcross(cfg, s, s', c);
    SameIdentitiesKeepBook(s.db.orders, s'.db.orders, book);
  }

  lemma StepKeepsBook(cfg: Config, s: System, step: Step, book: Book)
    requires Inv(cfg, s) && Enabled(s, step) && Keeps(s.db.orders, book)
    ensures Keeps(Next(cfg, s, step).db.orders,
                  if step.CreateOrder? then Entered(book, step.req, step.orderId) else book)
  {
    if step.CreateOrder? {
      NoActiveFirstTask(cfg, s, step.orderId);
      IntakeKeepsBook(cfg, s.db, book, step.req, step.orderId, step.taskId, step.at);
    } else {
      OthersKeepBook(cfg, s, step, book);
    }
  }

  lemma {:induction false} RunKeepsBook(cfg: Config, states: seq<System>, steps: seq<Step>, i: nat)
    requires IsRun(cfg, states, steps) && Init(states[0]) && i <= |steps|
    ensures Keeps(states[i].db.orders, FirstWriters(steps[..i]))
  {
    if i > 0 {
      RunKeepsBook(cfg, states, steps, i - 1);
      RunKeepsInv(cfg, states, steps, i - 1);
      assert steps[..i][..i - 1] == steps[..i - 1];
      StepKeepsBook(cfg, states[i - 1], steps[i - 1], FirstWriters(steps[..i - 1]));
    }
  }

  /** The answer create request number i got in a run. */
  ghost function OutcomeAt(cfg: Config, states: seq<System>, steps: seq<Step>, i: nat): CreateOutcome
    requires |states| == |steps| + 1 && i < |steps| && steps[i].CreateOrder?
  {
    CreateOrGet(cfg, states[i].db, steps[i].req, steps[i].orderId, steps[i].taskId, steps[i].at).outcome
  }

  /** Refinement: in any run, every create request is answered by the first-writer map of the
      requests before it, and a request that is not accepted changes no table. */
  lemma IntakeRefinesFirstWriter(cfg: Config, states: seq<System>, steps: seq<Step>, i: nat)
    requires IsRun(cfg, states, steps) && Init(states[0])
    requires i < |steps| && steps[i].CreateOrder?
    ensures OutcomeAt(cfg, states, steps, i) == Answer(FirstWriters(steps[..i]), steps[i].req, steps[i].orderId)
    ensures !OutcomeAt(cfg, states, steps, i).Accepted? ==> states[i + 1].db == states[i].db
  {
    RunKeepsBook(cfg, states, steps, i);
    RunKeepsInv(cfg, states, steps, i);
    NoActiveFirstTask(cfg, states[i], steps[i].orderId);
    AnswersByBook(cfg, states[i].db, FirstWriters(steps[..i]), steps[i].req, steps[i].orderId, steps[i].taskId,
                  steps[i].at);
  }

  lemma {:induction false} FirstWriterStays(steps: seq<Step>, i: nat, j: nat)
    requires i < j <= |steps| && steps[i].CreateOrder?
    ensures steps[i].req.key in FirstWriters(steps[..j])
    ensures steps[i].req.key !in FirstWriters(steps[..i]) ==>
              FirstWriters(steps[..j])[steps[i].req.key]
                == Entry(steps[i].orderId, steps[i].req.restaurantRef, steps[i].req.customerRef)
    decreases j
  {
    assert steps[..j][..j - 1] == steps[..j - 1];
    if i < j - 1 {
      FirstWriterStays(steps, i, j - 1);
    }
  }

  lemma {:induction false} FirstWriterExists(steps: seq<Step>, key: string) returns (i: nat)
    requires key in FirstWriters(steps)
    ensures i < |steps| && steps[i].CreateOrder? && steps[i].req.key == key && key !in FirstWriters(steps[..i])
  {
    var front, last := steps[..|steps| - 1], steps[|steps| - 1];
    if key in FirstWriters(front) {
      i := FirstWriterExists(front, key);
      assert front[..i] == steps[..i];
    } else {
      i := |steps| - 1;
    }
  }

  /** Exactly-once creation: of all requests with one key exactly the first is accepted; each
      later one gets that order back if its body is the same, and a conflict naming that order
      if not. */
  lemma OneAcceptedPerKey(cfg: Config, states: seq<System>, steps: seq<Step>, j: nat) returns (i: nat)
    requires IsRun(cfg, states, steps) && Init(states[0])
    requires j < |steps| && steps[j].CreateOrder?
    ensures i <= j && steps[i].CreateOrder? && steps[i].req.key == steps[j].req.key
    ensures OutcomeAt(cfg, states, steps, i) == Accepted(steps[i].orderId)
    ensures forall k :: 0 <= k < |steps| && steps[k].CreateOrder? && steps[k].req.key == steps[i].req.key && k != i ==>
              && i < k
              && OutcomeAt(cfg, states, steps, k) ==
                 (if steps[k].req == steps[i].req then Reused(steps[i].orderId) else Conflict(steps[i].orderId))
  {
    FirstWriterStays(steps, j, j + 1);
    i := FirstWriterExists(steps[..j + 1], steps[j].req.key);
    assert steps[..j + 1][..i] == steps[..i];
    IntakeRefinesFirstWriter(cfg, states, steps, i);
    forall k | 0 <= k < |steps| && steps[k].CreateOrder? && steps[k].req.key == steps[i].req.key && k != i
      ensures i < k
      ensures OutcomeAt(cfg, states, steps, k) ==
              (if steps[k].req == steps[i].req then Reused(steps[i].orderId) else Conflict(steps[i].orderId))
    {
      if k < i {
        FirstWriterStays(steps, k, i);
      }
      FirstWriterStays(steps, i, k);
      IntakeRefinesFirstWriter(cfg, states, steps, k);
    }
  }

  // ---------------------------------------------------------------- what one key owns

  function OrdersWithKey(s: System, key: string): set<OrderId> {
    set o | o in s.db.orders && s.db.orders[o].idempotencyKey == key
  }

  /** Tasks for the first hop of an order. */
  function InitialTasks(s: System, o: OrderId): set<TaskId> {
    set t | t in s.db.tasks && s.db.tasks[t].orderId == o && s.db.tasks[t].target == Some(Confirmed)
  }

  /** Each key has at most one order, and that order exactly one creation event and exactly
      one initial task, however often the request was repeated. */
  lemma OneOrderPerKey(cfg: Config, s: System, key: string)
    requires Reachable(cfg, s)
    ensures |OrdersWithKey(s, key)| <= 1
    ensures forall o :: o in OrdersWithKey(s, key) ==>
              && |Select(s.db.events, IntoState(o, Placed))| == 1
              && |InitialTasks(s, o)| == 1
  {
    ReachableInv(cfg, s);
    if o :| o in OrdersWithKey(s, key) {
      assert OrdersWithKey(s, key) == {o};
      CreationIsUnique(cfg, s, o);
    }
  }

  lemma CreationIsUnique(cfg: Config, s: System, o: OrderId)
    requires Inv(cfg, s) && o in s.db.orders
    ensures |Select(s.db.events, IntoState(o, Placed))| == 1
    ensures |InitialTasks(s, o)| == 1
  {
    assert OrderInv(cfg, s, o);
    CreationInLog(cfg, s.now, o, s.db.orders[o], Log(s, o));
    SelectWithin(s.db.events, LifecycleOf(o), IntoState(o, Placed));
    InitialTaskIsUnique(cfg, s, o);
  }

  lemma CreationInLog(cfg: Config, now: Time, o: OrderId, order: Order, log: seq<Event>)
    requires LogOk(cfg, now, o, order, log)
    requires forall e :: e in log ==> e.orderId == o
    ensures Select(log, IntoState(o, Placed)) == [log[0]]
  {
    forall i | 0 <= i < |log|
      ensures Matches(IntoState(o, Placed), log[i]) <==> i == 0
    {
      TransitionsAreHops(cfg, now, o, order, log, i);
    }
    SelectOne(log, IntoState(o, Placed), 0);
  }

  lemma InitialTaskIsUnique(cfg: Config, s: System, o: OrderId)
    requires Inv(cfg, s) && o in s.db.orders
    ensures |InitialTasks(s, o)| == 1
  {
    assert OrderInv(cfg, s, o);
    TaskOfStage(cfg, s, o, 0);
    assert TaskAt(cfg, s, o, 0);
    assert InitialTasks(s, o) == {s.work[o][0]};
  }
}
