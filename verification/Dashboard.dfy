/** The dashboard's latency and attention queries agree with the event log and the queue
    (backend/api/dashboard_store.py). */
module Dashboard {
  import opened Optional
  import opened Sets
  import opened OrderLifecycle
  import opened Rows
  import opened Settings
  import opened Pipeline
  import opened PipelineInvariant
  import opened PipelineSteps
  import opened PipelineChanges
  import opened PipelineTheorems
  import opened EventLog

  // ---------------------------------------------------------------- latency

  /** A row of the `timeline` subquery. */
  datatype Milestone = Milestone(reached: OrderState, at: Time, eventOrder: int)

  /** The partition of one order, in insertion order. */
  function Timeline(events: seq<Event>, o: OrderId): seq<Milestone> {
    if events == [] then []
    else
      var e := events[|events| - 1];
      Timeline(events[..|events| - 1], o)
      + (if e.orderId != o then []
         else if e.kind == OrderCreated then [Milestone(Placed, e.occurredAt, 0)]
         else if e.kind == StateTransition && e.toState.Some? then [Milestone(e.toState.value, e.occurredAt, 1)]
         else [])
  }

  /** Alphabetical rank of the state's name. */
  function NameRank(state: OrderState): int {
    match state
    case Cancelled => 0
    case Confirmed => 1
    case Delivered => 2
    case Failed => 3
    case OutForDelivery => 4
    case Placed => 5
    case Preparing => 6
    case Ready => 7
  }

  function StateName(state: OrderState): string {
    match state
    case Placed => "placed"
    case Confirmed => "confirmed"
    case Preparing => "preparing"
    case Ready => "ready"
    case OutForDelivery => "out_for_delivery"
    case Delivered => "delivered"
    case Cancelled => "cancelled"
    case Failed => "failed"
  }

  /** Dictionary order. */
  predicate Alphabetical(a: string, b: string) {
    b != [] && (a == [] || a[0] < b[0] || (a[0] == b[0] && Alphabetical(a[1..], b[1..])))
  }

  /** The rank sorts the states as their names sort. */
  lemma RankIsAlphabetical(a: OrderState, b: OrderState)
    ensures NameRank(a) < NameRank(b) <==> Alphabetical(StateName(a), StateName(b))
  {
    var x, y := StateName(a), StateName(b);
    if x[0] == y[0] && a != b {
      assert x[1] != y[1];
      assert x[1..][0] == x[1] && y[1..][0] == y[1];
    } else if a == b {
      NeverBeforeItself(x);
    }
  }

  lemma {:induction false} NeverBeforeItself(a: string)
    ensures !Alphabetical(a, a)
  {
    if a != [] {
      NeverBeforeItself(a[1..]);
    }
  }

  /** `order by occurred_at, event_order, reached_state`. */
  predicate SortsBefore(a: Milestone, b: Milestone) {
    a.at < b.at || (a.at == b.at && (
      a.eventOrder < b.eventOrder || (a.eventOrder == b.eventOrder && NameRank(a.reached) < NameRank(b.reached))))
  }

  /** What the window may see: the rows of the partition, sorted. */
  ghost predicate IsWindowOrder(rows: seq<Milestone>, sorted: seq<Milestone>) {
    && multiset(sorted) == multiset(rows)
    && forall i, j :: 0 <= i < j < |sorted| ==> !SortsBefore(sorted[j], sorted[i])
  }

  /** A row of the `sequenced` subquery that has a predecessor. */
  datatype Lag = Lag(fromState: OrderState, toState: OrderState, duration: int)

  function Lags(sorted: seq<Milestone>): (lags: seq<Lag>)
    ensures |lags| == if sorted == [] then 0 else |sorted| - 1
    ensures forall i :: 0 <= i < |lags| ==>
              lags[i] == Lag(sorted[i].reached, sorted[i + 1].reached, sorted[i + 1].at - sorted[i].at)
  {
    if |sorted| < 2 then []
    else
      var last, before := sorted[|sorted| - 1], sorted[|sorted| - 2];
      Lags(sorted[..|sorted| - 1]) + [Lag(before.reached, last.reached, last.at - before.at)]
  }

  function TotalDuration(lags: seq<Lag>): int {
    if lags == [] then 0 else TotalDuration(lags[..|lags| - 1]) + lags[|lags| - 1].duration
  }

  /** Durations telescope. */
  lemma {:induction false} LagsTelescope(sorted: seq<Milestone>)
    requires sorted != []
    ensures TotalDuration(Lags(sorted)) == sorted[|sorted| - 1].at - sorted[0].at
  {
    if |sorted| > 1 {
      var front := sorted[..|sorted| - 1];
      LagsTelescope(front);
      assert Lags(sorted)[..|sorted| - 2] == Lags(front);
    }
  }

  lemma SortedHead(rows: seq<Milestone>, sorted: seq<Milestone>)
    requires forall i, j :: 0 <= i < j < |rows| ==> SortsBefore(rows[i], rows[j])
    requires IsWindowOrder(rows, sorted) && rows != []
    ensures sorted != [] && sorted[0] == rows[0]
  {
    assert rows[0] in multiset(sorted);
    assert sorted[0] in multiset(rows);
    var i :| 0 <= i < |sorted| && sorted[i] == rows[0];
    var j :| 0 <= j < |rows| && rows[j] == sorted[0];
  }

  lemma SameTails(rows: seq<Milestone>, sorted: seq<Milestone>)
    requires rows != [] && sorted != [] && rows[0] == sorted[0] && multiset(rows) == multiset(sorted)
    ensures multiset(rows[1..]) == multiset(sorted[1..])
  {
    assert rows == [rows[0]] + rows[1..] && sorted == [sorted[0]] + sorted[1..];
    assert multiset(rows[1..]) == multiset(rows) - multiset{rows[0]};
    assert multiset(sorted[1..]) == multiset(sorted) - multiset{rows[0]};
  }

  /** A strictly sorted listing is the only sorted one. */
  lemma {:induction false} SortedIsUnique(rows: seq<Milestone>, sorted: seq<Milestone>)
    requires forall i, j :: 0 <= i < j < |rows| ==> SortsBefore(rows[i], rows[j])
    requires IsWindowOrder(rows, sorted)
    ensures sorted == rows
  {
    assert |multiset(rows)| == |rows| && |multiset(sorted)| == |sorted|;
    if rows != [] {
      SortedHead(rows, sorted);
      SameTails(rows, sorted);
      SortedIsUnique(rows[1..], sorted[1..]);
      assert rows == [rows[0]] + rows[1..] && sorted == [sorted[0]] + sorted[1..];
    }
  }

  function MilestoneOf(log: seq<Event>, k: nat): Milestone
    requires k < |log| && k <= HOPS
  {
    Milestone(Stage(k), log[k].occurredAt, if k == 0 then 0 else 1)
  }

  lemma {:induction false} TimelineOfLog(events: seq<Event>, o: OrderId)
    ensures Timeline(Select(events, LifecycleOf(o)), o) == Timeline(events, o)
  {
    if events != [] {
      var e, front := events[|events| - 1], events[..|events| - 1];
      TimelineOfLog(front, o);
      if Matches(LifecycleOf(o), e) {
        var log := Select(front, LifecycleOf(o));
        assert (log + [e])[..|log|] == log;
      } else {
        assert Select(events, LifecycleOf(o)) == Select(front, LifecycleOf(o));
      }
    }
  }

  lemma {:induction false} TimelineOfHops(cfg: Config, now: Time, o: OrderId, order: Order, log: seq<Event>, k: nat)
    requires LogOk(cfg, now, o, order, log) && k <= Hops(order, log)
    ensures |Timeline(log[..k + 1], o)| == k + 1
    ensures forall i :: 0 <= i <= k ==> Timeline(log[..k + 1], o)[i] == MilestoneOf(log, i)
  {
    assert log[..k + 1][..k] == log[..k];
    assert log[..k + 1][k] == log[k];
    if k > 0 {
      TimelineOfHops(cfg, now, o, order, log, k - 1);
      assert IsHop(log[k], o, k);
    } else {
      assert Timeline(log[..0], o) == [];
    }
  }

  lemma TimelineOfWholeLog(cfg: Config, now: Time, o: OrderId, order: Order, log: seq<Event>)
    requires LogOk(cfg, now, o, order, log)
    ensures |Timeline(log, o)| == Hops(order, log) + 1
    ensures forall i :: 0 <= i <= Hops(order, log) ==> Timeline(log, o)[i] == MilestoneOf(log, i)
  {
    var h := Hops(order, log);
    TimelineOfHops(cfg, now, o, order, log, h);
    if order.state == Cancelled {
      assert log[..|log| - 1] == log[..h + 1];
    } else {
      assert log == log[..h + 1];
    }
  }

  /** The partition of an order is its creation and its hops. */
  lemma TimelineShape(cfg: Config, s: System, o: OrderId)
    requires Inv(cfg, s) && o in s.db.orders
    ensures var rows, log, h := Timeline(s.db.events, o), Log(s, o), Hops(s.db.orders[o], Log(s, o));
            && 0 <= h <= HOPS && h < |log| && |rows| == h + 1
            && forall k :: 0 <= k <= h ==> rows[k] == MilestoneOf(log, k)
  {
    assert OrderInv(cfg, s, o);
    TimelineOfLog(s.db.events, o);
    TimelineOfWholeLog(cfg, s.now, o, s.db.orders[o], Log(s, o));
  }

  /** The hop ready -> out_for_delivery, whose names sort against the lifecycle, must not share
      the timestamp of the hop before it. The other such pair, out_for_delivery -> delivered,
      never does: a delivery check is not due at its creation. */
  predicate NoAmbiguousTie(rows: seq<Milestone>) {
    |rows| > 4 ==> rows[3].at != rows[4].at
  }

  lemma NeighboursSort(cfg: Config, s: System, o: OrderId, k: nat)
    requires Inv(cfg, s) && o in s.db.orders && 0 < k < |Timeline(s.db.events, o)|
    ensures k <= HOPS
    ensures var rows := Timeline(s.db.events, o);
            && rows[k - 1].at + cfg.tick <= rows[k].at
            && (SortsBefore(rows[k - 1], rows[k]) <==> k != 4 || rows[k - 1].at != rows[k].at)
  {
    assert OrderInv(cfg, s, o);
    TimelineShape(cfg, s, o);
    var log := Log(s, o);
    assert log[k - 1].occurredAt + cfg.tick <= log[k].occurredAt;
    assert k == 5 ==> log[k - 1].occurredAt < log[k].occurredAt;
  }

  lemma {:induction false} ChainSorts(rows: seq<Milestone>, i: nat, j: nat)
    requires i < j < |rows|
    requires forall k :: 0 < k < |rows| ==> (var before := rows[k - 1]; SortsBefore(before, rows[k]))
    ensures SortsBefore(rows[i], rows[j])
    decreases j
  {
    var before := rows[j - 1];
    assert SortsBefore(before, rows[j]);
    if i < j - 1 {
      ChainSorts(rows, i, j - 1);
    }
  }

  lemma SortedRowsAreWindow(rows: seq<Milestone>, sorted: seq<Milestone>)
    requires IsWindowOrder(rows, sorted)
    requires forall k :: 0 < k < |rows| ==> (var before := rows[k - 1]; SortsBefore(before, rows[k]))
    ensures sorted == rows
  {
    forall i, j | 0 <= i < j < |rows|
      ensures SortsBefore(rows[i], rows[j])
    {
      ChainSorts(rows, i, j);
    }
    SortedIsUnique(rows, sorted);
  }

  lemma MisplacedRowsAreNotWindow(rows: seq<Milestone>, sorted: seq<Milestone>, k: nat)
    requires IsWindowOrder(rows, sorted) && 0 < k < |rows| && SortsBefore(rows[k], rows[k - 1])
    ensures sorted != rows
  {
    assert |multiset(sorted)| == |sorted| && |multiset(rows)| == |rows|;
    var i := k - 1;
    assert !(sorted[i] == rows[i] && sorted[k] == rows[k]);
  }

  /** Neighbours are in order, except that a tie of the fourth hop with the third swaps them. */
  ghost predicate SwapsOnlyTie(rows: seq<Milestone>) {
    && (forall k :: 0 < k < |rows| && (k != 4 || NoAmbiguousTie(rows)) ==>
          (var before := rows[k - 1]; SortsBefore(before, rows[k])))
    && (!NoAmbiguousTie(rows) ==> |rows| > 4 && SortsBefore(rows[4], rows[3]))
  }

  lemma TimelineSwapsOnlyTie(cfg: Config, s: System, o: OrderId)
    requires Inv(cfg, s) && o in s.db.orders
    ensures SwapsOnlyTie(Timeline(s.db.events, o))
  {
    var rows := Timeline(s.db.events, o);
    forall k | 0 < k < |rows| && (k != 4 || NoAmbiguousTie(rows))
      ensures var before := rows[k - 1]; SortsBefore(before, rows[k])
    {
      NeighboursSort(cfg, s, o, k);
    }
    if !NoAmbiguousTie(rows) {
      TieIsMisplaced(cfg, s, o);
    }
  }

  lemma SortedExactly(rows: seq<Milestone>, sorted: seq<Milestone>)
    requires SwapsOnlyTie(rows) && IsWindowOrder(rows, sorted)
    ensures sorted == rows <==> NoAmbiguousTie(rows)
  {
    if NoAmbiguousTie(rows) {
      SortedRowsAreWindow(rows, sorted);
    } else {
      MisplacedRowsAreNotWindow(rows, sorted, 4);
    }
  }

  /** The window reads the log in order exactly when the ambiguous pair of hops does not tie. */
  lemma WindowFollowsLog(cfg: Config, s: System, o: OrderId, sorted: seq<Milestone>)
    requires Reachable(cfg, s) && o in s.db.orders && IsWindowOrder(Timeline(s.db.events, o), sorted)
    ensures sorted == Timeline(s.db.events, o) <==> NoAmbiguousTie(Timeline(s.db.events, o))
  {
    ReachableInv(cfg, s);
    TimelineSwapsOnlyTie(cfg, s, o);
    SortedExactly(Timeline(s.db.events, o), sorted);
  }

  lemma TieIsMisplaced(cfg: Config, s: System, o: OrderId)
    requires Inv(cfg, s) && o in s.db.orders && !NoAmbiguousTie(Timeline(s.db.events, o))
    ensures |Timeline(s.db.events, o)| > 4
    ensures SortsBefore(Timeline(s.db.events, o)[4], Timeline(s.db.events, o)[3])
  {
    TimelineShape(cfg, s, o);
  }

  /** Under a strictly increasing clock there are no ties. */
  lemma StrictClockHasNoTies(cfg: Config, s: System, o: OrderId)
    requires Reachable(cfg, s) && o in s.db.orders && 0 < cfg.tick
    ensures NoAmbiguousTie(Timeline(s.db.events, o))
  {
    ReachableInv(cfg, s);
    var rows := Timeline(s.db.events, o);
    if |rows| > 4 { NeighboursSort(cfg, s, o, 4); }
  }

  /** min(occurred_at) of the events a query selects. */
  function EarliestOccurrence(events: seq<Event>): (earliest: Option<Time>)
    ensures earliest == None <==> events == []
    ensures forall e :: e in events ==> earliest.Some? && earliest.value <= e.occurredAt
    ensures earliest.Some? ==> exists e :: e in events && e.occurredAt == earliest.value
  {
    if events == [] then None
    else
      var last := events[|events| - 1];
      assert events == events[..|events| - 1] + [last];
      match EarliestOccurrence(events[..|events| - 1])
      case None => Some(last.occurredAt)
      case Some(t) => Some(Min(t, last.occurredAt))
  }

  /** The pipeline query finds the creation and the delivery of a delivered order. */
  lemma PipelineQueryFinds(cfg: Config, s: System, o: OrderId)
    requires Inv(cfg, s) && o in s.db.orders && s.db.orders[o].state == Delivered
    ensures |Log(s, o)| == HOPS + 1
    ensures Select(s.db.events, IntoState(o, Placed)) == [Log(s, o)[0]]
    ensures Select(s.db.events, IntoState(o, Delivered)) == [Log(s, o)[HOPS]]
  {
    assert OrderInv(cfg, s, o);
    var order, log := s.db.orders[o], Log(s, o);
    assert Hops(order, log) == HOPS by {
      assert StageIndex(Stage(Hops(order, log))) == Hops(order, log);
    }
    forall i | 0 <= i < |log|
      ensures Matches(IntoState(o, Placed), log[i]) <==> i == 0
      ensures Matches(IntoState(o, Delivered), log[i]) <==> i == HOPS
    {
      TransitionsAreHops(cfg, s.now, o, order, log, i);
    }
    SelectOne(log, IntoState(o, Placed), 0);
    SelectOne(log, IntoState(o, Delivered), HOPS);
    SelectWithin(s.db.events, LifecycleOf(o), IntoState(o, Placed));
    SelectWithin(s.db.events, LifecycleOf(o), IntoState(o, Delivered));
  }

  /** The `lag` pairs are exactly the five hops of the lifecycle, each of positive duration,
      and together they take the time the pipeline query reports. */
  ghost predicate LagsAreHops(lags: seq<Lag>, created: Option<Time>, delivered: Option<Time>) {
    && |lags| == HOPS
    && (forall k :: 0 <= k < HOPS ==>
          lags[k].fromState == Stage(k) && lags[k].toState == Stage(k + 1) && 0 < lags[k].duration)
    && created.Some? && delivered.Some?
    && TotalDuration(lags) == delivered.value - created.value
  }

  /** Under a strictly increasing clock, for every delivered order and whatever order the
      database sorts its rows in, the stage query and the pipeline query agree. */
  lemma LatencyTelescopes(cfg: Config, s: System, o: OrderId, sorted: seq<Milestone>)
    requires Reachable(cfg, s) && 0 < cfg.tick && o in s.db.orders && s.db.orders[o].state == Delivered
    requires IsWindowOrder(Timeline(s.db.events, o), sorted)
    ensures LagsAreHops(Lags(sorted),
                        EarliestOccurrence(Select(s.db.events, IntoState(o, Placed))),
                        EarliestOccurrence(Select(s.db.events, IntoState(o, Delivered))))
  {
    StrictClockHasNoTies(cfg, s, o);
    WindowFollowsLog(cfg, s, o, sorted);
    ReachableInv(cfg, s);
    DeliveredTimeline(cfg, s, o);
    PipelineQueryFinds(cfg, s, o);
    EarliestOfOne(Log(s, o)[0]);
    EarliestOfOne(Log(s, o)[HOPS]);
    LagsOfLog(Log(s, o), sorted);
  }

  lemma EarliestOfOne(e: Event)
    ensures EarliestOccurrence([e]) == Some(e.occurredAt)
  {
  }

  lemma {:induction false} LagsOfLog(log: seq<Event>, rows: seq<Milestone>)
    requires |log| == HOPS + 1 && |rows| == HOPS + 1
    requires forall k :: 0 <= k <= HOPS ==> rows[k] == MilestoneOf(log, k)
    requires forall k :: 0 <= k < HOPS ==> 0 < rows[k + 1].at - rows[k].at
    ensures LagsAreHops(Lags(rows), Some(log[0].occurredAt), Some(log[HOPS].occurredAt))
  {
    LagsTelescope(rows);
    forall k | 0 <= k < HOPS
      ensures Lags(rows)[k].fromState == Stage(k) && Lags(rows)[k].toState == Stage(k + 1) && 0 < Lags(rows)[k].duration
    {
      assert rows[k] == MilestoneOf(log, k) && rows[k + 1] == MilestoneOf(log, k + 1);
    }
  }

  lemma DeliveredTimeline(cfg: Config, s: System, o: OrderId)
    requires Inv(cfg, s) && 0 < cfg.tick && o in s.db.orders && s.db.orders[o].state == Delivered
    ensures |Log(s, o)| == HOPS + 1 && |Timeline(s.db.events, o)| == HOPS + 1
    ensures forall k :: 0 <= k <= HOPS ==> Timeline(s.db.events, o)[k] == MilestoneOf(Log(s, o), k)
    ensures forall k :: 0 <= k < HOPS ==> 0 < Timeline(s.db.events, o)[k + 1].at - Timeline(s.db.events, o)[k].at
  {
    TimelineShape(cfg, s, o);
    PipelineQueryFinds(cfg, s, o);
    forall k | 0 <= k < HOPS
      ensures 0 < Timeline(s.db.events, o)[k + 1].at - Timeline(s.db.events, o)[k].at
    {
      NeighboursSort(cfg, s, o, k + 1);
    }
  }

  // ---------------------------------------------------------------- attention

  /** The dashboard's two kinds of limits; a state may have no threshold. */
  datatype Limits = Limits(sla: int, thresholds: map<OrderState, int>)

  /** A row of the `problem_tasks` subquery before grouping. */
  predicate HasProblem(row: Task, now: Time) {
    || row.status == TaskFailed
    || (row.status == Running && row.lockedUntil.Some? && row.lockedUntil.value < now)
    || (row.Active() && row.lastError.Some?)
  }

  function ProblemTasks(db: Db, now: Time, o: OrderId): set<TaskId> {
    set t | t in db.tasks && db.tasks[t].orderId == o && HasProblem(db.tasks[t], now)
  }

  predicate IsOverdue(order: Order, now: Time, limits: Limits) {
    order.createdAt <= now - limits.sla
  }

  predicate IsStuck(order: Order, now: Time, limits: Limits) {
    order.state in limits.thresholds && order.updatedAt <= now - limits.thresholds[order.state]
  }

  predicate NeedsAttention(db: Db, now: Time, limits: Limits, o: OrderId) {
    && o in db.orders && !IsTerminal(db.orders[o].state)
    && (IsOverdue(db.orders[o], now, limits) || IsStuck(db.orders[o], now, limits)
        || ProblemTasks(db, now, o) != {})
  }

  /** The order's task is queued, or leased to a worker whose lease still runs, and its last
      try did not fail. */
  predicate Healthy(row: Task, now: Time) {
    && row.lastError == None
    && (row.status == Pending || (row.status == Running && row.lockedUntil.Some? && now <= row.lockedUntil.value))
  }

  /** No silent stall: a live order is missing from the attention set exactly when it is
      within both time limits and its only live task is healthy. */
  lemma NoSilentStall(cfg: Config, s: System, limits: Limits, o: OrderId)
    requires Reachable(cfg, s) && o in s.db.orders && !IsTerminal(s.db.orders[o].state)
    ensures |LiveTasks(s, o)| == 1
    ensures !NeedsAttention(s.db, s.now, limits, o) <==>
              && s.now < s.db.orders[o].createdAt + limits.sla
              && (s.db.orders[o].state in limits.thresholds ==>
                    s.now < s.db.orders[o].updatedAt + limits.thresholds[s.db.orders[o].state])
              && forall t :: t in LiveTasks(s, o) ==> Healthy(s.db.tasks[t], s.now)
  {
    ReachableInv(cfg, s);
    assert OrderInv(cfg, s, o);
    LiveWork(cfg, s, o);
    forall t | t in s.db.tasks && s.db.tasks[t].orderId == o
      ensures t in ProblemTasks(s.db, s.now, o) <==> t in LiveTasks(s, o) && !Healthy(s.db.tasks[t], s.now)
    {
      ProblemOrHealthy(cfg, s, t);
    }
    assert ProblemTasks(s.db, s.now, o) == set t | t in LiveTasks(s, o) && !Healthy(s.db.tasks[t], s.now);
  }

  lemma ProblemOrHealthy(cfg: Config, s: System, t: TaskId)
    requires Inv(cfg, s) && t in s.db.tasks
    ensures HasProblem(s.db.tasks[t], s.now) <==> s.db.tasks[t].Live() && !Healthy(s.db.tasks[t], s.now)
  {
    var o, k := TaskFacts(cfg, s, t);
  }

  const ATTENTION_LIMIT: nat := 50

  function AttentionSet(db: Db, now: Time, limits: Limits): set<OrderId> {
    set o | o in db.orders && NeedsAttention(db, now, limits, o)
  }

  predicate HasFailedTask(db: Db, o: OrderId) {
    exists t :: t in db.tasks && db.tasks[t].orderId == o && db.tasks[t].status == TaskFailed
  }

  predicate HasExpiredLease(db: Db, now: Time, o: OrderId) {
    exists t :: t in db.tasks && db.tasks[t].orderId == o && db.tasks[t].status == Running
                && db.tasks[t].lockedUntil.Some? && db.tasks[t].lockedUntil.value < now
  }

  predicate IsUnsupported(error: string) {
    var prefix := "unsupported task";
    |prefix| <= |error| && error[..|prefix|] == prefix
  }

  predicate HasUnsupportedTask(db: Db, now: Time, o: OrderId) {
    exists t :: t in ProblemTasks(db, now, o)
                && db.tasks[t].lastError.Some? && IsUnsupported(db.tasks[t].lastError.value)
  }

  /** The leading key the page is sorted by. */
  function Severity(db: Db, now: Time, limits: Limits, o: OrderId): (c: nat)
    requires o in db.orders
    ensures c <= 5
  {
    if HasFailedTask(db, o) then 0
    else if HasExpiredLease(db, now, o) then 1
    else if HasUnsupportedTask(db, now, o) then 2
    else if IsOverdue(db.orders[o], now, limits) then 3
    else if IsStuck(db.orders[o], now, limits) then 4
    else 5
  }

  /** A row of the result: the window count and the order. */
  datatype AttentionRow = AttentionRow(totalCount: Option<nat>, orderId: OrderId)

  /** The rows of `attention` in the order of the outer query: each order once, by severity. */
  ghost predicate IsListing(db: Db, now: Time, limits: Limits, ids: seq<OrderId>) {
    && (forall o :: o in ids <==> o in AttentionSet(db, now, limits))
    && (forall i, j :: 0 <= i < j < |ids| ==> ids[i] != ids[j])
    && (forall i, j :: 0 <= i < j < |ids| && ids[i] in db.orders && ids[j] in db.orders ==>
                         Severity(db, now, limits, ids[i]) <= Severity(db, now, limits, ids[j]))
  }

  /** `count(*) over()`: every row carries the number of rows. */
  function Counted(ids: seq<OrderId>): (rows: seq<AttentionRow>)
    ensures |rows| == |ids|
  {
    seq(|ids|, i requires 0 <= i < |ids| => AttentionRow(Some(|ids|), ids[i]))
  }

  /** `limit 50`, applied after the count. */
  function Page(rows: seq<AttentionRow>): seq<AttentionRow> {
    rows[..if |rows| < ATTENTION_LIMIT then |rows| else ATTENTION_LIMIT]
  }

  /** The loader on the rows the query returns: read the total off the first row, then strip
      it from every row. The total counts all attention orders, however many were cut off. */
  method AttentionOverview(db: Db, now: Time, limits: Limits, ghost ids: seq<OrderId>, rows: seq<AttentionRow>)
    returns (total: nat, items: seq<AttentionRow>)
    requires IsListing(db, now, limits, ids) && rows == Page(Counted(ids))
    ensures total == |AttentionSet(db, now, limits)|
    ensures |items| == Min(total, 50) <= |ids|
    ensures forall i :: 0 <= i < |items| ==> items[i] == AttentionRow(None, ids[i])
  {
    DistinctSize(ids, AttentionSet(db, now, limits));
    total := 0;
    if |rows| > 0 {
      total := rows[0].totalCount.value;
    }
    items := rows;
    var i := 0;
    while i < |items|
      invariant 0 <= i <= |items| == |rows|
      invariant forall j :: 0 <= j < i ==> items[j] == AttentionRow(None, rows[j].orderId)
      invariant forall j :: i <= j < |items| ==> items[j] == rows[j]
    {
      items := items[i := items[i].(totalCount := None)];
      i := i + 1;
    }
  }

  function AtMostSeverity(db: Db, now: Time, limits: Limits, c: nat): set<OrderId> {
    set o | o in db.orders && NeedsAttention(db, now, limits, o) && Severity(db, now, limits, o) <= c
  }

  /** The limit never hides a problem behind a lesser one: as long as at most fifty orders are
      of severity c or worse, all of them are on the page. */
  lemma UrgentOrdersAreListed(db: Db, now: Time, limits: Limits, ids: seq<OrderId>, c: nat, o: OrderId)
    requires IsListing(db, now, limits, ids)
    requires |AtMostSeverity(db, now, limits, c)| <= 50 && o in AtMostSeverity(db, now, limits, c)
    ensures exists i :: 0 <= i < |Page(Counted(ids))| && Page(Counted(ids))[i].orderId == o
  {
    var urgent := AtMostSeverity(db, now, limits, c);
    assert o in AttentionSet(db, now, limits);
    var i :| 0 <= i < |ids| && ids[i] == o;
    FirstAreUrgent(db, now, limits, ids, c, i);
    assert i < ATTENTION_LIMIT;
    assert Page(Counted(ids))[i].orderId == o;
  }

  /** Everything listed before an urgent order is urgent, so its position is below their number. */
  lemma FirstAreUrgent(db: Db, now: Time, limits: Limits, ids: seq<OrderId>, c: nat, i: nat)
    requires IsListing(db, now, limits, ids) && i < |ids| && ids[i] in AtMostSeverity(db, now, limits, c)
    ensures i < |AtMostSeverity(db, now, limits, c)|
  {
    var first := ids[..i + 1];
    var listed := set p | p in first;
    forall p | p in listed
      ensures p in AtMostSeverity(db, now, limits, c)
    {
      var j :| 0 <= j < |first| && first[j] == p;
      assert ids[j] in ids && ids[j] in AttentionSet(db, now, limits);
    }
    DistinctSize(first, listed);
    SubsetSize(listed, AtMostSeverity(db, now, limits, c));
  }
}
