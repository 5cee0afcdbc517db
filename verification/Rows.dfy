/** The three durable tables: orders, order_tasks and order_events
    (backend/alembic/versions/20260625_0001_create_orders.py and
    20260625_0002_add_order_intake_tables.py). */
module Rows {
  import opened Optional
  import opened OrderLifecycle

  /** One global clock, in ticks. */
  type Time = int

  type OrderId = nat
  type TaskId = nat
  type WorkerId = string

  datatype TaskType = AdvanceState | CheckReady | CheckPickup | CheckDelivery

  datatype TaskStatus = Pending | Running | Completed | TaskFailed | TaskCancelled

  /** The text key "order:type:target"; the order id and the enum names hold no colon, so
      keys are equal exactly when their parts are. */
  datatype DedupeKey = DedupeKey(orderId: OrderId, taskType: TaskType, target: OrderState)

  datatype Order = Order(
    idempotencyKey: string,
    state: OrderState,
    version: int,
    customerRef: Option<string>,
    restaurantRef: string,
    courierRef: Option<string>,
    terminalReason: Option<string>,
    createdAt: Time,
    updatedAt: Time,
    cancelledAt: Option<Time>)

  datatype Task = Task(
    orderId: OrderId,
    taskType: TaskType,
    target: Option<OrderState>,
    status: TaskStatus,
    attempts: int,
    maxAttempts: int,
    nextRunAt: Time,
    deadlineAt: Option<Time>,
    lockedBy: Option<WorkerId>,
    lockedUntil: Option<Time>,
    dedupeKey: Option<DedupeKey>,
    lastError: Option<string>,
    createdAt: Time,
    updatedAt: Time,
    completedAt: Option<Time>)
  {
    /** Rows the partial unique index on dedupe_key covers. */
    predicate Active() {
      status == Pending || status == Running
    }

    /** Tasks that poll under a deadline. */
    predicate IsCheck() {
      taskType == CheckReady || taskType == CheckDelivery
    }

    /** Rows that still carry work: active, or failed and waiting for an operator. */
    predicate Live() {
      Active() || status == TaskFailed
    }
  }

  datatype EventKind = OrderCreated | StateTransition | CourierPickedUp | RetryEvent | OrderCancelled | OrderFailed

  datatype Metadata =
    | NoMetadata
    | CancelMetadata(cancelledTaskIds: set<TaskId>)
    | RetryMetadata(taskType: TaskType, target: Option<OrderState>, previousAttempts: int,
                    previousMaxAttempts: int, previousLastError: Option<string>)

  datatype Event = Event(
    orderId: OrderId,
    kind: EventKind,
    fromState: Option<OrderState>,
    toState: Option<OrderState>,
    taskId: Option<TaskId>,
    workerId: Option<WorkerId>,
    occurredAt: Time,
    metadata: Metadata)

  datatype Db = Db(
    orders: map<OrderId, Order>,
    tasks: map<TaskId, Task>,
    events: seq<Event>)

  /** The event filters the code and the read model use. */
  datatype EventQuery =
    | LifecycleOf(orderId: OrderId)
    | IntoState(orderId: OrderId, source: OrderState)
    | HopBetween(orderId: OrderId, fromState: OrderState, toState: OrderState)

  predicate Matches(q: EventQuery, e: Event) {
    e.orderId == q.orderId &&
    match q
    case LifecycleOf(_) =>
      e.kind == OrderCreated || e.kind == StateTransition || e.kind == OrderCancelled
    case IntoState(_, source) =>
      if source == Placed then e.kind == OrderCreated
      else e.kind == StateTransition && e.toState == Some(source)
    case HopBetween(_, a, b) =>
      e.kind == StateTransition && e.fromState == Some(a) && e.toState == Some(b)
  }

  /** The matching events, in insertion order. */
  function Select(events: seq<Event>, q: EventQuery): (selected: seq<Event>)
    ensures forall e :: e in selected ==> e in events && Matches(q, e)
  {
    if events == [] then []
    else
      var last := events[|events| - 1];
      Select(events[..|events| - 1], q) + (if Matches(q, last) then [last] else [])
  }

  /** `order by occurred_at desc limit 1`, keeping only the timestamp. */
  function LatestOccurrence(events: seq<Event>): (latest: Option<Time>)
    ensures latest == None <==> events == []
    ensures forall e :: e in events ==> latest.Some? && e.occurredAt <= latest.value
    ensures latest.Some? ==> exists e :: e in events && e.occurredAt == latest.value
  {
    if events == [] then None
    else
      var last := events[|events| - 1];
      assert events == events[..|events| - 1] + [last];
      match LatestOccurrence(events[..|events| - 1])
      case None => Some(last.occurredAt)
      case Some(t) => Some(if t < last.occurredAt then last.occurredAt else t)
  }

  lemma SelectAppend(events: seq<Event>, e: Event, q: EventQuery)
    ensures Select(events + [e], q) == Select(events, q) + (if Matches(q, e) then [e] else [])
  {
    assert (events + [e])[..|events|] == events;
  }

  /** Filtering twice by a narrower query is filtering once by it. */
  lemma {:induction false} SelectWithin(events: seq<Event>, wide: EventQuery, narrow: EventQuery)
    requires forall e :: Matches(narrow, e) ==> Matches(wide, e)
    ensures Select(Select(events, wide), narrow) == Select(events, narrow)
  {
    if events != [] {
      var last, front := events[|events| - 1], events[..|events| - 1];
      SelectWithin(front, wide, narrow);
      if Matches(wide, last) {
        SelectAppend(Select(front, wide), last, narrow);
        assert Select(events, wide) == Select(front, wide) + [last];
      } else {
        assert Select(events, wide) == Select(front, wide);
        assert Select(events, narrow) == Select(front, narrow);
      }
    }
  }

  lemma {:induction false} SelectNone(events: seq<Event>, q: EventQuery)
    requires forall i :: 0 <= i < |events| ==> !Matches(q, events[i])
    ensures Select(events, q) == []
  {
    if events != [] {
      SelectNone(events[..|events| - 1], q);
    }
  }

  /** A query that only event number k matches. */
  lemma {:induction false} SelectOne(events: seq<Event>, q: EventQuery, k: nat)
    requires k < |events|
    requires forall i :: 0 <= i < |events| ==> (Matches(q, events[i]) <==> i == k)
    ensures Select(events, q) == [events[k]]
  {
    var front := events[..|events| - 1];
    if k == |front| {
      SelectNone(front, q);
    } else {
      SelectOne(front, q, k);
    }
  }

  lemma {:induction false} SelectFinds(events: seq<Event>, q: EventQuery, e: Event)
    requires e in events && Matches(q, e)
    ensures e in Select(events, q)
  {
    var front, last := events[..|events| - 1], events[|events| - 1];
    if e != last {
      assert e in front;
      SelectFinds(front, q, e);
    }
  }
}
