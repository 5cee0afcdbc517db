/** The transition table of the workers and the dispatch on claimed tasks
    (backend/worker/tasks.py:215-278, 1607-1630, 2476-2502). */
module TransitionSpecs {
  import opened Optional
  import opened OrderLifecycle
  import opened Rows
  import opened Settings

  datatype TransitionSpec = TransitionSpec(
    source: OrderState,
    target: OrderState,
    nextType: Option<TaskType>,
    nextTarget: Option<OrderState>)

  function RestaurantSpec(target: OrderState): Option<TransitionSpec> {
    match target
    case Confirmed => Some(TransitionSpec(Placed, Confirmed, Some(AdvanceState), Some(Preparing)))
    case Preparing => Some(TransitionSpec(Confirmed, Preparing, Some(CheckReady), Some(Ready)))
    case _ => None
  }

  const READY_SPEC := TransitionSpec(Preparing, Ready, Some(AdvanceState), Some(OutForDelivery))
  const COURIER_SPEC := TransitionSpec(Ready, OutForDelivery, Some(CheckDelivery), Some(Delivered))
  const DELIVERY_SPEC := TransitionSpec(OutForDelivery, Delivered, None, None)

  datatype Handler =
    | RestaurantTransition(spec: TransitionSpec)
    | CourierAssign
    | ReadyCheck
    | DeliveryCheck
  {
    /** Handlers that poll under a deadline, as opposed to one-shot commands. */
    predicate Polls() {
      ReadyCheck? || DeliveryCheck?
    }
  }

  /** None is the unsupported-task path. */
  function Dispatch(taskType: TaskType, target: Option<OrderState>): Option<Handler> {
    if taskType == AdvanceState then
      if target == Some(OutForDelivery) then Some(CourierAssign)
      else if target == None then None
      else match RestaurantSpec(target.value)
        case Some(spec) => Some(RestaurantTransition(spec))
        case None => None
    else if taskType == CheckReady && target == Some(Ready) then Some(ReadyCheck)
    else if taskType == CheckDelivery && target == Some(Delivered) then Some(DeliveryCheck)
    else None
  }

  function SpecOf(handler: Handler): TransitionSpec {
    match handler
    case RestaurantTransition(spec) => spec
    case CourierAssign => COURIER_SPEC
    case ReadyCheck => READY_SPEC
    case DeliveryCheck => DELIVERY_SPEC
  }

  function PollInterval(cfg: Config, handler: Handler): (d: int)
    ensures 0 < d
  {
    match handler
    case ReadyCheck => cfg.readyInterval
    case DeliveryCheck => cfg.deliveryInterval
    case _ => cfg.retryBase
  }

  datatype Schedule = Schedule(nextRunAt: Time, deadlineAt: Option<Time>)

  function FollowupSchedule(cfg: Config, spec: TransitionSpec, occurredAt: Time): Schedule {
    if spec.nextType == Some(CheckReady) then
      Schedule(occurredAt + cfg.readyInitial, Some(occurredAt + cfg.readyDeadline))
    else if spec.nextType == Some(CheckDelivery) then
      Schedule(occurredAt + cfg.deliveryInitial, Some(occurredAt + cfg.deliveryDeadline))
    else
      Schedule(occurredAt, None)
  }

  /** The task type that carries an order from Stage(k) to Stage(k + 1). */
  function StageTaskType(k: nat): TaskType {
    if k == 2 then CheckReady else if k == 4 then CheckDelivery else AdvanceState
  }

  /** The poll window of the k-th task; None for command tasks. */
  function StageWindow(cfg: Config, k: nat): (w: Option<int>)
    ensures w.Some? ==> 0 < w.value
    ensures w.Some? <==> k == 2 || k == 4
  {
    if k == 2 then Some(cfg.readyDeadline)
    else if k == 4 then Some(cfg.deliveryDeadline)
    else None
  }

  /** How long after its creation the k-th task is first due. */
  function StageDelay(cfg: Config, k: nat): (d: int)
    ensures 0 <= d && (0 < d <==> StageWindow(cfg, k).Some?)
  {
    if k == 2 then cfg.readyInitial
    else if k == 4 then cfg.deliveryInitial
    else 0
  }

  function StageHandler(k: nat): Handler
    requires k < HOPS
  {
    if k == 2 then ReadyCheck
    else if k == 3 then CourierAssign
    else if k == 4 then DeliveryCheck
    else RestaurantTransition(RestaurantSpec(Stage(k + 1)).value)
  }

  /** The worker table covers the whole lifecycle and nothing else: the k-th task is
      dispatched to a handler for exactly the k-th hop, whose follow-up is the (k+1)-st task,
      scheduled with the (k+1)-st delay and window. */
  lemma SpecTableFollowsLifecycle(cfg: Config, k: nat, occurredAt: Time)
    requires k < HOPS
    ensures Dispatch(StageTaskType(k), Some(Stage(k + 1))) == Some(StageHandler(k))
    ensures SpecOf(StageHandler(k)).source == Stage(k)
    ensures NextOrderState(Stage(k)) == Some(SpecOf(StageHandler(k)).target)
    ensures StageHandler(k).Polls() <==> StageWindow(cfg, k).Some?
    ensures k + 1 < HOPS ==>
              && SpecOf(StageHandler(k)).nextType == Some(StageTaskType(k + 1))
              && SpecOf(StageHandler(k)).nextTarget == NextOrderState(Stage(k + 1))
    ensures k + 1 == HOPS ==> SpecOf(StageHandler(k)).nextType == None
    ensures var plan := FollowupSchedule(cfg, SpecOf(StageHandler(k)), occurredAt);
            k + 1 < HOPS ==>
              && plan.nextRunAt == occurredAt + StageDelay(cfg, k + 1)
              && match StageWindow(cfg, k + 1)
                 case Some(w) => plan.deadlineAt == Some(occurredAt + w)
                 case None => plan.deadlineAt == None
  {
  }

  /** Conversely a task is dispatched only if it is one of the five lifecycle tasks. */
  lemma DispatchedTasksAreLifecycleTasks(taskType: TaskType, target: Option<OrderState>)
    requires Dispatch(taskType, target).Some?
    ensures target.Some? && OnPath(target.value) && 0 < StageIndex(target.value)
    ensures taskType == StageTaskType(StageIndex(target.value) - 1)
    ensures Dispatch(taskType, target) == Some(StageHandler(StageIndex(target.value) - 1))
  {
  }
}
