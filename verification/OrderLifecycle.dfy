/** The order state machine shared by the API and the workers
    (backend/common/state_machine.py). */
module OrderLifecycle {
  import opened Optional

  datatype OrderState =
    | Placed
    | Confirmed
    | Preparing
    | Ready
    | OutForDelivery
    | Delivered
    | Cancelled
    | Failed

  function NextOrderState(current: OrderState): Option<OrderState> {
    match current
    case Placed => Some(Confirmed)
    case Confirmed => Some(Preparing)
    case Preparing => Some(Ready)
    case Ready => Some(OutForDelivery)
    case OutForDelivery => Some(Delivered)
    case _ => None
  }

  predicate CanTransition(source: OrderState, target: OrderState) {
    NextOrderState(source) == Some(target)
  }

  predicate IsTerminal(state: OrderState) {
    state == Delivered || state == Cancelled || state == Failed
  }

  /** Number of hops from `placed` to `delivered`. */
  const HOPS: nat := 5

  /** The k-th state of the happy path. */
  function Stage(k: nat): OrderState
    requires k <= HOPS
  {
    if k == 0 then Placed
    else if k == 1 then Confirmed
    else if k == 2 then Preparing
    else if k == 3 then Ready
    else if k == 4 then OutForDelivery
    else Delivered
  }

  predicate OnPath(state: OrderState) {
    state != Cancelled && state != Failed
  }

  function StageIndex(state: OrderState): (k: nat)
    requires OnPath(state)
    ensures k <= HOPS && Stage(k) == state
  {
    match state
    case Placed => 0
    case Confirmed => 1
    case Preparing => 2
    case Ready => 3
    case OutForDelivery => 4
    case Delivered => 5
  }

  /** A state sequence every step of which the transition table allows. */
  ghost predicate IsPath(states: seq<OrderState>) {
    forall i :: 0 < i < |states| ==> CanTransition(states[i - 1], states[i])
  }

  /** The transition table has exactly one maximal path: whatever path is walked, its k-th
      state is fixed by the first one. Hence no state repeats and no path is longer than six. */
  lemma {:induction false} PathsAreRigid(states: seq<OrderState>, k: nat)
    requires IsPath(states) && k < |states|
    requires OnPath(states[0])
    ensures StageIndex(states[0]) + k <= HOPS
    ensures states[k] == Stage(StageIndex(states[0]) + k)
  {
    if k > 0 {
      PathsAreRigid(states, k - 1);
      assert CanTransition(states[k - 1], states[k]);
    }
  }

  /** Every state is either terminal or has a successor, never both. */
  lemma TerminalIffNoSuccessor(state: OrderState)
    ensures IsTerminal(state) <==> NextOrderState(state) == None
  {
  }
}
