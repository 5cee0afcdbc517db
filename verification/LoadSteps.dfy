/** The load generator as a step system (backend/loadgen/app.py). A step is what the event loop
    runs without suspending: a control request up to its next await, a producer from one
    suspension to the next, a send from its answer on. Lock bodies await nothing, so the lock
    is never contended and taking it does not suspend. */
module LoadSteps {
  import opened Optional
  import opened Sets

  datatype RunConfig = RunConfig(runId: nat, maxOrders: Option<nat>)

  /** A task running _send_order; it is done once its outcome is counted and its permit back. */
  datatype Send = Send(run: RunConfig, sequence: nat, done: bool)

  /** Where a producer loop is suspended: not started yet, waiting for its next send time,
      queued at the semaphore, or handed a permit there and not resumed yet. */
  datatype Producer = Runnable | Sleeping | Acquiring | HoldsPermit | Exited

  /** Where a stop request is suspended. */
  datatype Stopping = AwaitProducer(producer: nat) | AwaitSends(sends: set<nat>)

  datatype Outcome = CreatedOrder | ReusedOrder | FailedSend

  datatype Load = Load(
    maxInflight: nat,
    free: nat,
    running: bool,
    run: Option<RunConfig>,
    attempted: nat,
    successful: nat,
    created: nat,
    reused: nat,
    failed: nat,
    sends: seq<Send>,
    inflight: set<nat>,
    producers: seq<Producer>,
    stops: map<nat, Stopping>)

  function Fresh(maxInflight: nat): Load {
    Load(maxInflight, maxInflight, false, None, 0, 0, 0, 0, 0, [], {}, [], map[])
  }

  /** `launches` is how many orders a producer sends before its next send time lies ahead. */
  datatype LoadStep =
    | Start(config: RunConfig)
    | StopBegin(stop: nat)
    | StopResume(stop: nat)
    | StopReturn(stop: nat)
    | ProducerStarts(producer: nat, launches: nat)
    | ProducerWakes(producer: nat, launches: nat)
    | ProducerTimesOut(producer: nat, launches: nat)
    | PermitGranted(producer: nat)
    | ProducerResumes(producer: nat, launches: nat)
    | SendRecords(send: nat, outcome: Outcome)
    | SendDiscarded(send: nat)

  predicate At(l: Load, p: nat, pc: Producer) {
    p < |l.producers| && l.producers[p] == pc
  }

  /** The run id is a fresh uuid. */
  predicate UnusedRun(l: Load, runId: nat) {
    && (l.run.Some? ==> l.run.value.runId != runId)
    && forall i :: 0 <= i < |l.sends| ==> l.sends[i].run.runId != runId
  }

  /** What the request schema admits: an order limit is positive. */
  predicate ValidRequest(config: RunConfig) {
    config.maxOrders.Some? ==> 0 < config.maxOrders.value
  }

  /** A loop that has just started, or was woken, takes the present as its next send time, so
      it sends at least once before it sleeps. */
  predicate Enabled(l: Load, step: LoadStep) {
    match step
    case Start(config) => UnusedRun(l, config.runId) && ValidRequest(config)
    case StopBegin(id) => id !in l.stops
    case StopResume(id) =>
      id in l.stops && l.stops[id].AwaitProducer? && At(l, l.stops[id].producer, Exited)
    case StopReturn(id) =>
      id in l.stops && l.stops[id].AwaitSends?
      && forall i :: i in l.stops[id].sends ==> i < |l.sends| && l.sends[i].done
    case ProducerStarts(p, launches) => At(l, p, Runnable) && 0 < launches
    case ProducerWakes(p, launches) => At(l, p, Sleeping) && 0 < launches
    case ProducerTimesOut(p, _) => At(l, p, Sleeping)
    case PermitGranted(p) => At(l, p, Acquiring) && 0 < l.free
    case ProducerResumes(p, _) => At(l, p, HoldsPermit)
    case SendRecords(i, _) => i < |l.sends| && !l.sends[i].done
    case SendDiscarded(i) => i < |l.sends| && l.sends[i].done && i in l.inflight
  }

  // ---------------------------------------------------------------- effects

  predicate Accepts(l: Load) {
    !l.running && l.inflight == {}
  }

  function Started(l: Load, config: RunConfig): Load {
    if !Accepts(l) then l
    else l.(run := Some(config), running := true, attempted := 0, successful := 0, created := 0,
            reused := 0, failed := 0, producers := l.producers + [Runnable])
  }

  /** The rest of stop once no producer is left to wait for; with nothing in flight it returns
      at once. */
  function Collected(l: Load, id: nat): Load {
    l.(stops := if l.inflight == {} then l.stops - {id} else l.stops[id := AwaitSends(l.inflight)])
  }

  /** The newest producer is the one _producer_task names. */
  function StopBegun(l: Load, id: nat): Load {
    if l.running && l.producers != []
    then l.(running := false, stops := l.stops[id := AwaitProducer(|l.producers| - 1)])
    else Collected(l.(running := false), id)
  }

  function Moved(l: Load, p: nat, pc: Producer): Load
    requires p < |l.producers|
  {
    l.(producers := l.producers[p := pc])
  }

  predicate LimitReached(l: Load) {
    l.run.Some? && l.run.value.maxOrders.Some? && l.attempted >= l.run.value.maxOrders.value
  }

  /** The semaphore lets a newcomer pass only if nobody is queued before it. */
  predicate PermitAvailable(l: Load) {
    0 < l.free
    && forall q :: 0 <= q < |l.producers| ==> l.producers[q] != Acquiring && l.producers[q] != HoldsPermit
  }

  function Acquired(l: Load, p: nat): Load
    requires p < |l.producers| && 0 < l.free
  {
    Moved(l, p, HoldsPermit).(free := l.free - 1)
  }

  /** _launch_order_request from its permit on: it goes back, or to the new send. */
  function Launched(l: Load, p: nat): Load
    requires p < |l.producers|
  {
    if !l.running || l.run == None then Moved(l, p, Runnable).(free := l.free + 1)
    else Moved(l, p, Runnable).(
           attempted := l.attempted + 1,
           sends := l.sends + [Send(l.run.value, l.attempted + 1, false)],
           inflight := l.inflight + {|l.sends|})
  }

  /** _producer_loop from its top to its next suspension. */
  function Looped(l: Load, p: nat, launches: nat): Load
    requires p < |l.producers|
    decreases launches
  {
    if !l.running || l.run == None then Moved(l, p, Exited)
    else if LimitReached(l) then Moved(l, p, Exited).(running := false)
    else if launches == 0 then Moved(l, p, Sleeping)
    else if PermitAvailable(l) then Looped(Launched(Acquired(l, p), p), p, launches - 1)
    else Moved(l, p, Acquiring)
  }

  /** A producer whose send time has come launches without looking at the top of the loop. */
  function TimedOut(l: Load, p: nat, launches: nat): Load
    requires p < |l.producers|
  {
    if PermitAvailable(l) then Looped(Launched(Acquired(l, p), p), p, launches) else Moved(l, p, Acquiring)
  }

  function Recorded(l: Load, i: nat, outcome: Outcome): Load
    requires i < |l.sends|
  {
    var finished := l.(sends := l.sends[i := l.sends[i].(done := true)], free := l.free + 1);
    match outcome
    case CreatedOrder => finished.(successful := l.successful + 1, created := l.created + 1)
    case ReusedOrder => finished.(successful := l.successful + 1, reused := l.reused + 1)
    case FailedSend => finished.(failed := l.failed + 1)
  }

  function Next(l: Load, step: LoadStep): Load
    requires Enabled(l, step)
  {
    match step
    case Start(config) => Started(l, config)
    case StopBegin(id) => StopBegun(l, id)
    case StopResume(id) => Collected(l, id)
    case StopReturn(id) => l.(stops := l.stops - {id})
    case ProducerStarts(p, launches) => Looped(l, p, launches)
    case ProducerWakes(p, launches) => Looped(l, p, launches)
    case ProducerTimesOut(p, launches) => TimedOut(l, p, launches)
    case PermitGranted(p) => Acquired(l, p)
    case ProducerResumes(p, launches) => Looped(Launched(l, p), p, launches)
    case SendRecords(i, outcome) => Recorded(l, i, outcome)
    case SendDiscarded(i) => l.(inflight := l.inflight - {i})
  }

  ghost predicate IsRun(states: seq<Load>, steps: seq<LoadStep>) {
    && |states| == |steps| + 1
    && forall i :: 0 <= i < |steps| ==> Enabled(states[i], steps[i]) && states[i + 1] == Next(states[i], steps[i])
  }

  /** A run of a freshly constructed generator. */
  ghost predicate IsFreshRun(states: seq<Load>, steps: seq<LoadStep>) {
    IsRun(states, steps) && states[0] == Fresh(states[0].maxInflight)
  }

  // ---------------------------------------------------------------- conservation

  /** Sends whose outcome is not counted yet. */
  function Unrecorded(l: Load): set<nat> {
    set i | 0 <= i < |l.sends| && !l.sends[i].done
  }

  /** Producers between getting a permit and handing it over. */
  function Holders(l: Load): set<nat> {
    set p | 0 <= p < |l.producers| && l.producers[p] == HoldsPermit
  }

  predicate Conserved(l: Load) {
    && l.attempted == l.successful + l.failed + |Unrecorded(l)|
    && l.successful == l.created + l.reused
    && l.free + |Holders(l)| + |Unrecorded(l)| == l.maxInflight
  }

  /** Uncounted sends are in the in-flight set, and the producers exist whenever a run does. */
  ghost predicate Tracked(l: Load) {
    && Unrecorded(l) <= l.inflight
    && (forall i :: i in l.inflight ==> i < |l.sends|)
    && (l.running ==> l.producers != [] && l.run.Some?)
  }

  /** Sequence numbers of the current run are taken, in order, from the counter. */
  ghost predicate Sequenced(l: Load) {
    && (forall i :: 0 <= i < |l.sends| && Some(l.sends[i].run) == l.run ==> 1 <= l.sends[i].sequence <= l.attempted)
    && (forall i :: 0 <= i < |l.sends| && l.run.Some? && l.sends[i].run.runId == l.run.value.runId ==>
                      l.sends[i].run == l.run.value)
    && (forall i, j :: 0 <= i < j < |l.sends| ==>
          !(l.sends[i].run.runId == l.sends[j].run.runId && l.sends[i].sequence == l.sends[j].sequence))
    && (l.run == None ==> l.sends == [])
  }

  ghost predicate Inv(l: Load) {
    Conserved(l) && Tracked(l) && Sequenced(l)
  }

  lemma MovedHolders(l: Load, p: nat, pc: Producer)
    requires p < |l.producers|
    ensures |Holders(Moved(l, p, pc))| + (if l.producers[p] == HoldsPermit then 1 else 0)
            == |Holders(l)| + (if pc == HoldsPermit then 1 else 0)
  {
    var l' := Moved(l, p, pc);
    assert Holders(l') - {p} == Holders(l) - {p};
    SizeWithout(Holders(l), p);
    SizeWithout(Holders(l'), p);
  }

  lemma LaunchedIsOpen(l: Load, p: nat)
    requires p < |l.producers| && l.running && l.run.Some?
    ensures Unrecorded(Launched(l, p)) == Unrecorded(l) + {|l.sends|}
    ensures Holders(Launched(l, p)) == Holders(Moved(l, p, Runnable))
  {
  }

  lemma LaunchedCounts(l: Load, p: nat)
    requires Inv(l) && At(l, p, HoldsPermit)
    ensures Conserved(Launched(l, p)) && Tracked(Launched(l, p))
  {
    MovedHolders(l, p, Runnable);
    if l.running {
      LaunchedIsOpen(l, p);
      SizeWithout(Unrecorded(Launched(l, p)), |l.sends|);
      assert Unrecorded(Launched(l, p)) - {|l.sends|} == Unrecorded(l);
    }
  }

  lemma RecordedIsDone(l: Load, i: nat, outcome: Outcome)
    requires i < |l.sends| && !l.sends[i].done
    ensures Unrecorded(Recorded(l, i, outcome)) == Unrecorded(l) - {i} && i in Unrecorded(l)
    ensures Holders(Recorded(l, i, outcome)) == Holders(l)
  {
  }

  lemma RecordedCounts(l: Load, i: nat, outcome: Outcome)
    requires Inv(l) && i < |l.sends| && !l.sends[i].done
    ensures Conserved(Recorded(l, i, outcome)) && Tracked(Recorded(l, i, outcome))
  {
    RecordedIsDone(l, i, outcome);
    SizeWithout(Unrecorded(l), i);
  }

  lemma StartedCounts(l: Load, config: RunConfig)
    requires Inv(l) && Accepts(l)
    ensures Conserved(Started(l, config)) && Tracked(Started(l, config))
  {
    var l' := Started(l, config);
    assert Unrecorded(l') == Unrecorded(l) == {};
    assert Holders(l') == Holders(l);
  }

  lemma MovedKeepsInv(l: Load, p: nat, pc: Producer)
    requires Inv(l) && p < |l.producers| && l.producers[p] != HoldsPermit && pc != HoldsPermit
    ensures Inv(Moved(l, p, pc))
  {
    MovedHolders(l, p, pc);
    assert Unrecorded(Moved(l, p, pc)) == Unrecorded(l);
  }

  lemma AcquiredKeepsInv(l: Load, p: nat)
    requires Inv(l) && p < |l.producers| && l.producers[p] != HoldsPermit && 0 < l.free
    ensures Inv(Acquired(l, p))
  {
    MovedHolders(l, p, HoldsPermit);
    assert Holders(Acquired(l, p)) == Holders(Moved(l, p, HoldsPermit));
    assert Unrecorded(Acquired(l, p)) == Unrecorded(l);
  }

  lemma LaunchedSequenced(l: Load, p: nat)
    requires Inv(l) && At(l, p, HoldsPermit)
    ensures Sequenced(Launched(l, p))
  {
  }

  lemma LaunchedKeepsInv(l: Load, p: nat)
    requires Inv(l) && At(l, p, HoldsPermit)
    ensures Inv(Launched(l, p))
  {
    LaunchedCounts(l, p);
    LaunchedSequenced(l, p);
  }

  lemma HaltedKeepsInv(l: Load)
    requires Inv(l)
    ensures Inv(l.(running := false))
  {
    var l' := l.(running := false);
    assert Holders(l') == Holders(l) && Unrecorded(l') == Unrecorded(l);
  }

  /** The producer loop may send. */
  predicate MayLaunch(l: Load) {
    l.running && l.run.Some? && !LimitReached(l)
  }

  lemma LoopUnrolls(l: Load, p: nat, launches: nat)
    requires p < |l.producers| && MayLaunch(l) && 0 < launches
    ensures Looped(l, p, launches) ==
            if PermitAvailable(l) then Looped(Launched(Acquired(l, p), p), p, launches - 1)
            else Moved(l, p, Acquiring)
  {
  }

  lemma {:induction false} LoopedKeepsInv(l: Load, p: nat, launches: nat)
    requires Inv(l) && p < |l.producers| && l.producers[p] != HoldsPermit
    ensures Inv(Looped(l, p, launches))
    decreases launches
  {
    MovedKeepsInv(l, p, Exited);
    MovedKeepsInv(l, p, Sleeping);
    MovedKeepsInv(l, p, Acquiring);
    if !l.running || l.run == None {
    } else if LimitReached(l) {
      HaltedKeepsInv(Moved(l, p, Exited));
    } else if launches > 0 && PermitAvailable(l) {
      AcquiredKeepsInv(l, p);
      LaunchedKeepsInv(Acquired(l, p), p);
      LoopedKeepsInv(Launched(Acquired(l, p), p), p, launches - 1);
    }
  }

  lemma TimedOutKeepsInv(l: Load, p: nat, launches: nat)
    requires Inv(l) && At(l, p, Sleeping)
    ensures Inv(TimedOut(l, p, launches))
  {
    MovedKeepsInv(l, p, Acquiring);
    if PermitAvailable(l) {
      AcquiredKeepsInv(l, p);
      LaunchedKeepsInv(Acquired(l, p), p);
      LoopedKeepsInv(Launched(Acquired(l, p), p), p, launches);
    }
  }

  lemma StartedKeepsInv(l: Load, config: RunConfig)
    requires Inv(l) && UnusedRun(l, config.runId) && Accepts(l)
    ensures Inv(Started(l, config))
  {
    StartedCounts(l, config);
  }

  lemma RecordedKeepsInv(l: Load, i: nat, outcome: Outcome)
    requires Inv(l) && i < |l.sends| && !l.sends[i].done
    ensures Inv(Recorded(l, i, outcome))
  {
    RecordedCounts(l, i, outcome);
    var l' := Recorded(l, i, outcome);
    assert forall n :: 0 <= n < |l.sends| ==>
                         l'.sends[n].run == l.sends[n].run && l'.sends[n].sequence == l.sends[n].sequence;
  }

  /** Steps that touch the stop table, the flag or the in-flight set only. */
  lemma ControlKeepsInv(l: Load, step: LoadStep)
    requires Inv(l) && Enabled(l, step)
    requires step.StopBegin? || step.StopResume? || step.StopReturn? || step.SendDiscarded?
    ensures Inv(Next(l, step))
  {
    var l' := Next(l, step);
    assert Holders(l') == Holders(l) && Unrecorded(l') == Unrecorded(l);
  }

  lemma NextKeepsInv(l: Load, step: LoadStep)
    requires Inv(l) && Enabled(l, step)
    ensures Inv(Next(l, step))
  {
    match step
    case Start(config) => if Accepts(l) { StartedKeepsInv(l, config); }
    case ProducerStarts(p, launches) => LoopedKeepsInv(l, p, launches);
    case ProducerWakes(p, launches) => LoopedKeepsInv(l, p, launches);
    case ProducerTimesOut(p, launches) => TimedOutKeepsInv(l, p, launches);
    case PermitGranted(p) => AcquiredKeepsInv(l, p);
    case ProducerResumes(p, launches) =>
      LaunchedKeepsInv(l, p);
      LoopedKeepsInv(Launched(l, p), p, launches);
    case SendRecords(i, outcome) => RecordedKeepsInv(l, i, outcome);
    case _ => ControlKeepsInv(l, step);
  }

  lemma {:induction false} RunKeepsInv(states: seq<Load>, steps: seq<LoadStep>, i: nat)
    requires IsFreshRun(states, steps) && i <= |steps|
    ensures Inv(states[i])
  {
    if i > 0 {
      RunKeepsInv(states, steps, i - 1);
      NextKeepsInv(states[i - 1], steps[i - 1]);
    } else {
      assert Unrecorded(states[0]) == {} && Holders(states[0]) == {};
    }
  }

  // ---------------------------------------------------------------- what a producer's step does

  /** What a stretch of a producer leaves alone, and where it may end: in the loop only while
      the run is on and below its limit. */
  ghost predicate StretchOk(l: Load, l': Load, p: nat) {
    && p < |l.producers| == |l'.producers|
    && (forall q :: 0 <= q < |l.producers| && q != p ==> l'.producers[q] == l.producers[q])
    && l'.stops == l.stops && l'.run == l.run && l'.maxInflight == l.maxInflight
    && (l'.running ==> l.running && !LimitReached(l'))
    && (l'.producers[p] != Exited ==> l'.running)
  }

  lemma {:induction false} LoopedStretch(l: Load, p: nat, launches: nat)
    requires p < |l.producers|
    ensures StretchOk(l, Looped(l, p, launches), p)
    decreases launches
  {
    if MayLaunch(l) && launches > 0 && PermitAvailable(l) {
      LoopedStretch(Launched(Acquired(l, p), p), p, launches - 1);
    }
  }

  lemma LaunchStretch(l: Load, p: nat, launches: nat)
    requires p < |l.producers|
    ensures StretchOk(l, Looped(Launched(l, p), p, launches), p)
  {
    LoopedStretch(Launched(l, p), p, launches);
  }

  lemma AcquireStretch(l: Load, p: nat, launches: nat)
    requires p < |l.producers| && 0 < l.free
    ensures StretchOk(l, Looped(Launched(Acquired(l, p), p), p, launches), p)
  {
    LoopedStretch(Launched(Acquired(l, p), p), p, launches);
  }

  /** Every step of a producer's own code is a stretch, unless it only queues for a permit. */
  lemma ProducerStretch(l: Load, step: LoadStep)
    requires Enabled(l, step) && IsProducerStep(step)
    requires step.ProducerTimesOut? ==> PermitAvailable(l)
    ensures StretchOk(l, Next(l, step), step.producer)
  {
    if step.ProducerTimesOut? {
      AcquireStretch(l, step.producer, step.launches);
    } else if step.ProducerResumes? {
      LaunchStretch(l, step.producer, step.launches);
    } else {
      LoopedStretch(l, step.producer, step.launches);
    }
  }

  predicate IsProducerStep(step: LoadStep) {
    step.ProducerStarts? || step.ProducerWakes? || step.ProducerTimesOut? || step.ProducerResumes?
  }

  /** The current run's limit, if it has one. */
  predicate Within(l: Load) {
    l.run.Some? && l.run.value.maxOrders.Some? ==> l.attempted <= l.run.value.maxOrders.value
  }

  lemma {:induction false} LoopedWithin(l: Load, p: nat, launches: nat)
    requires p < |l.producers| && Within(l)
    ensures Within(Looped(l, p, launches))
    decreases launches
  {
    if MayLaunch(l) && launches > 0 && PermitAvailable(l) {
      LoopedWithin(Launched(Acquired(l, p), p), p, launches - 1);
    }
  }

  // ---------------------------------------------------------------- theorems for every run

  /** Conservation: at every suspension point of every run, overlapping controls included,
      every attempt is a success, a failure or a send still to be counted; every success
      created or reused an order; and no permit is lost or duplicated. */
  lemma LoadIsConserved(states: seq<Load>, steps: seq<LoadStep>, i: nat)
    requires IsFreshRun(states, steps) && i <= |steps|
    ensures Conserved(states[i])
    ensures |Unrecorded(states[i])| <= states[i].maxInflight == states[0].maxInflight
  {
    RunKeepsInv(states, steps, i);
    CapIsConstant(states, steps, i);
  }

  lemma StepKeepsCap(l: Load, step: LoadStep)
    requires Enabled(l, step)
    ensures Next(l, step).maxInflight == l.maxInflight
  {
    if IsProducerStep(step) && (step.ProducerTimesOut? ==> PermitAvailable(l)) {
      ProducerStretch(l, step);
    }
  }

  lemma {:induction false} CapIsConstant(states: seq<Load>, steps: seq<LoadStep>, i: nat)
    requires IsRun(states, steps) && i <= |steps|
    ensures states[i].maxInflight == states[0].maxInflight
  {
    if i > 0 {
      CapIsConstant(states, steps, i - 1);
      StepKeepsCap(states[i - 1], steps[i - 1]);
    }
  }

  /** No two sends ever carry the same idempotency key. */
  lemma KeysAreUnique(states: seq<Load>, steps: seq<LoadStep>, n: nat, i: nat, j: nat)
    requires IsFreshRun(states, steps) && n <= |steps|
    requires i < |states[n].sends| && j < |states[n].sends|
    ensures (states[n].sends[i].run.runId == states[n].sends[j].run.runId
             && states[n].sends[i].sequence == states[n].sends[j].sequence) <==> i == j
  {
    RunKeepsInv(states, steps, n);
  }

  /** Whenever producers are suspended, a run that is still on has room for one more order. */
  predicate HasRoom(l: Load) {
    Within(l) && (l.running ==> !LimitReached(l))
  }

  lemma StepKeepsRoom(l: Load, step: LoadStep)
    requires HasRoom(l) && Enabled(l, step)
    ensures HasRoom(Next(l, step))
  {
    match step
    case ProducerStarts(p, launches) => LoopedStretch(l, p, launches); LoopedWithin(l, p, launches);
    case ProducerWakes(p, launches) => LoopedStretch(l, p, launches); LoopedWithin(l, p, launches);
    case ProducerTimesOut(p, launches) =>
      if PermitAvailable(l) {
        LoopedStretch(Launched(Acquired(l, p), p), p, launches);
        LoopedWithin(Launched(Acquired(l, p), p), p, launches);
      }
    case ProducerResumes(p, launches) =>
      LoopedStretch(Launched(l, p), p, launches);
      LoopedWithin(Launched(l, p), p, launches);
    case _ =>
  }

  lemma {:induction false} RunHasRoom(states: seq<Load>, steps: seq<LoadStep>, i: nat)
    requires IsFreshRun(states, steps) && i <= |steps|
    ensures HasRoom(states[i])
  {
    if i > 0 {
      RunHasRoom(states, steps, i - 1);
      StepKeepsRoom(states[i - 1], steps[i - 1]);
    }
  }

  /** However starts and stops overlap, no run ever attempts more orders than it was asked
      for, and a run that is still on has attempted fewer. */
  lemma OrderLimitHolds(states: seq<Load>, steps: seq<LoadStep>, i: nat)
    requires IsFreshRun(states, steps) && i <= |steps|
    requires states[i].run.Some? && states[i].run.value.maxOrders.Some?
    ensures states[i].attempted <= states[i].run.value.maxOrders.value
    ensures states[i].running ==> states[i].attempted < states[i].run.value.maxOrders.value
  {
    RunHasRoom(states, steps, i);
  }

  // ---------------------------------------------------------------- one producer

  /** Producers that may still launch. */
  function Live(l: Load): set<nat> {
    set p | 0 <= p < |l.producers| && l.producers[p] != Exited
  }

  predicate AcceptedStart(l: Load, step: LoadStep) {
    step.Start? && Accepts(l)
  }

  /** Some stop still waits for producer p to exit. */
  predicate IsAwaited(l: Load, p: nat) {
    exists id :: id in l.stops && l.stops[id] == AwaitProducer(p)
  }

  /** Some stop waits for a producer that has not exited. */
  predicate StopPending(l: Load) {
    exists id :: id in l.stops && l.stops[id].AwaitProducer?
                 && l.stops[id].producer < |l.producers| && l.producers[l.stops[id].producer] != Exited
  }

  /** Only the newest producer may be live, and it is running or awaited by the stop that ended
      its run. */
  ghost predicate SoleProducer(l: Load) {
    && (forall p :: 0 <= p < |l.producers| - 1 ==> l.producers[p] == Exited)
    && (!l.running && l.producers != [] && l.producers[|l.producers| - 1] != Exited ==>
          IsAwaited(l, |l.producers| - 1))
  }

  lemma StretchKeepsSole(l: Load, l': Load, p: nat)
    requires SoleProducer(l) && StretchOk(l, l', p) && l.producers[p] != Exited
    ensures SoleProducer(l')
  {
    assert p == |l.producers| - 1;
  }

  /** A timed-out producer that has to queue for a permit. */
  lemma QueuedKeepsSole(l: Load, p: nat, pc: Producer)
    requires SoleProducer(l) && p < |l.producers| && l.producers[p] != Exited && pc != Exited
    ensures SoleProducer(Moved(l, p, pc))
  {
    var last := |l.producers| - 1;
    if !l.running && l.producers[last] != Exited {
      var id :| id in l.stops && l.stops[id] == AwaitProducer(last);
      assert id in Moved(l, p, pc).stops;
    }
  }

  lemma ProducerKeepsSole(l: Load, step: LoadStep)
    requires SoleProducer(l) && Enabled(l, step)
    requires IsProducerStep(step) || step.PermitGranted?
    ensures SoleProducer(Next(l, step))
  {
    var l', p := Next(l, step), step.producer;
    if step.PermitGranted? {
      QueuedKeepsSole(l, p, HoldsPermit);
      assert IsAwaited(Moved(l, p, HoldsPermit), |l.producers| - 1) ==> IsAwaited(l', |l.producers| - 1);
    } else if step.ProducerTimesOut? && !PermitAvailable(l) {
      QueuedKeepsSole(l, p, Acquiring);
    } else {
      ProducerStretch(l, step);
      StretchKeepsSole(l, l', p);
    }
  }

  lemma LiveIsPending(l: Load)
    requires SoleProducer(l) && !l.running && l.producers != [] && l.producers[|l.producers| - 1] != Exited
    ensures StopPending(l)
  {
    var id :| id in l.stops && l.stops[id] == AwaitProducer(|l.producers| - 1);
  }

  lemma ControlKeepsSole(l: Load, step: LoadStep)
    requires SoleProducer(l) && Enabled(l, step)
    requires AcceptedStart(l, step) ==> !StopPending(l)
    requires !IsProducerStep(step) && !step.PermitGranted?
    ensures SoleProducer(Next(l, step))
  {
    var l', last := Next(l, step), |l.producers| - 1;
    if AcceptedStart(l, step) {
      if l.producers != [] && l.producers[last] != Exited {
        LiveIsPending(l);
      }
    } else if !l'.running && l.producers != [] && l.producers[last] != Exited {
      if step.StopBegin? && l.running {
        assert step.stop in l'.stops && l'.stops[step.stop] == AwaitProducer(last);
      } else {
        var id :| id in l.stops && l.stops[id] == AwaitProducer(last);
        assert id in l'.stops && l'.stops[id] == AwaitProducer(last);
      }
    }
  }

  lemma {:induction false} SoleProducerRun(states: seq<Load>, steps: seq<LoadStep>, i: nat)
    requires IsFreshRun(states, steps) && i <= |steps|
    requires forall n :: 0 <= n < i && AcceptedStart(states[n], steps[n]) ==> !StopPending(states[n])
    ensures SoleProducer(states[i])
  {
    if i > 0 {
      SoleProducerRun(states, steps, i - 1);
      var l, step := states[i - 1], steps[i - 1];
      if IsProducerStep(step) || step.PermitGranted? {
        ProducerKeepsSole(l, step);
      } else {
        ControlKeepsSole(l, step);
      }
    }
  }

  lemma SoleIsOne(l: Load)
    requires SoleProducer(l)
    ensures |Live(l)| <= 1
  {
    if l.producers != [] {
      SubsetSize(Live(l), {|l.producers| - 1});
    } else {
      assert Live(l) == {};
    }
  }

  lemma StartAddsProducer(l: Load, config: RunConfig)
    requires Accepts(l)
    ensures |Live(Started(l, config))| == |Live(l)| + 1
  {
    var l' := Started(l, config);
    assert Live(l') - {|l.producers|} == Live(l);
    SizeWithout(Live(l'), |l.producers|);
  }

  lemma PendingIsLive(l: Load)
    requires StopPending(l)
    ensures 1 <= |Live(l)|
  {
    var id :| id in l.stops && l.stops[id].AwaitProducer?
              && l.stops[id].producer < |l.producers| && l.producers[l.stops[id].producer] != Exited;
    SubsetSize({l.stops[id].producer}, Live(l));
  }

  /** In any run there is never more than one producer alive if and only if no start is
      accepted while a stop still waits for a producer that has not exited. */
  lemma OneProducerExactly(states: seq<Load>, steps: seq<LoadStep>)
    requires IsFreshRun(states, steps)
    ensures (forall i :: 0 <= i <= |steps| ==> |Live(states[i])| <= 1)
            <==> (forall i :: 0 <= i < |steps| && AcceptedStart(states[i], steps[i]) ==> !StopPending(states[i]))
  {
    if forall i :: 0 <= i < |steps| && AcceptedStart(states[i], steps[i]) ==> !StopPending(states[i]) {
      forall i | 0 <= i <= |steps|
        ensures |Live(states[i])| <= 1
      {
        SoleProducerRun(states, steps, i);
        SoleIsOne(states[i]);
      }
    } else {
      var i :| 0 <= i < |steps| && AcceptedStart(states[i], steps[i]) && StopPending(states[i]);
      PendingIsLive(states[i]);
      StartAddsProducer(states[i], steps[i].config);
      assert |Live(states[i + 1])| > 1;
    }
  }

  // ---------------------------------------------------------------- final counts

  /** The step returns from stop request `id`. */
  predicate Returns(l: Load, step: LoadStep, id: nat)
    requires Enabled(l, step)
  {
    && (step == StopBegin(id) || step == StopResume(id) || step == StopReturn(id))
    && id !in Next(l, step).stops
  }

  /** The run is over for stop `id`; once it holds its snapshot, every uncounted send is in it. */
  ghost predicate Settled(l: Load, id: nat) {
    !l.running && (id in l.stops && l.stops[id].AwaitSends? ==> Unrecorded(l) <= l.stops[id].sends)
  }

  /** A producer that finds the run over sends nothing more. */
  lemma OverMeansNoLaunch(l: Load, step: LoadStep)
    requires !l.running && Enabled(l, step) && !AcceptedStart(l, step)
    ensures !Next(l, step).running && Unrecorded(Next(l, step)) <= Unrecorded(l)
  {
  }

  lemma StepKeepsSettled(l: Load, step: LoadStep, id: nat)
    requires Inv(l) && Settled(l, id) && id in l.stops && Enabled(l, step) && !AcceptedStart(l, step)
    ensures Settled(Next(l, step), id)
  {
    OverMeansNoLaunch(l, step);
    if !step.StopResume? {
      StopsUntouched(l, step, id);
    }
  }

  lemma StopsUntouched(l: Load, step: LoadStep, id: nat)
    requires id in l.stops && Enabled(l, step) && !step.StopResume?
    ensures id in Next(l, step).stops ==> Next(l, step).stops[id] == l.stops[id]
  {
    if IsProducerStep(step) && (step.ProducerTimesOut? ==> PermitAvailable(l)) {
      ProducerStretch(l, step);
    }
  }

  lemma BeginSettles(l: Load, id: nat)
    requires Inv(l)
    ensures Settled(StopBegun(l, id), id)
  {
    assert Unrecorded(StopBegun(l, id)) == Unrecorded(l);
  }

  lemma {:induction false} StopStaysSettled(states: seq<Load>, steps: seq<LoadStep>, id: nat, b: nat, n: nat)
    requires IsFreshRun(states, steps) && b < n <= |steps| && steps[b] == StopBegin(id)
    requires forall m :: b < m < n ==> id in states[m].stops && !AcceptedStart(states[m], steps[m])
    ensures Settled(states[n], id)
    decreases n
  {
    RunKeepsInv(states, steps, n - 1);
    if b == n - 1 {
      BeginSettles(states[b], id);
    } else {
      StopStaysSettled(states, steps, id, b, n - 1);
      StepKeepsSettled(states[n - 1], steps[n - 1], id);
    }
  }

  lemma ReturnIsComplete(l: Load, step: LoadStep, id: nat)
    requires Inv(l) && Enabled(l, step) && Returns(l, step, id)
    requires step.StopReturn? ==> Settled(l, id)
    ensures Unrecorded(Next(l, step)) == {}
    ensures step.StopBegin? ==> !Next(l, step).running
  {
    assert Unrecorded(Next(l, step)) == Unrecorded(l);
  }

  /** When a stop returns its counters are complete and the run is over, provided no start was
      accepted since it began; other stops may come and go meanwhile. */
  lemma FinalCountsAreComplete(states: seq<Load>, steps: seq<LoadStep>, id: nat, b: nat, r: nat)
    requires IsFreshRun(states, steps) && b <= r < |steps|
    requires steps[b] == StopBegin(id) && Returns(states[r], steps[r], id)
    requires forall m :: b < m <= r ==> id in states[m].stops && !AcceptedStart(states[m], steps[m])
    ensures states[r + 1].attempted == states[r + 1].successful + states[r + 1].failed
    ensures !states[r + 1].running
  {
    RunKeepsInv(states, steps, r);
    RunKeepsInv(states, steps, r + 1);
    if b < r {
      StopStaysSettled(states, steps, id, b, r);
      OverMeansNoLaunch(states[r], steps[r]);
    }
    ReturnIsComplete(states[r], steps[r], id);
  }

  // ---------------------------------------------------------------- overlapping control

  lemma Extend(states: seq<Load>, steps: seq<LoadStep>, step: LoadStep)
    returns (states': seq<Load>, steps': seq<LoadStep>)
    requires IsFreshRun(states, steps) && Enabled(states[|steps|], step)
    ensures IsFreshRun(states', steps') && states'[|steps'|] == Next(states[|steps|], step)
    ensures steps' == steps + [step] && states'[..|states|] == states
  {
    states', steps' := states + [Next(states[|steps|], step)], steps + [step];
    forall i | 0 <= i < |steps'|
      ensures Enabled(states'[i], steps'[i]) && states'[i + 1] == Next(states'[i], steps'[i])
    {
      assert states'[i] == states[i];
      assert i < |steps| ==> steps'[i] == steps[i] && states'[i + 1] == states[i + 1];
    }
  }

  /** One order sent, then asleep. */
  function SentOne(l: Load, p: nat): Load
    requires p < |l.producers| && 0 < l.free && l.run.Some?
  {
    l.(free := l.free - 1, attempted := l.attempted + 1,
       sends := l.sends + [Send(l.run.value, l.attempted + 1, false)], inflight := l.inflight + {|l.sends|},
       producers := l.producers[p := Sleeping])
  }

  lemma LoopsOnce(l: Load, p: nat)
    requires p < |l.producers| && l.running && l.run.Some? && l.run.value.maxOrders == None && PermitAvailable(l)
    ensures Looped(l, p, 1) == SentOne(l, p)
  {
    var launched := Launched(Acquired(l, p), p);
    assert Looped(launched, p, 0) == Moved(launched, p, Sleeping);
    assert Moved(launched, p, Sleeping).producers == l.producers[p := Sleeping];
  }

  /** One order sent and answered by the first producer, which sleeps. */
  lemma FirstOrder(config: RunConfig) returns (states: seq<Load>, steps: seq<LoadStep>)
    requires config.maxOrders == None
    ensures IsFreshRun(states, steps)
    ensures var l := states[|steps|];
            && l.running && l.run == Some(config) && l.producers == [Sleeping] && l.stops == map[]
            && l.free == 2 && l.inflight == {} && |l.sends| == 1 && l.sends[0].run == config
  {
    states, steps := [Fresh(2)], [];
    states, steps := Extend(states, steps, Start(config));
    LoopsOnce(states[|steps|], 0);
    states, steps := Extend(states, steps, ProducerStarts(0, 1));
    states, steps := Extend(states, steps, SendRecords(0, CreatedOrder));
    states, steps := Extend(states, steps, SendDiscarded(0));
  }

  /** A stop begins, and a second start is accepted before the sleeping producer resumes. */
  lemma RestartedRun(config: RunConfig, again: RunConfig) returns (states: seq<Load>, steps: seq<LoadStep>)
    requires config.runId != again.runId && config.maxOrders == again.maxOrders == None
    ensures IsFreshRun(states, steps) && |steps| > 0
    ensures var l := states[|steps|];
            && l.running && l.run == Some(again) && l.attempted == 0 && l.free == 2
            && l.producers == [Sleeping, Runnable]
    ensures AcceptedStart(states[|steps| - 1], steps[|steps| - 1]) && StopPending(states[|steps| - 1])
  {
    states, steps := FirstOrder(config);
    states, steps := Extend(states, steps, StopBegin(0));
    var stopped := states[|steps|];
    assert 0 in stopped.stops && stopped.stops[0] == AwaitProducer(0);
    assert StopPending(stopped);
    states, steps := Extend(states, steps, Start(again));
  }

  lemma BothLaunch(before: seq<Load>, earlier: seq<LoadStep>, again: RunConfig)
    returns (states: seq<Load>, steps: seq<LoadStep>)
    requires IsFreshRun(before, earlier) && again.maxOrders == None
    requires var l := before[|earlier|];
             && l.running && l.run == Some(again) && l.attempted == 0 && l.free == 2
             && l.producers == [Sleeping, Runnable]
    ensures IsFreshRun(states, steps)
    ensures |steps| == |earlier| + 2 && steps[..|earlier|] == earlier && states[..|before|] == before
    ensures states[|steps|].running && states[|steps|].attempted == 2
    ensures states[|steps|].producers == [Sleeping, Sleeping]
  {
    LoopsOnce(before[|earlier|], 0);
    states, steps := Extend(before, earlier, ProducerWakes(0, 1));
    LoopsOnce(states[|steps|], 1);
    states, steps := Extend(states, steps, ProducerStarts(1, 1));
  }

  /** A concrete overlap: the second start is accepted while the stop still waits, the old
      producer wakes to find the generator running again, and both send for the new run. */
  lemma OverlapKeepsOldProducer() returns (states: seq<Load>, steps: seq<LoadStep>)
    ensures IsFreshRun(states, steps)
    ensures exists i :: 0 <= i < |steps| && AcceptedStart(states[i], steps[i]) && StopPending(states[i])
    ensures states[|steps|].running && |Live(states[|steps|])| == 2 && states[|steps|].attempted == 2
  {
    var again := RunConfig(1, None);
    var before, earlier := RestartedRun(RunConfig(0, None), again);
    var start := |earlier| - 1;
    states, steps := BothLaunch(before, earlier, again);
    assert states[start] == before[start] && steps[start] == earlier[start];
    assert Live(states[|steps|]) == {0, 1};
  }
}
