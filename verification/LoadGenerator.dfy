/** The LoadGenerator object: one method per stretch of code between two suspension points,
    each changing the fields in place exactly as its step does. */
module LoadGenerator {
  import opened Optional
  import opened LoadSteps

  /** The number is above that of every send of the run. */
  ghost predicate IsNewest(l: Load, sequence: nat) {
    forall i :: 0 <= i < |l.sends| && Some(l.sends[i].run) == l.run ==> l.sends[i].sequence < sequence
  }

  datatype ControlReply = Accepted | AlreadyRunning | StillDraining

  class LoadGenerator {
    const maxInflight: nat
    var free: nat
    var running: bool
    var run: Option<RunConfig>
    var attempted: nat
    var successful: nat
    var created: nat
    var reused: nat
    var failed: nat
    var sends: seq<Send>
    var inflight: set<nat>
    var producers: seq<Producer>
    var stops: map<nat, Stopping>

    ghost function Contents(): Load
      reads this
    {
      Load(maxInflight, free, running, run, attempted, successful, created, reused, failed, sends, inflight,
           producers, stops)
    }

    ghost predicate Valid()
      reads this
    {
      Inv(Contents())
    }

    constructor (maxInflight: nat)
      ensures Contents() == Fresh(maxInflight) && Valid()
    {
      this.maxInflight := maxInflight;
      free := maxInflight;
      running := false;
      run := None;
      attempted, successful, created, reused, failed := 0, 0, 0, 0, 0;
      sends := [];
      inflight := {};
      producers := [];
      stops := map[];
      new;
      assert Unrecorded(Contents()) == {} && Holders(Contents()) == {};
    }

    method Start(config: RunConfig) returns (reply: ControlReply)
      requires Valid() && UnusedRun(Contents(), config.runId)
      modifies this
      ensures Valid() && Contents() == Started(old(Contents()), config)
      ensures reply == if old(running) then AlreadyRunning
                       else if old(inflight) != {} then StillDraining else Accepted
    {
      if running || inflight != {} {
        reply := if running then AlreadyRunning else StillDraining;
      } else {
        StartedKeepsInv(Contents(), config);
        run := Some(config);
        attempted := 0;
        successful := 0;
        created := 0;
        reused := 0;
        failed := 0;
        running := true;
        producers := producers + [Runnable];
        reply := Accepted;
      }
    }

    /** stop up to its first await; true when it has returned already. */
    method BeginStop(id: nat) returns (returned: bool)
      requires Valid() && id !in stops
      modifies this`running, this`stops
      ensures Valid() && Contents() == StopBegun(old(Contents()), id)
      ensures !running && (returned <==> id !in stops)
      ensures returned ==> attempted == successful + failed
    {
      ControlKeepsInv(Contents(), StopBegin(id));
      if running && producers != [] {
        running := false;
        stops := stops[id := AwaitProducer(|producers| - 1)];
        returned := false;
      } else {
        running := false;
        returned := CollectInflight(id);
      }
    }

    /** stop once its producer is gone, or right away when there was none: wait for what is in
        flight, or return. */
    method CollectInflight(id: nat) returns (returned: bool)
      requires Valid()
      modifies this`stops
      ensures Valid() && Contents() == Collected(old(Contents()), id)
      ensures returned <==> id !in stops
      ensures returned ==> attempted == successful + failed
      ensures !returned ==> stops[id] == AwaitSends(inflight) && Unrecorded(Contents()) <= inflight
    {
      assert Unrecorded(Collected(Contents(), id)) == Unrecorded(Contents());
      assert Holders(Collected(Contents(), id)) == Holders(Contents());
      returned := inflight == {};
      if returned {
        stops := stops - {id};
      } else {
        stops := stops[id := AwaitSends(inflight)];
      }
    }

    /** The end of stop, when everything it waited for is done. */
    method FinishStop(id: nat)
      requires Valid() && Enabled(Contents(), StopReturn(id))
      modifies this`stops
      ensures Valid() && Contents() == Next(old(Contents()), StopReturn(id))
    {
      ControlKeepsInv(Contents(), StopReturn(id));
      stops := stops - {id};
    }

    method AcquirePermit(p: nat)
      requires Valid() && p < |producers| && producers[p] != HoldsPermit && 0 < free
      modifies this`free, this`producers
      ensures Valid() && Contents() == Acquired(old(Contents()), p)
    {
      AcquiredKeepsInv(Contents(), p);
      free := free - 1;
      producers := producers[p := HoldsPermit];
    }

    /** _launch_order_request once it holds a permit; the result is the new send's number. */
    method LaunchOrderRequest(p: nat) returns (sequence: Option<nat>)
      requires Valid() && At(Contents(), p, HoldsPermit)
      modifies this`free, this`attempted, this`sends, this`inflight, this`producers
      ensures Valid() && Contents() == Launched(old(Contents()), p)
      ensures sequence.Some? <==> running
      ensures sequence.Some? ==> sequence.value == attempted && IsNewest(old(Contents()), sequence.value)
    {
      LaunchedKeepsInv(Contents(), p);
      ghost var after := Launched(Contents(), p);
      if !running || run == None {
        free := free + 1;
        sequence := None;
      } else {
        attempted := attempted + 1;
        sequence := Some(attempted);
        inflight := inflight + {|sends|};
        sends := sends + [Send(run.value, attempted, false)];
      }
      producers := producers[p := Runnable];
      assert Contents() == after;
    }

    /** The top of _producer_loop, with `left` orders to send before the next send time lies
        ahead. */
    method CheckProducer(p: nat, left: nat) returns (goesOn: bool)
      requires Valid() && p < |producers| && producers[p] != HoldsPermit
      modifies this`running, this`producers
      ensures Valid()
      ensures goesOn <==> MayLaunch(old(Contents())) && 0 < left
      ensures goesOn ==> Contents() == old(Contents())
      ensures !goesOn ==> Contents() == Looped(old(Contents()), p, left)
    {
      goesOn := false;
      MovedKeepsInv(Contents(), p, Exited);
      MovedKeepsInv(Contents(), p, Sleeping);
      if !running || run == None {
        producers := producers[p := Exited];
      } else if run.value.maxOrders.Some? && attempted >= run.value.maxOrders.value {
        HaltedKeepsInv(Moved(Contents(), p, Exited));
        running := false;
        producers := producers[p := Exited];
      } else if 0 < left {
        goesOn := true;
      } else {
        producers := producers[p := Sleeping];
      }
    }

    /** _producer_loop from its top to its next suspension, sending at most `launches` orders
        before the next send time lies ahead. */
    method RunProducerLoop(p: nat, launches: nat)
      requires Valid() && p < |producers| && producers[p] != HoldsPermit
      modifies this
      ensures Valid() && Contents() == Looped(old(Contents()), p, launches)
    {
      ghost var end := Looped(Contents(), p, launches);
      var left := launches;
      var goesOn := true;
      while goesOn
        invariant Valid() && p < |producers|
        invariant goesOn ==> producers[p] != HoldsPermit && Looped(Contents(), p, left) == end
        invariant !goesOn ==> Contents() == end
        decreases left, if goesOn then 1 else 0
      {
        goesOn := IterateProducer(p, left);
        if goesOn {
          left := left - 1;
        }
      }
    }

    /** One turn of that loop: check, then send or queue. */
    method IterateProducer(p: nat, left: nat) returns (goesOn: bool)
      requires Valid() && p < |producers| && producers[p] != HoldsPermit
      modifies this
      ensures Valid() && |producers| == old(|producers|)
      ensures goesOn ==> 0 < left && producers[p] != HoldsPermit
                         && Looped(Contents(), p, left - 1) == Looped(old(Contents()), p, left)
      ensures !goesOn ==> Contents() == Looped(old(Contents()), p, left)
    {
      goesOn := CheckProducer(p, left);
      if goesOn {
        LoopUnrolls(Contents(), p, left);
        goesOn := SendOrQueue(p);
      }
    }

    /** The permit of the next order: launch with it if there is one, otherwise queue. */
    method SendOrQueue(p: nat) returns (sent: bool)
      requires Valid() && p < |producers| && producers[p] != HoldsPermit
      modifies this
      ensures Valid() && (sent <==> PermitAvailable(old(Contents())))
      ensures sent ==> Contents() == Launched(Acquired(old(Contents()), p), p)
      ensures !sent ==> Contents() == Moved(old(Contents()), p, Acquiring)
    {
      sent := HasPermit();
      if sent {
        AcquirePermit(p);
        var sequence := LaunchOrderRequest(p);
      } else {
        MovedKeepsInv(Contents(), p, Acquiring);
        producers := producers[p := Acquiring];
      }
    }

    method HasPermit() returns (available: bool)
      ensures available <==> PermitAvailable(Contents())
    {
      available := 0 < free
                   && forall q :: 0 <= q < |producers| ==> producers[q] != Acquiring && producers[q] != HoldsPermit;
    }

    /** The producer's send time has come. */
    method TimeOutProducer(p: nat, launches: nat)
      requires Valid() && At(Contents(), p, Sleeping)
      modifies this
      ensures Valid() && Contents() == TimedOut(old(Contents()), p, launches)
    {
      var sent := SendOrQueue(p);
      if sent {
        RunProducerLoop(p, launches);
      }
    }

    /** The producer resumes with the permit it queued for. */
    method ResumeProducer(p: nat, launches: nat)
      requires Valid() && At(Contents(), p, HoldsPermit)
      modifies this
      ensures Valid() && Contents() == Next(old(Contents()), ProducerResumes(p, launches))
    {
      var sequence := LaunchOrderRequest(p);
      RunProducerLoop(p, launches);
    }

    /** _send_order from its answer on: count the outcome, give the permit back. */
    method RecordOutcome(i: nat, outcome: Outcome)
      requires Valid() && i < |sends| && !sends[i].done
      modifies this`free, this`successful, this`created, this`reused, this`failed, this`sends
      ensures Valid() && Contents() == Recorded(old(Contents()), i, outcome)
      ensures created == old(created) + (if outcome == CreatedOrder then 1 else 0)
      ensures reused == old(reused) + (if outcome == ReusedOrder then 1 else 0)
      ensures failed == old(failed) + (if outcome == FailedSend then 1 else 0)
      ensures successful == old(successful) + (if outcome == FailedSend then 0 else 1)
    {
      ghost var after := Recorded(Contents(), i, outcome);
      RecordedKeepsInv(Contents(), i, outcome);
      if outcome == CreatedOrder {
        successful := successful + 1;
        created := created + 1;
      } else if outcome == ReusedOrder {
        successful := successful + 1;
        reused := reused + 1;
      } else {
        failed := failed + 1;
      }
      sends := sends[i := sends[i].(done := true)];
      free := free + 1;
      assert Contents() == after;
    }

    /** The done callback. */
    method DiscardSend(i: nat)
      requires Valid() && i < |sends| && sends[i].done && i in inflight
      modifies this`inflight
      ensures Valid() && Contents() == Next(old(Contents()), SendDiscarded(i))
    {
      ControlKeepsInv(Contents(), SendDiscarded(i));
      inflight := inflight - {i};
    }
  }
}
