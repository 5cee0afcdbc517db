/** What the load generator's steps do, field by field, and what its counters count. */
module LoadLaws {
  import opened Optional
  import opened LoadSteps

  // ---------------------------------------------------------------- control

  /** A start is refused while a run is on or requests are in flight; otherwise it begins a new
      run with cleared counters and one more producer. */
  lemma StartLaw(l: Load, config: RunConfig)
    requires Enabled(l, Start(config))
    ensures Next(l, Start(config)) ==
            if l.running || l.inflight != {} then l
            else Load(l.maxInflight, l.free, true, Some(config), 0, 0, 0, 0, 0, l.sends, l.inflight,
                      l.producers + [Runnable], l.stops)
  {
  }

  /** A stop ends the run and awaits the newest producer if one is running; otherwise it waits
      for the requests in flight, or returns at once when there are none. */
  lemma StopLaw(l: Load, id: nat)
    requires Inv(l) && Enabled(l, StopBegin(id))
    ensures Next(l, StopBegin(id)) ==
            if l.running then l.(running := false, stops := l.stops[id := AwaitProducer(|l.producers| - 1)])
            else if l.inflight != {} then l.(stops := l.stops[id := AwaitSends(l.inflight)])
            else l
  {
    if !l.running && l.inflight == {} {
      assert l.stops - {id} == l.stops;
    }
  }

  /** What the loop may do in a state: a stop goes on once its producer or its requests are
      done; a producer runs on from where it is suspended, a queued one once a permit is free;
      an open request may be answered, a counted one leaves the in-flight set. */
  lemma StepsRun(l: Load, id: nat, p: nat, launches: nat, i: nat, outcome: Outcome)
    ensures Enabled(l, StopBegin(id)) <==> id !in l.stops
    ensures Enabled(l, StopResume(id)) <==>
              id in l.stops && l.stops[id].AwaitProducer? && l.stops[id].producer < |l.producers|
              && l.producers[l.stops[id].producer] == Exited
    ensures Enabled(l, StopReturn(id)) <==>
              id in l.stops && l.stops[id].AwaitSends?
              && forall n :: n in l.stops[id].sends ==> n < |l.sends| && l.sends[n].done
    ensures p >= |l.producers| ==> !Enabled(l, ProducerStarts(p, launches))
    ensures p < |l.producers| ==>
              && (Enabled(l, ProducerStarts(p, launches)) <==> l.producers[p] == Runnable && 0 < launches)
              && (Enabled(l, ProducerWakes(p, launches)) <==> l.producers[p] == Sleeping && 0 < launches)
              && (Enabled(l, ProducerTimesOut(p, launches)) <==> l.producers[p] == Sleeping)
              && (Enabled(l, PermitGranted(p)) <==> l.producers[p] == Acquiring && 0 < l.free)
              && (Enabled(l, ProducerResumes(p, launches)) <==> l.producers[p] == HoldsPermit)
    ensures Enabled(l, SendRecords(i, outcome)) <==> i < |l.sends| && !l.sends[i].done
    ensures Enabled(l, SendDiscarded(i)) <==> i < |l.sends| && l.sends[i].done && i in l.inflight
  {
  }

  /** The rest of a stop, the hand-over of a permit, an answer and the done callback. */
  lemma SmallStepsLaw(l: Load, id: nat, p: nat, i: nat, outcome: Outcome)
    ensures Enabled(l, StopResume(id)) ==>
              Next(l, StopResume(id)) == l.(stops := if l.inflight == {} then l.stops - {id}
                                                     else l.stops[id := AwaitSends(l.inflight)])
    ensures Enabled(l, StopReturn(id)) ==> Next(l, StopReturn(id)) == l.(stops := l.stops - {id})
    ensures Enabled(l, PermitGranted(p)) ==>
              Next(l, PermitGranted(p)) == l.(free := l.free - 1, producers := l.producers[p := HoldsPermit])
    ensures Enabled(l, SendRecords(i, outcome)) ==>
              Next(l, SendRecords(i, outcome)) ==
              l.(sends := l.sends[i := Send(l.sends[i].run, l.sends[i].sequence, true)], free := l.free + 1,
                 successful := l.successful + (if outcome == FailedSend then 0 else 1),
                 created := l.created + (if outcome == CreatedOrder then 1 else 0),
                 reused := l.reused + (if outcome == ReusedOrder then 1 else 0),
                 failed := l.failed + (if outcome == FailedSend then 1 else 0))
    ensures Enabled(l, SendDiscarded(i)) ==> Next(l, SendDiscarded(i)) == l.(inflight := l.inflight - {i})
  {
  }

  // ---------------------------------------------------------------- the producer loop

  /** How many permits a producer may take before it has to queue. */
  function Permits(l: Load, p: nat): nat {
    if exists q :: 0 <= q < |l.producers| && q != p && (l.producers[q] == Acquiring || l.producers[q] == HoldsPermit)
    then 0 else l.free
  }

  /** How many orders the run still asks for, or at least `most` if it has no limit. */
  function Room(l: Load, most: nat): nat {
    match l.run
    case None => 0
    case Some(config) =>
      match config.maxOrders
      case None => most + 1
      case Some(limit) => if l.attempted < limit then limit - l.attempted else 0
  }

  /** What a producer sends in one stretch: as many orders as are due, as permits allow and as
      the run asks for, and none when the run is over. */
  function Quota(l: Load, p: nat, launches: nat): nat {
    if !l.running then 0
    else
      var n := if launches < Permits(l, p) then launches else Permits(l, p);
      if n < Room(l, launches) then n else Room(l, launches)
  }

  function Orders(l: Load, n: nat): seq<Send>
    requires l.run.Some?
  {
    seq(n, i requires 0 <= i < n => Send(l.run.value, l.attempted + 1 + i, false))
  }

  function Ids(first: nat, n: nat): (ids: set<nat>)
    ensures forall i :: i in ids <==> first <= i < first + n
  {
    if n == 0 then {} else Ids(first, n - 1) + {first + n - 1}
  }

  /** l' is l after producer p sent n orders and was suspended at pc. */
  ghost predicate Sent(l: Load, l': Load, p: nat, n: nat, pc: Producer, running: bool)
    requires p < |l.producers| && n <= l.free && l.run.Some?
  {
    l' == l.(free := l.free - n, attempted := l.attempted + n, sends := l.sends + Orders(l, n),
             inflight := l.inflight + Ids(|l.sends|, n),
             producers := l.producers[p := pc], running := running)
  }

  /** Where the stretch ends: at the limit the loop exits and ends the run; with nothing more
      due it sleeps; otherwise it queues for a permit. */
  function Ending(l: Load, p: nat, launches: nat): Producer {
    if !l.running || Quota(l, p, launches) == Room(l, launches) then Exited
    else if Quota(l, p, launches) == launches then Sleeping
    else Acquiring
  }

  lemma OneMore(l: Load, l': Load, p: nat, n: nat, pc: Producer, running: bool)
    requires p < |l.producers| && l.run.Some? && n < l.free && l.running && l.producers[p] != HoldsPermit
    requires Sent(Launched(Acquired(l, p), p), l', p, n, pc, running)
    ensures Sent(l, l', p, n + 1, pc, running)
  {
    var next := Launched(Acquired(l, p), p);
    assert [Send(l.run.value, l.attempted + 1, false)] + Orders(next, n) == Orders(l, n + 1);
    assert next.sends + Orders(next, n) == l.sends + Orders(l, n + 1);
    assert next.inflight + Ids(|next.sends|, n) == l.inflight + Ids(|l.sends|, n + 1);
    assert next.producers[p := pc] == l.producers[p := pc];
  }

  lemma PermitsMean(l: Load, p: nat)
    requires p < |l.producers| && l.producers[p] != Acquiring && l.producers[p] != HoldsPermit
    ensures PermitAvailable(l) <==> 0 < Permits(l, p)
    ensures 0 < Permits(l, p) && l.running && l.run.Some? ==> Permits(Launched(Acquired(l, p), p), p) == l.free - 1
  {
  }

  lemma NothingSent(l: Load, p: nat, pc: Producer, running: bool)
    requires p < |l.producers| && l.run.Some?
    ensures Sent(l, l.(producers := l.producers[p := pc], running := running), p, 0, pc, running)
  {
    assert l.sends + Orders(l, 0) == l.sends;
    assert l.inflight + Ids(|l.sends|, 0) == l.inflight;
  }

  /** One stretch of the loop sends exactly its quota, numbered on from the counter, one permit
      each, and is suspended where the quota left it. */
  lemma {:induction false} LoopLaw(l: Load, p: nat, launches: nat)
    requires p < |l.producers| && l.run.Some? && l.producers[p] != Acquiring && l.producers[p] != HoldsPermit
    ensures Quota(l, p, launches) <= l.free
    ensures Sent(l, Looped(l, p, launches), p, Quota(l, p, launches), Ending(l, p, launches),
                 l.running && Ending(l, p, launches) != Exited)
    decreases launches
  {
    PermitsMean(l, p);
    if !l.running {
      NothingSent(l, p, Exited, false);
    } else if LimitReached(l) {
      NothingSent(l, p, Exited, false);
    } else if launches == 0 {
      NothingSent(l, p, Sleeping, true);
    } else if !PermitAvailable(l) {
      NothingSent(l, p, Acquiring, true);
    } else {
      var next := Launched(Acquired(l, p), p);
      assert next.producers[p] == Runnable;
      LoopLaw(next, p, launches - 1);
      OneMore(l, Looped(l, p, launches), p, Quota(next, p, launches - 1), Ending(next, p, launches - 1),
              next.running && Ending(next, p, launches - 1) != Exited);
    }
  }

  /** A loop that starts, or is woken, sends its quota. */
  lemma StretchLaw(l: Load, step: LoadStep)
    requires Inv(l) && l.run.Some? && Enabled(l, step) && (step.ProducerStarts? || step.ProducerWakes?)
    ensures var p, launches := step.producer, step.launches;
            && Quota(l, p, launches) <= l.free
            && Sent(l, Next(l, step), p, Quota(l, p, launches), Ending(l, p, launches),
                    l.running && Ending(l, p, launches) != Exited)
  {
    LoopLaw(l, step.producer, step.launches);
  }

  /** A producer whose send time has come sends one order if the run is on and a permit is
      free, and goes on with the loop; without a permit it queues; after a stop it exits. */
  lemma TimeOutLaw(l: Load, p: nat, launches: nat)
    requires Inv(l) && l.run.Some? && Enabled(l, ProducerTimesOut(p, launches))
    ensures var l' := Next(l, ProducerTimesOut(p, launches));
            if Permits(l, p) == 0 then l' == l.(producers := l.producers[p := Acquiring])
            else if !l.running then l' == l.(producers := l.producers[p := Exited])
            else
              && |l.sends| < |l'.sends| && l'.sends[..|l.sends|] == l.sends
              && l'.sends[|l.sends|] == Send(l.run.value, l.attempted + 1, false)
              && l'.attempted == l.attempted + (|l'.sends| - |l.sends|)
              && l'.free == l.free - (|l'.sends| - |l.sends|)
              && |l.sends| in l'.inflight
  {
    PermitsMean(l, p);
    if PermitAvailable(l) {
      LaunchThenLoop(l, Launched(Acquired(l, p), p), p, launches);
      if !l.running {
        assert Looped(Launched(Acquired(l, p), p), p, launches).producers == l.producers[p := Exited];
      }
    }
  }

  lemma LaunchThenLoop(l: Load, next: Load, p: nat, launches: nat)
    requires p < |next.producers| && next.producers[p] == Runnable && next.run.Some? && next.run == l.run
    requires l.running ==> next.running && next.sends == l.sends + [Send(l.run.value, l.attempted + 1, false)]
                           && next.attempted == l.attempted + 1 && next.free + 1 == l.free
                           && next.inflight == l.inflight + {|l.sends|}
    ensures l.running ==> var l' := Looped(next, p, launches);
                          && |l.sends| < |l'.sends| && l'.sends[..|l.sends|] == l.sends
                          && l'.sends[|l.sends|] == Send(l.run.value, l.attempted + 1, false)
                          && l'.attempted == l.attempted + (|l'.sends| - |l.sends|)
                          && l'.free == l.free - (|l'.sends| - |l.sends|)
                          && |l.sends| in l'.inflight
  {
    LoopLaw(next, p, launches);
  }

  /** A producer handed a permit sends with it if the run is on, otherwise gives it back, and
      goes on with the loop. */
  lemma ResumeLaw(l: Load, p: nat, launches: nat)
    requires Inv(l) && l.run.Some? && Enabled(l, ProducerResumes(p, launches))
    ensures var l' := Next(l, ProducerResumes(p, launches));
            if l.running then
              && |l.sends| < |l'.sends| && l'.sends[..|l.sends|] == l.sends
              && l'.sends[|l.sends|] == Send(l.run.value, l.attempted + 1, false)
              && l'.attempted == l.attempted + (|l'.sends| - |l.sends|)
              && l'.free == l.free - (|l'.sends| - |l.sends| - 1)
            else l' == l.(free := l.free + 1, producers := l.producers[p := Exited])
  {
    var next := Launched(l, p);
    LoopLaw(next, p, launches);
    if !l.running {
      assert Looped(next, p, launches).producers == l.producers[p := Exited];
    }
  }

  // ---------------------------------------------------------------- what the counters count

  /** Answers of one kind since the last accepted start, up to state n. */
  function Answers(states: seq<Load>, steps: seq<LoadStep>, outcome: Outcome, n: nat): nat
    requires |states| == |steps| + 1 && n <= |steps|
  {
    if n == 0 || (steps[n - 1].Start? && !states[n - 1].running && states[n - 1].inflight == {}) then 0
    else Answers(states, steps, outcome, n - 1)
         + (if steps[n - 1].SendRecords? && steps[n - 1].outcome == outcome then 1 else 0)
  }

  lemma AnswerStep(l: Load, step: LoadStep)
    requires Inv(l) && Enabled(l, step)
    ensures var l', fresh' := Next(l, step), step.Start? && !l.running && l.inflight == {};
            && l'.created == (if fresh' then 0
                              else l.created + if step.SendRecords? && step.outcome == CreatedOrder then 1 else 0)
            && l'.reused == (if fresh' then 0
                             else l.reused + if step.SendRecords? && step.outcome == ReusedOrder then 1 else 0)
            && l'.failed == (if fresh' then 0
                             else l.failed + if step.SendRecords? && step.outcome == FailedSend then 1 else 0)
  {
    if IsProducerStep(step) {
      ProducerCountsNothing(l, step);
    }
  }

  lemma ProducerCountsNothing(l: Load, step: LoadStep)
    requires Enabled(l, step) && IsProducerStep(step)
    ensures var l' := Next(l, step);
            l'.created == l.created && l'.reused == l.reused && l'.failed == l.failed
  {
    match step
    case ProducerStarts(p, launches) => LoopCountsNothing(l, p, launches);
    case ProducerWakes(p, launches) => LoopCountsNothing(l, p, launches);
    case ProducerTimesOut(p, launches) =>
      if PermitAvailable(l) { LoopCountsNothing(Launched(Acquired(l, p), p), p, launches); }
    case ProducerResumes(p, launches) => LoopCountsNothing(Launched(l, p), p, launches);
    case _ =>
  }

  lemma {:induction false} LoopCountsNothing(l: Load, p: nat, launches: nat)
    requires p < |l.producers|
    ensures var l' := Looped(l, p, launches);
            l'.created == l.created && l'.reused == l.reused && l'.failed == l.failed
    decreases launches
  {
    if MayLaunch(l) && launches > 0 && PermitAvailable(l) {
      LoopCountsNothing(Launched(Acquired(l, p), p), p, launches - 1);
    }
  }

  /** In every state of every run the created, reused and failed counters are the numbers of
      201 answers, 200 answers and all other outcomes since the current run was started, and
      the successful one is the sum of the first two. */
  lemma {:induction false} CountersCountAnswers(states: seq<Load>, steps: seq<LoadStep>, n: nat)
    requires IsFreshRun(states, steps) && n <= |steps|
    ensures states[n].created == Answers(states, steps, CreatedOrder, n)
    ensures states[n].reused == Answers(states, steps, ReusedOrder, n)
    ensures states[n].failed == Answers(states, steps, FailedSend, n)
    ensures states[n].successful == Answers(states, steps, CreatedOrder, n) + Answers(states, steps, ReusedOrder, n)
  {
    RunKeepsInv(states, steps, n);
    if n > 0 {
      CountersCountAnswers(states, steps, n - 1);
      RunKeepsInv(states, steps, n - 1);
      AnswerStep(states[n - 1], steps[n - 1]);
    }
  }
}
