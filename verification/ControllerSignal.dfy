/** Exactly when the stop signal is lost, with the shared queue and a fixed set of policy replicas. */
module ControllerSignal {
  import opened Arithmetic
  import opened Common
  import opened ControllerModel
  import opened ControllerFlow
  import opened ControllerStop

  // ---------- a step nobody starts ----------

  predicate AtLimit(c: Config, w: World) {
    c.maxSteps.Some? && c.maxSteps.value <= w.step
  }

  /** A step's rollouts are queued and all replicas are ready, but nobody tries to start it. */
  predicate Unstarted(c: Config, w: World) {
    Core(c, w) && !Settled(c, w) && !FinalPublished(w)
  }

  /** And the step limit does not end the training either. */
  predicate Stuck(c: Config, w: World) {
    Unstarted(c, w) && !AtLimit(c, w)
  }

  lemma UnsettledIdles(c: Config, w: World)
    requires Core(c, w) && !Settled(c, w)
    ensures !SomeoneRunning(w) && AllStatus(w, {Ready}) && w.step < w.total && |w.queue| >= PerStep(c, w)
  {
    hide FinalPublished;
    RunningBusy(w);
  }

  lemma RunningBusy(w: World)
    ensures SomeoneRunning(w) ==> !AllStatus(w, {Ready, Reduced})
  {
  }

  lemma RunningSettles(c: Config, w: World)
    requires Core(c, w) && SomeoneRunning(w)
    ensures Settled(c, w)
  {
    hide Core, Settled;
    if !Settled(c, w) { UnsettledIdles(c, w); }
  }

  /** With the steps left provided for, the state is safe unless a step is left unstarted. */
  lemma SafeIff(c: Config, w: World)
    requires ValidConfig(c) && Core(c, w) && Provided(c, w)
    ensures StopSafe(c, w) <==> !Unstarted(c, w)
  {
    hide Core, Settled, FinalPublished, Supplied;
    if !FinalPublished(w) {
      if Settled(c, w) {
        SomeoneRuns(c, w);
        assert exists id :: id in RunningOnes(w);
      } else {
        UnsettledIdles(c, w);
      }
    }
  }

  // ---------- the last fetch stays published, and is not published by other commands ----------

  lemma GrownFinal(w: World, v: World)
    requires Grown(w, v) && FinalPublished(w)
    ensures FinalPublished(v)
  {
    hide Stopped, SameReplica;
    FinalKept(w, v);
  }

  /** Nothing was published to the policy replicas but commands that are no fetches. */
  predicate NoFetch(w: World, v: World) {
    && SamePolicies(w, v)
    && forall id :: id in w.policies ==>
         w.policies[id].stream <= v.policies[id].stream &&
         forall k :: |w.policies[id].stream| <= k < |v.policies[id].stream| ==> !v.policies[id].stream[k].DataFetch?
  }

  lemma NoFetchFinal(w: World, v: World)
    requires NoFetch(w, v)
    ensures FinalPublished(v) <==> FinalPublished(w)
  {
    SamePoliciesArrived(w, v);
    hide SameReplica, ArrivedPolicies;
    ArrivedKnown(w);
    forall id | id in ArrivedPolicies(w)
      ensures Stopped(v.policies[id]) <==> Stopped(w.policies[id])
    {
      NoFetchStopped(w.policies[id], v.policies[id]);
    }
  }

  lemma NoFetchStopped(r: Replica, t: Replica)
    requires r.stream <= t.stream && forall k :: |r.stream| <= k < |t.stream| ==> !t.stream[k].DataFetch?
    ensures Stopped(t) <==> Stopped(r)
  {
    if Stopped(t) {
      var k :| 0 <= k < |t.stream| && ShouldStop(t.stream[k]);
      assert r.stream[k] == t.stream[k];
    }
    if Stopped(r) { StoppedStays(r, t); }
  }

  lemma UntrainedNoFetch(w: World, v: World)
    requires Untrained(w, v)
    ensures NoFetch(w, v)
  {
    UntrainedSame(w, v);
    assert forall id :: id in w.policies ==> ToldMore(w.policies[id], v.policies[id]);
  }

  // ---------- events that start nothing ----------

  /** The policy replicas are as before but for such commands, and so are queue and step. */
  predicate Quiet(w: World, v: World) {
    NoFetch(w, v) && v.queue == w.queue && v.step == w.step && forall id :: id in w.policies ==> v.policies[id].status == w.policies[id].status
  }

  lemma QuietStays(c: Config, w: World, v: World)
    requires Quiet(w, v)
    ensures PerStep(c, v) == PerStep(c, w) && (FinalPublished(v) <==> FinalPublished(w)) && ArrivedPolicies(v) == ArrivedPolicies(w)
    ensures (forall s :: AllStatus(w, s) <==> AllStatus(v, s)) && (StatusOk(w) ==> StatusOk(v)) && (SomeoneRunning(w) <==> SomeoneRunning(v))
  {
    NoFetchFinal(w, v);
    PerStepSame(c, w, v);
    SamePoliciesArrived(w, v);
    assert forall id :: id in w.policies ==> SameReplica(w.policies[id], v.policies[id]);
    hide ArrivedPolicies, FinalPublished, Stopped;
    if id :| id in w.policies && IsRunning(w.policies[id]) { assert IsRunning(v.policies[id]); }
    if id :| id in v.policies && IsRunning(v.policies[id]) { assert IsRunning(w.policies[id]); }
  }

  lemma SamePoliciesQuiet(w: World, v: World)
    requires v.policies == w.policies && v.policyOrder == w.policyOrder && v.queue == w.queue && v.step == w.step
    ensures Quiet(w, v)
  {
  }

  lemma UntrainedQuiet(w: World, v: World)
    requires Untrained(w, v)
    ensures Quiet(w, v) && v.total == w.total
  {
    UntrainedNoFetch(w, v);
    assert forall id :: id in w.policies ==> ToldMore(w.policies[id], v.policies[id]);
  }

  lemma GroupQuiet(c: Config, w: World, xs: seq<Rollout>)
    requires ValidConfig(c) && PutGroup(c, w, xs).Some? && !Buffers(c, w, GroupIn(xs))
    ensures var v := PutGroup(c, w, xs).value;
            Quiet(w, v) && v.total == w.total
  {
    hide FreshOnes, VersionsKnown;
    SamePoliciesQuiet(w, PutGroup(c, w, xs).value);
  }

  lemma EndQuietly(c: Config, w: World, id: nat)
    requires RolloutEnd(c, w, id).Some? && !IssuesExtra(c, w, EndIn(id))
    ensures var v := RolloutEnd(c, w, id).value;
            Quiet(w, v) && v.total == if AllEnded(MarkEnded(w, id)) then Recompute(c, w, Pending(c, w)).total else w.total
  {
    hide Recompute;
    var m := MarkEnded(w, id);
    if AllEnded(m) {
      RecomputeSame(c, m, Pending(c, m));
      MarkedTotal(c, w, m, Pending(c, w));
    }
    SamePoliciesQuiet(w, RolloutEnd(c, w, id).value);
  }

  /** The number of steps does not depend on the rollout replicas. */
  lemma MarkedTotal(c: Config, w: World, m: World, remaining: int)
    requires m == w.(rollouts := m.rollouts)
    ensures Recompute(c, m, remaining).total == Recompute(c, w, remaining).total
  {
    assert ArrivedPolicies(m) == ArrivedPolicies(w);
    hide ArrivedPolicies, FloorDiv;
  }

  /** An event that neither buffers a rollout nor issues the extra fetch, while nobody is training. */
  lemma EventQuiet(c: Config, w: World, e: Event)
    requires ValidConfig(c) && Orderly(w, e) && !SomeoneRunning(w) && After(c, w, e).Some? && !Buffers(c, w, e) && !IssuesExtra(c, w, e)
    ensures var v := After(c, w, e).value;
            && Quiet(w, v)
            && v.total == if e.EndIn? && AllEnded(MarkEnded(w, e.id)) then Recompute(c, w, Pending(c, w)).total else w.total
  {
    hide RolloutEnd, PutGroup, RegisterRollout, UnregisterRollout, Untrained, Quiet, Buffers, IssuesExtra, Recompute, AllEnded, MarkEnded;
    match e
    case RolloutAtom(_, _, _, _) =>
      RolloutEventsUntrained(c, w, e);
      UntrainedQuiet(w, After(c, w, e).value);
    case RolloutGone(_) =>
      RolloutEventsUntrained(c, w, e);
      UntrainedQuiet(w, After(c, w, e).value);
    case PromptsOut(samples) => SamePoliciesQuiet(w, After(c, w, e).value);
    case GroupIn(xs) => GroupQuiet(c, w, xs);
    case AckIn(id, _, _) => assert false;
    case EndIn(id) => EndQuietly(c, w, id);
  }

  // ---------- a stuck state stays stuck ----------

  /** With a step's rollouts queued and the limit ahead, the steps recomputed at the end are more than now. */
  lemma StepsRemain(c: Config, w: World)
    requires ValidConfig(c) && !c.byRank && ArrivedPolicies(w) != [] && !Finished(w) && 0 <= w.step
    ensures var t := Recompute(c, w, Pending(c, w));
            && (t.total > w.step <==> |w.queue| >= PerStep(c, w) && !AtLimit(c, w))
            && (t.total > w.step ==> Due(c, t) && !AtLimit(c, t))
  {
    PositivePerStep(c, w);
    RecomputeSame(c, w, Pending(c, w));
    DivMod(|w.queue|, PerStep(c, w));
    var n, q := PerStep(c, w), |w.queue| / PerStep(c, w);
    if |w.queue| >= n {
      MulDiv(1, n);
      DivMono(n, |w.queue|, n);
    } else {
      DivBelow(|w.queue|, n, 1);
    }
    var t := Recompute(c, w, Pending(c, w));
    hide ArrivedPolicies;
    MulLe(t.total - t.step, q, n);
  }

  lemma EventStuck(c: Config, w: World, e: Event)
    requires ValidConfig(c) && Core(c, w) && Orderly(w, e) && After(c, w, e).Some?
    ensures var v := After(c, w, e).value;
            && Core(c, v) && (Stuck(c, v) <==> Stuck(c, w) && !Buffers(c, w, e))
            && (Unstarted(c, v) ==> Unstarted(c, w) && v.step == w.step)
  {
    hide Core, Settled, FinalPublished, After, Buffers, Grown, IssuesExtra, Orderly;
    var v := After(c, w, e).value;
    EventCore(c, w, e);
    if FinalPublished(w) {
      EventGrown(c, w, e) by { OrderlyKeeps(w, e); }
      GrownFinal(w, v);
    } else if !Settled(c, w) && !Buffers(c, w, e) && !IssuesExtra(c, w, e) {
      UnsettledIdles(c, w);
      EventQuiet(c, w, e);
      QuietStays(c, w, v);
      QuietUnsettled(c, w, v, e);
    } else if !Settled(c, w) && IssuesExtra(c, w, e) {
      ExtraAtLimit(c, w, e);
    }
  }

  lemma OrderlyKeeps(w: World, e: Event)
    requires Orderly(w, e)
    ensures KeepsPolicies(e)
  {
  }

  lemma QuietUnsettled(c: Config, w: World, v: World, e: Event)
    requires ValidConfig(c) && Core(c, w) && !Settled(c, w) && !IssuesExtra(c, w, e) && Quiet(w, v) && AllStatus(w, {Ready, Reduced})
    requires v.total == if e.EndIn? && AllEnded(MarkEnded(w, e.id)) then Recompute(c, w, Pending(c, w)).total else w.total
    requires PerStep(c, v) == PerStep(c, w) && AllStatus(v, {Ready, Reduced})
    ensures !Settled(c, v) && v.step == w.step
  {
    hide StatusOk, FinalPublished, AllStatus, AllEnded, ArrivedPolicies;
    if e.EndIn? && AllEnded(MarkEnded(w, e.id)) {
      NoExtraMeans(c, w, e);
    }
  }

  lemma NoExtraMeans(c: Config, w: World, e: Event)
    requires e.EndIn? && AllEnded(MarkEnded(w, e.id)) && !IssuesExtra(c, w, e)
    ensures Recompute(c, w, Pending(c, w)).total > w.step || w.step == w.total
  {
    hide AllEnded, Recompute;
    MarkedTotal(c, w, MarkEnded(w, e.id), Pending(c, w));
    RecomputeSame(c, MarkEnded(w, e.id), Pending(c, w));
  }

  lemma ExtraAtLimit(c: Config, w: World, e: Event)
    requires ValidConfig(c) && Core(c, w) && !Settled(c, w) && IssuesExtra(c, w, e)
    ensures AtLimit(c, w)
  {
    hide FinalPublished, AllEnded, Recompute;
    UnsettledIdles(c, w);
    StepsRemain(c, w);
    MarkedTotal(c, w, MarkEnded(w, e.id), Pending(c, w));
    RecomputeSame(c, MarkEnded(w, e.id), Pending(c, w));
  }

  /** A rollout enters the queue at some time. */
  ghost predicate BuffersAny(c: Config, w: World, events: seq<Event>)
    requires ValidConfig(c)
    decreases |events|
  {
    && events != []
    && (Buffers(c, w, events[0]) || (After(c, w, events[0]).Some? && BuffersAny(c, After(c, w, events[0]).value, events[1..])))
  }

  lemma {:induction false} RunStuck(c: Config, w: World, events: seq<Event>)
    requires ValidConfig(c) && Core(c, w) && OrderlyRun(c, w, events)
    ensures CanRun(c, w, events)
    ensures var v := Run(c, w, events);
            && Core(c, v) && (Stuck(c, v) <==> Stuck(c, w) && !BuffersAny(c, w, events))
            && (Unstarted(c, v) ==> Unstarted(c, w) && v.step == w.step)
    decreases |events|
  {
    hide Core, Stuck, Unstarted, After, Buffers, Orderly;
    if events != [] {
      EventStuck(c, w, events[0]);
      RunStuck(c, After(c, w, events[0]).value, events[1..]);
    }
  }

  /** After the end the step limit has been taken into account. */
  lemma EndWithinLimit(c: Config, w: World, id: nat)
    requires ValidConfig(c) && Core(c, w) && AllEnded(MarkEnded(w, id)) && RolloutEnd(c, w, id).Some?
    requires Unstarted(c, RolloutEnd(c, w, id).value)
    ensures Stuck(c, RolloutEnd(c, w, id).value)
  {
    hide Core, Settled, FinalPublished, RolloutEnd, IssuesExtra, AllEnded, Recompute;
    var v := RolloutEnd(c, w, id).value;
    EndCore(c, w, id);
    EndQuietly(c, w, id);
    UnsettledIdles(c, v);
    if !Finished(w) {
      StepsRemain(c, w) by { CoreParts(c, w); }
      RecomputeSame(c, w, Pending(c, w));
    } else {
      FinishedTotal(c, w, Pending(c, w));
    }
  }

  lemma FinishedTotal(c: Config, w: World, remaining: int)
    requires Finished(w)
    ensures Recompute(c, w, remaining) == w
  {
  }

  lemma CoreParts(c: Config, w: World)
    requires Core(c, w)
    ensures !c.byRank && ArrivedPolicies(w) != [] && StatusOk(w) && 0 <= w.step <= w.total && 0 < w.total
    ensures w.step == w.total ==> FinalPublished(w)
  {
  }

  /** The stop signal over whole runs, from any state with the policy replicas initialised and steps left: once
      the controller has seen all rollouts end, whatever orderly events came before and come after, the last
      fetch is out or reports alone lead to it, unless a step's rollouts were queued at the beginning without
      anybody trying to start it and no rollout was buffered since. */
  lemma StopSignalKeptIff(c: Config, w: World, before: seq<Event>, id: nat, after: seq<Event>)
    requires ValidConfig(c) && Core(c, w) && OrderlyRun(c, w, before) && CanRun(c, w, before)
    requires AllEnded(MarkEnded(Run(c, w, before), id))
    ensures RolloutEnd(c, Run(c, w, before), id).Some?
    ensures var e := RolloutEnd(c, Run(c, w, before), id).value;
            OrderlyRun(c, e, after) ==>
              && CanRun(c, e, after)
              && (StopSafe(c, Run(c, e, after)) <==> !(Stuck(c, w) && !BuffersAny(c, w, before) && !BuffersAny(c, e, after)))
  {
    hide Core, Unstarted, AtLimit, Provided, StopSafe, RolloutEnd, AllEnded, IssuesExtra;
    RunStuck(c, w, before);
    var x := Run(c, w, before);
    EndStuck(c, x, id);
    var e := RolloutEnd(c, x, id).value;
    if OrderlyRun(c, e, after) {
      RunStuck(c, e, after);
      RunCore(c, e, after);
      SafeIff(c, Run(c, e, after));
      StillWithinLimit(c, e, Run(c, e, after));
    }
  }

  lemma StillWithinLimit(c: Config, w: World, v: World)
    requires (Unstarted(c, w) ==> Stuck(c, w)) && (Unstarted(c, v) ==> Unstarted(c, w) && v.step == w.step)
    ensures Unstarted(c, v) <==> Stuck(c, v)
  {
    hide Unstarted;
  }

  /** The end handler leaves a stuck state stuck, and otherwise makes it safe. */
  lemma EndStuck(c: Config, w: World, id: nat)
    requires ValidConfig(c) && Core(c, w) && AllEnded(MarkEnded(w, id))
    ensures RolloutEnd(c, w, id).Some?
    ensures var e := RolloutEnd(c, w, id).value;
            && Core(c, e) && Provided(c, e) && (Stuck(c, e) <==> Stuck(c, w)) && (Unstarted(c, e) ==> Stuck(c, e))
            && (StopSafe(c, e) <==> !Stuck(c, w))
  {
    hide Core, Unstarted, AtLimit, Provided, StopSafe, RolloutEnd, AllEnded, IssuesExtra;
    EndCore(c, w, id);
    var e := RolloutEnd(c, w, id).value;
    EventStuck(c, w, EndIn(id));
    if Unstarted(c, e) { EndWithinLimit(c, w, id); }
    SafeIff(c, e);
  }

  // ---------- what reports alone achieve ----------

  /** From a safe state reports alone lead to the last fetch. */
  lemma StopSignalArrives(c: Config, w: World) returns (acks: seq<Event>)
    requires ValidConfig(c) && Core(c, w) && StopSafe(c, w) && Covered(c, w)
    ensures OnlyAcks(acks) && OrderlyRun(c, w, acks) && CanRun(c, w, acks) && FinalPublished(Run(c, w, acks))
  {
    hide FinalPublished, Core, Settled, Supplied, SomeoneRunning;
    if FinalPublished(w) {
      acks := [];
    } else {
      RunningSettles(c, w);
      acks := LastStepReached(c, w);
    }
  }

  /** Some reports, in some order, lead to the last fetch. */
  ghost predicate ReportsStop(c: Config, w: World)
    requires ValidConfig(c)
  {
    exists acks :: OnlyAcks(acks) && OrderlyRun(c, w, acks) && CanRun(c, w, acks) && FinalPublished(Run(c, w, acks))
  }

  lemma NobodyReports(c: Config, w: World, acks: seq<Event>)
    requires ValidConfig(c) && !SomeoneRunning(w) && OnlyAcks(acks) && OrderlyRun(c, w, acks)
    ensures acks == []
  {
    FirstReporter(c, w, acks);
  }

  lemma FirstReporter(c: Config, w: World, acks: seq<Event>)
    requires ValidConfig(c) && OnlyAcks(acks) && OrderlyRun(c, w, acks)
    ensures acks != [] ==> SomeoneRunning(w)
  {
    hide After;
    if acks != [] { assert acks[0] in acks; }
  }

  lemma TriggerFinalBack(c: Config, w: World)
    requires Core(c, w) && TryTrigger(c, w, false).Some? && FinalPublished(TryTrigger(c, w, false).value)
    ensures FinalPublished(w) || Finished(TryTrigger(c, w, false).value)
  {
    hide TryTrigger, Triggers, StatusOk;
    var v := TryTrigger(c, w, false).value;
    if Triggers(c, w, false) {
      TriggerReplicas(c, w, false);
      TriggerRest(c, w, false);
      SamePoliciesArrived(w, v);
      if w.step + 1 < w.total {
        hide FetchOf, ArrivedPolicies;
        forall id | id in ArrivedPolicies(w)
          ensures Stopped(w.policies[id])
        {
          assert IsServed(w.policies[id], v.policies[id], FetchOf(c, w, false));
          GoesOn(c, w);
          ServedStopped(w.policies[id], v.policies[id], FetchOf(c, w, false));
        }
      }
    } else {
      NoTrigger(c, w, false);
    }
  }

  lemma GoesOn(c: Config, w: World)
    requires w.step + 1 < w.total
    ensures !ShouldStop(FetchOf(c, w, false))
  {
  }

  lemma ServedStopped(r: Replica, t: Replica, cmd: Command)
    requires IsServed(r, t, cmd) && !ShouldStop(cmd) && Stopped(t)
    ensures Stopped(r)
  {
    var k :| 0 <= k < |t.stream| && ShouldStop(t.stream[k]);
    assert r.stream[k] == t.stream[k];
  }

  /** A report publishes the last fetch only by starting the last step. */
  lemma AckFinalBack(c: Config, w: World, id: nat, step: int, lastStep: int)
    requires ValidConfig(c) && Core(c, w) && id in w.policies && IsRunning(w.policies[id]) && TrainAck(c, w, id, step, lastStep).Some?
    requires FinalPublished(TrainAck(c, w, id, step, lastStep).value)
    ensures FinalPublished(w) || Finished(TrainAck(c, w, id, step, lastStep).value)
  {
    hide Core, AllStatus, SyncIfDue, StepDone, TryTrigger, Acked, SamePolicies, Reported, FinalPublished, NoFetch, Provided;
    AckReported(w, id) by { CoreStatus(c, w); }
    var a := Acked(w, id);
    ReportedNoFetch(w, a);
    NoFetchFinal(w, a);
    if AllStatus(a, {Reduced}) {
      LastAckCore(c, w, a, step, lastStep);
      DoneNoFetch(c, a);
      NoFetchFinal(a, StepDone(c, a));
      var s := SyncIfDue(c, StepDone(c, a), step, lastStep);
      SyncUntrained(c, StepDone(c, a), step, lastStep);
      UntrainedNoFetch(StepDone(c, a), s);
      NoFetchFinal(StepDone(c, a), s);
      var t := TryTrigger(c, s, false).value;
      SampledFinal(t);
      TriggerFinalBack(c, s);
    }
  }

  lemma SampledFinal(w: World)
    ensures FinalPublished(w.(stepSampled := false)) <==> FinalPublished(w)
  {
  }

  lemma ReportedNoFetch(w: World, a: World)
    requires Reported(w, a)
    ensures NoFetch(w, a)
  {
  }

  lemma DoneNoFetch(c: Config, a: World)
    ensures NoFetch(a, StepDone(c, a))
  {
  }

  lemma {:induction false} FinalNeedsSupply(c: Config, w: World, acks: seq<Event>)
    requires ValidConfig(c) && Steady(c, w) && OnlyAcks(acks) && OrderlyRun(c, w, acks) && CanRun(c, w, acks)
    requires !FinalPublished(w) && FinalPublished(Run(c, w, acks))
    ensures Supplied(c, w)
    decreases |acks|
  {
    hide Core, Settled, Supplied, SameSupply, Provided, TrainAck, FinalPublished;
    assert acks != [];
    assert acks[0] in acks;
    var e := acks[0];
    AckSupply(c, w, e.id, e.step, e.lastStep);
    AckSteady(c, w, e.id, e.step, e.lastStep);
    var v := TrainAck(c, w, e.id, e.step, e.lastStep).value;
    SupplyKept(c, w, v);
    if FinalPublished(v) {
      AckFinalBack(c, w, e.id, e.step, e.lastStep);
      AllStepsDone(c, v);
    } else {
      FinalNeedsSupply(c, v, acks[1..]);
    }
  }

  /** Safe is exactly what it should be: reports alone lead to the last fetch. */
  lemma SafeIsExact(c: Config, w: World)
    requires ValidConfig(c) && Core(c, w) && Covered(c, w)
    ensures ReportsStop(c, w) <==> StopSafe(c, w)
  {
    hide Core, Settled, Supplied, FinalPublished, Covered, OnlyAcks, SomeoneRunning;
    if StopSafe(c, w) {
      var acks := StopSignalArrives(c, w);
    }
    if ReportsStop(c, w) && !FinalPublished(w) {
      var acks :| OnlyAcks(acks) && OrderlyRun(c, w, acks) && CanRun(c, w, acks) && FinalPublished(Run(c, w, acks));
      if SomeoneRunning(w) {
        RunningSettles(c, w);
        FinalNeedsSupply(c, w, acks);
        CoreParts(c, w);
      } else {
        NobodyReports(c, w, acks);
      }
    }
  }

  /** Without further rollouts the last step is reached exactly when it is there already, or the queue holds the
      rollouts of all steps left and a replica is training whose report starts the next one. */
  lemma SharedStopIff(c: Config, w: World)
    requires ValidConfig(c) && Core(c, w) && Covered(c, w)
    ensures ReportsSuffice(c, w) <==> Finished(w) || (Supplied(c, w) && SomeoneRunning(w))
  {
    hide Core, Supplied, Covered, Finished, FinalPublished, OnlyAcks, SomeoneRunning, Settled;
    if SomeoneRunning(w) {
      RunningSettles(c, w);
      SteadyStopIff(c, w);
      if Finished(w) { AllStepsDone(c, w); }
    } else {
      NothingReported(c, w);
    }
  }

  lemma NothingReported(c: Config, w: World)
    requires ValidConfig(c) && !SomeoneRunning(w)
    ensures ReportsSuffice(c, w) <==> Finished(w)
  {
    if Finished(w) {
      var acks: seq<Event> := [];
      assert OnlyAcks(acks) && OrderlyRun(c, w, acks) && CanRun(c, w, acks) && Finished(Run(c, w, acks));
    }
    if ReportsSuffice(c, w) {
      var acks :| OnlyAcks(acks) && OrderlyRun(c, w, acks) && CanRun(c, w, acks) && Finished(Run(c, w, acks));
      NobodyReports(c, w, acks);
    }
  }

  // ---------- the last one leaves ----------

  /** When the last rollout replica still generating leaves instead of reporting its end, nobody concludes: the
      last step is reached exactly when it is there already, or the queue held the rollouts of all steps left
      when it left and a replica was training. Had it reported its end instead, the state would be safe whatever
      the queue held, unless it was stuck. */
  lemma LeavingStopIff(c: Config, w: World, id: nat)
    requires ValidConfig(c) && Core(c, w) && Covered(c, w) && id in w.rollouts && AllEnded(MarkEnded(w, id))
    ensures UnregisterRollout(w, id).Some? && RolloutEnd(c, w, id).Some?
    ensures StopSafe(c, RolloutEnd(c, w, id).value) <==> !Stuck(c, w)
    ensures var v := UnregisterRollout(w, id).value;
            && AllEnded(v)
            && (ReportsSuffice(c, v) <==> Finished(w) || (|w.queue| >= (w.total - w.step) * PerStep(c, w) && SomeoneRunning(w)))
            && (Settled(c, w) ==> (ReportsSuffice(c, v) <==> |w.queue| >= (w.total - w.step) * PerStep(c, w)))
            && (!FinalPublished(w) ==> (ReportsSuffice(c, v) <==> StopSafe(c, v)))
  {
    hide Core, Settled, Provided, RolloutEnd, UnregisterRollout, Covered, ReportsSuffice, Untrained, FinalPublished, Quiet, Stuck,
      SomeoneRunning, AllEnded;
    EndStuck(c, w, id);
    LeavingIs(w, id);
    var v := UnregisterRollout(w, id).value;
    GoneUntrained(w, id);
    UntrainedKeeps(c, w, v);
    UntrainedNumbers(c, w, v);
    UntrainedQuiet(w, v);
    QuietStays(c, w, v);
    SharedStopIff(c, v);
    CoreParts(c, w);
    if Settled(c, w) { SteadyStopIff(c, v); }
  }

  lemma LeavingIs(w: World, id: nat)
    requires id in w.rollouts
    ensures UnregisterRollout(w, id).Some?
    ensures var v := UnregisterRollout(w, id).value;
            v.policies == w.policies && v.policyOrder == w.policyOrder && (AllEnded(MarkEnded(w, id)) ==> AllEnded(v))
  {
    hide RebuildRolloutMesh, AllEnded;
    var u := w.(rollouts := w.rollouts - {id}, rolloutOrder := Without(w.rolloutOrder, id));
    OthersEnded(w, id, u);
    RebuildEnds(u);
  }

  lemma OthersEnded(w: World, id: nat, u: World)
    requires id in w.rollouts && u.rollouts == w.rollouts - {id}
    ensures AllEnded(MarkEnded(w, id)) ==> AllEnded(u)
  {
    if AllEnded(MarkEnded(w, id)) {
      forall i | i in u.rollouts
        ensures u.rollouts[i].ended
      {
        assert MarkEnded(w, id).rollouts[i] == w.rollouts[i];
      }
    }
  }

  lemma RebuildEnds(w: World)
    ensures var v := RebuildRolloutMesh(w);
            v.policies == w.policies && v.policyOrder == w.policyOrder && (AllEnded(w) ==> AllEnded(v))
  {
    hide SortByStart, ArrivedRollouts;
  }

  lemma UntrainedKeeps(c: Config, w: World, v: World)
    requires Untrained(w, v) && Core(c, w) && Covered(c, w)
    ensures Core(c, v) && Covered(c, v) && (Settled(c, w) ==> Settled(c, v))
  {
    hide Core, Settled, Provided, OnlyMore, Untrained;
    UntrainedIsMore(w, v);
    MoreKeepsCore(c, w, v);
    UntrainedNumbers(c, w, v);
  }

  lemma UntrainedNumbers(c: Config, w: World, v: World)
    requires Untrained(w, v)
    ensures PerStep(c, v) == PerStep(c, w) && v.step == w.step && v.total == w.total && v.queue == w.queue && v.inFlight == w.inFlight
  {
    UntrainedSame(w, v);
    PerStepSame(c, w, v);
  }

  // ---------- no steps are left ----------

  /** All are ready, no steps are left, and nobody was told to stop. */
  predicate Idle(c: Config, w: World) {
    && !c.byRank && ArrivedPolicies(w) != [] && StatusOk(w) && AllStatus(w, {Ready}) && 0 <= w.step && w.total <= w.step
    && !FinalPublished(w)
  }

  /** With the policy replicas initialised, whatever the steps left. */
  predicate Underway(c: Config, w: World) {
    !c.byRank && (FinalPublished(w) || Core(c, w) || Idle(c, w))
  }

  /** The end of the rollouts leaves nobody to publish the last fetch: it is not out, the handler does not issue
      the extra one, and if steps are left no replica is training whose report would start the next. */
  predicate LosesSignal(c: Config, w: World) {
    && !FinalPublished(w) && !ConcludesWithExtra(c, w)
    && (Recompute(c, w, Pending(c, w)).total > w.step ==> !SomeoneRunning(w))
  }

  lemma ReadyIdles(w: World)
    requires AllStatus(w, {Ready})
    ensures !SomeoneRunning(w) && AllStatus(w, {Ready, Reduced})
  {
  }

  lemma CoreLosesIff(c: Config, w: World)
    requires ValidConfig(c) && Core(c, w)
    ensures LosesSignal(c, w) <==> Stuck(c, w)
  {
    hide StatusOk, FinalPublished, SomeoneRunning, Recompute, AllStatus, Supplied, Due;
    if !FinalPublished(w) {
      CoreParts(c, w);
      StepsRemain(c, w);
      RecomputeSame(c, w, Pending(c, w));
      if Settled(c, w) {
        if |w.queue| >= PerStep(c, w) { BusyRuns(w); }
      } else {
        UnsettledIdles(c, w);
      }
    }
  }

  lemma BusyRuns(w: World)
    requires StatusOk(w) && !AllStatus(w, {Ready, Reduced})
    ensures SomeoneRunning(w)
  {
  }

  /** Buffering while no steps are left: a step may start, and it is the last. */
  lemma {:induction false} PutEachIdle(c: Config, w: World, xs: seq<Rollout>)
    requires ValidConfig(c) && Idle(c, w)
    ensures PutEach(c, w, xs).Some?
    ensures var v := PutEach(c, w, xs).value;
            (FinalPublished(v) && v.step > w.step) || (Idle(c, v) && v.step == w.step && v.total == w.total)
    decreases |xs|
  {
    hide TryTrigger, Idle, FinalPublished, Grown;
    if xs != [] {
      BufferedIdle(c, w, xs[0]);
      var b := Buffer(c, w, xs[0]).value;
      IdleTrigger(c, b);
      IdleParts(c, b);
      var p := PutRollout(c, w, xs[0]).value;
      if c.onPolicy && Pending(c, p) == 0 {
        SampledIdle(c, p);
      } else if FinalPublished(p) {
        PutEachShared(c, p, xs[1..]) by { IdleParts(c, w); }
        PutEachGrown(c, p, xs[1..]);
        GrownFinal(p, PutEach(c, p, xs[1..]).value);
        GrownSteps(p, PutEach(c, p, xs[1..]).value);
      } else {
        PutEachIdle(c, p, xs[1..]);
      }
    }
  }

  lemma IdleParts(c: Config, w: World)
    requires Idle(c, w)
    ensures !c.byRank && ArrivedPolicies(w) != [] && StatusOk(w) && AllStatus(w, {Ready}) && 0 <= w.step && w.total <= w.step
    ensures !FinalPublished(w)
  {
  }

  lemma {:induction false} PutEachShared(c: Config, w: World, xs: seq<Rollout>)
    requires !c.byRank
    ensures PutEach(c, w, xs).Some?
    decreases |xs|
  {
    hide TryTrigger;
    if xs != [] {
      SharedDispatches(c, Buffer(c, w, xs[0]).value, false);
      PutEachShared(c, PutRollout(c, w, xs[0]).value, xs[1..]);
    }
  }

  lemma GrownSteps(w: World, v: World)
    requires Grown(w, v)
    ensures w.step <= v.step
  {
  }

  lemma BufferedIdle(c: Config, w: World, x: Rollout)
    requires Idle(c, w)
    ensures Buffer(c, w, x).Some? && Idle(c, Buffer(c, w, x).value)
    ensures var b := Buffer(c, w, x).value;
            b.step == w.step && b.total == w.total
  {
    var b := Buffer(c, w, x).value;
    assert ArrivedPolicies(b) == ArrivedPolicies(w);
    hide ArrivedPolicies, Stopped;
  }

  lemma SampledIdle(c: Config, w: World)
    ensures var v := w.(stepSampled := true);
            (Idle(c, w) ==> Idle(c, v)) && (FinalPublished(w) ==> FinalPublished(v))
  {
    assert ArrivedPolicies(w.(stepSampled := true)) == ArrivedPolicies(w);
    hide ArrivedPolicies, Stopped;
  }

  lemma IdleTrigger(c: Config, w: World)
    requires ValidConfig(c) && Idle(c, w)
    ensures TryTrigger(c, w, false).Some?
    ensures var v := TryTrigger(c, w, false).value;
            (FinalPublished(v) && v.step > w.step) || v == w
  {
    hide TryTrigger, Triggers, FinalPublished, StatusOk, AllStatus, ArrivedPolicies;
    SharedDispatches(c, w, false);
    if Triggers(c, w, false) {
      TriggeredFinal(c, w, false);
      TriggerRest(c, w, false);
    } else {
      NoTrigger(c, w, false);
    }
  }

  lemma IdleGroup(c: Config, w: World, xs: seq<Rollout>)
    requires ValidConfig(c) && Idle(c, w) && Buffers(c, w, GroupIn(xs)) && PutGroup(c, w, xs).Some?
    ensures var v := PutGroup(c, w, xs).value;
            (FinalPublished(v) && v.step > w.step) || (Idle(c, v) && v.step == w.step && v.total == w.total)
  {
    hide Idle, PutEach, FreshOnes, VersionsKnown, FinalPublished;
    var kept := FreshOnes(c, w, xs);
    var p := w.(remain := w.remain - (|xs| - |kept|));
    RemainIdle(c, w, p.remain);
    PutEachIdle(c, p, kept);
  }

  lemma RemainIdle(c: Config, w: World, remain: int)
    requires Idle(c, w)
    ensures Idle(c, w.(remain := remain))
  {
    assert ArrivedPolicies(w.(remain := remain)) == ArrivedPolicies(w);
    hide ArrivedPolicies, Stopped;
  }

  lemma QuietIdle(c: Config, w: World, v: World)
    requires Idle(c, w) && Quiet(w, v)
    ensures if v.total <= v.step then Idle(c, v) else Core(c, v) && !FinalPublished(v) && (|v.queue| >= PerStep(c, v) ==> Unstarted(c, v))
  {
    hide FinalPublished, StatusOk, AllStatus, ArrivedPolicies, Quiet;
    QuietSame(w, v);
    QuietStays(c, w, v);
    ReadyIdles(v);
  }

  lemma QuietSame(w: World, v: World)
    requires Quiet(w, v)
    ensures v.queue == w.queue && v.step == w.step
  {
  }

  lemma IdleExtra(c: Config, w: World, id: nat)
    requires ValidConfig(c) && Idle(c, w) && IssuesExtra(c, w, EndIn(id)) && RolloutEnd(c, w, id).Some?
    ensures var v := RolloutEnd(c, w, id).value;
            FinalPublished(v) && v.step > w.step
  {
    hide FinalPublished, TryTrigger, AllEnded, Recompute, AllStatus, StatusOk, ArrivedPolicies;
    var m := MarkEnded(w, id);
    var t := Recompute(c, m, Pending(c, m));
    RecomputeSame(c, m, Pending(c, m));
    MarkedIdle(c, w, t, id);
    var q := Curtailed(t);
    CurtailedStatus(m, t);
    FakeFinal(c, q);
  }

  lemma MarkedIdle(c: Config, w: World, t: World, id: nat)
    requires Idle(c, w) && t == MarkEnded(w, id).(total := t.total)
    ensures !c.byRank && ArrivedPolicies(t) != [] && StatusOk(MarkEnded(w, id)) && StatusOk(t) && 0 <= t.step == w.step
  {
    assert ArrivedPolicies(t) == ArrivedPolicies(w);
    hide ArrivedPolicies, FinalPublished;
  }

  lemma SharedEnds(c: Config, w: World, id: nat)
    requires !c.byRank
    ensures RolloutEnd(c, w, id).Some?
  {
    hide TryTrigger, Recompute, AllEnded;
    var m := MarkEnded(w, id);
    var t := Recompute(c, m, Pending(c, m));
    SharedDispatches(c, Curtailed(t), true);
  }

  lemma IdleEvent(c: Config, w: World, e: Event)
    requires ValidConfig(c) && Idle(c, w) && Orderly(w, e) && After(c, w, e).Some?
    ensures Underway(c, After(c, w, e).value)
  {
    hide Idle, Core, FinalPublished, After, Buffers, IssuesExtra, Orderly, Quiet, Unstarted, SomeoneRunning;
    IdleParts(c, w);
    ReadyIdles(w);
    if Buffers(c, w, e) {
      IdleGroup(c, w, e.xs) by { BuffersGroup(c, w, e); }
      BuffersGroup(c, w, e);
    } else if IssuesExtra(c, w, e) {
      ExtraEnds(c, w, e);
      IdleExtra(c, w, e.id);
    } else {
      EventQuiet(c, w, e);
      QuietIdle(c, w, After(c, w, e).value);
    }
  }

  lemma BuffersGroup(c: Config, w: World, e: Event)
    requires ValidConfig(c) && Buffers(c, w, e) && After(c, w, e).Some?
    ensures e.GroupIn? && Buffers(c, w, GroupIn(e.xs)) && After(c, w, e) == PutGroup(c, w, e.xs)
  {
  }

  lemma ExtraEnds(c: Config, w: World, e: Event)
    requires ValidConfig(c) && IssuesExtra(c, w, e) && After(c, w, e).Some?
    ensures e.EndIn? && IssuesExtra(c, w, EndIn(e.id)) && After(c, w, e) == RolloutEnd(c, w, e.id)
  {
  }

  lemma EventUnderway(c: Config, w: World, e: Event)
    requires ValidConfig(c) && Underway(c, w) && Orderly(w, e) && After(c, w, e).Some?
    ensures Underway(c, After(c, w, e).value)
  {
    hide Idle, Core, FinalPublished, After, Buffers, IssuesExtra, Orderly, Grown, Stuck, Unstarted;
    if FinalPublished(w) {
      EventGrown(c, w, e) by { OrderlyKeeps(w, e); }
      GrownFinal(w, After(c, w, e).value);
    } else if Core(c, w) {
      EventStuck(c, w, e);
    } else {
      IdleEvent(c, w, e);
    }
  }

  lemma {:induction false} RunUnderway(c: Config, w: World, events: seq<Event>)
    requires ValidConfig(c) && Underway(c, w) && OrderlyRun(c, w, events)
    ensures CanRun(c, w, events) && Underway(c, Run(c, w, events))
    decreases |events|
  {
    hide Underway, After, Orderly;
    if events != [] {
      EventUnderway(c, w, events[0]);
      RunUnderway(c, After(c, w, events[0]).value, events[1..]);
    }
  }

  /** What the end of the last rollout replica decides: the state is safe, and reports alone lead to the last
      fetch, exactly if the signal is not lost. */
  lemma EndDecides(c: Config, w: World, id: nat)
    requires ValidConfig(c) && Underway(c, w) && AllEnded(MarkEnded(w, id))
    ensures RolloutEnd(c, w, id).Some?
    ensures var e := RolloutEnd(c, w, id).value;
            && Underway(c, e) && (StopSafe(c, e) <==> !LosesSignal(c, w))
            && (Covered(c, e) ==> (ReportsStop(c, e) <==> !LosesSignal(c, w)))
  {
    hide Idle, Core, FinalPublished, RolloutEnd, LosesSignal, AllEnded, Due, SomeoneRunning, Stuck, Covered, ReportsStop, Grown, StopSafe;
    SharedEnds(c, w, id);
    var e := RolloutEnd(c, w, id).value;
    if FinalPublished(w) {
      EndGrown(c, w, id);
      GrownFinal(w, e);
      FinalDecides(c, w, e);
    } else if Core(c, w) {
      EndStuck(c, w, id);
      CoreLosesIff(c, w);
      if Covered(c, e) { SafeIsExact(c, e); }
    } else {
      IdleDecides(c, w, id);
    }
  }

  lemma FinalDecides(c: Config, w: World, e: World)
    requires ValidConfig(c) && FinalPublished(w) && FinalPublished(e)
    ensures StopSafe(c, e) && ReportsStop(c, e) && !LosesSignal(c, w)
  {
    PublishedStops(c, e);
  }

  lemma PublishedStops(c: Config, e: World)
    requires ValidConfig(c)
    ensures FinalPublished(e) ==> ReportsStop(c, e)
    ensures !SomeoneRunning(e) && ReportsStop(c, e) ==> FinalPublished(e)
  {
    hide FinalPublished, SomeoneRunning;
    var none: seq<Event> := [];
    if FinalPublished(e) {
      assert OnlyAcks(none) && OrderlyRun(c, e, none) && CanRun(c, e, none) && FinalPublished(Run(c, e, none));
    }
    if ReportsStop(c, e) && !SomeoneRunning(e) {
      var acks :| OnlyAcks(acks) && OrderlyRun(c, e, acks) && CanRun(c, e, acks) && FinalPublished(Run(c, e, acks));
      NobodyReports(c, e, acks);
    }
  }

  lemma IdleDecides(c: Config, w: World, id: nat)
    requires ValidConfig(c) && Idle(c, w) && AllEnded(MarkEnded(w, id)) && RolloutEnd(c, w, id).Some?
    ensures var e := RolloutEnd(c, w, id).value;
            Underway(c, e) && (StopSafe(c, e) <==> !LosesSignal(c, w)) && (ReportsStop(c, e) <==> !LosesSignal(c, w))
  {
    hide Idle, FinalPublished, RolloutEnd, AllEnded, SomeoneRunning, ReportsStop, Quiet, Core, Underway, ConcludesWithExtra, Due;
    var e := RolloutEnd(c, w, id).value;
    IdleEvent(c, w, EndIn(id));
    IdleParts(c, w);
    ReadyIdles(w);
    PublishedStops(c, e);
    MarkedExtra(c, w, id);
    if IssuesExtra(c, w, EndIn(id)) {
      IdleExtra(c, w, id);
    } else {
      EndQuietly(c, w, id);
      QuietStays(c, w, e);
    }
  }

  lemma MarkedExtra(c: Config, w: World, id: nat)
    requires AllEnded(MarkEnded(w, id))
    ensures IssuesExtra(c, w, EndIn(id)) <==> ConcludesWithExtra(c, w)
  {
    hide AllEnded, Recompute;
    var m := MarkEnded(w, id);
    MarkedTotal(c, w, m, Pending(c, w));
    RecomputeSame(c, m, Pending(c, m));
    RecomputeSame(c, w, Pending(c, w));
  }

  /** A safe state stays safe. */
  lemma SafeStays(c: Config, w: World, after: seq<Event>)
    requires ValidConfig(c) && Underway(c, w) && StopSafe(c, w) && OrderlyRun(c, w, after)
    ensures CanRun(c, w, after) && StopSafe(c, Run(c, w, after))
  {
    hide FinalPublished, Core, Settled, Supplied, Grown, SomeoneRunning;
    OrderlyCanRun(c, w, after);
    if FinalPublished(w) {
      RunGrown(c, w, after);
      GrownFinal(w, Run(c, w, after));
    } else {
      DueIsCore(c, w);
      RunningSettles(c, w);
      RunCore(c, w, after);
      SafeIff(c, Run(c, w, after));
    }
  }

  lemma DueIsCore(c: Config, w: World)
    requires Underway(c, w) && !FinalPublished(w) && w.step < w.total
    ensures Core(c, w)
  {
  }

  lemma {:induction false} RunGrown(c: Config, w: World, events: seq<Event>)
    requires ValidConfig(c) && OrderlyRun(c, w, events) && CanRun(c, w, events)
    ensures Grown(w, Run(c, w, events))
    decreases |events|
  {
    hide After, Grown;
    if events == [] {
      SameGrown(w, w);
    } else {
      var v := After(c, w, events[0]).value;
      EventGrown(c, w, events[0]);
      RunGrown(c, v, events[1..]);
      GrownTransitive(w, v, Run(c, v, events[1..]));
    }
  }

  // ---------- all steps done before the first ----------

  /** As many steps done as there are, from before the replicas were initialised or for want of samples. */
  predicate Exhausted(c: Config, w: World) {
    Idle(c, w) && w.total == w.step && (w.step == 0 && c.maxSteps.Some? ==> 0 <= c.maxSteps.value)
  }

  lemma ExhaustedEvent(c: Config, w: World, e: Event)
    requires ValidConfig(c) && Exhausted(c, w) && Orderly(w, e) && After(c, w, e).Some?
    ensures var v := After(c, w, e).value;
            (FinalPublished(v) && v.step > w.step) || (v.step == w.step && (Exhausted(c, v) || Stuck(c, v)))
  {
    hide Idle, FinalPublished, After, Buffers, Orderly, Quiet, Unstarted, SomeoneRunning, AllEnded, AtLimit, PerStep;
    IdleParts(c, w);
    ReadyIdles(w);
    var v := After(c, w, e).value;
    if Buffers(c, w, e) {
      BuffersGroup(c, w, e);
      IdleGroup(c, w, e.xs);
    } else {
      NoExtraLeft(c, w, e);
      EventQuiet(c, w, e);
      QuietSame(w, v);
      QuietIdle(c, w, v);
      if e.EndIn? && AllEnded(MarkEnded(w, e.id)) {
        if Finished(w) {
          FinishedTotal(c, w, Pending(c, w));
        } else {
          StepsRemain(c, w);
          NothingToCount(c, w);
          QuietStays(c, w, v);
          LimitOfStep(c, w, v);
        }
      }
    }
  }

  lemma LimitOfStep(c: Config, w: World, v: World)
    requires v.step == w.step
    ensures AtLimit(c, v) <==> AtLimit(c, w)
  {
  }

  lemma NoExtraLeft(c: Config, w: World, e: Event)
    requires w.total == w.step
    ensures !IssuesExtra(c, w, e)
  {
    hide AllEnded, Recompute;
    if e.EndIn? { RecomputeSame(c, MarkEnded(w, e.id), Pending(c, MarkEnded(w, e.id))); }
  }

  lemma NothingToCount(c: Config, w: World)
    requires ValidConfig(c) && ArrivedPolicies(w) != [] && w.total == w.step == 0 && (c.maxSteps.Some? ==> 0 <= c.maxSteps.value)
    ensures Recompute(c, w, Pending(c, w)).total >= 0
  {
    PositivePerStep(c, w);
    hide ArrivedPolicies;
    DivMono(0, Pending(c, w), PerStep(c, w));
  }

  /** Buffering a rollout starts the step that nobody had started. */
  lemma BufferingStarts(c: Config, w: World, e: Event)
    requires ValidConfig(c) && Unstarted(c, w) && Buffers(c, w, e) && After(c, w, e).Some?
    ensures After(c, w, e).value.step > w.step
  {
    hide Core, Settled, FinalPublished, PutEach, FreshOnes, VersionsKnown, Grown;
    var kept := FreshOnes(c, w, e.xs);
    var p := w.(remain := w.remain - (|e.xs| - |kept|));
    RemainMore(w, p.remain);
    UnstartedParts(c, w, p);
    FirstPut(c, p, kept);
  }

  lemma UnstartedParts(c: Config, w: World, p: World)
    requires Unstarted(c, w) && p == w.(remain := p.remain)
    ensures !c.byRank && AllStatus(p, {Ready, Reduced}) && !Finished(p) && |p.queue| >= PerStep(c, p) && ArrivedPolicies(p) != []
  {
    hide StatusOk, FinalPublished;
    assert ArrivedPolicies(p) == ArrivedPolicies(w);
  }

  lemma FirstPut(c: Config, p: World, xs: seq<Rollout>)
    requires ValidConfig(c) && !c.byRank && AllStatus(p, {Ready, Reduced}) && !Finished(p) && |p.queue| >= PerStep(c, p)
    requires ArrivedPolicies(p) != [] && xs != [] && PutEach(c, p, xs).Some?
    ensures PutEach(c, p, xs).value.step > p.step
  {
    hide TryTrigger, AllStatus, Grown;
    var b := Buffer(c, p, xs[0]).value;
    assert ArrivedPolicies(b) == ArrivedPolicies(p);
    SameStatuses(p, b);
    hide ArrivedPolicies;
    assert Triggers(c, b, false);
    TriggerRest(c, b, false);
    var q := TryTrigger(c, b, false).value;
    if !(c.onPolicy && Pending(c, q) == 0) {
      PutEachGrown(c, q, xs[1..]);
      GrownSteps(q, PutEach(c, q, xs[1..]).value);
    }
  }

  /** No step was started since step s. */
  predicate NotBegun(c: Config, w: World, s: int) {
    w.step == s && (Exhausted(c, w) || Stuck(c, w))
  }

  /** A step was started. */
  predicate Begun(c: Config, w: World, s: int) {
    w.step > s && (FinalPublished(w) || (Core(c, w) && !Stuck(c, w)))
  }

  lemma EventBegins(c: Config, w: World, e: Event, s: int)
    requires ValidConfig(c) && (NotBegun(c, w, s) || Begun(c, w, s)) && Orderly(w, e) && After(c, w, e).Some?
    ensures NotBegun(c, After(c, w, e).value, s) || Begun(c, After(c, w, e).value, s)
  {
    hide Core, Exhausted, FinalPublished, After, Buffers, Orderly, Grown, Unstarted, AtLimit;
    var v := After(c, w, e).value;
    EventGrown(c, w, e) by { OrderlyKeeps(w, e); }
    GrownSteps(w, v);
    if FinalPublished(w) { GrownFinal(w, v); }
    if NotBegun(c, w, s) {
      if Exhausted(c, w) {
        ExhaustedEvent(c, w, e);
      } else {
        StuckIsCore(c, w);
        EventStuck(c, w, e);
        if Buffers(c, w, e) { BufferingStarts(c, w, e); }
      }
    } else if !FinalPublished(w) {
      EventStuck(c, w, e);
    }
  }

  lemma StuckIsCore(c: Config, w: World)
    requires Unstarted(c, w)
    ensures Core(c, w)
  {
  }

  lemma {:induction false} RunBegins(c: Config, w: World, events: seq<Event>, s: int)
    requires ValidConfig(c) && (NotBegun(c, w, s) || Begun(c, w, s)) && OrderlyRun(c, w, events)
    ensures CanRun(c, w, events)
    ensures NotBegun(c, Run(c, w, events), s) || Begun(c, Run(c, w, events), s)
    decreases |events|
  {
    hide NotBegun, Begun, After, Orderly;
    if events != [] {
      EventBegins(c, w, events[0], s);
      RunBegins(c, After(c, w, events[0]).value, events[1..], s);
    }
  }

  /** With no steps left at the beginning the signal is lost exactly if no step was started. */
  lemma NoStepsLoseIff(c: Config, w: World, s: int)
    requires ValidConfig(c) && (NotBegun(c, w, s) || Begun(c, w, s))
    ensures LosesSignal(c, w) <==> w.step == s
  {
    hide Core, FinalPublished, LosesSignal, Idle, Unstarted, AtLimit;
    if NotBegun(c, w, s) {
      if Exhausted(c, w) {
        ExhaustedLoses(c, w);
      } else {
        StuckIsCore(c, w);
        CoreLosesIff(c, w);
      }
    } else if FinalPublished(w) {
      FinalDecides(c, w, w);
    } else {
      CoreLosesIff(c, w);
    }
  }

  lemma ExhaustedLoses(c: Config, w: World)
    requires Exhausted(c, w)
    ensures LosesSignal(c, w)
  {
    hide FinalPublished, StatusOk, Recompute;
    ReadyIdles(w);
    RecomputeSame(c, w, Pending(c, w));
  }
}
