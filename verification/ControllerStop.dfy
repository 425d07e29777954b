/** The stop signal with a fixed set of policy replicas and the shared queue: what every handler keeps of the
    steps left and their rollouts, and how far reports alone lead. */
module ControllerStop {
  import opened Arithmetic
  import opened Common
  import opened ControllerModel
  import opened ControllerFlow

  /** A fetch after which the policy replica stops. */
  predicate ShouldStop(cmd: Command) {
    cmd.DataFetch? && cmd.globalStep >= cmd.totalSteps
  }

  predicate Stopped(r: Replica) {
    exists k :: 0 <= k < |r.stream| && ShouldStop(r.stream[k])
  }

  /** Every arrived policy replica has been told to stop. */
  predicate FinalPublished(w: World) {
    forall id :: id in ArrivedPolicies(w) ==> Stopped(w.policies[id])
  }

  /** The queue holds the rollouts of all steps left. */
  predicate Supplied(c: Config, w: World) {
    |w.queue| >= (w.total - w.step) * PerStep(c, w)
  }

  /** Steps are left, and supplied. */
  predicate Due(c: Config, w: World) {
    w.step < w.total && Supplied(c, w)
  }

  /** The last fetch is out, or there are steps left and rollouts enough for all of them. */
  predicate Provided(c: Config, w: World) {
    FinalPublished(w) || Due(c, w)
  }

  /** The last fetch is out, or it will follow from reports alone: there are steps left, rollouts enough for all
      of them, and a replica is training whose report leads to the next step. */
  predicate StopSafe(c: Config, w: World) {
    FinalPublished(w) || (Due(c, w) && SomeoneRunning(w))
  }

  /** Either all arrived replicas are ready, or some are still training and the others have reported. */
  predicate StatusOk(w: World) {
    && (forall id :: id in w.policies ==> id in w.policyOrder)
    && (forall id :: id in w.policies ==> (w.policies[id].status.Some? <==> Arrived(w.policies[id])))
    && (AllStatus(w, {Ready}) || (AllStatus(w, {Running, Reduced}) && SomeoneRunning(w)))
  }

  /** Steps are left, or all are done and the last fetch is out. */
  predicate StepsOk(w: World) {
    0 <= w.step <= w.total && 0 < w.total && (w.step == w.total ==> FinalPublished(w))
  }

  /** No step is waiting to be triggered. */
  predicate Settled(c: Config, w: World) {
    Finished(w) || !AllStatus(w, {Ready, Reduced}) || |w.queue| < PerStep(c, w)
  }

  predicate Core(c: Config, w: World) {
    !c.byRank && ArrivedPolicies(w) != [] && StatusOk(w) && StepsOk(w)
  }

  predicate Steady(c: Config, w: World) {
    Core(c, w) && Settled(c, w)
  }

  // ---------- changes that keep it ----------

  /** Nothing that matters here changed, but for more commands and rollouts. */
  predicate OnlyMore(w: World, v: World) {
    && v.policyOrder == w.policyOrder && v.policies.Keys == w.policies.Keys
    && v.step == w.step && v.total == w.total && |w.queue| <= |v.queue|
    && forall id :: id in w.policies ==> SameButMore(w.policies[id], v.policies[id])
  }

  predicate SameButMore(r: Replica, t: Replica) {
    SameReplica(r, t) && t.status == r.status && r.stream <= t.stream
  }

  lemma StoppedStays(r: Replica, t: Replica)
    requires Stopped(r) && r.stream <= t.stream
    ensures Stopped(t)
  {
    var k :| 0 <= k < |r.stream| && ShouldStop(r.stream[k]);
    assert t.stream[k] == r.stream[k];
  }

  lemma MoreKeepsStatus(w: World, v: World)
    requires OnlyMore(w, v)
    ensures SamePolicies(w, v) && (StatusOk(w) ==> StatusOk(v)) && (forall s :: AllStatus(w, s) <==> AllStatus(v, s))
  {
    assert forall id :: id in w.policies ==> SameButMore(w.policies[id], v.policies[id]);
    if exists id :: id in w.policies && IsRunning(w.policies[id]) {
      var id :| id in w.policies && IsRunning(w.policies[id]);
      assert IsRunning(v.policies[id]);
    }
  }

  lemma MoreKeepsFinal(w: World, v: World)
    requires OnlyMore(w, v) && FinalPublished(w)
    ensures FinalPublished(v)
  {
    hide Stopped;
    MoreKeepsStatus(w, v);
    SamePoliciesArrived(w, v);
    forall id | id in ArrivedPolicies(v)
      ensures Stopped(v.policies[id])
    {
      assert SameButMore(w.policies[id], v.policies[id]);
      StoppedStays(w.policies[id], v.policies[id]);
    }
  }

  lemma MoreKeepsCore(c: Config, w: World, v: World)
    requires OnlyMore(w, v) && Core(c, w)
    ensures Core(c, v) && (Provided(c, w) ==> Provided(c, v)) && (|v.queue| == |w.queue| && Settled(c, w) ==> Settled(c, v))
  {
    hide StatusOk, FinalPublished, AllStatus;
    MoreKeepsStatus(w, v);
    SamePoliciesArrived(w, v);
    PerStepSame(c, w, v);
    if FinalPublished(w) { MoreKeepsFinal(w, v); }
  }

  lemma UntrainedIsMore(w: World, v: World)
    requires Untrained(w, v)
    ensures OnlyMore(w, v) && |v.queue| == |w.queue|
  {
    forall id | id in w.policies
      ensures SameButMore(w.policies[id], v.policies[id])
    {
      assert ToldMore(w.policies[id], v.policies[id]);
    }
  }

  // ---------- a step ----------

  lemma TriggeredFinal(c: Config, w: World, fake: bool)
    requires Triggers(c, w, fake) && TryTrigger(c, w, fake).Some?
    requires w.step + 1 >= w.total || FinalPublished(w)
    ensures FinalPublished(TryTrigger(c, w, fake).value)
  {
    hide TryTrigger, Triggers;
    var v := TryTrigger(c, w, fake).value;
    TriggerReplicas(c, w, fake);
    SamePoliciesArrived(w, v);
    forall id | id in ArrivedPolicies(v)
      ensures Stopped(v.policies[id])
    {
      assert IsServed(w.policies[id], v.policies[id], FetchOf(c, w, fake));
      if w.step + 1 >= w.total {
        var k := |w.policies[id].stream|;
        assert v.policies[id].stream[k] == FetchOf(c, w, fake);
        assert ShouldStop(v.policies[id].stream[k]);
      } else {
        StoppedStays(w.policies[id], v.policies[id]);
      }
    }
  }

  lemma TriggeredStatus(c: Config, w: World, fake: bool)
    requires Triggers(c, w, fake) && TryTrigger(c, w, fake).Some? && StatusOk(w)
    ensures var v := TryTrigger(c, w, fake).value;
            SamePolicies(w, v) && StatusOk(v) && !AllStatus(v, {Ready, Reduced})
  {
    var v := TryTrigger(c, w, fake).value;
    TriggerReplicas(c, w, fake);
    TriggerOrder(c, w, fake);
    SamePoliciesArrived(w, v);
    var first := ArrivedPolicies(w)[0];
    assert first in ArrivedPolicies(w);
    hide TryTrigger, Triggers, ArrivedPolicies, FetchOf;
    RunningAfter(c, w, v, FetchOf(c, w, fake), first);
  }

  lemma TriggerOrder(c: Config, w: World, fake: bool)
    requires Triggers(c, w, fake) && TryTrigger(c, w, fake).Some?
    ensures TryTrigger(c, w, fake).value.policyOrder == w.policyOrder
  {
    hide Triggers, Deal, DealByRank, Served, SortedQueues, DealtByRank, Fetch, FetchOf;
  }

  lemma RunningAfter(c: Config, w: World, v: World, cmd: Command, first: nat)
    requires StatusOk(w) && SamePolicies(w, v) && v.policyOrder == w.policyOrder && first in ArrivedPolicies(w)
    requires forall id :: id in w.policies && id !in ArrivedPolicies(w) ==> v.policies[id] == w.policies[id]
    requires forall id :: id in ArrivedPolicies(w) ==> IsServed(w.policies[id], v.policies[id], cmd)
    ensures StatusOk(v) && !AllStatus(v, {Ready, Reduced})
  {
    forall id | id in v.policies
      ensures v.policies[id].status == if Arrived(v.policies[id]) then Some(Running) else None
    {
      assert SameReplica(w.policies[id], v.policies[id]);
      if id in ArrivedPolicies(w) {
        assert IsServed(w.policies[id], v.policies[id], cmd);
      }
    }
    assert IsRunning(v.policies[first]);
  }

  lemma NotTriggeredSettled(c: Config, w: World)
    requires Core(c, w) && !Triggers(c, w, false)
    ensures TryTrigger(c, w, false) == Some(w) && SamePolicies(w, w) && Settled(c, w)
  {
    hide FinalPublished, StatusOk;
    NoTrigger(c, w, false);
  }

  lemma TriggeredSteps(c: Config, w: World)
    requires ValidConfig(c) && Core(c, w) && Triggers(c, w, false)
    ensures TryTrigger(c, w, false).Some?
    ensures var v := TryTrigger(c, w, false).value;
            StepsOk(v) && (Provided(c, w) ==> Provided(c, v)) && SamePolicies(w, v)
  {
    hide FinalPublished, StatusOk, TryTrigger;
    SharedDispatches(c, w, false);
    var v := TryTrigger(c, w, false).value;
    TriggerCounts(c, w, false);
    TriggerReplicas(c, w, false);
    PerStepSame(c, w, v);
    if w.step + 1 == w.total || FinalPublished(w) {
      TriggeredFinal(c, w, false);
    }
    AddOne(w.total - w.step - 1, PerStep(c, w));
  }

  /** Trying to trigger settles the state. */
  lemma TriggerSettles(c: Config, w: World)
    requires ValidConfig(c) && Core(c, w)
    ensures TryTrigger(c, w, false).Some?
    ensures var v := TryTrigger(c, w, false).value;
            Steady(c, v) && (Provided(c, w) ==> Provided(c, v)) && SamePolicies(w, v)
  {
    hide FinalPublished, StatusOk, TryTrigger, Triggers, StepsOk, AllStatus, Provided;
    if Triggers(c, w, false) {
      TriggeredSteps(c, w);
      TriggeredStatus(c, w, false);
      SamePoliciesArrived(w, TryTrigger(c, w, false).value);
    } else {
      NotTriggeredSettled(c, w);
    }
  }

  lemma SharedDispatches(c: Config, w: World, fake: bool)
    requires !c.byRank && (fake ==> w.step + 1 == w.total)
    ensures TryTrigger(c, w, fake).Some?
  {
  }

  // ---------- rollouts ----------

  /** Every rollout put tries to start a step. */
  lemma {:induction false} PutEachCore(c: Config, w: World, xs: seq<Rollout>)
    requires ValidConfig(c) && Core(c, w)
    ensures PutEach(c, w, xs).Some?
    ensures var v := PutEach(c, w, xs).value;
            Core(c, v) && (Provided(c, w) ==> Provided(c, v)) && (Settled(c, w) || xs != [] ==> Settled(c, v))
    decreases |xs|
  {
    hide TryTrigger, Core, Settled, Provided;
    if xs != [] {
      BufferedCore(c, w, xs[0]);
      var b := Buffer(c, w, xs[0]).value;
      TriggerSettles(c, b);
      var p := PutRollout(c, w, xs[0]).value;
      if c.onPolicy && Pending(c, p) == 0 {
        SampledSteady(c, p, true);
      } else {
        PutEachCore(c, p, xs[1..]);
      }
    }
  }

  lemma BufferedCore(c: Config, w: World, x: Rollout)
    requires Core(c, w)
    ensures Buffer(c, w, x).Some? && Core(c, Buffer(c, w, x).value)
    ensures Provided(c, w) ==> Provided(c, Buffer(c, w, x).value)
  {
    var b := Buffer(c, w, x).value;
    assert OnlyMore(w, b);
    MoreKeepsCore(c, w, b);
  }

  lemma SampledSteady(c: Config, w: World, sampled: bool)
    ensures var v := w.(stepSampled := sampled);
            (Core(c, w) <==> Core(c, v)) && (Steady(c, w) <==> Steady(c, v)) && (Provided(c, w) <==> Provided(c, v))
  {
    var v := w.(stepSampled := sampled);
    assert v.policies == w.policies && ArrivedPolicies(v) == ArrivedPolicies(w) && PerStep(c, v) == PerStep(c, w);
    assert forall s :: AllStatus(v, s) <==> AllStatus(w, s);
    hide Stopped, ArrivedPolicies, AllStatus;
  }
  // ---------- reports ----------

  lemma AckedStatus(w: World, id: nat)
    requires StatusOk(w) && id in w.policies && IsRunning(w.policies[id])
    ensures var a := Acked(w, id);
            && (AllStatus(a, {Reduced}) || (StatusOk(a) && !AllStatus(a, {Ready, Reduced})))
            && (forall i :: i in a.policies ==> i in a.policyOrder)
            && (forall i :: i in a.policies ==> (a.policies[i].status.Some? <==> Arrived(a.policies[i])))
  {
    var a := Acked(w, id);
    if !AllStatus(a, {Reduced}) {
      var i :| i in a.policies && a.policies[i].status.Some? && a.policies[i].status.value !in {Reduced};
      assert i != id && a.policies[i] == w.policies[i];
      assert !AllStatus(w, {Ready});
      assert IsRunning(a.policies[i]);
      forall j | j in a.policies && a.policies[j].status.Some?
        ensures a.policies[j].status.value in {Running, Reduced}
      {
        if j != id { assert a.policies[j] == w.policies[j]; }
      }
    }
  }

  lemma StepDoneStatus(c: Config, a: World)
    requires forall i :: i in a.policies ==> i in a.policyOrder
    requires forall i :: i in a.policies ==> (a.policies[i].status.Some? <==> Arrived(a.policies[i]))
    ensures StatusOk(StepDone(c, a)) && AllStatus(StepDone(c, a), {Ready}) && SamePolicies(a, StepDone(c, a))
  {
  }

  /** What acknowledging changes: statuses and counts of acknowledgements only. */
  predicate Reported(w: World, a: World) {
    && SamePolicies(w, a) && a == w.(policies := a.policies)
    && (forall id :: id in w.policies ==> a.policies[id].stream == w.policies[id].stream)
    && (forall i :: i in a.policies ==> i in a.policyOrder)
    && (forall i :: i in a.policies ==> (a.policies[i].status.Some? <==> Arrived(a.policies[i])))
  }

  lemma DoneCore(c: Config, w: World, a: World)
    requires Core(c, w) && Reported(w, a)
    ensures var b := StepDone(c, a);
            && Core(c, b) && AllStatus(b, {Ready}) && SamePolicies(w, b) && (Provided(c, w) ==> Provided(c, b))
            && b.step == w.step && b.total == w.total && b.queue == w.queue && b.inFlight == a.inFlight - PerStep(c, a)
  {
    hide StepDone, StatusOk, AllStatus, FinalPublished, SamePolicies, PerStep;
    var b := StepDone(c, a);
    StepDoneStatus(c, a);
    SamePoliciesTransitive(w, a, b);
    SamePoliciesArrived(w, b);
    PerStepSame(c, w, b);
    DoneFields(c, a);
    if FinalPublished(w) {
      FinalKept(w, b);
    }
  }

  lemma DoneFields(c: Config, a: World)
    ensures var b := StepDone(c, a);
            b.step == a.step && b.total == a.total && b.queue == a.queue && b.inFlight == a.inFlight - PerStep(c, a)
    ensures forall id :: id in a.policies ==> StepDone(c, a).policies[id].stream == a.policies[id].stream
  {
  }

  /** The last report: all replicas are ready again, and the weights are synchronised if due. */
  lemma LastAckCore(c: Config, w: World, a: World, step: int, lastStep: int)
    requires ValidConfig(c) && Core(c, w) && Reported(w, a)
    ensures var s := SyncIfDue(c, StepDone(c, a), step, lastStep);
            && Core(c, s) && AllStatus(s, {Ready}) && SamePolicies(w, s) && (Provided(c, w) ==> Provided(c, s))
            && s.step == w.step && s.total == w.total && s.queue == w.queue && s.inFlight == a.inFlight - PerStep(c, a)
  {
    hide SyncIfDue, StepDone, FinalPublished, StatusOk, AllStatus, Core, SamePolicies, Reported, Provided, OnlyMore;
    var b := StepDone(c, a);
    DoneCore(c, w, a);
    var s := SyncIfDue(c, b, step, lastStep);
    SyncUntrained(c, b, step, lastStep);
    UntrainedIsMore(b, s);
    MoreKeepsCore(c, b, s);
    MoreKeepsStatus(b, s);
    SamePoliciesTransitive(w, b, s);
  }

  lemma FinalKept(w: World, b: World)
    requires SamePolicies(w, b) && FinalPublished(w)
    requires forall id :: id in w.policies ==> w.policies[id].stream <= b.policies[id].stream
    ensures FinalPublished(b)
  {
    hide Stopped;
    SamePoliciesArrived(w, b);
    forall id | id in ArrivedPolicies(b)
      ensures Stopped(b.policies[id])
    {
      StoppedStays(w.policies[id], b.policies[id]);
    }
  }

  lemma AckReported(w: World, id: nat)
    requires StatusOk(w) && id in w.policies && IsRunning(w.policies[id])
    ensures Reported(w, Acked(w, id))
  {
    AckedStatus(w, id);
  }

  /** A report that is not the last one. */
  lemma EarlyAckSteady(c: Config, w: World, id: nat)
    requires Core(c, w) && id in w.policies && IsRunning(w.policies[id]) && !AllStatus(Acked(w, id), {Reduced})
    ensures Steady(c, Acked(w, id)) && (Provided(c, w) ==> Provided(c, Acked(w, id))) && SamePolicies(w, Acked(w, id))
  {
    hide FinalPublished, StatusOk, AllStatus, SamePolicies, PerStep;
    var a := Acked(w, id);
    AckedStatus(w, id);
    AckReported(w, id);
    SamePoliciesArrived(w, a);
    PerStepSame(c, w, a);
    if FinalPublished(w) {
      FinalKept(w, a);
    }
  }

  lemma AckSteady(c: Config, w: World, id: nat, step: int, lastStep: int)
    requires ValidConfig(c) && Core(c, w) && id in w.policies && IsRunning(w.policies[id])
    requires TrainAck(c, w, id, step, lastStep).Some?
    ensures var v := TrainAck(c, w, id, step, lastStep).value;
            Steady(c, v) && (Provided(c, w) ==> Provided(c, v))
  {
    hide Core, Settled, Provided, AllStatus, SyncIfDue, StepDone, TryTrigger, Acked, SamePolicies, Reported;
    AckReported(w, id) by { CoreStatus(c, w); }
    var a := Acked(w, id);
    if AllStatus(a, {Reduced}) {
      LastAckCore(c, w, a, step, lastStep);
      var s := SyncIfDue(c, StepDone(c, a), step, lastStep);
      TriggerSettles(c, s);
      SampledSteady(c, TryTrigger(c, s, false).value, false);
    } else {
      EarlyAckSteady(c, w, id);
    }
  }

  lemma CoreStatus(c: Config, w: World)
    requires Core(c, w)
    ensures StatusOk(w)
  {
  }

  // ---------- the end of the rollouts ----------

  lemma FakeFinal(c: Config, w: World)
    requires ValidConfig(c) && !c.byRank && ArrivedPolicies(w) != [] && StatusOk(w) && 0 <= w.step && w.total == w.step + 1
    ensures TryTrigger(c, w, true).Some?
    ensures var v := TryTrigger(c, w, true).value;
            Steady(c, v) && FinalPublished(v) && v.step == v.total == w.step + 1
  {
    hide StatusOk, FinalPublished, AllStatus, TryTrigger;
    SharedDispatches(c, w, true);
    assert Triggers(c, w, true);
    TriggerCounts(c, w, true);
    TriggeredStatus(c, w, true);
    TriggeredFinal(c, w, true);
    SamePoliciesArrived(w, TryTrigger(c, w, true).value);
  }

  /** Seeing all rollouts end provides for the steps left: the handler does not raise. */
  lemma ConcludeProvided(c: Config, w: World)
    requires ValidConfig(c) && Core(c, w)
    ensures Conclude(c, w).Some?
    ensures var v := Conclude(c, w).value;
            Core(c, v) && Provided(c, v) && (Settled(c, w) ==> Settled(c, v)) && (ConcludesWithExtra(c, w) ==> FinalPublished(v))
  {
    hide StatusOk, FinalPublished, TryTrigger, AllStatus, SamePolicies;
    var pending := |w.queue|;
    var t := Recompute(c, w, pending);
    RecomputeSame(c, w, pending);
    SamePoliciesArrived(w, t);
    RetotalKeeps(w, t.total);
    if Finished(w) {
      assert t == w;
    } else {
      PositivePerStep(c, w);
      DivMod(pending, PerStep(c, w));
      if t.total > t.step {
        MulLe(t.total - t.step, pending / PerStep(c, w), PerStep(c, w));
      } else {
        CurtailedSame(c, t);
        SamePoliciesArrived(t, Curtailed(t));
        CurtailedStatus(w, t);
        FakeFinal(c, Curtailed(t));
      }
    }
  }

  lemma PositivePerStep(c: Config, w: World)
    requires ValidConfig(c) && ArrivedPolicies(w) != []
    ensures 0 < PerStep(c, w)
  {
    MulLt(0, |ArrivedPolicies(w)|, c.batch);
  }

  lemma RetotalKeeps(w: World, total: int)
    ensures var t := w.(total := total);
            (StatusOk(w) <==> StatusOk(t)) && (FinalPublished(w) <==> FinalPublished(t)) &&
            (forall s :: AllStatus(w, s) <==> AllStatus(t, s))
  {
  }

  lemma CurtailedStatus(w: World, t: World)
    requires StatusOk(w) && t == w.(total := t.total)
    ensures StatusOk(Curtailed(t)) && ArrivedPolicies(Curtailed(t)) == ArrivedPolicies(t)
  {
  }

  lemma MarkEndedMore(w: World, id: nat)
    ensures OnlyMore(w, MarkEnded(w, id)) && MarkEnded(w, id).queue == w.queue
  {
  }

  lemma EndCore(c: Config, w: World, id: nat)
    requires ValidConfig(c) && Core(c, w)
    ensures RolloutEnd(c, w, id).Some?
    ensures var v := RolloutEnd(c, w, id).value;
            && Core(c, v) && (Provided(c, w) || AllEnded(MarkEnded(w, id)) ==> Provided(c, v)) && (Settled(c, w) ==> Settled(c, v))
            && (IssuesExtra(c, w, EndIn(id)) ==> FinalPublished(v))
  {
    hide Core, Settled, Provided, OnlyMore, Conclude, ConcludesWithExtra;
    var e := MarkEnded(w, id);
    MarkEndedMore(w, id);
    MoreKeepsCore(c, w, e);
    if AllEnded(e) {
      ConcludeProvided(c, e);
    }
  }

  // ---------- all events ----------

  /** The policy replicas stay, and only a replica that is training reports. */
  predicate Orderly(w: World, e: Event) {
    KeepsPolicies(e) && (e.AckIn? ==> e.id in w.policies && IsRunning(w.policies[e.id]))
  }

  /** A rollout of the event enters the queue. */
  predicate Buffers(c: Config, w: World, e: Event)
    requires ValidConfig(c)
  {
    e.GroupIn? && FreshOnes(c, w, e.xs) != [] && !Skips(c, w)
  }

  lemma GroupCore(c: Config, w: World, xs: seq<Rollout>)
    requires ValidConfig(c) && Core(c, w) && PutGroup(c, w, xs).Some?
    ensures var v := PutGroup(c, w, xs).value;
            && Core(c, v) && (Provided(c, w) ==> Provided(c, v))
            && (Settled(c, w) || Buffers(c, w, GroupIn(xs)) ==> Settled(c, v))
  {
    hide Core, Settled, Provided, PutEach, OnlyMore;
    var kept := FreshOnes(c, w, xs);
    var p := w.(remain := w.remain - (|xs| - |kept|));
    RemainMore(w, p.remain);
    MoreKeepsCore(c, w, p);
    if c.onPolicy && p.stepSampled {
      RemainMore(p, p.remain - |kept|);
      MoreKeepsCore(c, p, p.(remain := p.remain - |kept|));
    } else {
      PutEachCore(c, p, kept);
    }
  }

  lemma RemainMore(w: World, remain: int)
    ensures OnlyMore(w, w.(remain := remain))
  {
  }

  lemma EventCore(c: Config, w: World, e: Event)
    requires ValidConfig(c) && Core(c, w) && Orderly(w, e) && After(c, w, e).Some?
    ensures var v := After(c, w, e).value;
            && Core(c, v) && (Provided(c, w) ==> Provided(c, v)) && (Settled(c, w) || Buffers(c, w, e) ==> Settled(c, v))
            && (IssuesExtra(c, w, e) ==> FinalPublished(v))
  {
    hide Core, Settled, Provided, FinalPublished, TrainAck, RolloutEnd, PutGroup, RegisterRollout, UnregisterRollout, OnlyMore, Untrained;
    match e
    case RolloutAtom(_, _, _, _) =>
      RolloutEventsUntrained(c, w, e);
      UntrainedIsMore(w, After(c, w, e).value);
      MoreKeepsCore(c, w, After(c, w, e).value);
    case RolloutGone(_) =>
      RolloutEventsUntrained(c, w, e);
      UntrainedIsMore(w, After(c, w, e).value);
      MoreKeepsCore(c, w, After(c, w, e).value);
    case PromptsOut(samples) =>
      PromptsMore(w, samples);
      MoreKeepsCore(c, w, After(c, w, e).value);
    case GroupIn(xs) => GroupCore(c, w, xs);
    case AckIn(id, step, lastStep) => AckSteady(c, w, id, step, lastStep);
    case EndIn(id) => EndCore(c, w, id);
  }

  lemma PromptsMore(w: World, samples: nat)
    ensures OnlyMore(w, w.(inFlight := w.inFlight + samples))
  {
  }

  /** No handler raises, and every event is orderly. */
  ghost predicate OrderlyRun(c: Config, w: World, events: seq<Event>)
    requires ValidConfig(c)
    decreases |events|
  {
    events == [] || (Orderly(w, events[0]) && After(c, w, events[0]).Some? && OrderlyRun(c, After(c, w, events[0]).value, events[1..]))
  }

  lemma {:induction false} OrderlyCanRun(c: Config, w: World, events: seq<Event>)
    requires ValidConfig(c) && OrderlyRun(c, w, events)
    ensures CanRun(c, w, events)
    decreases |events|
  {
    hide After, Orderly;
    if events != [] {
      OrderlyCanRun(c, After(c, w, events[0]).value, events[1..]);
    }
  }

  lemma {:induction false} RunCore(c: Config, w: World, events: seq<Event>)
    requires ValidConfig(c) && Core(c, w) && OrderlyRun(c, w, events)
    ensures CanRun(c, w, events)
    ensures var v := Run(c, w, events);
            Core(c, v) && (Provided(c, w) ==> Provided(c, v)) && (Settled(c, w) ==> Settled(c, v))
    decreases |events|
  {
    hide After, Orderly, Core, Settled, Provided;
    if events != [] {
      EventCore(c, w, events[0]);
      RunCore(c, After(c, w, events[0]).value, events[1..]);
    }
  }

  // ---------- it arrives ----------

  function RunningOnes(w: World): set<nat> {
    set id | id in w.policies && IsRunning(w.policies[id])
  }

  /** While the signal is due some replica is training, so another report is to come. */
  lemma SomeoneRuns(c: Config, w: World)
    requires ValidConfig(c) && Steady(c, w) && Due(c, w)
    ensures RunningOnes(w) != {}
  {
    hide FinalPublished;
    PositivePerStep(c, w);
    MulLe(1, w.total - w.step, PerStep(c, w));
    assert !AllStatus(w, {Ready, Reduced});
    assert !AllStatus(w, {Ready});
    var id :| id in w.policies && IsRunning(w.policies[id]);
    assert id in RunningOnes(w);
  }

  /** Samples in flight cover the steps to come and the current one. */
  predicate Covered(c: Config, w: World) {
    w.inFlight >= (w.total - w.step + 1) * PerStep(c, w)
  }

  lemma EarlyAckProgress(c: Config, w: World, id: nat)
    requires Core(c, w) && id in w.policies && IsRunning(w.policies[id]) && Covered(c, w)
    ensures var a := Acked(w, id);
            && a.step == w.step && a.total == w.total && RunningOnes(a) == RunningOnes(w) - {id} && Covered(c, a)
            && PerStep(c, a) == PerStep(c, w)
  {
    var a := Acked(w, id);
    AckedSame(w, id);
    PerStepSame(c, w, a);
  }

  lemma LastAckProgress(c: Config, w: World, s: World)
    requires ValidConfig(c) && Core(c, w) && Core(c, s) && Due(c, w) && Covered(c, w)
    requires AllStatus(s, {Ready}) && SamePolicies(w, s) && s.step == w.step && s.total == w.total && s.queue == w.queue
    requires s.inFlight == w.inFlight - PerStep(c, w)
    ensures TryTrigger(c, s, false).Some?
    ensures var v := TryTrigger(c, s, false).value;
            v.step == w.step + 1 && v.total == w.total && Covered(c, v)
  {
    hide FinalPublished, TryTrigger, StatusOk, SamePolicies;
    PerStepSame(c, w, s);
    PositivePerStep(c, w);
    MulLe(1, w.total - w.step, PerStep(c, w));
    SharedDispatches(c, s, false);
    assert AllStatus(s, {Ready, Reduced});
    assert Triggers(c, s, false);
    TriggerCounts(c, s, false);
    TriggerReplicas(c, s, false);
    PerStepSame(c, s, TryTrigger(c, s, false).value);
    AddOne(w.total - w.step, PerStep(c, w));
  }

  /** Rollouts queued and those used up by the steps so far, counted from step zero. */
  predicate SameSupply(c: Config, w: World, v: World) {
    && v.total == w.total && PerStep(c, v) == PerStep(c, w)
    && |v.queue| + v.step * PerStep(c, v) == |w.queue| + w.step * PerStep(c, w)
  }

  lemma SupplyKept(c: Config, w: World, v: World)
    requires SameSupply(c, w, v)
    ensures Supplied(c, w) <==> Supplied(c, v)
  {
    var n := PerStep(c, w);
    assert (w.total - w.step) * n == w.total * n - w.step * n;
    assert (v.total - v.step) * n == v.total * n - v.step * n;
  }

  lemma TriggerSupply(c: Config, w: World)
    requires !c.byRank && TryTrigger(c, w, false).Some?
    ensures SameSupply(c, w, TryTrigger(c, w, false).value)
  {
    hide TryTrigger, Triggers, PerStep;
    if Triggers(c, w, false) {
      var v := TryTrigger(c, w, false).value;
      TriggerCounts(c, w, false);
      TriggerReplicas(c, w, false);
      PerStepSame(c, w, v);
      AddOne(w.step, PerStep(c, w));
    } else {
      NoTrigger(c, w, false);
    }
  }

  /** A report that does not raise keeps the supply. */
  lemma AckSupply(c: Config, w: World, id: nat, step: int, lastStep: int)
    requires ValidConfig(c) && Steady(c, w) && id in w.policies && IsRunning(w.policies[id])
    requires TrainAck(c, w, id, step, lastStep).Some?
    ensures SameSupply(c, w, TrainAck(c, w, id, step, lastStep).value)
  {
    hide Core, Settled, Provided, AllStatus, SyncIfDue, StepDone, TryTrigger, SamePolicies, Reported, PerStep;
    AckReported(w, id) by { CoreStatus(c, w); }
    var a := Acked(w, id);
    AckedSame(w, id);
    PerStepSame(c, w, a);
    if AllStatus(a, {Reduced}) {
      LastAckCore(c, w, a, step, lastStep);
      var s := SyncIfDue(c, StepDone(c, a), step, lastStep);
      PerStepSame(c, w, s);
      SharedQueueOnly(c, s);
      TriggerSupply(c, s);
      SampledSupply(c, TryTrigger(c, s, false).value);
    }
  }

  lemma SharedQueueOnly(c: Config, w: World)
    requires Core(c, w)
    ensures !c.byRank && TryTrigger(c, w, false).Some?
  {
    SharedDispatches(c, w, false);
  }

  lemma SampledSupply(c: Config, w: World)
    ensures SameSupply(c, w, w.(stepSampled := false))
  {
    PerStepSame(c, w, w.(stepSampled := false));
  }

  /** Every report while the signal is due completes the step or leaves fewer replicas training. */
  lemma AckProgress(c: Config, w: World, id: nat, step: int, lastStep: int)
    requires ValidConfig(c) && Steady(c, w) && Due(c, w) && Covered(c, w) && id in RunningOnes(w)
    ensures TrainAck(c, w, id, step, lastStep).Some?
    ensures var v := TrainAck(c, w, id, step, lastStep).value;
            && Steady(c, v) && Supplied(c, v) && v.total == w.total && Covered(c, v)
            && (v.step == w.step + 1 || (v.step == w.step && RunningOnes(v) == RunningOnes(w) - {id}))
  {
    hide Core, Settled, Supplied, AllStatus, SyncIfDue, StepDone, TryTrigger, Acked, SamePolicies, Reported, Covered,
      SameSupply;
    AckReported(w, id) by { CoreStatus(c, w); }
    var a := Acked(w, id);
    EarlyAckProgress(c, w, id);
    if AllStatus(a, {Reduced}) {
      LastAckCore(c, w, a, step, lastStep);
      var s := SyncIfDue(c, StepDone(c, a), step, lastStep);
      CoveredNow(c, w, a);
      LastAckProgress(c, w, s);
      SampledCovered(c, TryTrigger(c, s, false).value);
    }
    AckSteady(c, w, id, step, lastStep);
    AckSupply(c, w, id, step, lastStep);
    SupplyKept(c, w, TrainAck(c, w, id, step, lastStep).value);
  }

  lemma SampledCovered(c: Config, w: World)
    ensures Covered(c, w) <==> Covered(c, w.(stepSampled := false))
  {
    PerStepSame(c, w, w.(stepSampled := false));
  }

  lemma CoveredNow(c: Config, w: World, a: World)
    requires Core(c, w) && Covered(c, w) && Reported(w, a)
    ensures PerStep(c, a) == PerStep(c, w) && a.inFlight == w.inFlight && PerStep(c, a) <= a.inFlight
  {
    PerStepSame(c, w, a);
    MulLe(1, w.total - w.step + 1, PerStep(c, w));
  }

  predicate OnlyAcks(events: seq<Event>) {
    forall e :: e in events ==> e.AckIn?
  }

  /** From a supplied state reports alone lead to the last step, in whatever order the training replicas report. */
  lemma {:induction false} LastStepReached(c: Config, w: World) returns (acks: seq<Event>)
    requires ValidConfig(c) && Steady(c, w) && Supplied(c, w) && Covered(c, w)
    ensures OnlyAcks(acks) && OrderlyRun(c, w, acks) && CanRun(c, w, acks)
    ensures Finished(Run(c, w, acks)) && FinalPublished(Run(c, w, acks))
    decreases w.total - w.step, |RunningOnes(w)|
  {
    hide Steady, Supplied, FinalPublished, Covered, TrainAck;
    StepsFacts(c, w);
    if w.step >= w.total {
      acks := [];
    } else {
      SomeoneRuns(c, w);
      var id :| id in RunningOnes(w);
      AckProgress(c, w, id, w.step, w.total);
      var v := TrainAck(c, w, id, w.step, w.total).value;
      var rest := LastStepReached(c, v);
      acks := [AckIn(id, w.step, w.total)] + rest;
      assert acks[1..] == rest;
    }
  }

  lemma StepsFacts(c: Config, w: World)
    requires Steady(c, w)
    ensures 0 < w.total && w.step <= w.total && (w.step == w.total ==> FinalPublished(w))
  {
  }

  // ---------- exactly when it arrives without further rollouts ----------

  /** Some reports, in some order, lead to the last step. */
  ghost predicate ReportsSuffice(c: Config, w: World)
    requires ValidConfig(c)
  {
    exists acks :: OnlyAcks(acks) && OrderlyRun(c, w, acks) && CanRun(c, w, acks) && Finished(Run(c, w, acks))
  }

  lemma {:induction false} AcksKeepSupply(c: Config, w: World, acks: seq<Event>)
    requires ValidConfig(c) && Steady(c, w) && OnlyAcks(acks) && OrderlyRun(c, w, acks)
    ensures CanRun(c, w, acks) && (Supplied(c, Run(c, w, acks)) <==> Supplied(c, w))
    decreases |acks|
  {
    hide Core, Settled, Supplied, SameSupply, Provided, TrainAck;
    if acks != [] {
      assert acks[0] in acks;
      var e := acks[0];
      AckSupply(c, w, e.id, e.step, e.lastStep);
      AckSteady(c, w, e.id, e.step, e.lastStep);
      var v := TrainAck(c, w, e.id, e.step, e.lastStep).value;
      SupplyKept(c, w, v);
      AcksKeepSupply(c, v, acks[1..]);
    }
  }

  lemma AllStepsDone(c: Config, w: World)
    requires Finished(w)
    ensures Supplied(c, w)
  {
    MulLe(w.total - w.step, 0, PerStep(c, w));
  }

  /** Without further rollouts the last step is reached exactly when the queue holds the rollouts of all steps
      left. */
  lemma SteadyStopIff(c: Config, w: World)
    requires ValidConfig(c) && Steady(c, w) && Covered(c, w)
    ensures ReportsSuffice(c, w) <==> Supplied(c, w)
  {
    hide Steady, Supplied, Covered, Finished, FinalPublished;
    if Supplied(c, w) {
      var acks := LastStepReached(c, w);
    }
    if ReportsSuffice(c, w) {
      var acks :| OnlyAcks(acks) && OrderlyRun(c, w, acks) && CanRun(c, w, acks) && Finished(Run(c, w, acks));
      AcksKeepSupply(c, w, acks);
      AllStepsDone(c, Run(c, w, acks));
    }
  }

  // ---------- the rollouts are told ----------

  /** A broadcast after which the rollout replica stops. */
  predicate StopBroadcast(cmd: Command) {
    cmd.RolloutBroadcast? && cmd.weightStep.Some? && cmd.lastStep.Some? && cmd.weightStep.value >= cmd.lastStep.value
  }

  predicate ToldToStop(r: Replica, t: Replica) {
    exists k :: |r.stream| <= k < |t.stream| && StopBroadcast(t.stream[k])
  }

  lemma BroadcastTells(w: World, src: nat, ids: seq<nat>, step: int, id: nat)
    requires src in w.rollouts && id in w.rollouts
    ensures var v := BroadcastToRollouts(w, src, AsSet(ids), Some(step), Some(step));
            if w.rollouts[src].rank.Some? && id in ids && w.rollouts[id].rank.Some?
            then |v.rollouts[id].stream| == |w.rollouts[id].stream| + 1 && w.rollouts[id].stream <= v.rollouts[id].stream &&
                 StopBroadcast(v.rollouts[id].stream[|w.rollouts[id].stream|])
            else v.rollouts[id] == w.rollouts[id]
  {
  }

  lemma SendTellsNothing(w: World, src: nat, dst: nat, step: int, id: nat)
    requires dst in w.rollouts && id in w.rollouts
    ensures var v := SendPolicyToRollout(w, src, dst, Some(step), Some(step));
            && v.rollouts[id].rank == w.rollouts[id].rank && w.rollouts[id].stream <= v.rollouts[id].stream
            && forall k :: |w.rollouts[id].stream| <= k < |v.rollouts[id].stream| ==> !StopBroadcast(v.rollouts[id].stream[k])
  {
  }

  /** After the last step is reported, a rollout replica is told to stop exactly if it has arrived, is in the
      mesh, and so is the first rollout replica, which passes the weights on. */
  lemma RolloutsToldToStopIff(c: Config, w: World, step: int, id: nat)
    requires ValidConfig(c) && ArrivedPolicies(w) != [] && ArrivedRollouts(w) != [] && id in w.rollouts
    ensures var first := SortByStart(w.rollouts, ArrivedRollouts(w))[0];
            var v := SyncIfDue(c, w, step, step);
            && id in v.rollouts && first in w.rollouts
            && (ToldToStop(w.rollouts[id], v.rollouts[id]) <==>
                id in ArrivedRollouts(w) && w.rollouts[id].rank.Some? && w.rollouts[first].rank.Some?)
  {
    hide SendPolicyToRollout, BroadcastToRollouts, ArrivedIn, StopBroadcast;
    var ids := SortByStart(w.rollouts, ArrivedRollouts(w));
    var src := SortByStart(w.policies, ArrivedPolicies(w));
    RolloutsKnown(w);
    assert ids[0] in ids;
    var s := SendPolicyToRollout(w, src[0], ids[0], Some(step), Some(step));
    var v := BroadcastToRollouts(s, ids[0], AsSet(ids), Some(step), Some(step));
    assert SyncIfDue(c, w, step, step) == v;
    SendTellsNothing(w, src[0], ids[0], step, id);
    SendTellsNothing(w, src[0], ids[0], step, ids[0]);
    BroadcastTells(s, ids[0], ids, step, id);
    var r, m, t := w.rollouts[id], s.rollouts[id], v.rollouts[id];
    if s.rollouts[ids[0]].rank.Some? && id in ids && m.rank.Some? {
      assert StopBroadcast(t.stream[|m.stream|]);
    }
  }
}
