/** The stop signal when rollouts are dispatched by rank: it depends on every rank's own queue, not on their sum. */
module ControllerRankStop {
  import opened Arithmetic
  import opened Common
  import opened ControllerModel
  import opened ControllerFlow
  import opened ControllerStop

  predicate RankCore(c: Config, w: World) {
    c.byRank && ArrivedPolicies(w) != [] && StatusOk(w) && StepsOk(w) && |w.rankQueues| == |ArrivedPolicies(w)|
  }

  predicate RankSettled(c: Config, w: World) {
    Finished(w) || !AllStatus(w, {Ready, Reduced}) || !Enough(c, w)
  }

  predicate RankSteady(c: Config, w: World) {
    RankCore(c, w) && RankSettled(c, w)
  }

  /** Every rank's queue holds the rollouts of all steps left. */
  predicate RankSupply(c: Config, w: World) {
    forall i :: 0 <= i < |w.rankQueues| ==> |w.rankQueues[i]| >= (w.total - w.step) * c.batch
  }

  /** Rollouts queued for a rank and those already used up by it, counted from step zero. */
  function Account(c: Config, w: World, i: nat): int
    requires i < |w.rankQueues|
  {
    |w.rankQueues[i]| + w.step * c.batch
  }

  predicate SameAccounts(c: Config, w: World, v: World) {
    && v.total == w.total && |v.rankQueues| == |w.rankQueues|
    && forall i :: 0 <= i < |w.rankQueues| ==> Account(c, v, i) == Account(c, w, i)
  }

  lemma SupplyByAccounts(c: Config, w: World, v: World)
    requires SameAccounts(c, w, v)
    ensures RankSupply(c, w) <==> RankSupply(c, v)
  {
    if RankSupply(c, w) {
      SupplyByAccountsOneWay(c, w, v);
    }
    if RankSupply(c, v) {
      SupplyByAccountsOneWay(c, v, w);
    }
  }

  lemma SupplyByAccountsOneWay(c: Config, w: World, v: World)
    requires SameAccounts(c, w, v) && RankSupply(c, w)
    ensures RankSupply(c, v)
  {
    forall i | 0 <= i < |v.rankQueues|
      ensures |v.rankQueues[i]| >= (v.total - v.step) * c.batch
    {
      assert Account(c, v, i) == Account(c, w, i);
      Distribute(w.total, w.step, c.batch);
      Distribute(v.total, v.step, c.batch);
    }
  }

  lemma Distribute(a: int, b: int, size: int)
    ensures (a - b) * size == a * size - b * size
  {
  }

  /** Each served queue loses one batch. */
  lemma RankQueuesShrink(w: World, items: nat)
    requires |ArrivedPolicies(w)| == |w.rankQueues|
    requires forall i :: 0 <= i < |w.rankQueues| ==> items <= |w.rankQueues[i]|
    ensures var d := DispatchByRank(w, items);
            && |d.rankQueues| == |w.rankQueues| && d.total == w.total && d.inFlight == w.inFlight
            && forall i :: 0 <= i < |w.rankQueues| ==> |d.rankQueues[i]| == |w.rankQueues[i]| - items
  {
    hide ArrivedPolicies, DealByRank, DealtByRank, SortByPrompt, SortByStart;
  }

  lemma RankTriggerCounts(c: Config, w: World)
    requires RankCore(c, w) && Triggers(c, w, false)
    ensures TryTrigger(c, w, false).Some?
    ensures var v := TryTrigger(c, w, false).value;
            v.step == w.step + 1 && v.total == w.total && v.inFlight == w.inFlight && SameAccounts(c, w, v)
  {
    hide ArrivedPolicies, DispatchByRank, Fetch, FetchOf, StatusOk, StepsOk, AllStatus, Finished;
    RankQueuesShrink(w, c.batch);
    Distribute(w.step + 1, w.step, c.batch);
  }

  lemma RankTriggerSettles(c: Config, w: World)
    requires ValidConfig(c) && RankCore(c, w)
    ensures TryTrigger(c, w, false).Some?
    ensures var v := TryTrigger(c, w, false).value;
            RankSteady(c, v) && SameAccounts(c, w, v) && SamePolicies(w, v) && v.inFlight == w.inFlight &&
            v.step == w.step + if Triggers(c, w, false) then 1 else 0
  {
    hide FinalPublished, StatusOk, TryTrigger, Triggers, AllStatus, SameAccounts;
    if Triggers(c, w, false) {
      RankTriggerCounts(c, w);
      TriggeredStatus(c, w, false);
      var v := TryTrigger(c, w, false).value;
      SamePoliciesArrived(w, v);
      RankStepsOk(c, w);
      SameQueueCount(c, w, v);
    } else {
      NotTriggered(c, w);
    }
  }

  lemma SameQueueCount(c: Config, w: World, v: World)
    requires SameAccounts(c, w, v)
    ensures |v.rankQueues| == |w.rankQueues| && v.total == w.total
  {
  }

  lemma NotTriggered(c: Config, w: World)
    requires RankCore(c, w) && !Triggers(c, w, false)
    ensures TryTrigger(c, w, false) == Some(w) && SamePolicies(w, w) && RankSettled(c, w) && SameAccounts(c, w, w)
  {
    hide FinalPublished, StatusOk;
    NoTrigger(c, w, false);
  }

  lemma RankStepsOk(c: Config, w: World)
    requires RankCore(c, w) && Triggers(c, w, false) && TryTrigger(c, w, false).Some?
    requires TryTrigger(c, w, false).value.step == w.step + 1 && TryTrigger(c, w, false).value.total == w.total
    ensures StepsOk(TryTrigger(c, w, false).value)
  {
    hide FinalPublished, StatusOk, TryTrigger;
    if w.step + 1 == w.total || FinalPublished(w) {
      TriggeredFinal(c, w, false);
    }
  }

  // ---------- reports ----------

  /** Reports leave the queues and counters alone. */
  lemma SyncKeepsQueues(c: Config, w: World, step: int, lastStep: int)
    requires ValidConfig(c)
    ensures var s := SyncIfDue(c, StepDone(c, w), step, lastStep);
            s.rankQueues == w.rankQueues && s.step == w.step && s.total == w.total && s.inFlight == w.inFlight - PerStep(c, w)
  {
    hide Untrained;
    SyncUntrained(c, StepDone(c, w), step, lastStep);
    UntrainedCounts(StepDone(c, w), SyncIfDue(c, StepDone(c, w), step, lastStep));
  }

  lemma UntrainedCounts(w: World, v: World)
    requires Untrained(w, v)
    ensures v.rankQueues == w.rankQueues && v.step == w.step && v.total == w.total && v.inFlight == w.inFlight
  {
  }

  lemma RankDoneCore(c: Config, w: World, a: World, step: int, lastStep: int)
    requires ValidConfig(c) && RankCore(c, w) && Reported(w, a)
    ensures var s := SyncIfDue(c, StepDone(c, a), step, lastStep);
            RankCore(c, s) && AllStatus(s, {Ready}) && SamePolicies(w, s)
  {
    hide SyncIfDue, StepDone, FinalPublished, StatusOk, AllStatus, SamePolicies, OnlyMore, PerStep;
    var b := StepDone(c, a);
    var s := SyncIfDue(c, b, step, lastStep);
    StepDoneStatus(c, a);
    DoneFields(c, a);
    SamePoliciesTransitive(w, a, b);
    SyncUntrained(c, b, step, lastStep);
    UntrainedIsMore(b, s);
    MoreKeepsStatus(b, s);
    SyncKeepsQueues(c, a, step, lastStep);
    SamePoliciesTransitive(w, b, s);
    SamePoliciesArrived(w, b);
    SamePoliciesArrived(w, s);
    if FinalPublished(w) {
      FinalKept(w, b);
      MoreKeepsFinal(b, s);
    }
  }

  lemma RankEarlyAck(c: Config, w: World, id: nat)
    requires RankCore(c, w) && id in w.policies && IsRunning(w.policies[id]) && !AllStatus(Acked(w, id), {Reduced})
    ensures RankSteady(c, Acked(w, id)) && SameAccounts(c, w, Acked(w, id))
  {
    hide FinalPublished, StatusOk, AllStatus, SamePolicies, PerStep;
    var a := Acked(w, id);
    AckedStatus(w, id);
    AckReported(w, id);
    SamePoliciesArrived(w, a);
    if FinalPublished(w) {
      FinalKept(w, a);
    }
  }

  lemma RankSampled(c: Config, w: World)
    ensures var v := w.(stepSampled := false);
            (RankSteady(c, w) <==> RankSteady(c, v)) && SameAccounts(c, w, v) && (Covered(c, w) <==> Covered(c, v))
  {
    var v := w.(stepSampled := false);
    assert v.policies == w.policies && ArrivedPolicies(v) == ArrivedPolicies(w) && PerStep(c, v) == PerStep(c, w);
    assert forall s :: AllStatus(v, s) <==> AllStatus(w, s);
    hide Stopped, ArrivedPolicies, AllStatus;
  }

  lemma AccountsTransitive(c: Config, a: World, b: World, d: World)
    requires SameAccounts(c, a, b) && SameAccounts(c, b, d)
    ensures SameAccounts(c, a, d)
  {
  }

  /** A report that does not raise keeps the state steady and every rank's account. */
  lemma RankAck(c: Config, w: World, id: nat, step: int, lastStep: int)
    requires ValidConfig(c) && RankSteady(c, w) && id in w.policies && IsRunning(w.policies[id])
    requires TrainAck(c, w, id, step, lastStep).Some?
    ensures var v := TrainAck(c, w, id, step, lastStep).value;
            RankSteady(c, v) && SameAccounts(c, w, v)
  {
    hide RankCore, RankSettled, AllStatus, SyncIfDue, StepDone, TryTrigger, Acked, SamePolicies, Reported, SameAccounts;
    AckReported(w, id) by { RankCoreStatus(c, w); }
    var a := Acked(w, id);
    if AllStatus(a, {Reduced}) {
      RankDoneCore(c, w, a, step, lastStep);
      var s := SyncIfDue(c, StepDone(c, a), step, lastStep);
      AccountsOfSync(c, w, a, step, lastStep);
      RankTriggerSettles(c, s);
      var t := TryTrigger(c, s, false).value;
      AccountsTransitive(c, w, s, t);
      RankSampled(c, t);
      AccountsTransitive(c, w, t, t.(stepSampled := false));
    } else {
      RankEarlyAck(c, w, id);
    }
  }

  lemma RankCoreStatus(c: Config, w: World)
    requires RankCore(c, w)
    ensures StatusOk(w)
  {
  }

  lemma AccountsOfSync(c: Config, w: World, a: World, step: int, lastStep: int)
    requires ValidConfig(c) && Reported(w, a)
    ensures SameAccounts(c, w, SyncIfDue(c, StepDone(c, a), step, lastStep))
  {
    SyncKeepsQueues(c, a, step, lastStep);
  }

  // ---------- exactly when the signal arrives ----------

  lemma {:induction false} AcksKeepAccounts(c: Config, w: World, acks: seq<Event>)
    requires ValidConfig(c) && RankSteady(c, w) && OnlyAcks(acks) && OrderlyRun(c, w, acks)
    ensures CanRun(c, w, acks) && RankSteady(c, Run(c, w, acks)) && SameAccounts(c, w, Run(c, w, acks))
    decreases |acks|
  {
    hide RankSteady, SameAccounts, TrainAck;
    if acks == [] {
      OwnAccounts(c, w);
    } else {
      assert acks[0] in acks;
      var e := acks[0];
      RankAck(c, w, e.id, e.step, e.lastStep);
      var v := TrainAck(c, w, e.id, e.step, e.lastStep).value;
      AcksKeepAccounts(c, v, acks[1..]);
      AccountsTransitive(c, w, v, Run(c, v, acks[1..]));
    }
  }

  lemma OwnAccounts(c: Config, w: World)
    ensures SameAccounts(c, w, w)
  {
  }

  /** While steps are left and supplied some replica is training. */
  lemma RankSomeoneRuns(c: Config, w: World)
    requires ValidConfig(c) && RankSteady(c, w) && RankSupply(c, w) && w.step < w.total
    ensures RunningOnes(w) != {}
  {
    hide FinalPublished;
    MulLe(1, w.total - w.step, c.batch);
    assert Enough(c, w);
    assert !AllStatus(w, {Ready, Reduced});
    assert !AllStatus(w, {Ready});
    var id :| id in w.policies && IsRunning(w.policies[id]);
    assert id in RunningOnes(w);
  }

  lemma RankLastAckSteps(c: Config, w: World, s: World)
    requires ValidConfig(c) && RankCore(c, s) && AllStatus(s, {Ready}) && RankSupply(c, w) && w.step < w.total
    requires s.rankQueues == w.rankQueues && s.step == w.step && s.total == w.total
    ensures Triggers(c, s, false)
  {
    hide FinalPublished, StatusOk;
    MulLe(1, w.total - w.step, c.batch);
    assert AllStatus(s, {Ready, Reduced});
    assert Enough(c, s);
  }

  lemma CoveredAfter(c: Config, w: World, s: World, t: World)
    requires ValidConfig(c) && Covered(c, w) && SamePolicies(w, s) && SamePolicies(s, t) && s.step == w.step && s.total == w.total
    requires t.step == w.step + 1 && t.total == w.total && t.inFlight == s.inFlight == w.inFlight - PerStep(c, w)
    ensures Covered(c, t)
  {
    PerStepSame(c, w, s);
    PerStepSame(c, s, t);
    AddOne(w.total - w.step, PerStep(c, w));
  }

  lemma RankEarlyProgress(c: Config, w: World, id: nat)
    requires StatusOk(w) && id in w.policies && IsRunning(w.policies[id]) && Covered(c, w) && 0 <= w.step <= w.total
    ensures var a := Acked(w, id);
            && a.step == w.step && a.total == w.total && RunningOnes(a) == RunningOnes(w) - {id} && Covered(c, a)
            && PerStep(c, a) == PerStep(c, w) <= a.inFlight == w.inFlight
  {
    var a := Acked(w, id);
    AckedSame(w, id);
    PerStepSame(c, w, a);
    MulLe(1, w.total - w.step + 1, PerStep(c, w));
  }

  lemma RankAckProgress(c: Config, w: World, id: nat, step: int, lastStep: int)
    requires ValidConfig(c) && RankSteady(c, w) && RankSupply(c, w) && w.step < w.total && Covered(c, w)
    requires id in RunningOnes(w)
    ensures TrainAck(c, w, id, step, lastStep).Some?
    ensures var v := TrainAck(c, w, id, step, lastStep).value;
            && RankSteady(c, v) && RankSupply(c, v) && v.total == w.total && Covered(c, v)
            && (v.step == w.step + 1 || (v.step == w.step && RunningOnes(v) == RunningOnes(w) - {id}))
  {
    hide RankCore, RankSettled, AllStatus, SyncIfDue, StepDone, TryTrigger, Acked, SamePolicies, Reported,
      SameAccounts, Covered, RankSupply, Triggers;
    RankCoreStatus(c, w);
    RankCoreSteps(c, w);
    AckReported(w, id);
    var a := Acked(w, id);
    RankEarlyProgress(c, w, id);
    if AllStatus(a, {Reduced}) {
      RankDoneCore(c, w, a, step, lastStep);
      SyncKeepsQueues(c, a, step, lastStep);
      var s := SyncIfDue(c, StepDone(c, a), step, lastStep);
      ReportedQueues(w, a);
      RankLastAckSteps(c, w, s);
      RankTriggerSettles(c, s);
      var t := TryTrigger(c, s, false).value;
      SameQueueCount(c, s, t);
      CoveredAfter(c, w, s, t);
      RankSampled(c, t);
    }
    RankAck(c, w, id, step, lastStep);
    var v := TrainAck(c, w, id, step, lastStep).value;
    SupplyByAccounts(c, w, v);
    SameQueueCount(c, w, v);
  }

  lemma ReportedQueues(w: World, a: World)
    requires Reported(w, a)
    ensures a.rankQueues == w.rankQueues && a.step == w.step && a.total == w.total
  {
  }

  lemma RankCoreSteps(c: Config, w: World)
    requires RankCore(c, w)
    ensures 0 <= w.step <= w.total
  {
  }

  lemma {:induction false} RankSignalArrives(c: Config, w: World) returns (acks: seq<Event>)
    requires ValidConfig(c) && RankSteady(c, w) && RankSupply(c, w) && Covered(c, w)
    ensures OnlyAcks(acks) && OrderlyRun(c, w, acks) && CanRun(c, w, acks) && Finished(Run(c, w, acks))
    decreases w.total - w.step, |RunningOnes(w)|
  {
    hide RankSteady, RankSupply, Covered, TrainAck;
    RankTotals(c, w);
    if w.step >= w.total {
      acks := [];
    } else {
      RankSomeoneRuns(c, w);
      var id :| id in RunningOnes(w);
      RankAckProgress(c, w, id, w.step, w.total);
      var v := TrainAck(c, w, id, w.step, w.total).value;
      var rest := RankSignalArrives(c, v);
      acks := [AckIn(id, w.step, w.total)] + rest;
      assert acks[1..] == rest;
    }
  }

  lemma RankTotals(c: Config, w: World)
    requires RankSteady(c, w)
    ensures 0 < w.total && w.step <= w.total
  {
  }

  /** Without further rollouts the last step is reached exactly when every rank's own queue holds the rollouts
      of all steps left. */
  lemma RankStopIff(c: Config, w: World)
    requires ValidConfig(c) && RankSteady(c, w) && Covered(c, w)
    ensures ReportsSuffice(c, w) <==> RankSupply(c, w)
  {
    hide RankSteady, RankSupply, Covered, SameAccounts;
    if RankSupply(c, w) {
      var acks := RankSignalArrives(c, w);
    }
    if ReportsSuffice(c, w) {
      var acks :| OnlyAcks(acks) && OrderlyRun(c, w, acks) && CanRun(c, w, acks) && Finished(Run(c, w, acks));
      AcksKeepAccounts(c, w, acks);
      var v := Run(c, w, acks);
      AllUsed(c, v);
      SupplyByAccounts(c, w, v);
    }
  }

  lemma AllUsed(c: Config, w: World)
    requires Finished(w)
    ensures RankSupply(c, w)
  {
    MulLe(w.total - w.step, 0, c.batch);
  }
}
