/** What a step and the events between arrivals and departures of policy replicas change. */
module ControllerFlow {
  import opened Arithmetic
  import opened Common
  import opened ControllerModel

  // ---------- what a step does ----------

  predicate IsRunning(r: Replica) {
    r.status == Some(Running)
  }

  predicate SomeoneRunning(w: World) {
    exists id :: id in w.policies && IsRunning(w.policies[id])
  }

  /** The same replicas have arrived. */
  predicate SameArrived(g: Group, h: Group, order: seq<nat>) {
    forall id :: id in order ==> ((id in g && Arrived(g[id])) <==> (id in h && Arrived(h[id])))
  }

  lemma {:induction false} ArrivedSame(g: Group, h: Group, order: seq<nat>)
    requires SameArrived(g, h, order)
    ensures ArrivedIn(g, order) == ArrivedIn(h, order)
  {
    if order != [] {
      ArrivedSame(g, h, order[..|order| - 1]);
      assert order[|order| - 1] in order;
    }
  }

  /** Nothing about a replica changes but its status and what it is sent. */
  predicate SameReplica(r: Replica, t: Replica) {
    t == r.(status := t.status, stream := t.stream, received := t.received, acks := t.acks)
  }

  predicate SamePolicies(w: World, v: World) {
    && v.policyOrder == w.policyOrder && v.policies.Keys == w.policies.Keys
    && forall id :: id in w.policies ==> SameReplica(w.policies[id], v.policies[id])
  }

  lemma SamePoliciesArrived(w: World, v: World)
    requires SamePolicies(w, v)
    ensures ArrivedPolicies(v) == ArrivedPolicies(w)
  {
    assert forall id :: id in w.policies ==> SameReplica(w.policies[id], v.policies[id]);
    ArrivedSame(w.policies, v.policies, w.policyOrder);
  }

  lemma ArrivedKnown(w: World)
    ensures forall id :: id in ArrivedPolicies(w) ==> id in w.policies
  {
  }

  lemma SameStatuses(w: World, v: World)
    requires v.policies == w.policies
    ensures forall s :: AllStatus(w, s) <==> AllStatus(v, s)
  {
  }

  lemma SamePoliciesTransitive(a: World, b: World, c: World)
    requires SamePolicies(a, b) && SamePolicies(b, c)
    ensures SamePolicies(a, c)
  {
    forall id | id in a.policies
      ensures SameReplica(a.policies[id], c.policies[id])
    {
      assert SameReplica(a.policies[id], b.policies[id]) && SameReplica(b.policies[id], c.policies[id]);
    }
  }

  /** A replica that has been sent its rollouts and the fetch of a step. */
  predicate IsServed(r: Replica, t: Replica, cmd: Command) {
    t == r.(status := Some(Running), stream := r.stream + [cmd], received := t.received)
  }

  /** The queue, the counters and the log after a step with the shared queue. */
  lemma TriggerCounts(c: Config, w: World, fake: bool)
    requires !c.byRank && Triggers(c, w, fake) && TryTrigger(c, w, fake).Some?
    ensures fake ==> w.step + 1 == w.total
    ensures !fake ==> |w.queue| >= PerStep(c, w)
    ensures var v := TryTrigger(c, w, fake).value;
            && v.step == w.step + 1 && v.total == w.total && v.inFlight == w.inFlight
            && v.queue == (if fake then w.queue else w.queue[PerStep(c, w)..])
            && v.log == w.log.(steps := w.log.steps + [if fake then [] else w.queue[..PerStep(c, w)]], faked := w.log.faked || fake)
            && v.rollouts == w.rollouts && v.policyOrder == w.policyOrder
  {
    hide ArrivedPolicies, Deal, Fetch;
  }

  /** Only rollouts were handed out. */
  predicate OnlyGiven(w: World, d: World) {
    && d.policyOrder == w.policyOrder && d.policies.Keys == w.policies.Keys
    && (forall id :: id in w.policies ==> d.policies[id] == w.policies[id].(received := d.policies[id].received))
    && (forall id :: id in w.policies && id !in ArrivedPolicies(w) ==> d.policies[id] == w.policies[id])
  }

  lemma SharedGives(c: Config, w: World, fake: bool)
    requires fake || |w.queue| >= PerStep(c, w)
    ensures OnlyGiven(w, DispatchShared(c, w, fake))
  {
    hide ArrivedIn, Share;
  }

  lemma RankGives(w: World, items: nat)
    requires |ArrivedPolicies(w)| <= |w.rankQueues|
    requires forall i :: 0 <= i < |ArrivedPolicies(w)| ==> items <= |w.rankQueues[i]|
    ensures OnlyGiven(w, DispatchByRank(w, items))
  {
    hide ArrivedIn, DealtByRank, Served;
    var d := DispatchByRank(w, items);
    var qs := SortedQueues(w.rankQueues, |ArrivedPolicies(w)|);
    assert d.policies == DealByRank(w.policies, SortByStart(w.policies, ArrivedPolicies(w)), qs, items);
  }

  /** Dispatching only hands rollouts to replicas. */
  lemma DispatchReplicas(c: Config, w: World, fake: bool)
    requires (fake || Enough(c, w)) && Dispatch(c, w, fake).Some?
    ensures OnlyGiven(w, Dispatch(c, w, fake).value)
  {
    hide OnlyGiven, DispatchShared, DispatchByRank;
    if c.byRank {
      RankGives(w, if fake then 0 else c.batch);
    } else {
      SharedGives(c, w, fake);
    }
  }

  lemma TriggerReplicas(c: Config, w: World, fake: bool)
    requires Triggers(c, w, fake) && TryTrigger(c, w, fake).Some?
    ensures var v := TryTrigger(c, w, fake).value;
            && SamePolicies(w, v)
            && (forall id :: id in w.policies && id !in ArrivedPolicies(w) ==> v.policies[id] == w.policies[id])
            && (forall id :: id in ArrivedPolicies(w) ==> IsServed(w.policies[id], v.policies[id], FetchOf(c, w, fake)))
  {
    hide ArrivedIn, Dispatch, Enough;
    DispatchReplicas(c, w, fake);
    var d := Dispatch(c, w, fake).value;
    var v := TryTrigger(c, w, fake).value;
    assert v == Launch(c, w, d, fake);
    forall id | id in w.policies
      ensures id !in ArrivedPolicies(w) ==> v.policies[id] == w.policies[id]
      ensures id in ArrivedPolicies(w) ==> IsServed(w.policies[id], v.policies[id], FetchOf(c, w, fake))
      ensures SameReplica(w.policies[id], v.policies[id])
    {
    }
  }

  lemma PerStepSame(c: Config, w: World, v: World)
    requires SamePolicies(w, v)
    ensures PerStep(c, v) == PerStep(c, w)
  {
    SamePoliciesArrived(w, v);
  }

  lemma NoTrigger(c: Config, w: World, fake: bool)
    requires !Triggers(c, w, fake)
    ensures TryTrigger(c, w, fake) == Some(w) && SamePolicies(w, w)
  {
  }

  // ---------- events that leave the training state alone ----------

  /** At most more commands were published to a replica, none of them a fetch. */
  predicate ToldMore(r: Replica, t: Replica) {
    && t == r.(stream := t.stream) && r.stream <= t.stream
    && forall k :: |r.stream| <= k < |t.stream| ==> !t.stream[k].DataFetch?
  }

  lemma ToldMoreTransitive(a: Replica, b: Replica, c: Replica)
    requires ToldMore(a, b) && ToldMore(b, c)
    ensures ToldMore(a, c)
  {
    forall k | |a.stream| <= k < |c.stream|
      ensures !c.stream[k].DataFetch?
    {
      if k < |b.stream| { assert c.stream[k] == b.stream[k]; }
    }
  }

  /** Only the rollout side changed, and what was published to the policy replicas. */
  predicate Untrained(w: World, v: World) {
    && v == w.(policies := v.policies, rollouts := v.rollouts, rolloutOrder := v.rolloutOrder,
               rolloutInit := v.rolloutInit, rolloutReady := v.rolloutReady)
    && v.policies.Keys == w.policies.Keys
    && forall id :: id in w.policies ==> ToldMore(w.policies[id], v.policies[id])
  }

  lemma UntrainedTransitive(a: World, b: World, c: World)
    requires Untrained(a, b) && Untrained(b, c)
    ensures Untrained(a, c)
  {
    forall id | id in a.policies
      ensures ToldMore(a.policies[id], c.policies[id])
    {
      ToldMoreTransitive(a.policies[id], b.policies[id], c.policies[id]);
    }
  }

  lemma UntrainedSame(w: World, v: World)
    requires Untrained(w, v)
    ensures SamePolicies(w, v)
  {
    forall id | id in w.policies
      ensures SameReplica(w.policies[id], v.policies[id])
    {
      assert ToldMore(w.policies[id], v.policies[id]);
    }
  }

  lemma SendUntrained(w: World, src: nat, dst: nat, weightStep: Option<int>, lastStep: Option<int>)
    requires dst in w.rollouts
    ensures Untrained(w, SendPolicyToRollout(w, src, dst, weightStep, lastStep))
    ensures SendPolicyToRollout(w, src, dst, weightStep, lastStep).rollouts.Keys == w.rollouts.Keys
  {
  }

  lemma BroadcastUntrained(w: World, src: nat, dsts: set<nat>, weightStep: Option<int>, lastStep: Option<int>)
    requires src in w.rollouts
    ensures Untrained(w, BroadcastToRollouts(w, src, dsts, weightStep, lastStep))
  {
  }

  lemma SyncUntrained(c: Config, w: World, step: int, lastStep: int)
    requires ValidConfig(c)
    ensures Untrained(w, SyncIfDue(c, w, step, lastStep))
  {
    hide SendPolicyToRollout, BroadcastToRollouts, ArrivedRollouts;
    var src := SortByStart(w.policies, ArrivedPolicies(w));
    var ids := SortByStart(w.rollouts, ArrivedRollouts(w));
    RolloutsKnown(w);
    if src != [] && ids != [] {
      SendUntrained(w, src[0], ids[0], Some(step), Some(lastStep));
      var s := SendPolicyToRollout(w, src[0], ids[0], Some(step), Some(lastStep));
      BroadcastUntrained(s, ids[0], AsSet(ids), Some(step), Some(lastStep));
      UntrainedTransitive(w, s, BroadcastToRollouts(s, ids[0], AsSet(ids), Some(step), Some(lastStep)));
    }
  }

  lemma RolloutsKnown(w: World)
    ensures forall id :: id in ArrivedRollouts(w) ==> id in w.rollouts
  {
  }

  lemma GreetUntrained(w: World, id: nat)
    requires id in w.rollouts
    ensures Untrained(w, GreetRollout(w, id)) && GreetRollout(w, id).rollouts.Keys == w.rollouts.Keys
  {
    hide SendPolicyToRollout, ArrivedRollouts, SortByStart;
    var src := FirstLoaded(w.policies, SortByStart(w.policies, w.policyOrder));
    if src.Some? {
      SendUntrained(w, src.value, id, None, None);
    }
  }

  lemma InitUntrained(w: World)
    ensures Untrained(w, InitRollouts(w))
  {
    hide BroadcastToRollouts, ArrivedRollouts, BuildMeshIn;
    var ids := SortByStart(w.rollouts, ArrivedRollouts(w));
    var m := RebuildRolloutMesh(w.(rolloutReady := true));
    var first := FirstLoaded(m.rollouts, ids);
    if first.Some? {
      BroadcastUntrained(m, first.value, AsSet(ids), Some(m.step), None);
      UntrainedTransitive(w, m, BroadcastToRollouts(m, first.value, AsSet(ids), Some(m.step), None));
    }
  }

  lemma RolloutArrivalUntrained(w: World, id: nat)
    requires id in w.rollouts && AfterRolloutArrives(w, id).Some?
    ensures Untrained(w, AfterRolloutArrives(w, id).value)
  {
    hide GreetRollout, ArrivedRollouts, BuildMeshIn, InitRollouts;
    var p := GreetRollout(w, id);
    GreetUntrained(w, id);
    InitUntrained(p);
    UntrainedTransitive(w, p, AfterRolloutArrives(w, id).value);
  }

  /** Rollout replicas come and go without touching the training state. */
  lemma RolloutEventsUntrained(c: Config, w: World, e: Event)
    requires ValidConfig(c) && (e.RolloutAtom? || e.RolloutGone?) && After(c, w, e).Some?
    ensures Untrained(w, After(c, w, e).value)
  {
    match e
    case RolloutAtom(id, atom, size, now) => RegisterUntrained(w, id, atom, size, now);
    case RolloutGone(id) => GoneUntrained(w, id);
  }

  lemma GoneUntrained(w: World, id: nat)
    requires UnregisterRollout(w, id).Some?
    ensures Untrained(w, UnregisterRollout(w, id).value)
  {
    hide BuildMeshIn, SortByStart;
  }

  lemma RegisterUntrained(w: World, id: nat, atom: nat, size: nat, now: int)
    requires RegisterRollout(w, id, atom, size, now).Some?
    ensures Untrained(w, RegisterRollout(w, id, atom, size, now).value)
  {
    hide AfterRolloutArrives, Stamp, Enrol;
    var g := Enrol(w.rollouts, id, atom, size).value;
    var n := EnrolRollout(w, id, g);
    if Arrived(g[id]) {
      var s := n.(rollouts := Stamp(n.rollouts, id, now));
      StampKeys(n.rollouts, id, now);
      RolloutArrivalUntrained(s, id);
      UntrainedTransitive(w, s, AfterRolloutArrives(s, id).value);
    }
  }

  lemma StampKeys(g: Group, id: nat, now: int)
    requires id in g
    ensures Stamp(g, id, now).Keys == g.Keys
  {
  }

  // ---------- events that keep the policy replicas ----------

  predicate KeepsPolicies(e: Event) {
    !e.PolicyAtom? && !e.PolicyGone?
  }

  /** The same policy replicas, further on: streams only grow, and steps do not go back. */
  predicate Grown(w: World, v: World) {
    && SamePolicies(w, v) && v.policyReady == w.policyReady && v.resumed == w.resumed && w.step <= v.step
    && forall id :: id in w.policies ==> w.policies[id].stream <= v.policies[id].stream
  }

  lemma GrownTransitive(a: World, b: World, c: World)
    requires Grown(a, b) && Grown(b, c)
    ensures Grown(a, c)
  {
    hide SameReplica;
    SamePoliciesTransitive(a, b, c);
    assert forall id :: id in a.policies ==> a.policies[id].stream <= b.policies[id].stream <= c.policies[id].stream;
  }

  lemma UntrainedGrown(w: World, v: World)
    requires Untrained(w, v)
    ensures Grown(w, v)
  {
    UntrainedSame(w, v);
    assert forall id :: id in w.policies ==> ToldMore(w.policies[id], v.policies[id]);
  }

  /** Nothing about the policies changed but a flag or a counter. */
  lemma SameGrown(w: World, v: World)
    requires v.policies == w.policies && v.policyOrder == w.policyOrder && v.policyReady == w.policyReady && v.resumed == w.resumed
    requires w.step <= v.step
    ensures Grown(w, v)
  {
  }

  lemma TriggerRest(c: Config, w: World, fake: bool)
    requires Triggers(c, w, fake) && TryTrigger(c, w, fake).Some?
    ensures var v := TryTrigger(c, w, fake).value;
            v.policyReady == w.policyReady && v.resumed == w.resumed && v.step == w.step + 1 && v.total == w.total
  {
    hide Triggers, Deal, DealByRank, Served, SortedQueues, DealtByRank, Fetch, FetchOf;
  }

  lemma TriggerGrown(c: Config, w: World, fake: bool)
    requires TryTrigger(c, w, fake).Some?
    ensures Grown(w, TryTrigger(c, w, fake).value)
  {
    hide TryTrigger, Triggers, FetchOf, ArrivedPolicies;
    if Triggers(c, w, fake) {
      var v := TryTrigger(c, w, fake).value;
      TriggerReplicas(c, w, fake);
      TriggerRest(c, w, fake);
      forall id | id in w.policies
        ensures w.policies[id].stream <= v.policies[id].stream
      {
        if id in ArrivedPolicies(w) { assert IsServed(w.policies[id], v.policies[id], FetchOf(c, w, fake)); }
      }
    } else {
      NoTrigger(c, w, fake);
      SameGrown(w, w);
    }
  }

  lemma {:induction false} PutEachGrown(c: Config, w: World, xs: seq<Rollout>)
    requires PutEach(c, w, xs).Some?
    ensures Grown(w, PutEach(c, w, xs).value)
    decreases |xs|
  {
    hide Grown, TryTrigger;
    if xs == [] {
      SameGrown(w, w);
    } else {
      var b := Buffer(c, w, xs[0]).value;
      SameGrown(w, b);
      TriggerGrown(c, b, false);
      var p := PutRollout(c, w, xs[0]).value;
      GrownTransitive(w, b, p);
      if c.onPolicy && Pending(c, p) == 0 {
        SameGrown(p, p.(stepSampled := true));
        GrownTransitive(w, p, p.(stepSampled := true));
      } else {
        PutEachGrown(c, p, xs[1..]);
        GrownTransitive(w, p, PutEach(c, p, xs[1..]).value);
      }
    }
  }

  lemma GroupGrown(c: Config, w: World, xs: seq<Rollout>)
    requires ValidConfig(c) && PutGroup(c, w, xs).Some?
    ensures Grown(w, PutGroup(c, w, xs).value)
  {
    hide Grown, PutEach;
    var kept := FreshOnes(c, w, xs);
    var p := w.(remain := w.remain - (|xs| - |kept|));
    SameGrown(w, p);
    if c.onPolicy && p.stepSampled {
      SameGrown(w, PutGroup(c, w, xs).value);
    } else {
      PutEachGrown(c, p, kept);
      GrownTransitive(w, p, PutEach(c, p, kept).value);
    }
  }

  lemma AckedGrown(w: World, id: nat)
    requires id in w.policies
    ensures Grown(w, Acked(w, id))
  {
    hide SamePolicies;
    AckedSame(w, id);
  }

  lemma DoneGrown(c: Config, w: World)
    ensures Grown(w, StepDone(c, w))
  {
    hide SamePolicies, PerStep, ArrivedPolicies;
    StepDoneSame(c, w);
  }

  lemma AckGrown(c: Config, w: World, id: nat, step: int, lastStep: int)
    requires ValidConfig(c) && TrainAck(c, w, id, step, lastStep).Some?
    ensures Grown(w, TrainAck(c, w, id, step, lastStep).value)
  {
    hide Grown, TryTrigger, SyncIfDue, StepDone, AllStatus, Untrained;
    var a := Acked(w, id);
    AckedGrown(w, id);
    if AllStatus(a, {Reduced}) {
      var b := StepDone(c, a);
      DoneGrown(c, a);
      GrownTransitive(w, a, b);
      var s := SyncIfDue(c, b, step, lastStep);
      SyncUntrained(c, b, step, lastStep);
      UntrainedGrown(b, s);
      GrownTransitive(w, b, s);
      TriggerGrown(c, s, false);
      var t := TryTrigger(c, s, false).value;
      GrownTransitive(w, s, t);
      SameGrown(t, t.(stepSampled := false));
      GrownTransitive(w, t, t.(stepSampled := false));
    }
  }

  lemma EndGrown(c: Config, w: World, id: nat)
    requires RolloutEnd(c, w, id).Some?
    ensures Grown(w, RolloutEnd(c, w, id).value)
  {
    hide Grown, TryTrigger, Recompute;
    var e := MarkEnded(w, id);
    SameGrown(w, e);
    if AllEnded(e) {
      var t := Recompute(c, e, Pending(c, e));
      RecomputeSame(c, e, Pending(c, e));
      SameGrown(w, t);
      if !(t.total > t.step || t.step == e.total) {
        var q := Curtailed(t);
        SameGrown(w, q);
        TriggerGrown(c, q, true);
        GrownTransitive(w, q, TryTrigger(c, q, true).value);
      }
    }
  }

  lemma EventGrown(c: Config, w: World, e: Event)
    requires ValidConfig(c) && KeepsPolicies(e) && After(c, w, e).Some?
    ensures Grown(w, After(c, w, e).value)
  {
    hide Grown, TrainAck, RolloutEnd, PutGroup, RegisterRollout, UnregisterRollout, Untrained;
    match e
    case RolloutAtom(_, _, _, _) =>
      RolloutEventsUntrained(c, w, e);
      UntrainedGrown(w, After(c, w, e).value);
    case RolloutGone(_) =>
      RolloutEventsUntrained(c, w, e);
      UntrainedGrown(w, After(c, w, e).value);
    case PromptsOut(samples) => SameGrown(w, After(c, w, e).value);
    case GroupIn(xs) => GroupGrown(c, w, xs);
    case AckIn(id, step, lastStep) => AckGrown(c, w, id, step, lastStep);
    case EndIn(id) => EndGrown(c, w, id);
  }

  // ---------- parts of handlers ----------

  lemma AckedSame(w: World, id: nat)
    requires id in w.policies
    ensures SamePolicies(w, Acked(w, id))
  {
  }

  lemma StepDoneSame(c: Config, w: World)
    ensures SamePolicies(w, StepDone(c, w))
  {
  }

  lemma RecomputeSame(c: Config, w: World, remaining: int)
    ensures var t := Recompute(c, w, remaining);
            t == w.(total := t.total) && SamePolicies(w, t) && PerStep(c, t) == PerStep(c, w)
  {
    PerStepSame(c, w, Recompute(c, w, remaining));
  }

  lemma CurtailedSame(c: Config, w: World)
    ensures SamePolicies(w, Curtailed(w)) && PerStep(c, Curtailed(w)) == PerStep(c, w)
  {
    PerStepSame(c, w, Curtailed(w));
  }

  // ---------- what handlers decide by ----------

  /** On-policy, the rollouts after the first sampled step are not buffered any more. */
  predicate Skips(c: Config, w: World) {
    c.onPolicy && w.stepSampled
  }

  /** With all rollouts ended nothing is left to train and the last step was not announced: the extra last
      fetch is issued. */
  predicate ConcludesWithExtra(c: Config, w: World) {
    var t := Recompute(c, w, Pending(c, w));
    t.total <= t.step && t.step != w.total
  }

  predicate IssuesExtra(c: Config, w: World, e: Event) {
    e.EndIn? && AllEnded(MarkEnded(w, e.id)) && ConcludesWithExtra(c, MarkEnded(w, e.id))
  }
}
