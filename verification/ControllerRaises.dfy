/** Exactly when a handler raises, in every state a run reaches. */
module ControllerRaises {
  import opened Arithmetic
  import opened Common
  import opened ControllerModel
  import opened ControllerFlow
  import opened ControllerLedger
  import opened ControllerMesh
  import opened ControllerLoads
  import opened ControllerWeights

  // ---------- rollouts coming in ----------

  /** Dispatching by rank there are no rank queues before the policies are initialised. */
  predicate NoQueues(c: Config, w: World) {
    c.byRank && !w.policyReady
  }

  lemma NoQueuesIff(c: Config, w: World)
    requires Seated(c, w) && c.byRank
    ensures NoQueues(c, w) <==> w.rankQueues == []
  {
  }

  lemma BufferSucceeds(c: Config, w: World, x: Rollout)
    requires Ledger(c, w) && Seated(c, w) && !NoQueues(c, w)
    ensures Buffer(c, w, x).Some?
    ensures var b := Buffer(c, w, x).value;
            Ledger(c, b) && Seated(c, b) && !NoQueues(c, b)
  {
    hide Ledger, InPlace;
    BufferLedger(c, w, x);
    BufferInPlace(c, w, x);
    InPlaceSeated(c, w, Buffer(c, w, x).value);
  }

  lemma TriggerSucceeds(c: Config, w: World)
    requires ValidConfig(c) && Ledger(c, w) && Seated(c, w)
    ensures TryTrigger(c, w, false).Some?
    ensures var v := TryTrigger(c, w, false).value;
            Ledger(c, v) && Seated(c, v) && v.policyReady == w.policyReady
  {
    hide Ledger, Seated, TryTrigger;
    TriggerHasQueues(c, w);
    TriggerLedger(c, w, false);
    TriggerInPlace(c, w, false);
    InPlaceReady(w, TryTrigger(c, w, false).value);
    InPlaceSeated(c, w, TryTrigger(c, w, false).value);
  }

  lemma {:induction false} PutEachSucceeds(c: Config, w: World, xs: seq<Rollout>)
    requires ValidConfig(c) && Ledger(c, w) && Seated(c, w) && !NoQueues(c, w)
    ensures PutEach(c, w, xs).Some?
    decreases |xs|
  {
    hide Ledger, Seated, TryTrigger, Buffer;
    if xs != [] {
      BufferSucceeds(c, w, xs[0]);
      var b := Buffer(c, w, xs[0]).value;
      TriggerSucceeds(c, b);
      PutEachSucceeds(c, TryTrigger(c, b, false).value, xs[1..]);
    }
  }

  lemma NoQueueForFirst(c: Config, w: World, xs: seq<Rollout>)
    requires Seated(c, w) && NoQueues(c, w)
    ensures PutEach(c, w, xs).Some? <==> xs == []
  {
  }

  /** A group of rollouts raises exactly when one of them is ahead of the step, or one would have to be
      buffered by rank before there are ranks. */
  lemma GroupRaisesIff(c: Config, w: World, xs: seq<Rollout>)
    requires ValidConfig(c) && Ledger(c, w) && Seated(c, w)
    ensures PutGroup(c, w, xs).None? <==>
            !VersionsKnown(w, xs) || (NoQueues(c, w) && FreshOnes(c, w, xs) != [] && !Skips(c, w))
  {
    hide Ledger, PutEach;
    var kept := FreshOnes(c, w, xs);
    var p := w.(remain := w.remain - (|xs| - |kept|));
    SameRecordsLedger(c, w, p);
    StayInPlace(w, p);
    InPlaceSeated(c, w, p);
    if NoQueues(c, w) {
      NoQueueForFirst(c, p, kept);
    } else {
      PutEachSucceeds(c, p, kept);
    }
  }

  // ---------- reports ----------

  /** All other replicas with a status have reported the step. */
  predicate LastReport(w: World, id: nat) {
    forall i :: i in w.policies && i != id && w.policies[i].status.Some? ==> w.policies[i].status.value == Reduced
  }

  lemma LastReportIff(w: World, id: nat)
    requires id in w.policies
    ensures LastReport(w, id) <==> AllStatus(Acked(w, id), {Reduced})
  {
    var a := Acked(w, id);
    if AllStatus(a, {Reduced}) {
      forall i | i in w.policies && i != id && w.policies[i].status.Some?
        ensures w.policies[i].status.value == Reduced
      {
        assert a.policies[i] == w.policies[i];
      }
    }
  }

  /** After the last report the next step can be tried: nothing in it raises. */
  lemma LastReportSucceeds(c: Config, w: World, id: nat, step: int, lastStep: int)
    requires ValidConfig(c) && Ledger(c, w) && Seated(c, w) && Unreported(w, id) && w.policies[id].status.Some?
    requires AllStatus(Acked(w, id), {Reduced})
    ensures TryTrigger(c, SyncIfDue(c, StepDone(c, Acked(w, id)), step, lastStep), false).Some?
  {
    hide BooksOk, StagesOk, AccountsOk, Alike, AllStatus, SyncIfDue, StepDone, TryTrigger, Acked, InPlace, Seated;
    var a := Acked(w, id);
    AckedLedger(c, w, id);
    AckedInPlace(w, id);
    InPlaceSeated(c, w, a);
    var b := StepDone(c, a);
    DoneAlike(c, a);
    DoneInPlace(c, a);
    InPlaceSeated(c, a, b);
    var s := SyncIfDue(c, b, step, lastStep);
    SyncAlike(c, b, step, lastStep);
    SyncInPlace(c, b, step, lastStep);
    InPlaceSeated(c, b, s);
    AlikeTransitive(c, a, b, s);
    AlikeLog(c, a, s);
    AlikeLedger(c, a, s);
    TriggerHasQueues(c, s);
  }

  /** A report raises exactly when the replica is unknown or not complete, or when it is the last one of a step
      with fewer samples in flight than the step used. */
  lemma AckRaisesIff(c: Config, w: World, id: nat, step: int, lastStep: int)
    requires ValidConfig(c) && Ledger(c, w) && Seated(c, w)
    requires id in w.policies && Arrived(w.policies[id]) ==> Unreported(w, id)
    ensures TrainAck(c, w, id, step, lastStep).None? <==>
            id !in w.policies || !Arrived(w.policies[id]) || (LastReport(w, id) && w.inFlight < PerStep(c, w))
  {
    hide BooksOk, StagesOk, Entry, Seated, AllStatus, SyncIfDue, StepDone, TryTrigger, LastReport, PerStep, Unreported;
    if id in w.policies {
      assert Proper(w.policies[id]);
      if w.policies[id].status.Some? {
        LastReportIff(w, id);
        AckedSame(w, id);
        PerStepSame(c, w, Acked(w, id));
        if AllStatus(Acked(w, id), {Reduced}) {
          LastReportSucceeds(c, w, id, step, lastStep);
        }
      }
    }
  }

  // ---------- the end ----------

  lemma ExtraRaisesIff(c: Config, w: World)
    requires Seated(c, w) && w.total == w.step + 1
    ensures TryTrigger(c, w, true).None? <==> ArrivedPolicies(w) != [] && NoQueues(c, w)
  {
    hide Distinct, RanksOfArrived, DispatchShared, DispatchByRank, Launch, ArrivedPolicies;
  }

  /** The end of a rollout replica raises exactly when the extra last fetch is due, dispatching by rank, before
      there are ranks. */
  lemma EndRaisesIff(c: Config, w: World, id: nat)
    requires ValidConfig(c) && Ledger(c, w) && Seated(c, w)
    ensures RolloutEnd(c, w, id).None? <==> IssuesExtra(c, w, EndIn(id)) && ArrivedPolicies(w) != [] && NoQueues(c, w)
  {
    hide Ledger, Seated, Recompute, TryTrigger, InPlace;
    var e := MarkEnded(w, id);
    StayInPlace(w, e);
    if AllEnded(e) {
      var t := Recompute(c, e, Pending(c, e));
      RecomputeInPlace(c, e, Pending(c, e));
      InPlaceTransitive(w, e, t);
      if t.total <= t.step && t.step != e.total {
        CurtailedRaisesIff(c, w, t) by { RecomputeSame(c, e, Pending(c, e)); }
      }
    }
  }

  lemma CurtailedRaisesIff(c: Config, w: World, t: World)
    requires Seated(c, w) && InPlace(w, t) && t.policies == w.policies
    ensures TryTrigger(c, Curtailed(t), true).None? <==> ArrivedPolicies(w) != [] && NoQueues(c, w)
  {
    hide Seated, TryTrigger, InPlace;
    StayInPlace(t, Curtailed(t));
    InPlaceTransitive(w, t, Curtailed(t));
    InPlaceSeated(c, w, Curtailed(t));
    PlaceOrder(w, t);
    SameArrivedPolicies(w, Curtailed(t));
    ExtraRaisesIff(c, Curtailed(t));
  }

  lemma PlaceOrder(w: World, v: World)
    requires InPlace(w, v)
    ensures v.policyOrder == w.policyOrder && v.policyReady == w.policyReady
  {
  }

  // ---------- rollout replicas ----------

  /** The rollout replicas in the order of registration, none twice; before they are initialised, all that are
      registered are waited for. */
  ghost predicate RolloutsOk(w: World) {
    && Distinct(w.rolloutOrder) && (forall id :: id in w.rollouts <==> id in w.rolloutOrder)
    && (!w.rolloutReady ==> |w.rollouts| <= w.rolloutInit)
  }

  /** Who the rollout replicas are and whether they are initialised did not change. */
  predicate SameRollouts(w: World, v: World) {
    && v.rollouts.Keys == w.rollouts.Keys && v.rolloutOrder == w.rolloutOrder && v.rolloutInit == w.rolloutInit
    && v.rolloutReady == w.rolloutReady
  }

  lemma SameRolloutsOk(w: World, v: World)
    requires SameRollouts(w, v) && RolloutsOk(w)
    ensures RolloutsOk(v)
  {
    assert |v.rollouts| == |v.rollouts.Keys| && |w.rollouts| == |w.rollouts.Keys|;
    assert forall id :: id in v.rollouts <==> id in v.rollouts.Keys;
  }

  lemma FewArrived(w: World)
    requires RolloutsOk(w)
    ensures |ArrivedRollouts(w)| <= |w.rollouts|
  {
    ArrivedDistinct(w.rollouts, w.rolloutOrder);
    SizeOfDistinct(ArrivedRollouts(w));
    RolloutsKnown(w);
    hide ArrivedRollouts;
    SubsetSize(AsSet(ArrivedRollouts(w)), w.rollouts.Keys);
  }

  lemma GreetSame(w: World, id: nat)
    requires id in w.rollouts
    ensures SameRollouts(w, GreetRollout(w, id))
  {
    hide ArrivedRollouts, SortByStart, Tell, Load;
  }

  lemma InitSame(w: World)
    ensures var v := InitRollouts(w);
            v.rollouts.Keys == w.rollouts.Keys && v.rolloutOrder == w.rolloutOrder && v.rolloutInit == w.rolloutInit && v.rolloutReady
  {
    hide ArrivedRollouts, SortByStart;
  }

  lemma RebuildSame(w: World)
    ensures SameRollouts(w, RebuildRolloutMesh(w))
  {
  }

  lemma ArrivalOk(w: World, id: nat)
    requires id in w.rollouts && RolloutsOk(w)
    ensures AfterRolloutArrives(w, id).Some? && RolloutsOk(AfterRolloutArrives(w, id).value)
  {
    hide GreetRollout, ArrivedRollouts, RebuildRolloutMesh, InitRollouts, RolloutsOk;
    var p := GreetRollout(w, id);
    GreetSame(w, id);
    SameRolloutsOk(w, p);
    WaitedFor(p);
    InitSame(p);
    RebuildSame(p);
    SameRolloutsOk(p, RebuildRolloutMesh(p));
    SameRolloutsOk(p.(rolloutReady := true), InitRollouts(p)) by { ReadyRolloutsOk(p); }
  }

  lemma ReadyRolloutsOk(w: World)
    requires RolloutsOk(w)
    ensures RolloutsOk(w.(rolloutReady := true))
  {
  }

  lemma WaitedFor(w: World)
    requires RolloutsOk(w)
    ensures !w.rolloutReady ==> |ArrivedRollouts(w)| <= w.rolloutInit
  {
    FewArrived(w);
  }

  lemma EnrolledRollouts(w: World, id: nat, g: Group)
    requires RolloutsOk(w) && g.Keys == w.rollouts.Keys + {id}
    ensures RolloutsOk(EnrolRollout(w, id, g))
  {
    if id !in w.rollouts { DistinctAppend(w.rolloutOrder, id); }
    if w.rolloutReady {
    } else {
      assert |g| <= EnrolRollout(w, id, g).rolloutInit;
    }
  }

  /** An atom of a rollout replica raises exactly when it repeats or its group size differs: never because too
      many have arrived. */
  lemma RolloutRaisesIff(w: World, id: nat, atom: nat, size: nat, now: int)
    requires RolloutsOk(w)
    ensures RegisterRollout(w, id, atom, size, now).None? <==> Repeats(w.rollouts, id, atom, size)
    ensures RegisterRollout(w, id, atom, size, now).Some? ==> RolloutsOk(RegisterRollout(w, id, atom, size, now).value)
  {
    hide AfterRolloutArrives, Stamp, RolloutsOk, EnrolRollout;
    var e := Enrol(w.rollouts, id, atom, size);
    if e.Some? {
      var g := e.value;
      assert g.Keys == w.rollouts.Keys + {id};
      EnrolledRollouts(w, id, g);
      if Arrived(g[id]) {
        var n := EnrolRollout(w, id, g);
        EnrolledIn(w, id, g);
        StampKeys(n.rollouts, id, now);
        var s := n.(rollouts := Stamp(n.rollouts, id, now));
        SameRolloutsOk(n, s);
        ArrivalOk(s, id);
      }
    }
  }

  lemma EnrolledIn(w: World, id: nat, g: Group)
    requires id in g
    ensures id in EnrolRollout(w, id, g).rollouts
  {
  }

  lemma GoneRollouts(w: World, id: nat)
    requires RolloutsOk(w) && UnregisterRollout(w, id).Some?
    ensures RolloutsOk(UnregisterRollout(w, id).value)
  {
    hide RebuildRolloutMesh, Distinct;
    var u := w.(rollouts := w.rollouts - {id}, rolloutOrder := Without(w.rolloutOrder, id));
    WithoutDistinct(w.rolloutOrder, id);
    assert u.rollouts.Keys == w.rollouts.Keys - {id};
    assert |u.rollouts| == |u.rollouts.Keys| && |w.rollouts| == |w.rollouts.Keys|;
    assert RolloutsOk(u);
    RebuildSame(u);
    SameRolloutsOk(u, RebuildRolloutMesh(u));
  }

  // ---------- other events leave the group of rollout replicas alone ----------

  lemma DispatchSame(c: Config, w: World, fake: bool)
    requires (fake || Enough(c, w)) && Dispatch(c, w, fake).Some?
    ensures SameRollouts(w, Dispatch(c, w, fake).value)
  {
    hide Deal, DealByRank, Served, SortedQueues, DealtByRank, ArrivedPolicies;
  }

  lemma TriggerSame(c: Config, w: World, fake: bool)
    requires TryTrigger(c, w, fake).Some?
    ensures SameRollouts(w, TryTrigger(c, w, fake).value)
  {
    hide Dispatch, Fetch, FetchOf, ArrivedPolicies, AllStatus, Enough, Finished;
    if Triggers(c, w, fake) {
      DispatchSame(c, w, fake);
    }
  }

  lemma {:induction false} PutEachSame(c: Config, w: World, xs: seq<Rollout>)
    requires PutEach(c, w, xs).Some?
    ensures SameRollouts(w, PutEach(c, w, xs).value)
    decreases |xs|
  {
    hide TryTrigger;
    if xs != [] {
      var b := Buffer(c, w, xs[0]).value;
      TriggerSame(c, b, false);
      var p := PutRollout(c, w, xs[0]).value;
      if !(c.onPolicy && Pending(c, p) == 0) {
        PutEachSame(c, p, xs[1..]);
      }
    }
  }

  lemma GroupSame(c: Config, w: World, xs: seq<Rollout>)
    requires ValidConfig(c) && PutGroup(c, w, xs).Some?
    ensures SameRollouts(w, PutGroup(c, w, xs).value)
  {
    hide PutEach;
    var kept := FreshOnes(c, w, xs);
    var p := w.(remain := w.remain - (|xs| - |kept|));
    if !(c.onPolicy && p.stepSampled) {
      PutEachSame(c, p, kept);
    }
  }

  lemma SyncSame(c: Config, w: World, step: int, lastStep: int)
    requires ValidConfig(c)
    ensures SameRollouts(w, SyncIfDue(c, w, step, lastStep))
  {
    hide ArrivedRollouts, ArrivedPolicies, SortByStart, MeshMembers, AllLoaded;
  }

  lemma AckSame(c: Config, w: World, id: nat, step: int, lastStep: int)
    requires ValidConfig(c) && TrainAck(c, w, id, step, lastStep).Some?
    ensures SameRollouts(w, TrainAck(c, w, id, step, lastStep).value)
  {
    hide TryTrigger, SyncIfDue, AllStatus, SetStatus, PerStep;
    var a := Acked(w, id);
    if AllStatus(a, {Reduced}) {
      SyncSame(c, StepDone(c, a), step, lastStep);
      TriggerSame(c, SyncIfDue(c, StepDone(c, a), step, lastStep), false);
    }
  }

  lemma EndSame(c: Config, w: World, id: nat)
    requires RolloutEnd(c, w, id).Some?
    ensures SameRollouts(w, RolloutEnd(c, w, id).value)
  {
    hide TryTrigger, AllEnded;
    var e := MarkEnded(w, id);
    assert SameRollouts(w, e);
    if AllEnded(e) {
      var t := Recompute(c, e, Pending(c, e));
      if !(t.total > t.step || t.step == e.total) {
        TriggerSame(c, Curtailed(t), true);
      }
    }
  }

  lemma PolicyMeshSame(c: Config, w: World)
    ensures SameRollouts(w, RebuildPolicyMesh(c, w))
  {
    hide BuildMeshIn, Rearranged, ArrivedPolicies, SortByStart;
  }

  lemma FirstPolicySame(w: World, id: nat)
    ensures SameRollouts(w, FirstPolicyArrives(w, id))
  {
    hide ArrivedRollouts, SortByStart, MeshMembers, AllLoaded;
  }

  lemma AfterPolicySame(c: Config, w: World, id: nat)
    requires id in w.policies && AfterPolicyArrives(c, w, id).Some?
    ensures SameRollouts(w, AfterPolicyArrives(c, w, id).value)
  {
    hide RebuildPolicyMesh, ArrivedPolicies, SortByStart, SetStatus, Load, Tell;
    PolicyMeshSame(c, w);
    PolicyMeshSame(c, w.(policyReady := true));
  }

  lemma RegisterPolicySame(c: Config, w: World, id: nat, atom: nat, size: nat, now: int)
    requires RegisterPolicy(c, w, id, atom, size, now).Some?
    ensures SameRollouts(w, RegisterPolicy(c, w, id, atom, size, now).value)
  {
    hide AfterPolicyArrives, FirstPolicyArrives, Enrol, ArrivedPolicies, SetStatus, Stamp;
    var g := Enrol(w.policies, id, atom, size).value;
    if Arrived(g[id]) {
      EnrolledIs(w, id, g, now);
      var s := Enrolled(w, id, g, now);
      EnrolledSame(w, id, g, now);
      if |ArrivedPolicies(s)| == 1 {
        FirstPolicySame(s, id);
        AfterPolicySame(c, FirstPolicyArrives(s, id), id);
      } else {
        AfterPolicySame(c, s, id);
      }
    }
  }

  lemma EnrolledSame(w: World, id: nat, g: Group, now: int)
    requires id in g
    ensures SameRollouts(w, Enrolled(w, id, g, now)) && id in Enrolled(w, id, g, now).policies
  {
    EnrolledFacts(w, id, g, now);
    hide SetStatus, Stamp;
  }

  // ---------- every event ----------

  /** Exactly what the handlers refuse. */
  predicate Refused(c: Config, w: World, e: Event)
    requires ValidConfig(c)
  {
    match e
    case PolicyAtom(id, atom, size, _) => Repeats(w.policies, id, atom, size) || (Completes(w, id, size) && WeightsGone(w, id))
    case PolicyGone(id) => id !in w.policies || !Arrived(w.policies[id])
    case RolloutAtom(id, atom, size, _) => Repeats(w.rollouts, id, atom, size)
    case RolloutGone(id) => id !in w.rollouts
    case PromptsOut(_) => false
    case GroupIn(xs) => !VersionsKnown(w, xs) || (NoQueues(c, w) && FreshOnes(c, w, xs) != [] && !Skips(c, w))
    case AckIn(id, _, _) => id !in w.policies || !Arrived(w.policies[id]) || (LastReport(w, id) && w.inFlight < PerStep(c, w))
    case EndIn(_) => IssuesExtra(c, w, e) && ArrivedPolicies(w) != [] && NoQueues(c, w)
  }

  /** Ranks of policy atoms are below the group size, and complete replicas report only unreported fetches. */
  predicate Sensible(w: World, e: Event) {
    match e
    case PolicyAtom(_, atom, size, _) => atom < size
    case AckIn(id, _, _) => id in w.policies && Arrived(w.policies[id]) ==> Unreported(w, id)
    case _ => true
  }

  lemma SensibleIsRegular(c: Config, w: World, e: Event)
    requires ValidConfig(c) && Sensible(w, e) && !Refused(c, w, e)
    ensures Regular(w, e)
  {
    hide LastReport, IssuesExtra, VersionsKnown, FreshOnes, ArrivedPolicies, Repeats, Completes, WeightsGone;
  }

  lemma DepartureRaisesIff(c: Config, w: World, id: nat)
    requires AccountsOk(c, w)
    ensures UnregisterPolicy(c, w, id).None? <==> id !in w.policies || !Arrived(w.policies[id])
  {
    hide Entry, RebuildPolicyMesh;
    if id in w.policies { assert Proper(w.policies[id]); }
  }

  /** A handler raises exactly when the event is refused, a predicate of the event and the state before it. */
  lemma EventRaisesIff(c: Config, w: World, e: Event)
    requires ValidConfig(c) && Ledger(c, w) && Seated(c, w) && FlagsOk(w) && RolloutsOk(w) && Sensible(w, e)
    ensures After(c, w, e).None? <==> Refused(c, w, e)
  {
    hide BooksOk, StagesOk, Seated, RolloutsOk, FlagsOk, Entry, Proper, RegisterPolicy, UnregisterPolicy, RegisterRollout, PutGroup, TrainAck,
      RolloutEnd, Unreported, IssuesExtra, LastReport, VersionsKnown, FreshOnes, WeightsGone, Completes, Repeats, Arrived, ArrivedPolicies, PerStep;
    match e
    case PolicyAtom(id, atom, size, now) => RegistrationRaisesIff(c, w, id, atom, size, now);
    case PolicyGone(id) => DepartureRaisesIff(c, w, id);
    case RolloutAtom(id, atom, size, now) => RolloutRaisesIff(w, id, atom, size, now);
    case RolloutGone(id) =>
    case PromptsOut(_) =>
    case GroupIn(xs) => GroupRaisesIff(c, w, xs);
    case AckIn(id, step, lastStep) => AckRaisesIff(c, w, id, step, lastStep);
    case EndIn(id) => EndRaisesIff(c, w, id);
  }

  lemma EventRollouts(c: Config, w: World, e: Event)
    requires ValidConfig(c) && RolloutsOk(w) && After(c, w, e).Some?
    ensures RolloutsOk(After(c, w, e).value)
  {
    hide RolloutsOk, SameRollouts, RegisterPolicy, UnregisterPolicy, RegisterRollout, UnregisterRollout, PutGroup,
      TrainAck, RolloutEnd;
    var v := After(c, w, e).value;
    match e
    case PolicyAtom(id, atom, size, now) =>
      RegisterPolicySame(c, w, id, atom, size, now);
      SameRolloutsOk(w, v);
    case PolicyGone(id) =>
      PolicyGoneSame(c, w, id);
      SameRolloutsOk(w, v);
    case RolloutAtom(id, atom, size, now) => RolloutRaisesIff(w, id, atom, size, now);
    case RolloutGone(id) => GoneRollouts(w, id);
    case PromptsOut(samples) =>
      PromptsSame(w, samples);
      SameRolloutsOk(w, v);
    case GroupIn(xs) =>
      GroupSame(c, w, xs);
      SameRolloutsOk(w, v);
    case AckIn(id, step, lastStep) =>
      AckSame(c, w, id, step, lastStep);
      SameRolloutsOk(w, v);
    case EndIn(id) =>
      EndSame(c, w, id);
      SameRolloutsOk(w, v);
  }

  lemma PolicyGoneSame(c: Config, w: World, id: nat)
    requires UnregisterPolicy(c, w, id).Some?
    ensures SameRollouts(w, UnregisterPolicy(c, w, id).value)
  {
    hide RebuildPolicyMesh, ArrivedPolicies;
    PolicyMeshSame(c, w.(policies := w.policies - {id}, policyOrder := Without(w.policyOrder, id)));
  }

  lemma PromptsSame(w: World, samples: nat)
    ensures SameRollouts(w, w.(inFlight := w.inFlight + samples))
  {
  }

  /** What every state of a run satisfies. */
  ghost predicate Consistent(c: Config, w: World) {
    Ledger(c, w) && Seated(c, w) && FlagsOk(w) && RolloutsOk(w)
  }

  lemma {:induction false} RunRollouts(c: Config, w: World, events: seq<Event>)
    requires ValidConfig(c) && Consistent(c, w) && RegularRun(c, w, events) && CanRun(c, w, events)
    ensures Consistent(c, Run(c, w, events))
    decreases |events|
  {
    hide Ledger, Seated, FlagsOk, RolloutsOk, After, Regular;
    if events != [] {
      EventLedger(c, w, events[0]);
      EventSeated(c, w, events[0]);
      EventFlags(c, w, events[0]);
      EventRollouts(c, w, events[0]);
      RunRollouts(c, After(c, w, events[0]).value, events[1..]);
    }
  }

  lemma OpeningConsistent(c: Config, policyInit: nat, rolloutInit: nat, step: int, remain: int)
    requires 0 <= step
    ensures Consistent(c, Opening(policyInit, rolloutInit, step, remain))
  {
    var o := Opening(policyInit, rolloutInit, step, remain);
    OpeningLedger(c, policyInit, rolloutInit, step, remain);
    assert ArrivedPolicies(o) == [];
    assert FlagsOk(o);
    hide Ledger;
    OpeningMesh(c, policyInit, rolloutInit, step, remain);
  }

  /** In every state a run reaches, a handler raises exactly when it refuses the event; in particular the
      assertions on queues, sources of weights, counts of replicas and steps inside the handlers never fire
      otherwise, and an event that is not refused continues the run. */
  lemma HandlersRaiseIff(c: Config, policyInit: nat, rolloutInit: nat, step: int, remain: int, events: seq<Event>, e: Event)
    requires ValidConfig(c) && 0 <= step && RegularRun(c, Opening(policyInit, rolloutInit, step, remain), events)
    requires CanRun(c, Opening(policyInit, rolloutInit, step, remain), events)
    requires Sensible(Run(c, Opening(policyInit, rolloutInit, step, remain), events), e)
    ensures var w := Run(c, Opening(policyInit, rolloutInit, step, remain), events);
            (After(c, w, e).None? <==> Refused(c, w, e)) && (!Refused(c, w, e) ==> Regular(w, e))
  {
    var o := Opening(policyInit, rolloutInit, step, remain);
    OpeningConsistent(c, policyInit, rolloutInit, step, remain);
    hide Ledger, Seated, FlagsOk, RolloutsOk, Sensible, Refused, Opening, After;
    RunRollouts(c, o, events);
    EventRaisesIff(c, Run(c, o, events), e);
    if !Refused(c, Run(c, o, events), e) { SensibleIsRegular(c, Run(c, o, events), e); }
  }
}
