/** How training starts: what initialising the policy replicas makes of the state, and that the stop signal is
    safe from there on. */
module ControllerStart {
  import opened Arithmetic
  import opened Common
  import opened ControllerModel
  import opened ControllerFlow
  import opened ControllerQueues
  import opened ControllerLedger
  import opened ControllerMesh
  import opened ControllerStop
  import opened ControllerSignal
  import opened ControllerRankStop

  // ---------- what initialisation does ----------

  /** The event completes the policy replica whose arrival initialises them all. */
  predicate InitialisedBy(c: Config, w: World, e: Event)
    requires ValidConfig(c)
  {
    e.PolicyAtom? && !w.policyReady && After(c, w, e).Some? && After(c, w, e).value.policyReady
  }

  /** Every complete replica has become ready; nothing was fetched, and nobody is new or gone. */
  predicate MadeReady(f: World, v: World) {
    && v.policyOrder == f.policyOrder && v.policies.Keys == f.policies.Keys
    && forall id :: id in f.policies ==> BecameReady(f.policies[id], v.policies[id])
  }

  predicate BecameReady(r: Replica, t: Replica) {
    && t.size == r.size && t.atoms == r.atoms && Fetches(t.stream) == Fetches(r.stream) && t.acks == r.acks
    && t.status == if Arrived(r) then Some(Ready) else r.status
  }

  /** The counters after initialisation: the steps follow from the samples that remain. */
  predicate Counted(c: Config, f: World, v: World) {
    && v.step == f.step && v.remain == f.remain && v.inFlight == f.inFlight && v.queue == f.queue && v.log == f.log
    && v.policyReady && v.total == Recompute(c, f, f.remain).total
    && v.rankQueues == if c.byRank && ArrivedPolicies(f) != [] then Rearranged(f.rankQueues, |ArrivedPolicies(f)|) else f.rankQueues
  }

  lemma MadeReadyArrived(f: World, v: World)
    requires MadeReady(f, v)
    ensures ArrivedPolicies(v) == ArrivedPolicies(f)
  {
    hide Fetches;
    assert forall id :: id in f.policies ==> BecameReady(f.policies[id], v.policies[id]);
    ArrivedSame(f.policies, v.policies, f.policyOrder);
  }

  lemma RebuildCounts(c: Config, w: World)
    ensures var v, ids := RebuildPolicyMesh(c, w), ArrivedPolicies(w);
            && v == w.(policies := BuildMeshIn(w.policies, SortByStart(w.policies, ids)), total := v.total, rankQueues := v.rankQueues)
            && v.total == Recompute(c, w, w.remain).total
            && v.rankQueues == if c.byRank && ids != [] then Rearranged(w.rankQueues, |ids|) else w.rankQueues
  {
    hide RebuildPolicyMesh, BuildMeshIn, Rearranged, ArrivedPolicies, SortByStart, Recompute;
    RebuildFields(c, w);
    RebuildTotal(c, w);
    SortedEmpty(w);
  }

  lemma SortedEmpty(w: World)
    ensures |SortByStart(w.policies, ArrivedPolicies(w))| == |ArrivedPolicies(w)|
  {
  }

  lemma RebuildTotal(c: Config, w: World)
    ensures RebuildPolicyMesh(c, w).total == Recompute(c, w, w.remain).total
  {
    hide BuildMeshIn, Rearranged, ArrivedPolicies, SortByStart, FloorDiv;
    var ids := SortByStart(w.policies, ArrivedPolicies(w));
    var m := w.(policies := BuildMeshIn(w.policies, ids));
    RebuiltArrived(w, ids);
    ArrivedIs(m);
  }

  lemma ArrivedIs(w: World)
    ensures ArrivedPolicies(w) == ArrivedIn(w.policies, w.policyOrder)
  {
  }

  lemma RecomputeFlag(c: Config, w: World)
    ensures Recompute(c, w.(policyReady := true), w.remain).total == Recompute(c, w, w.remain).total
  {
    SameArrivedPolicies(w, w.(policyReady := true));
  }

  /** The replicas after a mesh, perhaps a broadcast of weights, and becoming ready. */
  lemma ReadyReplicas(f: World, v: World, ids: seq<nat>, load: Option<Command>)
    requires (forall id :: id in f.policies <==> id in f.policyOrder) && ids == SortByStart(f.policies, ArrivedPolicies(f))
    requires load.Some? ==> !load.value.DataFetch?
    requires var g := BuildMeshIn(f.policies, ids);
             v.policies == SetStatus(if load.Some? then Load(g, AsSet(ids), load.value) else g, AsSet(ids), Ready)
    requires v.policyOrder == f.policyOrder
    ensures MadeReady(f, v)
  {
    hide Fetches, RealFetches;
    var c := Config(1, 0, None, 1, false, false);
    forall id | id in f.policies
      ensures BecameReady(f.policies[id], v.policies[id])
    {
      var stream := f.policies[id].stream;
      OneMoreCommand(c, stream, BuildMesh(MeshOf(ids)));
      if load.Some? { OneMoreCommand(c, stream + [BuildMesh(MeshOf(ids))], load.value); }
      assert id in ids <==> Arrived(f.policies[id]);
    }
  }

  /** Initialisation is a rebuilt mesh and then, with several replicas, a broadcast. */
  lemma InitialisedIs(c: Config, f: World, id: nat) returns (load: Option<Command>)
    requires id in f.policies && !f.policyReady && AfterPolicyArrives(c, f, id).Some? && AfterPolicyArrives(c, f, id).value.policyReady
    ensures load.Some? ==> !load.value.DataFetch?
    ensures var ids, m := SortByStart(f.policies, ArrivedPolicies(f)), RebuildPolicyMesh(c, f.(policyReady := true));
            var v := AfterPolicyArrives(c, f, id).value;
            && v == m.(policies := v.policies)
            && v.policies == SetStatus(if load.Some? then Load(m.policies, AsSet(ids), load.value) else m.policies, AsSet(ids), Ready)
  {
    hide RebuildPolicyMesh, ArrivedPolicies, SortByStart, SetStatus, Load, AsSet;
    var ids, m := SortByStart(f.policies, ArrivedPolicies(f)), RebuildPolicyMesh(c, f.(policyReady := true));
    if |ids| > 1 {
      load := Some(PolicyBroadcast(FirstLoaded(m.policies, ids).value, AsSet(ids), m.total));
    } else {
      load := None;
    }
  }

  lemma InitialisedShape(c: Config, f: World, id: nat)
    requires id in f.policies && !f.policyReady && AfterPolicyArrives(c, f, id).Some? && AfterPolicyArrives(c, f, id).value.policyReady
    requires forall i :: i in f.policies <==> i in f.policyOrder
    ensures var v := AfterPolicyArrives(c, f, id).value;
            MadeReady(f, v) && Counted(c, f, v)
  {
    hide RebuildPolicyMesh, AfterPolicyArrives, ArrivedPolicies, Recompute, Rearranged, BuildMeshIn, SetStatus, Load,
      MadeReady, SortByStart;
    var r := f.(policyReady := true);
    SameArrivedPolicies(f, r);
    RecomputeFlag(c, f);
    RebuildCounts(c, r);
    var load := InitialisedIs(c, f, id);
    ReadyReplicas(f, AfterPolicyArrives(c, f, id).value, SortByStart(f.policies, ArrivedPolicies(f)), load);
  }

  /** The state just before: the last replica complete, and if it is the first of all, the weights resumed. */
  lemma InitialisedFrom(c: Config, w: World, e: Event) returns (f: World)
    requires ValidConfig(c) && Ledger(c, w) && Regular(w, e) && InitialisedBy(c, w, e)
    ensures Ledger(c, f) && e.id in f.policies && e.id in ArrivedPolicies(f) && Fetches(f.policies[e.id].stream) == 0
    ensures f.step == w.step && f.total == w.total && f.remain == w.remain && f.inFlight == w.inFlight
    ensures f.queue == w.queue && f.rankQueues == w.rankQueues && f.log == w.log
    ensures f.policies.Keys == w.policies.Keys + {e.id} && f.rollouts.Keys == w.rollouts.Keys
    ensures forall i :: i in w.policies && i != e.id ==> (Arrived(f.policies[i]) <==> Arrived(w.policies[i]))
    ensures MadeReady(f, After(c, w, e).value) && Counted(c, f, After(c, w, e).value)
  {
    hide Ledger, AfterPolicyArrives, FirstPolicyArrives, Enrol, ArrivedPolicies, Unseen, MadeReady, Counted, Fetches,
      Enrolled;
    var id, g := e.id, Enrol(w.policies, e.id, e.atom, e.size).value;
    var s := Enrolled(w, id, g, e.now);
    EnrolledLedger(c, w, id, e.atom, e.size, e.now);
    EnrolFacts(w, id, e.atom, e.size);
    EnrolledFacts(w, id, g, e.now);
    EnrolledRest(w, id, g, e.now);
    EnrolledCounts(w, id, g, e.now);
    NothingFetched(c, w, id, e.atom, e.size);
    EnrolledStep(c, w, e, g, s);
    if |ArrivedPolicies(s)| == 1 {
      f := FirstPolicyArrives(s, id);
      FirstPolicyLedger(c, s, id);
      FirstPolicyCounts(s, id);
      assert forall i :: i in s.policies ==> Unseen(s.policies[i], f.policies[i]);
      UnseenFacts(s.policies, f.policies);
      UnseenArrived(s, f);
    } else {
      f := s;
    }
    LedgerOrder(c, f);
    InitialisedShape(c, f, id);
  }

  lemma UnseenFacts(g: Group, h: Group)
    requires AllUnseen(g, h)
    ensures forall i :: i in g ==> i in h && (Arrived(h[i]) <==> Arrived(g[i])) && Fetches(h[i].stream) == Fetches(g[i].stream)
  {
    hide Fetches;
    assert forall i :: i in g ==> Unseen(g[i], h[i]);
  }

  lemma UnseenArrived(s: World, f: World)
    requires AllUnseen(s.policies, f.policies) && f.policyOrder == s.policyOrder
    ensures ArrivedPolicies(f) == ArrivedPolicies(s)
  {
    UnseenFacts(s.policies, f.policies);
    ArrivedSame(s.policies, f.policies, s.policyOrder);
  }

  lemma LedgerOrder(c: Config, w: World)
    requires Ledger(c, w)
    ensures forall i :: i in w.policies <==> i in w.policyOrder
  {
  }

  /** Registration, once the replica is enrolled and complete. */
  lemma EnrolledStep(c: Config, w: World, e: Event, g: Group, s: World)
    requires ValidConfig(c) && Ledger(c, w) && InitialisedBy(c, w, e) && Enrol(w.policies, e.id, e.atom, e.size) == Some(g)
    requires s == Enrolled(w, e.id, g, e.now) && Ledger(c, s) && g.Keys == w.policies.Keys + {e.id}
    ensures Arrived(g[e.id]) && e.id in s.policies && e.id in ArrivedPolicies(s)
    ensures var f := if |ArrivedPolicies(s)| == 1 then FirstPolicyArrives(s, e.id) else s;
            && e.id in f.policies && AfterPolicyArrives(c, f, e.id) == After(c, w, e) && !f.policyReady
  {
    hide Ledger, AfterPolicyArrives, ArrivedPolicies, Enrol, Stamp, SetStatus;
    EnrolledRest(w, e.id, g, e.now);
    EnrolledFacts(w, e.id, g, e.now);
    LedgerOrder(c, s);
    if Arrived(g[e.id]) {
      CompleteArrived(s, e.id);
      FirstReady(s, e.id);
    }
  }

  lemma FirstReady(s: World, id: nat)
    requires id in s.policies
    ensures FirstPolicyArrives(s, id).policyReady == s.policyReady
  {
    hide SendPolicyToRollout, BroadcastToRollouts, ArrivedRollouts, InPlace;
    FirstPolicyInPlace(s, id);
    InPlaceReady(s, FirstPolicyArrives(s, id));
  }

  lemma CompleteArrived(s: World, id: nat)
    requires id in s.policies && id in s.policyOrder && Arrived(s.policies[id])
    ensures id in ArrivedPolicies(s)
  {
  }

  lemma EnrolledCounts(w: World, id: nat, g: Group, now: int)
    requires id in g
    ensures var s := Enrolled(w, id, g, now);
            s.remain == w.remain && s.inFlight == w.inFlight && s.rollouts == w.rollouts
  {
    hide Stamp, SetStatus;
  }

  lemma FirstPolicyCounts(s: World, id: nat)
    ensures var f := FirstPolicyArrives(s, id);
            && f.step == s.step && f.total == s.total && f.remain == s.remain && f.inFlight == s.inFlight && f.queue == s.queue
            && f.rankQueues == s.rankQueues && f.log == s.log && f.policyOrder == s.policyOrder && f.rollouts.Keys == s.rollouts.Keys
  {
    hide ArrivedRollouts, SortByStart, MeshMembers, AllLoaded;
  }

  /** A replica that is not complete was never sent a fetch. */
  lemma NothingFetched(c: Config, w: World, id: nat, atom: nat, size: nat)
    requires Ledger(c, w) && atom < size && Enrol(w.policies, id, atom, size).Some?
    ensures Fetches(Enrol(w.policies, id, atom, size).value[id].stream) == 0
  {
    EnrolFacts(w, id, atom, size);
    if id in w.policies {
      NeverServed(c, w, id, atom);
    }
  }

  lemma NeverServed(c: Config, w: World, id: nat, atom: nat)
    requires Ledger(c, w) && id in w.policies && atom !in w.policies[id].atoms && atom < w.policies[id].size
    ensures Fetches(w.policies[id].stream) == 0
  {
    hide BooksOk, Entry, Fetches;
    assert Proper(w.policies[id]);
    if Arrived(w.policies[id]) { AllAtomsThere(w.policies[id], atom); }
  }

  // ---------- the state is steady ----------

  lemma {:induction false} StoppedFetched(r: Replica)
    requires Stopped(r)
    ensures 0 < Fetches(r.stream)
  {
    var k :| 0 <= k < |r.stream| && ShouldStop(r.stream[k]);
    FetchCounts(r.stream, k);
  }

  lemma {:induction false} FetchCounts(stream: seq<Command>, k: nat)
    requires k < |stream| && stream[k].DataFetch?
    ensures 0 < Fetches(stream)
  {
    if k < |stream| - 1 {
      FetchCounts(stream[..|stream| - 1], k);
    }
  }

  lemma ReadyStatus(c: Config, f: World, v: World, id: nat)
    requires Ledger(c, f) && MadeReady(f, v) && id in f.policies && id in ArrivedPolicies(f) && Fetches(f.policies[id].stream) == 0
    ensures StatusOk(v) && AllStatus(v, {Ready}) && AllStatus(v, {Ready, Reduced}) && ArrivedPolicies(v) == ArrivedPolicies(f) != []
    ensures !FinalPublished(v)
  {
    MadeReadyArrived(f, v);
    ReadyStatuses(c, f, v);
    hide Ledger, Fetches, Stopped, StatusOk, AllStatus, ArrivedPolicies;
    assert BecameReady(f.policies[id], v.policies[id]);
    if Stopped(v.policies[id]) { StoppedFetched(v.policies[id]); }
  }

  lemma ReadyStatuses(c: Config, f: World, v: World)
    requires Ledger(c, f) && MadeReady(f, v)
    ensures StatusOk(v) && AllStatus(v, {Ready}) && AllStatus(v, {Ready, Reduced})
  {
    hide BooksOk, Entry, Fetches;
    forall i | i in v.policies
      ensures v.policies[i].status == if Arrived(v.policies[i]) then Some(Ready) else None
    {
      assert Proper(f.policies[i]) && BecameReady(f.policies[i], v.policies[i]);
    }
  }

  /** Initialisation leaves a steady state exactly if steps are left and no step could start at once: the
      hypothesis of the theorems on the stop signal, with the shared queue. */
  lemma InitialisedSteadyIff(c: Config, w: World, e: Event)
    requires ValidConfig(c) && !c.byRank && Ledger(c, w) && Regular(w, e) && InitialisedBy(c, w, e)
    ensures var v := After(c, w, e).value;
            Steady(c, v) <==> v.step < v.total && |v.queue| < PerStep(c, v)
  {
    hide After, Ledger, AllStatus, StatusOk, FinalPublished, MadeReady, ArrivedPolicies;
    var f := InitialisedFrom(c, w, e);
    ReadyStatus(c, f, After(c, w, e).value, e.id);
    LedgerStep(c, f);
  }

  lemma LedgerStep(c: Config, w: World)
    requires Ledger(c, w)
    ensures 0 <= w.step
  {
  }

  /** And likewise when dispatching by rank: the rank queues are new, so no step could start. */
  lemma InitialisedRankSteadyIff(c: Config, w: World, e: Event)
    requires ValidConfig(c) && c.byRank && Ledger(c, w) && Seated(c, w) && Regular(w, e) && InitialisedBy(c, w, e)
    ensures var v := After(c, w, e).value;
            RankSteady(c, v) <==> v.step < v.total
  {
    hide After, Ledger, AllStatus, StatusOk, FinalPublished, MadeReady, ArrivedPolicies, Rearranged;
    var f := InitialisedFrom(c, w, e);
    var v := After(c, w, e).value;
    ReadyStatus(c, f, v, e.id);
    LedgerStep(c, f);
    RearrangedKeeps(f.rankQueues, |ArrivedPolicies(f)|);
    NewQueues(|ArrivedPolicies(f)|);
    assert v.rankQueues[0] == [];
  }

  lemma NewQueues(n: nat)
    requires 0 < n
    ensures Rearranged([], n)[0] == []
  {
  }

  // ---------- the stop signal ----------

  lemma CountedLimit(c: Config, f: World, v: World)
    requires ValidConfig(c) && Counted(c, f, v) && ArrivedPolicies(f) != [] && 0 <= v.step
    ensures v.step < v.total ==> !AtLimit(c, v)
    ensures v.step == v.total == 0 && c.maxSteps.Some? ==> 0 <= c.maxSteps.value
  {
    PositivePerStep(c, f);
    hide ArrivedPolicies, Rearranged, FloorDiv;
  }

  /** What initialisation leaves for the stop signal: stuck exactly if a step's rollouts are queued and steps are
      left; and if none is left, nothing that would publish the last fetch. */
  lemma InitialisedSignal(c: Config, w: World, e: Event)
    requires ValidConfig(c) && !c.byRank && Ledger(c, w) && Regular(w, e) && InitialisedBy(c, w, e)
    ensures var v := After(c, w, e).value;
            && Underway(c, v)
            && (v.step < v.total ==> Core(c, v) && (Stuck(c, v) <==> |v.queue| >= PerStep(c, v)))
            && (v.step == v.total ==> Exhausted(c, v))
  {
    hide After, Ledger, AllStatus, StatusOk, FinalPublished, MadeReady, ArrivedPolicies, Counted;
    var f := InitialisedFrom(c, w, e);
    var v := After(c, w, e).value;
    ReadyStatus(c, f, v, e.id);
    LedgerStep(c, f);
    CountedSteps(c, f, v);
    CountedLimit(c, f, v);
  }

  lemma CountedSteps(c: Config, f: World, v: World)
    requires Counted(c, f, v)
    ensures v.step == f.step
  {
  }

  /** The stop signal over whole runs: from the start, through any arrivals up to initialisation, and then any
      orderly events. When the controller has seen all rollouts end, reports alone lead to the last fetch, and
      the state is safe whatever comes after, exactly if the signal is not lost. With steps left at
      initialisation it is lost exactly if a step's rollouts were queued then and none was buffered between; if
      all steps were done by then, or the samples are too few for one, exactly if no step was started. */
  lemma StopSignalFromStart(c: Config, policyInit: nat, rolloutInit: nat, step: int, remain: int,
                            arrivals: seq<Event>, last: Event, before: seq<Event>, id: nat, after: seq<Event>)
    requires ValidConfig(c) && !c.byRank && 0 <= step && RegularRun(c, Opening(policyInit, rolloutInit, step, remain), arrivals)
    requires CanRun(c, Opening(policyInit, rolloutInit, step, remain), arrivals)
    requires var w := Run(c, Opening(policyInit, rolloutInit, step, remain), arrivals);
             && Regular(w, last) && InitialisedBy(c, w, last)
             && var v := After(c, w, last).value;
             && OrderlyRun(c, v, before) && CanRun(c, v, before)
             && AllEnded(MarkEnded(Run(c, v, before), id))
    ensures var v := After(c, Run(c, Opening(policyInit, rolloutInit, step, remain), arrivals), last).value;
            var x := Run(c, v, before);
            && RolloutEnd(c, x, id).Some?
            && var e := RolloutEnd(c, x, id).value;
            && (StopSafe(c, e) <==> !LosesSignal(c, x))
            && (Covered(c, e) ==> (ReportsStop(c, e) <==> !LosesSignal(c, x)))
            && (OrderlyRun(c, e, after) && !LosesSignal(c, x) ==> CanRun(c, e, after) && StopSafe(c, Run(c, e, after)))
            && (v.step < v.total ==> (LosesSignal(c, x) <==> |v.queue| >= PerStep(c, v) && !BuffersAny(c, v, before)))
            && (v.step == v.total ==> (LosesSignal(c, x) <==> x.step == v.step))
  {
    var w := Run(c, Opening(policyInit, rolloutInit, step, remain), arrivals);
    OpeningLedger(c, policyInit, rolloutInit, step, remain);
    RunLedger(c, Opening(policyInit, rolloutInit, step, remain), arrivals);
    hide Ledger, Regular, After, RolloutEnd, StopSafe, OrderlyRun, Underway, LosesSignal, Stuck, Core, Exhausted, Covered, ReportsStop,
      AllEnded, BuffersAny, Opening, RegularRun, InitialisedBy;
    InitialisedSignal(c, w, last);
    var v := After(c, w, last).value;
    RunUnderway(c, v, before);
    var x := Run(c, v, before);
    EndDecides(c, x, id);
    if OrderlyRun(c, RolloutEnd(c, x, id).value, after) && !LosesSignal(c, x) {
      SafeStays(c, RolloutEnd(c, x, id).value, after);
    }
    if v.step < v.total {
      RunStuck(c, v, before);
      CoreLosesIff(c, x);
    } else if v.step == v.total {
      RunBegins(c, v, before, v.step);
      NoStepsLoseIff(c, x, v.step);
    }
  }
}
