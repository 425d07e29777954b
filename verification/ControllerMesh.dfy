/** The mesh stays dense and the rank queues stay routed while policy replicas come and go. */
module ControllerMesh {
  import opened Common
  import opened ControllerModel
  import opened ControllerFlow
  import opened ControllerQueues
  import opened ControllerLedger

  // ---------- orders without repetition ----------

  lemma DistinctAppend(s: seq<nat>, x: nat)
    requires Distinct(s) && x !in s
    ensures Distinct(s + [x])
  {
  }

  lemma {:induction false} ArrivedDistinct(g: Group, order: seq<nat>)
    requires Distinct(order)
    ensures Distinct(ArrivedIn(g, order))
  {
    if order != [] {
      var front, last := order[..|order| - 1], order[|order| - 1];
      ArrivedDistinct(g, front);
      assert last !in front;
      DistinctAppend(ArrivedIn(g, front), last);
    }
  }

  lemma {:induction false} InsertDistinct(g: Group, id: nat, s: seq<nat>)
    requires Distinct(s) && id !in s
    ensures Distinct(InsertByStart(g, id, s))
  {
    if s == [] || StartOf(g, id) < StartOf(g, s[0]) {
    } else {
      InsertDistinct(g, id, s[1..]);
      var t := InsertByStart(g, id, s[1..]);
      forall j | 0 <= j < |t|
        ensures t[j] != s[0]
      {
        assert t[j] in t;
      }
    }
  }

  lemma {:induction false} SortDistinct(g: Group, s: seq<nat>)
    requires Distinct(s)
    ensures Distinct(SortByStart(g, s))
  {
    if s != [] {
      var front, last := s[..|s| - 1], s[|s| - 1];
      SortDistinct(g, front);
      assert last !in front;
      InsertDistinct(g, last, SortByStart(g, front));
    }
  }

  lemma {:induction false} WithoutDistinct(s: seq<nat>, id: nat)
    requires Distinct(s)
    ensures Distinct(Without(s, id))
  {
    if s != [] {
      var front, last := s[..|s| - 1], s[|s| - 1];
      WithoutDistinct(front, id);
      assert last !in front;
      if last != id { DistinctAppend(Without(front, id), last); }
    }
  }

  lemma IndexOfAt(s: seq<nat>, i: nat)
    requires Distinct(s) && i < |s|
    ensures s[i] in s && IndexOf(s, s[i]) == i
  {
    assert s[i] in s;
    var j := IndexOf(s, s[i]);
    assert s[j] == s[i];
  }

  /** The map of a mesh is a bijection from the listed replicas to the ranks below their number. */
  lemma MeshIsBijection(order: seq<nat>)
    requires Distinct(order)
    ensures MeshOf(order).Keys == AsSet(order)
    ensures forall id :: id in order ==> MeshOf(order)[id] < |order|
    ensures forall a, b :: a in order && b in order && MeshOf(order)[a] == MeshOf(order)[b] ==> a == b
    ensures forall k :: 0 <= k < |order| ==> MeshOf(order)[order[k]] == k
  {
    forall k | 0 <= k < |order|
      ensures MeshOf(order)[order[k]] == k
    {
      assert order[k] in order;
    }
  }

  // ---------- the mesh in the streams ----------

  /** The last mesh a replica was told. */
  function LastMesh(stream: seq<Command>): Option<map<nat, nat>> {
    if stream == [] then None
    else if stream[|stream| - 1].BuildMesh? then Some(stream[|stream| - 1].ranks)
    else LastMesh(stream[..|stream| - 1])
  }

  lemma LastMeshAfter(stream: seq<Command>, cmd: Command)
    ensures LastMesh(stream + [cmd]) == if cmd.BuildMesh? then Some(cmd.ranks) else LastMesh(stream)
  {
    assert (stream + [cmd])[..|stream|] == stream;
  }

  predicate Placed(r: Replica, order: seq<nat>, id: nat) {
    id in order && r.rank == Some(IndexOf(order, id)) && LastMesh(r.stream) == Some(MeshOf(order))
  }

  /** The arrived policy replicas are ranked densely, and each was last told exactly these ranks. */
  predicate Dense(w: World, order: seq<nat>) {
    && Distinct(order) && |order| == |ArrivedPolicies(w)| && AsSet(order) == AsSet(ArrivedPolicies(w))
    && forall id :: id in order ==> id in w.policies && Placed(w.policies[id], order, id)
  }

  ghost predicate HasDenseMesh(w: World) {
    exists order :: Dense(w, order)
  }

  predicate QueuesRouted(c: Config, w: World) {
    c.byRank && ArrivedPolicies(w) != [] ==> |w.rankQueues| == |ArrivedPolicies(w)| && Routed(w.rankQueues)
  }

  predicate NobodyPlaced(w: World) {
    w.rankQueues == [] && forall id :: id in w.policies ==> w.policies[id].rank.None?
  }

  /** Only arrived replicas have ranks. */
  predicate RanksOfArrived(w: World) {
    forall id :: id in w.policies && w.policies[id].rank.Some? ==> Arrived(w.policies[id])
  }

  /** Dispatching by rank, from initialisation on there is a queue for every arrived replica. */
  predicate QueuesFit(c: Config, w: World) {
    c.byRank && w.policyReady ==> w.rankQueues != [] && |ArrivedPolicies(w)| <= |w.rankQueues|
  }

  /** What departures keep at any time, even when the mesh is no longer rebuilt. */
  predicate Seated(c: Config, w: World) {
    Distinct(w.policyOrder) && RanksOfArrived(w) && (!w.policyReady ==> NobodyPlaced(w)) && QueuesFit(c, w)
  }

  ghost predicate MeshOk(c: Config, w: World) {
    Seated(c, w) && (w.policyReady ==> HasDenseMesh(w) && QueuesRouted(c, w))
  }

  lemma OpeningMesh(c: Config, policyInit: nat, rolloutInit: nat, step: int, remain: int)
    ensures MeshOk(c, Opening(policyInit, rolloutInit, step, remain))
  {
  }

  // ---------- changes the mesh does not see ----------

  predicate Unmoved(r: Replica, t: Replica) {
    t.rank == r.rank && LastMesh(t.stream) == LastMesh(r.stream) && t.size == r.size && t.atoms == r.atoms
  }

  predicate AllUnmoved(g: Group, h: Group) {
    h.Keys == g.Keys && forall id :: id in g ==> Unmoved(g[id], h[id])
  }

  lemma UnmovedTransitive(a: Group, b: Group, d: Group)
    requires AllUnmoved(a, b) && AllUnmoved(b, d)
    ensures AllUnmoved(a, d)
  {
    forall id | id in a
      ensures Unmoved(a[id], d[id])
    {
      assert Unmoved(a[id], b[id]) && Unmoved(b[id], d[id]);
    }
  }

  lemma TellUnmoved(g: Group, ids: set<nat>, cmd: Command)
    requires !cmd.BuildMesh?
    ensures AllUnmoved(g, Tell(g, ids, cmd)) && AllUnmoved(g, Load(g, ids, cmd)) && AllUnmoved(g, Fetch(g, ids, cmd))
  {
    forall id | id in g
      ensures Unmoved(g[id], Tell(g, ids, cmd)[id]) && Unmoved(g[id], Load(g, ids, cmd)[id]) && Unmoved(g[id], Fetch(g, ids, cmd)[id])
    {
      LastMeshAfter(g[id].stream, cmd);
    }
  }

  lemma StatusUnmoved(g: Group, ids: set<nat>, s: Status)
    ensures AllUnmoved(g, SetStatus(g, ids, s))
  {
  }

  /** Same replicas in the same places; the rank queues keep their number and routing. */
  predicate InPlace(w: World, v: World) {
    && v.policyOrder == w.policyOrder && v.policyReady == w.policyReady && AllUnmoved(w.policies, v.policies)
    && |v.rankQueues| == |w.rankQueues| && (Routed(w.rankQueues) ==> Routed(v.rankQueues))
  }

  lemma InPlaceReady(w: World, v: World)
    requires InPlace(w, v)
    ensures v.policyReady == w.policyReady
  {
  }

  lemma UnmovedArrived(g: Group, h: Group, order: seq<nat>)
    requires AllUnmoved(g, h)
    ensures ArrivedIn(g, order) == ArrivedIn(h, order)
  {
    forall id | id in order
      ensures (id in g && Arrived(g[id])) <==> (id in h && Arrived(h[id]))
    {
      if id in g { assert Unmoved(g[id], h[id]); }
    }
    ArrivedSame(g, h, order);
  }

  lemma InPlaceDense(w: World, v: World, order: seq<nat>)
    requires InPlace(w, v) && Dense(w, order)
    ensures Dense(v, order)
  {
    hide LastMesh, Routed;
    UnmovedArrived(w.policies, v.policies, w.policyOrder);
    forall id | id in order
      ensures id in v.policies && Placed(v.policies[id], order, id)
    {
      assert Unmoved(w.policies[id], v.policies[id]);
    }
  }

  lemma InPlaceSeated(c: Config, w: World, v: World)
    requires InPlace(w, v) && Seated(c, w)
    ensures Seated(c, v)
  {
    hide Routed, LastMesh;
    UnmovedArrived(w.policies, v.policies, w.policyOrder);
    forall id | id in v.policies
      ensures v.policies[id].rank == w.policies[id].rank && (Arrived(v.policies[id]) <==> Arrived(w.policies[id]))
    {
      assert Unmoved(w.policies[id], v.policies[id]);
    }
  }

  lemma InPlaceMesh(c: Config, w: World, v: World)
    requires InPlace(w, v) && MeshOk(c, w)
    ensures MeshOk(c, v)
  {
    hide Dense, Routed, LastMesh, Seated;
    InPlaceSeated(c, w, v);
    UnmovedArrived(w.policies, v.policies, w.policyOrder);
    if w.policyReady {
      var order :| Dense(w, order);
      InPlaceDense(w, v, order);
    }
  }

  lemma InPlaceTransitive(a: World, b: World, d: World)
    requires InPlace(a, b) && InPlace(b, d)
    ensures InPlace(a, d)
  {
    hide Unmoved, Routed;
    UnmovedTransitive(a.policies, b.policies, d.policies);
  }

  lemma StayInPlace(w: World, v: World)
    requires v.policyOrder == w.policyOrder && v.policyReady == w.policyReady && v.policies == w.policies && v.rankQueues == w.rankQueues
    ensures InPlace(w, v)
  {
  }

  // ---------- handlers that leave the mesh alone ----------

  lemma RankDispatchInPlace(w: World, items: nat)
    requires |ArrivedPolicies(w)| <= |w.rankQueues|
    requires forall i :: 0 <= i < |ArrivedPolicies(w)| ==> items <= |w.rankQueues[i]|
    ensures InPlace(w, DispatchByRank(w, items))
  {
    hide ArrivedPolicies, Routed, LastMesh, DealtByRank, Served, SortedQueues;
    var n := |ArrivedPolicies(w)|;
    var qs := SortedQueues(w.rankQueues, n);
    SortedQueuesKeep(w.rankQueues, n);
    if Routed(w.rankQueues) {
      ServedRouted(qs, n, items);
    }
    RankGives(w, items);
    GivenUnmoved(w, DispatchByRank(w, items));
  }

  lemma GivenUnmoved(w: World, d: World)
    requires OnlyGiven(w, d)
    ensures AllUnmoved(w.policies, d.policies)
  {
    forall id | id in w.policies
      ensures Unmoved(w.policies[id], d.policies[id])
    {
      assert d.policies[id] == w.policies[id].(received := d.policies[id].received);
    }
  }

  lemma SharedDispatchInPlace(c: Config, w: World, fake: bool)
    requires fake || |w.queue| >= PerStep(c, w)
    ensures InPlace(w, DispatchShared(c, w, fake))
  {
    hide OnlyGiven, Routed;
    SharedGives(c, w, fake);
    GivenUnmoved(w, DispatchShared(c, w, fake));
  }

  lemma TriggerInPlace(c: Config, w: World, fake: bool)
    requires TryTrigger(c, w, fake).Some?
    ensures InPlace(w, TryTrigger(c, w, fake).value)
  {
    hide DispatchShared, DispatchByRank, InPlace, Fetch, FetchOf;
    if Triggers(c, w, fake) {
      if c.byRank {
        RankDispatchInPlace(w, if fake then 0 else c.batch);
      } else {
        SharedDispatchInPlace(c, w, fake);
      }
      var d := Dispatch(c, w, fake).value;
      LaunchInPlace(c, w, d, fake);
      InPlaceTransitive(w, d, Launch(c, w, d, fake));
    } else {
      StayInPlace(w, w);
    }
  }

  lemma LaunchInPlace(c: Config, w: World, d: World, fake: bool)
    ensures InPlace(d, Launch(c, w, d, fake))
  {
    hide Unmoved, Routed;
    TellUnmoved(d.policies, AsSet(ArrivedPolicies(w)), FetchOf(c, w, fake));
  }

  /** Buffering routes a rollout to its rank. */
  lemma BufferInPlace(c: Config, w: World, x: Rollout)
    requires Buffer(c, w, x).Some?
    ensures InPlace(w, Buffer(c, w, x).value)
  {
    hide Routed;
    if c.byRank {
      AppendQueued(w.rankQueues, x.prompt % |w.rankQueues|, x);
    }
  }

  lemma {:induction false} PutEachInPlace(c: Config, w: World, xs: seq<Rollout>)
    requires PutEach(c, w, xs).Some?
    ensures InPlace(w, PutEach(c, w, xs).value)
    decreases |xs|
  {
    hide InPlace, TryTrigger, Buffer;
    if xs == [] {
      StayInPlace(w, w);
    } else {
      BufferInPlace(c, w, xs[0]);
      var b := Buffer(c, w, xs[0]).value;
      TriggerInPlace(c, b, false);
      var p := PutRollout(c, w, xs[0]).value;
      InPlaceTransitive(w, b, p);
      if c.onPolicy && Pending(c, p) == 0 {
        StayInPlace(p, p.(stepSampled := true));
        InPlaceTransitive(w, p, p.(stepSampled := true));
      } else {
        PutEachInPlace(c, p, xs[1..]);
        InPlaceTransitive(w, p, PutEach(c, p, xs[1..]).value);
      }
    }
  }

  lemma GroupInPlace(c: Config, w: World, xs: seq<Rollout>)
    requires ValidConfig(c) && PutGroup(c, w, xs).Some?
    ensures InPlace(w, PutGroup(c, w, xs).value)
  {
    hide InPlace, PutEach;
    var kept := FreshOnes(c, w, xs);
    var p := w.(remain := w.remain - (|xs| - |kept|));
    StayInPlace(w, p);
    if c.onPolicy && p.stepSampled {
      StayInPlace(w, PutGroup(c, w, xs).value);
    } else {
      PutEachInPlace(c, p, kept);
      InPlaceTransitive(w, p, PutEach(c, p, kept).value);
    }
  }

  lemma SendInPlace(w: World, src: nat, dst: nat, weightStep: Option<int>, lastStep: Option<int>)
    requires dst in w.rollouts
    ensures InPlace(w, SendPolicyToRollout(w, src, dst, weightStep, lastStep))
    ensures SendPolicyToRollout(w, src, dst, weightStep, lastStep).rollouts.Keys == w.rollouts.Keys
  {
    hide Unmoved, Routed;
    TellUnmoved(w.policies, {src}, PolicyToRollout(src, dst, w.rollouts[dst].loaded, weightStep, lastStep));
  }

  lemma BroadcastInPlace(w: World, src: nat, dsts: set<nat>, weightStep: Option<int>, lastStep: Option<int>)
    requires src in w.rollouts
    ensures InPlace(w, BroadcastToRollouts(w, src, dsts, weightStep, lastStep))
  {
    StayInPlace(w, BroadcastToRollouts(w, src, dsts, weightStep, lastStep));
  }

  lemma SyncInPlace(c: Config, w: World, step: int, lastStep: int)
    requires ValidConfig(c)
    ensures InPlace(w, SyncIfDue(c, w, step, lastStep))
  {
    hide SendPolicyToRollout, BroadcastToRollouts, ArrivedRollouts, InPlace;
    StayInPlace(w, w);
    var src := SortByStart(w.policies, ArrivedPolicies(w));
    var ids := SortByStart(w.rollouts, ArrivedRollouts(w));
    RolloutsKnown(w);
    if src != [] && ids != [] {
      SendInPlace(w, src[0], ids[0], Some(step), Some(lastStep));
      var s := SendPolicyToRollout(w, src[0], ids[0], Some(step), Some(lastStep));
      BroadcastInPlace(s, ids[0], AsSet(ids), Some(step), Some(lastStep));
      InPlaceTransitive(w, s, BroadcastToRollouts(s, ids[0], AsSet(ids), Some(step), Some(lastStep)));
    }
  }

  lemma AckedInPlace(w: World, id: nat)
    requires id in w.policies
    ensures InPlace(w, Acked(w, id))
  {
  }

  lemma DoneInPlace(c: Config, w: World)
    ensures InPlace(w, StepDone(c, w))
  {
    hide Unmoved, Routed;
    StatusUnmoved(w.policies, AsSet(ArrivedPolicies(w)), Ready);
  }

  lemma AckInPlace(c: Config, w: World, id: nat, step: int, lastStep: int)
    requires ValidConfig(c) && TrainAck(c, w, id, step, lastStep).Some?
    ensures InPlace(w, TrainAck(c, w, id, step, lastStep).value)
  {
    hide InPlace, SyncIfDue, StepDone, TryTrigger, Acked;
    var a := Acked(w, id);
    AckedInPlace(w, id);
    if AllStatus(a, {Reduced}) {
      DoneInPlace(c, a);
      var b := StepDone(c, a);
      InPlaceTransitive(w, a, b);
      SyncInPlace(c, b, step, lastStep);
      var s := SyncIfDue(c, b, step, lastStep);
      InPlaceTransitive(w, b, s);
      TriggerInPlace(c, s, false);
      var t := TryTrigger(c, s, false).value;
      InPlaceTransitive(w, s, t);
      StayInPlace(t, t.(stepSampled := false));
      InPlaceTransitive(w, t, t.(stepSampled := false));
    }
  }

  lemma RecomputeInPlace(c: Config, w: World, remaining: int)
    ensures InPlace(w, Recompute(c, w, remaining))
  {
    StayInPlace(w, Recompute(c, w, remaining));
  }

  lemma EndInPlace(c: Config, w: World, id: nat)
    requires RolloutEnd(c, w, id).Some?
    ensures InPlace(w, RolloutEnd(c, w, id).value)
  {
    hide InPlace, Recompute, TryTrigger;
    var e := MarkEnded(w, id);
    StayInPlace(w, e);
    if AllEnded(e) {
      RecomputeInPlace(c, e, Pending(c, e));
      var t := Recompute(c, e, Pending(c, e));
      InPlaceTransitive(w, e, t);
      if !(t.total > t.step || t.step == e.total) {
        StayInPlace(t, Curtailed(t));
        InPlaceTransitive(w, t, Curtailed(t));
        TriggerInPlace(c, Curtailed(t), true);
        InPlaceTransitive(w, Curtailed(t), TryTrigger(c, Curtailed(t), true).value);
      }
    }
  }

  // ---------- rollout replicas come and go ----------

  lemma GreetInPlace(w: World, id: nat)
    requires id in w.rollouts
    ensures InPlace(w, GreetRollout(w, id))
  {
    hide InPlace, SendPolicyToRollout, ArrivedRollouts, SortByStart;
    StayInPlace(w, w);
    var src := FirstLoaded(w.policies, SortByStart(w.policies, w.policyOrder));
    if src.Some? {
      SendInPlace(w, src.value, id, None, None);
    }
  }

  lemma RolloutArrivalInPlace(w: World, id: nat)
    requires id in w.rollouts && AfterRolloutArrives(w, id).Some?
    ensures InPlace(w, AfterRolloutArrives(w, id).value)
  {
    hide InPlace, GreetRollout, ArrivedRollouts, BuildMeshIn, InitRollouts;
    var p := GreetRollout(w, id);
    GreetInPlace(w, id);
    InitUntrained(p);
    InitPolicies(p);
    StayInPlace(p, AfterRolloutArrives(w, id).value);
    InPlaceTransitive(w, p, AfterRolloutArrives(w, id).value);
  }

  lemma InitPolicies(w: World)
    ensures var v := InitRollouts(w);
            v.policies == w.policies && v.policyOrder == w.policyOrder && v.policyReady == w.policyReady && v.rankQueues == w.rankQueues
  {
  }

  lemma RegisterRolloutInPlace(w: World, id: nat, atom: nat, size: nat, now: int)
    requires RegisterRollout(w, id, atom, size, now).Some?
    ensures InPlace(w, RegisterRollout(w, id, atom, size, now).value)
  {
    hide InPlace, AfterRolloutArrives, Stamp, Enrol;
    var g := Enrol(w.rollouts, id, atom, size).value;
    var n := EnrolRollout(w, id, g);
    StayInPlace(w, n);
    if Arrived(g[id]) {
      var s := n.(rollouts := Stamp(n.rollouts, id, now));
      StampKeys(n.rollouts, id, now);
      StayInPlace(w, s);
      RolloutArrivalInPlace(s, id);
      InPlaceTransitive(w, s, AfterRolloutArrives(s, id).value);
    }
  }

  lemma UnregisterRolloutInPlace(w: World, id: nat)
    requires UnregisterRollout(w, id).Some?
    ensures InPlace(w, UnregisterRollout(w, id).value)
  {
    hide BuildMeshIn, SortByStart;
    StayInPlace(w, UnregisterRollout(w, id).value);
  }

  // ---------- policy replicas come and go ----------

  lemma RebuiltPlaced(w: World, ids: seq<nat>, id: nat)
    requires id in ids && id in w.policies
    ensures Placed(BuildMeshIn(w.policies, ids)[id], ids, id)
  {
    LastMeshAfter(w.policies[id].stream, BuildMesh(MeshOf(ids)));
  }

  lemma RebuiltArrived(w: World, ids: seq<nat>)
    ensures ArrivedIn(BuildMeshIn(w.policies, ids), w.policyOrder) == ArrivedPolicies(w)
  {
    ArrivedSame(w.policies, BuildMeshIn(w.policies, ids), w.policyOrder);
  }

  lemma RebuiltRanks(w: World, ids: seq<nat>)
    requires RanksOfArrived(w) && forall id :: id in ids && id in w.policies ==> Arrived(w.policies[id])
    ensures RanksOfArrived(w.(policies := BuildMeshIn(w.policies, ids)))
  {
  }

  /** Rebuilding makes the mesh dense and routes the queues, whatever they were. */
  lemma RebuildMakesMesh(c: Config, w: World)
    requires Distinct(w.policyOrder) && RanksOfArrived(w) && w.policyReady && ArrivedPolicies(w) != []
    ensures MeshOk(c, RebuildPolicyMesh(c, w))
    ensures var v := RebuildPolicyMesh(c, w);
            v.policyOrder == w.policyOrder && v.policies.Keys == w.policies.Keys
  {
    hide RebuildPolicyMesh, Placed, Rearranged, Routed, LastMesh, MeshOf;
    var ids := SortByStart(w.policies, ArrivedPolicies(w));
    var v := RebuildPolicyMesh(c, w);
    RebuildFields(c, w);
    ArrivedDistinct(w.policies, w.policyOrder);
    SortDistinct(w.policies, ArrivedPolicies(w));
    RebuiltArrived(w, ids);
    forall id | id in ids
      ensures id in v.policies && Placed(v.policies[id], ids, id)
    {
      RebuiltPlaced(w, ids, id);
    }
    assert AsSet(ids) == AsSet(ArrivedPolicies(v));
    assert Dense(v, ids);
    RebuiltRanks(w, ids);
    if c.byRank && ids != [] {
      RearrangedKeeps(w.rankQueues, |ids|);
    }
  }

  lemma FirstPolicyInPlace(w: World, id: nat)
    requires id in w.policies
    ensures InPlace(w, FirstPolicyArrives(w, id))
  {
    hide InPlace, SendPolicyToRollout, BroadcastToRollouts, ArrivedRollouts;
    var r := w.(resumed := true, policies := Load(w.policies, {id}, WeightResume));
    LoadedInPlace(w, r, {id}, WeightResume);
    var ids := SortByStart(r.rollouts, ArrivedRollouts(r));
    RolloutsKnown(r);
    if ids != [] {
      var s := SendPolicyToRollout(r, id, ids[0], None, None);
      SendInPlace(r, id, ids[0], None, None);
      InPlaceTransitive(w, r, s);
      if |ids| >= r.rolloutInit {
        BroadcastInPlace(s, ids[0], AsSet(ids), Some(s.step), None);
        InPlaceTransitive(w, s, BroadcastToRollouts(s, ids[0], AsSet(ids), Some(s.step), None));
      }
    }
  }

  lemma LoadedInPlace(w: World, v: World, ids: set<nat>, cmd: Command)
    requires !cmd.BuildMesh? && v.policyOrder == w.policyOrder && v.policyReady == w.policyReady && v.rankQueues == w.rankQueues
    requires v.policies == Load(w.policies, ids, cmd) || v.policies == Tell(w.policies, ids, cmd)
    ensures InPlace(w, v)
  {
    hide Unmoved, Routed;
    TellUnmoved(w.policies, ids, cmd);
  }

  lemma StatusInPlace(w: World, ids: set<nat>, s: Status)
    ensures InPlace(w, w.(policies := SetStatus(w.policies, ids, s)))
  {
    hide Unmoved, Routed;
    StatusUnmoved(w.policies, ids, s);
  }

  /** Once a replica has arrived the mesh is as it should be: unchanged before initialisation, rebuilt from
      then on. */
  lemma AfterPolicyMesh(c: Config, w: World, id: nat)
    requires id in w.policies && Distinct(w.policyOrder) && RanksOfArrived(w) && (!w.policyReady ==> NobodyPlaced(w))
    requires ArrivedPolicies(w) != [] && AfterPolicyArrives(c, w, id).Some?
    ensures MeshOk(c, AfterPolicyArrives(c, w, id).value)
  {
    hide MeshOk, RebuildPolicyMesh, ArrivedPolicies, InPlace;
    var ids := SortByStart(w.policies, ArrivedPolicies(w));
    if !w.policyReady && |ids| >= w.policyInit {
      var r := w.(policyReady := true);
      var m := RebuildPolicyMesh(c, r);
      SameArrivedPolicies(w, r);
      RebuildMakesMesh(c, r);
      if |ids| > 1 {
        var cmd := PolicyBroadcast(FirstLoaded(m.policies, ids).value, AsSet(ids), m.total);
        var b := m.(policies := Load(m.policies, AsSet(ids), cmd));
        LoadedInPlace(m, b, AsSet(ids), cmd);
        InPlaceMesh(c, m, b);
        StatusInPlace(b, AsSet(ids), Ready);
        InPlaceMesh(c, b, b.(policies := SetStatus(b.policies, AsSet(ids), Ready)));
      } else {
        StatusInPlace(m, AsSet(ids), Ready);
        InPlaceMesh(c, m, m.(policies := SetStatus(m.policies, AsSet(ids), Ready)));
      }
    } else if w.policyReady {
      JoinMesh(c, w, id);
    } else {
      StillNobody(c, w);
    }
  }

  lemma SameArrivedPolicies(w: World, r: World)
    requires r.policies == w.policies && r.policyOrder == w.policyOrder
    ensures ArrivedPolicies(r) == ArrivedPolicies(w)
  {
  }

  lemma StillNobody(c: Config, w: World)
    requires !w.policyReady && Distinct(w.policyOrder) && RanksOfArrived(w) && NobodyPlaced(w)
    ensures MeshOk(c, w)
  {
  }

  lemma JoinMesh(c: Config, w: World, id: nat)
    requires id in w.policies && Distinct(w.policyOrder) && RanksOfArrived(w) && w.policyReady
    requires ArrivedPolicies(w) != [] && AfterPolicyArrives(c, w, id).Some?
    ensures MeshOk(c, AfterPolicyArrives(c, w, id).value)
  {
    hide MeshOk, RebuildPolicyMesh, ArrivedPolicies, InPlace;
    var ids := SortByStart(w.policies, ArrivedPolicies(w));
    var m := RebuildPolicyMesh(c, w);
    RebuildMakesMesh(c, w);
    var src := FirstLoaded(w.policies, ids).value;
    var cmd := PolicyUnicast(src, id, m.total);
    var t := m.(policies := Tell(m.policies, {src}, cmd));
    LoadedInPlace(m, t, {src}, cmd);
    InPlaceMesh(c, m, t);
    var l := t.(policies := Load(t.policies, {id}, cmd));
    LoadedInPlace(t, l, {id}, cmd);
    InPlaceMesh(c, t, l);
    StatusInPlace(l, {id}, Ready);
    InPlaceMesh(c, l, l.(policies := SetStatus(l.policies, {id}, Ready)));
  }

  lemma OrderGrows(w: World, id: nat)
    requires Distinct(w.policyOrder) && (forall i :: i in w.policies <==> i in w.policyOrder)
    ensures Distinct(if id in w.policies then w.policyOrder else w.policyOrder + [id])
  {
    if id !in w.policies { DistinctAppend(w.policyOrder, id); }
  }

  /** A group that differs in one replica, arrived in neither. */
  predicate OneUnarrived(w: World, g: Group, id: nat) {
    && id in g && g.Keys == w.policies.Keys + {id} && (forall i :: i in w.policies && i != id ==> g[i] == w.policies[i])
    && g[id].rank.None? && !Arrived(g[id]) && (id in w.policies ==> !Arrived(w.policies[id]))
  }

  lemma UnarrivedKeepsArrived(w: World, id: nat, g: Group)
    requires OneUnarrived(w, g, id)
    ensures ArrivedPolicies(EnrolPolicy(w, id, g)) == ArrivedPolicies(w)
  {
    var v := EnrolPolicy(w, id, g);
    ArrivedSame(w.policies, g, w.policyOrder);
    if id !in w.policies {
      assert v.policyOrder[..|w.policyOrder|] == w.policyOrder;
    }
  }

  lemma UnarrivedRanks(w: World, id: nat, g: Group)
    requires OneUnarrived(w, g, id) && RanksOfArrived(w)
    ensures RanksOfArrived(EnrolPolicy(w, id, g))
    ensures NobodyPlaced(w) ==> NobodyPlaced(EnrolPolicy(w, id, g))
  {
  }

  lemma UnarrivedDense(c: Config, w: World, id: nat, g: Group)
    requires OneUnarrived(w, g, id) && HasDenseMesh(w) && QueuesRouted(c, w)
    ensures HasDenseMesh(EnrolPolicy(w, id, g)) && QueuesRouted(c, EnrolPolicy(w, id, g))
  {
    hide Routed, Placed, ArrivedPolicies, Dense;
    var v := EnrolPolicy(w, id, g);
    UnarrivedKeepsArrived(w, id, g);
    var order :| Dense(w, order);
    DenseArrived(w, order);
    StillDense(w, v, order, id);
  }

  lemma IncompleteSeated(c: Config, w: World, id: nat, g: Group)
    requires Seated(c, w) && (forall i :: i in w.policies <==> i in w.policyOrder) && OneUnarrived(w, g, id)
    ensures Seated(c, EnrolPolicy(w, id, g))
  {
    hide OneUnarrived, RanksOfArrived, NobodyPlaced, Distinct, ArrivedPolicies;
    OrderGrows(w, id);
    UnarrivedRanks(w, id, g);
    UnarrivedKeepsArrived(w, id, g);
  }

  /** Enrolling an atom that does not complete its replica leaves the mesh alone. */
  lemma IncompleteMesh(c: Config, w: World, id: nat, g: Group)
    requires MeshOk(c, w) && (forall i :: i in w.policies <==> i in w.policyOrder) && OneUnarrived(w, g, id)
    ensures MeshOk(c, EnrolPolicy(w, id, g))
  {
    hide OneUnarrived, Seated, HasDenseMesh, QueuesRouted;
    IncompleteSeated(c, w, id, g);
    if w.policyReady {
      UnarrivedDense(c, w, id, g);
    }
  }

  lemma DenseArrived(w: World, order: seq<nat>)
    requires Dense(w, order)
    ensures forall id :: id in order <==> id in w.policyOrder && id in w.policies && Arrived(w.policies[id])
  {
    hide Placed;
    forall id
      ensures id in order <==> id in ArrivedPolicies(w)
    {
      assert id in AsSet(order) <==> id in AsSet(ArrivedPolicies(w));
    }
  }

  lemma StillDense(w: World, v: World, order: seq<nat>, id: nat)
    requires Dense(w, order) && ArrivedPolicies(v) == ArrivedPolicies(w) && id !in order
    requires v.policies.Keys == w.policies.Keys + {id} && (forall i :: i in w.policies && i != id ==> v.policies[i] == w.policies[i])
    ensures Dense(v, order)
  {
    hide Placed;
  }

  /** Completing a replica: its status and start time are set, its rank is still unset. */
  lemma CompletedFacts(w: World, id: nat, atom: nat, size: nat, now: int)
    requires (forall i :: i in w.policies ==> Proper(w.policies[i])) && atom < size && Enrol(w.policies, id, atom, size).Some?
    requires RanksOfArrived(w)
    ensures var g := Enrol(w.policies, id, atom, size).value;
            var v := Enrolled(w, id, g, now);
            && (!Arrived(g[id]) ==> OneUnarrived(w, g, id)) && v.rankQueues == w.rankQueues && v.policyReady == w.policyReady
            && v.policies.Keys == w.policies.Keys + {id} && (forall i :: i in w.policies && i != id ==> v.policies[i] == w.policies[i])
            && v.policies[id].rank.None?
  {
    hide Enrol, Enrolled, Proper;
    var g := Enrol(w.policies, id, atom, size).value;
    EnrolFacts(w, id, atom, size);
    EnrolledFacts(w, id, g, now);
    EnrolledRest(w, id, g, now);
    if id in w.policies && Arrived(w.policies[id]) {
      AllAtomsThere(w.policies[id], atom);
    }
  }

  lemma CompletedOrder(w: World, id: nat, g: Group, now: int)
    requires id in g
    ensures Enrolled(w, id, g, now).policyOrder == if id in w.policies then w.policyOrder else w.policyOrder + [id]
  {
    hide Stamp, SetStatus;
  }

  lemma CompletedRanks(w: World, v: World, id: nat)
    requires RanksOfArrived(w) && v.policies.Keys == w.policies.Keys + {id} && v.policies[id].rank.None?
    requires forall i :: i in w.policies && i != id ==> v.policies[i] == w.policies[i]
    ensures RanksOfArrived(v) && (NobodyPlaced(w) && v.rankQueues == w.rankQueues ==> NobodyPlaced(v))
  {
  }

  /** A replica that becomes complete makes a dense mesh from any; other atoms leave the mesh alone. */
  lemma RegisterPolicySeated(c: Config, w: World, id: nat, atom: nat, size: nat, now: int)
    requires Ledger(c, w) && Seated(c, w) && atom < size && RegisterPolicy(c, w, id, atom, size, now).Some?
    ensures Seated(c, RegisterPolicy(c, w, id, atom, size, now).value)
    ensures MeshOk(c, w) ==> MeshOk(c, RegisterPolicy(c, w, id, atom, size, now).value)
  {
    hide AfterPolicyArrives, FirstPolicyArrives, Enrol, ArrivedPolicies, BooksOk, Entry, Proper, InPlace,
      HasDenseMesh, QueuesRouted, NobodyPlaced, QueuesFit;
    var g := Enrol(w.policies, id, atom, size).value;
    var s := Enrolled(w, id, g, now);
    CompletedFacts(w, id, atom, size, now);
    CompletedOrder(w, id, g, now);
    OrderGrows(w, id);
    CompletedRanks(w, s, id);
    if Arrived(g[id]) {
      EnrolledFacts(w, id, g, now);
      IsArrived(s, id);
      PolicyArrivesMesh(c, w, s, id, atom, size, now);
    } else {
      IncompleteSeated(c, w, id, g);
      if MeshOk(c, w) {
        IncompleteMesh(c, w, id, g);
      }
    }
  }

  lemma IsArrived(w: World, id: nat)
    requires id in w.policies && id in w.policyOrder && Arrived(w.policies[id])
    ensures id in ArrivedPolicies(w) && ArrivedPolicies(w) != []
  {
  }

  lemma PolicyArrivesMesh(c: Config, w: World, s: World, id: nat, atom: nat, size: nat, now: int)
    requires Enrol(w.policies, id, atom, size).Some? && RegisterPolicy(c, w, id, atom, size, now).Some?
    requires var g := Enrol(w.policies, id, atom, size).value; Arrived(g[id]) && s == Enrolled(w, id, g, now)
    requires id in s.policies && Distinct(s.policyOrder) && RanksOfArrived(s) && (!s.policyReady ==> NobodyPlaced(s))
    requires ArrivedPolicies(s) != []
    ensures MeshOk(c, RegisterPolicy(c, w, id, atom, size, now).value)
  {
    hide AfterPolicyArrives, FirstPolicyArrives, Enrol, ArrivedPolicies, MeshOk, InPlace, NobodyPlaced,
      RanksOfArrived, Distinct;
    if |ArrivedPolicies(s)| == 1 {
      var f := FirstPolicyArrives(s, id);
      FirstPolicyInPlace(s, id);
      InPlaceParts(s, f, id);
      AfterPolicyMesh(c, f, id);
    } else {
      AfterPolicyMesh(c, s, id);
    }
  }

  lemma InPlaceParts(w: World, v: World, id: nat)
    requires InPlace(w, v) && id in w.policies && Distinct(w.policyOrder) && RanksOfArrived(w) && (!w.policyReady ==> NobodyPlaced(w))
    ensures id in v.policies && Distinct(v.policyOrder) && RanksOfArrived(v) && (!v.policyReady ==> NobodyPlaced(v))
    ensures ArrivedPolicies(v) == ArrivedPolicies(w)
  {
    hide Routed, LastMesh;
    UnmovedArrived(w.policies, v.policies, w.policyOrder);
    forall i | i in v.policies
      ensures v.policies[i].rank == w.policies[i].rank && (Arrived(v.policies[i]) <==> Arrived(w.policies[i]))
    {
      assert Unmoved(w.policies[i], v.policies[i]);
    }
  }

  /** A departure at any time. */
  lemma UnregisterPolicySeated(c: Config, w: World, id: nat)
    requires Ledger(c, w) && Seated(c, w) && UnregisterPolicy(c, w, id).Some?
    ensures Seated(c, UnregisterPolicy(c, w, id).value)
  {
    hide BooksOk, Entry, RebuildPolicyMesh, Distinct;
    var u := w.(policies := w.policies - {id}, policyOrder := Without(w.policyOrder, id));
    WithoutDistinct(w.policyOrder, id);
    FewerArrived(w.policies, w.policyOrder, id);
    if ArrivedPolicies(u) != [] && w.policyReady {
      RebuildMakesMesh(c, u);
    }
  }

  lemma {:induction false} FewerArrived(g: Group, order: seq<nat>, id: nat)
    ensures |ArrivedIn(g - {id}, Without(order, id))| <= |ArrivedIn(g, order)|
  {
    if order != [] {
      var front, last := order[..|order| - 1], order[|order| - 1];
      FewerArrived(g, front, id);
      if last != id {
        assert (Without(front, id) + [last])[..|Without(front, id)|] == Without(front, id);
      }
    }
  }

  /** A replica leaves while steps are left: the others are ranked anew. */
  lemma UnregisterPolicyMesh(c: Config, w: World, id: nat)
    requires Ledger(c, w) && MeshOk(c, w) && !Finished(w) && UnregisterPolicy(c, w, id).Some?
    ensures MeshOk(c, UnregisterPolicy(c, w, id).value)
  {
    hide BooksOk, Entry, RebuildPolicyMesh, Placed, Routed, ArrivedPolicies, Seated;
    UnregisterPolicySeated(c, w, id);
    SeatedParts(c, w);
    var u := w.(policies := w.policies - {id}, policyOrder := Without(w.policyOrder, id));
    WithoutDistinct(w.policyOrder, id);
    assert Proper(w.policies[id]);
    if w.policyReady {
      var order :| Dense(w, order);
      DenseArrived(w, order);
      assert Placed(w.policies[id], order, id);
      PlacedHasRank(w.policies[id], order, id);
      if ArrivedPolicies(u) == [] {
        assert Dense(u, []);
      } else {
        RebuildMakesMesh(c, u);
      }
    }
  }

  lemma SeatedParts(c: Config, w: World)
    requires Seated(c, w)
    ensures Distinct(w.policyOrder) && RanksOfArrived(w) && (!w.policyReady ==> NobodyPlaced(w))
  {
  }

  lemma PlacedHasRank(r: Replica, order: seq<nat>, id: nat)
    requires Placed(r, order, id)
    ensures r.rank.Some?
  {
  }

  // ---------- every run ----------

  /** Regular events, and no policy replica leaves after training has finished. */
  predicate Standing(w: World, e: Event) {
    Regular(w, e) && (e.PolicyGone? ==> !Finished(w))
  }

  lemma EventMesh(c: Config, w: World, e: Event)
    requires ValidConfig(c) && Ledger(c, w) && MeshOk(c, w) && Standing(w, e) && After(c, w, e).Some?
    ensures MeshOk(c, After(c, w, e).value)
  {
    hide Ledger, MeshOk, InPlace, RegisterPolicy, UnregisterPolicy, RegisterRollout, UnregisterRollout, PutGroup,
      TrainAck, RolloutEnd, Unreported;
    match e
    case PolicyAtom(id, atom, size, now) =>
      MeshIsSeated(c, w);
      RegisterPolicySeated(c, w, id, atom, size, now);
    case PolicyGone(id) => UnregisterPolicyMesh(c, w, id);
    case RolloutAtom(id, atom, size, now) =>
      RegisterRolloutInPlace(w, id, atom, size, now);
      InPlaceMesh(c, w, After(c, w, e).value);
    case RolloutGone(id) =>
      UnregisterRolloutInPlace(w, id);
      InPlaceMesh(c, w, After(c, w, e).value);
    case PromptsOut(samples) =>
      StayInPlace(w, After(c, w, e).value);
      InPlaceMesh(c, w, After(c, w, e).value);
    case GroupIn(xs) =>
      GroupInPlace(c, w, xs);
      InPlaceMesh(c, w, After(c, w, e).value);
    case AckIn(id, step, lastStep) =>
      AckInPlace(c, w, id, step, lastStep);
      InPlaceMesh(c, w, After(c, w, e).value);
    case EndIn(id) =>
      EndInPlace(c, w, id);
      InPlaceMesh(c, w, After(c, w, e).value);
  }

  lemma MeshIsSeated(c: Config, w: World)
    requires MeshOk(c, w)
    ensures Seated(c, w)
  {
  }

  /** Every regular event, departures at any time among them. */
  lemma EventSeated(c: Config, w: World, e: Event)
    requires ValidConfig(c) && Ledger(c, w) && Seated(c, w) && Regular(w, e) && After(c, w, e).Some?
    ensures Seated(c, After(c, w, e).value)
  {
    hide Ledger, Seated, InPlace, RegisterPolicy, UnregisterPolicy, RegisterRollout, UnregisterRollout, PutGroup,
      TrainAck, RolloutEnd, Unreported;
    var v := After(c, w, e).value;
    match e
    case PolicyAtom(id, atom, size, now) => RegisterPolicySeated(c, w, id, atom, size, now);
    case PolicyGone(id) => UnregisterPolicySeated(c, w, id);
    case RolloutAtom(id, atom, size, now) =>
      RegisterRolloutInPlace(w, id, atom, size, now);
      InPlaceSeated(c, w, v);
    case RolloutGone(id) =>
      UnregisterRolloutInPlace(w, id);
      InPlaceSeated(c, w, v);
    case PromptsOut(samples) =>
      StayInPlace(w, v);
      InPlaceSeated(c, w, v);
    case GroupIn(xs) =>
      GroupInPlace(c, w, xs);
      InPlaceSeated(c, w, v);
    case AckIn(id, step, lastStep) =>
      AckInPlace(c, w, id, step, lastStep);
      InPlaceSeated(c, w, v);
    case EndIn(id) =>
      EndInPlace(c, w, id);
      InPlaceSeated(c, w, v);
  }

  lemma {:induction false} RunSeated(c: Config, w: World, events: seq<Event>)
    requires ValidConfig(c) && Ledger(c, w) && Seated(c, w) && RegularRun(c, w, events)
    ensures CanRun(c, w, events) && Ledger(c, Run(c, w, events)) && Seated(c, Run(c, w, events))
    decreases |events|
  {
    hide Ledger, Seated, After, Regular;
    if events != [] {
      EventLedger(c, w, events[0]);
      EventSeated(c, w, events[0]);
      RunSeated(c, After(c, w, events[0]).value, events[1..]);
    }
  }

  ghost predicate StandingRun(c: Config, w: World, events: seq<Event>)
    requires ValidConfig(c)
    decreases |events|
  {
    events == [] || (Standing(w, events[0]) && After(c, w, events[0]).Some? && StandingRun(c, After(c, w, events[0]).value, events[1..]))
  }

  lemma {:induction false} RunMesh(c: Config, w: World, events: seq<Event>)
    requires ValidConfig(c) && Ledger(c, w) && MeshOk(c, w) && StandingRun(c, w, events)
    ensures CanRun(c, w, events) && Ledger(c, Run(c, w, events)) && MeshOk(c, Run(c, w, events))
    decreases |events|
  {
    hide Ledger, MeshOk, After, Regular;
    if events != [] {
      EventLedger(c, w, events[0]);
      EventMesh(c, w, events[0]);
      RunMesh(c, After(c, w, events[0]).value, events[1..]);
    }
  }

  /** After any interleaving of arrivals, departures, reports and rollouts: once initialised, the arrived
      policy replicas hold the ranks 0 to n - 1, one each, and each was last told exactly that mesh; dispatching
      by rank there are n queues, and every rollout is in the one of its prompt. */
  lemma MeshStaysDense(c: Config, policyInit: nat, rolloutInit: nat, step: int, remain: int, events: seq<Event>)
    requires ValidConfig(c) && 0 <= step && StandingRun(c, Opening(policyInit, rolloutInit, step, remain), events)
    ensures CanRun(c, Opening(policyInit, rolloutInit, step, remain), events)
    ensures var w := Run(c, Opening(policyInit, rolloutInit, step, remain), events);
            w.policyReady ==> HasDenseMesh(w) && QueuesRouted(c, w)
  {
    OpeningLedger(c, policyInit, rolloutInit, step, remain);
    OpeningMesh(c, policyInit, rolloutInit, step, remain);
    hide Ledger;
    RunMesh(c, Opening(policyInit, rolloutInit, step, remain), events);
  }

  /** A step never runs into a missing queue: with rollouts, starting one cannot raise. */
  lemma TriggerHasQueues(c: Config, w: World)
    requires Ledger(c, w) && Seated(c, w)
    ensures TryTrigger(c, w, false).Some?
  {
    hide BooksOk, Entry, Distinct, RanksOfArrived, NobodyPlaced, Launch, DispatchShared, DispatchByRank;
    if Triggers(c, w, false) {
      NotFakedBefore(c, w, false);
      var first := ArrivedPolicies(w)[0];
      assert first in ArrivedPolicies(w);
      assert Proper(w.policies[first]);
      assert w.policyReady;
    }
  }

  /** The mesh of a dense world, stated by ranks: each rank below n belongs to exactly one arrived replica. */
  lemma DenseRanks(w: World, order: seq<nat>, k: nat)
    requires Dense(w, order) && k < |ArrivedPolicies(w)|
    ensures exists id :: id in ArrivedPolicies(w) && w.policies[id].rank == Some(k)
    ensures forall a, b :: a in ArrivedPolicies(w) && b in ArrivedPolicies(w) && w.policies[a].rank == w.policies[b].rank ==> a == b
    ensures forall id :: id in ArrivedPolicies(w) ==>
      w.policies[id].rank.Some? && LastMesh(w.policies[id].stream).Some? && id in LastMesh(w.policies[id].stream).value &&
      w.policies[id].rank.value == LastMesh(w.policies[id].stream).value[id] < |ArrivedPolicies(w)|
  {
    hide LastMesh;
    forall id
      ensures id in order <==> id in ArrivedPolicies(w)
    {
      assert id in AsSet(order) <==> id in AsSet(ArrivedPolicies(w));
    }
    assert order[k] in order && Placed(w.policies[order[k]], order, order[k]);
    forall a, b | a in order && b in order && w.policies[a].rank == w.policies[b].rank
      ensures a == b
    {
      assert Placed(w.policies[a], order, a) && Placed(w.policies[b], order, b);
    }
    forall id | id in order
      ensures w.policies[id].rank == Some(IndexOf(order, id)) && LastMesh(w.policies[id].stream) == Some(MeshOf(order))
    {
      assert Placed(w.policies[id], order, id);
    }
  }
}
