/** The weight-loading protocol: nobody trains on, sends or incrementally updates weights it was never given. */
module ControllerWeights {
  import opened Arithmetic
  import opened Common
  import opened ControllerModel
  import opened ControllerFlow
  import opened ControllerQueues
  import opened ControllerLedger
  import opened ControllerMesh
  import opened ControllerLoads

  // ---------- what a command gives and needs ----------

  /** Gives a policy replica all weights. */
  predicate GivesPolicy(id: nat, cmd: Command) {
    match cmd
    case WeightResume => true
    case PolicyBroadcast(_, dsts, _) => id in dsts
    case PolicyUnicast(_, dst, _) => dst == id
    case _ => false
  }

  /** Has a policy replica send weights, or train on them. */
  predicate NeedsPolicy(id: nat, cmd: Command) {
    match cmd
    case PolicyBroadcast(src, _, _) => src == id
    case PolicyUnicast(src, _, _) => src == id
    case PolicyToRollout(src, _, _, _, _) => src == id
    case DataFetch(_, _, _, _) => true
    case _ => false
  }

  /** Gives a rollout replica all weights, not only the trainable ones. */
  predicate GivesRollout(id: nat, cmd: Command) {
    match cmd
    case PolicyToRollout(_, dst, trainableOnly, _, _) => dst == id && !trainableOnly
    case RolloutBroadcast(_, dsts, trainableOnly, _, _) => id in dsts && !trainableOnly
    case _ => false
  }

  /** Has a rollout replica send weights, or updates only its trainable ones. */
  predicate NeedsRollout(id: nat, cmd: Command) {
    match cmd
    case PolicyToRollout(_, dst, trainableOnly, _, _) => dst == id && trainableOnly
    case RolloutBroadcast(src, dsts, trainableOnly, _, _) => src == id || (id in dsts && trainableOnly)
    case _ => false
  }

  predicate Gave(policy: bool, id: nat, stream: seq<Command>) {
    stream != [] && (Gave(policy, id, stream[..|stream| - 1]) || Gives(policy, id, stream[|stream| - 1]))
  }

  predicate Gives(policy: bool, id: nat, cmd: Command) {
    if policy then GivesPolicy(id, cmd) else GivesRollout(id, cmd)
  }

  predicate Needs(policy: bool, id: nat, cmd: Command) {
    if policy then NeedsPolicy(id, cmd) else NeedsRollout(id, cmd)
  }

  /** Whatever in a stream needs weights comes after something that gave them. */
  predicate SoundStream(policy: bool, id: nat, stream: seq<Command>) {
    forall k :: 0 <= k < |stream| && Needs(policy, id, stream[k]) ==> Gave(policy, id, stream[..k])
  }

  /** A sound stream; and a replica is regarded as loaded exactly if it was given its weights in it. */
  predicate Fine(policy: bool, id: nat, r: Replica) {
    SoundStream(policy, id, r.stream) && (r.loaded <==> Gave(policy, id, r.stream))
  }

  predicate AllFine(policy: bool, g: Group) {
    forall id :: id in g ==> Fine(policy, id, g[id])
  }

  lemma SoundAppend(policy: bool, id: nat, stream: seq<Command>, cmd: Command)
    requires SoundStream(policy, id, stream) && (Needs(policy, id, cmd) ==> Gave(policy, id, stream))
    ensures SoundStream(policy, id, stream + [cmd])
    ensures Gave(policy, id, stream + [cmd]) <==> Gave(policy, id, stream) || Gives(policy, id, cmd)
  {
    hide Needs, Gives, Gave;
    var t := stream + [cmd];
    forall k | 0 <= k < |t| && Needs(policy, id, t[k])
      ensures Gave(policy, id, t[..k])
    {
      assert t[..k] == stream[..k];
      if k == |stream| { assert stream[..k] == stream; }
    }
    GaveAppend(policy, id, stream, cmd);
  }

  lemma GaveAppend(policy: bool, id: nat, stream: seq<Command>, cmd: Command)
    ensures Gave(policy, id, stream + [cmd]) <==> Gave(policy, id, stream) || Gives(policy, id, cmd)
  {
    assert (stream + [cmd])[..|stream|] == stream;
  }

  /** Publishing: what needs weights, or gives them, goes to loaded replicas only. */
  lemma TellFine(policy: bool, g: Group, ids: set<nat>, cmd: Command)
    requires AllFine(policy, g)
    requires forall id :: id in ids && id in g && (Needs(policy, id, cmd) || Gives(policy, id, cmd)) ==> g[id].loaded
    ensures AllFine(policy, Tell(g, ids, cmd))
  {
    hide SoundStream, Gave, Needs, Gives;
    forall id | id in g
      ensures Fine(policy, id, Tell(g, ids, cmd)[id])
    {
      assert Fine(policy, id, g[id]);
      if id in ids { SoundAppend(policy, id, g[id].stream, cmd); }
    }
  }

  /** Loading: the command gives the weights, or the replica had them. */
  lemma LoadFine(policy: bool, g: Group, ids: set<nat>, cmd: Command)
    requires AllFine(policy, g) && forall id :: id in ids && id in g && Needs(policy, id, cmd) ==> g[id].loaded
    requires forall id :: id in ids && id in g ==> g[id].loaded || Gives(policy, id, cmd)
    ensures AllFine(policy, Load(g, ids, cmd))
  {
    hide SoundStream, Gave, Needs, Gives;
    forall id | id in g
      ensures Fine(policy, id, Load(g, ids, cmd)[id])
    {
      assert Fine(policy, id, g[id]);
      if id in ids { SoundAppend(policy, id, g[id].stream, cmd); }
    }
  }

  lemma MeshFine(policy: bool, g: Group, order: seq<nat>)
    requires AllFine(policy, g)
    ensures AllFine(policy, BuildMeshIn(g, order))
  {
    hide SoundStream, Gave;
    forall id | id in g
      ensures Fine(policy, id, BuildMeshIn(g, order)[id])
    {
      assert Fine(policy, id, g[id]);
      SoundAppend(policy, id, g[id].stream, BuildMesh(MeshOf(order)));
    }
  }

  lemma StatusFine(policy: bool, g: Group, ids: set<nat>, s: Status)
    requires AllFine(policy, g)
    ensures AllFine(policy, SetStatus(g, ids, s))
  {
    hide SoundStream, Gave;
    forall id | id in g
      ensures Fine(policy, id, SetStatus(g, ids, s)[id])
    {
      assert Fine(policy, id, g[id]);
    }
  }

  lemma NewFine(policy: bool, id: nat, size: nat, atom: nat)
    ensures Fine(policy, id, NewReplica(size, atom))
  {
  }

  // ---------- the invariant ----------

  /** Ready, training or done with a step. */
  predicate Active(r: Replica) {
    r.status.Some? && r.status.value != Uninitialized
  }

  /** The flags are in order, and all active replicas are loaded. */
  predicate LoadsOk(w: World) {
    FlagsOk(w) && ActiveLoaded(w)
  }

  predicate ActiveLoaded(w: World) {
    forall id :: id in w.policies && Active(w.policies[id]) ==> w.policies[id].loaded
  }

  predicate WeightsOk(w: World) {
    AllFine(true, w.policies) && AllFine(false, w.rollouts) && LoadsOk(w)
  }

  lemma OpeningWeights(policyInit: nat, rolloutInit: nat, step: int, remain: int)
    ensures WeightsOk(Opening(policyInit, rolloutInit, step, remain))
  {
  }

  /** Arrivals stay as they are, nobody loses its weights, and only loaded replicas become active. */
  predicate StillLoaded(w: World, v: World) {
    && v.policyOrder == w.policyOrder && v.policies.Keys == w.policies.Keys && v.policyReady == w.policyReady && v.resumed == w.resumed
    && forall id :: id in w.policies ==> SameLoad(w.policies[id], v.policies[id])
  }

  predicate SameLoad(r: Replica, t: Replica) {
    (Arrived(t) <==> Arrived(r)) && t.loaded == r.loaded && (Active(t) ==> Active(r) || r.loaded)
  }

  lemma StillLoadsOk(w: World, v: World)
    requires StillLoaded(w, v) && LoadsOk(w)
    ensures LoadsOk(v) && ArrivedPolicies(v) == ArrivedPolicies(w)
  {
    assert forall id :: id in w.policies ==> SameLoad(w.policies[id], v.policies[id]);
    ArrivedSame(w.policies, v.policies, w.policyOrder);
  }

  // ---------- sending weights to rollouts ----------

  lemma SendWeights(w: World, src: nat, dst: nat, weightStep: Option<int>, lastStep: Option<int>)
    requires WeightsOk(w) && src in w.policies && w.policies[src].loaded && dst in w.rollouts
    ensures var v := SendPolicyToRollout(w, src, dst, weightStep, lastStep);
            && WeightsOk(v) && StillLoaded(w, v) && v.rollouts.Keys == w.rollouts.Keys && v.rollouts[dst].loaded
            && (forall id :: id in w.rollouts ==> v.rollouts[id].rank == w.rollouts[id].rank)
  {
    hide SoundStream, Gave;
    var cmd := PolicyToRollout(src, dst, w.rollouts[dst].loaded, weightStep, lastStep);
    TellFine(true, w.policies, {src}, cmd);
    LoadFine(false, w.rollouts, {dst}, cmd);
    StillLoadsOk(w, SendPolicyToRollout(w, src, dst, weightStep, lastStep));
  }

  lemma BroadcastWeights(w: World, src: nat, dsts: set<nat>, weightStep: Option<int>, lastStep: Option<int>)
    requires WeightsOk(w) && src in w.rollouts && w.rollouts[src].loaded
    ensures var v := BroadcastToRollouts(w, src, dsts, weightStep, lastStep);
            WeightsOk(v) && StillLoaded(w, v)
  {
    hide SoundStream, Gave;
    var v := BroadcastToRollouts(w, src, dsts, weightStep, lastStep);
    if w.rollouts[src].rank.Some? {
      var cmd := RolloutBroadcast(src, dsts, AllLoaded(w.rollouts, dsts), weightStep, lastStep);
      LoadFine(false, w.rollouts, MeshMembers(w.rollouts, dsts), cmd);
    }
    StillLoadsOk(w, v);
  }

  lemma SyncWeightsOk(c: Config, w: World, step: int, lastStep: int)
    requires ValidConfig(c) && WeightsOk(w) && LoadedIds(w.policies, ArrivedPolicies(w))
    ensures WeightsOk(SyncIfDue(c, w, step, lastStep)) && StillLoaded(w, SyncIfDue(c, w, step, lastStep))
  {
    hide AllFine, SendPolicyToRollout, BroadcastToRollouts, ArrivedRollouts, StillLoaded;
    SelfLoaded(w);
    var src := SortByStart(w.policies, ArrivedPolicies(w));
    var ids := SortByStart(w.rollouts, ArrivedRollouts(w));
    RolloutsKnown(w);
    if src != [] && ids != [] {
      assert src[0] in src && ids[0] in ids;
      SendWeights(w, src[0], ids[0], Some(step), Some(lastStep));
      var s := SendPolicyToRollout(w, src[0], ids[0], Some(step), Some(lastStep));
      BroadcastWeights(s, ids[0], AsSet(ids), Some(step), Some(lastStep));
      LoadedTransitive(w, s, BroadcastToRollouts(s, ids[0], AsSet(ids), Some(step), Some(lastStep)));
    }
  }

  lemma SelfLoaded(w: World)
    ensures StillLoaded(w, w)
  {
  }

  lemma LoadedTransitive(a: World, b: World, d: World)
    requires StillLoaded(a, b) && StillLoaded(b, d)
    ensures StillLoaded(a, d)
  {
    forall id | id in a.policies
      ensures SameLoad(a.policies[id], d.policies[id])
    {
      assert SameLoad(a.policies[id], b.policies[id]) && SameLoad(b.policies[id], d.policies[id]);
    }
  }

  // ---------- training ----------

  predicate AllArrivedLoaded(w: World) {
    LoadedIds(w.policies, ArrivedPolicies(w))
  }

  /** Fetches go to loaded replicas only: all are active, or it is the extra fetch and all arrived are loaded. */
  lemma TriggerWeights(c: Config, w: World, fake: bool)
    requires AccountsOk(c, w) && WeightsOk(w) && TryTrigger(c, w, fake).Some? && (fake ==> AllArrivedLoaded(w))
    ensures WeightsOk(TryTrigger(c, w, fake).value)
  {
    hide TryTrigger, Gave, SoundStream, Entry, AllStatus, Enough, ArrivedPolicies;
    if Triggers(c, w, fake) {
      var v := TryTrigger(c, w, fake).value;
      TriggerReplicas(c, w, fake);
      TriggerFaked(c, w, fake);
      TriggerRollouts(c, w, fake);
      if !fake { AllActive(c, w, {Ready, Reduced}); }
      ArrivedKnown(w);
      forall id | id in v.policies
        ensures Fine(true, id, v.policies[id]) && SameLoad(w.policies[id], v.policies[id])
      {
        assert Fine(true, id, w.policies[id]);
        if id in ArrivedPolicies(w) {
          assert IsServed(w.policies[id], v.policies[id], FetchOf(c, w, fake));
          SoundAppend(true, id, w.policies[id].stream, FetchOf(c, w, fake));
        }
      }
      StillLoadsOk(w, v);
    } else {
      NoTrigger(c, w, fake);
    }
  }

  /** When all statuses are active ones, all arrived replicas are loaded. */
  lemma AllActive(c: Config, w: World, statuses: set<Status>)
    requires AccountsOk(c, w) && WeightsOk(w) && AllStatus(w, statuses) && Uninitialized !in statuses
    ensures AllArrivedLoaded(w)
  {
    hide Fine, Entry;
    forall id | id in ArrivedPolicies(w) && id in w.policies
      ensures w.policies[id].loaded
    {
      assert Proper(w.policies[id]);
      assert Active(w.policies[id]);
    }
  }

  lemma TriggerRollouts(c: Config, w: World, fake: bool)
    requires Triggers(c, w, fake) && TryTrigger(c, w, fake).Some?
    ensures TryTrigger(c, w, fake).value.rollouts == w.rollouts && TryTrigger(c, w, fake).value.resumed == w.resumed
  {
    hide Triggers, Deal, DealByRank, Served, SortedQueues, DealtByRank, Fetch, FetchOf;
  }

  /** Nothing about weights changed. */
  predicate SameWeights(w: World, v: World) {
    && v.policies == w.policies && v.rollouts == w.rollouts && v.policyOrder == w.policyOrder
    && v.policyReady == w.policyReady && v.resumed == w.resumed
  }

  lemma SameWeightsOk(w: World, v: World)
    requires SameWeights(w, v) && WeightsOk(w)
    ensures WeightsOk(v)
  {
    hide Fine;
  }

  lemma BufferWeights(c: Config, w: World, x: Rollout)
    requires WeightsOk(w) && Buffer(c, w, x).Some?
    ensures WeightsOk(Buffer(c, w, x).value)
  {
    hide WeightsOk;
    SameWeightsOk(w, Buffer(c, w, x).value);
  }

  lemma LedgerAccounts(c: Config, w: World)
    requires Ledger(c, w)
    ensures AccountsOk(c, w)
  {
  }

  lemma {:induction false} PutEachWeights(c: Config, w: World, xs: seq<Rollout>)
    requires ValidConfig(c) && Ledger(c, w) && WeightsOk(w) && PutEach(c, w, xs).Some?
    ensures WeightsOk(PutEach(c, w, xs).value)
    decreases |xs|
  {
    hide WeightsOk, Ledger, TryTrigger, Buffer;
    if xs != [] {
      BufferWeights(c, w, xs[0]);
      BufferLedger(c, w, xs[0]);
      var b := Buffer(c, w, xs[0]).value;
      LedgerAccounts(c, b);
      TriggerWeights(c, b, false);
      TriggerLedger(c, b, false);
      var p := PutRollout(c, w, xs[0]).value;
      if c.onPolicy && Pending(c, p) == 0 {
        SameWeightsOk(p, p.(stepSampled := true));
      } else {
        PutEachWeights(c, p, xs[1..]);
      }
    }
  }

  lemma GroupWeights(c: Config, w: World, xs: seq<Rollout>)
    requires ValidConfig(c) && Ledger(c, w) && WeightsOk(w) && PutGroup(c, w, xs).Some?
    ensures WeightsOk(PutGroup(c, w, xs).value)
  {
    hide WeightsOk, Ledger, PutEach;
    var kept := FreshOnes(c, w, xs);
    var p := w.(remain := w.remain - (|xs| - |kept|));
    SameWeightsOk(w, p);
    SameRecordsLedger(c, w, p);
    if c.onPolicy && p.stepSampled {
      SameWeightsOk(p, p.(remain := p.remain - |kept|));
    } else {
      PutEachWeights(c, p, kept);
    }
  }

  /** Who was sent a fetch was given weights before. */
  lemma FetchedIsLoaded(id: nat, r: Replica)
    requires Fine(true, id, r) && 0 < Fetches(r.stream)
    ensures r.loaded
  {
    var k := SomeFetch(r.stream);
    assert NeedsPolicy(id, r.stream[k]);
    GavePrefix(true, id, r.stream, k);
  }

  lemma {:induction false} SomeFetch(stream: seq<Command>) returns (k: nat)
    requires 0 < Fetches(stream)
    ensures k < |stream| && stream[k].DataFetch?
  {
    k := |stream| - 1;
    if !stream[k].DataFetch? { k := SomeFetch(stream[..k]); }
  }

  lemma {:induction false} GavePrefix(policy: bool, id: nat, stream: seq<Command>, k: nat)
    requires k <= |stream| && Gave(policy, id, stream[..k])
    ensures Gave(policy, id, stream)
  {
    if k < |stream| {
      assert stream[..|stream| - 1][..k] == stream[..k];
      GavePrefix(policy, id, stream[..|stream| - 1], k);
    } else {
      assert stream[..k] == stream;
    }
  }

  lemma AckedWeights(w: World, id: nat)
    requires WeightsOk(w) && Unreported(w, id)
    ensures WeightsOk(Acked(w, id)) && Acked(w, id).policyReady == w.policyReady
  {
    hide SoundStream, Gave;
    var a := Acked(w, id);
    assert Fine(true, id, w.policies[id]);
    FetchedIsLoaded(id, w.policies[id]);
    assert StillLoaded(w, a);
    StillLoadsOk(w, a);
    forall i | i in a.policies
      ensures Fine(true, i, a.policies[i])
    {
      assert Fine(true, i, w.policies[i]);
    }
  }

  lemma DoneWeights(c: Config, a: World)
    requires AccountsOk(c, a) && WeightsOk(a) && AllStatus(a, {Reduced})
    ensures WeightsOk(StepDone(c, a)) && AllArrivedLoaded(StepDone(c, a))
  {
    hide Fine, Entry;
    AllActive(c, a, {Reduced});
    StatusFine(true, a.policies, AsSet(ArrivedPolicies(a)), Ready);
    StillLoadsOk(a, StepDone(c, a));
  }

  lemma AckWeights(c: Config, w: World, id: nat, step: int, lastStep: int)
    requires ValidConfig(c) && Ledger(c, w) && WeightsOk(w) && Unreported(w, id) && TrainAck(c, w, id, step, lastStep).Some?
    ensures WeightsOk(TrainAck(c, w, id, step, lastStep).value)
  {
    hide WeightsOk, BooksOk, StagesOk, AccountsOk, AllStatus, SyncIfDue, StepDone, TryTrigger, Acked, Alike;
    var a := Acked(w, id);
    AckedLedger(c, w, id);
    AckedWeights(w, id);
    if AllStatus(a, {Reduced}) {
      var b := StepDone(c, a);
      DoneAlike(c, a);
      DoneWeights(c, a);
      SyncWeightsOk(c, b, step, lastStep);
      var s := SyncIfDue(c, b, step, lastStep);
      SyncAlike(c, b, step, lastStep);
      AlikeTransitive(c, a, b, s);
      AlikeLog(c, a, s);
      AlikeLedger(c, a, s);
      TriggerWeights(c, s, false);
      var t := TryTrigger(c, s, false).value;
      SameWeightsOk(t, t.(stepSampled := false));
    }
  }

  lemma RolloutsFineEnded(w: World, id: nat)
    requires WeightsOk(w)
    ensures WeightsOk(MarkEnded(w, id))
  {
    hide SoundStream, Gave;
    var e := MarkEnded(w, id);
    assert StillLoaded(w, e);
    StillLoadsOk(w, e);
    forall i | i in e.rollouts
      ensures Fine(false, i, e.rollouts[i])
    {
      assert Fine(false, i, w.rollouts[i]);
    }
  }

  /** The extra last fetch is issued while some arrived policy replica has not been given any weights. */
  predicate TooEarly(c: Config, w: World, e: Event) {
    IssuesExtra(c, w, e) && !AllArrivedLoaded(w)
  }

  lemma EndWeights(c: Config, w: World, id: nat)
    requires ValidConfig(c) && Ledger(c, w) && WeightsOk(w) && RolloutEnd(c, w, id).Some? && !TooEarly(c, w, EndIn(id))
    ensures WeightsOk(RolloutEnd(c, w, id).value)
  {
    hide WeightsOk, Ledger, Conclude, ConcludesWithExtra;
    var e := MarkEnded(w, id);
    RolloutsFineEnded(w, id);
    SameRecordsLedger(c, w, e);
    EndedArrivedLoaded(w, id);
    if AllEnded(e) {
      ConcludeWeights(c, e);
    }
  }

  lemma EndedArrivedLoaded(w: World, id: nat)
    ensures AllArrivedLoaded(MarkEnded(w, id)) <==> AllArrivedLoaded(w)
  {
  }

  lemma ConcludeWeights(c: Config, w: World)
    requires ValidConfig(c) && Ledger(c, w) && WeightsOk(w) && Conclude(c, w).Some?
    requires ConcludesWithExtra(c, w) ==> AllArrivedLoaded(w)
    ensures WeightsOk(Conclude(c, w).value)
  {
    hide WeightsOk, BooksOk, AccountsOk, TryTrigger, Recompute, AllArrivedLoaded;
    var t := Recompute(c, w, Pending(c, w));
    RecomputeRecords(c, w, Pending(c, w));
    RecomputeWeights(c, w, Pending(c, w));
    SameRecordsLedger(c, w, t);
    SameWeightsOk(w, t);
    if !(t.total > t.step || t.step == w.total) {
      NotFakedAtEnd(w, t);
      CurtailedLedger(c, t);
      SameWeightsOk(t, Curtailed(t));
      SameArrivedLoaded(w, t);
      TriggerWeights(c, Curtailed(t), true);
    }
  }

  lemma SameArrivedLoaded(w: World, t: World)
    requires SameWeights(w, t)
    ensures AllArrivedLoaded(Curtailed(t)) <==> AllArrivedLoaded(w)
  {
  }

  lemma RecomputeWeights(c: Config, w: World, remaining: int)
    ensures SameWeights(w, Recompute(c, w, remaining))
  {
  }

  // ---------- rollout replicas come and go ----------

  lemma GreetWeights(w: World, id: nat)
    requires id in w.rollouts && WeightsOk(w)
    ensures WeightsOk(GreetRollout(w, id)) && GreetRollout(w, id).rollouts.Keys == w.rollouts.Keys
  {
    hide AllFine, SendPolicyToRollout, ArrivedRollouts, SortByStart, LoadsOk;
    var src := FirstLoaded(w.policies, SortByStart(w.policies, w.policyOrder));
    if src.Some? {
      SendWeights(w, src.value, id, None, None);
    }
  }

  lemma RebuiltRolloutsFine(w: World)
    requires WeightsOk(w)
    ensures WeightsOk(RebuildRolloutMesh(w)) && WeightsOk(RebuildRolloutMesh(w.(rolloutReady := true)))
  {
    hide Fine;
    var v := RebuildRolloutMesh(w);
    MeshFine(false, w.rollouts, SortByStart(w.rollouts, ArrivedRollouts(w)));
    StillLoadsOk(w, v);
    var r := w.(rolloutReady := true);
    assert ArrivedRollouts(r) == ArrivedRollouts(w);
    StillLoadsOk(w, RebuildRolloutMesh(r));
  }

  lemma InitRolloutWeights(w: World)
    requires WeightsOk(w)
    ensures WeightsOk(InitRollouts(w))
  {
    hide WeightsOk, BroadcastToRollouts, ArrivedRollouts, BuildMeshIn;
    var ids := SortByStart(w.rollouts, ArrivedRollouts(w));
    var m := RebuildRolloutMesh(w.(rolloutReady := true));
    RebuiltRolloutsFine(w);
    var first := FirstLoaded(m.rollouts, ids);
    if first.Some? {
      BroadcastWeights(m, first.value, AsSet(ids), Some(m.step), None);
    }
  }

  lemma RolloutArrivalWeights(w: World, id: nat)
    requires id in w.rollouts && WeightsOk(w) && AfterRolloutArrives(w, id).Some?
    ensures WeightsOk(AfterRolloutArrives(w, id).value)
  {
    hide WeightsOk, GreetRollout, ArrivedRollouts, RebuildRolloutMesh, InitRollouts;
    var p := GreetRollout(w, id);
    GreetWeights(w, id);
    InitRolloutWeights(p);
    RebuiltRolloutsFine(p);
  }

  lemma RolloutsChange(w: World, v: World)
    requires WeightsOk(w) && AllFine(false, v.rollouts) && v.policies == w.policies && v.policyOrder == w.policyOrder
    requires v.policyReady == w.policyReady && v.log == w.log && v.resumed == w.resumed
    ensures WeightsOk(v)
  {
    hide Fine;
    StillLoadsOk(w, v);
  }

  lemma EnrolFine(policy: bool, g: Group, id: nat, atom: nat, size: nat)
    requires AllFine(policy, g) && Enrol(g, id, atom, size).Some?
    ensures AllFine(policy, Enrol(g, id, atom, size).value)
  {
    hide SoundStream, Gave;
    NewFine(policy, id, size, atom);
    forall i | i in Enrol(g, id, atom, size).value
      ensures Fine(policy, i, Enrol(g, id, atom, size).value[i])
    {
      if i in g { assert Fine(policy, i, g[i]); }
    }
  }

  lemma StampFine(policy: bool, g: Group, id: nat, now: int)
    requires AllFine(policy, g) && id in g
    ensures AllFine(policy, Stamp(g, id, now)) && Stamp(g, id, now).Keys == g.Keys
  {
    hide SoundStream, Gave;
    forall i | i in Stamp(g, id, now)
      ensures Fine(policy, i, Stamp(g, id, now)[i])
    {
      assert Fine(policy, i, g[i]);
    }
  }

  lemma RegisterRolloutWeights(w: World, id: nat, atom: nat, size: nat, now: int)
    requires WeightsOk(w) && RegisterRollout(w, id, atom, size, now).Some?
    ensures WeightsOk(RegisterRollout(w, id, atom, size, now).value)
  {
    hide Fine, AfterRolloutArrives, Stamp, Enrol, LoadsOk, AllFine;
    var g := Enrol(w.rollouts, id, atom, size).value;
    var n := EnrolRollout(w, id, g);
    EnrolFine(false, w.rollouts, id, atom, size);
    RolloutsChange(w, n);
    if Arrived(g[id]) {
      var s := n.(rollouts := Stamp(n.rollouts, id, now));
      StampFine(false, n.rollouts, id, now);
      RolloutsChange(n, s);
      RolloutArrivalWeights(s, id);
    }
  }

  lemma UnregisterRolloutWeights(w: World, id: nat)
    requires WeightsOk(w) && UnregisterRollout(w, id).Some?
    ensures WeightsOk(UnregisterRollout(w, id).value)
  {
    hide Fine, RebuildRolloutMesh;
    var u := w.(rollouts := w.rollouts - {id}, rolloutOrder := Without(w.rolloutOrder, id));
    RolloutsChange(w, u);
    RebuiltRolloutsFine(u);
  }

  // ---------- policy replicas come and go ----------

  /** What holds of the policies while a replica arrives, though readiness may lag. */
  predicate PoliciesFine(w: World) {
    AllFine(true, w.policies) && AllFine(false, w.rollouts) && LoadedArrived(w) && ActiveLoaded(w)
  }

  lemma RebuiltPoliciesFine(c: Config, w: World)
    requires PoliciesFine(w)
    ensures var v := RebuildPolicyMesh(c, w);
            PoliciesFine(v) && v.policyReady == w.policyReady && v.resumed == w.resumed && SameLoads(w, v)
  {
    hide AllFine, RebuildPolicyMesh, SameLoads, LoadedArrived, ArrivedPolicies, BuildMeshIn;
    RebuildFields(c, w);
    MeshFine(true, w.policies, SortByStart(w.policies, ArrivedPolicies(w)));
    var v := RebuildPolicyMesh(c, w);
    RebuiltFlags(c, w);
    MovedLoads(w, v);
    MovedActive(w, v);
  }

  lemma MovedActive(w: World, v: World)
    requires SameLoads(w, v) && ActiveLoaded(w)
    ensures ActiveLoaded(v)
  {
    assert forall id :: id in w.policies ==> SameStanding(w.policies[id], v.policies[id]);
  }

  lemma LoadAll(w: World, v: World, ids: set<nat>, cmd: Command)
    requires PoliciesFine(w) && v == w.(policies := SetStatus(Load(w.policies, ids, cmd), ids, Ready))
    requires forall id :: id in ids && id in w.policies ==> GivesPolicy(id, cmd) && (NeedsPolicy(id, cmd) ==> w.policies[id].loaded)
    requires forall id :: id in ArrivedPolicies(w) ==> id in ids || w.policies[id].loaded
    requires forall id :: id in ids && id in w.policies ==> Arrived(w.policies[id])
    ensures PoliciesFine(v) && LoadedIds(v.policies, ArrivedPolicies(v))
  {
    hide Fine, AllFine, GivesPolicy, NeedsPolicy;
    LoadFine(true, w.policies, ids, cmd);
    StatusFine(true, Load(w.policies, ids, cmd), ids, Ready);
    LoadedAfter(w, v, ids, cmd);
  }

  lemma LoadedAfter(w: World, v: World, ids: set<nat>, cmd: Command)
    requires LoadedArrived(w) && ActiveLoaded(w) && v == w.(policies := SetStatus(Load(w.policies, ids, cmd), ids, Ready))
    requires forall id :: id in ArrivedPolicies(w) ==> id in ids || w.policies[id].loaded
    requires forall id :: id in ids && id in w.policies ==> Arrived(w.policies[id])
    ensures LoadedArrived(v) && ActiveLoaded(v) && LoadedIds(v.policies, ArrivedPolicies(v))
  {
    hide Load, SetStatus, ArrivedPolicies;
    LoadedFlags(w, v, ids, cmd);
  }

  /** Initialisation: the first loaded replica broadcasts to all; a single one is loaded already. */
  lemma InitPolicyWeights(c: Config, w: World, id: nat)
    requires PoliciesFine(w) && id in w.policies && !w.policyReady && |SortByStart(w.policies, ArrivedPolicies(w))| >= w.policyInit
    requires w.resumed && (ArrivedPolicies(w) == [id] ==> w.policies[id].loaded)
    requires id in ArrivedPolicies(w) && AfterPolicyArrives(c, w, id).Some?
    ensures WeightsOk(AfterPolicyArrives(c, w, id).value)
  {
    hide PoliciesFine, RebuildPolicyMesh, ArrivedPolicies, WeightsOk, LoadedIds;
    var ids := SortByStart(w.policies, ArrivedPolicies(w));
    var r := w.(policyReady := true);
    SameArrivedPolicies(w, r);
    ReadyPoliciesFine(w);
    var m := RebuildPolicyMesh(c, r);
    RebuiltPoliciesFine(c, r);
    SameLoadsArrived(r, m);
    ArrivedMembers(w);
    var v := AfterPolicyArrives(c, w, id).value;
    if |ids| > 1 {
      var cmd := PolicyBroadcast(FirstLoaded(m.policies, ids).value, AsSet(ids), m.total);
      assert forall i :: i in ids ==> SameStanding(r.policies[i], m.policies[i]);
      LoadAll(m, v, AsSet(ids), cmd);
    } else {
      OnlyOne(ArrivedPolicies(w), id);
      assert id in ids && SameStanding(r.policies[id], m.policies[id]);
      ReadyAlone(m, v, id, AsSet(ids));
    }
    ReadyWeights(v, m);
  }

  lemma ReadyPoliciesFine(w: World)
    requires PoliciesFine(w)
    ensures PoliciesFine(w.(policyReady := true))
  {
    hide Fine;
  }

  /** The only arrived replica, loaded already, becomes ready. */
  lemma ReadyAlone(w: World, v: World, id: nat, ids: set<nat>)
    requires PoliciesFine(w) && ArrivedPolicies(w) == [id] && id in w.policies && w.policies[id].loaded && ids <= {id}
    requires v == w.(policies := SetStatus(w.policies, ids, Ready))
    ensures PoliciesFine(v) && LoadedIds(v.policies, ArrivedPolicies(v))
  {
    hide Fine, AllFine;
    StatusFine(true, w.policies, ids, Ready);
    AloneAfter(w, v, id, ids);
  }

  lemma AloneAfter(w: World, v: World, id: nat, ids: set<nat>)
    requires LoadedArrived(w) && ActiveLoaded(w) && ArrivedPolicies(w) == [id] && id in w.policies && w.policies[id].loaded
    requires ids <= {id} && v == w.(policies := SetStatus(w.policies, ids, Ready))
    ensures LoadedArrived(v) && ActiveLoaded(v) && LoadedIds(v.policies, ArrivedPolicies(v))
  {
    ArrivedSame(w.policies, v.policies, w.policyOrder);
  }

  /** Scaling up: a loaded replica sends its weights to the new one. */
  lemma JoinPolicyWeights(c: Config, w: World, id: nat)
    requires PoliciesFine(w) && id in w.policies && w.policyReady && !w.policies[id].loaded && AfterPolicyArrives(c, w, id).Some?
    requires w.resumed && Arrived(w.policies[id])
    requires forall i :: i in ArrivedPolicies(w) && i in w.policies && i != id ==> w.policies[i].loaded
    ensures WeightsOk(AfterPolicyArrives(c, w, id).value)
  {
    hide AllFine, RebuildPolicyMesh, ArrivedPolicies, AfterPolicyArrives, LoadedIds, ActiveLoaded, WeightsOk;
    var src := JoinShape(c, w, id);
    var m := RebuildPolicyMesh(c, w);
    RebuiltPoliciesFine(c, w);
    SameLoadsArrived(w, m);
    assert SameStanding(w.policies[src], m.policies[src]) && SameStanding(w.policies[id], m.policies[id]);
    assert forall i :: i in w.policies ==> SameStanding(w.policies[i], m.policies[i]);
    var cmd := PolicyUnicast(src, id, m.total);
    var t := m.(policies := Tell(m.policies, {src}, cmd));
    TellFine(true, m.policies, {src}, cmd);
    ToldLoads(m, src, cmd);
    ToldActive(m, src, cmd);
    ArrivedKnown(w);
    LoadAll(t, AfterPolicyArrives(c, w, id).value, {id}, cmd);
    ReadyWeights(AfterPolicyArrives(c, w, id).value, t);
  }

  lemma ReadyWeights(v: World, t: World)
    requires t.policyReady && t.resumed && v == t.(policies := v.policies)
    requires PoliciesFine(v) && LoadedIds(v.policies, ArrivedPolicies(v))
    ensures WeightsOk(v)
  {
    hide AllFine, LoadedIds;
  }

  lemma ToldActive(w: World, src: nat, cmd: Command)
    ensures ActiveLoaded(w) ==> ActiveLoaded(w.(policies := Tell(w.policies, {src}, cmd)))
  {
  }

  lemma AfterPolicyWeights(c: Config, w: World, id: nat)
    requires PoliciesFine(w) && id in w.policies && id in ArrivedPolicies(w) && w.resumed
    requires if w.policyReady then !w.policies[id].loaded && forall i :: i in ArrivedPolicies(w) && i in w.policies && i != id ==> w.policies[i].loaded
             else ArrivedPolicies(w) == [id] ==> w.policies[id].loaded
    requires AfterPolicyArrives(c, w, id).Some?
    ensures WeightsOk(AfterPolicyArrives(c, w, id).value)
  {
    hide AllFine, RebuildPolicyMesh;
    if w.policyReady {
      JoinPolicyWeights(c, w, id);
    } else if |SortByStart(w.policies, ArrivedPolicies(w))| >= w.policyInit {
      InitPolicyWeights(c, w, id);
    }
  }

  lemma FirstPolicyWeights(w: World, id: nat)
    requires PoliciesFine(w) && ArrivedPolicies(w) == [id] && id in w.policies
    ensures var v := FirstPolicyArrives(w, id);
            && WeightsOk(v) && ArrivedPolicies(v) == [id] && id in v.policies && v.policies[id].loaded && v.resumed
            && v.policyReady == w.policyReady
  {
    hide AllFine, SendPolicyToRollout, BroadcastToRollouts, ArrivedRollouts, StillLoaded, LoadsOk;
    var r := w.(resumed := true, policies := Load(w.policies, {id}, WeightResume));
    ResumedWeights(w, id);
    var ids := SortByStart(r.rollouts, ArrivedRollouts(r));
    RolloutsKnown(r);
    if ids != [] {
      assert ids[0] in ids;
      var s := SendPolicyToRollout(r, id, ids[0], None, None);
      SendWeights(r, id, ids[0], None, None);
      StillLoadedFacts(r, s, id);
      if |ids| >= r.rolloutInit {
        var b := BroadcastToRollouts(s, ids[0], AsSet(ids), Some(s.step), None);
        BroadcastWeights(s, ids[0], AsSet(ids), Some(s.step), None);
        StillLoadedFacts(s, b, id);
      }
    }
  }

  lemma StillLoadedFacts(w: World, v: World, id: nat)
    requires StillLoaded(w, v) && id in w.policies
    ensures id in v.policies && v.policies[id].loaded == w.policies[id].loaded && ArrivedPolicies(v) == ArrivedPolicies(w)
    ensures v.policyReady == w.policyReady && v.resumed == w.resumed
  {
    assert forall i :: i in w.policies ==> SameLoad(w.policies[i], v.policies[i]);
    ArrivedSame(w.policies, v.policies, w.policyOrder);
  }

  lemma ResumedWeights(w: World, id: nat)
    requires PoliciesFine(w) && ArrivedPolicies(w) == [id] && id in w.policies
    ensures var r := w.(resumed := true, policies := Load(w.policies, {id}, WeightResume));
            WeightsOk(r) && ArrivedPolicies(r) == [id] && r.policies[id].loaded
  {
    hide Fine;
    var r := w.(resumed := true, policies := Load(w.policies, {id}, WeightResume));
    assert id in ArrivedPolicies(w);
    LoadFine(true, w.policies, {id}, WeightResume);
    ArrivedSame(w.policies, r.policies, w.policyOrder);
    assert r.policies[id].loaded;
  }

  /** The world with the new replica complete: its streams are fine, and the others are as they were. */
  lemma CompletedWeights(w: World, id: nat, atom: nat, size: nat, now: int)
    requires WeightsOk(w) && (forall i :: i in w.policies ==> Proper(w.policies[i])) && (forall i :: i in w.policies <==> i in w.policyOrder)
    requires atom < size && Enrol(w.policies, id, atom, size).Some?
    ensures var g := Enrol(w.policies, id, atom, size).value;
            var v := Enrolled(w, id, g, now);
            && PoliciesFine(v) && id in v.policies && !v.policies[id].loaded
            && v.resumed == w.resumed && v.policyReady == w.policyReady
            && (forall i :: i in ArrivedPolicies(v) && i != id <==> i in ArrivedPolicies(w) && i != id)
            && (forall i :: i in w.policies && i != id ==> i in v.policies && v.policies[i] == w.policies[i])
            && id !in ArrivedPolicies(w) && (Arrived(g[id]) <==> id in ArrivedPolicies(v))
  {
    hide Enrol, Enrolled, Fine;
    var g := Enrol(w.policies, id, atom, size).value;
    var v := Enrolled(w, id, g, now);
    EnrolFacts(w, id, atom, size);
    EnrolledFacts(w, id, g, now);
    EnrolledRest(w, id, g, now);
    EnrolledOthers(w, id, g, now);
    EnrolledFine(w, id, g, now, size, atom);
    if id in w.policies && Arrived(w.policies[id]) {
      AllAtomsThere(w.policies[id], atom);
    }
  }

  lemma EnrolledFine(w: World, id: nat, g: Group, now: int, size: nat, atom: nat)
    requires AllFine(true, w.policies) && Enrol(w.policies, id, atom, size) == Some(g)
    ensures AllFine(true, Enrolled(w, id, g, now).policies)
  {
    hide Fine, Enrol;
    EnrolFine(true, w.policies, id, atom, size);
    if Arrived(g[id]) {
      StampFine(true, g, id, now);
      StatusFine(true, Stamp(g, id, now), {id}, Uninitialized);
    }
  }

  lemma RegisterPolicyWeights(c: Config, w: World, id: nat, atom: nat, size: nat, now: int)
    requires Ledger(c, w) && WeightsOk(w) && Distinct(w.policyOrder) && atom < size && RegisterPolicy(c, w, id, atom, size, now).Some?
    ensures WeightsOk(RegisterPolicy(c, w, id, atom, size, now).value)
  {
    hide AfterPolicyArrives, FirstPolicyArrives, Enrol, BooksOk, Entry, Proper, AllFine, ArrivedPolicies, LoadedIds;
    var g := Enrol(w.policies, id, atom, size).value;
    var s := Enrolled(w, id, g, now);
    CompletedWeights(w, id, atom, size, now);
    CompletedOrder(w, id, g, now);
    OrderGrows(w, id);
    CompletedLoads(w, s, id);
    if Arrived(g[id]) {
      ArrivedPoliciesDistinct(s);
      PolicyArrivesWeights(c, w, s, id, atom, size, now);
    }
  }

  /** How readiness stands once a replica is complete. */
  lemma CompletedLoads(w: World, s: World, id: nat)
    requires LoadsOk(w) && s.policyReady == w.policyReady && s.resumed == w.resumed && LoadedArrived(s) && ActiveLoaded(s)
    requires forall i :: i in ArrivedPolicies(s) && i != id <==> i in ArrivedPolicies(w) && i != id
    requires forall i :: i in w.policies && i != id ==> i in s.policies && s.policies[i] == w.policies[i]
    requires id !in ArrivedPolicies(w)
    ensures w.policyReady ==> forall i :: i in ArrivedPolicies(s) && i in s.policies && i != id ==> s.policies[i].loaded
    ensures (exists i :: i in ArrivedPolicies(s) && i != id) ==> ArrivedPolicies(w) != [] && s.resumed
    ensures id !in ArrivedPolicies(s) ==> LoadsOk(s)
  {
    hide ArrivedPolicies;
    ArrivedKnown(w);
    ArrivedKnown(s);
    if ArrivedPolicies(s) != [] {
      assert ArrivedPolicies(s)[0] in ArrivedPolicies(s);
    }
  }

  lemma PolicyArrivesWeights(c: Config, w: World, s: World, id: nat, atom: nat, size: nat, now: int)
    requires Enrol(w.policies, id, atom, size).Some? && RegisterPolicy(c, w, id, atom, size, now).Some?
    requires var g := Enrol(w.policies, id, atom, size).value; Arrived(g[id]) && s == Enrolled(w, id, g, now)
    requires PoliciesFine(s) && id in s.policies && !s.policies[id].loaded && id in ArrivedPolicies(s)
    requires Distinct(ArrivedPolicies(s)) && (s.policyReady ==> s.resumed)
    requires s.policyReady ==> forall i :: i in ArrivedPolicies(s) && i in s.policies && i != id ==> s.policies[i].loaded
    requires (exists i :: i in ArrivedPolicies(s) && i != id) ==> s.resumed
    ensures WeightsOk(RegisterPolicy(c, w, id, atom, size, now).value)
  {
    hide AfterPolicyArrives, FirstPolicyArrives, Enrol, AllFine, ArrivedPolicies, LoadedIds;
    if |ArrivedPolicies(s)| == 1 {
      OnlyOne(ArrivedPolicies(s), id);
      FirstPolicyWeights(s, id);
      FirstIsLoaded(FirstPolicyArrives(s, id), id);
      AfterPolicyWeights(c, FirstPolicyArrives(s, id), id);
    } else {
      SomeOther(ArrivedPolicies(s), id);
      AfterPolicyWeights(c, s, id);
    }
  }

  lemma FirstIsLoaded(w: World, id: nat)
    requires WeightsOk(w) && ArrivedPolicies(w) == [id] && id in w.policies && w.policies[id].loaded
    ensures id in ArrivedPolicies(w) && SomeLoaded(w.policies, ArrivedPolicies(w)) && PoliciesFine(w)
  {
    assert id in [id];
  }

  /** A departure at any time: of the replica that holds the weights, or after training has finished. */
  lemma UnregisterPolicyWeights(c: Config, w: World, id: nat)
    requires AccountsOk(c, w) && WeightsOk(w) && UnregisterPolicy(c, w, id).Some?
    ensures WeightsOk(UnregisterPolicy(c, w, id).value)
  {
    hide Fine, RebuildPolicyMesh, Entry, Proper;
    var u := w.(policies := w.policies - {id}, policyOrder := Without(w.policyOrder, id));
    forall i
      ensures i in ArrivedPolicies(u) <==> i in ArrivedPolicies(w) && i != id
    {
    }
    if ArrivedPolicies(u) != [] {
      assert ArrivedPolicies(u)[0] in ArrivedPolicies(u);
    }
    assert WeightsOk(u);
    RebuiltLoads(c, u);
  }

  lemma RebuiltLoads(c: Config, w: World)
    requires WeightsOk(w)
    ensures WeightsOk(RebuildPolicyMesh(c, w))
  {
    hide Fine, RebuildPolicyMesh, AllFine;
    RebuiltPoliciesFine(c, w);
    var v := RebuildPolicyMesh(c, w);
    SameLoadsArrived(w, v);
    forall id | id in w.policies
      ensures SameLoad(w.policies[id], v.policies[id])
    {
      assert SameStanding(w.policies[id], v.policies[id]);
    }
    StillLoadsOk(w, v);
  }

  // ---------- every run ----------

  /** What every run keeps. */
  ghost predicate Kept(c: Config, w: World) {
    Ledger(c, w) && Seated(c, w) && WeightsOk(w)
  }

  lemma EventWeights(c: Config, w: World, e: Event)
    requires ValidConfig(c) && Kept(c, w) && Regular(w, e) && !TooEarly(c, w, e) && After(c, w, e).Some?
    ensures WeightsOk(After(c, w, e).value)
  {
    hide WeightsOk, BooksOk, StagesOk, Entry, Proper, RanksOfArrived, NobodyPlaced, QueuesFit, RegisterPolicy, UnregisterPolicy,
      RegisterRollout, UnregisterRollout, PutGroup, TrainAck, RolloutEnd, Unreported, TooEarly;
    match e
    case PolicyAtom(id, atom, size, now) => RegisterPolicyWeights(c, w, id, atom, size, now);
    case PolicyGone(id) => UnregisterPolicyWeights(c, w, id);
    case RolloutAtom(id, atom, size, now) => RegisterRolloutWeights(w, id, atom, size, now);
    case RolloutGone(id) => UnregisterRolloutWeights(w, id);
    case PromptsOut(samples) => SameWeightsOk(w, After(c, w, e).value);
    case GroupIn(xs) => GroupWeights(c, w, xs);
    case AckIn(id, step, lastStep) => AckWeights(c, w, id, step, lastStep);
    case EndIn(id) => EndWeights(c, w, id);
  }

  /** The extra last fetch reaches a replica that was never given weights. */
  lemma TooEarlyBreaks(c: Config, w: World, e: Event, id: nat)
    requires ValidConfig(c) && Kept(c, w) && TooEarly(c, w, e) && After(c, w, e).Some?
    requires id in ArrivedPolicies(w) && id in w.policies && !w.policies[id].loaded
    ensures var v := After(c, w, e).value;
            && id in v.policies && v.policies[id].stream != [] && v.policies[id].stream[|v.policies[id].stream| - 1].DataFetch?
            && !Gave(true, id, v.policies[id].stream) && !SoundStream(true, id, v.policies[id].stream)
  {
    hide Ledger, Seated, TryTrigger, Gave, SoundStream, Recompute;
    var m := MarkEnded(w, e.id);
    var t := Recompute(c, m, Pending(c, m));
    RecomputeWeights(c, m, Pending(c, m));
    var q := Curtailed(t);
    ExtraTriggers(c, w, q);
    TriggerReplicas(c, q, true);
    var v := TryTrigger(c, q, true).value;
    assert IsServed(q.policies[id], v.policies[id], FetchOf(c, q, true));
    assert Fine(true, id, w.policies[id]);
    UngivenFetch(id, w.policies[id].stream, FetchOf(c, q, true));
  }

  lemma ExtraTriggers(c: Config, w: World, q: World)
    requires q.policies == w.policies && q.policyOrder == w.policyOrder && q.total == q.step + 1 && ArrivedPolicies(w) != []
    ensures ArrivedPolicies(q) == ArrivedPolicies(w) && Triggers(c, q, true)
  {
  }

  lemma UngivenFetch(id: nat, stream: seq<Command>, cmd: Command)
    requires !Gave(true, id, stream) && cmd.DataFetch?
    ensures !Gave(true, id, stream + [cmd]) && !SoundStream(true, id, stream + [cmd])
  {
    GaveAppend(true, id, stream, cmd);
    var t := stream + [cmd];
    assert t[..|stream|] == stream && Needs(true, id, t[|stream|]);
  }

  /** All streams are sound: what needs weights comes after a command that gave them. */
  predicate Sound(w: World) {
    && (forall id :: id in w.policies ==> SoundStream(true, id, w.policies[id].stream))
    && (forall id :: id in w.rollouts ==> SoundStream(false, id, w.rollouts[id].stream))
  }

  lemma WeightsAreSound(w: World)
    requires WeightsOk(w)
    ensures Sound(w)
  {
    hide SoundStream, Gave;
    assert forall id :: id in w.policies ==> Fine(true, id, w.policies[id]);
    assert forall id :: id in w.rollouts ==> Fine(false, id, w.rollouts[id]);
  }

  /** An event keeps the protocol exactly if it is not an extra last fetch issued too early. */
  lemma EventSoundIff(c: Config, w: World, e: Event)
    requires ValidConfig(c) && Kept(c, w) && Regular(w, e) && After(c, w, e).Some?
    ensures Sound(After(c, w, e).value) <==> !TooEarly(c, w, e)
  {
    hide Kept, Regular, After, IssuesExtra, SoundStream, WeightsOk, ArrivedPolicies;
    if TooEarly(c, w, e) {
      var id :| id in ArrivedPolicies(w) && id in w.policies && !w.policies[id].loaded;
      TooEarlyBreaks(c, w, e, id);
    } else {
      EventWeights(c, w, e);
      WeightsAreSound(After(c, w, e).value);
    }
  }

  /** The protocol holds after each event of the run. */
  ghost predicate SoundThroughout(c: Config, w: World, events: seq<Event>)
    requires ValidConfig(c) && CanRun(c, w, events)
    decreases |events|
  {
    Sound(w) && (events != [] ==> SoundThroughout(c, After(c, w, events[0]).value, events[1..]))
  }

  /** No event of the run is an extra last fetch issued too early. */
  ghost predicate NeverTooEarly(c: Config, w: World, events: seq<Event>)
    requires ValidConfig(c) && CanRun(c, w, events)
    decreases |events|
  {
    events != [] ==> !TooEarly(c, w, events[0]) && NeverTooEarly(c, After(c, w, events[0]).value, events[1..])
  }

  lemma {:induction false} RegularCanRun(c: Config, w: World, events: seq<Event>)
    requires ValidConfig(c) && RegularRun(c, w, events)
    ensures CanRun(c, w, events)
    decreases |events|
  {
    hide After, Regular;
    if events != [] {
      RegularCanRun(c, After(c, w, events[0]).value, events[1..]);
    }
  }

  lemma EventKept(c: Config, w: World, e: Event)
    requires ValidConfig(c) && Kept(c, w) && Regular(w, e) && !TooEarly(c, w, e) && After(c, w, e).Some?
    ensures Kept(c, After(c, w, e).value)
  {
    hide Ledger, Seated, WeightsOk, After, Regular, TooEarly;
    EventLedger(c, w, e);
    EventSeated(c, w, e);
    EventWeights(c, w, e);
  }

  lemma {:induction false} RunKept(c: Config, w: World, events: seq<Event>)
    requires ValidConfig(c) && Kept(c, w) && RegularRun(c, w, events) && CanRun(c, w, events)
    ensures SoundThroughout(c, w, events) <==> NeverTooEarly(c, w, events)
    ensures NeverTooEarly(c, w, events) ==> Kept(c, Run(c, w, events))
    decreases |events|
  {
    hide Kept, Sound, After, Regular, TooEarly;
    KeptIsSound(c, w);
    if events != [] {
      var e := events[0];
      EventSoundIff(c, w, e);
      if TooEarly(c, w, e) {
        if SoundThroughout(c, After(c, w, e).value, events[1..]) { SoundFirst(c, After(c, w, e).value, events[1..]); }
      } else {
        EventKept(c, w, e);
        RunKept(c, After(c, w, e).value, events[1..]);
      }
    }
  }

  lemma SoundFirst(c: Config, w: World, events: seq<Event>)
    requires ValidConfig(c) && CanRun(c, w, events) && SoundThroughout(c, w, events)
    ensures Sound(w)
  {
  }

  lemma KeptIsSound(c: Config, w: World)
    requires Kept(c, w)
    ensures Sound(w)
  {
    WeightsAreSound(w);
  }

  lemma OpeningKept(c: Config, policyInit: nat, rolloutInit: nat, step: int, remain: int)
    requires 0 <= step
    ensures Kept(c, Opening(policyInit, rolloutInit, step, remain))
  {
    OpeningLedger(c, policyInit, rolloutInit, step, remain);
    OpeningMesh(c, policyInit, rolloutInit, step, remain);
    OpeningWeights(policyInit, rolloutInit, step, remain);
  }

  /** The weight-loading protocol, over every run: in each replica's stream whatever needs weights (a fetch,
      sending them on, or an update of the trainable ones only) comes after a command that gave all of them,
      throughout the run, exactly if the extra last fetch is never issued while an arrived policy replica has
      no weights. A replica is then regarded as loaded exactly if it was given them. */
  lemma WeightProtocol(c: Config, policyInit: nat, rolloutInit: nat, step: int, remain: int, events: seq<Event>)
    requires ValidConfig(c) && 0 <= step && RegularRun(c, Opening(policyInit, rolloutInit, step, remain), events)
    ensures CanRun(c, Opening(policyInit, rolloutInit, step, remain), events)
    ensures var o := Opening(policyInit, rolloutInit, step, remain);
            && (SoundThroughout(c, o, events) <==> NeverTooEarly(c, o, events))
            && (NeverTooEarly(c, o, events) ==>
                  var w := Run(c, o, events);
                  && (forall id :: id in w.policies ==> (w.policies[id].loaded <==> Gave(true, id, w.policies[id].stream)))
                  && (forall id :: id in w.rollouts ==> (w.rollouts[id].loaded <==> Gave(false, id, w.rollouts[id].stream)))
                  && (w.policyReady ==> AllArrivedLoaded(w)))
  {
    var o := Opening(policyInit, rolloutInit, step, remain);
    OpeningKept(c, policyInit, rolloutInit, step, remain);
    RegularCanRun(c, o, events);
    hide Ledger, Seated, SoundStream, Gave, Opening;
    RunKept(c, o, events);
    if NeverTooEarly(c, o, events) {
      var w := Run(c, o, events);
      assert forall id :: id in w.policies ==> Fine(true, id, w.policies[id]);
      assert forall id :: id in w.rollouts ==> Fine(false, id, w.rollouts[id]);
    }
  }
}
