/** Lock-step training and conservation of rollouts over every run of the controller, with policy and rollout
    replicas coming and going. */
module ControllerLedger {
  import opened Common
  import opened ControllerModel
  import opened ControllerFlow
  import opened ControllerQueues

  // ---------- one replica's account ----------

  function Fetches(stream: seq<Command>): nat {
    if stream == [] then 0 else Fetches(stream[..|stream| - 1]) + (if stream[|stream| - 1].DataFetch? then 1 else 0)
  }

  predicate IsReal(c: Config, cmd: Command) {
    cmd.DataFetch? && cmd.items == c.batch
  }

  /** The fetches that came with rollouts. */
  function RealFetches(c: Config, stream: seq<Command>): nat {
    if stream == [] then 0 else RealFetches(c, stream[..|stream| - 1]) + (if IsReal(c, stream[|stream| - 1]) then 1 else 0)
  }

  lemma OneMoreCommand(c: Config, stream: seq<Command>, cmd: Command)
    ensures Fetches(stream + [cmd]) == Fetches(stream) + if cmd.DataFetch? then 1 else 0
    ensures RealFetches(c, stream + [cmd]) == RealFetches(c, stream) + if IsReal(c, cmd) then 1 else 0
  {
    assert (stream + [cmd])[..|stream|] == stream;
  }

  /** Each fetch with rollouts brought one batch; and until the extra last fetch, a replica is training
      exactly if one fetch is unreported. */
  predicate Entry(c: Config, faked: bool, r: Replica) {
    && |r.received| == RealFetches(c, r.stream) * c.batch
    && (!faked ==> Fetches(r.stream) == r.acks + if IsRunning(r) then 1 else 0)
  }

  /** Atoms in range, a status exactly once all have arrived, and no fetch before. */
  predicate Proper(r: Replica) {
    (forall a :: a in r.atoms ==> a < r.size) && (r.status.Some? <==> Arrived(r)) && (!Arrived(r) ==> Fetches(r.stream) == 0)
  }

  /** Changes that no account sees. */
  ghost predicate Unseen(r: Replica, t: Replica) {
    && t.received == r.received && t.acks == r.acks && Fetches(t.stream) == Fetches(r.stream)
    && (forall c :: RealFetches(c, t.stream) == RealFetches(c, r.stream))
    && (IsRunning(t) <==> IsRunning(r)) && t.size == r.size && t.atoms == r.atoms && (t.status.Some? <==> r.status.Some?)
  }

  ghost predicate AllUnseen(g: Group, h: Group) {
    h.Keys == g.Keys && forall id :: id in g ==> Unseen(g[id], h[id])
  }

  lemma UnseenTransitive(a: Group, b: Group, d: Group)
    requires AllUnseen(a, b) && AllUnseen(b, d)
    ensures AllUnseen(a, d)
  {
    forall id | id in a
      ensures Unseen(a[id], d[id])
    {
      assert Unseen(a[id], b[id]) && Unseen(b[id], d[id]);
    }
  }

  lemma ToldUnseen(r: Replica, cmd: Command)
    requires !cmd.DataFetch?
    ensures Unseen(r, Told(r, cmd))
  {
    hide Fetches, RealFetches;
    OneMoreCommand(Config(0, 0, None, 0, false, false), r.stream, cmd);
    forall c
      ensures RealFetches(c, Told(r, cmd).stream) == RealFetches(c, r.stream)
    {
      OneMoreCommand(c, r.stream, cmd);
    }
  }

  lemma TellUnseen(g: Group, ids: set<nat>, cmd: Command)
    requires !cmd.DataFetch?
    ensures AllUnseen(g, Tell(g, ids, cmd)) && AllUnseen(g, Load(g, ids, cmd))
  {
    forall id | id in g
      ensures Unseen(g[id], Tell(g, ids, cmd)[id]) && Unseen(g[id], Load(g, ids, cmd)[id])
    {
      ToldUnseen(g[id], cmd);
    }
  }

  lemma MeshUnseen(g: Group, order: seq<nat>)
    ensures AllUnseen(g, BuildMeshIn(g, order))
  {
    forall id | id in g
      ensures Unseen(g[id], BuildMeshIn(g, order)[id])
    {
      ToldUnseen(g[id], BuildMesh(MeshOf(order)));
    }
  }

  /** A status other than training given to replicas that have one and are not training. */
  lemma StatusUnseen(g: Group, ids: set<nat>, s: Status)
    requires s != Running && forall id :: id in ids && id in g ==> g[id].status.Some? && !IsRunning(g[id])
    ensures AllUnseen(g, SetStatus(g, ids, s))
  {
  }

  // ---------- the books ----------

  /** Nothing buffered is lost or duplicated: it was dispatched, cleared at the end, or is still queued. */
  predicate Conserved(w: World) {
    multiset(w.log.buffered) ==
    multiset(Flat(w.log.steps)) + multiset(w.log.cleared) + multiset(w.queue) + AllQueued(w.rankQueues)
  }

  /** First in, first out: with the shared queue and until it is cleared. */
  predicate InOrder(c: Config, w: World) {
    !c.byRank && w.log.cleared == [] ==> w.log.buffered == Flat(w.log.steps) + w.queue
  }

  predicate QueuesOk(c: Config, w: World) {
    (c.byRank ==> w.queue == []) && (!c.byRank ==> w.rankQueues == [])
  }

  predicate BooksOk(c: Config, w: World) {
    Conserved(w) && InOrder(c, w) && QueuesOk(c, w)
  }

  /** Before initialisation no replica has trained; after the extra last fetch training is over. */
  predicate StagesOk(w: World) {
    && 0 <= w.step
    && (!w.policyReady && !w.log.faked ==> AllStatus(w, {Uninitialized}))
    && (w.log.faked ==> 0 < w.total == w.step)
  }

  ghost predicate AccountsOk(c: Config, w: World) {
    && (forall id :: id in w.policies <==> id in w.policyOrder)
    && (forall id :: id in w.policies ==> Proper(w.policies[id]) && Entry(c, w.log.faked, w.policies[id]))
  }

  ghost predicate Ledger(c: Config, w: World) {
    BooksOk(c, w) && StagesOk(w) && AccountsOk(c, w)
  }

  lemma OpeningLedger(c: Config, policyInit: nat, rolloutInit: nat, step: int, remain: int)
    requires 0 <= step
    ensures Ledger(c, Opening(policyInit, rolloutInit, step, remain))
  {
  }

  // ---------- a step ----------

  lemma SplitQueue(flat: seq<Rollout>, queue: seq<Rollout>, n: nat)
    requires n <= |queue|
    ensures flat + queue == (flat + queue[..n]) + queue[n..]
    ensures multiset(flat) + multiset(queue) == multiset(flat + queue[..n]) + multiset(queue[n..])
  {
    assert queue == queue[..n] + queue[n..];
  }

  lemma DealtFromQueue(w: World, d: World, n: nat)
    requires n <= |w.queue| && Conserved(w) && d.queue == w.queue[n..] && d.rankQueues == w.rankQueues
    requires d.log.buffered == w.log.buffered && d.log.cleared == w.log.cleared
    requires Flat(d.log.steps) == Flat(w.log.steps) + w.queue[..n]
    ensures Conserved(d)
  {
    hide AllQueued, Flat;
    SplitQueue(Flat(w.log.steps), w.queue, n);
    forall x
      ensures multiset(d.log.buffered)[x] ==
        (multiset(Flat(d.log.steps)) + multiset(d.log.cleared) + multiset(d.queue) + AllQueued(d.rankQueues))[x]
    {
      assert (multiset(Flat(w.log.steps)) + multiset(w.queue))[x] == (multiset(Flat(d.log.steps)) + multiset(d.queue))[x];
    }
  }

  lemma SharedBooks(c: Config, w: World, fake: bool)
    requires !c.byRank && BooksOk(c, w) && (fake || |w.queue| >= PerStep(c, w))
    ensures BooksOk(c, DispatchShared(c, w, fake))
  {
    hide Deal, PerStep, AllQueued, Flat, Conserved;
    var d := DispatchShared(c, w, fake);
    if fake {
      FlatAppend(w.log.steps, []);
      assert w.queue[0..] == w.queue && w.queue[..0] == [];
      assert Flat(w.log.steps) + [] == Flat(w.log.steps);
      DealtFromQueue(w, d, 0);
    } else {
      var n := PerStep(c, w);
      FlatAppend(w.log.steps, w.queue[..n]);
      SplitQueue(Flat(w.log.steps), w.queue, n);
      DealtFromQueue(w, d, n);
    }
  }

  lemma RankBooks(c: Config, w: World, items: nat)
    requires c.byRank && BooksOk(c, w) && |ArrivedPolicies(w)| <= |w.rankQueues|
    requires forall i :: 0 <= i < |ArrivedPolicies(w)| ==> items <= |w.rankQueues[i]|
    ensures BooksOk(c, DispatchByRank(w, items))
  {
    hide DealByRank, ArrivedPolicies, AllQueued, DealtByRank, Served, SortedQueues;
    var n := |ArrivedPolicies(w)|;
    var qs := SortedQueues(w.rankQueues, n);
    SortedQueuesKeep(w.rankQueues, n);
    ServedKeeps(qs, n, items);
    FlatAppend(w.log.steps, DealtByRank(qs, n, items));
    var d := DispatchByRank(w, items);
    DealtConserved(w, d, DealtByRank(qs, n, items));
  }

  lemma DealtConserved(w: World, d: World, dealt: seq<Rollout>)
    requires Conserved(w) && Flat(d.log.steps) == Flat(w.log.steps) + dealt && d.queue == w.queue
    requires d.log.buffered == w.log.buffered && d.log.cleared == w.log.cleared
    requires AllQueued(d.rankQueues) + multiset(dealt) == AllQueued(w.rankQueues)
    ensures Conserved(d)
  {
    hide AllQueued, Flat;
    forall x
      ensures multiset(d.log.buffered)[x] ==
        (multiset(Flat(d.log.steps)) + multiset(d.log.cleared) + multiset(d.queue) + AllQueued(d.rankQueues))[x]
    {
      assert (AllQueued(d.rankQueues) + multiset(dealt))[x] == AllQueued(w.rankQueues)[x];
      assert multiset(Flat(w.log.steps) + dealt)[x] == multiset(Flat(w.log.steps))[x] + multiset(dealt)[x];
    }
  }

  lemma TriggerBooks(c: Config, w: World, fake: bool)
    requires BooksOk(c, w) && TryTrigger(c, w, fake).Some?
    ensures BooksOk(c, TryTrigger(c, w, fake).value)
  {
    hide DispatchShared, DispatchByRank, BooksOk, Fetch, FetchOf;
    if Triggers(c, w, fake) {
      if c.byRank {
        RankBooks(c, w, if fake then 0 else c.batch);
      } else {
        SharedBooks(c, w, fake);
      }
      LaunchBooks(c, w, Dispatch(c, w, fake).value, fake);
    }
  }

  lemma LaunchBooks(c: Config, w: World, d: World, fake: bool)
    requires BooksOk(c, d)
    ensures BooksOk(c, Launch(c, w, d, fake))
  {
    hide Fetch, FetchOf;
  }

  lemma SharedBatch(c: Config, w: World, id: nat)
    requires |w.queue| >= PerStep(c, w) && id in w.policies && id in ArrivedPolicies(w)
    ensures |DispatchShared(c, w, false).policies[id].received| == |w.policies[id].received| + c.batch
  {
    hide Share, ArrivedPolicies;
    var ids := ArrivedPolicies(w);
    ShareLength(w.queue, |ids|, c.batch, IndexOf(ids, id));
  }

  lemma RankBatch(w: World, items: nat, id: nat)
    requires |ArrivedPolicies(w)| <= |w.rankQueues| && id in w.policies && id in ArrivedPolicies(w)
    requires forall i :: 0 <= i < |ArrivedPolicies(w)| ==> items <= |w.rankQueues[i]|
    ensures |DispatchByRank(w, items).policies[id].received| == |w.policies[id].received| + items
  {
    hide DealtByRank, SortByPrompt, ArrivedPolicies, Served;
    var sorted := SortByStart(w.policies, ArrivedPolicies(w));
    assert id in sorted && |sorted| == |ArrivedPolicies(w)|;
  }

  /** What one replica gets at a dispatch: one batch, or nothing for the extra last step. */
  lemma DispatchedBatch(c: Config, w: World, fake: bool, id: nat)
    requires (fake || Enough(c, w)) && Dispatch(c, w, fake).Some? && id in w.policies && id in ArrivedPolicies(w)
    ensures id in Dispatch(c, w, fake).value.policies
    ensures |Dispatch(c, w, fake).value.policies[id].received| == |w.policies[id].received| + if fake then 0 else c.batch
  {
    hide DispatchByRank, ArrivedPolicies, Deal;
    DispatchReplicas(c, w, fake);
    if c.byRank {
      RankBatch(w, if fake then 0 else c.batch, id);
    } else if !fake {
      SharedBatch(c, w, id);
    }
  }

  /** What a started step did to one replica. */
  lemma LaunchedReplica(c: Config, w: World, fake: bool, id: nat)
    requires Triggers(c, w, fake) && TryTrigger(c, w, fake).Some? && id in w.policies && id in ArrivedPolicies(w)
    ensures var v := TryTrigger(c, w, fake).value;
            && id in v.policies && IsServed(w.policies[id], v.policies[id], FetchOf(c, w, fake))
            && |v.policies[id].received| == |w.policies[id].received| + if fake then 0 else c.batch
  {
    hide ArrivedPolicies, Dispatch, Enough, FetchOf;
    TriggerReplicas(c, w, fake);
    DispatchedBatch(c, w, fake, id);
    LaunchReceived(c, w, Dispatch(c, w, fake).value, fake, id);
  }

  lemma LaunchReceived(c: Config, w: World, d: World, fake: bool, id: nat)
    requires id in d.policies
    ensures id in Launch(c, w, d, fake).policies && Launch(c, w, d, fake).policies[id].received == d.policies[id].received
  {
  }

  lemma LaunchedEntry(c: Config, faked: bool, r: Replica, t: Replica, cmd: Command, fake: bool)
    requires 0 < c.batch && Entry(c, faked, r) && IsServed(r, t, cmd) && cmd.DataFetch?
    requires cmd.items == (if fake then 0 else c.batch) && |t.received| == |r.received| + (if fake then 0 else c.batch)
    requires !fake && !faked ==> !IsRunning(r)
    ensures Entry(c, faked || fake, t)
  {
    hide Fetches, RealFetches;
    OneMoreCommand(c, r.stream, cmd);
    assert (RealFetches(c, r.stream) + 1) * c.batch == RealFetches(c, r.stream) * c.batch + c.batch;
  }

  lemma TriggerAccounts(c: Config, w: World, fake: bool)
    requires ValidConfig(c) && Ledger(c, w) && Triggers(c, w, fake) && TryTrigger(c, w, fake).Some?
    ensures var v := TryTrigger(c, w, fake).value;
            v.log.faked == (w.log.faked || fake) && AccountsOk(c, v)
  {
    hide ArrivedPolicies, TryTrigger, BooksOk, AllStatus, Enough, Entry;
    var v := TryTrigger(c, w, fake).value;
    TriggerReplicas(c, w, fake);
    TriggerFaked(c, w, fake);
    forall id | id in w.policies
      ensures Proper(v.policies[id]) && Entry(c, v.log.faked, v.policies[id])
    {
      assert Proper(w.policies[id]) && Entry(c, w.log.faked, w.policies[id]);
      assert SameReplica(w.policies[id], v.policies[id]);
      if id in ArrivedPolicies(w) {
        LaunchedReplica(c, w, fake, id);
        NotRunningBefore(c, w, fake, id);
        ArrivedOnes(w, id);
        LaunchedEntry(c, w.log.faked, w.policies[id], v.policies[id], FetchOf(c, w, fake), fake);
      } else {
        NotFakedBefore(c, w, fake);
        ArrivedOnes(w, id);
        assert v.policies[id] == w.policies[id];
        EntryWithoutStatus(c, w.log.faked, v.log.faked, w.policies[id]);
      }
    }
  }

  lemma EntryWithoutStatus(c: Config, faked: bool, later: bool, r: Replica)
    requires Entry(c, faked, r) && (faked ==> later)
    ensures Entry(c, later, r)
  {
  }

  lemma ArrivedOnes(w: World, id: nat)
    requires id in w.policies && id in w.policyOrder
    ensures id in ArrivedPolicies(w) <==> Arrived(w.policies[id])
  {
  }

  lemma NotRunningBefore(c: Config, w: World, fake: bool, id: nat)
    requires Triggers(c, w, fake) && id in w.policies
    ensures !fake ==> !IsRunning(w.policies[id])
  {
  }

  lemma NotFakedBefore(c: Config, w: World, fake: bool)
    requires StagesOk(w) && Triggers(c, w, fake)
    ensures !w.log.faked
  {
  }

  lemma TriggerFaked(c: Config, w: World, fake: bool)
    requires Triggers(c, w, fake) && TryTrigger(c, w, fake).Some?
    ensures var v := TryTrigger(c, w, fake).value;
            && v.log.faked == (w.log.faked || fake) && v.policyOrder == w.policyOrder && v.policyReady == w.policyReady
            && v.step == w.step + 1 && v.total == w.total && (fake ==> v.step == v.total)
  {
    hide Triggers, Deal, DealByRank, Served, SortedQueues, DealtByRank, Fetch, FetchOf;
  }

  lemma TriggerStages(c: Config, w: World, fake: bool)
    requires Ledger(c, w) && Triggers(c, w, fake) && TryTrigger(c, w, fake).Some?
    ensures StagesOk(TryTrigger(c, w, fake).value)
  {
    hide TryTrigger, BooksOk, Entry;
    TriggerFaked(c, w, fake);
    NotFakedBefore(c, w, fake);
    var first := ArrivedPolicies(w)[0];
    assert first in ArrivedPolicies(w);
    if !fake && !w.policyReady {
      assert false;
    }
  }

  lemma TriggerLedger(c: Config, w: World, fake: bool)
    requires ValidConfig(c) && Ledger(c, w) && TryTrigger(c, w, fake).Some?
    ensures Ledger(c, TryTrigger(c, w, fake).value)
  {
    hide BooksOk, StagesOk, AccountsOk, TryTrigger;
    TriggerBooks(c, w, fake);
    if Triggers(c, w, fake) {
      TriggerAccounts(c, w, fake);
      TriggerStages(c, w, fake);
    } else {
      NoTrigger(c, w, fake);
    }
  }

  // ---------- rollouts coming in ----------

  lemma BufferBooks(c: Config, w: World, x: Rollout)
    requires BooksOk(c, w) && Buffer(c, w, x).Some?
    ensures BooksOk(c, Buffer(c, w, x).value)
  {
    hide AllQueued, Flat;
    var b := Buffer(c, w, x).value;
    if c.byRank {
      AppendQueued(w.rankQueues, x.prompt % |w.rankQueues|, x);
    } else {
      assert Flat(w.log.steps) + (w.queue + [x]) == (Flat(w.log.steps) + w.queue) + [x];
    }
    assert multiset(w.queue + [x]) == multiset(w.queue) + multiset{x};
    assert multiset(w.log.buffered + [x]) == multiset(w.log.buffered) + multiset{x};
  }

  lemma BufferLedger(c: Config, w: World, x: Rollout)
    requires Ledger(c, w) && Buffer(c, w, x).Some?
    ensures Ledger(c, Buffer(c, w, x).value)
  {
    hide BooksOk, Entry, Proper;
    BufferBooks(c, w, x);
  }

  /** Nothing the ledger records changed. */
  predicate SameRecords(w: World, v: World) {
    && v.policies == w.policies && v.policyOrder == w.policyOrder && v.policyReady == w.policyReady
    && v.step == w.step && v.log == w.log && v.queue == w.queue && v.rankQueues == w.rankQueues
    && (w.log.faked ==> v.total == w.total)
  }

  lemma SameRecordsLedger(c: Config, w: World, v: World)
    requires Ledger(c, w) && SameRecords(w, v)
    ensures Ledger(c, v)
  {
    hide Entry, Proper, AllQueued, Flat;
  }

  lemma {:induction false} PutEachLedger(c: Config, w: World, xs: seq<Rollout>)
    requires ValidConfig(c) && Ledger(c, w) && PutEach(c, w, xs).Some?
    ensures Ledger(c, PutEach(c, w, xs).value)
    decreases |xs|
  {
    hide Ledger, TryTrigger, Buffer;
    if xs != [] {
      BufferLedger(c, w, xs[0]);
      TriggerLedger(c, Buffer(c, w, xs[0]).value, false);
      var p := PutRollout(c, w, xs[0]).value;
      if c.onPolicy && Pending(c, p) == 0 {
        SameRecordsLedger(c, p, p.(stepSampled := true));
      } else {
        PutEachLedger(c, p, xs[1..]);
      }
    }
  }

  lemma GroupLedger(c: Config, w: World, xs: seq<Rollout>)
    requires ValidConfig(c) && Ledger(c, w) && PutGroup(c, w, xs).Some?
    ensures Ledger(c, PutGroup(c, w, xs).value)
  {
    hide Ledger, PutEach;
    var kept := FreshOnes(c, w, xs);
    var p := w.(remain := w.remain - (|xs| - |kept|));
    SameRecordsLedger(c, w, p);
    if c.onPolicy && p.stepSampled {
      SameRecordsLedger(c, p, p.(remain := p.remain - |kept|));
    } else {
      PutEachLedger(c, p, kept);
    }
  }

  // ---------- changes no account sees ----------

  /** The records stay, up to rearranging the rank queues and changes no account sees. */
  ghost predicate Alike(c: Config, w: World, v: World) {
    && v.policyOrder == w.policyOrder && AllUnseen(w.policies, v.policies)
    && v.step == w.step && v.log == w.log && v.queue == w.queue && (w.log.faked ==> v.total == w.total)
    && AllQueued(v.rankQueues) == AllQueued(w.rankQueues) && (!c.byRank ==> v.rankQueues == w.rankQueues)
  }

  lemma UnseenEntry(c: Config, faked: bool, r: Replica, t: Replica)
    requires Unseen(r, t) && Entry(c, faked, r) && Proper(r)
    ensures Entry(c, faked, t) && Proper(t)
  {
  }

  lemma AlikeLedger(c: Config, w: World, v: World)
    requires Ledger(c, w) && Alike(c, w, v)
    requires !v.policyReady && !v.log.faked ==> AllStatus(v, {Uninitialized})
    ensures Ledger(c, v)
  {
    hide Entry, Proper, Unseen, AllQueued, Flat;
    forall id | id in v.policies
      ensures Proper(v.policies[id]) && Entry(c, v.log.faked, v.policies[id])
    {
      UnseenEntry(c, w.log.faked, w.policies[id], v.policies[id]);
    }
  }

  lemma AlikeTransitive(c: Config, a: World, b: World, d: World)
    requires Alike(c, a, b) && Alike(c, b, d)
    ensures Alike(c, a, d)
  {
    hide Unseen, AllQueued;
    UnseenTransitive(a.policies, b.policies, d.policies);
  }

  lemma RefusalUnseen(g: Group)
    ensures AllUnseen(g, g)
  {
  }

  lemma SendAlike(c: Config, w: World, src: nat, dst: nat, weightStep: Option<int>, lastStep: Option<int>)
    requires dst in w.rollouts
    ensures var v := SendPolicyToRollout(w, src, dst, weightStep, lastStep);
            Alike(c, w, v) && v.rollouts.Keys == w.rollouts.Keys && v.policyReady == w.policyReady &&
            (forall s :: AllStatus(w, s) ==> AllStatus(v, s))
  {
    hide Unseen, AllQueued;
    TellUnseen(w.policies, {src}, PolicyToRollout(src, dst, w.rollouts[dst].loaded, weightStep, lastStep));
  }

  lemma BroadcastAlike(c: Config, w: World, src: nat, dsts: set<nat>, weightStep: Option<int>, lastStep: Option<int>)
    requires src in w.rollouts
    ensures var v := BroadcastToRollouts(w, src, dsts, weightStep, lastStep);
            Alike(c, w, v) && v.policyReady == w.policyReady && v.policies == w.policies
  {
    hide Unseen, AllQueued;
    RefusalUnseen(w.policies);
  }

  lemma SyncAlike(c: Config, w: World, step: int, lastStep: int)
    requires ValidConfig(c)
    ensures var v := SyncIfDue(c, w, step, lastStep);
            Alike(c, w, v) && v.policyReady == w.policyReady && (forall s :: AllStatus(w, s) ==> AllStatus(v, s))
  {
    hide SendPolicyToRollout, BroadcastToRollouts, ArrivedRollouts, Alike, AllStatus;
    SelfAlike(c, w);
    var src := SortByStart(w.policies, ArrivedPolicies(w));
    var ids := SortByStart(w.rollouts, ArrivedRollouts(w));
    RolloutsKnown(w);
    if src != [] && ids != [] {
      SendAlike(c, w, src[0], ids[0], Some(step), Some(lastStep));
      var s := SendPolicyToRollout(w, src[0], ids[0], Some(step), Some(lastStep));
      BroadcastAlike(c, s, ids[0], AsSet(ids), Some(step), Some(lastStep));
      var b := BroadcastToRollouts(s, ids[0], AsSet(ids), Some(step), Some(lastStep));
      AlikeTransitive(c, w, s, b);
      SameStatuses(s, b);
    }
  }

  lemma SelfAlike(c: Config, w: World)
    ensures Alike(c, w, w)
  {
    RefusalUnseen(w.policies);
  }

  // ---------- reports ----------

  /** A replica reports only a fetch it has not reported yet. */
  predicate Unreported(w: World, id: nat) {
    id in w.policies && w.policies[id].acks < Fetches(w.policies[id].stream)
  }

  lemma AckedLedger(c: Config, w: World, id: nat)
    requires Ledger(c, w) && Unreported(w, id) && w.policies[id].status.Some?
    ensures Ledger(c, Acked(w, id)) && (Acked(w, id).policyReady || Acked(w, id).log.faked)
  {
    hide BooksOk, Fetches, RealFetches;
    var a := Acked(w, id);
    AckedBooks(c, w, id);
    assert Proper(w.policies[id]) && Entry(c, w.log.faked, w.policies[id]);
    forall i | i in a.policies
      ensures Proper(a.policies[i]) && Entry(c, a.log.faked, a.policies[i])
    {
      assert Proper(w.policies[i]) && Entry(c, w.log.faked, w.policies[i]);
    }
  }

  lemma AckedBooks(c: Config, w: World, id: nat)
    requires id in w.policies && BooksOk(c, w)
    ensures BooksOk(c, Acked(w, id))
  {
  }

  lemma DoneAlike(c: Config, a: World)
    requires AllStatus(a, {Reduced}) && AccountsOk(c, a)
    ensures Alike(c, a, StepDone(c, a)) && StepDone(c, a).policyReady == a.policyReady
  {
    hide Fetches, RealFetches, AllQueued;
    forall id | id in AsSet(ArrivedPolicies(a)) && id in a.policies
      ensures a.policies[id].status.Some? && !IsRunning(a.policies[id])
    {
      assert Proper(a.policies[id]);
    }
    StatusUnseen(a.policies, AsSet(ArrivedPolicies(a)), Ready);
  }

  lemma AckLedger(c: Config, w: World, id: nat, step: int, lastStep: int)
    requires ValidConfig(c) && Ledger(c, w) && Unreported(w, id) && TrainAck(c, w, id, step, lastStep).Some?
    ensures Ledger(c, TrainAck(c, w, id, step, lastStep).value)
  {
    hide BooksOk, StagesOk, AccountsOk, Alike, AllStatus, SyncIfDue, StepDone, TryTrigger, Acked;
    AckedLedger(c, w, id);
    var a := Acked(w, id);
    if AllStatus(a, {Reduced}) {
      var b := StepDone(c, a);
      DoneAlike(c, a);
      var s := SyncIfDue(c, b, step, lastStep);
      SyncAlike(c, b, step, lastStep);
      AlikeTransitive(c, a, b, s);
      AlikeLog(c, a, s);
      AlikeLedger(c, a, s);
      TriggerLedger(c, s, false);
      var t := TryTrigger(c, s, false).value;
      SameRecordsLedger(c, t, t.(stepSampled := false));
    }
  }

  lemma AlikeLog(c: Config, w: World, v: World)
    requires Alike(c, w, v)
    ensures v.log == w.log
  {
  }

  // ---------- the end ----------

  lemma EndLedger(c: Config, w: World, id: nat)
    requires ValidConfig(c) && Ledger(c, w) && RolloutEnd(c, w, id).Some?
    ensures Ledger(c, RolloutEnd(c, w, id).value)
  {
    hide Ledger, Conclude;
    var e := MarkEnded(w, id);
    SameRecordsLedger(c, w, e);
    if AllEnded(e) {
      ConcludeLedger(c, e);
    }
  }

  lemma RecomputeRecords(c: Config, w: World, remaining: int)
    requires StagesOk(w)
    ensures SameRecords(w, Recompute(c, w, remaining))
  {
  }

  lemma ConcludeLedger(c: Config, w: World)
    requires ValidConfig(c) && Ledger(c, w) && Conclude(c, w).Some?
    ensures Ledger(c, Conclude(c, w).value)
  {
    hide BooksOk, AccountsOk, TryTrigger, Recompute;
    var t := Recompute(c, w, Pending(c, w));
    RecomputeRecords(c, w, Pending(c, w));
    SameRecordsLedger(c, w, t);
    if !(t.total > t.step || t.step == w.total) {
      NotFakedAtEnd(w, t);
      CurtailedLedger(c, t);
      TriggerLedger(c, Curtailed(t), true);
    }
  }

  lemma NotFakedAtEnd(w: World, t: World)
    requires StagesOk(w) && SameRecords(w, t) && t.step != w.total
    ensures !t.log.faked
  {
  }

  lemma CurtailedBooks(c: Config, w: World)
    requires BooksOk(c, w)
    ensures BooksOk(c, Curtailed(w))
  {
    hide AllQueued, Flat;
    var v := Curtailed(w);
    assert multiset(w.log.cleared + w.queue) == multiset(w.log.cleared) + multiset(w.queue);
    assert multiset(v.queue) == multiset{};
    if v.log.cleared == [] {
      assert |w.log.cleared + w.queue| == 0;
      assert w.queue == [] && w.log.cleared == [];
    }
  }

  lemma CurtailedLedger(c: Config, w: World)
    requires Ledger(c, w) && !w.log.faked
    ensures Ledger(c, Curtailed(w))
  {
    hide Entry, Proper, BooksOk;
    CurtailedBooks(c, w);
  }

  // ---------- rollout replicas come and go ----------

  lemma StatusesOfReady(c: Config, w: World, v: World)
    requires Ledger(c, w) && Alike(c, w, v) && v.policyReady == w.policyReady && (forall s :: AllStatus(w, s) ==> AllStatus(v, s))
    ensures Ledger(c, v)
  {
    hide BooksOk, AccountsOk, AllStatus;
    AlikeLog(c, w, v);
    AlikeLedger(c, w, v);
  }

  lemma GreetLedger(c: Config, w: World, id: nat)
    requires id in w.rollouts && Ledger(c, w)
    ensures Ledger(c, GreetRollout(w, id))
  {
    hide Ledger, Alike, AllStatus, SendPolicyToRollout, ArrivedRollouts, SortByStart;
    var src := FirstLoaded(w.policies, SortByStart(w.policies, w.policyOrder));
    if src.Some? {
      SendAlike(c, w, src.value, id, None, None);
      StatusesOfReady(c, w, SendPolicyToRollout(w, src.value, id, None, None));
    }
  }

  lemma InitRolloutsLedger(c: Config, w: World)
    requires Ledger(c, w)
    ensures Ledger(c, InitRollouts(w))
  {
    hide Ledger, BroadcastToRollouts, ArrivedRollouts, BuildMeshIn;
    var ids := SortByStart(w.rollouts, ArrivedRollouts(w));
    var m := RebuildRolloutMesh(w.(rolloutReady := true));
    SameRecordsLedger(c, w, m);
    var first := FirstLoaded(m.rollouts, ids);
    if first.Some? {
      BroadcastRecords(m, first.value, AsSet(ids), Some(m.step), None);
      SameRecordsLedger(c, m, BroadcastToRollouts(m, first.value, AsSet(ids), Some(m.step), None));
    }
  }

  lemma BroadcastRecords(w: World, src: nat, dsts: set<nat>, weightStep: Option<int>, lastStep: Option<int>)
    requires src in w.rollouts
    ensures SameRecords(w, BroadcastToRollouts(w, src, dsts, weightStep, lastStep))
  {
  }

  lemma RolloutArrivalLedger(c: Config, w: World, id: nat)
    requires id in w.rollouts && AfterRolloutArrives(w, id).Some? && Ledger(c, w)
    ensures Ledger(c, AfterRolloutArrives(w, id).value)
  {
    hide Ledger, GreetRollout, ArrivedRollouts, BuildMeshIn, InitRollouts;
    var p := GreetRollout(w, id);
    GreetLedger(c, w, id);
    InitRolloutsLedger(c, p);
    SameRecordsLedger(c, p, RebuildRolloutMesh(p));
  }

  lemma RegisterRolloutLedger(c: Config, w: World, id: nat, atom: nat, size: nat, now: int)
    requires Ledger(c, w) && RegisterRollout(w, id, atom, size, now).Some?
    ensures Ledger(c, RegisterRollout(w, id, atom, size, now).value)
  {
    hide Ledger, AfterRolloutArrives, Stamp, Enrol;
    var g := Enrol(w.rollouts, id, atom, size).value;
    var n := EnrolRollout(w, id, g);
    SameRecordsLedger(c, w, n);
    if Arrived(g[id]) {
      var s := n.(rollouts := Stamp(n.rollouts, id, now));
      StampKeys(n.rollouts, id, now);
      SameRecordsLedger(c, n, s);
      RolloutArrivalLedger(c, s, id);
    }
  }

  lemma UnregisterRolloutLedger(c: Config, w: World, id: nat)
    requires Ledger(c, w) && UnregisterRollout(w, id).Some?
    ensures Ledger(c, UnregisterRollout(w, id).value)
  {
    hide Ledger, BuildMeshIn, SortByStart;
    SameRecordsLedger(c, w, UnregisterRollout(w, id).value);
  }

  // ---------- policy replicas come and go ----------

  function Below(n: nat): (s: set<nat>)
    ensures |s| == n && forall a: nat :: a in s <==> a < n
  {
    if n == 0 then {} else Below(n - 1) + {n - 1}
  }

  lemma {:induction false} SubsetFills(a: set<nat>, b: set<nat>)
    requires a <= b && |a| == |b|
    ensures a == b
  {
    if a != {} {
      var x :| x in a;
      SubsetFills(a - {x}, b - {x});
    }
  }

  /** Once all atoms have arrived there is none left to register. */
  lemma AllAtomsThere(r: Replica, atom: nat)
    requires Proper(r) && Arrived(r) && atom < r.size
    ensures atom in r.atoms
  {
    SubsetFills(r.atoms, Below(r.size));
  }

  lemma RebuildFields(c: Config, w: World)
    ensures var v, ids := RebuildPolicyMesh(c, w), SortByStart(w.policies, ArrivedPolicies(w));
            && v == w.(policies := BuildMeshIn(w.policies, ids), total := v.total, rankQueues := v.rankQueues)
            && (Finished(w) ==> v.total == w.total)
            && (if c.byRank && ids != [] then v.rankQueues == Rearranged(w.rankQueues, |ids|) else v.rankQueues == w.rankQueues)
  {
    hide BuildMeshIn, Rearranged, ArrivedPolicies, PerStep, SortByStart;
  }

  lemma RebuildAlike(c: Config, w: World)
    requires StagesOk(w)
    ensures var v := RebuildPolicyMesh(c, w);
            Alike(c, w, v) && v.policyReady == w.policyReady && (forall s :: AllStatus(w, s) ==> AllStatus(v, s))
  {
    hide Unseen, AllQueued, Rearranged, ArrivedPolicies, SortByStart, RebuildPolicyMesh, IndexOf;
    var ids := SortByStart(w.policies, ArrivedPolicies(w));
    RebuildFields(c, w);
    MeshUnseen(w.policies, ids);
    if ids != [] {
      RearrangedKeeps(w.rankQueues, |ids|);
    }
  }

  lemma RebuildLedger(c: Config, w: World)
    requires Ledger(c, w)
    ensures Ledger(c, RebuildPolicyMesh(c, w)) && RebuildPolicyMesh(c, w).policyReady == w.policyReady
    ensures forall s :: AllStatus(w, s) ==> AllStatus(RebuildPolicyMesh(c, w), s)
    ensures RebuildPolicyMesh(c, w).log == w.log && AllUnseen(w.policies, RebuildPolicyMesh(c, w).policies)
  {
    hide RebuildPolicyMesh, AllStatus, Unseen;
    RebuildAlike(c, w);
    StatusesOfReady(c, w, RebuildPolicyMesh(c, w));
  }

  lemma LoadLedger(c: Config, w: World, g: Group)
    requires Ledger(c, w) && AllUnseen(w.policies, g) && (forall s :: AllStatus(w, s) ==> AllStatus(w.(policies := g), s))
    ensures Ledger(c, w.(policies := g))
  {
    hide Unseen, AllStatus;
    StatusesOfReady(c, w, w.(policies := g));
  }

  lemma LoadStatuses(w: World, ids: set<nat>, cmd: Command)
    ensures forall s :: AllStatus(w, s) ==> AllStatus(w.(policies := Load(w.policies, ids, cmd)), s)
    ensures forall s :: AllStatus(w, s) ==> AllStatus(w.(policies := Tell(w.policies, ids, cmd)), s)
  {
  }

  /** Arrived replicas that are not training become ready. */
  lemma ReadyLedger(c: Config, w: World, ids: set<nat>)
    requires Ledger(c, w) && w.policyReady
    requires forall id :: id in ids && id in w.policies ==> w.policies[id].status.Some? && (w.log.faked || !IsRunning(w.policies[id]))
    ensures Ledger(c, w.(policies := SetStatus(w.policies, ids, Ready)))
  {
    hide Fetches, RealFetches, BooksOk;
    var v := w.(policies := SetStatus(w.policies, ids, Ready));
    forall id | id in v.policies
      ensures Proper(v.policies[id]) && Entry(c, v.log.faked, v.policies[id])
    {
      assert Proper(w.policies[id]) && Entry(c, w.log.faked, w.policies[id]);
    }
    BooksKept(c, w, v);
  }

  lemma BooksKept(c: Config, w: World, v: World)
    requires BooksOk(c, w) && v.log == w.log && v.queue == w.queue && v.rankQueues == w.rankQueues
    ensures BooksOk(c, v)
  {
  }

  /** The world once a replica's new atom is enrolled and, if it was the last one, its status set. */
  function Enrolled(w: World, id: nat, g: Group, now: int): World
    requires id in g
  {
    var e := EnrolPolicy(w, id, g);
    if Arrived(g[id]) then e.(policies := SetStatus(Stamp(e.policies, id, now), {id}, Uninitialized)) else e
  }

  lemma EnrolFacts(w: World, id: nat, atom: nat, size: nat)
    requires Enrol(w.policies, id, atom, size).Some?
    ensures var g := Enrol(w.policies, id, atom, size).value;
            var r := if id in w.policies then w.policies[id] else NewReplica(size, atom);
            && g.Keys == w.policies.Keys + {id} && (forall i :: i in w.policies && i != id ==> g[i] == w.policies[i])
            && g[id] == r.(atoms := r.atoms + {atom}) && g[id].size == size && (id in w.policies ==> atom !in r.atoms)
  {
    assert {atom} + {atom} == {atom};
  }

  lemma EnrolledFacts(w: World, id: nat, g: Group, now: int)
    requires id in g
    ensures var v := Enrolled(w, id, g, now);
            && v.policies.Keys == g.Keys && (forall i :: i in g && i != id ==> v.policies[i] == g[i])
            && v.policies[id] == g[id].(start := v.policies[id].start,
                                        status := if Arrived(g[id]) then Some(Uninitialized) else g[id].status)
  {
  }

  lemma EnrolledRest(w: World, id: nat, g: Group, now: int)
    requires id in g
    ensures var v := Enrolled(w, id, g, now);
            && (forall i :: i in v.policyOrder <==> i in w.policyOrder || (id !in w.policies && i == id))
            && v.step == w.step && v.total == w.total && v.log == w.log && v.queue == w.queue && v.rankQueues == w.rankQueues
            && v.policyReady == w.policyReady
  {
    hide Stamp, SetStatus;
  }

  lemma EnrolledEntry(c: Config, faked: bool, r: Replica, t: Replica, atom: nat)
    requires Proper(r) && Entry(c, faked, r) && atom < r.size && !Arrived(r)
    requires t == r.(atoms := r.atoms + {atom}, start := t.start, status := t.status)
    requires t.status == if Arrived(t) then Some(Uninitialized) else r.status
    ensures Proper(t) && Entry(c, faked, t)
  {
  }

  lemma FreshEntry(c: Config, faked: bool, t: Replica, size: nat, atom: nat)
    requires atom < size && t == NewReplica(size, atom).(start := t.start, status := t.status)
    requires t.status == if Arrived(t) then Some(Uninitialized) else None
    ensures Proper(t) && Entry(c, faked, t)
  {
  }

  lemma EnrolledLedger(c: Config, w: World, id: nat, atom: nat, size: nat, now: int)
    requires Ledger(c, w) && atom < size && Enrol(w.policies, id, atom, size).Some?
    ensures var g := Enrol(w.policies, id, atom, size).value;
            g[id].status.None? && Ledger(c, Enrolled(w, id, g, now))
  {
    hide Proper, Entry, BooksOk, Enrol, Enrolled;
    var g := Enrol(w.policies, id, atom, size).value;
    var v := Enrolled(w, id, g, now);
    EnrolFacts(w, id, atom, size);
    EnrolledFacts(w, id, g, now);
    EnrolledRest(w, id, g, now);
    if id in w.policies {
      var r := w.policies[id];
      if Arrived(r) { AllAtomsThere(r, atom); }
      ProperStatus(r);
      EnrolledEntry(c, w.log.faked, r, v.policies[id], atom);
    } else {
      FreshEntry(c, w.log.faked, v.policies[id], size, atom);
    }
    BooksKept(c, w, v);
  }

  lemma ProperStatus(r: Replica)
    requires Proper(r) && !Arrived(r)
    ensures r.status.None?
  {
  }

  lemma FirstPolicyLedger(c: Config, w: World, id: nat)
    requires Ledger(c, w) && id in w.policies
    ensures var v := FirstPolicyArrives(w, id);
            && Ledger(c, v) && v.policyReady == w.policyReady && AllUnseen(w.policies, v.policies)
            && v.policies[id].status == w.policies[id].status
  {
    hide Ledger, Alike, AllStatus, Unseen, SendPolicyToRollout, BroadcastToRollouts, ArrivedRollouts;
    var r := w.(resumed := true, policies := Load(w.policies, {id}, WeightResume));
    TellUnseen(w.policies, {id}, WeightResume);
    LoadStatuses(w, {id}, WeightResume);
    LoadLedger(c, w, r.policies);
    SameRecordsLedger(c, w.(policies := r.policies), r);
    var ids := SortByStart(r.rollouts, ArrivedRollouts(r));
    RolloutsKnown(r);
    if ids != [] {
      var s := SendPolicyToRollout(r, id, ids[0], None, None);
      SendAlike(c, r, id, ids[0], None, None);
      StatusesOfReady(c, r, s);
      AlikePolicies(c, r, s);
      SentStatus(r, id, ids[0], id);
      UnseenTransitive(w.policies, r.policies, s.policies);
      if |ids| >= r.rolloutInit {
        BroadcastRecords(s, ids[0], AsSet(ids), Some(s.step), None);
        SameRecordsLedger(c, s, BroadcastToRollouts(s, ids[0], AsSet(ids), Some(s.step), None));
      }
    }
  }

  lemma AlikePolicies(c: Config, w: World, v: World)
    requires Alike(c, w, v)
    ensures AllUnseen(w.policies, v.policies)
  {
  }

  lemma SentStatus(w: World, src: nat, dst: nat, id: nat)
    requires dst in w.rollouts && id in w.policies
    ensures id in SendPolicyToRollout(w, src, dst, None, None).policies
    ensures SendPolicyToRollout(w, src, dst, None, None).policies[id].status == w.policies[id].status
  {
  }

  lemma ReadyFlagLedger(c: Config, w: World)
    requires Ledger(c, w)
    ensures Ledger(c, w.(policyReady := true))
  {
    hide Entry, Proper, AllQueued, Flat;
  }

  /** The replicas to be made ready are arrived and none is training, unless the extra last fetch is out. */
  predicate CanBeReady(w: World, ids: set<nat>) {
    forall id :: id in ids && id in w.policies ==> w.policies[id].status.Some? && (w.log.faked || !IsRunning(w.policies[id]))
  }

  lemma UnseenCanBeReady(w: World, v: World, ids: set<nat>)
    requires CanBeReady(w, ids) && AllUnseen(w.policies, v.policies) && v.log == w.log
    ensures CanBeReady(v, ids)
  {
    forall id | id in ids && id in v.policies
      ensures v.policies[id].status.Some? && (v.log.faked || !IsRunning(v.policies[id]))
    {
      assert Unseen(w.policies[id], v.policies[id]);
    }
  }

  lemma NobodyTrainsYet(c: Config, w: World, ids: set<nat>)
    requires Ledger(c, w) && !w.policyReady && forall id :: id in ids ==> id in w.policies && Arrived(w.policies[id])
    ensures CanBeReady(w, ids)
  {
    hide Entry, BooksOk;
    forall id | id in ids
      ensures w.policies[id].status.Some? && (w.log.faked || !IsRunning(w.policies[id]))
    {
      assert Proper(w.policies[id]);
    }
  }

  lemma ArrivedMembers(w: World)
    ensures forall id :: id in SortByStart(w.policies, ArrivedPolicies(w)) ==> id in w.policies && Arrived(w.policies[id])
  {
  }

  lemma InitPoliciesLedger(c: Config, w: World, id: nat)
    requires Ledger(c, w) && id in w.policies && !w.policyReady && |SortByStart(w.policies, ArrivedPolicies(w))| >= w.policyInit
    requires AfterPolicyArrives(c, w, id).Some?
    ensures Ledger(c, AfterPolicyArrives(c, w, id).value)
  {
    hide Ledger, RebuildPolicyMesh, AllStatus, Unseen, ArrivedPolicies, CanBeReady;
    var ids := SortByStart(w.policies, ArrivedPolicies(w));
    var r := w.(policyReady := true);
    var m := RebuildPolicyMesh(c, r);
    ArrivedMembers(w);
    NobodyTrainsYet(c, w, AsSet(ids));
    ReadyFlagLedger(c, w);
    RefusalUnseen(w.policies);
    RebuildLedger(c, r);
    UnseenCanBeReady(w, m, AsSet(ids));
    if |ids| > 1 {
      var cmd := PolicyBroadcast(FirstLoaded(m.policies, ids).value, AsSet(ids), m.total);
      var b := m.(policies := Load(m.policies, AsSet(ids), cmd));
      TellUnseen(m.policies, AsSet(ids), cmd);
      LoadStatuses(m, AsSet(ids), cmd);
      LoadLedger(c, m, b.policies);
      UnseenCanBeReady(m, b, AsSet(ids));
      MakeReady(c, b, AsSet(ids));
    } else {
      MakeReady(c, m, AsSet(ids));
    }
  }

  lemma MakeReady(c: Config, w: World, ids: set<nat>)
    requires Ledger(c, w) && w.policyReady && CanBeReady(w, ids)
    ensures Ledger(c, w.(policies := SetStatus(w.policies, ids, Ready)))
  {
    hide Ledger;
    ReadyLedger(c, w, ids);
  }

  lemma JoinPolicyLedger(c: Config, w: World, id: nat)
    requires Ledger(c, w) && id in w.policies && w.policyReady && w.policies[id].status == Some(Uninitialized)
    requires AfterPolicyArrives(c, w, id).Some?
    ensures Ledger(c, AfterPolicyArrives(c, w, id).value)
  {
    hide Ledger, RebuildPolicyMesh, AllStatus, Unseen, ArrivedPolicies, CanBeReady;
    var ids := SortByStart(w.policies, ArrivedPolicies(w));
    var m := RebuildPolicyMesh(c, w);
    JustArrived(w, id);
    RebuildLedger(c, w);
    UnseenCanBeReady(w, m, {id});
    var src := FirstLoaded(w.policies, ids).value;
    var cmd := PolicyUnicast(src, id, m.total);
    var t := m.(policies := Tell(m.policies, {src}, cmd));
    TellUnseen(m.policies, {src}, cmd);
    LoadStatuses(m, {src}, cmd);
    LoadLedger(c, m, t.policies);
    UnseenCanBeReady(m, t, {id});
    var l := t.(policies := Load(t.policies, {id}, cmd));
    TellUnseen(t.policies, {id}, cmd);
    LoadStatuses(t, {id}, cmd);
    LoadLedger(c, t, l.policies);
    UnseenCanBeReady(t, l, {id});
    MakeReady(c, l, {id});
  }

  lemma JustArrived(w: World, id: nat)
    requires id in w.policies && w.policies[id].status == Some(Uninitialized)
    ensures CanBeReady(w, {id})
  {
  }

  lemma AfterPolicyLedger(c: Config, w: World, id: nat)
    requires Ledger(c, w) && id in w.policies && w.policies[id].status == Some(Uninitialized)
    requires AfterPolicyArrives(c, w, id).Some?
    ensures Ledger(c, AfterPolicyArrives(c, w, id).value)
  {
    hide Ledger, RebuildPolicyMesh, ArrivedPolicies;
    if w.policyReady {
      JoinPolicyLedger(c, w, id);
    } else if |SortByStart(w.policies, ArrivedPolicies(w))| >= w.policyInit {
      InitPoliciesLedger(c, w, id);
    }
  }

  lemma RegisterPolicyLedger(c: Config, w: World, id: nat, atom: nat, size: nat, now: int)
    requires Ledger(c, w) && atom < size && RegisterPolicy(c, w, id, atom, size, now).Some?
    ensures Ledger(c, RegisterPolicy(c, w, id, atom, size, now).value)
  {
    hide Ledger, AfterPolicyArrives, FirstPolicyArrives, Enrol, ArrivedPolicies, Unseen;
    var g := Enrol(w.policies, id, atom, size).value;
    var s := Enrolled(w, id, g, now);
    EnrolledLedger(c, w, id, atom, size, now);
    EnrolledFacts(w, id, g, now);
    if Arrived(g[id]) {
      if |ArrivedPolicies(s)| == 1 {
        FirstPolicyLedger(c, s, id);
        AfterPolicyLedger(c, FirstPolicyArrives(s, id), id);
      } else {
        AfterPolicyLedger(c, s, id);
      }
    }
  }

  lemma UnregisterPolicyLedger(c: Config, w: World, id: nat)
    requires Ledger(c, w) && UnregisterPolicy(c, w, id).Some?
    ensures Ledger(c, UnregisterPolicy(c, w, id).value)
  {
    hide Entry, Proper, BooksOk, RebuildPolicyMesh, ArrivedPolicies;
    var u := w.(policies := w.policies - {id}, policyOrder := Without(w.policyOrder, id));
    BooksKept(c, w, u);
    RebuildLedger(c, u);
  }

  // ---------- every run ----------

  /** Ranks of atoms are below the group size, and replicas report only unreported fetches. */
  predicate Regular(w: World, e: Event) {
    match e
    case PolicyAtom(_, atom, size, _) => atom < size
    case AckIn(id, _, _) => Unreported(w, id)
    case _ => true
  }

  lemma EventLedger(c: Config, w: World, e: Event)
    requires ValidConfig(c) && Ledger(c, w) && Regular(w, e) && After(c, w, e).Some?
    ensures Ledger(c, After(c, w, e).value)
  {
    hide Ledger, RegisterPolicy, UnregisterPolicy, RegisterRollout, UnregisterRollout, PutGroup, TrainAck,
      RolloutEnd, Unreported;
    match e
    case PolicyAtom(id, atom, size, now) => RegisterPolicyLedger(c, w, id, atom, size, now);
    case PolicyGone(id) => UnregisterPolicyLedger(c, w, id);
    case RolloutAtom(id, atom, size, now) => RegisterRolloutLedger(c, w, id, atom, size, now);
    case RolloutGone(id) => UnregisterRolloutLedger(c, w, id);
    case PromptsOut(samples) => SameRecordsLedger(c, w, After(c, w, e).value);
    case GroupIn(xs) => GroupLedger(c, w, xs);
    case AckIn(id, step, lastStep) => AckLedger(c, w, id, step, lastStep);
    case EndIn(id) => EndLedger(c, w, id);
  }

  ghost predicate RegularRun(c: Config, w: World, events: seq<Event>)
    requires ValidConfig(c)
    decreases |events|
  {
    events == [] || (Regular(w, events[0]) && After(c, w, events[0]).Some? && RegularRun(c, After(c, w, events[0]).value, events[1..]))
  }

  lemma {:induction false} RunLedger(c: Config, w: World, events: seq<Event>)
    requires ValidConfig(c) && Ledger(c, w) && RegularRun(c, w, events)
    ensures CanRun(c, w, events) && Ledger(c, Run(c, w, events))
    decreases |events|
  {
    hide Ledger, After, Regular;
    if events != [] {
      EventLedger(c, w, events[0]);
      RunLedger(c, After(c, w, events[0]).value, events[1..]);
    }
  }

  /** Over any run from the start: every rollout buffered was dispatched, cleared at the end, or is still
      queued, each once; with the shared queue and until it is cleared, in the order buffered; every arrived
      replica got exactly one batch for each fetch with rollouts; and until the extra last fetch it is
      training exactly if one of its fetches is unreported. */
  lemma RolloutsConserved(c: Config, policyInit: nat, rolloutInit: nat, step: int, remain: int, events: seq<Event>)
    requires ValidConfig(c) && 0 <= step && RegularRun(c, Opening(policyInit, rolloutInit, step, remain), events)
    ensures CanRun(c, Opening(policyInit, rolloutInit, step, remain), events)
    ensures var w := Run(c, Opening(policyInit, rolloutInit, step, remain), events);
            && Conserved(w) && InOrder(c, w)
            && forall id :: id in w.policies ==> Entry(c, w.log.faked, w.policies[id])
  {
    OpeningLedger(c, policyInit, rolloutInit, step, remain);
    RunLedger(c, Opening(policyInit, rolloutInit, step, remain), events);
  }
}
