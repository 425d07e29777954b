/** Lock step: whatever handler starts a step, it starts it for all replicas at once, after all have reported. */
module ControllerLockStep {
  import opened Common
  import opened ControllerModel
  import opened ControllerFlow
  import opened ControllerLedger
  import opened ControllerMesh

  // ---------- what an event does to the replicas' accounts ----------

  function RealOf(c: Config, g: Group, id: nat): nat {
    if id in g then RealFetches(c, g[id].stream) else 0
  }

  function ReceivedOf(g: Group, id: nat): seq<Rollout> {
    if id in g then g[id].received else []
  }

  /** Nobody was sent a fetch with rollouts, or rollouts. */
  predicate Quiet(c: Config, w: World, v: World) {
    forall id :: id in v.policies ==>
      RealOf(c, v.policies, id) == RealOf(c, w.policies, id) && ReceivedOf(v.policies, id) == ReceivedOf(w.policies, id)
  }

  /** A replica's part in a step: it has reported every fetch it was ever sent, gets one more and one batch. */
  predicate TakesPart(c: Config, r: Replica, t: Replica) {
    && Fetches(r.stream) == t.acks && Fetches(t.stream) == Fetches(r.stream) + 1
    && RealFetches(c, t.stream) == RealFetches(c, r.stream) + 1 && |t.received| == |r.received| + c.batch && IsRunning(t)
  }

  /** One step was started, for all arrived replicas and for nobody else. */
  predicate Stepped(c: Config, w: World, v: World) {
    && v.step == w.step + 1 && v.policies.Keys == w.policies.Keys && ArrivedPolicies(v) == ArrivedPolicies(w)
    && (forall id :: id in w.policies && id in ArrivedPolicies(w) ==> TakesPart(c, w.policies[id], v.policies[id]))
    && (forall id :: id in w.policies && id !in ArrivedPolicies(w) ==> v.policies[id].stream == w.policies[id].stream)
  }

  /** Fetches and batches so far are the same. */
  predicate SameBook(c: Config, r: Replica, t: Replica) {
    && Fetches(t.stream) == Fetches(r.stream) && RealFetches(c, t.stream) == RealFetches(c, r.stream)
    && t.received == r.received && (Arrived(t) <==> Arrived(r)) && (!Arrived(r) ==> t.stream == r.stream)
  }

  predicate SameBooks(c: Config, w: World, v: World) {
    && v.step == w.step && v.policyOrder == w.policyOrder && v.policies.Keys == w.policies.Keys
    && forall id :: id in w.policies ==> SameBook(c, w.policies[id], v.policies[id])
  }

  lemma SameBooksArrived(c: Config, w: World, v: World)
    requires SameBooks(c, w, v)
    ensures ArrivedPolicies(v) == ArrivedPolicies(w)
  {
    assert forall id :: id in w.policies ==> SameBook(c, w.policies[id], v.policies[id]);
    ArrivedSame(w.policies, v.policies, w.policyOrder);
  }

  lemma SameBooksQuiet(c: Config, w: World, v: World)
    requires SameBooks(c, w, v)
    ensures Quiet(c, w, v)
  {
    assert forall id :: id in w.policies ==> SameBook(c, w.policies[id], v.policies[id]);
  }

  lemma SameBooksTransitive(c: Config, a: World, b: World, d: World)
    requires SameBooks(c, a, b) && SameBooks(c, b, d)
    ensures SameBooks(c, a, d)
  {
    forall id | id in a.policies
      ensures SameBook(c, a.policies[id], d.policies[id])
    {
      assert SameBook(c, a.policies[id], b.policies[id]) && SameBook(c, b.policies[id], d.policies[id]);
    }
  }

  lemma SamePoliciesBooks(c: Config, w: World, v: World)
    requires v.policies == w.policies && v.policyOrder == w.policyOrder && v.step == w.step
    ensures SameBooks(c, w, v)
  {
  }

  /** The arrived replicas in the order of registration are known. */
  ghost predicate OrderKnown(w: World) {
    forall id :: id in w.policies <==> id in w.policyOrder
  }

  lemma SteppedFrom(c: Config, w: World, s: World, v: World)
    requires SameBooks(c, w, s) && Stepped(c, s, v) && OrderKnown(w)
    ensures Stepped(c, w, v)
  {
    hide Fetches, RealFetches;
    SameBooksArrived(c, w, s);
    forall id | id in w.policies
      ensures id in ArrivedPolicies(w) ==> TakesPart(c, w.policies[id], v.policies[id])
      ensures id !in ArrivedPolicies(w) ==> v.policies[id].stream == w.policies[id].stream
    {
      assert SameBook(c, w.policies[id], s.policies[id]);
      if id in ArrivedPolicies(w) {
        assert TakesPart(c, s.policies[id], v.policies[id]);
      }
    }
  }

  lemma QuietFrom(c: Config, w: World, s: World, v: World)
    requires SameBooks(c, w, s) && Quiet(c, s, v)
    ensures Quiet(c, w, v)
  {
    forall id | id in v.policies
      ensures RealOf(c, v.policies, id) == RealOf(c, w.policies, id) && ReceivedOf(v.policies, id) == ReceivedOf(w.policies, id)
    {
      assert id in w.policies ==> SameBook(c, w.policies[id], s.policies[id]);
    }
  }

  // ---------- starting a step ----------

  lemma TriggerSteps(c: Config, w: World)
    requires ValidConfig(c) && Ledger(c, w) && Triggers(c, w, false) && TryTrigger(c, w, false).Some?
    ensures Stepped(c, w, TryTrigger(c, w, false).value)
  {
    hide TryTrigger, BooksOk, ArrivedPolicies, Enough, FetchOf, Fetches, RealFetches, AllStatus;
    var v := TryTrigger(c, w, false).value;
    TriggerReplicas(c, w, false);
    TriggerFaked(c, w, false);
    NotFakedBefore(c, w, false);
    SamePoliciesArrived(w, v);
    forall id | id in w.policies && id in ArrivedPolicies(w)
      ensures TakesPart(c, w.policies[id], v.policies[id])
    {
      LaunchedReplica(c, w, false, id);
      NotRunningBefore(c, w, false, id);
      assert Entry(c, w.log.faked, w.policies[id]);
      RealFetchOf(c, w, w.policies[id].stream);
    }
  }

  lemma RealFetchOf(c: Config, w: World, stream: seq<Command>)
    ensures Fetches(stream + [FetchOf(c, w, false)]) == Fetches(stream) + 1
    ensures RealFetches(c, stream + [FetchOf(c, w, false)]) == RealFetches(c, stream) + 1
  {
    OneMoreCommand(c, stream, FetchOf(c, w, false));
  }

  /** Trying to start a step starts one for all or does nothing. */
  lemma TriggerLockStep(c: Config, w: World)
    requires ValidConfig(c) && Ledger(c, w) && TryTrigger(c, w, false).Some?
    ensures TryTrigger(c, w, false).value == w || Stepped(c, w, TryTrigger(c, w, false).value)
  {
    hide TryTrigger, Triggers, Ledger;
    if Triggers(c, w, false) {
      TriggerSteps(c, w);
    } else {
      NoTrigger(c, w, false);
    }
  }

  lemma ExtraDispatch(c: Config, w: World, id: nat)
    requires Dispatch(c, w, true).Some? && id in w.policies
    ensures id in Dispatch(c, w, true).value.policies && Dispatch(c, w, true).value.policies[id].received == w.policies[id].received
  {
    hide ArrivedPolicies, SortByPrompt, DealtByRank, Served;
    var d := Dispatch(c, w, true).value;
    if c.byRank {
      var ids := SortByStart(w.policies, ArrivedPolicies(w));
      if id in ids {
        var qs := SortedQueues(w.rankQueues, |ArrivedPolicies(w)|);
        assert d.policies[id] == Given(w.policies[id], qs[IndexOf(ids, id)][..0]);
        assert w.policies[id].received + [] == w.policies[id].received;
      }
    }
  }

  lemma ExtraReceived(c: Config, w: World, id: nat)
    requires Triggers(c, w, true) && TryTrigger(c, w, true).Some? && id in w.policies
    ensures var v := TryTrigger(c, w, true).value;
            id in v.policies && v.policies[id].received == w.policies[id].received
  {
    hide Triggers, Dispatch, FetchOf;
    ExtraDispatch(c, w, id);
    LaunchReceived(c, w, Dispatch(c, w, true).value, true, id);
  }

  /** The extra last fetch brings no rollouts. */
  lemma ExtraQuiet(c: Config, w: World)
    requires ValidConfig(c) && TryTrigger(c, w, true).Some?
    ensures Quiet(c, w, TryTrigger(c, w, true).value)
  {
    hide TryTrigger, Triggers, ArrivedPolicies, RealFetches;
    if Triggers(c, w, true) {
      TriggerReplicas(c, w, true);
      var v := TryTrigger(c, w, true).value;
      forall id | id in v.policies
        ensures RealOf(c, v.policies, id) == RealOf(c, w.policies, id) && ReceivedOf(v.policies, id) == ReceivedOf(w.policies, id)
      {
        if id in ArrivedPolicies(w) {
          assert IsServed(w.policies[id], v.policies[id], FetchOf(c, w, true));
          OneMoreCommand(c, w.policies[id].stream, FetchOf(c, w, true));
          ExtraReceived(c, w, id);
        }
      }
    } else {
      NoTrigger(c, w, true);
    }
  }

  // ---------- rollouts coming in ----------

  lemma RunningBlocks(c: Config, w: World)
    requires SomeoneRunning(w)
    ensures TryTrigger(c, w, false) == Some(w)
  {
    var id :| id in w.policies && IsRunning(w.policies[id]);
    assert !AllStatus(w, {Ready, Reduced});
  }

  lemma BufferSame(c: Config, w: World, x: Rollout)
    requires Buffer(c, w, x).Some?
    ensures var b := Buffer(c, w, x).value;
            b.policies == w.policies && b.policyOrder == w.policyOrder && b.step == w.step
  {
  }

  /** While somebody is training no step starts. */
  lemma {:induction false} PutEachWhileRunning(c: Config, w: World, xs: seq<Rollout>)
    requires SomeoneRunning(w) && PutEach(c, w, xs).Some?
    ensures var v := PutEach(c, w, xs).value;
            v.policies == w.policies && v.policyOrder == w.policyOrder && v.step == w.step
    decreases |xs|
  {
    hide TryTrigger, Buffer;
    if xs != [] {
      BufferSame(c, w, xs[0]);
      RunningBlocks(c, Buffer(c, w, xs[0]).value);
      var p := PutRollout(c, w, xs[0]).value;
      if !(c.onPolicy && Pending(c, p) == 0) {
        PutEachWhileRunning(c, p, xs[1..]);
      }
    }
  }

  lemma SteppedRunning(c: Config, w: World, v: World)
    requires Stepped(c, w, v) && ArrivedPolicies(w) != []
    ensures SomeoneRunning(v)
  {
    hide Fetches, RealFetches;
    var id := ArrivedPolicies(w)[0];
    assert id in ArrivedPolicies(w);
    assert TakesPart(c, w.policies[id], v.policies[id]);
  }

  lemma SteppedThen(c: Config, w: World, p: World, v: World)
    requires Stepped(c, w, p) && v.policies == p.policies && v.policyOrder == p.policyOrder && v.step == p.step
    ensures Stepped(c, w, v)
  {
    hide Fetches, RealFetches;
    assert ArrivedPolicies(v) == ArrivedPolicies(p);
  }

  lemma {:induction false} PutEachLockStep(c: Config, w: World, xs: seq<Rollout>)
    requires ValidConfig(c) && Ledger(c, w) && PutEach(c, w, xs).Some?
    ensures Quiet(c, w, PutEach(c, w, xs).value) || Stepped(c, w, PutEach(c, w, xs).value)
    decreases |xs|
  {
    hide Ledger, TryTrigger, Buffer, Quiet, Stepped, SameBooks;
    LedgerKnows(c, w);
    if xs == [] {
      SamePoliciesBooks(c, w, w);
      SameBooksQuiet(c, w, w);
    } else {
      var b := Buffer(c, w, xs[0]).value;
      BufferSame(c, w, xs[0]);
      BufferLedger(c, w, xs[0]);
      SamePoliciesBooks(c, w, b);
      TriggerLockStep(c, b);
      TriggerLedger(c, b, false);
      var p := PutRollout(c, w, xs[0]).value;
      var v := PutEach(c, w, xs).value;
      if p == b {
        RestLockStep(c, w, b, xs, v);
      } else {
        SteppedFrom(c, w, b, p);
        OnlyWhenArrived(c, b);
        SteppedRunning(c, b, p);
        if !(c.onPolicy && Pending(c, p) == 0) { PutEachWhileRunning(c, p, xs[1..]); }
        SteppedThen(c, w, p, v);
      }
    }
  }

  /** Nothing was started by the first rollout: the rest decides. */
  lemma {:induction false} RestLockStep(c: Config, w: World, b: World, xs: seq<Rollout>, v: World)
    requires ValidConfig(c) && Ledger(c, b) && OrderKnown(w) && xs != [] && SameBooks(c, w, b)
    requires PutEach(c, w, xs) == Some(v) && PutRollout(c, w, xs[0]) == Some(b)
    ensures Quiet(c, w, v) || Stepped(c, w, v)
    decreases |xs|, 0
  {
    hide Ledger, TryTrigger, Buffer, PutRollout, Quiet, Stepped;
    if c.onPolicy && Pending(c, b) == 0 {
      SamePoliciesBooks(c, b, v);
      SameBooksTransitive(c, w, b, v);
      SameBooksQuiet(c, w, v);
    } else {
      PutEachLockStep(c, b, xs[1..]);
      if Quiet(c, b, v) { QuietFrom(c, w, b, v); } else { SteppedFrom(c, w, b, v); }
    }
  }

  lemma LedgerKnows(c: Config, w: World)
    requires Ledger(c, w)
    ensures OrderKnown(w)
  {
  }

  lemma OnlyWhenArrived(c: Config, w: World)
    ensures TryTrigger(c, w, false) == Some(w) || ArrivedPolicies(w) != []
  {
  }

  lemma GroupLockStep(c: Config, w: World, xs: seq<Rollout>)
    requires ValidConfig(c) && Ledger(c, w) && PutGroup(c, w, xs).Some?
    ensures Quiet(c, w, PutGroup(c, w, xs).value) || Stepped(c, w, PutGroup(c, w, xs).value)
  {
    hide Ledger, PutEach, Quiet, Stepped, SameBooks;
    var kept := FreshOnes(c, w, xs);
    var p := w.(remain := w.remain - (|xs| - |kept|));
    var v := PutGroup(c, w, xs).value;
    LedgerKnows(c, w);
    SameRecordsLedger(c, w, p);
    SamePoliciesBooks(c, w, p);
    if c.onPolicy && p.stepSampled {
      SamePoliciesBooks(c, w, v);
      SameBooksQuiet(c, w, v);
    } else {
      PutEachLockStep(c, p, kept);
      if Quiet(c, p, v) { QuietFrom(c, w, p, v); } else { SteppedFrom(c, w, p, v); }
    }
  }

  // ---------- reports ----------

  lemma AckedAccounts(c: Config, w: World, id: nat)
    requires id in w.policies
    ensures SameBooks(c, w, Acked(w, id))
  {
    hide Fetches, RealFetches;
  }

  lemma DoneAccounts(c: Config, w: World)
    ensures SameBooks(c, w, StepDone(c, w))
  {
    hide Fetches, RealFetches;
  }

  /** Replicas outside the group of the arrived ones are not told anything here. */
  lemma SyncAccounts(c: Config, w: World, step: int, lastStep: int)
    requires ValidConfig(c)
    ensures SameBooks(c, w, SyncIfDue(c, w, step, lastStep))
  {
    hide SendPolicyToRollout, BroadcastToRollouts, ArrivedRollouts, Fetches, RealFetches;
    var v := SyncIfDue(c, w, step, lastStep);
    var src := SortByStart(w.policies, ArrivedPolicies(w));
    var ids := SortByStart(w.rollouts, ArrivedRollouts(w));
    RolloutsKnown(w);
    ArrivedMembers(w);
    if src != [] && ids != [] {
      assert src[0] in src && ids[0] in ids;
      SentAccounts(c, w, src[0], ids[0], Some(step), Some(lastStep));
      var s := SendPolicyToRollout(w, src[0], ids[0], Some(step), Some(lastStep));
      SamePoliciesAfterBroadcast(s, ids[0], AsSet(ids), Some(step), Some(lastStep));
      SamePoliciesBooks(c, s, BroadcastToRollouts(s, ids[0], AsSet(ids), Some(step), Some(lastStep)));
      SameBooksTransitive(c, w, s, BroadcastToRollouts(s, ids[0], AsSet(ids), Some(step), Some(lastStep)));
    } else {
      SamePoliciesBooks(c, w, v);
    }
  }

  lemma SentAccounts(c: Config, w: World, src: nat, dst: nat, weightStep: Option<int>, lastStep: Option<int>)
    requires dst in w.rollouts && (src in w.policies ==> Arrived(w.policies[src]))
    ensures SameBooks(c, w, SendPolicyToRollout(w, src, dst, weightStep, lastStep))
    ensures SendPolicyToRollout(w, src, dst, weightStep, lastStep).rollouts.Keys == w.rollouts.Keys
  {
    hide Fetches, RealFetches;
    var cmd := PolicyToRollout(src, dst, w.rollouts[dst].loaded, weightStep, lastStep);
    var v := SendPolicyToRollout(w, src, dst, weightStep, lastStep);
    forall id | id in w.policies
      ensures SameBook(c, w.policies[id], v.policies[id])
    {
      OneMoreCommand(c, w.policies[id].stream, cmd);
    }
  }

  lemma SamePoliciesAfterBroadcast(w: World, src: nat, dsts: set<nat>, weightStep: Option<int>, lastStep: Option<int>)
    requires src in w.rollouts
    ensures var v := BroadcastToRollouts(w, src, dsts, weightStep, lastStep);
            v.policies == w.policies && v.policyOrder == w.policyOrder && v.step == w.step
  {
  }

  lemma AckLockStep(c: Config, w: World, id: nat, step: int, lastStep: int)
    requires ValidConfig(c) && Ledger(c, w) && Unreported(w, id) && TrainAck(c, w, id, step, lastStep).Some?
    ensures var v := TrainAck(c, w, id, step, lastStep).value;
            Quiet(c, w, v) || Stepped(c, w, v)
  {
    hide BooksOk, StagesOk, AccountsOk, Alike, AllStatus, SyncIfDue, StepDone, TryTrigger, Acked, Quiet, Stepped, SameBooks;
    LedgerKnows(c, w);
    AckedLedger(c, w, id);
    var a := Acked(w, id);
    AckedAccounts(c, w, id);
    var v := TrainAck(c, w, id, step, lastStep).value;
    if AllStatus(a, {Reduced}) {
      var b := StepDone(c, a);
      DoneAlike(c, a);
      DoneAccounts(c, a);
      var s := SyncIfDue(c, b, step, lastStep);
      SyncAlike(c, b, step, lastStep);
      SyncAccounts(c, b, step, lastStep);
      AlikeTransitive(c, a, b, s);
      AlikeLog(c, a, s);
      AlikeLedger(c, a, s);
      SameBooksTransitive(c, w, a, b);
      SameBooksTransitive(c, w, b, s);
      TriggerLockStep(c, s);
      var t := TryTrigger(c, s, false).value;
      if t == s {
        SamePoliciesBooks(c, s, v);
        SameBooksTransitive(c, w, s, v);
        SameBooksQuiet(c, w, v);
      } else {
        SteppedFrom(c, w, s, t);
        SteppedThen(c, w, t, v);
      }
    } else {
      SameBooksQuiet(c, w, v);
    }
  }

  // ---------- other events start no step ----------

  lemma EndQuiet(c: Config, w: World, id: nat)
    requires ValidConfig(c) && RolloutEnd(c, w, id).Some?
    ensures Quiet(c, w, RolloutEnd(c, w, id).value)
  {
    hide Conclude, RealFetches;
    var e := MarkEnded(w, id);
    assert e.policies == w.policies;
    if AllEnded(e) { ConcludeQuiet(c, e); }
  }

  lemma ConcludeQuiet(c: Config, w: World)
    requires ValidConfig(c) && Conclude(c, w).Some?
    ensures Quiet(c, w, Conclude(c, w).value)
  {
    hide Recompute, TryTrigger, RealFetches;
    var t := Recompute(c, w, Pending(c, w));
    RecomputeSame(c, w, Pending(c, w));
    if !(t.total > t.step || t.step == w.total) {
      ExtraQuiet(c, Curtailed(t));
    }
  }

  lemma UnseenQuiet(c: Config, w: World, v: World)
    requires AllUnseen(w.policies, v.policies)
    ensures Quiet(c, w, v)
  {
    forall id | id in v.policies
      ensures RealOf(c, v.policies, id) == RealOf(c, w.policies, id) && ReceivedOf(v.policies, id) == ReceivedOf(w.policies, id)
    {
      assert Unseen(w.policies[id], v.policies[id]);
    }
  }

  lemma QuietTransitive(c: Config, a: World, b: World, d: World)
    requires Quiet(c, a, b) && Quiet(c, b, d) && d.policies.Keys <= b.policies.Keys
    ensures Quiet(c, a, d)
  {
    forall id | id in d.policies
      ensures RealOf(c, d.policies, id) == RealOf(c, a.policies, id) && ReceivedOf(d.policies, id) == ReceivedOf(a.policies, id)
    {
      assert RealOf(c, b.policies, id) == RealOf(c, a.policies, id) && ReceivedOf(b.policies, id) == ReceivedOf(a.policies, id);
    }
  }

  lemma GreetQuiet(c: Config, w: World, id: nat)
    requires id in w.rollouts
    ensures Quiet(c, w, GreetRollout(w, id)) && GreetRollout(w, id).policies.Keys == w.policies.Keys
  {
    hide SendPolicyToRollout, ArrivedRollouts, SortByStart, Unseen;
    RefusalUnseen(w.policies);
    UnseenQuiet(c, w, w);
    var src := FirstLoaded(w.policies, SortByStart(w.policies, w.policyOrder));
    if src.Some? {
      SendAlike(c, w, src.value, id, None, None);
      UnseenQuiet(c, w, SendPolicyToRollout(w, src.value, id, None, None));
    }
  }

  lemma RolloutArrivalQuiet(c: Config, w: World, id: nat)
    requires id in w.rollouts && AfterRolloutArrives(w, id).Some?
    ensures Quiet(c, w, AfterRolloutArrives(w, id).value)
  {
    hide GreetRollout, ArrivedRollouts, BuildMeshIn, InitRollouts, RealFetches;
    GreetQuiet(c, w, id);
    InitPolicies(GreetRollout(w, id));
    assert AfterRolloutArrives(w, id).value.policies == GreetRollout(w, id).policies;
  }

  lemma RegisterRolloutQuiet(c: Config, w: World, id: nat, atom: nat, size: nat, now: int)
    requires RegisterRollout(w, id, atom, size, now).Some?
    ensures Quiet(c, w, RegisterRollout(w, id, atom, size, now).value)
  {
    hide AfterRolloutArrives, Stamp, Enrol, RealFetches;
    var g := Enrol(w.rollouts, id, atom, size).value;
    if Arrived(g[id]) {
      StampKeys(g, id, now);
      RolloutArrivalQuiet(c, EnrolRollout(w, id, g).(rollouts := Stamp(g, id, now)), id);
    }
  }

  lemma UnregisterRolloutQuiet(c: Config, w: World, id: nat)
    requires UnregisterRollout(w, id).Some?
    ensures Quiet(c, w, UnregisterRollout(w, id).value)
  {
    hide BuildMeshIn, SortByStart, RealFetches;
    assert UnregisterRollout(w, id).value.policies == w.policies;
  }

  lemma StatusQuiet(c: Config, w: World, ids: set<nat>, s: Status)
    ensures Quiet(c, w, w.(policies := SetStatus(w.policies, ids, s)))
  {
    hide RealFetches;
  }

  lemma ToldQuiet(c: Config, w: World, ids: set<nat>, cmd: Command)
    requires !cmd.DataFetch?
    ensures Quiet(c, w, w.(policies := Load(w.policies, ids, cmd))) && Quiet(c, w, w.(policies := Tell(w.policies, ids, cmd)))
  {
    hide Unseen;
    TellUnseen(w.policies, ids, cmd);
    UnseenQuiet(c, w, w.(policies := Load(w.policies, ids, cmd)));
    UnseenQuiet(c, w, w.(policies := Tell(w.policies, ids, cmd)));
  }

  lemma RebuildQuiet(c: Config, w: World)
    ensures Quiet(c, w, RebuildPolicyMesh(c, w)) && RebuildPolicyMesh(c, w).policies.Keys == w.policies.Keys
  {
    hide RebuildPolicyMesh, Unseen;
    RebuildFields(c, w);
    MeshUnseen(w.policies, SortByStart(w.policies, ArrivedPolicies(w)));
    UnseenQuiet(c, w, RebuildPolicyMesh(c, w));
  }

  lemma AfterPolicyQuiet(c: Config, w: World, id: nat)
    requires id in w.policies && AfterPolicyArrives(c, w, id).Some?
    ensures Quiet(c, w, AfterPolicyArrives(c, w, id).value) && AfterPolicyArrives(c, w, id).value.policies.Keys == w.policies.Keys
  {
    hide Quiet, RebuildPolicyMesh, ArrivedPolicies;
    var ids := SortByStart(w.policies, ArrivedPolicies(w));
    if !w.policyReady && |ids| >= w.policyInit {
      var r := w.(policyReady := true);
      var m := RebuildPolicyMesh(c, r);
      RebuildQuiet(c, r);
      FlagQuiet(c, w, m);
      if |ids| > 1 {
        var cmd := PolicyBroadcast(FirstLoaded(m.policies, ids).value, AsSet(ids), m.total);
        ReadyQuiet(c, w, m, AsSet(ids), cmd);
      } else {
        StatusQuiet(c, m, AsSet(ids), Ready);
        QuietTransitive(c, w, m, m.(policies := SetStatus(m.policies, AsSet(ids), Ready)));
      }
    } else if w.policyReady {
      var m := RebuildPolicyMesh(c, w);
      RebuildQuiet(c, w);
      var src := FirstLoaded(w.policies, ids).value;
      var cmd := PolicyUnicast(src, id, m.total);
      var t := m.(policies := Tell(m.policies, {src}, cmd));
      ToldQuiet(c, m, {src}, cmd);
      QuietTransitive(c, w, m, t);
      ReadyQuiet(c, w, t, {id}, cmd);
    } else {
      SamePoliciesBooks(c, w, w);
      SameBooksQuiet(c, w, w);
    }
  }

  lemma FlagQuiet(c: Config, w: World, m: World)
    requires Quiet(c, w.(policyReady := true), m)
    ensures Quiet(c, w, m)
  {
  }

  lemma ReadyQuiet(c: Config, w: World, m: World, ids: set<nat>, cmd: Command)
    requires Quiet(c, w, m) && !cmd.DataFetch?
    ensures Quiet(c, w, m.(policies := SetStatus(Load(m.policies, ids, cmd), ids, Ready)))
  {
    hide Quiet;
    var b := m.(policies := Load(m.policies, ids, cmd));
    ToldQuiet(c, m, ids, cmd);
    QuietTransitive(c, w, m, b);
    StatusQuiet(c, b, ids, Ready);
    QuietTransitive(c, w, b, b.(policies := SetStatus(b.policies, ids, Ready)));
  }

  lemma EnrolledQuiet(c: Config, w: World, id: nat, atom: nat, size: nat, now: int)
    requires Enrol(w.policies, id, atom, size).Some?
    ensures Quiet(c, w, Enrolled(w, id, Enrol(w.policies, id, atom, size).value, now))
  {
    hide Enrol, Enrolled, RealFetches;
    var g := Enrol(w.policies, id, atom, size).value;
    EnrolFacts(w, id, atom, size);
    EnrolledFacts(w, id, g, now);
    NoCommands(c);
  }

  lemma NoCommands(c: Config)
    ensures RealFetches(c, []) == 0
  {
  }

  lemma RegisterPolicyQuiet(c: Config, w: World, id: nat, atom: nat, size: nat, now: int)
    requires Ledger(c, w) && atom < size && RegisterPolicy(c, w, id, atom, size, now).Some?
    ensures Quiet(c, w, RegisterPolicy(c, w, id, atom, size, now).value)
  {
    hide Ledger, AfterPolicyArrives, FirstPolicyArrives, Enrol, ArrivedPolicies, Unseen, Quiet;
    var g := Enrol(w.policies, id, atom, size).value;
    var s := Enrolled(w, id, g, now);
    EnrolledLedger(c, w, id, atom, size, now);
    EnrolledFacts(w, id, g, now);
    EnrolledQuiet(c, w, id, atom, size, now);
    if Arrived(g[id]) {
      if |ArrivedPolicies(s)| == 1 {
        var f := FirstPolicyArrives(s, id);
        FirstPolicyLedger(c, s, id);
        UnseenQuiet(c, s, f);
        QuietTransitive(c, w, s, f);
        AfterPolicyQuiet(c, f, id);
        QuietTransitive(c, w, f, AfterPolicyArrives(c, f, id).value);
      } else {
        AfterPolicyQuiet(c, s, id);
        QuietTransitive(c, w, s, AfterPolicyArrives(c, s, id).value);
      }
    }
  }

  lemma UnregisterPolicyQuiet(c: Config, w: World, id: nat)
    requires UnregisterPolicy(c, w, id).Some?
    ensures Quiet(c, w, UnregisterPolicy(c, w, id).value)
  {
    hide RebuildPolicyMesh, RealFetches;
    var u := w.(policies := w.policies - {id}, policyOrder := Without(w.policyOrder, id));
    assert Quiet(c, w, u);
    RebuildQuiet(c, u);
    QuietTransitive(c, w, u, RebuildPolicyMesh(c, u));
  }

  // ---------- every run ----------

  /** An event starts one step for all arrived replicas or none for anybody. */
  lemma EventLockStep(c: Config, w: World, e: Event)
    requires ValidConfig(c) && Ledger(c, w) && Regular(w, e) && After(c, w, e).Some?
    ensures Quiet(c, w, After(c, w, e).value) || Stepped(c, w, After(c, w, e).value)
  {
    hide Ledger, RegisterPolicy, UnregisterPolicy, RegisterRollout, UnregisterRollout, PutGroup, TrainAck, RolloutEnd, Unreported,
      Quiet, Stepped;
    match e
    case PolicyAtom(id, atom, size, now) => RegisterPolicyQuiet(c, w, id, atom, size, now);
    case PolicyGone(id) => UnregisterPolicyQuiet(c, w, id);
    case RolloutAtom(id, atom, size, now) => RegisterRolloutQuiet(c, w, id, atom, size, now);
    case RolloutGone(id) => UnregisterRolloutQuiet(c, w, id);
    case PromptsOut(samples) =>
      SamePoliciesBooks(c, w, After(c, w, e).value);
      SameBooksQuiet(c, w, After(c, w, e).value);
    case GroupIn(xs) => GroupLockStep(c, w, xs);
    case AckIn(id, step, lastStep) => AckLockStep(c, w, id, step, lastStep);
    case EndIn(id) => EndQuiet(c, w, id);
  }

  /** Lock step, over every run: if an event publishes a fetch with rollouts to any replica, then at that moment
      every arrived replica had reported every fetch it was ever sent (the event's own report included), and each
      of them gets exactly one such fetch and one batch. */
  lemma LockStep(c: Config, policyInit: nat, rolloutInit: nat, step: int, remain: int, events: seq<Event>, e: Event, id: nat)
    requires ValidConfig(c) && 0 <= step && RegularRun(c, Opening(policyInit, rolloutInit, step, remain), events)
    requires CanRun(c, Opening(policyInit, rolloutInit, step, remain), events)
    requires var w := Run(c, Opening(policyInit, rolloutInit, step, remain), events);
             && Regular(w, e) && After(c, w, e).Some? && id in After(c, w, e).value.policies
             && RealOf(c, After(c, w, e).value.policies, id) > RealOf(c, w.policies, id)
    ensures var w := Run(c, Opening(policyInit, rolloutInit, step, remain), events);
            var v := After(c, w, e).value;
            && v.step == w.step + 1 && ArrivedPolicies(v) == ArrivedPolicies(w) && id in ArrivedPolicies(w)
            && forall i :: i in ArrivedPolicies(w) ==> i in w.policies && i in v.policies && TakesPart(c, w.policies[i], v.policies[i])
  {
    var w := Run(c, Opening(policyInit, rolloutInit, step, remain), events);
    OpeningLedger(c, policyInit, rolloutInit, step, remain);
    RunLedger(c, Opening(policyInit, rolloutInit, step, remain), events);
    EventLockStep(c, w, e);
    hide Ledger, Regular, After, TakesPart, RealFetches;
    ArrivedKnown(w);
  }
}
