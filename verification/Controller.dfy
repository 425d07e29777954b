/** The controller as an object whose handlers update its fields; each does exactly what its function in
    ControllerModel says. A handler that raises returns false, and its effect is then left open. */
module Controller {
  import opened Arithmetic
  import opened Common
  import opened ControllerModel
  import opened ControllerFlow
  import opened ControllerMesh
  import opened ControllerLoops

  /** An insertion order lists exactly the registered replicas, each once. */
  ghost predicate Registered(order: seq<nat>, g: Group) {
    Distinct(order) && forall id :: id in order <==> id in g
  }

  lemma RegisteredSame(order: seq<nat>, g: Group, h: Group)
    requires Registered(order, g) && h.Keys == g.Keys
    ensures Registered(order, h)
  {
  }

  /** The arrived replicas, in whatever order, are registered and listed once. */
  lemma ArrivedRegistered(g: Group, order: seq<nat>)
    requires Registered(order, g)
    ensures Distinct(ArrivedIn(g, order)) && forall id :: id in ArrivedIn(g, order) ==> id in g
    ensures Distinct(SortByStart(g, ArrivedIn(g, order))) && forall id :: id in SortByStart(g, ArrivedIn(g, order)) ==> id in g
  {
    ArrivedDistinct(g, order);
    SortDistinct(g, ArrivedIn(g, order));
  }

  class StatusManager {
    const config: Config
    var policies: Group
    var policyOrder: seq<nat>
    var policyInit: nat
    var policyReady: bool
    var resumed: bool
    var rollouts: Group
    var rolloutOrder: seq<nat>
    var rolloutInit: nat
    var rolloutReady: bool
    var step: int
    var total: int
    var remain: int
    var inFlight: int
    var queue: seq<Rollout>
    var rankQueues: seq<seq<Rollout>>
    var stepSampled: bool
    ghost var log: Log

    constructor (config: Config, policyInit: nat, rolloutInit: nat, step: int, remain: int)
      requires ValidConfig(config)
      ensures Valid() && this.config == config && View() == Opening(policyInit, rolloutInit, step, remain)
    {
      this.config := config;
      this.policyInit, this.rolloutInit, this.step, this.remain := policyInit, rolloutInit, step, remain;
      policies, policyOrder, policyReady, resumed := map[], [], false, false;
      rollouts, rolloutOrder, rolloutReady := map[], [], false;
      total, inFlight, queue, rankQueues, stepSampled := 0, 0, [], [], false;
      log := Log([], [], [], false);
    }

    ghost function View(): World
      reads this
    {
      World(policies, policyOrder, policyInit, policyReady, resumed, rollouts, rolloutOrder, rolloutInit, rolloutReady,
            step, total, remain, inFlight, queue, rankQueues, stepSampled, log)
    }

    /** The insertion orders list exactly the registered replicas. */
    ghost predicate Valid()
      reads this
    {
      ValidConfig(config) && Registered(policyOrder, policies) && Registered(rolloutOrder, rollouts)
    }

    // ---------- queries ----------

    method AllWithStatus(allowed: set<Status>) returns (b: bool)
      requires Valid()
      ensures b <==> AllStatus(View(), allowed)
    {
      for i := 0 to |policyOrder|
        invariant forall j :: 0 <= j < i && policies[policyOrder[j]].status.Some? ==> policies[policyOrder[j]].status.value in allowed
      {
        assert policyOrder[i] in policyOrder;
        var r := policies[policyOrder[i]];
        if r.status.Some? && r.status.value !in allowed {
          return false;
        }
      }
      return true;
    }

    method TotalPending() returns (n: nat)
      ensures n == Pending(config, View())
    {
      if config.byRank {
        n := 0;
        for i := 0 to |rankQueues|
          invariant n == QueuedIn(rankQueues[..i])
        {
          assert rankQueues[..i + 1][..i] == rankQueues[..i];
          n := n + |rankQueues[i]|;
        }
        assert rankQueues[..|rankQueues|] == rankQueues;
      } else {
        n := |queue|;
      }
    }

    method EnoughForOneStep(ids: seq<nat>) returns (b: bool)
      requires ids == ArrivedPolicies(View())
      ensures b <==> Enough(config, View())
    {
      if config.byRank {
        for i := 0 to |rankQueues|
          invariant forall j :: 0 <= j < i ==> |rankQueues[j]| >= config.batch
        {
          if |rankQueues[i]| < config.batch {
            return false;
          }
        }
        return true;
      }
      return |queue| >= config.batch * |ids|;
    }

    // ---------- steps ----------

    /** Takes the rollouts of a step from the queues and hands them to the arrived replicas. */
    method DispatchRollouts(ids: seq<nat>, fake: bool) returns (ok: bool)
      requires Valid() && ids == ArrivedPolicies(View()) && (fake || Enough(config, View()))
      modifies `policies, `queue, `rankQueues, `log
      ensures ok <==> Dispatch(config, old(View()), fake).Some?
      ensures ok ==> View() == Dispatch(config, old(View()), fake).value && policies.Keys == old(policies.Keys)
    {
      ArrivedRegistered(policies, policyOrder);
      var dealt := [];
      if config.byRank {
        if |ids| > |rankQueues| {
          return false;
        }
        var sorted := SortByStart(policies, ids);
        policies, rankQueues, dealt := RankDealLoop(policies, sorted, rankQueues, if fake then 0 else config.batch);
      } else if !fake {
        policies, queue, dealt := DealLoop(config, policies, ids, queue);
      }
      log := log.(steps := log.steps + [dealt]);
      return true;
    }

    /** Publishes the fetch of the step just dispatched from w. */
    method LaunchStep(ids: seq<nat>, fake: bool, ghost w: World)
      requires Valid() && ids == ArrivedPolicies(w) == ArrivedIn(policies, policyOrder)
      requires step == w.step && total == w.total && remain == w.remain && log.faked == w.log.faked
      modifies `policies, `step, `remain, `log
      ensures policies == Fetch(old(policies), AsSet(ArrivedPolicies(w)), FetchOf(config, w, fake)) && policies.Keys == old(policies.Keys)
      ensures step == w.step + 1 && remain == w.remain - (if fake then 0 else PerStep(config, w))
      ensures log == old(log).(faked := w.log.faked || fake)
    {
      hide ArrivedIn, Fetch, FetchOf, Distinct, Registered;
      ArrivedRegistered(policies, policyOrder);
      policies := Announce(config, w, policies, ids, fake, step + 1, total, remain - if fake then 0 else config.batch * |ids|);
      remain := remain - if fake then 0 else config.batch * |ids|;
      step := step + 1;
      log := log.(faked := log.faked || fake);
    }

    method StepDue(ids: seq<nat>, fake: bool) returns (due: bool)
      requires Valid() && ids == ArrivedPolicies(View())
      ensures due <==> Triggers(config, View(), fake)
    {
      if ids == [] || (step >= total && total > 0) {
        return false;
      }
      if fake {
        return true;
      }
      var ready := AllWithStatus({Ready, Reduced});
      var enough := EnoughForOneStep(ids);
      return ready && enough;
    }

    /** Dispatches the rollouts of a step and announces it. */
    method RunStep(ids: seq<nat>, fake: bool) returns (ok: bool)
      requires Valid() && ids == ArrivedPolicies(View()) && (fake || Enough(config, View()))
      modifies this
      ensures ok <==> Dispatch(config, old(View()), fake).Some?
      ensures ok ==> View() == Launch(config, old(View()), Dispatch(config, old(View()), fake).value, fake) && Valid()
    {
      hide Dispatch, Fetch, FetchOf, ArrivedIn, PerStep, Registered, Enough;
      ghost var w := View();
      ok := DispatchRollouts(ids, fake);
      if ok {
        DispatchKeeps(config, w, fake);
        RegisteredSame(policyOrder, w.policies, policies);
        ghost var p := policies;
        LaunchStep(ids, fake, w);
        RegisteredSame(policyOrder, p, policies);
      }
    }

    method TryTriggerDataFetchAndTraining(fake: bool) returns (ok: bool)
      requires Valid()
      modifies this
      ensures ok <==> TryTrigger(config, old(View()), fake).Some?
      ensures ok ==> View() == TryTrigger(config, old(View()), fake).value && Valid()
    {
      hide Dispatch, Launch, ArrivedIn, Registered, AllStatus;
      var ids := CollectArrived(policies, policyOrder);
      var due := StepDue(ids, fake);
      if !due {
        return true;
      }
      if fake && step + 1 != total {
        return false;
      }
      ok := RunStep(ids, fake);
    }

    method RecomputeTotalSteps(remaining: int)
      requires Valid()
      modifies `total
      ensures View() == Recompute(config, old(View()), remaining)
    {
      if step >= total && total > 0 {
        return;
      }
      var ids := CollectArrived(policies, policyOrder);
      if |ids| == 0 {
        return;
      }
      MulLt(0, |ids|, config.batch);
      var byData := step + FloorDiv(remaining, config.batch * |ids|);
      if config.maxSteps.Some? {
        total := Min(byData, config.maxSteps.value);
      } else {
        total := byData;
      }
    }

    // ---------- rollouts ----------

    method Put(x: Rollout) returns (ok: bool)
      requires Valid()
      modifies this
      ensures ok <==> PutRollout(config, old(View()), x).Some?
      ensures ok ==> View() == PutRollout(config, old(View()), x).value && Valid()
    {
      if config.byRank {
        if rankQueues == [] {
          return false;
        }
        var rank := x.prompt % |rankQueues|;
        rankQueues := rankQueues[rank := rankQueues[rank] + [x]];
      } else {
        queue := queue + [x];
      }
      log := log.(buffered := log.buffered + [x]);
      ok := TryTriggerDataFetchAndTraining(false);
    }

    method PutAll(xs: seq<Rollout>) returns (ok: bool)
      requires Valid()
      modifies this
      ensures ok <==> PutRollouts(config, old(View()), xs).Some?
      ensures ok ==> View() == PutRollouts(config, old(View()), xs).value && Valid()
    {
      hide Registered, PutRollout, Pending;
      if config.onPolicy && stepSampled {
        remain := remain - |xs|;
        return true;
      }
      var i := 0;
      assert xs[0..] == xs;
      while i < |xs|
        invariant i <= |xs| && Valid()
        invariant PutEach(config, old(View()), xs) == PutEach(config, View(), xs[i..])
      {
        assert xs[i..][0] == xs[i] && xs[i..][1..] == xs[i + 1..];
        var put := Put(xs[i]);
        if !put {
          return false;
        }
        if config.onPolicy {
          var pending := TotalPending();
          if pending == 0 {
            stepSampled := true;
            return true;
          }
        }
        i := i + 1;
      }
      return true;
    }

    /** The rollouts young enough for the step they will be used in; false if one is ahead of the step. */
    method FilterOutdatedRollouts(xs: seq<Rollout>) returns (kept: seq<Rollout>, ok: bool)
      requires Valid()
      ensures ok <==> VersionsKnown(View(), xs)
      ensures ok ==> kept == FreshOnes(config, View(), xs)
    {
      kept := [];
      for i := 0 to |xs|
        invariant kept == FreshOnes(config, View(), xs[..i]) && (forall j :: 0 <= j < i ==> xs[j].version <= step)
      {
        if xs[i].version > step {
          return [], false;
        }
        assert xs[..i + 1][..i] == xs[..i];
        var pending := TotalPending();
        var ids := CollectArrived(policies, policyOrder);
        assert 0 < config.batch * Max(|ids|, 1) by { MulLt(0, Max(|ids|, 1), config.batch); }
        var estimated := step + FloorDiv(i + pending, config.batch * Max(|ids|, 1));
        if estimated - xs[i].version <= config.allowed {
          kept := kept + [xs[i]];
        }
      }
      assert xs[..|xs|] == xs;
      ok := true;
    }

    /** Drops the outdated rollouts of a group and buffers the others. */
    method PutRolloutGroup(xs: seq<Rollout>) returns (ok: bool)
      requires Valid()
      modifies this
      ensures ok <==> PutGroup(config, old(View()), xs).Some?
      ensures ok ==> View() == PutGroup(config, old(View()), xs).value && Valid()
    {
      var kept;
      kept, ok := FilterOutdatedRollouts(xs);
      if ok {
        remain := remain - (|xs| - |kept|);
        ok := PutAll(kept);
      }
    }

    // ---------- weights ----------

    /** Has a policy replica send its weights to a rollout replica. */
    method PolicyToRolloutUnicast(src: nat, dst: nat, weightStep: Option<int>, lastStep: Option<int>)
      requires Valid() && src in policies && dst in rollouts
      modifies `policies, `rollouts
      ensures View() == SendPolicyToRollout(old(View()), src, dst, weightStep, lastStep) && Valid()
    {
      hide Registered;
      ghost var p, r := policies, rollouts;
      var cmd := PolicyToRollout(src, dst, rollouts[dst].loaded, weightStep, lastStep);
      policies := policies[src := Told(policies[src], cmd)];
      assert policies == Tell(p, {src}, cmd);
      rollouts := rollouts[dst := Told(rollouts[dst], cmd).(loaded := true)];
      assert rollouts == Load(r, {dst}, cmd);
      RegisteredSame(policyOrder, p, policies);
      RegisteredSame(rolloutOrder, r, rollouts);
    }

    /** Has a rollout replica of the mesh send its weights to all of it. */
    method RolloutToRolloutBroadcast(src: nat, ids: seq<nat>, weightStep: Option<int>, lastStep: Option<int>)
      requires Valid() && src in rollouts && Distinct(ids) && forall id :: id in ids ==> id in rollouts
      modifies `rollouts
      ensures View() == BroadcastToRollouts(old(View()), src, AsSet(ids), weightStep, lastStep) && Valid()
    {
      hide Registered, Load, MeshMembers, AllLoaded;
      if rollouts[src].rank.None? {
        return;
      }
      ghost var r := rollouts;
      var trainableOnly := AllLoadedLoop(rollouts, ids);
      rollouts := LoadMeshLoop(rollouts, ids, RolloutBroadcast(src, AsSet(ids), trainableOnly, weightStep, lastStep));
      RegisteredSame(rolloutOrder, r, rollouts);
    }

    method TriggerWeightSync(src: nat, step: int, lastStep: int)
      requires Valid() && src in policies
      modifies `policies, `rollouts
      ensures View() == SyncWeights(old(View()), src, step, lastStep) && Valid()
    {
      hide Registered, SendPolicyToRollout, BroadcastToRollouts, ArrivedIn, Distinct;
      var arrived := CollectArrived(rollouts, rolloutOrder);
      var ids := SortByStart(rollouts, arrived);
      ArrivedRegistered(rollouts, rolloutOrder);
      if ids == [] {
        return;
      }
      assert ids[0] in ids;
      PolicyToRolloutUnicast(src, ids[0], Some(step), Some(lastStep));
      RolloutToRolloutBroadcast(ids[0], ids, Some(step), Some(lastStep));
    }

    method SyncWeightsIfDue(step: int, lastStep: int)
      requires Valid()
      modifies `policies, `rollouts
      ensures View() == SyncIfDue(config, old(View()), step, lastStep) && Valid()
    {
      hide Registered, SyncWeights, ArrivedIn, Distinct;
      var arrived := CollectArrived(policies, policyOrder);
      var ids := SortByStart(policies, arrived);
      ArrivedRegistered(policies, policyOrder);
      if ids != [] && (step % config.syncInterval == 0 || step == lastStep) {
        assert ids[0] in ids;
        TriggerWeightSync(ids[0], step, lastStep);
      }
    }

    /** All have reported: the step's samples are accounted for and the replicas are ready again. */
    method FinishStep() returns (ok: bool)
      requires Valid()
      modifies `policies, `inFlight
      ensures ok <==> old(inFlight) >= PerStep(config, old(View()))
      ensures ok ==> View() == StepDone(config, old(View())) && Valid()
    {
      hide Registered, SetStatus, ArrivedIn, Distinct;
      var ids := CollectArrived(policies, policyOrder);
      ArrivedRegistered(policies, policyOrder);
      if inFlight < config.batch * |ids| {
        return false;
      }
      inFlight := inFlight - config.batch * |ids|;
      ghost var p := policies;
      policies := StatusLoop(policies, ids, Ready);
      RegisteredSame(policyOrder, p, policies);
      return true;
    }

    method Acknowledge(id: nat)
      requires Valid() && id in policies
      modifies `policies
      ensures View() == Acked(old(View()), id) && Valid()
    {
      hide Distinct;
      policies := policies[id := policies[id].(status := Some(Reduced), acks := policies[id].acks + 1)];
    }

    /** A policy replica reports a step done. */
    method HandleTrainAck(id: nat, step: int, lastStep: int) returns (ok: bool)
      requires Valid()
      modifies this
      ensures ok <==> TrainAck(config, old(View()), id, step, lastStep).Some?
      ensures ok ==> View() == TrainAck(config, old(View()), id, step, lastStep).value && Valid()
    {
      hide Registered, Acked, StepDone, SyncIfDue, TryTrigger, AllStatus;
      if id !in policies || policies[id].status.None? {
        return false;
      }
      Acknowledge(id);
      var reduced := AllWithStatus({Reduced});
      if !reduced {
        return true;
      }
      ok := FinishStep();
      if !ok {
        return;
      }
      SyncWeightsIfDue(step, lastStep);
      ok := TryTriggerDataFetchAndTraining(false);
      if ok && config.onPolicy {
        stepSampled := false;
      }
    }

    // ---------- the end ----------

    method AllRolloutsEnded() returns (b: bool)
      requires Valid()
      ensures b <==> AllEnded(View())
    {
      for i := 0 to |rolloutOrder|
        invariant forall j :: 0 <= j < i ==> rolloutOrder[j] in rollouts && rollouts[rolloutOrder[j]].ended
      {
        assert rolloutOrder[i] in rolloutOrder;
        if !rollouts[rolloutOrder[i]].ended {
          return false;
        }
      }
      return true;
    }

    /** A rollout replica reports that it has run out of prompts. */
    /** All rollouts have ended: recomputes the steps, and issues the extra last fetch if nothing is left. */
    method ConcludeTraining() returns (ok: bool)
      requires Valid()
      modifies this
      ensures ok <==> Conclude(config, old(View())).Some?
      ensures ok ==> View() == Conclude(config, old(View())).value && Valid()
    {
      hide Registered, Recompute, TryTrigger, Pending;
      var pending := TotalPending();
      var original := total;
      RecomputeTotalSteps(pending);
      if total > step || step == original {
        return true;
      }
      log := log.(cleared := log.cleared + queue);
      queue := [];
      total := step + 1;
      ok := TryTriggerDataFetchAndTraining(true);
    }

    method HandleRolloutEnd(id: nat) returns (ok: bool)
      requires Valid()
      modifies this
      ensures ok <==> RolloutEnd(config, old(View()), id).Some?
      ensures ok ==> View() == RolloutEnd(config, old(View()), id).value && Valid()
    {
      hide Registered, Conclude, AllEnded;
      if id in rollouts {
        ghost var r := rollouts;
        rollouts := rollouts[id := rollouts[id].(ended := true)];
        RegisteredSame(rolloutOrder, r, rollouts);
      }
      var ended := AllRolloutsEnded();
      if !ended {
        return true;
      }
      ok := ConcludeTraining();
    }

    // ---------- replicas coming and going ----------

    method RebuildPolicies()
      requires Valid()
      modifies `policies, `total, `rankQueues
      ensures View() == RebuildPolicyMesh(config, old(View())) && Valid()
    {
      hide Registered, BuildMeshIn, Recompute, Rearranged, ArrivedIn, Distinct;
      var arrived := CollectArrived(policies, policyOrder);
      var ids := SortByStart(policies, arrived);
      ArrivedRegistered(policies, policyOrder);
      ghost var p := policies;
      policies := BuildMeshLoop(policies, ids);
      RegisteredSame(policyOrder, p, policies);
      RecomputeTotalSteps(remain);
      if config.byRank && ids != [] {
        rankQueues := RearrangeLoop(rankQueues, |ids|);
      }
    }

    method RebuildRollouts()
      requires Valid()
      modifies `rollouts
      ensures View() == RebuildRolloutMesh(old(View())) && Valid()
    {
      hide Registered, BuildMeshIn, ArrivedIn, Distinct;
      var arrived := CollectArrived(rollouts, rolloutOrder);
      ArrivedRegistered(rollouts, rolloutOrder);
      ghost var r := rollouts;
      rollouts := BuildMeshLoop(rollouts, SortByStart(rollouts, arrived));
      RegisteredSame(rolloutOrder, r, rollouts);
    }

    /** The very first policy replica resumes the weights. */
    method ResumeFirstPolicy(id: nat)
      requires Valid() && id in policies
      modifies `resumed, `policies, `rollouts
      ensures View() == FirstPolicyArrives(old(View()), id) && Valid()
    {
      hide Registered, SendPolicyToRollout, BroadcastToRollouts, ArrivedIn, Distinct;
      ghost var p := policies;
      resumed := true;
      policies := policies[id := Told(policies[id], WeightResume).(loaded := true)];
      assert policies == Load(p, {id}, WeightResume);
      RegisteredSame(policyOrder, p, policies);
      var arrived := CollectArrived(rollouts, rolloutOrder);
      var ids := SortByStart(rollouts, arrived);
      ArrivedRegistered(rollouts, rolloutOrder);
      if ids == [] {
        return;
      }
      assert ids[0] in ids;
      PolicyToRolloutUnicast(id, ids[0], None, None);
      if |ids| >= rolloutInit {
        RolloutToRolloutBroadcast(ids[0], ids, Some(step), None);
      }
    }

    /** Initialisation: the mesh is built and the weights are broadcast from the first loaded replica. */
    method InitPolicies(ids: seq<nat>) returns (ok: bool)
      requires Valid() && ids == SortByStart(policies, ArrivedPolicies(View()))
      modifies `policyReady, `policies, `total, `rankQueues
      ensures ok <==> PoliciesInitialised(config, old(View())).Some?
      ensures ok ==> View() == PoliciesInitialised(config, old(View())).value && Valid()
    {
      hide Registered, RebuildPolicyMesh, ArrivedIn, Distinct, Load, SetStatus;
      ArrivedRegistered(policies, policyOrder);
      policyReady := true;
      RebuildKeys(config, View());
      RebuildPolicies();
      ghost var p := policies;
      policies, ok := ShareWeights(policies, ids, total);
      RegisteredSame(policyOrder, p, policies);
    }

    /** Scaling up: the mesh is rebuilt and a loaded replica sends its weights to the new one. */
    method JoinPolicies(id: nat, ids: seq<nat>) returns (ok: bool)
      requires Valid() && ids == SortByStart(policies, ArrivedPolicies(View())) && policyReady && id in policies
      modifies `policies, `total, `rankQueues
      ensures ok <==> AfterPolicyArrives(config, old(View()), id).Some?
      ensures ok ==> View() == AfterPolicyArrives(config, old(View()), id).value && Valid()
    {
      hide Registered, RebuildPolicyMesh, ArrivedIn, Distinct, Load, Tell, SetStatus;
      if policies[id].rank.Some? {
        return false;
      }
      var src := FindLoaded(policies, ids);
      if src.None? {
        return false;
      }
      RebuildPolicies();
      RebuildKeys(config, old(View()));
      ghost var p := policies;
      policies := JoinOne(policies, src.value, id, PolicyUnicast(src.value, id, total));
      RegisteredSame(policyOrder, p, policies);
      return true;
    }

    method HandlePolicyArrived(id: nat) returns (ok: bool)
      requires Valid() && id in policies
      modifies this
      ensures ok <==> AfterPolicyArrives(config, old(View()), id).Some?
      ensures ok ==> View() == AfterPolicyArrives(config, old(View()), id).value && Valid()
    {
      hide Registered, ArrivedIn, Distinct;
      var arrived := CollectArrived(policies, policyOrder);
      var ids := SortByStart(policies, arrived);
      if policyReady {
        ok := JoinPolicies(id, ids);
      } else if |ids| >= policyInit {
        AfterPolicyInits(config, View(), id);
        ok := InitPolicies(ids);
      } else {
        AfterPolicyWaits(config, View(), id);
        ok := true;
      }
    }

    /** All atoms of a policy replica are there. */
    method CompletePolicy(id: nat, now: int) returns (ok: bool)
      requires Valid() && id in policies
      modifies this
      ensures ok <==> PolicyArrives(config, old(View()), id, now).Some?
      ensures ok ==> View() == PolicyArrives(config, old(View()), id, now).value && Valid()
    {
      hide Registered, ArrivedIn, Distinct, AfterPolicyArrives, FirstPolicyArrives;
      if policies[id].status.Some? {
        return false;
      }
      ghost var p := policies;
      policies := Stamp(policies, id, now);
      policies := policies[id := policies[id].(status := Some(Uninitialized))];
      assert policies == SetStatus(Stamp(p, id, now), {id}, Uninitialized);
      RegisteredSame(policyOrder, p, policies);
      var arrived := CollectArrived(policies, policyOrder);
      if |arrived| == 1 {
        if resumed {
          return false;
        }
        ResumeFirstPolicy(id);
      }
      ok := HandlePolicyArrived(id);
    }

    /** Enrols an atom, waiting for one more replica if it is new. */
    method EnrolPolicyAtom(id: nat, atom: nat, size: nat) returns (ok: bool)
      requires Valid()
      modifies `policies, `policyOrder, `policyInit
      ensures ok <==> Enrol(old(policies), id, atom, size).Some?
      ensures ok ==> View() == EnrolPolicy(old(View()), id, Enrol(old(policies), id, atom, size).value) && Valid() && id in policies
    {
      hide Registered;
      ghost var p := policies;
      if id in policies {
        if atom in policies[id].atoms || policies[id].size != size {
          return false;
        }
        policies := policies[id := policies[id].(atoms := policies[id].atoms + {atom})];
        RegisteredSame(policyOrder, p, policies);
      } else {
        policies := policies[id := NewReplica(size, atom)];
        RegisteredNew(policyOrder, p, id, policies[id]);
        policyOrder := policyOrder + [id];
      }
      if !policyReady && |policies| > policyInit {
        policyInit := |policies|;
      }
      ok := true;
    }

    method RegisterPolicyAtom(id: nat, atom: nat, size: nat, now: int) returns (ok: bool)
      requires Valid()
      modifies this
      ensures ok <==> RegisterPolicy(config, old(View()), id, atom, size, now).Some?
      ensures ok ==> View() == RegisterPolicy(config, old(View()), id, atom, size, now).value && Valid()
    {
      hide Registered, PolicyArrives, Enrol;
      ok := EnrolPolicyAtom(id, atom, size);
      if !ok || !Arrived(policies[id]) {
        return;
      }
      ok := CompletePolicy(id, now);
    }

    method UnregisterPolicyReplica(id: nat) returns (ok: bool)
      requires Valid()
      modifies this
      ensures ok <==> UnregisterPolicy(config, old(View()), id).Some?
      ensures ok ==> View() == UnregisterPolicy(config, old(View()), id).value && Valid()
    {
      hide Registered, RebuildPolicyMesh, ArrivedIn;
      if id !in policies || policies[id].status.None? {
        return false;
      }
      var r := policies[id];
      RegisteredWithout(policyOrder, policies, id);
      policies := policies - {id};
      policyOrder := Remove(policyOrder, id);
      if step >= total && total > 0 {
        return true;
      }
      var arrived := CollectArrived(policies, policyOrder);
      if r.rank.Some? && |arrived| > 0 {
        RebuildPolicies();
      }
      return true;
    }

    /** Gives a new rollout replica its weights, if no rollout has any yet and some policy has. */
    method Greet(id: nat)
      requires Valid() && id in rollouts
      modifies `policies, `rollouts
      ensures View() == GreetRollout(old(View()), id) && Valid()
    {
      hide Registered, SendPolicyToRollout, ArrivedIn, Distinct;
      var src := FindLoaded(policies, SortByStart(policies, policyOrder));
      var arrived := CollectArrived(rollouts, rolloutOrder);
      ArrivedRegistered(rollouts, rolloutOrder);
      var first := FindLoaded(rollouts, arrived);
      if first.None? && src.Some? {
        PolicyToRolloutUnicast(src.value, id, None, None);
      }
    }

    method InitRolloutReplicas()
      requires Valid()
      modifies `rolloutReady, `rollouts
      ensures View() == InitRollouts(old(View())) && Valid()
    {
      hide Registered, BuildMeshIn, BroadcastToRollouts, ArrivedIn, Distinct;
      var arrived := CollectArrived(rollouts, rolloutOrder);
      var ids := SortByStart(rollouts, arrived);
      ArrivedRegistered(rollouts, rolloutOrder);
      rolloutReady := true;
      RebuildRollouts();
      var first := FindLoaded(rollouts, ids);
      if first.Some? {
        RolloutToRolloutBroadcast(first.value, ids, Some(step), None);
      }
    }

    method HandleRolloutArrived(id: nat) returns (ok: bool)
      requires Valid() && id in rollouts
      modifies this
      ensures ok <==> AfterRolloutArrives(old(View()), id).Some?
      ensures ok ==> View() == AfterRolloutArrives(old(View()), id).value && Valid()
    {
      hide Registered, GreetRollout, InitRollouts, RebuildRolloutMesh, ArrivedIn;
      Greet(id);
      var arrived := CollectArrived(rollouts, rolloutOrder);
      if rolloutReady {
        RebuildRollouts();
      } else if |arrived| == rolloutInit {
        InitRolloutReplicas();
      } else if |arrived| > rolloutInit {
        return false;
      }
      return true;
    }

    /** All atoms of a rollout replica are there. */
    method CompleteRollout(id: nat, now: int) returns (ok: bool)
      requires Valid() && id in rollouts
      modifies this
      ensures ok <==> RolloutArrives(old(View()), id, now).Some?
      ensures ok ==> View() == RolloutArrives(old(View()), id, now).value && Valid()
    {
      hide Registered, AfterRolloutArrives;
      ghost var before := rollouts;
      rollouts := Stamp(rollouts, id, now);
      RegisteredSame(rolloutOrder, before, rollouts);
      ok := HandleRolloutArrived(id);
    }

    method EnrolRolloutAtom(id: nat, atom: nat, size: nat) returns (ok: bool)
      requires Valid()
      modifies `rollouts, `rolloutOrder, `rolloutInit
      ensures ok <==> Enrol(old(rollouts), id, atom, size).Some?
      ensures ok ==> View() == EnrolRollout(old(View()), id, Enrol(old(rollouts), id, atom, size).value) && Valid() && id in rollouts
    {
      hide Registered;
      ghost var r := rollouts;
      if id in rollouts {
        if atom in rollouts[id].atoms || rollouts[id].size != size {
          return false;
        }
        rollouts := rollouts[id := rollouts[id].(atoms := rollouts[id].atoms + {atom})];
        RegisteredSame(rolloutOrder, r, rollouts);
      } else {
        rollouts := rollouts[id := NewReplica(size, atom)];
        RegisteredNew(rolloutOrder, r, id, rollouts[id]);
        rolloutOrder := rolloutOrder + [id];
      }
      if !rolloutReady && |rollouts| > rolloutInit {
        rolloutInit := |rollouts|;
      }
      ok := true;
    }

    method RegisterRolloutAtom(id: nat, atom: nat, size: nat, now: int) returns (ok: bool)
      requires Valid()
      modifies this
      ensures ok <==> RegisterRollout(old(View()), id, atom, size, now).Some?
      ensures ok ==> View() == RegisterRollout(old(View()), id, atom, size, now).value && Valid()
    {
      hide Registered, RolloutArrives, Enrol;
      ok := EnrolRolloutAtom(id, atom, size);
      if !ok || !Arrived(rollouts[id]) {
        return;
      }
      ok := CompleteRollout(id, now);
    }

    method UnregisterRolloutReplica(id: nat) returns (ok: bool)
      requires Valid()
      modifies this
      ensures ok <==> UnregisterRollout(old(View()), id).Some?
      ensures ok ==> View() == UnregisterRollout(old(View()), id).value && Valid()
    {
      hide Registered, RebuildRolloutMesh;
      if id !in rollouts {
        return false;
      }
      var r := rollouts[id];
      RegisteredWithout(rolloutOrder, rollouts, id);
      rollouts := rollouts - {id};
      rolloutOrder := Remove(rolloutOrder, id);
      if step >= total && total > 0 {
        return true;
      }
      if r.rank.Some? && |rollouts| > 0 {
        RebuildRollouts();
      }
      return true;
    }

    // ---------- every event ----------

    /** Handles one event as its function says. */
    method Handle(e: Event) returns (ok: bool)
      requires Valid()
      modifies this
      ensures ok <==> After(config, old(View()), e).Some?
      ensures ok ==> View() == After(config, old(View()), e).value && Valid()
    {
      hide Registered, RegisterPolicy, UnregisterPolicy, RegisterRollout, UnregisterRollout, PutGroup, TrainAck, RolloutEnd;
      match e
      case PolicyAtom(id, atom, size, now) => ok := RegisterPolicyAtom(id, atom, size, now);
      case PolicyGone(id) => ok := UnregisterPolicyReplica(id);
      case RolloutAtom(id, atom, size, now) => ok := RegisterRolloutAtom(id, atom, size, now);
      case RolloutGone(id) => ok := UnregisterRolloutReplica(id);
      case PromptsOut(samples) =>
        inFlight := inFlight + samples;
        ok := true;
      case GroupIn(xs) => ok := PutRolloutGroup(xs);
      case AckIn(id, step, lastStep) => ok := HandleTrainAck(id, step, lastStep);
      case EndIn(id) => ok := HandleRolloutEnd(id);
    }
  }

  /** Publishes a unicast to its source and its destination, and makes the destination ready. */
  method JoinOne(g: Group, src: nat, id: nat, cmd: Command) returns (h: Group)
    requires src in g && id in g
    ensures h == SetStatus(Load(Tell(g, {src}, cmd), {id}, cmd), {id}, Ready) && h.Keys == g.Keys
  {
    h := g[src := Told(g[src], cmd)];
    assert h == Tell(g, {src}, cmd);
    h := h[id := Told(h[id], cmd).(loaded := true)];
    assert h == Load(Tell(g, {src}, cmd), {id}, cmd);
    h := h[id := h[id].(status := Some(Ready))];
  }

  /** The weights shared from the first loaded replica, when there is more than one; then all are ready. */
  ghost function WeightsShared(g: Group, ids: seq<nat>, total: int): Option<Group> {
    if |ids| <= 1 then Some(SetStatus(g, AsSet(ids), Ready))
    else
      match FirstLoaded(g, ids)
      case None => None
      case Some(src) => Some(SetStatus(Load(g, AsSet(ids), PolicyBroadcast(src, AsSet(ids), total)), AsSet(ids), Ready))
  }

  method ShareWeights(g: Group, ids: seq<nat>, total: int) returns (h: Group, ok: bool)
    requires Distinct(ids) && forall id :: id in ids ==> id in g
    ensures ok <==> WeightsShared(g, ids, total).Some?
    ensures h.Keys == g.Keys && (ok ==> h == WeightsShared(g, ids, total).value)
  {
    h := g;
    if |ids| > 1 {
      var src := FindLoaded(h, ids);
      if src.None? {
        return h, false;
      }
      h := TellLoop(h, ids, PolicyBroadcast(src.value, AsSet(ids), total), true);
    }
    h := StatusLoop(h, ids, Ready);
    ok := true;
  }

  /** The branch of a replica's arrival that initialises all. */
  ghost function PoliciesInitialised(c: Config, w: World): Option<World> {
    var m := RebuildPolicyMesh(c, w.(policyReady := true));
    match WeightsShared(m.policies, SortByStart(w.policies, ArrivedPolicies(w)), m.total)
    case None => None
    case Some(g) => Some(m.(policies := g))
  }

  lemma AfterPolicyInits(c: Config, w: World, id: nat)
    requires id in w.policies && !w.policyReady && |SortByStart(w.policies, ArrivedPolicies(w))| >= w.policyInit
    ensures AfterPolicyArrives(c, w, id) == PoliciesInitialised(c, w)
  {
    hide RebuildPolicyMesh, Load, SetStatus;
  }

  lemma AfterPolicyWaits(c: Config, w: World, id: nat)
    requires id in w.policies && !w.policyReady && |SortByStart(w.policies, ArrivedPolicies(w))| < w.policyInit
    ensures AfterPolicyArrives(c, w, id) == Some(w)
  {
  }

  lemma RebuildKeys(c: Config, w: World)
    ensures RebuildPolicyMesh(c, w).policies.Keys == w.policies.Keys && RebuildPolicyMesh(c, w).policyOrder == w.policyOrder
  {
    hide BuildMeshIn, Rearranged;
  }

  lemma RegisteredNew(order: seq<nat>, g: Group, id: nat, r: Replica)
    requires Registered(order, g) && id !in g
    ensures Registered(order + [id], g[id := r])
  {
    DistinctAppend(order, id);
  }

  lemma RegisteredWithout(order: seq<nat>, g: Group, id: nat)
    requires Registered(order, g)
    ensures Registered(Without(order, id), g - {id})
  {
    WithoutDistinct(order, id);
  }

  /** Dispatching keeps the replicas registered and arrived, and the counters. */
  lemma DispatchKeeps(c: Config, w: World, fake: bool)
    requires (fake || Enough(c, w)) && Dispatch(c, w, fake).Some?
    ensures var d := Dispatch(c, w, fake).value;
            && ArrivedPolicies(d) == ArrivedPolicies(w) && d.step == w.step && d.total == w.total && d.remain == w.remain
            && d.log.faked == w.log.faked && d.policyOrder == w.policyOrder && d.policies.Keys == w.policies.Keys
            && d.rolloutOrder == w.rolloutOrder && d.rollouts == w.rollouts
  {
    hide Deal, DealByRank, Served, SortedQueues, DealtByRank, ArrivedPolicies;
    DispatchReplicas(c, w, fake);
    var d := Dispatch(c, w, fake).value;
    ArrivedAfter(w, d);
  }

  lemma ArrivedAfter(w: World, d: World)
    requires OnlyGiven(w, d)
    ensures ArrivedPolicies(d) == ArrivedPolicies(w)
  {
    ArrivedSame(w.policies, d.policies, w.policyOrder);
  }
}
