/** Bounded staleness: no rollout is trained on too many steps after the weights that produced it. */
module ControllerStaleness {
  import opened Arithmetic
  import opened Common
  import opened ControllerModel
  import opened ControllerFlow
  import opened ControllerLedger
  import opened ControllerMesh
  import opened ControllerStart
  import opened ControllerDelivery

  // ---------- places in the queue ----------

  /** The rollouts a step takes, as the filter estimates it: one batch for each arrived replica, or one. */
  function Pace(c: Config, w: World): (n: nat)
    requires ValidConfig(c)
    ensures 0 < n
  {
    MulLt(0, Max(|ArrivedPolicies(w)|, 1), c.batch);
    c.batch * Max(|ArrivedPolicies(w)|, 1)
  }

  lemma PaceSame(c: Config, w: World, v: World)
    requires ValidConfig(c) && SamePolicies(w, v)
    ensures Pace(c, v) == Pace(c, w)
  {
    SamePoliciesArrived(w, v);
  }

  lemma PaceOfStep(c: Config, w: World, fake: bool)
    requires ValidConfig(c) && Triggers(c, w, fake)
    ensures Pace(c, w) == PerStep(c, w)
  {
  }

  /** Every queued rollout is young enough for the step at which its place in the queue comes up. */
  predicate Slack(c: Config, step: int, perStep: nat, queue: seq<Rollout>)
    requires 0 < perStep
  {
    forall j :: 0 <= j < |queue| ==> step + j / perStep - queue[j].version <= c.allowed
  }

  lemma SlackShift(c: Config, step: int, perStep: nat, queue: seq<Rollout>)
    requires 0 < perStep <= |queue| && Slack(c, step, perStep, queue)
    ensures Slack(c, step + 1, perStep, queue[perStep..])
    ensures forall j :: 0 <= j < perStep ==> step - queue[j].version <= c.allowed
  {
    forall j | 0 <= j < |queue| - perStep
      ensures step + 1 + j / perStep - queue[perStep..][j].version <= c.allowed
    {
      DivShift(j, 1, perStep);
      assert queue[perStep..][j] == queue[j + perStep];
    }
    forall j | 0 <= j < perStep
      ensures step - queue[j].version <= c.allowed
    {
      assert j / perStep == 0;
    }
  }

  /** Those that pass the filter get places early enough for their age. */
  lemma {:induction false} FilterLeavesSlack(c: Config, w: World, xs: seq<Rollout>)
    requires ValidConfig(c) && !c.byRank && Slack(c, w.step, Pace(c, w), w.queue)
    ensures |FreshOnes(c, w, xs)| <= |xs| && Slack(c, w.step, Pace(c, w), w.queue + FreshOnes(c, w, xs))
  {
    if xs != [] {
      var front, last := FreshOnes(c, w, xs[..|xs| - 1]), xs[|xs| - 1];
      FilterLeavesSlack(c, w, xs[..|xs| - 1]);
      if Fresh(c, w, |xs| - 1, last) {
        var all := w.queue + FreshOnes(c, w, xs);
        assert all == (w.queue + front) + [last];
        DivMono(|w.queue| + |front|, |xs| - 1 + |w.queue|, Pace(c, w));
        forall j | 0 <= j < |all|
          ensures w.step + j / Pace(c, w) - all[j].version <= c.allowed
        {
          if j < |all| - 1 {
            assert all[j] == (w.queue + front)[j];
          }
        }
      }
    }
  }

  /** The rollouts of every step from the base-th on were young enough: the k-th is global step start + k + 1. */
  predicate StepsFresh(c: Config, start: int, base: nat, steps: seq<seq<Rollout>>) {
    forall k, i :: base <= k < |steps| && 0 <= i < |steps[k]| ==> start + k - steps[k][i].version <= c.allowed
  }

  /** Steps from the base-th on and queue keep the staleness bound; more rollouts may be about to be queued. */
  predicate StaleOk(c: Config, start: int, base: nat, w: World, coming: seq<Rollout>)
    requires ValidConfig(c)
  {
    && w.step == start + |w.log.steps| && base <= |w.log.steps|
    && StepsFresh(c, start, base, w.log.steps)
    && Slack(c, w.step, Pace(c, w), w.queue + coming)
  }

  lemma TriggerKeepsStale(c: Config, start: int, base: nat, w: World, fake: bool, coming: seq<Rollout>)
    requires ValidConfig(c) && !c.byRank && TryTrigger(c, w, fake).Some? && StaleOk(c, start, base, w, coming)
    requires fake ==> w.queue + coming == []
    ensures var v := TryTrigger(c, w, fake).value;
            SamePolicies(w, v) && StaleOk(c, start, base, v, coming)
  {
    hide TryTrigger, Pace, Slack, Triggers;
    if Triggers(c, w, fake) {
      var v := TryTrigger(c, w, fake).value;
      TriggerCounts(c, w, fake);
      TriggerReplicas(c, w, fake);
      PaceOfStep(c, w, fake);
      PaceSame(c, w, v);
      if fake {
        EmptySlack(c, v.step, Pace(c, w));
        assert v.queue + coming == [];
      } else {
        SlackShift(c, w.step, Pace(c, w), w.queue + coming);
        assert (w.queue + coming)[Pace(c, w)..] == v.queue + coming;
        assert forall i :: 0 <= i < Pace(c, w) ==> w.queue[..Pace(c, w)][i] == (w.queue + coming)[i];
      }
    } else {
      NoTrigger(c, w, fake);
    }
  }

  lemma EmptySlack(c: Config, step: int, perStep: nat)
    requires 0 < perStep
    ensures Slack(c, step, perStep, [])
  {
  }

  lemma {:induction false} PutEachKeepsStale(c: Config, start: int, base: nat, w: World, xs: seq<Rollout>)
    requires ValidConfig(c) && !c.byRank && PutEach(c, w, xs).Some? && StaleOk(c, start, base, w, xs)
    ensures var v := PutEach(c, w, xs).value;
            SamePolicies(w, v) && StaleOk(c, start, base, v, [])
    decreases |xs|
  {
    if xs == [] {
      assert w.queue + [] == w.queue;
    } else {
      var b := Buffer(c, w, xs[0]).value;
      assert b.queue + xs[1..] == w.queue + xs;
      assert SamePolicies(w, b);
      PaceSame(c, w, b);
      TriggerKeepsStale(c, start, base, b, false, xs[1..]);
      var p := PutRollout(c, w, xs[0]).value;
      SamePoliciesTransitive(w, b, p);
      hide TryTrigger, SamePolicies, Pace, StepsFresh;
      if c.onPolicy && Pending(c, p) == 0 {
        EmptySlack(c, p.step, Pace(c, p));
        SampledChanges(c, p, true);
      } else {
        PutEachKeepsStale(c, start, base, p, xs[1..]);
        SamePoliciesTransitive(w, p, PutEach(c, p, xs[1..]).value);
      }
    }
  }

  // ---------- events that keep the policy replicas ----------

  lemma UntrainedKeepsStale(c: Config, start: int, base: nat, w: World, v: World)
    requires ValidConfig(c) && Untrained(w, v) && StaleOk(c, start, base, w, [])
    ensures SamePolicies(w, v) && StaleOk(c, start, base, v, [])
  {
    UntrainedSame(w, v);
    PaceSame(c, w, v);
  }

  lemma AckKeepsStale(c: Config, start: int, base: nat, w: World, id: nat, step: int, lastStep: int)
    requires ValidConfig(c) && !c.byRank && StaleOk(c, start, base, w, [])
    requires TrainAck(c, w, id, step, lastStep).Some?
    ensures var v := TrainAck(c, w, id, step, lastStep).value;
            SamePolicies(w, v) && StaleOk(c, start, base, v, [])
  {
    hide TryTrigger, SyncIfDue, SamePolicies, StepsFresh, Slack, Pace;
    var a := Acked(w, id);
    AckedSame(w, id);
    PaceSame(c, w, a);
    if AllStatus(a, {Reduced}) {
      var b := StepDone(c, a);
      StepDoneSame(c, a);
      PaceSame(c, a, b);
      SyncUntrained(c, b, step, lastStep);
      var s := SyncIfDue(c, b, step, lastStep);
      UntrainedKeepsStale(c, start, base, b, s);
      TriggerKeepsStale(c, start, base, s, false, []);
      var t := TryTrigger(c, s, false).value;
      SamePoliciesTransitive(w, a, b);
      SamePoliciesTransitive(w, b, s);
      SamePoliciesTransitive(w, s, t);
      SampledChanges(c, t, false);
      SamePoliciesTransitive(w, t, t.(stepSampled := false));
    }
  }

  lemma SampledChanges(c: Config, w: World, sampled: bool)
    requires ValidConfig(c)
    ensures SamePolicies(w, w.(stepSampled := sampled)) && Pace(c, w.(stepSampled := sampled)) == Pace(c, w)
  {
    PaceSame(c, w, w.(stepSampled := sampled));
  }

  lemma ConcludeKeepsStale(c: Config, start: int, base: nat, w: World)
    requires ValidConfig(c) && !c.byRank && StaleOk(c, start, base, w, []) && Conclude(c, w).Some?
    ensures var v := Conclude(c, w).value;
            SamePolicies(w, v) && StaleOk(c, start, base, v, [])
  {
    hide TryTrigger, StepsFresh, Slack, Recompute, Pace, SamePolicies;
    RecomputeSame(c, w, Pending(c, w));
    var t := Recompute(c, w, Pending(c, w));
    PaceSame(c, w, t);
    if !(t.total > t.step || t.step == w.total) {
      var q := Curtailed(t);
      CurtailedSame(c, t);
      PaceSame(c, t, q);
      EmptySlack(c, q.step, Pace(c, q));
      assert q.queue + [] == [];
      TriggerKeepsStale(c, start, base, q, true, []);
      SamePoliciesTransitive(w, t, q);
      SamePoliciesTransitive(w, q, TryTrigger(c, q, true).value);
    }
  }

  lemma EndKeepsStale(c: Config, start: int, base: nat, w: World, id: nat)
    requires ValidConfig(c) && !c.byRank && StaleOk(c, start, base, w, [])
    requires RolloutEnd(c, w, id).Some?
    ensures var v := RolloutEnd(c, w, id).value;
            SamePolicies(w, v) && StaleOk(c, start, base, v, [])
  {
    hide Conclude, StepsFresh, Slack, Pace;
    var e := MarkEnded(w, id);
    PaceSame(c, w, e);
    if AllEnded(e) {
      ConcludeKeepsStale(c, start, base, e);
    }
  }

  lemma GroupKeepsStale(c: Config, start: int, base: nat, w: World, xs: seq<Rollout>)
    requires ValidConfig(c) && !c.byRank && StaleOk(c, start, base, w, [])
    requires PutGroup(c, w, xs).Some?
    ensures var v := PutGroup(c, w, xs).value;
            SamePolicies(w, v) && StaleOk(c, start, base, v, [])
  {
    hide StepsFresh, Slack, Pace, PutEach, FreshOnes;
    var kept := FreshOnes(c, w, xs);
    assert w.queue + [] == w.queue;
    FilterLeavesSlack(c, w, xs);
    var p := w.(remain := w.remain - (|xs| - |kept|));
    PaceSame(c, w, p);
    if c.onPolicy && p.stepSampled {
      PaceSame(c, w, PutGroup(c, w, xs).value);
    } else {
      PutEachKeepsStale(c, start, base, p, kept);
    }
  }

  lemma EventKeepsStale(c: Config, start: int, base: nat, w: World, e: Event)
    requires ValidConfig(c) && !c.byRank && KeepsPolicies(e) && StaleOk(c, start, base, w, [])
    requires After(c, w, e).Some?
    ensures var v := After(c, w, e).value;
            SamePolicies(w, v) && StaleOk(c, start, base, v, [])
  {
    hide SamePolicies, Pace, StaleOk, TrainAck, RolloutEnd, PutGroup, RegisterRollout, UnregisterRollout;
    match e
    case RolloutAtom(_, _, _, _) =>
      RolloutEventsUntrained(c, w, e);
      UntrainedKeepsStale(c, start, base, w, After(c, w, e).value);
    case RolloutGone(_) =>
      RolloutEventsUntrained(c, w, e);
      UntrainedKeepsStale(c, start, base, w, After(c, w, e).value);
    case PromptsOut(samples) => PromptsKeepStale(c, start, base, w, samples);
    case GroupIn(xs) => GroupKeepsStale(c, start, base, w, xs);
    case AckIn(id, step, lastStep) => AckKeepsStale(c, start, base, w, id, step, lastStep);
    case EndIn(id) => EndKeepsStale(c, start, base, w, id);
  }

  lemma PromptsKeepStale(c: Config, start: int, base: nat, w: World, samples: nat)
    requires ValidConfig(c) && StaleOk(c, start, base, w, [])
    ensures var v := w.(inFlight := w.inFlight + samples);
            SamePolicies(w, v) && StaleOk(c, start, base, v, [])
  {
    PaceSame(c, w, w.(inFlight := w.inFlight + samples));
  }

  // ---------- arrivals ----------

  /** The ranks of a replica's atoms are below its size. */
  predicate AtomsFit(w: World) {
    forall id, a :: id in w.policies && a in w.policies[id].atoms ==> a < w.policies[id].size
  }

  /** The same atoms are there. */
  predicate SameAtoms(g: Group, h: Group) {
    h.Keys == g.Keys && forall id :: id in g ==> h[id].size == g[id].size && h[id].atoms == g[id].atoms
  }

  /** Whatever registers, the queue, the step and the record of steps stay. */
  ghost predicate OnlyJoined(w: World, g: Group, v: World) {
    && SameAtoms(g, v.policies) && v.queue == w.queue && v.step == w.step && v.log == w.log
    && exists more :: v.policyOrder == w.policyOrder + more
  }

  lemma FirstAtoms(w: World, id: nat)
    requires id in w.policies
    ensures SameAtoms(w.policies, FirstPolicyArrives(w, id).policies)
  {
    hide LastMesh, FirstPolicyArrives;
    FirstPolicyInPlace(w, id);
    assert forall i :: i in w.policies ==> Unmoved(w.policies[i], FirstPolicyArrives(w, id).policies[i]);
  }

  lemma ArrivalJoined(c: Config, w: World, id: nat)
    requires id in w.policies && AfterPolicyArrives(c, w, id).Some?
    ensures OnlyJoined(w, w.policies, AfterPolicyArrives(c, w, id).value)
  {
    hide RebuildPolicyMesh, AfterPolicyArrives, ArrivedPolicies, SortByStart;
    var m := ArrivalIs(c, w, id);
    RebuildFields(c, w);
    RebuildFields(c, w.(policyReady := true));
    ArrivalAtoms(c, w, id);
    assert w.policyOrder + [] == w.policyOrder;
  }

  lemma RebuildAtoms(c: Config, w: World)
    ensures SameAtoms(w.policies, RebuildPolicyMesh(c, w).policies)
  {
    hide RebuildPolicyMesh, ArrivedPolicies, SortByStart;
    RebuildFields(c, w);
  }

  lemma TellAtoms(g: Group, ids: set<nat>, cmd: Command)
    ensures SameAtoms(g, Tell(g, ids, cmd))
  {
  }

  lemma LoadAtoms(g: Group, ids: set<nat>, cmd: Command)
    ensures SameAtoms(g, Load(g, ids, cmd))
  {
  }

  lemma StatusAtoms(g: Group, ids: set<nat>, s: Status)
    ensures SameAtoms(g, SetStatus(g, ids, s))
  {
  }

  lemma AtomsTransitive(a: Group, b: Group, d: Group)
    requires SameAtoms(a, b) && SameAtoms(b, d)
    ensures SameAtoms(a, d)
  {
  }

  lemma ReadyAtoms(a: Group, g: Group, ids: set<nat>, cmd: Command)
    requires SameAtoms(a, g)
    ensures SameAtoms(a, SetStatus(Load(g, ids, cmd), ids, Ready)) && SameAtoms(a, SetStatus(g, ids, Ready))
  {
    hide SameAtoms, Load, SetStatus;
    LoadAtoms(g, ids, cmd);
    StatusAtoms(Load(g, ids, cmd), ids, Ready);
    StatusAtoms(g, ids, Ready);
    AtomsTransitive(a, g, Load(g, ids, cmd));
    AtomsTransitive(a, Load(g, ids, cmd), SetStatus(Load(g, ids, cmd), ids, Ready));
    AtomsTransitive(a, g, SetStatus(g, ids, Ready));
  }

  lemma ArrivalAtoms(c: Config, w: World, id: nat)
    requires id in w.policies && AfterPolicyArrives(c, w, id).Some?
    ensures SameAtoms(w.policies, AfterPolicyArrives(c, w, id).value.policies)
  {
    hide RebuildPolicyMesh, ArrivedPolicies, SortByStart, Load, Tell, SetStatus, SameAtoms, AsSet;
    var ids := SortByStart(w.policies, ArrivedPolicies(w));
    if !w.policyReady && |ids| >= w.policyInit {
      var m := RebuildPolicyMesh(c, w.(policyReady := true));
      RebuildAtoms(c, w.(policyReady := true));
      if |ids| > 1 {
        var cmd := PolicyBroadcast(FirstLoaded(m.policies, ids).value, AsSet(ids), m.total);
        ReadyAtoms(w.policies, m.policies, AsSet(ids), cmd);
      } else {
        ReadyAtoms(w.policies, m.policies, AsSet(ids), WeightResume);
      }
    } else if w.policyReady {
      var m := RebuildPolicyMesh(c, w);
      RebuildAtoms(c, w);
      var src := FirstLoaded(w.policies, ids).value;
      var cmd := PolicyUnicast(src, id, m.total);
      TellAtoms(m.policies, {src}, cmd);
      AtomsTransitive(w.policies, m.policies, Tell(m.policies, {src}, cmd));
      ReadyAtoms(w.policies, Tell(m.policies, {src}, cmd), {id}, cmd);
    } else {
      Unchanged(w.policies);
    }
  }

  lemma Unchanged(g: Group)
    ensures SameAtoms(g, g)
  {
  }

  lemma RegistrationJoined(c: Config, w: World, id: nat, atom: nat, size: nat, now: int)
    requires RegisterPolicy(c, w, id, atom, size, now).Some?
    ensures OnlyJoined(w, Enrol(w.policies, id, atom, size).value, RegisterPolicy(c, w, id, atom, size, now).value)
  {
    hide AfterPolicyArrives, FirstPolicyArrives, Enrol, ArrivedPolicies;
    var g := Enrol(w.policies, id, atom, size).value;
    var e := EnrolPolicy(w, id, g);
    assert w.policyOrder + [] == w.policyOrder;
    assert OnlyJoined(w, g, e);
    if Arrived(g[id]) {
      var s := e.(policies := SetStatus(Stamp(e.policies, id, now), {id}, Uninitialized));
      assert OnlyJoined(w, g, s);
      if |ArrivedPolicies(s)| == 1 {
        var f := FirstPolicyArrives(s, id);
        FirstAtoms(s, id);
        FirstPolicyCounts(s, id);
        ArrivalJoined(c, f, id);
        JoinedOn(w, g, f, AfterPolicyArrives(c, f, id).value);
      } else {
        ArrivalJoined(c, s, id);
        JoinedOn(w, g, s, AfterPolicyArrives(c, s, id).value);
      }
    }
  }

  lemma JoinedOn(w: World, g: Group, s: World, v: World)
    requires OnlyJoined(w, g, s) && OnlyJoined(s, s.policies, v)
    ensures OnlyJoined(w, g, v)
  {
    var m :| s.policyOrder == w.policyOrder + m;
    var n :| v.policyOrder == s.policyOrder + n;
    assert v.policyOrder == w.policyOrder + (m + n);
  }

  lemma {:induction false} MoreArrived(g: Group, h: Group, order: seq<nat>)
    requires forall id :: id in g && Arrived(g[id]) ==> id in h && Arrived(h[id])
    ensures |ArrivedIn(g, order)| <= |ArrivedIn(h, order)|
  {
    if order != [] { MoreArrived(g, h, order[..|order| - 1]); }
  }

  lemma {:induction false} LongerOrder(g: Group, order: seq<nat>, more: seq<nat>)
    ensures |ArrivedIn(g, order)| <= |ArrivedIn(g, order + more)|
  {
    if more == [] {
      assert order + [] == order;
    } else {
      var front := more[..|more| - 1];
      LongerOrder(g, order, front);
      assert (order + more)[..|order + more| - 1] == order + front;
    }
  }

  /** A replica with all its atoms keeps them. */
  lemma AtomsAllThere(r: Replica, atom: nat)
    requires (forall a :: a in r.atoms ==> a < r.size) && Arrived(r) && atom < r.size
    ensures atom in r.atoms
  {
    SubsetFills(r.atoms, Below(r.size));
  }

  /** No fewer replicas are arrived after a registration. */
  lemma RegistrationPace(c: Config, w: World, id: nat, atom: nat, size: nat, now: int)
    requires ValidConfig(c) && AtomsFit(w) && atom < size && RegisterPolicy(c, w, id, atom, size, now).Some?
    ensures var v := RegisterPolicy(c, w, id, atom, size, now).value;
            AtomsFit(v) && Pace(c, w) <= Pace(c, v) && v.queue == w.queue && v.step == w.step && v.log == w.log
  {
    hide RegisterPolicy, ArrivedIn, Enrol;
    var v := RegisterPolicy(c, w, id, atom, size, now).value;
    RegistrationJoined(c, w, id, atom, size, now) by { RegistrationEnrols(c, w, id, atom, size, now); }
    RegistrationEnrols(c, w, id, atom, size, now);
    EnrolFacts(w, id, atom, size);
    forall i | i in w.policies && Arrived(w.policies[i])
      ensures i in v.policies && Arrived(v.policies[i])
    {
      if i == id { AtomsAllThere(w.policies[id], atom); }
    }
    MoreArrived(w.policies, v.policies, w.policyOrder);
    var more :| v.policyOrder == w.policyOrder + more;
    LongerOrder(v.policies, w.policyOrder, more);
    MulLe(Max(|ArrivedPolicies(w)|, 1), Max(|ArrivedPolicies(v)|, 1), c.batch);
  }

  lemma RegistrationEnrols(c: Config, w: World, id: nat, atom: nat, size: nat, now: int)
    requires RegisterPolicy(c, w, id, atom, size, now).Some?
    ensures Enrol(w.policies, id, atom, size).Some?
  {
  }

  /** At a higher pace every place in the queue comes up no later. */
  lemma FasterSlack(c: Config, step: int, n: nat, m: nat, queue: seq<Rollout>)
    requires 0 < n <= m && Slack(c, step, n, queue)
    ensures Slack(c, step, m, queue)
  {
    forall j | 0 <= j < |queue|
      ensures step + j / m - queue[j].version <= c.allowed
    {
      DivFaster(j, n, m);
    }
  }

  lemma DivFaster(j: nat, n: nat, m: nat)
    requires 0 < n <= m
    ensures j / m <= j / n
  {
    DivMod(j, m);
    MulLe(n, m, j / m);
    MulDiv(j / m, n);
    DivMono(j / m * n, j, n);
  }

  lemma ArrivalKeepsStale(c: Config, start: int, base: nat, w: World, id: nat, atom: nat, size: nat, now: int)
    requires ValidConfig(c) && AtomsFit(w) && atom < size && RegisterPolicy(c, w, id, atom, size, now).Some?
    requires StaleOk(c, start, base, w, [])
    ensures var v := RegisterPolicy(c, w, id, atom, size, now).value;
            AtomsFit(v) && StaleOk(c, start, base, v, [])
  {
    hide RegisterPolicy, AtomsFit, Pace, Slack, StepsFresh;
    RegistrationPace(c, w, id, atom, size, now);
    var v := RegisterPolicy(c, w, id, atom, size, now).value;
    FasterSlack(c, w.step, Pace(c, w), Pace(c, v), w.queue + []);
  }

  // ---------- departures ----------

  /** Every queued rollout is young enough for the step its place comes up in. */
  predicate Young(c: Config, w: World)
    requires ValidConfig(c)
  {
    Slack(c, w.step, Pace(c, w), w.queue)
  }

  /** A policy replica leaves, so that queued rollouts come up later, some too late for their age. */
  predicate Ages(c: Config, w: World, e: Event)
    requires ValidConfig(c)
  {
    e.PolicyGone? && After(c, w, e).Some? && !Slack(c, w.step, Pace(c, After(c, w, e).value), w.queue)
  }

  lemma DepartureLeaves(c: Config, w: World, id: nat)
    requires UnregisterPolicy(c, w, id).Some?
    ensures var v := UnregisterPolicy(c, w, id).value;
            v.queue == w.queue && v.step == w.step && v.log == w.log && (AtomsFit(w) ==> AtomsFit(v))
  {
    hide RebuildPolicyMesh, ArrivedPolicies;
    var u := w.(policies := w.policies - {id}, policyOrder := Without(w.policyOrder, id));
    RebuildFields(c, u);
    if AtomsFit(w) {
      RebuildAtoms(c, u);
      FitAtoms(u, RebuildPolicyMesh(c, u));
    }
  }

  lemma FitAtoms(w: World, v: World)
    requires SameAtoms(w.policies, v.policies) && AtomsFit(w)
    ensures AtomsFit(v)
  {
  }

  lemma DepartureStaleIff(c: Config, start: int, base: nat, w: World, id: nat)
    requires ValidConfig(c) && AtomsFit(w) && StaleOk(c, start, base, w, []) && UnregisterPolicy(c, w, id).Some?
    ensures var v := UnregisterPolicy(c, w, id).value;
            AtomsFit(v) && (StaleOk(c, start, base, v, []) <==> !Ages(c, w, PolicyGone(id))) && (Young(c, v) <==> !Ages(c, w, PolicyGone(id)))
  {
    hide UnregisterPolicy, AtomsFit, Pace, Slack, StepsFresh;
    DepartureLeaves(c, w, id);
    assert w.queue + [] == w.queue;
  }

  // ---------- whole runs ----------

  /** The ranks of atoms are below the group size. */
  predicate AtomFits(e: Event) {
    e.PolicyAtom? ==> e.atom < e.size
  }

  lemma SameFit(w: World, v: World)
    requires SamePolicies(w, v) && AtomsFit(w)
    ensures AtomsFit(v)
  {
    assert forall id :: id in w.policies ==> SameReplica(w.policies[id], v.policies[id]);
  }

  /** An event keeps queued rollouts young enough for their places, and those dispatched fresh, exactly if it is
      not such a departure. */
  lemma EventStaleIff(c: Config, start: int, base: nat, w: World, e: Event)
    requires ValidConfig(c) && !c.byRank && AtomsFit(w) && StaleOk(c, start, base, w, []) && AtomFits(e) && After(c, w, e).Some?
    ensures var v := After(c, w, e).value;
            AtomsFit(v) && (StaleOk(c, start, base, v, []) <==> !Ages(c, w, e)) && (Young(c, v) <==> !Ages(c, w, e))
  {
    hide SamePolicies, Pace, StaleOk, Young, AtomsFit, RegisterPolicy, UnregisterPolicy, TrainAck, RolloutEnd, PutGroup, RegisterRollout, Slack;
    if e.PolicyGone? {
      DepartureStaleIff(c, start, base, w, e.id);
    } else if e.PolicyAtom? {
      ArrivalKeepsStale(c, start, base, w, e.id, e.atom, e.size, e.now);
      StaleIsYoung(c, start, base, After(c, w, e).value);
    } else {
      EventKeepsStale(c, start, base, w, e);
      SameFit(w, After(c, w, e).value);
      StaleIsYoung(c, start, base, After(c, w, e).value);
    }
  }

  lemma StaleIsYoung(c: Config, start: int, base: nat, w: World)
    requires ValidConfig(c) && StaleOk(c, start, base, w, [])
    ensures Young(c, w)
  {
    assert w.queue + [] == w.queue;
  }

  ghost predicate NeverAges(c: Config, w: World, events: seq<Event>)
    requires ValidConfig(c) && CanRun(c, w, events)
    decreases |events|
  {
    events != [] ==> !Ages(c, w, events[0]) && NeverAges(c, After(c, w, events[0]).value, events[1..])
  }

  /** In every state of the run the queued rollouts are young enough for their places. */
  ghost predicate YoungThroughout(c: Config, w: World, events: seq<Event>)
    requires ValidConfig(c) && CanRun(c, w, events)
    decreases |events|
  {
    Young(c, w) && (events != [] ==> YoungThroughout(c, After(c, w, events[0]).value, events[1..]))
  }

  lemma {:induction false} RunStaleIff(c: Config, start: int, base: nat, w: World, events: seq<Event>)
    requires ValidConfig(c) && !c.byRank && AtomsFit(w) && StaleOk(c, start, base, w, [])
    requires CanRun(c, w, events) && forall e :: e in events ==> AtomFits(e)
    ensures YoungThroughout(c, w, events) <==> NeverAges(c, w, events)
    ensures NeverAges(c, w, events) ==> StaleOk(c, start, base, Run(c, w, events), [])
    decreases |events|
  {
    hide Young, StaleOk, After, AtomsFit, Ages, Pace;
    StaleIsYoung(c, start, base, w);
    if events != [] {
      assert events[0] in events;
      EventStaleIff(c, start, base, w, events[0]);
      if Ages(c, w, events[0]) {
        NotYoungAtOnce(c, After(c, w, events[0]).value, events[1..]);
      } else {
        RunStaleIff(c, start, base, After(c, w, events[0]).value, events[1..]);
      }
    }
  }

  lemma NotYoungAtOnce(c: Config, w: World, events: seq<Event>)
    requires ValidConfig(c) && CanRun(c, w, events) && !Young(c, w)
    ensures !YoungThroughout(c, w, events)
  {
  }

  /** From any state with an empty shared queue, over any run: queued rollouts are young enough for their places
      throughout exactly if no departure ages them; and then every rollout dispatched for global step g has a
      weight version of at least g - 1 - allowed. */
  lemma StalenessFromEmptyQueue(c: Config, w: World, events: seq<Event>)
    requires ValidConfig(c) && !c.byRank && AtomsFit(w) && w.queue == []
    requires CanRun(c, w, events) && forall e :: e in events ==> AtomFits(e)
    ensures YoungThroughout(c, w, events) <==> NeverAges(c, w, events)
    ensures var v, n := Run(c, w, events), |w.log.steps|;
            NeverAges(c, w, events) ==>
              && v.step == w.step + |v.log.steps| - n
              && forall k, i :: n <= k < |v.log.steps| && 0 <= i < |v.log.steps[k]| ==>
                   w.step + (k - n) - v.log.steps[k][i].version <= c.allowed
  {
    hide Slack, Pace, AtomsFit, YoungThroughout, NeverAges, AtomFits;
    EmptySlack(c, w.step, Pace(c, w));
    assert w.queue + [] == [];
    RunStaleIff(c, w.step - |w.log.steps|, |w.log.steps|, w, events);
  }

  /** Bounded staleness, over every run from the start, with replicas coming and going: queued rollouts are young
      enough for their places throughout exactly if no departure of a policy replica ages them; and then the k-th
      step, global step step + k + 1, was given no rollout more than the allowed number of steps behind. */
  lemma BoundedStaleness(c: Config, policyInit: nat, rolloutInit: nat, step: int, remain: int, events: seq<Event>)
    requires ValidConfig(c) && !c.byRank && forall e :: e in events ==> AtomFits(e)
    requires CanRun(c, Opening(policyInit, rolloutInit, step, remain), events)
    ensures var o := Opening(policyInit, rolloutInit, step, remain);
            var v := Run(c, o, events);
            && (YoungThroughout(c, o, events) <==> NeverAges(c, o, events))
            && (NeverAges(c, o, events) ==>
                  && v.step == step + |v.log.steps|
                  && forall k, i :: 0 <= k < |v.log.steps| && 0 <= i < |v.log.steps[k]| ==> step + k - v.log.steps[k][i].version <= c.allowed)
  {
    StalenessFromEmptyQueue(c, Opening(policyInit, rolloutInit, step, remain), events);
  }

  /** In particular while no policy replica leaves. */
  lemma {:induction false} StayingNeverAges(c: Config, w: World, events: seq<Event>)
    requires ValidConfig(c) && CanRun(c, w, events) && forall e :: e in events ==> !e.PolicyGone?
    ensures NeverAges(c, w, events)
    decreases |events|
  {
    hide After;
    if events != [] {
      assert events[0] in events;
      StayingNeverAges(c, After(c, w, events[0]).value, events[1..]);
    }
  }
}
