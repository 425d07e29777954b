/** Runs from the start in which a promise of the controller is broken. */
module ControllerWitnesses {
  import opened Arithmetic
  import opened Common
  import opened ControllerModel
  import opened ControllerFlow
  import opened ControllerQueues
  import opened ControllerLedger
  import opened ControllerMesh
  import opened ControllerLoads
  import opened ControllerWeights
  import opened ControllerStop
  import opened ControllerSignal
  import opened ControllerRankStop
  import opened ControllerRaises
  import opened ControllerStart
  import opened ControllerStaleness

  // ---------- runs, one event at a time ----------

  /** What every state of these runs satisfies. */
  ghost predicate Reached(c: Config, w: World) {
    Kept(c, w) && RolloutsOk(w)
  }

  lemma ReachedOpening(c: Config, policyInit: nat, rolloutInit: nat, step: int, remain: int)
    requires 0 <= step
    ensures Reached(c, Opening(policyInit, rolloutInit, step, remain))
  {
    OpeningKept(c, policyInit, rolloutInit, step, remain);
    hide Kept;
  }

  lemma ReachedNext(c: Config, w: World, e: Event)
    requires ValidConfig(c) && Reached(c, w) && Regular(w, e) && After(c, w, e).Some? && !TooEarly(c, w, e)
    ensures Reached(c, After(c, w, e).value)
  {
    hide Kept, RolloutsOk, After, Regular, TooEarly;
    EventKept(c, w, e);
    EventRollouts(c, w, e);
  }

  // ---------- arrivals ----------

  /** Nothing but the policies changed, and that the weights were resumed. */
  predicate OnlyPolicies(w: World, v: World) {
    v == w.(policies := v.policies, policyOrder := v.policyOrder, policyInit := v.policyInit, resumed := v.resumed)
  }

  lemma OneArrived(w: World, id: nat)
    requires w.policyOrder == [id] && id in w.policies && Arrived(w.policies[id])
    ensures ArrivedPolicies(w) == [id]
  {
    assert [id][..0] == [];
    assert ArrivedIn(w.policies, []) == [];
  }

  function Newcomer(now: int): Replica {
    Replica(1, {0}, Some(now), Some(Uninitialized), false, None, false, [], [], 0)
  }

  lemma StampedNewcomer(g: Group, id: nat, now: int)
    requires id !in g
    ensures SetStatus(Stamp(g[id := NewReplica(1, 0)], id, now), {id}, Uninitialized) == g[id := Newcomer(now)]
  {
  }

  /** A replica of one atom is enrolled and complete. */
  lemma EnrolsAlone(w: World, id: nat, now: int)
    requires id !in w.policies
    ensures Enrol(w.policies, id, 0, 1).Some?
    ensures var g := Enrol(w.policies, id, 0, 1).value;
            var s := Enrolled(w, id, g, now);
            && Arrived(g[id]) && g[id].status.None? && g.Keys == w.policies.Keys + {id}
            && s.policies == w.policies[id := Newcomer(now)] && s.policyOrder == w.policyOrder + [id] && OnlyPolicies(w, s)
            && s.resumed == w.resumed && (!w.policyReady ==> s.policyInit == Max(|w.policies.Keys + {id}|, w.policyInit))
  {
    var g := Enrol(w.policies, id, 0, 1).value;
    assert g == w.policies[id := NewReplica(1, 0)];
    hide SetStatus, Stamp, Enrol;
    assert g.Keys == w.policies.Keys + {id};
    assert |g| == |w.policies.Keys + {id}|;
    StampedNewcomer(w.policies, id, now);
  }

  /** Without rollout replicas the first policy replica resumes the weights and sends them to nobody. */
  lemma ResumesAlone(s: World, id: nat)
    requires s.rolloutOrder == []
    ensures FirstPolicyArrives(s, id) == s.(resumed := true, policies := Load(s.policies, {id}, WeightResume))
  {
    assert ArrivedRollouts(s) == [];
  }

  lemma Waits(c: Config, f: World, id: nat)
    requires id in f.policies && !f.policyReady && |ArrivedPolicies(f)| < f.policyInit
    ensures AfterPolicyArrives(c, f, id) == Some(f)
  {
    hide ArrivedPolicies;
  }

  /** The first policy replica arrives, with more to come. */
  lemma FirstArrives(c: Config, w: World, id: nat, now: int)
    requires w.policies == map[] && w.policyOrder == [] && w.rolloutOrder == [] && !w.resumed
    requires !w.policyReady && 1 < w.policyInit
    ensures RegisterPolicy(c, w, id, 0, 1, now).Some?
    ensures var v := RegisterPolicy(c, w, id, 0, 1, now).value;
            && OnlyPolicies(w, v) && v.policyOrder == [id] && v.policyInit == w.policyInit && v.resumed
            && v.policies == map[id := Replica(1, {0}, Some(now), Some(Uninitialized), true, None, false, [WeightResume], [], 0)]
            && ArrivedPolicies(v) == [id]
  {
    hide Enrol, FirstPolicyArrives, AfterPolicyArrives, Stamp, SetStatus, ArrivedPolicies;
    EnrolsAlone(w, id, now);
    var g := Enrol(w.policies, id, 0, 1).value;
    var s := Enrolled(w, id, g, now);
    EnrolledIs(w, id, g, now);
    OneArrived(s, id);
    ResumesAlone(s, id);
    var f := FirstPolicyArrives(s, id);
    assert [] + [WeightResume] == [WeightResume];
    OneArrived(f, id);
    assert w.policies.Keys + {id} == {id};
    Waits(c, f, id);
  }

  /** Another policy replica arrives, still with more to come. */
  lemma NextArrives(c: Config, w: World, id: nat, now: int)
    requires Kept(c, w) && id !in w.policies && !w.policyReady && ArrivedPolicies(w) != []
    requires |ArrivedPolicies(w)| + 1 < Max(|w.policies.Keys + {id}|, w.policyInit)
    ensures RegisterPolicy(c, w, id, 0, 1, now).Some?
    ensures var v := RegisterPolicy(c, w, id, 0, 1, now).value;
            && OnlyPolicies(w, v) && v.policies == w.policies[id := Newcomer(now)] && v.resumed == w.resumed
            && v.policyInit == Max(|w.policies.Keys + {id}|, w.policyInit)
            && |ArrivedPolicies(v)| == |ArrivedPolicies(w)| + 1 && id in ArrivedPolicies(v)
  {
    hide Kept, Ledger, Seated, FlagsOk, Enrol, AfterPolicyArrives, Stamp, SetStatus, ArrivedPolicies, JustCompleted, Enrolled;
    KeptLedger(c, w);
    EnrolsAlone(w, id, now);
    var g := Enrol(w.policies, id, 0, 1).value;
    var s := Enrolled(w, id, g, now);
    EnrolledIs(w, id, g, now);
    CompletionCompleted(c, w, id, 0, 1, now);
    OneMoreArrived(w, s, id);
    CompletedIs(w, s, id);
    Waits(c, s, id);
  }

  // ---------- the extra last fetch, too early ----------

  lemma RolloutJoins(c: Config, w: World, id: nat, now: int)
    requires ValidConfig(c) && Reached(c, w) && id !in w.rollouts
    ensures var e := RolloutAtom(id, 0, 1, now);
            && Regular(w, e) && !TooEarly(c, w, e) && After(c, w, e).Some?
            && var v := After(c, w, e).value;
            Reached(c, v) && Untrained(w, v) && v.rollouts.Keys == w.rollouts.Keys + {id} && !v.rollouts[id].ended
  {
    hide Kept, RolloutsOk, Untrained, RegisterRollout;
    var e := RolloutAtom(id, 0, 1, now);
    RolloutRaisesIff(w, id, 0, 1, now);
    RegisterUntrained(w, id, 0, 1, now);
    ReachedNext(c, w, e);
    RolloutKeys(w, id, now);
  }

  lemma RolloutKeys(w: World, id: nat, now: int)
    requires id !in w.rollouts && RegisterRollout(w, id, 0, 1, now).Some?
    ensures var v := RegisterRollout(w, id, 0, 1, now).value;
            v.rollouts.Keys == w.rollouts.Keys + {id} && !v.rollouts[id].ended
  {
    hide AfterRolloutArrives;
    var g := Enrol(w.rollouts, id, 0, 1).value;
    assert g == w.rollouts[id := NewReplica(1, 0)];
    var n := EnrolRollout(w, id, g);
    var s := n.(rollouts := Stamp(n.rollouts, id, now));
    StampKeys(n.rollouts, id, now);
    ArrivedKeys(s, id);
  }

  /** A replica that arrives is not marked as ended by being greeted and meshed. */
  lemma ArrivedKeys(s: World, id: nat)
    requires id in s.rollouts && AfterRolloutArrives(s, id).Some?
    ensures var v := AfterRolloutArrives(s, id).value;
            v.rollouts.Keys == s.rollouts.Keys && v.rollouts[id].ended == s.rollouts[id].ended
  {
    hide GreetRollout, InitRollouts, RebuildRolloutMesh, ArrivedRollouts;
    GreetEnded(s, id);
    var p := GreetRollout(s, id);
    InitEnded(p, id);
    RebuildEnded(p, id);
  }

  lemma GreetEnded(s: World, id: nat)
    requires id in s.rollouts
    ensures GreetRollout(s, id).rollouts.Keys == s.rollouts.Keys && GreetRollout(s, id).rollouts[id].ended == s.rollouts[id].ended
  {
    hide ArrivedRollouts, SortByStart, Tell, Load;
  }

  lemma RebuildEnded(s: World, id: nat)
    requires id in s.rollouts
    ensures RebuildRolloutMesh(s).rollouts.Keys == s.rollouts.Keys && RebuildRolloutMesh(s).rollouts[id].ended == s.rollouts[id].ended
  {
    hide ArrivedRollouts, SortByStart;
  }

  lemma InitEnded(s: World, id: nat)
    requires id in s.rollouts
    ensures InitRollouts(s).rollouts.Keys == s.rollouts.Keys && InitRollouts(s).rollouts[id].ended == s.rollouts[id].ended
  {
    hide ArrivedRollouts, SortByStart;
  }

  /** One event of a run that goes on: regular, not refused, and not an extra fetch issued too early. */
  ghost predicate Goes(c: Config, w: World, e: Event, v: World)
    requires ValidConfig(c)
  {
    Regular(w, e) && !TooEarly(c, w, e) && After(c, w, e) == Some(v)
  }

  lemma RunGoes(c: Config, w: World, e: Event, v: World, rest: seq<Event>)
    requires ValidConfig(c) && Goes(c, w, e, v) && RegularRun(c, v, rest) && CanRun(c, v, rest) && NeverTooEarly(c, v, rest)
    ensures RegularRun(c, w, [e] + rest) && CanRun(c, w, [e] + rest)
    ensures Run(c, w, [e] + rest) == Run(c, v, rest) && NeverTooEarly(c, w, [e] + rest)
  {
    assert ([e] + rest)[1..] == rest;
  }

  lemma NoEvents(c: Config, w: World)
    requires ValidConfig(c)
    ensures RegularRun(c, w, []) && CanRun(c, w, []) && Run(c, w, []) == w && NeverTooEarly(c, w, [])
  {
  }

  lemma GoesOnce(c: Config, w: World, e: Event, v: World)
    requires ValidConfig(c) && Regular(w, e) && !TooEarly(c, w, e) && After(c, w, e) == Some(v)
    ensures Goes(c, w, e, v)
  {
  }

  /** The states of a run, one event at a time. */
  ghost predicate Chain(c: Config, ws: seq<World>, events: seq<Event>)
    requires ValidConfig(c)
  {
    |ws| == |events| + 1 && forall i :: 0 <= i < |events| ==> Goes(c, ws[i], events[i], ws[i + 1])
  }

  lemma {:induction false} RunChain(c: Config, ws: seq<World>, events: seq<Event>)
    requires ValidConfig(c) && Chain(c, ws, events)
    ensures RegularRun(c, ws[0], events) && CanRun(c, ws[0], events) && NeverTooEarly(c, ws[0], events)
    ensures Run(c, ws[0], events) == ws[|events|]
    decreases |events|
  {
    hide Goes;
    if events == [] {
      NoEvents(c, ws[0]);
    } else {
      assert Goes(c, ws[0], events[0], ws[1]);
      RunChain(c, ws[1..], events[1..]);
      assert [events[0]] + events[1..] == events;
      RunGoes(c, ws[0], events[0], ws[1], events[1..]);
    }
  }

  /** Two of three policy replicas arrive. */
  lemma TwoOfThree(c: Config) returns (w0: World, w: World)
    requires ValidConfig(c)
    ensures Goes(c, Opening(3, 1, 5, 0), PolicyAtom(0, 0, 1, 1), w0) && Goes(c, w0, PolicyAtom(1, 0, 1, 2), w) && Reached(c, w)
    ensures OnlyPolicies(Opening(3, 1, 5, 0), w) && 1 in w.policies && w.policies[1] == Newcomer(2)
    ensures 1 in ArrivedPolicies(w) && |ArrivedPolicies(w)| == 2
  {
    hide Reached, RegisterPolicy, ArrivedPolicies;
    var o := Opening(3, 1, 5, 0);
    ReachedOpening(c, 3, 1, 5, 0);
    FirstArrives(c, o, 0, 1);
    ReachedNext(c, o, PolicyAtom(0, 0, 1, 1));
    w0 := After(c, o, PolicyAtom(0, 0, 1, 1)).value;
    assert w0.policies.Keys + {1} == {0, 1};
    assert |{0, 1}| == 2;
    ReachedIsKept(c, w0);
    NextArrives(c, w0, 1, 2);
    ReachedNext(c, w0, PolicyAtom(1, 0, 1, 2));
    w := After(c, w0, PolicyAtom(1, 0, 1, 2)).value;
  }

  lemma ReachedIsKept(c: Config, w: World)
    requires Reached(c, w)
    ensures Kept(c, w)
  {
  }

  /** Three policy replicas are waited for and two are there, of which the second has no weights yet; training
      resumes at step 5. A rollout replica runs out of prompts: the extra last fetch reaches the second policy
      replica before any weights. */
  lemma FetchBeforeWeights() returns (c: Config, events: seq<Event>, e: Event)
    ensures ValidConfig(c) && !c.byRank && c.maxSteps.None?
    ensures var o := Opening(3, 1, 5, 0);
            && RegularRun(c, o, events) && CanRun(c, o, events) && NeverTooEarly(c, o, events)
            && var w := Run(c, o, events);
            && Regular(w, e) && TooEarly(c, w, e) && After(c, w, e).Some?
            && var v := After(c, w, e).value;
            && 1 in v.policies && v.policies[1].stream != [] && v.policies[1].stream[|v.policies[1].stream| - 1].DataFetch?
            && !Gave(true, 1, v.policies[1].stream) && !Sound(v)
  {
    hide Reached, After, Regular, TooEarly, Sound, Gave, Untrained, ArrivedPolicies, Goes;
    c := Config(1, 0, None, 1, false, false);
    var o := Opening(3, 1, 5, 0);
    var w0, w1 := TwoOfThree(c);
    RolloutJoins(c, w1, 7, 3);
    var w2 := After(c, w1, RolloutAtom(7, 0, 1, 3)).value;
    assert w2.rollouts.Keys == {7};
    EarlyEnd(c, w1, w2);
    events := [PolicyAtom(0, 0, 1, 1), PolicyAtom(1, 0, 1, 2), RolloutAtom(7, 0, 1, 3)];
    GoesOnce(c, w1, RolloutAtom(7, 0, 1, 3), w2);
    RunChain(c, [o, w0, w1, w2], events);
    e := EndIn(7);
  }

  lemma EarlyEnd(c: Config, w: World, v: World)
    requires ValidConfig(c) && !c.byRank && c.batch == 1 && c.maxSteps.None? && Reached(c, v) && Untrained(w, v)
    requires v.rollouts.Keys == {7} && w.queue == [] && w.step == 5 && w.total == 0
    requires 1 in w.policies && w.policies[1] == Newcomer(2) && 1 in ArrivedPolicies(w) && |ArrivedPolicies(w)| == 2
    ensures Regular(v, EndIn(7)) && TooEarly(c, v, EndIn(7)) && After(c, v, EndIn(7)).Some?
    ensures var u := After(c, v, EndIn(7)).value;
            && 1 in u.policies && u.policies[1].stream != [] && u.policies[1].stream[|u.policies[1].stream| - 1].DataFetch?
            && !Gave(true, 1, u.policies[1].stream) && !Sound(u)
  {
    hide Ledger, Seated, WeightsOk, RolloutsOk, Gave, SoundStream, ArrivedPolicies, RolloutEnd;
    UntrainedSame(w, v);
    SamePoliciesArrived(w, v);
    assert ToldMore(w.policies[1], v.policies[1]);
    assert AllEnded(MarkEnded(v, 7));
    NothingLeft(c, MarkEnded(v, 7), v);
    EndRaisesIff(c, v, 7);
    TooEarlyBreaks(c, v, EndIn(7), 1);
  }

  lemma NothingLeft(c: Config, m: World, v: World)
    requires m == v.(rollouts := m.rollouts) && !c.byRank && v.queue == [] && v.step == 5 && v.total == 0 && c.maxSteps.None?
    requires c.batch == 1 && |ArrivedPolicies(v)| == 2
    ensures ConcludesWithExtra(c, m)
  {
    assert ArrivedPolicies(m) == ArrivedPolicies(v);
    hide ArrivedPolicies;
  }

  // ---------- initialisation ----------

  lemma MakesReady(c: Config, f: World, id: nat)
    requires id in f.policies && !f.policyReady && |ArrivedPolicies(f)| >= f.policyInit && AfterPolicyArrives(c, f, id).Some?
    ensures AfterPolicyArrives(c, f, id).value.policyReady
  {
    hide RebuildPolicyMesh, ArrivedPolicies, SetStatus, Load;
    RebuildFields(c, f.(policyReady := true));
  }

  lemma FirstKeepsInit(s: World, id: nat)
    requires id in s.policies
    ensures FirstPolicyArrives(s, id).policyInit == s.policyInit && ArrivedPolicies(FirstPolicyArrives(s, id)) == ArrivedPolicies(s)
    ensures id in FirstPolicyArrives(s, id).policies && FirstPolicyArrives(s, id).policyReady == s.policyReady
  {
    hide SendPolicyToRollout, BroadcastToRollouts, ArrivedRollouts, InPlace, ArrivedPolicies;
    FirstPolicyInPlace(s, id);
    PlaceArrived(s, FirstPolicyArrives(s, id));
    FirstInit(s, id);
  }

  lemma PlaceArrived(w: World, v: World)
    requires InPlace(w, v)
    ensures ArrivedPolicies(v) == ArrivedPolicies(w) && v.policyReady == w.policyReady && v.policies.Keys == w.policies.Keys
  {
    hide Routed;
    UnmovedArrived(w.policies, v.policies, w.policyOrder);
  }

  lemma FirstInit(s: World, id: nat)
    ensures FirstPolicyArrives(s, id).policyInit == s.policyInit
  {
    hide ArrivedRollouts, SortByStart, MeshMembers, AllLoaded;
  }

  /** The last policy replica waited for arrives: all become ready. */
  lemma LastArrives(c: Config, w: World, id: nat, now: int)
    requires ValidConfig(c) && Kept(c, w) && id !in w.policies && Initialises(w, id) && !WeightsGone(w, id)
    ensures var e := PolicyAtom(id, 0, 1, now);
            Regular(w, e) && !TooEarly(c, w, e) && InitialisedBy(c, w, e)
  {
    hide Kept, Ledger, Seated, FlagsOk, Enrol, AfterPolicyArrives, FirstPolicyArrives, Stamp, SetStatus, ArrivedPolicies,
      JustCompleted, Enrolled, WeightsGone;
    KeptLedger(c, w);
    EnrolsAlone(w, id, now);
    RegistrationRaisesIff(c, w, id, 0, 1, now);
    var g := Enrol(w.policies, id, 0, 1).value;
    var s := Enrolled(w, id, g, now);
    EnrolledIs(w, id, g, now);
    CompletionCompleted(c, w, id, 0, 1, now);
    OneMoreArrived(w, s, id);
    CompletedIs(w, s, id);
    FirstKeepsInit(s, id);
    var f := if |ArrivedPolicies(s)| == 1 then FirstPolicyArrives(s, id) else s;
    assert RegisterPolicy(c, w, id, 0, 1, now) == AfterPolicyArrives(c, f, id);
    MakesReady(c, f, id);
  }

  /** What is known of the state after initialisation. */
  lemma Initialised(c: Config, w: World, id: nat, now: int)
    requires ValidConfig(c) && Reached(c, w) && id !in w.policies && Initialises(w, id) && !WeightsGone(w, id)
    requires w.total == 0 && c.maxSteps.None?
    ensures var e := PolicyAtom(id, 0, 1, now);
            && After(c, w, e).Some? && InitialisedBy(c, w, e) && Goes(c, w, e, After(c, w, e).value)
            && var v := After(c, w, e).value;
            && Reached(c, v) && StatusOk(v) && AllStatus(v, {Ready}) && AllStatus(v, {Ready, Reduced})
            && v.policies.Keys == w.policies.Keys + {id} && |ArrivedPolicies(v)| == |ArrivedPolicies(w)| + 1
            && v.step == w.step && v.inFlight == w.inFlight && v.queue == w.queue && v.rollouts.Keys == w.rollouts.Keys
            && 0 < PerStep(c, v) == c.batch * |ArrivedPolicies(v)| && v.total == w.step + FloorDiv(w.remain, PerStep(c, v))
            && (c.byRank ==> v.rankQueues == Rearranged(w.rankQueues, |ArrivedPolicies(v)|))
  {
    hide Kept, Ledger, Seated, FlagsOk, RolloutsOk, After, Regular, ArrivedPolicies, StatusOk, MadeReady, Initialises,
      WeightsGone, FinalPublished, Rearranged, FloorDiv;
    var e := PolicyAtom(id, 0, 1, now);
    LastArrives(c, w, id, now);
    ReachedNext(c, w, e);
    KeptLedger(c, w);
    var f := InitialisedFrom(c, w, e);
    var v := After(c, w, e).value;
    ReadyStatus(c, f, v, id);
    MadeReadyArrived(f, v);
    OneArrivedMore(c, w, f, v, id);
    PositivePerStep(c, v);
    RecomputedTotal(c, f, v);
    MadeReadyKeys(f, v);
    ReadyRollouts(c, w, e);
  }

  lemma KeptLedger(c: Config, w: World)
    requires Kept(c, w)
    ensures Ledger(c, w) && Seated(c, w) && FlagsOk(w) && Distinct(w.policyOrder)
  {
  }

  lemma MadeReadyKeys(f: World, v: World)
    requires MadeReady(f, v)
    ensures v.policies.Keys == f.policies.Keys
  {
  }

  lemma ReadyRollouts(c: Config, w: World, e: Event)
    requires ValidConfig(c) && e.PolicyAtom? && After(c, w, e).Some?
    ensures After(c, w, e).value.rollouts.Keys == w.rollouts.Keys
  {
    hide RegisterPolicy;
    RegisterPolicySame(c, w, e.id, e.atom, e.size, e.now);
  }

  lemma RecomputedTotal(c: Config, f: World, v: World)
    requires f.total == 0 && c.maxSteps.None? && ArrivedPolicies(v) == ArrivedPolicies(f) && 0 < PerStep(c, v)
    requires v.total == Recompute(c, f, f.remain).total
    ensures v.total == f.step + FloorDiv(f.remain, PerStep(c, v))
  {
    hide ArrivedPolicies;
  }

  /** One more has arrived than before. */
  lemma OneArrivedMore(c: Config, w: World, f: World, v: World, id: nat)
    requires Kept(c, w) && Kept(c, v) && id !in w.policies && id in ArrivedPolicies(f) && ArrivedPolicies(v) == ArrivedPolicies(f)
    requires f.policies.Keys == w.policies.Keys + {id} && Ledger(c, f)
    requires forall i :: i in w.policies && i != id ==> (Arrived(f.policies[i]) <==> Arrived(w.policies[i]))
    ensures |ArrivedPolicies(v)| == |ArrivedPolicies(w)| + 1
  {
    hide ArrivedPolicies, Kept, Ledger, Seated, FlagsOk, Distinct;
    KeptLedger(c, w);
    KeptLedger(c, v);
    ArrivedPoliciesDistinct(w);
    ArrivedPoliciesDistinct(v);
    LedgerOrder(c, w);
    LedgerOrder(c, f);
    ArrivedBesides(w, f, id);
    ArrivedKnown(w);
    OneLonger(ArrivedPolicies(v), ArrivedPolicies(w), id);
  }

  lemma ArrivedBesides(w: World, f: World, id: nat)
    requires (forall i :: i in w.policies <==> i in w.policyOrder) && (forall i :: i in f.policies <==> i in f.policyOrder)
    requires id !in w.policies && id in ArrivedPolicies(f) && f.policies.Keys == w.policies.Keys + {id}
    requires forall i :: i in w.policies && i != id ==> (Arrived(f.policies[i]) <==> Arrived(w.policies[i]))
    ensures forall i :: i in ArrivedPolicies(f) <==> i in ArrivedPolicies(w) || i == id
  {
  }

  lemma OneLonger(a: seq<nat>, b: seq<nat>, id: nat)
    requires Distinct(a) && Distinct(b) && id !in b && forall i :: i in a <==> i in b || i == id
    ensures |a| == |b| + 1
  {
    SizeOfDistinct(a);
    SizeOfDistinct(b);
    assert AsSet(a) == AsSet(b) + {id};
  }

  // ---------- the last rollout replica leaves ----------

  lemma PromptsGo(c: Config, w: World, samples: nat)
    requires ValidConfig(c) && Reached(c, w)
    ensures var v := w.(inFlight := w.inFlight + samples);
            Goes(c, w, PromptsOut(samples), v) && Reached(c, v)
  {
    hide Reached;
    ReachedNext(c, w, PromptsOut(samples));
  }

  lemma BufferedStarts(c: Config, w: World, x: Rollout)
    requires ValidConfig(c) && !c.byRank && w.queue == [] && PerStep(c, w) == 1 && w.step < w.total
    requires AllStatus(w, {Ready, Reduced}) && ArrivedPolicies(w) != []
    ensures var b := w.(queue := [x], log := w.log.(buffered := w.log.buffered + [x]));
            && Buffer(c, w, x) == Some(b) && Triggers(c, b, false) && TryTrigger(c, b, false).Some? && PerStep(c, b) == 1
  {
    var b := w.(queue := [x], log := w.log.(buffered := w.log.buffered + [x]));
    assert [] + [x] == [x];
    assert ArrivedPolicies(b) == ArrivedPolicies(w);
    SameStatuses(w, b);
    hide ArrivedPolicies, AllStatus, TryTrigger;
    SharedDispatches(c, b, false);
  }

  /** Putting one rollout, when it is fresh and starts a step. */
  lemma PutsOne(c: Config, w: World, x: Rollout, b: World, v: World)
    requires ValidConfig(c) && !c.onPolicy && VersionsKnown(w, [x]) && FreshOnes(c, w, [x]) == [x]
    requires Buffer(c, w, x) == Some(b) && TryTrigger(c, b, false) == Some(v)
    ensures PutGroup(c, w, [x]) == Some(v)
  {
    hide TryTrigger, Buffer, FreshOnes, VersionsKnown;
    assert [x][1..] == [];
    assert PutEach(c, v, []) == Some(v);
    assert PutEach(c, w, [x]) == Some(v);
    assert w.(remain := w.remain - (|[x]| - |[x]|)) == w;
  }

  /** A single rollout starts a step with the shared queue. */
  lemma OneStarts(c: Config, w: World, x: Rollout)
    requires ValidConfig(c) && !c.byRank && !c.onPolicy && Reached(c, w)
    requires w.queue == [] && PerStep(c, w) == 1 && w.step < w.total && 0 <= c.allowed && x.version == w.step
    requires AllStatus(w, {Ready, Reduced}) && ArrivedPolicies(w) != []
    ensures After(c, w, GroupIn([x])).Some? && Goes(c, w, GroupIn([x]), After(c, w, GroupIn([x])).value)
    ensures var v := After(c, w, GroupIn([x])).value;
            && Reached(c, v) && v.step == w.step + 1 && v.total == w.total && v.queue == [] && v.inFlight == w.inFlight
            && v.rollouts == w.rollouts && PerStep(c, v) == 1
  {
    hide Reached, TryTrigger, AllStatus, Triggers, ArrivedPolicies, PerStep, Buffer, FreshOnes, VersionsKnown, PutGroup;
    OneFresh(c, w, x);
    BufferedStarts(c, w, x);
    var b := w.(queue := [x], log := w.log.(buffered := w.log.buffered + [x]));
    var v := TryTrigger(c, b, false).value;
    TriggerCounts(c, b, false);
    TriggerReplicas(c, b, false);
    PerStepSame(c, b, v);
    PutsOne(c, w, x, b, v);
    ReachedNext(c, w, GroupIn([x]));
  }

  lemma OneFresh(c: Config, w: World, x: Rollout)
    requires ValidConfig(c) && !c.byRank && w.queue == [] && 0 <= c.allowed && x.version == w.step
    ensures VersionsKnown(w, [x]) && FreshOnes(c, w, [x]) == [x]
  {
    assert [x][..0] == [];
    assert FreshOnes(c, w, []) == [];
  }

  /** Initialised, nothing started: the next rollouts may start a step. */
  predicate Waiting(c: Config, w: World) {
    !c.byRank && ArrivedPolicies(w) != [] && AllStatus(w, {Ready, Reduced}) && Steady(c, w) && PerStep(c, w) == 1 && w.queue == []
  }

  lemma UntrainedWaiting(c: Config, w: World, v: World)
    requires Waiting(c, w) && (Untrained(w, v) || v == w.(inFlight := v.inFlight))
    ensures Waiting(c, v) && v.step == w.step && v.total == w.total
    ensures Untrained(w, v) ==> v.inFlight == w.inFlight
  {
    hide Core, Settled, Provided, Untrained, AllStatus, OnlyMore, PerStep;
    if Untrained(w, v) {
      UntrainedIsMore(w, v);
      UntrainedNumbers(c, w, v);
    } else {
      InFlightMore(w, v);
      PerStepSame(c, w, v);
    }
    MoreKeepsCore(c, w, v);
    MoreKeepsStatus(w, v);
    SamePoliciesArrived(w, v);
  }

  lemma InFlightMore(w: World, v: World)
    requires v == w.(inFlight := v.inFlight)
    ensures OnlyMore(w, v) && SamePolicies(w, v)
  {
  }

  lemma AloneInitialises()
    ensures var o := Opening(1, 1, 0, 5);
            && Initialises(o, 0) && !WeightsGone(o, 0) && |ArrivedPolicies(o)| == 0 && 0 !in o.policies && o.policies.Keys + {0} == {0}
  {
    var o := Opening(1, 1, 0, 5);
    assert ArrivedPolicies(o) == [];
    assert o.policies.Keys + {0} == {0};
  }

  /** The only policy replica waited for arrives. */
  lemma OnlyOneReady(c: Config) returns (w: World)
    requires ValidConfig(c) && !c.byRank && c.batch == 1 && c.maxSteps.None?
    ensures Goes(c, Opening(1, 1, 0, 5), PolicyAtom(0, 0, 1, 1), w) && Reached(c, w) && Waiting(c, w)
    ensures w.step == 0 && w.total == 5 && w.inFlight == 0 && w.rollouts == map[]
  {
    hide Kept, RolloutsOk, Goes, StatusOk, FinalPublished, InitialisedBy, AllStatus, ArrivedPolicies, After, Initialises, WeightsGone,
      PerStep, Steady, Regular;
    var o, e := Opening(1, 1, 0, 5), PolicyAtom(0, 0, 1, 1);
    ReachedOpening(c, 1, 1, 0, 5);
    AloneInitialises();
    Initialised(c, o, 0, 1);
    KeptLedger(c, o);
    hide Ledger, Seated, FlagsOk, Distinct;
    w := After(c, o, e).value;
    assert Regular(o, e) by { GoesIsRegular(c, o, e, w); }
    InitialisedSteadyIff(c, o, e);
    assert PerStep(c, w) == 1 && w.total == 5;
    assert |ArrivedPolicies(w)| == 1;
  }

  lemma GoesIsRegular(c: Config, w: World, e: Event, v: World)
    requires ValidConfig(c) && Goes(c, w, e, v)
    ensures Regular(w, e)
  {
  }

  lemma SteadyAfterGroup(c: Config, w: World, x: Rollout, v: World)
    requires ValidConfig(c) && Waiting(c, w) && Goes(c, w, GroupIn([x]), v)
    ensures Steady(c, v)
  {
    hide Core, Settled, PutGroup;
    GroupCore(c, w, [x]);
  }

  lemma WaitingFacts(c: Config, w: World)
    requires Waiting(c, w)
    ensures !c.byRank && ArrivedPolicies(w) != [] && AllStatus(w, {Ready, Reduced}) && PerStep(c, w) == 1 && w.queue == []
  {
  }

  /** A rollout replica registers, prompts go out, and a first rollout comes back. */
  lemma FirstStep(c: Config, w0: World, x: Rollout) returns (events: seq<Event>, w: World)
    requires ValidConfig(c) && !c.onPolicy && 0 <= c.allowed && Reached(c, w0) && Waiting(c, w0) && w0.rollouts == map[]
    requires w0.step < w0.total && x.version == w0.step
    ensures RegularRun(c, w0, events) && CanRun(c, w0, events) && NeverTooEarly(c, w0, events) && w == Run(c, w0, events)
    ensures w.rollouts.Keys == {7} && !w.rollouts[7].ended && Steady(c, w) && w.queue == [] && PerStep(c, w) == 1
    ensures w.step == w0.step + 1 && w.total == w0.total && w.inFlight == w0.inFlight + 6
  {
    hide Reached, After, Goes, Waiting, Untrained, ArrivedPolicies, AllStatus, Steady, PerStep;
    var e1, e2, e3 := RolloutAtom(7, 0, 1, 2), PromptsOut(6), GroupIn([x]);
    RolloutJoins(c, w0, 7, 2);
    var w1 := After(c, w0, e1).value;
    UntrainedWaiting(c, w0, w1);
    PromptsGo(c, w1, 6);
    var w2 := w1.(inFlight := w1.inFlight + 6);
    UntrainedWaiting(c, w1, w2);
    WaitingFacts(c, w2);
    OneStarts(c, w2, x);
    w := After(c, w2, e3).value;
    SteadyAfterGroup(c, w2, x, w);
    GoesOnce(c, w0, e1, w1);
    events := [e1, e2, e3];
    RunChain(c, [w0, w1, w2, w], events);
  }

  /** One policy replica, five steps of one sample each, one rollout replica. After the first step has started
      the rollout replica leaves: it was the last one generating, but nobody concludes, and the reports of the
      policy replica never lead to the last step. */
  lemma LastOneLeaves(x: Rollout) returns (c: Config, events: seq<Event>, w: World)
    requires x.version == 0
    ensures ValidConfig(c) && !c.byRank && RegularRun(c, Opening(1, 1, 0, 5), events) && CanRun(c, Opening(1, 1, 0, 5), events)
    ensures w == Run(c, Opening(1, 1, 0, 5), events) && 7 in w.rollouts && !w.rollouts[7].ended && AllEnded(MarkEnded(w, 7))
    ensures Steady(c, w) && Covered(c, w) && w.step == 1 && w.total == 5
    ensures UnregisterRollout(w, 7).Some? && !ReportsSuffice(c, UnregisterRollout(w, 7).value)
    ensures RolloutEnd(c, w, 7).Some? && StopSafe(c, RolloutEnd(c, w, 7).value)
  {
    hide Reached, After, Goes, Waiting, Core, Settled, PerStep, ReportsSuffice, UnregisterRollout, RolloutEnd, StopSafe,
      Opening, Regular;
    c := Config(1, 0, None, 1, false, false);
    var w0 := OnlyOneReady(c);
    var rest;
    rest, w := FirstStep(c, w0, x);
    RunGoes(c, Opening(1, 1, 0, 5), PolicyAtom(0, 0, 1, 1), w0, rest);
    events := [PolicyAtom(0, 0, 1, 1)] + rest;
    assert 7 in w.rollouts.Keys;
    LeavingStopIff(c, w, 7);
  }

  // ---------- a step's rollouts queued before initialisation ----------

  /** The first of two policy replicas arrives. */
  lemma FirstOfTwo(c: Config, remain: int) returns (w: World)
    requires ValidConfig(c)
    ensures Goes(c, Opening(2, 1, 0, remain), PolicyAtom(0, 0, 1, 1), w) && Reached(c, w) && OnlyPolicies(Opening(2, 1, 0, remain), w)
    ensures |ArrivedPolicies(w)| == 1 && w.policies.Keys == {0} && Initialises(w, 1) && !WeightsGone(w, 1)
    ensures !AllStatus(w, {Ready, Reduced})
  {
    hide Reached, RegisterPolicy, ArrivedPolicies, TooEarly;
    var o, e := Opening(2, 1, 0, remain), PolicyAtom(0, 0, 1, 1);
    ReachedOpening(c, 2, 1, 0, remain);
    FirstArrives(c, o, 0, 1);
    NotAnEnd(c, o, e);
    ReachedNext(c, o, e);
    w := After(c, o, e).value;
    assert w.policies.Keys + {1} == {0, 1};
    assert |{0, 1}| == 2;
    assert 0 in [0] && 0 in w.policies && w.policies[0].loaded;
    assert w.policies[0].status == Some(Uninitialized);
  }

  lemma NotAnEnd(c: Config, w: World, e: Event)
    requires !e.EndIn?
    ensures !TooEarly(c, w, e)
  {
  }

  /** Putting two rollouts while a replica is not ready yet: they wait. */
  lemma TwoWait(c: Config, w: World, x: Rollout, y: Rollout)
    requires ValidConfig(c) && !c.byRank && !c.onPolicy && w.queue == [] && !AllStatus(w, {Ready, Reduced})
    requires c.batch == 1 && x.version == y.version == w.step
    requires (|ArrivedPolicies(w)| == 1 && 1 <= c.allowed) || (|ArrivedPolicies(w)| == 2 && 0 <= c.allowed)
    ensures PutGroup(c, w, [x, y]).Some?
    ensures var v := PutGroup(c, w, [x, y]).value;
            v == w.(queue := [x, y], log := v.log)
  {
    hide ArrivedPolicies, AllStatus, TryTrigger, PutEach, FreshOnes;
    AllFresh(c, w, [x, y]);
    assert w.(remain := w.remain - (|[x, y]| - |[x, y]|)) == w;
    var b := Buffer(c, w, x).value;
    assert [] + [x] == [x];
    SameStatuses(w, b);
    Untriggered(c, b);
    PutsQuietly(c, w, x, b, [x, y]);
    var d := Buffer(c, b, y).value;
    assert [x] + [y] == [x, y];
    SameStatuses(w, d);
    Untriggered(c, d);
    assert [x, y][1..] == [y] && [y][1..] == [];
    PutsQuietly(c, b, y, d, [y]);
    NothingToPut(c, d);
  }

  /** The same policy replicas are waited for. */
  predicate SameWaiting(w: World, v: World) {
    SamePolicies(w, v) && v.policyInit == w.policyInit && v.policyReady == w.policyReady && v.resumed == w.resumed
  }

  lemma StillInitialises(w: World, v: World, id: nat)
    requires SameWaiting(w, v) && Initialises(w, id) && !WeightsGone(w, id)
    ensures Initialises(v, id) && !WeightsGone(v, id) && ArrivedPolicies(v) == ArrivedPolicies(w) && v.policies.Keys == w.policies.Keys
  {
    SamePoliciesArrived(w, v);
    assert forall i :: i in w.policies ==> SameReplica(w.policies[i], v.policies[i]);
    hide ArrivedPolicies;
  }

  lemma UntrainedStatus(w: World, v: World)
    requires Untrained(w, v)
    ensures SameWaiting(w, v) && v.step == w.step && v.total == w.total && v.remain == w.remain && v.inFlight == w.inFlight && v.queue == w.queue
    ensures (AllStatus(v, {Ready, Reduced}) <==> AllStatus(w, {Ready, Reduced})) && (StatusOk(w) ==> StatusOk(v))
  {
    UntrainedQuiet(w, v);
    QuietStays(Config(1, 0, None, 1, false, false), w, v);
    hide Quiet, AllStatus, StatusOk;
    UntrainedSame(w, v);
  }

  /** A rollout replica joins, prompts go out and two rollouts come back while the second policy replica is
      waited for. */
  lemma QueuedEarly(c: Config, w: World, x: Rollout, y: Rollout) returns (w1: World, w2: World, w3: World)
    requires ValidConfig(c) && !c.byRank && !c.onPolicy && c.batch == 1 && 1 <= c.allowed && Reached(c, w)
    requires 7 !in w.rollouts && w.queue == [] && !AllStatus(w, {Ready, Reduced}) && |ArrivedPolicies(w)| == 1
    requires x.version == y.version == w.step
    ensures Goes(c, w, RolloutAtom(7, 0, 1, 2), w1) && Goes(c, w1, PromptsOut(4), w2) && Goes(c, w2, GroupIn([x, y]), w3)
    ensures Reached(c, w3) && SameWaiting(w, w3) && w3.rollouts.Keys == w.rollouts.Keys + {7} && w3.queue == [x, y]
    ensures w3.step == w.step && w3.total == w.total && w3.remain == w.remain && w3.inFlight == w.inFlight + 4
  {
    hide Reached, Untrained, RegisterRollout, PutGroup, ArrivedPolicies, AllStatus, SameReplica;
    RolloutJoins(c, w, 7, 2);
    w1 := After(c, w, RolloutAtom(7, 0, 1, 2)).value;
    GoesOnce(c, w, RolloutAtom(7, 0, 1, 2), w1);
    UntrainedStatus(w, w1);
    PromptsGo(c, w1, 4);
    w2 := w1.(inFlight := w1.inFlight + 4);
    SameStatuses(w1, w2);
    SamePoliciesArrived(w, w1);
    SameArrivedPolicies(w1, w2);
    TwoWait(c, w2, x, y);
    w3 := PutGroup(c, w2, [x, y]).value;
    ReachedNext(c, w2, GroupIn([x, y]));
  }

  /** Two policy replicas of one sample each. Before the second one is there the first has given the rollout
      replica its weights, and two rollouts come back, enough for a step. Initialisation makes both replicas ready
      and starts nothing. Then the rollout replica ends: one step is left, its rollouts are queued, nobody trains,
      and no report will start it. */
  lemma QueuedBeforeReady(x: Rollout, y: Rollout) returns (c: Config, events: seq<Event>)
    requires x.version == y.version == 0
    ensures ValidConfig(c) && !c.byRank
    ensures events == [PolicyAtom(0, 0, 1, 1), RolloutAtom(7, 0, 1, 2), PromptsOut(4), GroupIn([x, y]), PolicyAtom(1, 0, 1, 3), EndIn(7)]
    ensures RegularRun(c, Opening(2, 1, 0, 4), events) && CanRun(c, Opening(2, 1, 0, 4), events)
    ensures var w := Run(c, Opening(2, 1, 0, 4), events);
            && AllEnded(w) && Covered(c, w) && w.step == 0 && w.total == 1 && AllStatus(w, {Ready}) && Due(c, w)
            && Stuck(c, w) && !StopSafe(c, w) && !ReportsSuffice(c, w) && !ReportsStop(c, w)
  {
    hide Reached, After, Goes, AllStatus, ArrivedPolicies, Initialises, WeightsGone, Covered, ReportsSuffice, ReportsStop, Stuck, StopSafe,
      Due, AllEnded, SameWaiting, PerStep, OnlyPolicies;
    c := Config(1, 5, None, 1, false, false);
    var o := Opening(2, 1, 0, 4);
    var w0 := FirstOfTwo(c, 4);
    OpeningFacts(4, w0);
    var w1, w2, w3 := QueuedEarly(c, w0, x, y);
    StillInitialises(w0, w3, 1);
    var w4 := InitialisedStuck(c, w3);
    var w5 := EndsStuck(c, w4);
    events := [PolicyAtom(0, 0, 1, 1), RolloutAtom(7, 0, 1, 2), PromptsOut(4), GroupIn([x, y]), PolicyAtom(1, 0, 1, 3), EndIn(7)];
    RunChain(c, [o, w0, w1, w2, w3, w4, w5], events);
  }

  lemma OpeningFacts(remain: int, w: World)
    requires OnlyPolicies(Opening(2, 1, 0, remain), w)
    ensures w.rollouts == map[] && w.queue == [] && w.step == w.total == w.inFlight == 0 && w.remain == remain
  {
  }

  /** The second policy replica arrives: a step could start, and does not. */
  lemma InitialisedStuck(c: Config, w: World) returns (v: World)
    requires ValidConfig(c) && !c.byRank && c.batch == 1 && c.maxSteps.None? && Reached(c, w) && 1 !in w.policies
    requires Initialises(w, 1) && !WeightsGone(w, 1) && |ArrivedPolicies(w)| == 1 && |w.queue| == 2
    requires w.step == w.total == 0 && w.remain == w.inFlight == 4 && w.rollouts.Keys == {7}
    ensures Goes(c, w, PolicyAtom(1, 0, 1, 3), v) && Core(c, v) && Stuck(c, v) && v.step == 0 && v.total == 2 && v.inFlight == 4
    ensures |v.queue| == 2 == PerStep(c, v) && v.rollouts.Keys == {7} && AllStatus(v, {Ready})
  {
    hide Kept, Ledger, Seated, FlagsOk, RolloutsOk, After, Goes, StatusOk, InitialisedBy, AllStatus, ArrivedPolicies, Initialises, WeightsGone,
      PerStep, Regular, Core, Stuck, Underway, Exhausted;
    var e := PolicyAtom(1, 0, 1, 3);
    Initialised(c, w, 1, 3);
    v := After(c, w, e).value;
    KeptLedger(c, w);
    GoesIsRegular(c, w, e, v);
    InitialisedSignal(c, w, e);
  }

  lemma EndsWithTotal(c: Config, w: World, id: nat)
    requires RolloutEnd(c, w, id).Some? && !IssuesExtra(c, w, EndIn(id)) && AllEnded(MarkEnded(w, id))
    ensures RolloutEnd(c, w, id).value == MarkEnded(w, id).(total := Recompute(c, w, Pending(c, w)).total)
  {
    hide Recompute, AllEnded;
    var m := MarkEnded(w, id);
    RecomputeSame(c, m, Pending(c, m));
    MarkedTotal(c, w, m, Pending(c, w));
  }

  lemma OneStepCounted(c: Config, w: World)
    requires !c.byRank && c.maxSteps.None? && w.step == 0 && w.total == 2 && |w.queue| == 2 == PerStep(c, w)
    ensures Recompute(c, w, Pending(c, w)).total == 1
  {
    hide ArrivedPolicies;
  }

  lemma StuckRests(c: Config, w: World)
    requires Core(c, w) && Stuck(c, w)
    ensures !SomeoneRunning(w) && !Finished(w) && AllStatus(w, {Ready}) && w.step < w.total && !FinalPublished(w)
  {
    UnsettledIdles(c, w);
  }

  lemma EndsStuck(c: Config, w: World) returns (v: World)
    requires ValidConfig(c) && !c.byRank && c.maxSteps.None? && Core(c, w) && Stuck(c, w) && w.step == 0 && w.total == 2 && w.inFlight == 4
    requires |w.queue| == 2 == PerStep(c, w) && w.rollouts.Keys == {7}
    ensures Goes(c, w, EndIn(7), v) && AllEnded(v) && Covered(c, v) && v.step == 0 && v.total == 1 && AllStatus(v, {Ready}) && Due(c, v)
    ensures Stuck(c, v) && !StopSafe(c, v) && !ReportsSuffice(c, v) && !ReportsStop(c, v)
  {
    hide Core, Stuck, AllStatus, StopSafe, ReportsSuffice, ReportsStop, RolloutEnd, PerStep, Quiet, FinalPublished, Settled, IssuesExtra,
      SomeoneRunning, Recompute;
    OnlyOneEnded(w, MarkEnded(w, 7));
    EndStuck(c, w, 7);
    v := RolloutEnd(c, w, 7).value;
    StuckRests(c, v);
    EndCore(c, w, 7);
    EndsWithTotal(c, w, 7);
    OneStepCounted(c, w);
    EndQuietly(c, w, 7);
    QuietStays(c, w, v);
    OnlyOneEnded(w, v);
    SharedStopIff(c, v);
    SafeIsExact(c, v);
  }

  // ---------- too few samples for a step ----------

  /** Two policy replicas are initialised, with the shared queue. */
  lemma TwoShared(c: Config, remain: int) returns (w0: World, w: World)
    requires ValidConfig(c) && !c.byRank && c.batch == 1 && c.maxSteps.None?
    ensures Goes(c, Opening(2, 1, 0, remain), PolicyAtom(0, 0, 1, 1), w0) && Goes(c, w0, PolicyAtom(1, 0, 1, 2), w)
    ensures Reached(c, w) && PerStep(c, w) == 2 == |ArrivedPolicies(w)| && w.policies.Keys == {0, 1} && AllStatus(w, {Ready, Reduced})
    ensures StatusOk(w) && w.queue == [] && w.rollouts == map[] && w.step == 0 && w.total == FloorDiv(remain, 2)
    ensures Underway(c, w) && (w.total == 0 ==> Exhausted(c, w))
  {
    hide Kept, Ledger, Seated, FlagsOk, RolloutsOk, Goes, InitialisedBy, AllStatus, StatusOk, ArrivedPolicies, After, Initialises,
      WeightsGone, PerStep, Regular, Idle, Core, Stuck, Underway;
    w0 := FirstOfTwo(c, remain);
    OpeningFacts(remain, w0);
    var e := PolicyAtom(1, 0, 1, 2);
    Initialised(c, w0, 1, 2);
    w := After(c, w0, e).value;
    KeptLedger(c, w0);
    GoesIsRegular(c, w0, e, w);
    InitialisedSignal(c, w0, e);
  }

  lemma QuietExhausted(c: Config, w: World, v: World)
    requires Exhausted(c, w) && Quiet(w, v) && v.total == w.total
    ensures Exhausted(c, v) && PerStep(c, v) == PerStep(c, w) && v.queue == w.queue && v.step == w.step
  {
    hide Idle, Quiet;
    QuietSame(w, v);
    QuietIdle(c, w, v);
    QuietStays(c, w, v);
  }

  /** One rollout waits where a step takes two. */
  lemma OneWaits(c: Config, w: World, x: Rollout) returns (v: World)
    requires ValidConfig(c) && !c.onPolicy && 0 <= c.allowed && Reached(c, w) && Exhausted(c, w) && w.queue == []
    requires PerStep(c, w) == 2 && x.version == w.step
    ensures Goes(c, w, GroupIn([x]), v) && Reached(c, v) && Exhausted(c, v) && v.queue == [x] && v.rollouts == w.rollouts
    ensures v.step == w.step && PerStep(c, v) == 2
  {
    hide Reached, TryTrigger, AllStatus, StatusOk, FinalPublished, FreshOnes, VersionsKnown, PutGroup;
    v := Buffer(c, w, x).value;
    assert [] + [x] == [x];
    BufferedIdle(c, w, x);
    PerStepSame(c, w, v) by { SameGrown(w, v); }
    hide ArrivedPolicies;
    assert !Triggers(c, v, false);
    NoTrigger(c, v, false);
    OneFresh(c, w, x);
    PutsOne(c, w, x, v, v);
    ReachedNext(c, w, GroupIn([x]));
  }

  lemma NoStepCounted(c: Config, w: World)
    requires !c.byRank && c.maxSteps.None? && w.step == w.total == 0 && |w.queue| == 1 && PerStep(c, w) == 2
    ensures Recompute(c, w, Pending(c, w)).total == 0
  {
    hide ArrivedPolicies;
  }

  lemma EndsUntold(c: Config, w: World) returns (v: World)
    requires ValidConfig(c) && c.maxSteps.None? && Exhausted(c, w) && w.step == 0 && |w.queue| == 1 && PerStep(c, w) == 2
    requires w.rollouts.Keys == {7}
    ensures Goes(c, w, EndIn(7), v) && AllEnded(v) && v.step == v.total == 0 && v.queue == w.queue && AllStatus(v, {Ready})
    ensures LosesSignal(c, w) && !FinalPublished(v) && !StopSafe(c, v) && !ReportsStop(c, v)
  {
    hide Idle, AllStatus, LosesSignal, RolloutEnd, PerStep, Quiet, FinalPublished, IssuesExtra, SomeoneRunning, Recompute, ReportsStop;
    IdleParts(c, w);
    OnlyOneEnded(w, MarkEnded(w, 7));
    ExhaustedLoses(c, w);
    NoExtraLeft(c, w, EndIn(7));
    SharedEnds(c, w, 7);
    v := RolloutEnd(c, w, 7).value;
    EndsWithTotal(c, w, 7);
    NoStepCounted(c, w);
    EndQuietly(c, w, 7);
    QuietStays(c, w, v);
    OnlyOneEnded(w, v);
    IdleDecides(c, w, 7);
  }

  /** Two policy replicas of one sample each, and only one sample left to train on: no step is counted. The sample
      comes back as a rollout and waits; then the rollout replica ends. The handler finds no step left and none
      counted, publishes nothing, and no report leads to the last fetch. */
  lemma TooFewSamples(x: Rollout) returns (c: Config, events: seq<Event>)
    requires x.version == 0
    ensures ValidConfig(c) && !c.byRank
    ensures events == [PolicyAtom(0, 0, 1, 1), PolicyAtom(1, 0, 1, 2), RolloutAtom(7, 0, 1, 2), PromptsOut(1), GroupIn([x]), EndIn(7)]
    ensures RegularRun(c, Opening(2, 1, 0, 1), events) && CanRun(c, Opening(2, 1, 0, 1), events)
    ensures var w := Run(c, Opening(2, 1, 0, 1), events);
            && AllEnded(w) && w.step == w.total == 0 && w.queue == [x] && AllStatus(w, {Ready})
            && !FinalPublished(w) && !StopSafe(c, w) && !ReportsStop(c, w)
  {
    hide Reached, After, Goes, AllStatus, ReportsStop, StopSafe, AllEnded, PerStep, Opening, Quiet, Untrained, Idle, FinalPublished,
      LosesSignal;
    c := Config(1, 0, None, 1, false, false);
    var w0, w1 := TwoShared(c, 1);
    RolloutJoins(c, w1, 7, 2);
    var w2 := After(c, w1, RolloutAtom(7, 0, 1, 2)).value;
    GoesOnce(c, w1, RolloutAtom(7, 0, 1, 2), w2);
    UntrainedQuiet(w1, w2);
    QuietExhausted(c, w1, w2);
    PromptsGo(c, w2, 1);
    var w3 := w2.(inFlight := w2.inFlight + 1);
    SamePoliciesQuiet(w2, w3);
    QuietExhausted(c, w2, w3);
    var w4 := OneWaits(c, w3, x);
    var w5 := EndsUntold(c, w4);
    events := [PolicyAtom(0, 0, 1, 1), PolicyAtom(1, 0, 1, 2), RolloutAtom(7, 0, 1, 2), PromptsOut(1), GroupIn([x]), EndIn(7)];
    RunChain(c, [Opening(2, 1, 0, 1), w0, w1, w2, w3, w4, w5], events);
  }

  // ---------- a departure that ages the queue ----------

  /** Two rollouts start a step of two replicas. */
  lemma TwoStart(c: Config, w: World, x: Rollout, y: Rollout)
    requires ValidConfig(c) && !c.byRank && !c.onPolicy && c.batch == 1 && 0 <= c.allowed && w.queue == [] && AllStatus(w, {Ready, Reduced})
    requires PerStep(c, w) == 2 == |ArrivedPolicies(w)| && w.step < w.total && x.version == y.version == w.step
    requires StatusOk(w)
    ensures PutGroup(c, w, [x, y]).Some?
    ensures var v := PutGroup(c, w, [x, y]).value;
            && v.queue == [] && v.step == w.step + 1 && !AllStatus(v, {Ready, Reduced}) && SamePolicies(w, v) && v.rollouts == w.rollouts
  {
    hide AllStatus, StatusOk, TryTrigger, PutEach, FreshOnes;
    AllFresh(c, w, [x, y]);
    assert w.(remain := w.remain - (|[x, y]| - |[x, y]|)) == w;
    assert [] + [x] == [x] && [x] + [y] == [x, y] && [x, y][1..] == [y] && [y][1..] == [];
    var b := Buffer(c, w, x).value;
    assert ArrivedPolicies(b) == ArrivedPolicies(w);
    var d := Buffer(c, b, y).value;
    assert ArrivedPolicies(d) == ArrivedPolicies(w);
    SameStatuses(w, d);
    SameGrown(w, d);
    hide ArrivedPolicies;
    PutsQuietly(c, w, x, b, [x, y]);
    assert Triggers(c, d, false);
    SharedDispatches(c, d, false);
    var v := TryTrigger(c, d, false).value;
    TriggerCounts(c, d, false);
    TriggerReplicas(c, d, false);
    SamePolicyFacts(w, d);
    TriggeredStatus(c, d, false);
    SamePoliciesTransitive(w, d, v);
    PutsAndStarts(c, b, y, d, v, [y]);
    NothingToPut(c, v);
  }

  /** One of two replicas leaves: the second queued rollout now comes up a step later. */
  lemma OneOfTwoLeaves(c: Config, w: World, x: Rollout, y: Rollout)
    requires ValidConfig(c) && c.batch == 1 && c.allowed == 0 && Reached(c, w) && w.policies.Keys == {0, 1} && |ArrivedPolicies(w)| == 2
    requires w.queue == [x, y] && x.version == y.version == w.step
    ensures Regular(w, PolicyGone(1)) && Ages(c, w, PolicyGone(1))
  {
    hide Ledger, Seated, WeightsOk, RolloutsOk, ArrivedPolicies, RebuildPolicyMesh, Proper;
    KeptLedger(c, w);
    ArrivedKnown(w);
    BothArrived(w);
    StatusOfArrived(c, w, 1);
    var v := UnregisterPolicy(c, w, 1).value;
    ReachedNext(c, w, PolicyGone(1)) by { NotAnEnd(c, w, PolicyGone(1)); }
    KeptLedger(c, v);
    ArrivedPoliciesDistinct(v);
    ArrivedKnown(v);
    LeftKeys(c, w, 1);
    AtMostOne(ArrivedPolicies(v), 0);
    assert Pace(c, v) == 1;
    assert w.step + 1 / 1 - w.queue[1].version > c.allowed;
  }

  lemma BothArrived(w: World)
    requires w.policies.Keys == {0, 1} && |ArrivedPolicies(w)| == 2 && Distinct(w.policyOrder)
    ensures Arrived(w.policies[1])
  {
    ArrivedPoliciesDistinct(w);
    ArrivedKnown(w);
    assert ArrivedPolicies(w)[0] in ArrivedPolicies(w) && ArrivedPolicies(w)[1] in ArrivedPolicies(w);
    assert 1 in ArrivedPolicies(w);
  }

  lemma StatusOfArrived(c: Config, w: World, id: nat)
    requires Ledger(c, w) && id in w.policies && Arrived(w.policies[id])
    ensures w.policies[id].status.Some?
  {
    hide BooksOk, Entry;
    assert Proper(w.policies[id]);
  }

  lemma LeftKeys(c: Config, w: World, id: nat)
    requires UnregisterPolicy(c, w, id).Some?
    ensures UnregisterPolicy(c, w, id).value.policies.Keys == w.policies.Keys - {id}
  {
    hide RebuildPolicyMesh, ArrivedPolicies;
    RebuildFields(c, w.(policies := w.policies - {id}, policyOrder := Without(w.policyOrder, id)));
  }

  lemma AtMostOne(ids: seq<nat>, id: nat)
    requires Distinct(ids) && forall i :: i in ids ==> i == id
    ensures |ids| <= 1
  {
    SizeOfDistinct(ids);
    SubsetSize(AsSet(ids), {id});
  }

  /** Two policy replicas train on two rollouts, two more of the current version are queued, and none may be a
      step behind; then one replica leaves. The second queued rollout's place is now two steps away: it would be
      trained on a step too late. */
  lemma AgedByDeparture(a: Rollout, b: Rollout, x: Rollout, y: Rollout) returns (c: Config, events: seq<Event>)
    requires a.version == b.version == 0 && x.version == y.version == 1
    ensures ValidConfig(c) && !c.byRank
    ensures events == [PolicyAtom(0, 0, 1, 1), PolicyAtom(1, 0, 1, 2), RolloutAtom(7, 0, 1, 2), PromptsOut(4), GroupIn([a, b]), GroupIn([x, y])]
    ensures RegularRun(c, Opening(2, 1, 0, 10), events) && CanRun(c, Opening(2, 1, 0, 10), events)
    ensures Ages(c, Run(c, Opening(2, 1, 0, 10), events), PolicyGone(1))
  {
    hide Reached, After, Goes, AllStatus, StatusOk, Opening, Ages, Underway, Exhausted;
    c := Config(1, 0, None, 1, false, false);
    var w0, w1 := TwoShared(c, 10);
    var w2, w3, w4, w5 := QueuedWhileTraining(c, w1, a, b, x, y);
    OneOfTwoLeaves(c, w5, x, y);
    events := [PolicyAtom(0, 0, 1, 1), PolicyAtom(1, 0, 1, 2), RolloutAtom(7, 0, 1, 2), PromptsOut(4), GroupIn([a, b]), GroupIn([x, y])];
    RunChain(c, [Opening(2, 1, 0, 10), w0, w1, w2, w3, w4, w5], events);
  }

  /** A rollout replica joins two ready policy replicas; one group starts a step and another waits. */
  lemma QueuedWhileTraining(c: Config, w: World, a: Rollout, b: Rollout, x: Rollout, y: Rollout)
      returns (w1: World, w2: World, w3: World, w4: World)
    requires ValidConfig(c) && !c.byRank && !c.onPolicy && c.batch == 1 && 0 <= c.allowed && Reached(c, w) && w.rollouts == map[]
    requires w.queue == [] && AllStatus(w, {Ready, Reduced}) && StatusOk(w) && |ArrivedPolicies(w)| == 2 && w.step + 1 < w.total
    requires a.version == b.version == w.step && x.version == y.version == w.step + 1
    ensures Goes(c, w, RolloutAtom(7, 0, 1, 2), w1) && Goes(c, w1, PromptsOut(4), w2) && Goes(c, w2, GroupIn([a, b]), w3)
    ensures Goes(c, w3, GroupIn([x, y]), w4) && Reached(c, w4) && SamePolicies(w, w4) && |ArrivedPolicies(w4)| == 2
    ensures w4.queue == [x, y] && w4.step == w.step + 1
  {
    hide Reached, Untrained, RegisterRollout, PutGroup, ArrivedPolicies, AllStatus, StatusOk, SameReplica;
    RolloutJoins(c, w, 7, 2);
    w1 := After(c, w, RolloutAtom(7, 0, 1, 2)).value;
    GoesOnce(c, w, RolloutAtom(7, 0, 1, 2), w1);
    UntrainedStatus(w, w1);
    SamePoliciesArrived(w, w1);
    PromptsGo(c, w1, 4);
    w2 := w1.(inFlight := w1.inFlight + 4);
    SamePolicyFacts(w1, w2);
    TwoStart(c, w2, a, b);
    w3 := PutGroup(c, w2, [a, b]).value;
    ReachedNext(c, w2, GroupIn([a, b]));
    SamePoliciesArrived(w2, w3);
    TwoWait(c, w3, x, y);
    w4 := PutGroup(c, w3, [x, y]).value;
    ReachedNext(c, w3, GroupIn([x, y]));
    SamePoliciesTransitive(w, w2, w3);
    SamePolicyFacts(w3, w4);
  }

  // ---------- enough for all ranks together, but not for each ----------

  /** Dispatching by rank, two policy replicas are initialised and their queues are empty. */
  predicate TwoRanks(c: Config, w: World) {
    && c.byRank && c.batch == 1 && !c.onPolicy && c.maxSteps.None? && |ArrivedPolicies(w)| == 2 && StatusOk(w) && AllStatus(w, {Ready})
    && 0 <= w.step
  }

  lemma UntrainedRanks(c: Config, w: World, v: World)
    requires TwoRanks(c, w) && (Untrained(w, v) || v == w.(inFlight := v.inFlight))
    ensures TwoRanks(c, v) && v.step == w.step && v.total == w.total && v.rankQueues == w.rankQueues && PerStep(c, v) == PerStep(c, w)
    ensures Untrained(w, v) ==> v.inFlight == w.inFlight
  {
    hide Untrained, AllStatus, OnlyMore, PerStep, StatusOk;
    if Untrained(w, v) {
      UntrainedIsMore(w, v);
      UntrainedCounts(w, v);
    } else {
      InFlightMore(w, v);
    }
    MoreKeepsStatus(w, v);
    PerStepSame(c, w, v);
    SamePoliciesArrived(w, v);
  }

  /** The second of two policy replicas arrives. */
  lemma TwoReady(c: Config) returns (w0: World, w: World)
    requires ValidConfig(c) && c.byRank && c.batch == 1 && !c.onPolicy && c.maxSteps.None?
    ensures Goes(c, Opening(2, 1, 0, 10), PolicyAtom(0, 0, 1, 1), w0) && Goes(c, w0, PolicyAtom(1, 0, 1, 2), w)
    ensures Reached(c, w) && TwoRanks(c, w) && w.step == 0 && w.total == 5 && w.inFlight == 0 && w.rollouts == map[] && PerStep(c, w) == 2
    ensures w.rankQueues == [[], []]
  {
    hide Kept, RolloutsOk, Goes, InitialisedBy, AllStatus, StatusOk, ArrivedPolicies, After, Initialises,
      WeightsGone, PerStep, Regular;
    var o := Opening(2, 1, 0, 10);
    ReachedOpening(c, 2, 1, 0, 10);
    w0 := FirstOfTwo(c, 10);
    Initialised(c, w0, 1, 2);
    w := After(c, w0, PolicyAtom(1, 0, 1, 2)).value;
    assert Rearranged([], 2) == [[], []];
  }

  /** Buffering by rank: the rollout goes to the queue of its prompt. */
  lemma Buffers(c: Config, w: World, x: Rollout, i: nat)
    requires c.byRank && |w.rankQueues| == 2 && x.prompt % 2 == i
    ensures Buffer(c, w, x) == Some(w.(rankQueues := w.rankQueues[i := w.rankQueues[i] + [x]], log := w.log.(buffered := w.log.buffered + [x])))
  {
  }

  /** Putting a rollout that starts no step. */
  lemma PutsQuietly(c: Config, w: World, x: Rollout, b: World, xs: seq<Rollout>)
    requires !c.onPolicy && xs != [] && xs[0] == x && Buffer(c, w, x) == Some(b) && !Triggers(c, b, false)
    ensures PutEach(c, w, xs) == PutEach(c, b, xs[1..])
  {
    hide Buffer, Triggers;
    NoTrigger(c, b, false);
  }

  /** Putting a rollout that starts a step. */
  lemma PutsAndStarts(c: Config, w: World, x: Rollout, b: World, v: World, xs: seq<Rollout>)
    requires !c.onPolicy && xs != [] && xs[0] == x && Buffer(c, w, x) == Some(b) && TryTrigger(c, b, false) == Some(v)
    ensures PutEach(c, w, xs) == PutEach(c, v, xs[1..])
  {
    hide Buffer, TryTrigger;
  }

  /** The two ranks each have one rollout: the step starts and uses them up. */
  lemma BothStart(c: Config, b: World) returns (v: World)
    requires ValidConfig(c) && TwoRanks(c, b) && b.step < b.total && |b.rankQueues| == 2 && |b.rankQueues[0]| == |b.rankQueues[1]| == 1
    ensures TryTrigger(c, b, false) == Some(v) && v.step == b.step + 1 && v.total == b.total && v.inFlight == b.inFlight
    ensures v.rankQueues == [[], []] && StatusOk(v) && !AllStatus(v, {Ready, Reduced}) && |ArrivedPolicies(v)| == 2
    ensures v.rollouts == b.rollouts
  {
    hide TryTrigger, ArrivedPolicies, StatusOk;
    ReadyOrReduced(b);
    assert Triggers(c, b, false);
    RankStarts(c, b);
    v := TryTrigger(c, b, false).value;
    TriggerReplicas(c, b, false);
    TriggeredStatus(c, b, false);
    SamePoliciesArrived(b, v);
    TriggerRollouts(c, b, false);
  }

  lemma ReadyOrReduced(w: World)
    requires AllStatus(w, {Ready})
    ensures AllStatus(w, {Ready, Reduced})
  {
  }

  lemma RankStarts(c: Config, b: World)
    requires c.byRank && c.batch == 1 && Triggers(c, b, false) && |ArrivedPolicies(b)| == 2 && |b.rankQueues| == 2
    requires |b.rankQueues[0]| == |b.rankQueues[1]| == 1
    ensures TryTrigger(c, b, false).Some?
    ensures var v := TryTrigger(c, b, false).value;
            v.step == b.step + 1 && v.total == b.total && v.inFlight == b.inFlight && v.rankQueues == [[], []]
  {
    hide Triggers, ArrivedPolicies, DispatchByRank, Fetch, FetchOf;
    RankQueuesShrink(b, 1);
    var d := DispatchByRank(b, 1);
    assert |d.rankQueues[0]| == 0 && |d.rankQueues[1]| == 0;
  }

  lemma {:induction false} AllFresh(c: Config, w: World, xs: seq<Rollout>)
    requires ValidConfig(c) && forall i :: 0 <= i < |xs| ==> Fresh(c, w, i, xs[i])
    ensures FreshOnes(c, w, xs) == xs
  {
    hide Fresh;
    if xs != [] {
      AllFresh(c, w, xs[..|xs| - 1]);
      assert Fresh(c, w, |xs| - 1, xs[|xs| - 1]);
    }
  }

  lemma NothingQueued()
    ensures QueuedIn([[], []]) == 0
  {
    var qs: seq<seq<Rollout>> := [[], []];
    assert qs[..1] == [[]] && qs[..1][..0] == [];
    assert QueuedIn(qs[..1]) == 0;
  }

  lemma TwoQueued(x: Rollout, y: Rollout)
    ensures QueuedIn([[x, y], []]) == 2
  {
    var qs: seq<seq<Rollout>> := [[x, y], []];
    assert qs[..1] == [[x, y]] && qs[..1][..0] == [];
    assert QueuedIn(qs[..1]) == 2;
  }

  /** Four rollouts of the current version, three of them for rank 0. */
  predicate ThreeForRankZero(xs: seq<Rollout>, version: int) {
    && |xs| == 4 && (forall i :: 0 <= i < 4 ==> xs[i].version == version)
    && xs[0].prompt % 2 == 0 && xs[1].prompt % 2 == 1 && xs[2].prompt % 2 == 0 && xs[3].prompt % 2 == 0
  }

  lemma FourFresh(c: Config, w: World, xs: seq<Rollout>)
    requires ValidConfig(c) && TwoRanks(c, w) && w.rankQueues == [[], []] && 2 <= c.allowed && ThreeForRankZero(xs, w.step)
    ensures VersionsKnown(w, xs) && FreshOnes(c, w, xs) == xs
  {
    NothingQueued();
    hide ArrivedPolicies, StatusOk, AllStatus;
    forall i | 0 <= i < 4
      ensures Fresh(c, w, i, xs[i])
    {
    }
    AllFresh(c, w, xs);
  }

  /** The first rollout of each rank starts a step, the other two wait for rank 0. */
  lemma FourPut(c: Config, w: World, xs: seq<Rollout>) returns (v: World)
    requires ValidConfig(c) && TwoRanks(c, w) && w.rankQueues == [[], []] && ThreeForRankZero(xs, w.step) && w.step < w.total
    ensures PutEach(c, w, xs) == Some(v) && v.step == w.step + 1 && v.total == w.total && v.inFlight == w.inFlight
    ensures v.rankQueues == [[xs[2], xs[3]], []] && StatusOk(v) && !AllStatus(v, {Ready, Reduced}) && |ArrivedPolicies(v)| == 2
    ensures v.rollouts == w.rollouts
  {
    hide StatusOk, ArrivedPolicies, Buffer, TryTrigger, PutEach;
    Buffers(c, w, xs[0], 0);
    var b1 := Buffer(c, w, xs[0]).value;
    RankIdle(c, b1);
    PutsQuietly(c, w, xs[0], b1, xs);
    Buffers(c, b1, xs[1], 1);
    var b2 := Buffer(c, b1, xs[1]).value;
    SameRanks(c, w, b2);
    var s := BothStart(c, b2);
    PutsAndStarts(c, b1, xs[1], b2, s, xs[1..]);
    FourRest(c, s, xs, w.step);
    v := PutEach(c, s, xs[2..]).value;
    assert xs[1..][1..] == xs[2..];
  }

  lemma SameRanks(c: Config, w: World, v: World)
    requires TwoRanks(c, w) && v.policies == w.policies && v.policyOrder == w.policyOrder && v.step == w.step
    ensures TwoRanks(c, v)
  {
  }

  lemma RankIdle(c: Config, b: World)
    requires c.byRank && c.batch == 1 && |b.rankQueues| == 2 && |b.rankQueues[1]| == 0
    ensures !Triggers(c, b, false)
  {
    hide ArrivedPolicies, AllStatus, Finished;
    assert !(|b.rankQueues[1]| >= c.batch);
  }

  lemma Untriggered(c: Config, b: World)
    requires !AllStatus(b, {Ready, Reduced})
    ensures !Triggers(c, b, false)
  {
  }

  /** While the step runs the other two rollouts are only buffered. */
  lemma FourRest(c: Config, s: World, xs: seq<Rollout>, version: int)
    requires c.byRank && !c.onPolicy && s.rankQueues == [[], []] && !AllStatus(s, {Ready, Reduced}) && StatusOk(s) && |ArrivedPolicies(s)| == 2
    requires ThreeForRankZero(xs, version)
    ensures PutEach(c, s, xs[2..]).Some?
    ensures var v := PutEach(c, s, xs[2..]).value;
            && v.step == s.step && v.total == s.total && v.inFlight == s.inFlight && v.rankQueues == [[xs[2], xs[3]], []]
            && StatusOk(v) && !AllStatus(v, {Ready, Reduced}) && |ArrivedPolicies(v)| == 2 && v.rollouts == s.rollouts
  {
    hide StatusOk, Buffer, TryTrigger, PutEach, ArrivedPolicies;
    Buffers(c, s, xs[2], 0);
    var b3 := Buffer(c, s, xs[2]).value;
    SamePolicyFacts(s, b3);
    Untriggered(c, b3);
    PutsQuietly(c, s, xs[2], b3, xs[2..]);
    Buffers(c, b3, xs[3], 0);
    var b4 := Buffer(c, b3, xs[3]).value;
    assert s.rankQueues[0] + [xs[2]] == [xs[2]];
    assert b3.rankQueues == [[xs[2]], []] && b4.rankQueues == [[xs[2]] + [xs[3]], []];
    SamePolicyFacts(s, b4);
    Untriggered(c, b4);
    PutsQuietly(c, b3, xs[3], b4, xs[2..][1..]);
    assert xs[2..][1..][1..] == [];
    NothingToPut(c, b4);
    assert [xs[2]] + [xs[3]] == [xs[2], xs[3]];
  }

  lemma NothingToPut(c: Config, w: World)
    ensures PutEach(c, w, []) == Some(w)
  {
  }

  lemma SamePolicyFacts(s: World, b: World)
    requires b.policies == s.policies && b.policyOrder == s.policyOrder
    ensures (StatusOk(s) <==> StatusOk(b)) && (AllStatus(s, {Ready, Reduced}) <==> AllStatus(b, {Ready, Reduced}))
    ensures ArrivedPolicies(b) == ArrivedPolicies(s)
  {
  }

  /** The end of the only rollout replica: as many rollouts are pending as one step takes, so one step is left. */
  lemma EndsWithOneLeft(c: Config, v: World, x: Rollout, y: Rollout) returns (w: World)
    requires ValidConfig(c) && c.byRank && c.batch == 1 && c.maxSteps.None? && |ArrivedPolicies(v)| == 2 && v.rollouts.Keys == {7}
    requires v.rankQueues == [[x, y], []] && 0 <= v.step < v.total && StatusOk(v) && !AllStatus(v, {Ready, Reduced}) && v.inFlight >= 4
    ensures Goes(c, v, EndIn(7), w) && w == MarkEnded(v, 7).(total := v.step + 1) && AllEnded(w)
    ensures RankSteady(c, w) && Covered(c, w) && Pending(c, w) == 2 == (w.total - w.step) * PerStep(c, w) && !ReportsSuffice(c, w)
  {
    var m := MarkEnded(v, 7);
    w := m.(total := v.step + 1);
    SamePolicyFacts(v, m);
    SamePolicyFacts(v, w);
    OnlyOneEnded(v, w);
    TwoQueued(x, y);
    hide StatusOk, AllStatus, AllEnded, ReportsSuffice, QueuedIn, ConcludesWithExtra, Conclude, RankSteady, RankSupply;
    OneLeft(c, m);
    OneLeftSteady(c, w);
    RankStopIff(c, w);
  }

  lemma OneLeftSteady(c: Config, w: World)
    requires c.byRank && c.batch == 1 && |ArrivedPolicies(w)| == 2 == |w.rankQueues| && w.rankQueues[1] == []
    requires 0 <= w.step && w.total == w.step + 1 && StatusOk(w) && !AllStatus(w, {Ready, Reduced})
    ensures RankSteady(c, w) && !RankSupply(c, w) && PerStep(c, w) == 2
  {
    hide ArrivedPolicies, StatusOk, AllStatus;
    assert |w.rankQueues[1]| == 0;
  }

  lemma OnlyOneEnded(v: World, w: World)
    requires v.rollouts.Keys == {7} && w.rollouts == MarkEnded(v, 7).rollouts
    ensures AllEnded(MarkEnded(v, 7)) && AllEnded(w)
  {
  }

  /** Two pending rollouts are the last step's. */
  lemma OneLeft(c: Config, m: World)
    requires c.byRank && c.batch == 1 && c.maxSteps.None? && |ArrivedPolicies(m)| == 2 && QueuedIn(m.rankQueues) == 2
    requires 0 <= m.step < m.total
    ensures !ConcludesWithExtra(c, m) && Conclude(c, m) == Some(m.(total := m.step + 1))
  {
    hide ArrivedPolicies, QueuedIn, TryTrigger;
    assert Recompute(c, m, 2).total == m.step + 1;
  }

  /** Two ranks and one rollout replica. A group of four rollouts starts a step and leaves two, both for rank 0;
      then the rollout replica ends. The handler finds two rollouts pending, one step's worth, and leaves one
      step to go; but rank 1 has none, and no number of reports leads to the last step. */
  lemma SumIsNotEnough(xs: seq<Rollout>) returns (c: Config, events: seq<Event>)
    requires ThreeForRankZero(xs, 0)
    ensures ValidConfig(c) && c.byRank
    ensures RegularRun(c, Opening(2, 1, 0, 10), events) && CanRun(c, Opening(2, 1, 0, 10), events)
    ensures var w := Run(c, Opening(2, 1, 0, 10), events);
            && events != [] && events[|events| - 1] == EndIn(7) && w.rollouts.Keys == {7} && AllEnded(w)
            && RankSteady(c, w) && Covered(c, w) && Pending(c, w) >= (w.total - w.step) * PerStep(c, w) && w.step < w.total
            && !ReportsSuffice(c, w)
  {
    hide Kept, RolloutsOk, After, Goes, TwoRanks, Untrained, ReportsSuffice, RankSteady, Covered, Regular, ArrivedPolicies, PerStep, StatusOk,
      AllStatus, AllEnded, Pending, Opening;
    c := Config(1, 2, None, 1, true, false);
    var w0, w1 := TwoReady(c);
    var rest, w := RankSteps(c, w1, xs);
    RunGoes(c, w0, PolicyAtom(1, 0, 1, 2), w1, rest);
    RunGoes(c, Opening(2, 1, 0, 10), PolicyAtom(0, 0, 1, 1), w0, [PolicyAtom(1, 0, 1, 2)] + rest);
    events := [PolicyAtom(0, 0, 1, 1)] + ([PolicyAtom(1, 0, 1, 2)] + rest);
  }

  lemma RankSteps(c: Config, w1: World, xs: seq<Rollout>) returns (events: seq<Event>, w: World)
    requires ValidConfig(c) && 2 <= c.allowed && Reached(c, w1) && TwoRanks(c, w1) && w1.rankQueues == [[], []] && w1.rollouts == map[]
    requires w1.step == 0 && w1.total == 5 && w1.inFlight == 0 && ThreeForRankZero(xs, 0)
    ensures RegularRun(c, w1, events) && CanRun(c, w1, events) && NeverTooEarly(c, w1, events) && w == Run(c, w1, events)
    ensures events != [] && events[|events| - 1] == EndIn(7) && w.rollouts.Keys == {7} && AllEnded(w)
    ensures RankSteady(c, w) && Covered(c, w) && Pending(c, w) == (w.total - w.step) * PerStep(c, w) && w.step < w.total
    ensures !ReportsSuffice(c, w)
  {
    hide Reached, Goes, TwoRanks, Untrained, ReportsSuffice, RankSteady, Covered, ArrivedPolicies, PerStep, StatusOk, AllStatus, AllEnded,
      Pending, RegisterRollout, RolloutEnd, PutGroup;
    var e1, e2, e3, e4 := RolloutAtom(7, 0, 1, 2), PromptsOut(4), GroupIn(xs), EndIn(7);
    RolloutJoins(c, w1, 7, 2);
    var w2 := After(c, w1, e1).value;
    GoesOnce(c, w1, RolloutAtom(7, 0, 1, 2), w2);
    UntrainedRanks(c, w1, w2);
    PromptsGo(c, w2, 4);
    var w3 := w2.(inFlight := w2.inFlight + 4);
    UntrainedRanks(c, w2, w3);
    var w4 := GroupGoes(c, w3, xs);
    w := EndsWithOneLeft(c, w4, xs[2], xs[3]) by { RanksFacts(c, w3); }
    events := [e1, e2, e3, e4];
    RunChain(c, [w1, w2, w3, w4, w], events);
  }

  lemma RanksFacts(c: Config, w: World)
    requires TwoRanks(c, w)
    ensures c.byRank && c.batch == 1 && c.maxSteps.None? && !c.onPolicy && 0 <= w.step
  {
  }

  lemma GroupGoes(c: Config, w: World, xs: seq<Rollout>) returns (v: World)
    requires ValidConfig(c) && 2 <= c.allowed && TwoRanks(c, w) && w.rankQueues == [[], []] && w.step < w.total && ThreeForRankZero(xs, w.step)
    requires Reached(c, w)
    ensures Goes(c, w, GroupIn(xs), v) && Reached(c, v)
    ensures v.step == w.step + 1 && v.total == w.total && v.inFlight == w.inFlight && v.rankQueues == [[xs[2], xs[3]], []]
    ensures StatusOk(v) && !AllStatus(v, {Ready, Reduced}) && |ArrivedPolicies(v)| == 2 && v.rollouts == w.rollouts
  {
    hide Reached, StatusOk, AllStatus, ArrivedPolicies, PutEach, FreshOnes, VersionsKnown;
    FourFresh(c, w, xs);
    v := FourPut(c, w, xs);
    assert w.(remain := w.remain - (|xs| - |xs|)) == w;
    assert PutGroup(c, w, xs) == Some(v);
    ReachedNext(c, w, GroupIn(xs));
  }
}
