/** Which replicas are regarded as loaded, over every run, and exactly when registration raises for want of
    weights. */
module ControllerLoads {
  import opened Arithmetic
  import opened Common
  import opened ControllerModel
  import opened ControllerFlow
  import opened ControllerQueues
  import opened ControllerLedger
  import opened ControllerMesh

  predicate LoadedIds(g: Group, ids: seq<nat>) {
    forall id :: id in ids && id in g ==> g[id].loaded
  }

  predicate SomeLoaded(g: Group, ids: seq<nat>) {
    exists id :: id in ids && id in g && g[id].loaded
  }

  predicate LoadedArrived(w: World) {
    forall id :: id in w.policies && w.policies[id].loaded ==> Arrived(w.policies[id])
  }

  /** After initialisation all arrived policy replicas are loaded; weights are resumed once one has arrived;
      and only arrived ones are loaded. */
  predicate FlagsOk(w: World) {
    && (w.policyReady ==> LoadedIds(w.policies, ArrivedPolicies(w)))
    && (w.policyReady || ArrivedPolicies(w) != [] ==> w.resumed) && LoadedArrived(w)
  }

  // ---------- changes that keep it ----------

  /** The same replicas, arrived and loaded as before, with the same statuses. */
  predicate SameLoads(w: World, v: World) {
    && v.policyOrder == w.policyOrder && v.policies.Keys == w.policies.Keys && v.rollouts == w.rollouts
    && forall id :: id in w.policies ==> SameStanding(w.policies[id], v.policies[id])
  }

  predicate SameStanding(r: Replica, t: Replica) {
    (Arrived(t) <==> Arrived(r)) && t.loaded == r.loaded && t.status == r.status
  }

  lemma SameLoadsArrived(w: World, v: World)
    requires SameLoads(w, v)
    ensures ArrivedPolicies(v) == ArrivedPolicies(w)
  {
    assert forall id :: id in w.policies ==> SameStanding(w.policies[id], v.policies[id]);
    ArrivedSame(w.policies, v.policies, w.policyOrder);
  }

  lemma ToldLoads(w: World, src: nat, cmd: Command)
    ensures var v := w.(policies := Tell(w.policies, {src}, cmd));
            SameLoads(w, v) && ArrivedPolicies(v) == ArrivedPolicies(w)
  {
    ArrivedSame(w.policies, Tell(w.policies, {src}, cmd), w.policyOrder);
  }

  lemma ArrivedPoliciesDistinct(w: World)
    requires Distinct(w.policyOrder)
    ensures Distinct(ArrivedPolicies(w))
  {
    ArrivedDistinct(w.policies, w.policyOrder);
  }

  lemma OnlyOne(ids: seq<nat>, id: nat)
    requires |ids| <= 1 && id in ids
    ensures ids == [id]
  {
  }

  lemma SomeOther(ids: seq<nat>, id: nat)
    requires id in ids && |ids| != 1 && Distinct(ids)
    ensures ids != [id] && exists i :: i in ids && i != id
  {
    assert ids[0] in ids && ids[1] in ids;
  }

  /** The same policy replicas, further on. */
  lemma GrownFlags(w: World, v: World)
    requires Grown(w, v) && FlagsOk(w)
    ensures FlagsOk(v)
  {
    SamePoliciesArrived(w, v);
    assert forall id :: id in w.policies ==> SameReplica(w.policies[id], v.policies[id]);
    hide ArrivedPolicies;
  }

  lemma SameLoadsFlags(w: World, v: World)
    requires SameLoads(w, v) && v.policyReady == w.policyReady && v.resumed == w.resumed && FlagsOk(w)
    ensures FlagsOk(v)
  {
    SameLoadsArrived(w, v);
    assert forall id :: id in w.policies ==> SameStanding(w.policies[id], v.policies[id]);
    hide ArrivedPolicies;
  }

  lemma RebuiltFlags(c: Config, w: World)
    ensures var v := RebuildPolicyMesh(c, w);
            SameLoads(w, v) && v.policyReady == w.policyReady && v.resumed == w.resumed
  {
    hide RebuildPolicyMesh;
    RebuildFields(c, w);
    RebuiltLoadsSame(c, w);
  }

  /** Some replicas are loaded and made ready: all that have arrived are loaded afterwards. */
  lemma LoadedFlags(w: World, v: World, ids: set<nat>, cmd: Command)
    requires LoadedArrived(w) && v == w.(policies := SetStatus(Load(w.policies, ids, cmd), ids, Ready))
    requires forall id :: id in ArrivedPolicies(w) ==> id in ids || w.policies[id].loaded
    requires forall id :: id in ids && id in w.policies ==> Arrived(w.policies[id])
    ensures LoadedArrived(v) && LoadedIds(v.policies, ArrivedPolicies(v))
  {
    ArrivedSame(w.policies, v.policies, w.policyOrder);
  }

  /** The only arrived replica, loaded already, becomes ready. */
  lemma AloneFlags(w: World, v: World, id: nat, ids: set<nat>)
    requires LoadedArrived(w) && ArrivedPolicies(w) == [id] && id in w.policies && w.policies[id].loaded
    requires v == w.(policies := SetStatus(w.policies, ids, Ready))
    ensures LoadedArrived(v) && LoadedIds(v.policies, ArrivedPolicies(v))
  {
    ArrivedSame(w.policies, v.policies, w.policyOrder);
  }

  // ---------- a policy replica arrives ----------

  /** Initialisation loads all that have arrived. */
  lemma InitFlags(c: Config, w: World, id: nat)
    requires LoadedArrived(w) && id in w.policies && !w.policyReady && |SortByStart(w.policies, ArrivedPolicies(w))| >= w.policyInit
    requires w.resumed && (ArrivedPolicies(w) == [id] ==> w.policies[id].loaded)
    requires id in ArrivedPolicies(w) && AfterPolicyArrives(c, w, id).Some?
    ensures FlagsOk(AfterPolicyArrives(c, w, id).value)
  {
    hide LoadedArrived, RebuildPolicyMesh, ArrivedPolicies, LoadedIds, SetStatus, Load;
    var ids := SortByStart(w.policies, ArrivedPolicies(w));
    var r := w.(policyReady := true);
    SameArrivedPolicies(w, r);
    var m := RebuildPolicyMesh(c, r);
    RebuiltFlags(c, r);
    SameLoadsArrived(r, m);
    MovedLoads(r, m) by { ReadyLoads(w); }
    ArrivedMembers(w);
    assert forall i :: i in w.policies ==> SameStanding(r.policies[i], m.policies[i]);
    var v := AfterPolicyArrives(c, w, id).value;
    if |ids| > 1 {
      LoadedFlags(m, v, AsSet(ids), PolicyBroadcast(FirstLoaded(m.policies, ids).value, AsSet(ids), m.total));
    } else {
      OnlyOne(ArrivedPolicies(w), id);
      AloneFlags(m, v, id, AsSet(ids));
    }
  }

  lemma ReadyLoads(w: World)
    requires LoadedArrived(w)
    ensures LoadedArrived(w.(policyReady := true))
  {
  }

  lemma MovedLoads(w: World, v: World)
    requires SameLoads(w, v) && LoadedArrived(w)
    ensures LoadedArrived(v)
  {
    assert forall id :: id in w.policies ==> SameStanding(w.policies[id], v.policies[id]);
  }

  /** The unicast of a join: its source is loaded and is not the newcomer. */
  lemma JoinShape(c: Config, w: World, id: nat) returns (src: nat)
    requires id in w.policies && w.policyReady && !w.policies[id].loaded && AfterPolicyArrives(c, w, id).Some?
    ensures src != id && src in w.policies && w.policies[src].loaded
    ensures var m := RebuildPolicyMesh(c, w);
            var cmd := PolicyUnicast(src, id, m.total);
            var t := m.(policies := Tell(m.policies, {src}, cmd));
            AfterPolicyArrives(c, w, id).value == t.(policies := SetStatus(Load(t.policies, {id}, cmd), {id}, Ready))
  {
    hide RebuildPolicyMesh, ArrivedPolicies, Tell, Load, SetStatus;
    src := FirstLoaded(w.policies, SortByStart(w.policies, ArrivedPolicies(w))).value;
  }

  /** A join loads the newcomer. */
  lemma JoinFlags(c: Config, w: World, id: nat)
    requires LoadedArrived(w) && id in w.policies && w.policyReady && !w.policies[id].loaded && AfterPolicyArrives(c, w, id).Some?
    requires w.resumed && Arrived(w.policies[id])
    requires forall i :: i in ArrivedPolicies(w) && i in w.policies && i != id ==> w.policies[i].loaded
    ensures FlagsOk(AfterPolicyArrives(c, w, id).value)
  {
    hide RebuildPolicyMesh, ArrivedPolicies, AfterPolicyArrives, LoadedIds, LoadedArrived, SetStatus, Load, Tell;
    var src := JoinShape(c, w, id);
    var m := RebuildPolicyMesh(c, w);
    RebuiltFlags(c, w);
    SameLoadsArrived(w, m);
    MovedLoads(w, m);
    var cmd := PolicyUnicast(src, id, m.total);
    var t := m.(policies := Tell(m.policies, {src}, cmd));
    ToldLoads(m, src, cmd);
    MovedLoads(m, t);
    assert forall i :: i in w.policies ==> SameStanding(w.policies[i], m.policies[i]) && SameStanding(m.policies[i], t.policies[i]);
    ArrivedKnown(w);
    LoadedFlags(t, AfterPolicyArrives(c, w, id).value, {id}, cmd);
  }

  lemma AfterPolicyFlags(c: Config, w: World, id: nat)
    requires LoadedArrived(w) && id in w.policies && id in ArrivedPolicies(w) && w.resumed
    requires if w.policyReady then !w.policies[id].loaded && forall i :: i in ArrivedPolicies(w) && i in w.policies && i != id ==> w.policies[i].loaded
             else ArrivedPolicies(w) == [id] ==> w.policies[id].loaded
    requires AfterPolicyArrives(c, w, id).Some?
    ensures FlagsOk(AfterPolicyArrives(c, w, id).value)
  {
    hide RebuildPolicyMesh;
    if w.policyReady {
      JoinFlags(c, w, id);
    } else if |SortByStart(w.policies, ArrivedPolicies(w))| >= w.policyInit {
      InitFlags(c, w, id);
    }
  }

  /** The first policy replica resumes the weights, and nobody else's flag changes. */
  lemma FirstPolicyLoads(w: World, id: nat)
    requires id in w.policies && ArrivedPolicies(w) == [id] && LoadedArrived(w)
    ensures var v := FirstPolicyArrives(w, id);
            && id in v.policies && v.policies[id].loaded && v.resumed && v.policyReady == w.policyReady
            && ArrivedPolicies(v) == [id] && LoadedArrived(v)
  {
    FirstLoads(w, id);
    var v := FirstPolicyArrives(w, id);
    assert id in ArrivedPolicies(w);
    hide FirstPolicyArrives;
    ArrivedSame(w.policies, v.policies, w.policyOrder);
  }

  lemma FirstLoads(w: World, id: nat)
    ensures var v := FirstPolicyArrives(w, id);
            && v.policies.Keys == w.policies.Keys && v.policyOrder == w.policyOrder && v.policyReady == w.policyReady && v.resumed
            && forall i :: i in w.policies ==>
                 (Arrived(v.policies[i]) <==> Arrived(w.policies[i])) && v.policies[i].loaded == (w.policies[i].loaded || i == id)
  {
    hide ArrivedRollouts, SortByStart, SendPolicyToRollout, BroadcastToRollouts;
    var r := w.(resumed := true, policies := Load(w.policies, {id}, WeightResume));
    var ids := SortByStart(r.rollouts, ArrivedRollouts(r));
    RolloutsKnown(r);
    if ids != [] {
      SendLeaves(r, id, ids[0]);
      var s := SendPolicyToRollout(r, id, ids[0], None, None);
      BroadcastLeaves(s, ids[0], AsSet(ids), Some(s.step));
    }
  }

  lemma SendLeaves(w: World, src: nat, dst: nat)
    requires dst in w.rollouts
    ensures var v := SendPolicyToRollout(w, src, dst, None, None);
            && v.policies.Keys == w.policies.Keys && v.policyOrder == w.policyOrder && v.policyReady == w.policyReady
            && v.resumed == w.resumed && v.rollouts.Keys == w.rollouts.Keys
            && forall i :: i in w.policies ==>
                 (Arrived(v.policies[i]) <==> Arrived(w.policies[i])) && v.policies[i].loaded == w.policies[i].loaded
  {
  }

  lemma BroadcastLeaves(w: World, src: nat, dsts: set<nat>, weightStep: Option<int>)
    requires src in w.rollouts
    ensures var v := BroadcastToRollouts(w, src, dsts, weightStep, None);
            v == w.(rollouts := v.rollouts)
  {
  }

  /** The world with the new replica complete; the others are as they were. */
  lemma CompletedFlags(c: Config, w: World, id: nat, atom: nat, size: nat, now: int)
    requires AccountsOk(c, w) && FlagsOk(w) && atom < size && Enrol(w.policies, id, atom, size).Some?
    ensures var g := Enrol(w.policies, id, atom, size).value;
            var v := Enrolled(w, id, g, now);
            && LoadedArrived(v) && id in v.policies && !v.policies[id].loaded
            && v.resumed == w.resumed && v.policyReady == w.policyReady
            && (forall i :: i in ArrivedPolicies(v) && i != id <==> i in ArrivedPolicies(w) && i != id)
            && (forall i :: i in w.policies && i != id ==> i in v.policies && v.policies[i] == w.policies[i])
            && id !in ArrivedPolicies(w) && (Arrived(g[id]) <==> id in ArrivedPolicies(v))
  {
    hide Enrol, Enrolled, Entry;
    var g := Enrol(w.policies, id, atom, size).value;
    EnrolFacts(w, id, atom, size);
    EnrolledFacts(w, id, g, now);
    EnrolledRest(w, id, g, now);
    EnrolledOthers(w, id, g, now);
    if id in w.policies && Arrived(w.policies[id]) {
      assert Proper(w.policies[id]);
      AllAtomsThere(w.policies[id], atom);
    }
  }

  lemma EnrolledOthers(w: World, id: nat, g: Group, now: int)
    requires id in g
    ensures Enrolled(w, id, g, now).rollouts == w.rollouts && Enrolled(w, id, g, now).resumed == w.resumed
  {
    hide Stamp, SetStatus;
  }

  /** How readiness stands once a replica is complete. */
  lemma CompletedReady(w: World, s: World, id: nat)
    requires FlagsOk(w) && s.policyReady == w.policyReady && s.resumed == w.resumed && LoadedArrived(s)
    requires forall i :: i in ArrivedPolicies(s) && i != id <==> i in ArrivedPolicies(w) && i != id
    requires forall i :: i in w.policies && i != id ==> i in s.policies && s.policies[i] == w.policies[i]
    requires id !in ArrivedPolicies(w)
    ensures w.policyReady ==> forall i :: i in ArrivedPolicies(s) && i in s.policies && i != id ==> s.policies[i].loaded
    ensures (exists i :: i in ArrivedPolicies(s) && i != id) ==> ArrivedPolicies(w) != [] && s.resumed
    ensures id !in ArrivedPolicies(s) ==> FlagsOk(s)
  {
    hide ArrivedPolicies;
    ArrivedKnown(w);
    ArrivedKnown(s);
    if ArrivedPolicies(s) != [] {
      assert ArrivedPolicies(s)[0] in ArrivedPolicies(s);
    }
  }

  lemma RegisterPolicyFlags(c: Config, w: World, id: nat, atom: nat, size: nat, now: int)
    requires Ledger(c, w) && FlagsOk(w) && Distinct(w.policyOrder) && atom < size && RegisterPolicy(c, w, id, atom, size, now).Some?
    ensures FlagsOk(RegisterPolicy(c, w, id, atom, size, now).value)
  {
    hide AfterPolicyArrives, FirstPolicyArrives, Enrol, BooksOk, Entry, Proper, ArrivedPolicies, LoadedIds, LoadedArrived;
    var g := Enrol(w.policies, id, atom, size).value;
    var s := Enrolled(w, id, g, now);
    CompletedFlags(c, w, id, atom, size, now);
    CompletedOrder(w, id, g, now);
    OrderGrows(w, id);
    CompletedReady(w, s, id);
    if Arrived(g[id]) {
      ArrivedPoliciesDistinct(s);
      if |ArrivedPolicies(s)| == 1 {
        OnlyOne(ArrivedPolicies(s), id);
        FirstPolicyLoads(s, id);
        assert id in [id];
        AfterPolicyFlags(c, FirstPolicyArrives(s, id), id);
      } else {
        SomeOther(ArrivedPolicies(s), id);
        AfterPolicyFlags(c, s, id);
      }
    }
  }

  /** A departure at any time. */
  lemma UnregisterPolicyFlags(c: Config, w: World, id: nat)
    requires AccountsOk(c, w) && FlagsOk(w) && UnregisterPolicy(c, w, id).Some?
    ensures FlagsOk(UnregisterPolicy(c, w, id).value)
  {
    hide RebuildPolicyMesh, Entry, Proper;
    var u := w.(policies := w.policies - {id}, policyOrder := Without(w.policyOrder, id));
    forall i
      ensures i in ArrivedPolicies(u) <==> i in ArrivedPolicies(w) && i != id
    {
    }
    if ArrivedPolicies(u) != [] {
      assert ArrivedPolicies(u)[0] in ArrivedPolicies(u);
    }
    assert FlagsOk(u);
    RebuiltFlags(c, u);
    SameLoadsFlags(u, RebuildPolicyMesh(c, u));
  }

  // ---------- every run ----------

  /** Every regular event, an extra fetch issued too early among them. */
  lemma EventFlags(c: Config, w: World, e: Event)
    requires ValidConfig(c) && Ledger(c, w) && Seated(c, w) && FlagsOk(w) && Regular(w, e) && After(c, w, e).Some?
    ensures FlagsOk(After(c, w, e).value)
  {
    hide FlagsOk, Grown, BooksOk, StagesOk, Entry, Proper, RanksOfArrived, NobodyPlaced, QueuesFit, RegisterPolicy, UnregisterPolicy,
      RegisterRollout, UnregisterRollout, PutGroup, TrainAck, RolloutEnd, Unreported;
    if e.PolicyAtom? {
      RegisterPolicyFlags(c, w, e.id, e.atom, e.size, e.now);
    } else if e.PolicyGone? {
      UnregisterPolicyFlags(c, w, e.id);
    } else {
      EventGrown(c, w, e);
      GrownFlags(w, After(c, w, e).value);
    }
  }

  // ---------- the assertions of registration ----------

  lemma AfterPolicySucceeds(c: Config, w: World, id: nat)
    requires id in w.policies && w.policies[id].rank.None?
    requires SomeLoaded(w.policies, ArrivedPolicies(w)) || (!w.policyReady && |ArrivedPolicies(w)| < w.policyInit)
    ensures AfterPolicyArrives(c, w, id).Some?
  {
    hide RebuildPolicyMesh, ArrivedPolicies, SetStatus, Load, Tell;
    if SomeLoaded(w.policies, ArrivedPolicies(w)) {
      var r := w.(policyReady := true);
      SameArrivedPolicies(w, r);
      RebuiltLoadsSame(c, r);
      var i :| i in ArrivedPolicies(w) && i in w.policies && w.policies[i].loaded;
      assert i in SortByStart(w.policies, ArrivedPolicies(w));
      assert i in RebuildPolicyMesh(c, r).policies && SameStanding(r.policies[i], RebuildPolicyMesh(c, r).policies[i]);
    }
  }

  /** With several arrived replicas and none loaded, initialisation finds no source for the weights. */
  lemma NoSourceFails(c: Config, w: World, id: nat)
    requires id in w.policies && !w.policyReady && |ArrivedPolicies(w)| >= w.policyInit && |ArrivedPolicies(w)| > 1
    requires !SomeLoaded(w.policies, ArrivedPolicies(w))
    ensures AfterPolicyArrives(c, w, id).None?
  {
    hide RebuildPolicyMesh, ArrivedPolicies, SetStatus, Load, Tell;
    var r := w.(policyReady := true);
    SameArrivedPolicies(w, r);
    RebuiltLoadsSame(c, r);
    var ids := SortByStart(w.policies, ArrivedPolicies(w));
    var m := RebuildPolicyMesh(c, r);
    forall i | i in ids && i in m.policies
      ensures !m.policies[i].loaded
    {
      assert i in ArrivedPolicies(w) && SameStanding(r.policies[i], m.policies[i]);
    }
  }

  lemma RebuiltLoadsSame(c: Config, w: World)
    ensures SameLoads(w, RebuildPolicyMesh(c, w))
  {
    hide RebuildPolicyMesh;
    RebuildFields(c, w);
  }

  /** The facts a completed replica brings along. */
  ghost predicate JustCompleted(w: World, s: World, id: nat) {
    && LoadedArrived(s) && id in s.policies && !s.policies[id].loaded && s.policies[id].rank.None?
    && id in ArrivedPolicies(s) && id !in ArrivedPolicies(w) && Distinct(s.policyOrder) && Distinct(w.policyOrder)
    && s.resumed == w.resumed && s.policyReady == w.policyReady
    && (forall i :: i in ArrivedPolicies(s) && i != id <==> i in ArrivedPolicies(w) && i != id)
    && (forall i :: i in w.policies && i != id ==> i in s.policies && s.policies[i] == w.policies[i])
  }

  /** One more has arrived; loaded are the same as before. */
  lemma OneMoreArrived(w: World, s: World, id: nat)
    requires JustCompleted(w, s, id)
    ensures |ArrivedPolicies(s)| == |ArrivedPolicies(w)| + 1
    ensures SomeLoaded(s.policies, ArrivedPolicies(s)) <==> SomeLoaded(w.policies, ArrivedPolicies(w))
  {
    hide ArrivedPolicies, LoadedArrived, Distinct;
    ArrivedPoliciesDistinct(s);
    ArrivedPoliciesDistinct(w);
    ArrivedKnown(s);
    ArrivedKnown(w);
    var a, b := ArrivedPolicies(s), ArrivedPolicies(w);
    SizeOfDistinct(a);
    SizeOfDistinct(b);
    assert AsSet(a) == AsSet(b) + {id};
  }

  lemma {:induction false} SizeOfDistinct(s: seq<nat>)
    requires Distinct(s)
    ensures |AsSet(s)| == |s|
  {
    if s == [] {
      assert AsSet(s) == {};
    } else {
      var front, last := s[..|s| - 1], s[|s| - 1];
      SizeOfDistinct(front);
      assert AsSet(s) == AsSet(front) + {last};
    }
  }

  /** The first replica of all is loaded by resuming. */
  lemma FirstSucceeds(c: Config, s: World, id: nat)
    requires LoadedArrived(s) && id in s.policies && s.policies[id].rank.None? && ArrivedPolicies(s) == [id]
    ensures AfterPolicyArrives(c, FirstPolicyArrives(s, id), id).Some?
  {
    hide AfterPolicyArrives, FirstPolicyArrives, LoadedArrived, ArrivedPolicies;
    FirstPolicyLoads(s, id);
    assert id in [id];
    FirstPolicyRank(s, id);
    AfterPolicySucceeds(c, FirstPolicyArrives(s, id), id);
  }

  /** Others have arrived before: one of them must be loaded, unless initialisation is still to come. */
  lemma LaterSucceedsIff(c: Config, w: World, s: World, id: nat)
    requires FlagsOk(w) && JustCompleted(w, s, id) && ArrivedPolicies(w) != []
    ensures AfterPolicyArrives(c, s, id).Some? <==>
            SomeLoaded(w.policies, ArrivedPolicies(w)) || (!w.policyReady && |ArrivedPolicies(w)| + 1 < s.policyInit)
  {
    hide AfterPolicyArrives, ArrivedPolicies, LoadedArrived;
    OneMoreArrived(w, s, id);
    ReadyIsLoaded(w);
    if SomeLoaded(w.policies, ArrivedPolicies(w)) || (!w.policyReady && |ArrivedPolicies(w)| + 1 < s.policyInit) {
      AfterPolicySucceeds(c, s, id);
    } else {
      NoSourceFails(c, s, id);
    }
  }

  lemma CompletionCompleted(c: Config, w: World, id: nat, atom: nat, size: nat, now: int)
    requires Ledger(c, w) && Seated(c, w) && FlagsOk(w) && atom < size && Enrol(w.policies, id, atom, size).Some?
    ensures var g := Enrol(w.policies, id, atom, size).value;
            Arrived(g[id]) ==> JustCompleted(w, Enrolled(w, id, g, now), id) && g[id].status.None?
  {
    hide BooksOk, Entry, Proper, ArrivedPolicies, LoadedIds, LoadedArrived, QueuesFit, NobodyPlaced, Enrolled, Enrol;
    var g := Enrol(w.policies, id, atom, size).value;
    CompletedFlags(c, w, id, atom, size, now);
    CompletedFacts(w, id, atom, size, now);
    CompletedOrder(w, id, g, now);
    OrderGrows(w, id);
    EnrolledLedger(c, w, id, atom, size, now);
  }

  /** Registering an atom in the world w completes replica id. */
  predicate Completes(w: World, id: nat, size: nat) {
    if id in w.policies then |w.policies[id].atoms| + 1 == size else size == 1
  }

  predicate Repeats(g: Group, id: nat, atom: nat, size: nat) {
    id in g && (atom in g[id].atoms || g[id].size != size)
  }

  lemma EnrolledCompletes(w: World, id: nat, atom: nat, size: nat)
    ensures Enrol(w.policies, id, atom, size).None? <==> Repeats(w.policies, id, atom, size)
    ensures Enrol(w.policies, id, atom, size).Some? ==>
      (Arrived(Enrol(w.policies, id, atom, size).value[id]) <==> Completes(w, id, size))
  {
  }

  /** Enough have arrived, with replica id, for initialisation; all enrolled ones are waited for. */
  predicate Initialises(w: World, id: nat) {
    !w.policyReady && |ArrivedPolicies(w)| + 1 >= Max(|w.policies.Keys + {id}|, w.policyInit)
  }

  /** The weights have been resumed and the replica that held them is gone: nobody can pass them on. */
  predicate WeightsGone(w: World, id: nat) {
    if ArrivedPolicies(w) == [] then w.resumed else Initialises(w, id) && !SomeLoaded(w.policies, ArrivedPolicies(w))
  }

  /** In every state a run reaches, registering an atom raises exactly when the atom repeats or its group size
      differs, or when it completes a replica that needs weights and nobody is left to pass them on. The other
      assertions never fire: a newcomer is never in the mesh already, and has no status. */
  lemma RegistrationRaisesIff(c: Config, w: World, id: nat, atom: nat, size: nat, now: int)
    requires Ledger(c, w) && Seated(c, w) && FlagsOk(w) && atom < size
    ensures RegisterPolicy(c, w, id, atom, size, now).None? <==>
            Repeats(w.policies, id, atom, size) || (Completes(w, id, size) && WeightsGone(w, id))
  {
    hide AfterPolicyArrives, FirstPolicyArrives, Ledger, Seated, FlagsOk, ArrivedPolicies, Enrolled, Enrol, JustCompleted, Stamp,
      SetStatus, Repeats, Completes, SomeLoaded;
    EnrolledCompletes(w, id, atom, size);
    if Enrol(w.policies, id, atom, size).Some? {
      var g := Enrol(w.policies, id, atom, size).value;
      var s := Enrolled(w, id, g, now);
      CompletionCompleted(c, w, id, atom, size, now);
      if Arrived(g[id]) {
        EnrolledIs(w, id, g, now);
        EnrolledInit(w, id, atom, size, now);
        OneMoreArrived(w, s, id);
        CompletedIs(w, s, id);
        if ArrivedPolicies(w) == [] {
          OnlyOne(ArrivedPolicies(s), id);
          FirstSucceeds(c, s, id);
        } else {
          LaterSucceedsIff(c, w, s, id);
          ReadyIsLoaded(w);
        }
      }
    }
  }

  lemma EnrolledInit(w: World, id: nat, atom: nat, size: nat, now: int)
    requires Enrol(w.policies, id, atom, size).Some?
    ensures var g := Enrol(w.policies, id, atom, size).value;
            !w.policyReady ==> Enrolled(w, id, g, now).policyInit == Max(|w.policies.Keys + {id}|, w.policyInit)
  {
    hide Stamp, SetStatus, Enrol;
    EnrolFacts(w, id, atom, size);
    assert |Enrol(w.policies, id, atom, size).value| == |w.policies.Keys + {id}|;
  }

  /** After initialisation, where some have arrived one is loaded. */
  lemma ReadyIsLoaded(w: World)
    requires FlagsOk(w)
    ensures w.policyReady && ArrivedPolicies(w) != [] ==> SomeLoaded(w.policies, ArrivedPolicies(w))
  {
    ArrivedKnown(w);
    if w.policyReady && ArrivedPolicies(w) != [] {
      assert ArrivedPolicies(w)[0] in ArrivedPolicies(w);
    }
  }

  lemma CompletedIs(w: World, s: World, id: nat)
    requires JustCompleted(w, s, id)
    ensures s.resumed == w.resumed && LoadedArrived(s) && id in s.policies && s.policies[id].rank.None? && id in ArrivedPolicies(s)
  {
  }

  lemma EnrolledIs(w: World, id: nat, g: Group, now: int)
    requires id in g && Arrived(g[id])
    ensures Enrolled(w, id, g, now) == EnrolPolicy(w, id, g).(policies := SetStatus(Stamp(g, id, now), {id}, Uninitialized))
  {
  }

  lemma FirstPolicyRank(w: World, id: nat)
    requires id in w.policies
    ensures id in FirstPolicyArrives(w, id).policies && FirstPolicyArrives(w, id).policies[id].rank == w.policies[id].rank
  {
    hide LastMesh, Routed;
    FirstPolicyInPlace(w, id);
    assert Unmoved(w.policies[id], FirstPolicyArrives(w, id).policies[id]);
  }
}
