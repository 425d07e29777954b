/** The send list every policy rank computes and the receive list every rollout rank computes for
    one weight synchronisation, from the shard descriptors of all ranks. */
module ShardPlan {
  import opened Common
  import opened SliceInfo
  import opened ShardAssignment
  import opened Rendezvous

  type Name = string

  /** Slices by tensor dimension; a dimension that is not listed is held whole. */
  type Shard = map<nat, DimSlice>

  /** For each rank, the shards of the parameters it holds. */
  type Infos = seq<map<Name, Shard>>

  datatype RawInputs = RawInputs(
    policy: Infos, rollout: Infos,
    sortedPolicy: seq<seq<Name>>, sortedRollout: seq<seq<Name>>,
    stagePolicy: seq<nat>, stageRollout: seq<nat>,
    groups: seq<seq<Name>>)

  datatype Inst = Inst(policyRank: nat, rolloutRank: nat, strategy: Shard)
  datatype PerParam = PerParam(name: Name, insts: seq<Inst>)
  type Group = seq<PerParam>

  // ---------- overlap of two shards ----------

  function At(s: Shard, d: nat): DimSlice {
    if d in s then s[d] else Whole
  }

  predicate ComparableAt(p: Shard, r: Shard, d: nat) {
    WellFormed(At(p, d)) && WellFormed(At(r, d)) && Compatible(At(p, d), At(r, d))
  }

  /** The assertions of the slice algebra hold between the two shards. */
  predicate Comparable(p: Shard, r: Shard) {
    forall d :: d in p.Keys + r.Keys ==> ComparableAt(p, r, d)
  }

  predicate OverlapsAt(p: Shard, r: Shard, d: nat)
    requires ComparableAt(p, r, d)
  {
    OverlapInfo(At(p, d), At(r, d)).Some?
  }

  predicate Overlaps(p: Shard, r: Shard)
    requires Comparable(p, r)
  {
    forall d :: d in p.Keys + r.Keys ==> OverlapsAt(p, r, d)
  }

  /** The common part, in the frame of the policy's shard and in that of the rollout's shard. */
  function PolicyPart(p: Shard, r: Shard): Shard
    requires Comparable(p, r) && Overlaps(p, r)
  {
    map d | d in p.Keys + r.Keys :: (assert OverlapsAt(p, r, d); OverlapInfo(At(p, d), At(r, d)).value.0)
  }

  function RolloutPart(p: Shard, r: Shard): Shard
    requires Comparable(p, r) && Overlaps(p, r)
  {
    map d | d in p.Keys + r.Keys :: (assert OverlapsAt(p, r, d); OverlapInfo(At(p, d), At(r, d)).value.1)
  }

  /** Visits the dimensions in any order and stops at the first without overlap. */
  method SplitStrategies(p: Shard, r: Shard) returns (res: Option<(Shard, Shard)>)
    requires Comparable(p, r)
    ensures res == if Overlaps(p, r) then Some((PolicyPart(p, r), RolloutPart(p, r))) else None
  {
    hide OverlapInfo, Compatible, WellFormed;
    var todo := p.Keys + r.Keys;
    var ps: Shard, rs: Shard := map[], map[];
    while todo != {}
      invariant todo <= p.Keys + r.Keys
      invariant ps.Keys == rs.Keys == p.Keys + r.Keys - todo
      invariant forall d :: d in ps ==> OverlapsAt(p, r, d) && OverlapInfo(At(p, d), At(r, d)).value == (ps[d], rs[d])
      decreases todo
    {
      var d :| d in todo;
      var o := OverlapInfo(At(p, d), At(r, d));
      if o.None? {
        assert !OverlapsAt(p, r, d);
        return None;
      }
      ps, rs, todo := ps[d := o.value.0], rs[d := o.value.1], todo - {d};
    }
    assert Overlaps(p, r);
    assert ps == PolicyPart(p, r);
    assert rs == RolloutPart(p, r);
    res := Some((ps, rs));
  }

  // ---------- ranks that hold the same shard ----------

  predicate Holds(infos: Infos, rank: nat, name: Name, shard: Shard)
    requires rank < |infos|
  {
    name in infos[rank] && infos[rank][name] == shard
  }

  function HoldersBefore(infos: Infos, name: Name, shard: Shard, k: nat): seq<nat>
    requires k <= |infos|
  {
    if k == 0 then []
    else
      var init := HoldersBefore(infos, name, shard, k - 1);
      if Holds(infos, k - 1, name, shard) then init + [k - 1] else init
  }

  function DupRanks(infos: Infos, rank: nat, name: Name): seq<nat>
    requires rank < |infos|
  {
    if name in infos[rank] then HoldersBefore(infos, name, infos[rank][name], |infos|) else []
  }

  method GetDupRanks(infos: Infos, rank: nat, name: Name) returns (ranks: seq<nat>)
    requires rank < |infos|
    ensures ranks == DupRanks(infos, rank, name)
  {
    ranks := [];
    if name !in infos[rank] {
      return;
    }
    var shard := infos[rank][name];
    for k := 0 to |infos|
      invariant ranks == HoldersBefore(infos, name, shard, k)
    {
      if name in infos[k] {
        if infos[k][name] == shard {
          ranks := ranks + [k];
        }
      }
    }
  }

  lemma {:induction false} HoldersExactly(infos: Infos, name: Name, shard: Shard, k: nat)
    requires k <= |infos|
    ensures forall x: nat :: x in HoldersBefore(infos, name, shard, k) <==> x < k && Holds(infos, x, name, shard)
    ensures Distinct(HoldersBefore(infos, name, shard, k))
  {
    if k > 0 {
      HoldersExactly(infos, name, shard, k - 1);
    }
  }

  // ---------- one parameter ----------

  /** One list of sorted names per pipeline stage, and shards the slice algebra can compare. */
  predicate Valid(x: RawInputs) {
    && |x.stagePolicy| == |x.policy| && |x.stageRollout| == |x.rollout|
    && (forall p :: 0 <= p < |x.policy| ==> x.stagePolicy[p] < |x.sortedPolicy|)
    && (forall r :: 0 <= r < |x.rollout| ==> x.stageRollout[r] < |x.sortedRollout|)
    && (forall p, r, name :: 0 <= p < |x.policy| && 0 <= r < |x.rollout| && name in x.policy[p] && name in x.rollout[r]
          ==> Comparable(x.policy[p][name], x.rollout[r][name]))
  }

  type Inputs = x: RawInputs | Valid(x) witness RawInputs([], [], [], [], [], [], [])

  predicate Shares(x: Inputs, name: Name, p: nat, r: nat)
    requires p < |x.policy| && r < |x.rollout|
  {
    && name in x.policy[p] && name in x.rollout[r]
    && Overlaps(x.policy[p][name], x.rollout[r][name])
  }

  /** Policy rank p sends its part of the parameter to rollout rank r. */
  predicate Transfers(x: Inputs, name: Name, p: nat, r: nat)
    requires p < |x.policy| && r < |x.rollout|
  {
    && Shares(x, name, p, r)
    && Serves(DupRanks(x.policy, p, name), DupRanks(x.rollout, r, name), p, r)
  }

  /** The shards of the ranks on one side, and of their peers on the other. */
  function Ranks(x: Inputs, side: Side): Infos {
    if side == Sender then x.policy else x.rollout
  }

  function Peers(x: Inputs, side: Side): Infos {
    if side == Sender then x.rollout else x.policy
  }

  /** The message about a parameter between a rank and one of its peers. */
  function Between(side: Side, name: Name, rank: nat, peer: nat): Msg {
    if side == Sender then Msg(name, rank, peer) else Msg(name, peer, rank)
  }

  predicate IsTransfer(x: Inputs, m: Msg) {
    m.policy < |x.policy| && m.rollout < |x.rollout| && Transfers(x, m.name, m.policy, m.rollout)
  }

  /** The instruction one side gets for a message: its own frame's slice of the common part. */
  function InstFor(x: Inputs, side: Side, m: Msg): Inst
    requires IsTransfer(x, m)
  {
    var p, r := x.policy[m.policy][m.name], x.rollout[m.rollout][m.name];
    Inst(m.policy, m.rollout, if side == Sender then PolicyPart(p, r) else RolloutPart(p, r))
  }

  /** A rank's instructions for one parameter, for the first k peers. */
  function Insts(x: Inputs, side: Side, name: Name, rank: nat, k: nat): seq<Inst>
    requires rank < |Ranks(x, side)| && k <= |Peers(x, side)|
  {
    if k == 0 then []
    else
      var m := Between(side, name, rank, k - 1);
      var init := Insts(x, side, name, rank, k - 1);
      if IsTransfer(x, m) then init + [InstFor(x, side, m)] else init
  }

  lemma HolderIsDup(infos: Infos, rank: nat, name: Name)
    requires rank < |infos| && name in infos[rank]
    ensures DupRanks(infos, rank, name) != []
  {
    HoldersExactly(infos, name, infos[rank][name], |infos|);
    assert rank in DupRanks(infos, rank, name);
  }

  method SendInstsForParam(x: Inputs, name: Name, p: nat) returns (insts: seq<Inst>)
    requires p < |x.policy| && name in x.policy[p]
    ensures insts == Insts(x, Sender, name, p, |x.rollout|)
  {
    hide Overlaps, PolicyPart, RolloutPart, OverlapInfo, ComparableAt, DupRanks, Serves;
    insts := [];
    var pDups := GetDupRanks(x.policy, p, name);
    HolderIsDup(x.policy, p, name);
    for r := 0 to |x.rollout|
      invariant insts == Insts(x, Sender, name, p, r)
    {
      if name in x.rollout[r] {
        var rDups := GetDupRanks(x.rollout, r, name);
        var parts := SplitStrategies(x.policy[p][name], x.rollout[r][name]);
        if parts.Some? {
          var targets, _ := PolicyToRolloutAssign(pDups, rDups, p, r);
          for j := 0 to |targets|
            invariant insts == Insts(x, Sender, name, p, r) + seq(j, i requires 0 <= i < |targets| => Inst(p, targets[i], parts.value.0))
          {
            insts := insts + [Inst(p, targets[j], parts.value.0)];
          }
        }
      }
    }
  }

  method RecvInstsForParam(x: Inputs, name: Name, r: nat) returns (insts: seq<Inst>)
    requires r < |x.rollout| && name in x.rollout[r]
    ensures insts == Insts(x, Receiver, name, r, |x.policy|)
  {
    hide Overlaps, PolicyPart, RolloutPart, OverlapInfo, ComparableAt, DupRanks, Serves;
    insts := [];
    var rDups := GetDupRanks(x.rollout, r, name);
    for p := 0 to |x.policy|
      invariant insts == Insts(x, Receiver, name, r, p)
    {
      if name in x.policy[p] {
        var pDups := GetDupRanks(x.policy, p, name);
        HolderIsDup(x.policy, p, name);
        var parts := SplitStrategies(x.policy[p][name], x.rollout[r][name]);
        if parts.Some? {
          var _, sources := PolicyToRolloutAssign(pDups, rDups, p, r);
          for j := 0 to |sources|
            invariant insts == Insts(x, Receiver, name, r, p) + seq(j, i requires 0 <= i < |sources| => Inst(sources[i], r, parts.value.1))
          {
            insts := insts + [Inst(sources[j], r, parts.value.1)];
          }
        }
      }
    }
  }

  // ---------- the plan of a rank ----------

  /** The parameters that belong to some group. */
  function Grouped(x: Inputs): set<Name> {
    set j, name | 0 <= j < |x.groups| && name in x.groups[j] :: name
  }

  function PlanParam(x: Inputs, side: Side, rank: nat, name: Name): Group
    requires rank < |Ranks(x, side)|
  {
    var insts := Insts(x, side, name, rank, |Peers(x, side)|);
    if name in Ranks(x, side)[rank] && insts != [] then [PerParam(name, insts)] else []
  }

  function AsGroup(g: Group): seq<Group> {
    if g == [] then [] else [g]
  }

  /** One group of instructions for each ungrouped parameter among the first k names. */
  function PlanSolo(x: Inputs, side: Side, rank: nat, names: seq<Name>, k: nat): seq<Group>
    requires rank < |Ranks(x, side)| && k <= |names|
  {
    if k == 0 then []
    else
      var init := PlanSolo(x, side, rank, names, k - 1);
      if names[k - 1] in Grouped(x) then init else init + AsGroup(PlanParam(x, side, rank, names[k - 1]))
  }

  function PlanMembers(x: Inputs, side: Side, rank: nat, names: seq<Name>, k: nat): Group
    requires rank < |Ranks(x, side)| && k <= |names|
  {
    if k == 0 then [] else PlanMembers(x, side, rank, names, k - 1) + PlanParam(x, side, rank, names[k - 1])
  }

  /** One group of instructions for each of the first k parameter groups. */
  function PlanGroups(x: Inputs, side: Side, rank: nat, k: nat): seq<Group>
    requires rank < |Ranks(x, side)| && k <= |x.groups|
  {
    if k == 0 then []
    else PlanGroups(x, side, rank, k - 1) +
         AsGroup(PlanMembers(x, side, rank, x.groups[k - 1], |x.groups[k - 1]|))
  }

  /** The sorted parameter names of the rank's pipeline stage. */
  function SortedNames(x: Inputs, side: Side, rank: nat): seq<Name>
    requires rank < |Ranks(x, side)|
  {
    if side == Sender then x.sortedPolicy[x.stagePolicy[rank]] else x.sortedRollout[x.stageRollout[rank]]
  }

  function Plan(x: Inputs, side: Side, rank: nat): seq<Group>
    requires rank < |Ranks(x, side)|
  {
    var names := SortedNames(x, side, rank);
    PlanSolo(x, side, rank, names, |names|) + PlanGroups(x, side, rank, |x.groups|)
  }

  // ---------- the send list of a policy rank ----------

  method SendMembersOf(x: Inputs, p: nat, group: seq<Name>) returns (members: Group)
    requires p < |x.policy|
    ensures members == PlanMembers(x, Sender, p, group, |group|)
  {
    hide Transfers, Insts;
    members := [];
    for i := 0 to |group|
      invariant members == PlanMembers(x, Sender, p, group, i)
    {
      var name := group[i];
      if name in x.policy[p] {
        var insts := SendInstsForParam(x, name, p);
        if insts != [] {
          members := members + [PerParam(name, insts)];
        }
      }
    }
  }

  method SendSoloOf(x: Inputs, p: nat, names: seq<Name>) returns (plan: seq<Group>)
    requires p < |x.policy|
    ensures plan == PlanSolo(x, Sender, p, names, |names|)
  {
    hide Transfers, Grouped, Insts;
    plan := [];
    for i := 0 to |names|
      invariant plan == PlanSolo(x, Sender, p, names, i)
    {
      var name := names[i];
      if name in x.policy[p] && name !in Grouped(x) {
        var insts := SendInstsForParam(x, name, p);
        if insts != [] {
          plan := plan + [[PerParam(name, insts)]];
        }
      }
    }
  }

  method GenerateSendInsts(x: Inputs, p: nat) returns (plan: seq<Group>)
    requires p < |x.policy|
    ensures plan == Plan(x, Sender, p)
  {
    hide Transfers, Insts, PlanMembers;
    plan := SendSoloOf(x, p, x.sortedPolicy[x.stagePolicy[p]]);
    ghost var solo := plan;
    for j := 0 to |x.groups|
      invariant plan == solo + PlanGroups(x, Sender, p, j)
    {
      var members := SendMembersOf(x, p, x.groups[j]);
      if members != [] {
        plan := plan + [members];
      }
    }
  }

  // ---------- the receive list of a rollout rank ----------

  /** A held parameter that no policy rank sends is an error. */
  predicate Starved(x: Inputs, r: nat, name: Name)
    requires r < |x.rollout|
  {
    name in x.rollout[r] && Insts(x, Receiver, name, r, |x.policy|) == []
  }

  /** The rank holds a member of the group. */
  predicate HoldsMember(x: Inputs, r: nat, group: seq<Name>)
    requires r < |x.rollout|
  {
    exists name :: name in group && name in x.rollout[r]
  }

  predicate SoloOk(x: Inputs, r: nat, names: seq<Name>)
    requires r < |x.rollout|
  {
    forall i :: 0 <= i < |names| && names[i] !in Grouped(x) ==> !Starved(x, r, names[i])
  }

  predicate NoneStarved(x: Inputs, r: nat, group: seq<Name>, k: nat)
    requires r < |x.rollout| && k <= |group|
  {
    forall i :: 0 <= i < k ==> !Starved(x, r, group[i])
  }

  predicate GroupOk(x: Inputs, r: nat, group: seq<Name>)
    requires r < |x.rollout|
  {
    HoldsMember(x, r, group) && NoneStarved(x, r, group, |group|)
  }

  /** Exactly when the generation of the receive list raises no error. */
  predicate RecvOk(x: Inputs, r: nat)
    requires r < |x.rollout|
  {
    && SoloOk(x, r, x.sortedRollout[x.stageRollout[r]])
    && forall j :: 0 <= j < |x.groups| ==> GroupOk(x, r, x.groups[j])
  }

  /** Without starved members, a group yields instructions exactly when a member is held. */
  lemma {:induction false} MembersEmptyIff(x: Inputs, r: nat, group: seq<Name>, k: nat)
    requires r < |x.rollout| && k <= |group|
    requires NoneStarved(x, r, group, k)
    ensures PlanMembers(x, Receiver, r, group, k) == [] <==> forall i :: 0 <= i < k ==> group[i] !in x.rollout[r]
  {
    hide Insts, Grouped, Valid;
    if k > 0 {
      MembersEmptyIff(x, r, group, k - 1);
      var init, last := PlanMembers(x, Receiver, r, group, k - 1), PlanParam(x, Receiver, r, group[k - 1]);
      assert !Starved(x, r, group[k - 1]);
      assert last == [] <==> group[k - 1] !in x.rollout[r];
      hide PlanParam, Starved;
      assert |PlanMembers(x, Receiver, r, group, k)| == |init| + |last|;
    }
  }

  lemma GroupOkIff(x: Inputs, r: nat, group: seq<Name>)
    requires r < |x.rollout|
    ensures GroupOk(x, r, group) <==> NoneStarved(x, r, group, |group|) && PlanMembers(x, Receiver, r, group, |group|) != []
  {
    hide Transfers, Insts, PlanMembers;
    if NoneStarved(x, r, group, |group|) {
      MembersEmptyIff(x, r, group, |group|);
    }
  }

  method RecvMembersOf(x: Inputs, r: nat, group: seq<Name>, pending: set<Name>)
    returns (res: Outcome<Group>, left: set<Name>)
    requires r < |x.rollout|
    ensures res == if NoneStarved(x, r, group, |group|) then Ok(PlanMembers(x, Receiver, r, group, |group|)) else Error
    ensures left <= pending
    ensures res.Ok? ==> forall name :: name in pending && name in group && name in x.rollout[r] ==> name !in left
  {
    hide Transfers, Insts;
    var members: Group := [];
    left := pending;
    for i := 0 to |group|
      invariant members == PlanMembers(x, Receiver, r, group, i)
      invariant NoneStarved(x, r, group, i)
      invariant left <= pending
      invariant forall j :: 0 <= j < i && group[j] in x.rollout[r] ==> group[j] !in left
    {
      var name := group[i];
      if name in x.rollout[r] {
        left := left - {name};
        var insts := RecvInstsForParam(x, name, r);
        if insts == [] {
          assert Starved(x, r, group[i]);
          return Error, left;
        }
        members := members + [PerParam(name, insts)];
      }
    }
    res := Ok(members);
  }

  /** The parameters outside the groups: their instructions, and the grouped names still to cover. */
  method RecvSoloOf(x: Inputs, r: nat, names: seq<Name>) returns (res: Outcome<seq<Group>>, pending: set<Name>)
    requires r < |x.rollout|
    ensures res == if SoloOk(x, r, names) then Ok(PlanSolo(x, Receiver, r, names, |names|)) else Error
    ensures forall name :: name in pending ==> name in Grouped(x) && name in x.rollout[r]
  {
    hide Transfers, Grouped, Insts;
    var plan := [];
    pending := {};
    for i := 0 to |names|
      invariant plan == PlanSolo(x, Receiver, r, names, i)
      invariant forall j :: 0 <= j < i && names[j] !in Grouped(x) ==> !Starved(x, r, names[j])
      invariant forall name :: name in pending ==> name in Grouped(x) && name in x.rollout[r]
    {
      var name := names[i];
      if name in x.rollout[r] {
        if name in Grouped(x) {
          pending := pending + {name};
        } else {
          var insts := RecvInstsForParam(x, name, r);
          if insts == [] {
            assert Starved(x, r, names[i]);
            return Error, pending;
          }
          plan := plan + [[PerParam(name, insts)]];
        }
      }
    }
    res := Ok(plan);
  }

  method RecvGroupsOf(x: Inputs, r: nat, solo: seq<Group>, grouped: set<Name>) returns (res: Outcome<seq<Group>>)
    requires r < |x.rollout|
    requires forall name :: name in grouped ==> name in Grouped(x) && name in x.rollout[r]
    ensures res == if forall j :: 0 <= j < |x.groups| ==> GroupOk(x, r, x.groups[j])
                   then Ok(solo + PlanGroups(x, Receiver, r, |x.groups|)) else Error
  {
    hide Transfers, Insts, PlanMembers, NoneStarved, GroupOk;
    var plan, pending := solo, grouped;
    for j := 0 to |x.groups|
      invariant plan == solo + PlanGroups(x, Receiver, r, j)
      invariant forall i :: 0 <= i < j ==> GroupOk(x, r, x.groups[i])
      invariant pending <= grouped
      invariant forall i, name :: 0 <= i < j && name in pending ==> name !in x.groups[i]
    {
      var members, left := RecvMembersOf(x, r, x.groups[j], pending);
      GroupOkIff(x, r, x.groups[j]);
      if members.Error? || members.value == [] {
        return Error;
      }
      pending := left;
      plan := plan + [members.value];
    }
    // The generator's final assertion: every grouped name of the sorted list was covered.
    assert pending == {};
    res := Ok(plan);
  }

  method GenerateRecvInsts(x: Inputs, r: nat) returns (res: Outcome<seq<Group>>)
    requires r < |x.rollout|
    ensures res == if RecvOk(x, r) then Ok(Plan(x, Receiver, r)) else Error
  {
    hide Transfers, Insts, PlanSolo, Starved;
    var solo, pending := RecvSoloOf(x, r, x.sortedRollout[x.stageRollout[r]]);
    if solo.Error? {
      return Error;
    }
    res := RecvGroupsOf(x, r, solo.value, pending);
  }
}
