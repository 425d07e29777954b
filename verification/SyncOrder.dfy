/** The send and receive lists of all ranks are projections of one linear order of messages. */
module SyncOrder {
  import opened Common
  import opened ShardAssignment
  import opened ShardPlan
  import opened Rendezvous

  /** One entry of a rank's list, flattened out of its groups. */
  datatype Op = Op(msg: Msg, strategy: Shard)

  function Tag(name: Name, insts: seq<Inst>): seq<Op> {
    seq(|insts|, i requires 0 <= i < |insts| =>
      Op(Msg(name, insts[i].policyRank, insts[i].rolloutRank), insts[i].strategy))
  }

  function FlatGroup(g: Group): seq<Op> {
    if g == [] then [] else FlatGroup(g[..|g| - 1]) + Tag(g[|g| - 1].name, g[|g| - 1].insts)
  }

  function FlatPlan(plan: seq<Group>): seq<Op> {
    if plan == [] then [] else FlatPlan(plan[..|plan| - 1]) + FlatGroup(plan[|plan| - 1])
  }

  lemma {:induction false} FlatGroupConcat(a: Group, b: Group)
    ensures FlatGroup(a + b) == FlatGroup(a) + FlatGroup(b)
  {
    hide Tag;
    if b == [] {
      assert a + b == a;
    } else {
      assert (a + b)[..|a + b| - 1] == a + b[..|b| - 1];
      FlatGroupConcat(a, b[..|b| - 1]);
    }
  }

  lemma {:induction false} FlatPlanConcat(a: seq<Group>, b: seq<Group>)
    ensures FlatPlan(a + b) == FlatPlan(a) + FlatPlan(b)
  {
    hide FlatGroup;
    if b == [] {
      assert a + b == a;
    } else {
      assert (a + b)[..|a + b| - 1] == a + b[..|b| - 1];
      FlatPlanConcat(a, b[..|b| - 1]);
    }
  }

  /** Appending a group that may be empty. */
  lemma FlatPlanAppend(a: seq<Group>, g: Group)
    ensures FlatPlan(a + AsGroup(g)) == FlatPlan(a) + FlatGroup(g)
  {
    if g == [] {
      assert a + AsGroup(g) == a;
    } else {
      assert (a + AsGroup(g))[..|a|] == a;
    }
  }

  // ---------- messages and what each side does for them ----------

  /** What one side does for a message. */
  function OpFor(x: Inputs, side: Side, m: Msg): Op {
    Op(m, if IsTransfer(x, m) then InstFor(x, side, m).strategy else map[])
  }

  function Ops(x: Inputs, side: Side, ms: seq<Msg>): seq<Op> {
    seq(|ms|, i requires 0 <= i < |ms| => OpFor(x, side, ms[i]))
  }

  function Messages(ops: seq<Op>): seq<Msg> {
    seq(|ops|, i requires 0 <= i < |ops| => ops[i].msg)
  }

  /** The messages about one parameter between a rank and its first k peers. */
  function Line(x: Inputs, side: Side, name: Name, rank: nat, k: nat): seq<Msg>
    requires rank < |Ranks(x, side)| && k <= |Peers(x, side)|
  {
    if k == 0 then []
    else
      var m := Between(side, name, rank, k - 1);
      var init := Line(x, side, name, rank, k - 1);
      if IsTransfer(x, m) then init + [m] else init
  }

  function FullLine(x: Inputs, side: Side, name: Name, rank: nat): seq<Msg>
    requires rank < |Ranks(x, side)|
  {
    Line(x, side, name, rank, |Peers(x, side)|)
  }

  function Lines(x: Inputs, side: Side, names: seq<Name>, rank: nat): seq<Msg>
    requires rank < |Ranks(x, side)|
  {
    if names == [] then []
    else Lines(x, side, names[..|names| - 1], rank) + FullLine(x, side, names[|names| - 1], rank)
  }

  lemma {:induction false} LinesConcat(x: Inputs, side: Side, a: seq<Name>, b: seq<Name>, rank: nat)
    requires rank < |Ranks(x, side)|
    ensures Lines(x, side, a + b, rank) == Lines(x, side, a, rank) + Lines(x, side, b, rank)
  {
    hide FullLine;
    if b == [] {
      assert a + b == a;
    } else {
      assert (a + b)[..|a + b| - 1] == a + b[..|b| - 1];
      LinesConcat(x, side, a, b[..|b| - 1], rank);
    }
  }

  lemma LinesAppend(x: Inputs, side: Side, a: seq<Name>, name: Name, rank: nat)
    requires rank < |Ranks(x, side)|
    ensures Lines(x, side, a + [name], rank) == Lines(x, side, a, rank) + FullLine(x, side, name, rank)
  {
    hide FullLine;
    assert (a + [name])[..|a|] == a;
  }

  // ---------- flattening a rank's list ----------

  lemma OpsAppend(x: Inputs, side: Side, a: seq<Msg>, b: seq<Msg>)
    ensures Ops(x, side, a + b) == Ops(x, side, a) + Ops(x, side, b)
  {
    hide OpFor;
  }

  lemma OpsAppendOne(x: Inputs, side: Side, a: seq<Msg>, m: Msg)
    ensures Ops(x, side, a + [m]) == Ops(x, side, a) + [OpFor(x, side, m)]
  {
    hide OpFor;
  }

  lemma MessagesOfOps(x: Inputs, side: Side, ms: seq<Msg>)
    ensures Messages(Ops(x, side, ms)) == ms
  {
    hide IsTransfer, InstFor;
  }

  lemma TagAppend(name: Name, insts: seq<Inst>, inst: Inst)
    ensures Tag(name, insts + [inst]) == Tag(name, insts) + [Op(Msg(name, inst.policyRank, inst.rolloutRank), inst.strategy)]
  {
  }

  lemma {:induction false} TagInsts(x: Inputs, side: Side, name: Name, rank: nat, k: nat)
    requires rank < |Ranks(x, side)| && k <= |Peers(x, side)|
    ensures Tag(name, Insts(x, side, name, rank, k)) == Ops(x, side, Line(x, side, name, rank, k))
  {
    hide Transfers, PolicyPart, RolloutPart;
    if k > 0 {
      TagInsts(x, side, name, rank, k - 1);
      var m := Between(side, name, rank, k - 1);
      if IsTransfer(x, m) {
        TagAppend(name, Insts(x, side, name, rank, k - 1), InstFor(x, side, m));
        OpsAppendOne(x, side, Line(x, side, name, rank, k - 1), m);
      }
    }
  }

  lemma {:induction false} NoLineUnlessHeld(x: Inputs, side: Side, name: Name, rank: nat, k: nat)
    requires rank < |Ranks(x, side)| && k <= |Peers(x, side)| && name !in Ranks(x, side)[rank]
    ensures Line(x, side, name, rank, k) == []
  {
    hide Overlaps, Serves, DupRanks;
    if k > 0 {
      NoLineUnlessHeld(x, side, name, rank, k - 1);
    }
  }

  lemma FlatParam(x: Inputs, side: Side, rank: nat, name: Name)
    requires rank < |Ranks(x, side)|
    ensures FlatGroup(PlanParam(x, side, rank, name)) == Ops(x, side, FullLine(x, side, name, rank))
  {
    TagInsts(x, side, name, rank, |Peers(x, side)|);
    if name !in Ranks(x, side)[rank] {
      NoLineUnlessHeld(x, side, name, rank, |Peers(x, side)|);
    }
    var insts := Insts(x, side, name, rank, |Peers(x, side)|);
    hide Line, Insts, OpFor, IsTransfer;
    assert [PerParam(name, insts)][..0] == [];
    assert FlatGroup([PerParam(name, insts)]) == FlatGroup([]) + Tag(name, insts);
  }

  /** The names of a list that belong to no group. */
  function Loose(x: Inputs, names: seq<Name>): seq<Name> {
    if names == [] then []
    else
      var init := Loose(x, names[..|names| - 1]);
      if names[|names| - 1] in Grouped(x) then init else init + [names[|names| - 1]]
  }

  lemma {:induction false} FlatSolo(x: Inputs, side: Side, rank: nat, names: seq<Name>, k: nat)
    requires rank < |Ranks(x, side)| && k <= |names|
    ensures FlatPlan(PlanSolo(x, side, rank, names, k)) == Ops(x, side, Lines(x, side, Loose(x, names[..k]), rank))
  {
    assert Ops(x, side, []) == [];
    hide PlanParam, FullLine, Grouped, Ops, FlatGroup;
    if k == 0 {
      assert names[..k] == [];
    } else {
      var name := names[k - 1];
      FlatSolo(x, side, rank, names, k - 1);
      assert names[..k][..k - 1] == names[..k - 1];
      if name in Grouped(x) {
        assert PlanSolo(x, side, rank, names, k) == PlanSolo(x, side, rank, names, k - 1);
        assert Loose(x, names[..k]) == Loose(x, names[..k - 1]);
      } else {
        FlatPlanAppend(PlanSolo(x, side, rank, names, k - 1), PlanParam(x, side, rank, name));
        FlatParam(x, side, rank, name);
        LinesAppend(x, side, Loose(x, names[..k - 1]), name, rank);
        OpsAppend(x, side, Lines(x, side, Loose(x, names[..k - 1]), rank), FullLine(x, side, name, rank));
      }
    }
  }

  lemma {:induction false} FlatMembers(x: Inputs, side: Side, rank: nat, group: seq<Name>, k: nat)
    requires rank < |Ranks(x, side)| && k <= |group|
    ensures FlatGroup(PlanMembers(x, side, rank, group, k)) == Ops(x, side, Lines(x, side, group[..k], rank))
  {
    hide PlanParam, FullLine;
    if k > 0 {
      FlatMembers(x, side, rank, group, k - 1);
      FlatGroupConcat(PlanMembers(x, side, rank, group, k - 1), PlanParam(x, side, rank, group[k - 1]));
      FlatParam(x, side, rank, group[k - 1]);
      assert group[..k][..k - 1] == group[..k - 1];
      OpsAppend(x, side, Lines(x, side, group[..k - 1], rank), FullLine(x, side, group[k - 1], rank));
    }
  }

  lemma {:induction false} FlatGroups(x: Inputs, side: Side, rank: nat, k: nat)
    requires rank < |Ranks(x, side)| && k <= |x.groups|
    ensures FlatPlan(PlanGroups(x, side, rank, k)) == Ops(x, side, Lines(x, side, Flat(x.groups[..k]), rank))
  {
    assert Ops(x, side, []) == [];
    hide PlanMembers, FullLine, FlatGroup, Ops, Valid;
    if k == 0 {
      assert x.groups[..k] == [];
    } else {
      var group := x.groups[k - 1];
      FlatGroups(x, side, rank, k - 1);
      FlatPlanAppend(PlanGroups(x, side, rank, k - 1), PlanMembers(x, side, rank, group, |group|));
      FlatMembers(x, side, rank, group, |group|);
      assert group[..|group|] == group;
      assert x.groups[..k][..k - 1] == x.groups[..k - 1];
      LinesConcat(x, side, Flat(x.groups[..k - 1]), group, rank);
      OpsAppend(x, side, Lines(x, side, Flat(x.groups[..k - 1]), rank), Lines(x, side, group, rank));
    }
  }

  // ---------- the common order ----------

  /** `sub` is obtained from `full` by dropping entries. */
  predicate Sublist(sub: seq<Name>, full: seq<Name>) {
    sub == [] ||
    (full != [] &&
      if sub[|sub| - 1] == full[|full| - 1] then Sublist(sub[..|sub| - 1], full[..|full| - 1])
      else Sublist(sub, full[..|full| - 1]))
  }

  /** The rank's sorted list follows the common order and has all ungrouped parameters it holds. */
  predicate ListOk(x: Inputs, side: Side, rank: nat, all: seq<Name>)
    requires rank < |Ranks(x, side)|
  {
    && Sublist(SortedNames(x, side, rank), all)
    && forall name :: name in Ranks(x, side)[rank] && name !in Grouped(x) ==> name in SortedNames(x, side, rank)
  }

  predicate CommonOrder(x: Inputs, all: seq<Name>) {
    Distinct(all) && forall side, rank: nat :: rank < |Ranks(x, side)| ==> ListOk(x, side, rank, all)
  }

  lemma {:induction false} SublistMember(sub: seq<Name>, full: seq<Name>, name: Name)
    requires Sublist(sub, full) && name in sub
    ensures name in full
  {
    if sub[|sub| - 1] == full[|full| - 1] {
      if name != sub[|sub| - 1] {
        SublistMember(sub[..|sub| - 1], full[..|full| - 1], name);
      }
    } else {
      SublistMember(sub, full[..|full| - 1], name);
    }
  }

  lemma LastIsNew(names: seq<Name>)
    requires Distinct(names) && names != []
    ensures names[|names| - 1] !in names[..|names| - 1]
  {
    var init := names[..|names| - 1];
    assert forall i :: 0 <= i < |init| ==> init[i] == names[i];
  }

  /** Parameters a rank does not hold contribute no message, so its own sorted list will do. */
  lemma {:induction false} LinesOfSublist(x: Inputs, side: Side, sub: seq<Name>, full: seq<Name>, rank: nat)
    requires rank < |Ranks(x, side)| && Sublist(sub, full) && Distinct(full)
    requires forall name :: name in full && name in Ranks(x, side)[rank] && name !in Grouped(x) ==> name in sub
    ensures Lines(x, side, Loose(x, sub), rank) == Lines(x, side, Loose(x, full), rank)
    decreases |full|
  {
    if full != [] {
      var init, name := full[..|full| - 1], full[|full| - 1];
      if name !in Ranks(x, side)[rank] {
        NoLineUnlessHeld(x, side, name, rank, |Peers(x, side)|);
        assert FullLine(x, side, name, rank) == [];
      }
      LastIsNew(full);
      hide FullLine, Grouped, Ranks, Valid;
      LinesAppend(x, side, Loose(x, init), name, rank);
      if sub != [] && sub[|sub| - 1] == name {
        var subInit := sub[..|sub| - 1];
        LinesAppend(x, side, Loose(x, subInit), name, rank);
        assert forall n :: n in init && n in sub ==> n in subInit;
        LinesOfSublist(x, side, subInit, init, rank);
      } else {
        if name in sub { SublistMember(sub, init, name); }
        LinesOfSublist(x, side, sub, init, rank);
        assert name in Grouped(x) || FullLine(x, side, name, rank) == [];
      }
    }
  }

  /** Names in the order in which every rank works: ungrouped ones first, then group by group. */
  function NameOrder(x: Inputs, all: seq<Name>): seq<Name> {
    Loose(x, all) + Flat(x.groups)
  }

  /** The messages about one parameter from the first k policy ranks. */
  function Block(x: Inputs, name: Name, k: nat): seq<Msg>
    requires k <= |x.policy|
  {
    if k == 0 then [] else Block(x, name, k - 1) + FullLine(x, Sender, name, k - 1)
  }

  function Blocks(x: Inputs, names: seq<Name>): seq<Msg> {
    if names == [] then [] else Blocks(x, names[..|names| - 1]) + Block(x, names[|names| - 1], |x.policy|)
  }

  /** All messages of a synchronisation: by parameter, then policy rank, then rollout rank. */
  function GlobalOrder(x: Inputs, all: seq<Name>): seq<Msg> {
    Blocks(x, NameOrder(x, all))
  }

  lemma {:induction false} LineMembers(x: Inputs, side: Side, name: Name, rank: nat, k: nat)
    requires rank < |Ranks(x, side)| && k <= |Peers(x, side)|
    ensures forall m :: m in Line(x, side, name, rank, k) ==>
      m.name == name && Rank(side, m) == rank && IsTransfer(x, m)
  {
    hide Transfers;
    if k > 0 {
      LineMembers(x, side, name, rank, k - 1);
    }
  }

  lemma {:induction false} SameOwner(side: Side, ms: seq<Msg>, owner: nat, x: nat)
    requires forall m :: m in ms ==> Rank(side, m) == owner
    ensures By(side, ms, x) == if x == owner then ms else []
  {
    if ms != [] {
      assert ms == ms[..|ms| - 1] + [ms[|ms| - 1]];
      SameOwner(side, ms[..|ms| - 1], owner, x);
    }
  }

  /** Within one policy rank's line, a rollout rank sees its own message only. */
  lemma {:induction false} LineByRollout(x: Inputs, name: Name, p: nat, k: nat, r: nat)
    requires p < |x.policy| && k <= |x.rollout| && r < |x.rollout|
    ensures By(Receiver, Line(x, Sender, name, p, k), r) ==
            if r < k && IsTransfer(x, Msg(name, p, r)) then [Msg(name, p, r)] else []
  {
    hide IsTransfer;
    if k > 0 {
      LineByRollout(x, name, p, k - 1, r);
      var m := Msg(name, p, k - 1);
      ByConcat(Receiver, Line(x, Sender, name, p, k - 1), if IsTransfer(x, m) then [m] else [], r);
      ByOne(Receiver, m, r);
    }
  }

  lemma {:induction false} BlockByPolicy(x: Inputs, name: Name, k: nat, p: nat)
    requires k <= |x.policy| && p < |x.policy|
    ensures By(Sender, Block(x, name, k), p) == if p < k then FullLine(x, Sender, name, p) else []
  {
    if k > 0 {
      BlockByPolicy(x, name, k - 1, p);
      var line := FullLine(x, Sender, name, k - 1);
      LineMembers(x, Sender, name, k - 1, |x.rollout|);
      hide FullLine, IsTransfer, Valid;
      ByConcat(Sender, Block(x, name, k - 1), line, p);
      SameOwner(Sender, line, k - 1, p);
    }
  }

  lemma {:induction false} BlockByRollout(x: Inputs, name: Name, k: nat, r: nat)
    requires k <= |x.policy| && r < |x.rollout|
    ensures By(Receiver, Block(x, name, k), r) == Line(x, Receiver, name, r, k)
  {
    hide IsTransfer, Valid;
    if k > 0 {
      BlockByRollout(x, name, k - 1, r);
      ByConcat(Receiver, Block(x, name, k - 1), FullLine(x, Sender, name, k - 1), r);
      LineByRollout(x, name, k - 1, |x.rollout|, r);
    }
  }

  lemma {:induction false} BlocksProjection(x: Inputs, side: Side, names: seq<Name>, rank: nat)
    requires rank < |Ranks(x, side)|
    ensures By(side, Blocks(x, names), rank) == Lines(x, side, names, rank)
  {
    hide IsTransfer, Block, Line;
    if names != [] {
      var init, name := names[..|names| - 1], names[|names| - 1];
      BlocksProjection(x, side, init, rank);
      ByConcat(side, Blocks(x, init), Block(x, name, |x.policy|), rank);
      if side == Sender {
        BlockByPolicy(x, name, |x.policy|, rank);
      } else {
        BlockByRollout(x, name, |x.policy|, rank);
      }
    }
  }

  /** Each rank's generated list, flattened, is the projection of the global order to that rank. */
  lemma PlanProjects(x: Inputs, side: Side, rank: nat, all: seq<Name>)
    requires CommonOrder(x, all) && rank < |Ranks(x, side)|
    ensures FlatPlan(Plan(x, side, rank)) == Ops(x, side, By(side, GlobalOrder(x, all), rank))
  {
    var names := SortedNames(x, side, rank);
    assert ListOk(x, side, rank, all);
    hide Line, Insts, PlanSolo, PlanGroups, Grouped, OpFor;
    FlatPlanConcat(PlanSolo(x, side, rank, names, |names|), PlanGroups(x, side, rank, |x.groups|));
    FlatSolo(x, side, rank, names, |names|);
    FlatGroups(x, side, rank, |x.groups|);
    assert names[..|names|] == names && x.groups[..|x.groups|] == x.groups;
    LinesOfSublist(x, side, names, all, rank);
    LinesConcat(x, side, Loose(x, all), Flat(x.groups), rank);
    OpsAppend(x, side, Lines(x, side, Loose(x, all), rank), Lines(x, side, Flat(x.groups), rank));
    BlocksProjection(x, side, NameOrder(x, all), rank);
  }

  /** What policy rank p sends to rollout rank r is, message by message and in order, what r
      receives from p. */
  lemma PlansAreDual(x: Inputs, all: seq<Name>, p: nat, r: nat)
    requires CommonOrder(x, all) && p < |x.policy| && r < |x.rollout|
    ensures By(Receiver, Messages(FlatPlan(Plan(x, Sender, p))), r) ==
            By(Sender, Messages(FlatPlan(Plan(x, Receiver, r))), p)
  {
    PlanProjects(x, Sender, p, all);
    PlanProjects(x, Receiver, r, all);
    var order := GlobalOrder(x, all);
    hide GlobalOrder, OpFor, Plan;
    MessagesOfOps(x, Sender, By(Sender, order, p));
    MessagesOfOps(x, Receiver, By(Receiver, order, r));
    ProjectionsCommute(order, p, r);
  }

  /** Every rank at the start of its generated list. */
  function Initial(x: Inputs): State {
    State(seq(|x.policy|, p requires 0 <= p < |x.policy| => Messages(FlatPlan(Plan(x, Sender, p)))),
          seq(|x.rollout|, r requires 0 <= r < |x.rollout| => Messages(FlatPlan(Plan(x, Receiver, r)))))
  }

  lemma {:induction false} BlocksAreTransfers(x: Inputs, names: seq<Name>)
    ensures forall m :: m in Blocks(x, names) ==> IsTransfer(x, m)
  {
    hide IsTransfer, Block;
    if names != [] {
      BlocksAreTransfers(x, names[..|names| - 1]);
      BlockIsTransfers(x, names[|names| - 1], |x.policy|);
    }
  }

  lemma {:induction false} BlockIsTransfers(x: Inputs, name: Name, k: nat)
    requires k <= |x.policy|
    ensures forall m :: m in Block(x, name, k) ==> IsTransfer(x, m)
  {
    hide IsTransfer;
    if k > 0 {
      BlockIsTransfers(x, name, k - 1);
      LineMembers(x, Sender, name, k - 1, |x.rollout|);
    }
  }

  /** With blocking in-order sends and receives, no interleaving of the ranks gets stuck before
      every list is exhausted. */
  lemma SyncNeverStuck(x: Inputs, all: seq<Name>, steps: seq<(nat, nat)>, t: State)
    requires CommonOrder(x, all) && Runs(Initial(x), steps, t)
    ensures !Finished(t) ==> exists p, r :: Enabled(t, p, r)
    ensures |steps| <= |GlobalOrder(x, all)|
    ensures |steps| == |GlobalOrder(x, all)| <==> Finished(t)
  {
    var order := GlobalOrder(x, all);
    BlocksAreTransfers(x, NameOrder(x, all));
    InitialProjects(x, all);
    NeverStuck(Initial(x), order, steps, t);
  }

  lemma InitialProjects(x: Inputs, all: seq<Name>)
    requires CommonOrder(x, all)
    ensures Projects(Initial(x), GlobalOrder(x, all))
  {
    var order := GlobalOrder(x, all);
    BlocksAreTransfers(x, NameOrder(x, all));
    assert forall m :: m in order ==> IsTransfer(x, m);
    hide GlobalOrder, Ops, Plan, Transfers, Valid;
    forall p | 0 <= p < |x.policy|
      ensures Initial(x).send[p] == By(Sender, order, p)
    {
      PlanProjects(x, Sender, p, all);
      MessagesOfOps(x, Sender, By(Sender, order, p));
    }
    forall r | 0 <= r < |x.rollout|
      ensures Initial(x).recv[r] == By(Receiver, order, r)
    {
      PlanProjects(x, Receiver, r, all);
      MessagesOfOps(x, Receiver, By(Receiver, order, r));
    }
    forall i | 0 <= i < |order|
      ensures order[i].policy < |x.policy| && order[i].rollout < |x.rollout|
    {
      assert IsTransfer(x, order[i]);
    }
  }
}
