/** Placing replicas on GPU nodes, one after the other, opening a new node whenever the next does not fit. */
module Placement {
  import opened Common

  datatype Role = Policy | Rollout | Reference

  /** One command: the replica it starts and the GPUs it is given. */
  datatype Item = Item(role: Role, index: nat, gpus: seq<nat>)

  /** The nodes flushed so far, the commands of the current node, and its first unused GPU. */
  datatype Plan = Plan(nodes: seq<seq<Item>>, pending: seq<Item>, used: nat)

  const NOTHING := Plan([], [], 0)

  function Opened(gpus: seq<nat>, p: Plan, n: nat): Plan {
    if p.used + n > |gpus| then Plan(p.nodes + [p.pending], [], 0) else p
  }

  function PlaceOne(gpus: seq<nat>, p: Plan, role: Role, i: nat, n: nat): (q: Plan)
    requires n <= |gpus|
    ensures q.used <= |gpus|
  {
    var o := Opened(gpus, p, n);
    Plan(o.nodes, o.pending + [Item(role, i, gpus[o.used..o.used + n])], o.used + n)
  }

  /** The first count replicas of a role. */
  function PlaceRole(gpus: seq<nat>, p: Plan, role: Role, count: nat, n: nat): Plan
    requires n <= |gpus|
  {
    if count == 0 then p else PlaceOne(gpus, PlaceRole(gpus, p, role, count - 1, n), role, count - 1, n)
  }

  function Flushed(p: Plan): seq<seq<Item>> {
    if p.pending == [] then p.nodes else p.nodes + [p.pending]
  }

  /** How many replicas of each role are wanted, and how many GPUs each needs. */
  datatype Demand = Demand(policies: nat, policyGpus: nat, rollouts: nat, rolloutGpus: nat, references: nat, referenceGpus: nat)

  predicate Fits(d: Demand, size: nat) {
    0 < d.policyGpus <= size && 0 < d.rolloutGpus <= size && 0 < d.referenceGpus <= size
  }

  function Place(gpus: seq<nat>, d: Demand): Plan
    requires Fits(d, |gpus|)
  {
    var p := PlaceRole(gpus, NOTHING, Policy, d.policies, d.policyGpus);
    var r := PlaceRole(gpus, p, Rollout, d.rollouts, d.rolloutGpus);
    PlaceRole(gpus, r, Reference, d.references, d.referenceGpus)
  }

  /** Colocated rollouts share the policies' GPUs: none is placed. */
  function Effective(colocated: bool, d: Demand): Demand {
    if colocated then d.(rollouts := 0) else d
  }

  class NodesManager {
    const available: seq<nat>
    const colocated: bool
    var nodes: seq<seq<Item>>
    var workerIdx: nat
    var gpuIdx: nat
    var commands: seq<Item>

    constructor (available: seq<nat>, colocated: bool)
      requires |available| in {1, 2, 4, 8}
      ensures this.available == available && this.colocated == colocated && Valid() && View() == NOTHING
    {
      this.available, this.colocated := available, colocated;
      nodes, workerIdx, gpuIdx, commands := [], 0, 0, [];
    }

    ghost function View(): Plan
      reads this
    {
      Plan(nodes, commands, gpuIdx)
    }

    /** The current node is the one after all flushed ones. */
    ghost predicate Valid()
      reads this
    {
      workerIdx == |nodes|
    }

    /** Appends the commands to the current node, creating it if need be, and moves on to the next. */
    method Flush()
      requires workerIdx <= |nodes|
      modifies this
      ensures nodes == if old(workerIdx) < |old(nodes)| then old(nodes)[old(workerIdx) := old(nodes)[old(workerIdx)] + old(commands)]
                       else old(nodes) + [old(commands)]
      ensures workerIdx == old(workerIdx) + 1 && commands == [] && gpuIdx == old(gpuIdx)
    {
      if workerIdx + 1 <= |nodes| {
        nodes := nodes[workerIdx := nodes[workerIdx] + commands];
      } else {
        nodes := nodes + [commands];
      }
      workerIdx := workerIdx + 1;
      commands := [];
    }

    method ReplicaPlacementForRole(role: Role, count: nat, n: nat)
      requires Valid() && n <= |available|
      modifies this
      ensures Valid() && View() == PlaceRole(available, old(View()), role, count, n)
    {
      for i := 0 to count
        invariant Valid() && View() == PlaceRole(available, old(View()), role, i, n)
      {
        if gpuIdx + n > |available| {
          Flush();
          gpuIdx := 0;
        }
        commands := commands + [Item(role, i, available[gpuIdx..gpuIdx + n])];
        gpuIdx := gpuIdx + n;
      }
    }

    /** Policies first, then rollouts, then references. */
    method ReplicaPlacement(d: Demand)
      requires Valid() && View() == NOTHING && Fits(d, |available|)
      modifies this
      ensures nodes == Flushed(Place(available, Effective(colocated, d)))
    {
      var rollouts := if colocated then 0 else d.rollouts;
      ReplicaPlacementForRole(Policy, d.policies, d.policyGpus);
      ReplicaPlacementForRole(Rollout, rollouts, d.rolloutGpus);
      ReplicaPlacementForRole(Reference, d.references, d.referenceGpus);
      if commands != [] {
        Flush();
      }
    }
  }

  // ---------- how a node is packed ----------

  function Used(items: seq<Item>): nat {
    if items == [] then 0 else Used(items[..|items| - 1]) + |items[|items| - 1].gpus|
  }

  lemma UsedAppend(items: seq<Item>, x: Item)
    ensures Used(items + [x]) == Used(items) + |x.gpus|
  {
    assert (items + [x])[..|items|] == items;
  }

  lemma {:induction false} UsedPrefix(items: seq<Item>, i: nat)
    requires i <= |items|
    ensures Used(items[..i]) <= Used(items)
  {
    if i < |items| {
      UsedPrefix(items[..|items| - 1], i);
      assert items[..|items| - 1][..i] == items[..i];
    } else {
      assert items[..i] == items;
    }
  }

  /** Where the i-th command's GPUs start. */
  function Offset(items: seq<Item>, i: nat): nat
    requires i <= |items|
  {
    Used(items[..i])
  }

  lemma OffsetNext(items: seq<Item>, i: nat)
    requires i < |items|
    ensures Offset(items, i + 1) == Offset(items, i) + |items[i].gpus| <= Used(items)
  {
    assert items[..i + 1] == items[..i] + [items[i]];
    UsedAppend(items[..i], items[i]);
    UsedPrefix(items, i + 1);
  }

  lemma {:induction false} OffsetMono(items: seq<Item>, i: nat, j: nat)
    requires i <= j <= |items|
    ensures Offset(items, i) <= Offset(items, j)
  {
    assert items[..j][..i] == items[..i];
    UsedPrefix(items[..j], i);
  }

  /** Consecutive stretches of the node's GPUs, from the first on. */
  predicate Packed(gpus: seq<nat>, items: seq<Item>) {
    Used(items) <= |gpus| && forall i :: 0 <= i < |items| ==> At(gpus, Offset(items, i), items[i])
  }

  predicate At(gpus: seq<nat>, start: nat, x: Item) {
    start + |x.gpus| <= |gpus| && x.gpus == gpus[start..start + |x.gpus|]
  }

  lemma PackedAppend(gpus: seq<nat>, items: seq<Item>, x: Item)
    requires Packed(gpus, items) && At(gpus, Used(items), x)
    ensures Packed(gpus, items + [x]) && Used(items + [x]) == Used(items) + |x.gpus|
  {
    UsedAppend(items, x);
    var t := items + [x];
    forall i | 0 <= i < |t|
      ensures At(gpus, Offset(t, i), t[i])
    {
      assert t[..i] == items[..i];
      if i == |items| { assert items[..i] == items; }
    }
  }

  /** No GPU of a node is given to two of its commands. */
  lemma PackedDisjoint(gpus: seq<nat>, items: seq<Item>, i: nat, j: nat, a: nat, b: nat)
    requires Packed(gpus, items) && (forall x, y :: 0 <= x < y < |gpus| ==> gpus[x] != gpus[y])
    requires i < j < |items| && a < |items[i].gpus| && b < |items[j].gpus|
    ensures items[i].gpus[a] != items[j].gpus[b]
  {
    OffsetNext(items, i);
    OffsetMono(items, i + 1, j);
    assert At(gpus, Offset(items, i), items[i]) && At(gpus, Offset(items, j), items[j]);
  }

  // ---------- what placing keeps ----------

  /** A node was closed because the first command of the next did not fit. */
  predicate Closed(size: nat, node: seq<Item>, next: seq<Item>) {
    next != [] && Used(node) + |next[0].gpus| > size
  }

  predicate NodesOk(gpus: seq<nat>, nodes: seq<seq<Item>>) {
    && (forall k :: 0 <= k < |nodes| ==> nodes[k] != [] && Packed(gpus, nodes[k]))
    && (forall k :: 0 <= k < |nodes| - 1 ==> Closed(|gpus|, nodes[k], nodes[k + 1]))
  }

  predicate PlanOk(gpus: seq<nat>, p: Plan) {
    && p.used == Used(p.pending) && Packed(gpus, p.pending)
    && NodesOk(gpus, Flushed(p)) && (p.pending == [] ==> p.nodes == [])
  }

  lemma NodesAppend(gpus: seq<nat>, nodes: seq<seq<Item>>, items: seq<Item>)
    requires NodesOk(gpus, nodes) && items != [] && Packed(gpus, items)
    requires nodes != [] ==> Closed(|gpus|, nodes[|nodes| - 1], items)
    ensures NodesOk(gpus, nodes + [items])
  {
    hide Packed, Closed;
  }

  lemma NodesFront(gpus: seq<nat>, nodes: seq<seq<Item>>)
    requires NodesOk(gpus, nodes) && nodes != []
    ensures var front, last := nodes[..|nodes| - 1], nodes[|nodes| - 1];
            && NodesOk(gpus, front) && last != [] && Packed(gpus, last) && front + [last] == nodes
            && (front != [] ==> Closed(|gpus|, front[|front| - 1], last))
  {
    hide Packed;
    var front := nodes[..|nodes| - 1];
    forall k | 0 <= k < |front| - 1
      ensures Closed(|gpus|, front[k], front[k + 1])
    {
      assert Closed(|gpus|, nodes[k], nodes[k + 1]);
    }
    if front != [] {
      assert Closed(|gpus|, nodes[|front| - 1], nodes[|front| - 1 + 1]);
    }
  }

  /** The first command of a node decides whether the node before could take it. */
  lemma SameFirst(size: nat, node: seq<Item>, next: seq<Item>, longer: seq<Item>)
    requires Closed(size, node, next) && longer != [] && longer[0] == next[0]
    ensures Closed(size, node, longer)
  {
  }

  /** The command goes to a new node. */
  lemma PlaceOnNew(gpus: seq<nat>, p: Plan, x: Item)
    requires PlanOk(gpus, p) && p.pending != [] && p.used + |x.gpus| > |gpus| && At(gpus, 0, x)
    ensures PlanOk(gpus, Plan(p.nodes + [p.pending], [x], |x.gpus|))
  {
    hide Packed, NodesOk;
    NothingPacked(gpus);
    PackedAppend(gpus, [], x);
    assert [] + [x] == [x];
    NodesAppend(gpus, p.nodes + [p.pending], [x]);
  }

  lemma NothingPacked(gpus: seq<nat>)
    ensures Packed(gpus, []) && Used([]) == 0 && NodesOk(gpus, [])
  {
  }

  /** The command goes to the current node. */
  lemma PlaceOnCurrent(gpus: seq<nat>, p: Plan, x: Item)
    requires PlanOk(gpus, p) && At(gpus, p.used, x)
    ensures PlanOk(gpus, Plan(p.nodes, p.pending + [x], p.used + |x.gpus|))
  {
    hide Packed, NodesOk, Closed, At;
    PackedAppend(gpus, p.pending, x);
    if p.pending == [] {
      NothingPacked(gpus);
      NodesAppend(gpus, p.nodes, p.pending + [x]);
    } else {
      var before := p.nodes + [p.pending];
      NodesFront(gpus, before);
      assert before[..|before| - 1] == p.nodes && before[|before| - 1] == p.pending;
      if p.nodes != [] {
        SameFirst(|gpus|, p.nodes[|p.nodes| - 1], p.pending, p.pending + [x]);
      }
      NodesAppend(gpus, p.nodes, p.pending + [x]);
    }
  }

  lemma PlaceOneOk(gpus: seq<nat>, p: Plan, role: Role, i: nat, n: nat)
    requires PlanOk(gpus, p) && 0 < n <= |gpus|
    ensures PlanOk(gpus, PlaceOne(gpus, p, role, i, n))
  {
    hide Packed, NodesOk;
    if p.used + n > |gpus| {
      PendingUsed(gpus, p);
      PlaceOnNew(gpus, p, Item(role, i, gpus[0..n]));
      assert [] + [Item(role, i, gpus[0..n])] == [Item(role, i, gpus[0..n])];
    } else {
      PlaceOnCurrent(gpus, p, Item(role, i, gpus[p.used..p.used + n]));
    }
  }

  lemma PendingUsed(gpus: seq<nat>, p: Plan)
    requires PlanOk(gpus, p)
    ensures p.pending == [] ==> p.used == 0
  {
  }

  lemma {:induction false} PlaceRoleOk(gpus: seq<nat>, p: Plan, role: Role, count: nat, n: nat)
    requires PlanOk(gpus, p) && 0 < n <= |gpus|
    ensures PlanOk(gpus, PlaceRole(gpus, p, role, count, n))
  {
    hide PlanOk;
    if count > 0 {
      PlaceRoleOk(gpus, p, role, count - 1, n);
      PlaceOneOk(gpus, PlaceRole(gpus, p, role, count - 1, n), role, count - 1, n);
    }
  }

  // ---------- who was placed ----------

  /** All commands, node after node. */
  function AllItems(p: Plan): seq<Item> {
    Flat(p.nodes) + p.pending
  }

  lemma FlushedItems(p: Plan)
    ensures Flat(Flushed(p)) == AllItems(p)
  {
    FlatAppend(p.nodes, p.pending);
  }

  /** The replicas of a role from the start-th command on, in order, with the GPUs each needs. */
  predicate RoleAt(items: seq<Item>, start: nat, role: Role, count: nat, n: nat) {
    && start + count <= |items|
    && forall k :: start <= k < start + count ==> items[k].role == role && items[k].index == k - start && |items[k].gpus| == n
  }

  lemma OpenedItems(gpus: seq<nat>, p: Plan, n: nat)
    requires n <= |gpus|
    ensures AllItems(Opened(gpus, p, n)) == AllItems(p)
  {
    FlatAppend(p.nodes, p.pending);
  }

  lemma PlaceOneItems(gpus: seq<nat>, p: Plan, role: Role, i: nat, n: nat)
    requires n <= |gpus|
    ensures |AllItems(PlaceOne(gpus, p, role, i, n))| == |AllItems(p)| + 1
    ensures AllItems(PlaceOne(gpus, p, role, i, n))[..|AllItems(p)|] == AllItems(p)
    ensures var x := AllItems(PlaceOne(gpus, p, role, i, n))[|AllItems(p)|];
            x.role == role && x.index == i && |x.gpus| == n
  {
    var o := Opened(gpus, p, n);
    OpenedItems(gpus, p, n);
    hide Flat, Opened;
    var x := Item(role, i, gpus[o.used..o.used + n]);
    assert AllItems(PlaceOne(gpus, p, role, i, n)) == AllItems(o) + [x];
  }

  lemma {:induction false} PlaceRoleItems(gpus: seq<nat>, p: Plan, role: Role, count: nat, n: nat)
    requires n <= |gpus|
    ensures var before, after := AllItems(p), AllItems(PlaceRole(gpus, p, role, count, n));
            |after| == |before| + count && after[..|before|] == before && RoleAt(after, |before|, role, count, n)
  {
    hide AllItems, PlaceOne;
    if count == 0 {
      assert AllItems(p)[..|AllItems(p)|] == AllItems(p);
    } else {
      var q := PlaceRole(gpus, p, role, count - 1, n);
      PlaceRoleItems(gpus, p, role, count - 1, n);
      PlaceOneItems(gpus, q, role, count - 1, n);
      var before, middle, after := AllItems(p), AllItems(q), AllItems(PlaceRole(gpus, p, role, count, n));
      assert after[..|before|] == after[..|middle|][..|before|];
      forall k | |before| <= k < |before| + count
        ensures after[k].role == role && after[k].index == k - |before| && |after[k].gpus| == n
      {
        if k < |middle| { assert after[k] == after[..|middle|][k] == middle[k]; }
      }
    }
  }

  lemma RoleAtPrefix(items: seq<Item>, longer: seq<Item>, start: nat, role: Role, count: nat, n: nat)
    requires RoleAt(items, start, role, count, n) && |items| <= |longer| && longer[..|items|] == items
    ensures RoleAt(longer, start, role, count, n)
  {
    forall k | start <= k < start + count
      ensures longer[k] == items[k]
    {
      assert longer[..|items|][k] == longer[k];
    }
  }

  // ---------- how many nodes ----------

  function TotalUsed(nodes: seq<seq<Item>>): nat {
    if nodes == [] then 0 else TotalUsed(nodes[..|nodes| - 1]) + Used(nodes[|nodes| - 1])
  }

  lemma {:induction false} UsedConcat(a: seq<Item>, b: seq<Item>)
    ensures Used(a + b) == Used(a) + Used(b)
  {
    if b == [] {
      assert a + b == a;
    } else {
      assert (a + b)[..|a + b| - 1] == a + b[..|b| - 1];
      UsedConcat(a, b[..|b| - 1]);
    }
  }

  lemma {:induction false} TotalIsFlat(nodes: seq<seq<Item>>)
    ensures TotalUsed(nodes) == Used(Flat(nodes))
  {
    if nodes != [] {
      TotalIsFlat(nodes[..|nodes| - 1]);
      UsedConcat(Flat(nodes[..|nodes| - 1]), nodes[|nodes| - 1]);
    }
  }

  lemma FirstUses(items: seq<Item>)
    requires items != []
    ensures |items[0].gpus| <= Used(items)
  {
    OffsetNext(items, 0);
    assert items[..0] == [];
  }

  lemma BoundStep(n: int, g: int, first: int, beforeLast: int, last: int, total: int)
    requires (n - 2) * g + beforeLast <= 2 * total && total <= (n - 1) * g
    requires beforeLast + first > g && first <= last <= g
    ensures (n - 1) * g + last <= 2 * (total + last) && total + last <= n * g
  {
    assert (n - 1) * g == (n - 2) * g + g && n * g == (n - 1) * g + g;
  }

  /** Any two neighbouring nodes together use more than one node's GPUs, so few nodes are opened. */
  lemma {:induction false} NodesBound(gpus: seq<nat>, nodes: seq<seq<Item>>)
    requires NodesOk(gpus, nodes) && nodes != []
    ensures (|nodes| - 1) * |gpus| + Used(nodes[|nodes| - 1]) <= 2 * TotalUsed(nodes)
    ensures TotalUsed(nodes) <= |nodes| * |gpus|
  {
    hide NodesOk, Packed;
    var n, g := |nodes|, |gpus|;
    var front, last := nodes[..n - 1], nodes[n - 1];
    NodesFront(gpus, nodes);
    PackedFits(gpus, last);
    assert TotalUsed(nodes) == TotalUsed(front) + Used(last);
    if n > 1 {
      NodesBound(gpus, front);
      FirstUses(last);
      BoundStep(n, g, |last[0].gpus|, Used(front[n - 2]), Used(last), TotalUsed(front));
    }
  }

  lemma PackedFits(gpus: seq<nat>, items: seq<Item>)
    requires Packed(gpus, items)
    ensures Used(items) <= |gpus|
  {
  }

  // ---------- the whole placement ----------

  function Wanted(d: Demand): nat {
    d.policies * d.policyGpus + d.rollouts * d.rolloutGpus + d.references * d.referenceGpus
  }

  lemma PlaceOk(gpus: seq<nat>, d: Demand)
    requires Fits(d, |gpus|)
    ensures PlanOk(gpus, Place(gpus, d))
  {
    hide PlanOk, PlaceRole;
    NothingOk(gpus);
    var p := PlaceRole(gpus, NOTHING, Policy, d.policies, d.policyGpus);
    PlaceRoleOk(gpus, NOTHING, Policy, d.policies, d.policyGpus);
    PlaceRoleOk(gpus, p, Rollout, d.rollouts, d.rolloutGpus);
    PlaceRoleOk(gpus, PlaceRole(gpus, p, Rollout, d.rollouts, d.rolloutGpus), Reference, d.references, d.referenceGpus);
  }

  lemma NothingOk(gpus: seq<nat>)
    ensures PlanOk(gpus, NOTHING)
  {
  }

  /** Every replica wanted is placed exactly once, in order, with exactly the GPUs it needs. */
  predicate ExactlyPlaced(d: Demand, items: seq<Item>) {
    && |items| == d.policies + d.rollouts + d.references
    && RoleAt(items, 0, Policy, d.policies, d.policyGpus)
    && RoleAt(items, d.policies, Rollout, d.rollouts, d.rolloutGpus)
    && RoleAt(items, d.policies + d.rollouts, Reference, d.references, d.referenceGpus)
  }

  lemma PlacedItems(gpus: seq<nat>, d: Demand)
    requires Fits(d, |gpus|)
    ensures ExactlyPlaced(d, AllItems(Place(gpus, d)))
  {
    hide PlaceRole, AllItems, RoleAt;
    NoItems();
    var p := PlaceRole(gpus, NOTHING, Policy, d.policies, d.policyGpus);
    var r := PlaceRole(gpus, p, Rollout, d.rollouts, d.rolloutGpus);
    var f := PlaceRole(gpus, r, Reference, d.references, d.referenceGpus);
    PlaceRoleItems(gpus, NOTHING, Policy, d.policies, d.policyGpus);
    PlaceRoleItems(gpus, p, Rollout, d.rollouts, d.rolloutGpus);
    PlaceRoleItems(gpus, r, Reference, d.references, d.referenceGpus);
    RoleAtPrefix(AllItems(p), AllItems(r), 0, Policy, d.policies, d.policyGpus);
    RoleAtPrefix(AllItems(r), AllItems(f), 0, Policy, d.policies, d.policyGpus);
    RoleAtPrefix(AllItems(r), AllItems(f), d.policies, Rollout, d.rollouts, d.rolloutGpus);
  }

  lemma NoItems()
    ensures AllItems(NOTHING) == []
  {
  }

  lemma {:induction false} RoleUses(items: seq<Item>, start: nat, role: Role, count: nat, n: nat)
    requires RoleAt(items, start, role, count, n) && |items| == start + count
    ensures Used(items) == Used(items[..start]) + count * n
  {
    if count == 0 {
      assert items[..start] == items;
    } else {
      var front := items[..|items| - 1];
      assert RoleAt(front, start, role, count - 1, n);
      RoleUses(front, start, role, count - 1, n);
      assert front[..start] == items[..start];
      assert |items[|items| - 1].gpus| == n;
      assert count * n == (count - 1) * n + n;
    }
  }

  lemma PlacedUses(d: Demand, items: seq<Item>)
    requires ExactlyPlaced(d, items)
    ensures Used(items) == Wanted(d)
  {
    var p, r := items[..d.policies], items[..d.policies + d.rollouts];
    assert RoleAt(p, 0, Policy, d.policies, d.policyGpus);
    RoleUses(p, 0, Policy, d.policies, d.policyGpus);
    assert p[..0] == [] && r[..d.policies] == p;
    assert RoleAt(r, d.policies, Rollout, d.rollouts, d.rolloutGpus);
    RoleUses(r, d.policies, Rollout, d.rollouts, d.rolloutGpus);
    RoleUses(items, d.policies + d.rollouts, Reference, d.references, d.referenceGpus);
  }

  /** When every replica fits on one node: each is placed exactly once with exactly the GPUs it needs; no GPU
      of a node is given to two commands; the launcher's capacity check holds; and fewer than twice the
      demand's worth of nodes, plus one, is used. */
  lemma PlacementIsSound(gpus: seq<nat>, d: Demand)
    requires Fits(d, |gpus|) && (forall x, y :: 0 <= x < y < |gpus| ==> gpus[x] != gpus[y])
    ensures var nodes := Flushed(Place(gpus, d));
            && ExactlyPlaced(d, Flat(nodes))
            && (forall k :: 0 <= k < |nodes| ==> Packed(gpus, nodes[k]))
            && Wanted(d) <= |nodes| * |gpus|
            && (nodes != [] ==> (|nodes| - 1) * |gpus| < 2 * Wanted(d))
            && (nodes == [] <==> d.policies + d.rollouts + d.references == 0)
  {
    var p := Place(gpus, d);
    var nodes := Flushed(p);
    hide Place, Packed, PlanOk, ExactlyPlaced, Used, Flat, Closed, Flushed, AllItems;
    PlaceOk(gpus, d);
    PlanNodes(gpus, p);
    PlacedItems(gpus, d);
    FlushedItems(p);
    PlacedUses(d, Flat(nodes));
    TotalIsFlat(nodes);
    if nodes == [] {
      NoNodes(d);
    } else {
      NodesBound(gpus, nodes);
      LastUses(d, Flat(nodes), nodes);
    }
  }

  lemma PlanNodes(gpus: seq<nat>, p: Plan)
    requires PlanOk(gpus, p)
    ensures NodesOk(gpus, Flushed(p))
  {
  }

  lemma NoNodes(d: Demand)
    requires ExactlyPlaced(d, Flat([]))
    ensures d.policies + d.rollouts + d.references == 0 && Wanted(d) == 0
  {
  }

  /** A command needs at least one GPU, so the last node is in use. */
  lemma LastUses(d: Demand, items: seq<Item>, nodes: seq<seq<Item>>)
    requires ExactlyPlaced(d, items) && 0 < d.policyGpus && 0 < d.rolloutGpus && 0 < d.referenceGpus
    requires nodes != [] && items == Flat(nodes) && nodes[|nodes| - 1] != []
    ensures 0 < Used(nodes[|nodes| - 1]) && 0 < d.policies + d.rollouts + d.references
  {
    hide *;
    LastOfFlat(nodes);
    LastItemUses(d, items);
    UsedAtEnd(nodes[|nodes| - 1]);
  }

  lemma UsedAtEnd(items: seq<Item>)
    requires items != [] && 0 < |items[|items| - 1].gpus|
    ensures 0 < Used(items)
  {
  }

  lemma LastItemUses(d: Demand, items: seq<Item>)
    requires ExactlyPlaced(d, items) && 0 < d.policyGpus && 0 < d.rolloutGpus && 0 < d.referenceGpus && items != []
    ensures 0 < |items[|items| - 1].gpus| && 0 < d.policies + d.rollouts + d.references
  {
    var i := |items| - 1;
    if i >= d.policies + d.rollouts {
      assert items[d.policies + d.rollouts + (d.references - 1)] == items[i];
    } else if i >= d.policies {
      assert items[d.policies + (d.rollouts - 1)] == items[i];
    }
  }

  lemma LastOfFlat(nodes: seq<seq<Item>>)
    requires nodes != [] && nodes[|nodes| - 1] != []
    ensures Flat(nodes) != [] && Flat(nodes)[|Flat(nodes)| - 1] == nodes[|nodes| - 1][|nodes[|nodes| - 1]| - 1]
  {
  }
}
