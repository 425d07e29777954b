/** Executing the generated lists gives every element of every rollout shard the policy's value at
    the same global index, writing it exactly once. */
module SyncExact {
  import opened Arithmetic
  import opened Common
  import opened SliceInfo
  import opened ShardAssignment
  import opened ShardPlan
  import opened Rendezvous
  import opened SyncOrder

  /** Sizes of a tensor's dimensions, and positions in it. */
  type Shape = seq<nat>
  type Index = seq<int>

  // ---------- slicing a tensor ----------

  /** A view: where it starts in the underlying tensor and how far it extends, per dimension. */
  datatype View = View(origin: seq<int>, extent: seq<int>)

  predicate SliceDefined(extent: seq<int>, s: Shard) {
    (forall d :: d in s ==> d < |extent|) && forall d :: 0 <= d < |extent| ==> Fits(At(s, d), extent[d])
  }

  function SlicedView(v: View, s: Shard): View
    requires |v.origin| == |v.extent| && SliceDefined(v.extent, s)
  {
    View(seq(|v.origin|, d requires 0 <= d < |v.origin| => v.origin[d] + Start(At(s, d), v.extent[d])),
         seq(|v.origin|, d requires 0 <= d < |v.origin| => Count(At(s, d), v.extent[d])))
  }

  /** Narrows one dimension after the other, in any order. */
  method CosmosSlice(v: View, s: Shard) returns (view: View)
    requires |v.origin| == |v.extent| && SliceDefined(v.extent, s)
    ensures view == SlicedView(v, s)
  {
    view := v;
    var todo := s.Keys;
    hide Start, Count, Fits;
    while todo != {}
      invariant todo <= s.Keys
      invariant |view.origin| == |view.extent| == |v.origin|
      invariant forall d :: 0 <= d < |v.origin| && (d in todo || d !in s) ==>
        view.origin[d] == v.origin[d] && view.extent[d] == v.extent[d]
      invariant forall d :: 0 <= d < |v.origin| && d in s && d !in todo ==>
        s[d].total != 0 && view.origin[d] == v.origin[d] + Start(s[d], v.extent[d]) && view.extent[d] == Count(s[d], v.extent[d])
      decreases todo
    {
      var d :| d in todo;
      assert Fits(At(s, d), v.extent[d]);
      assert s[d].total != 0 by { FitsTotal(s[d], v.extent[d]); }
      view := View(view.origin[d := view.origin[d] + Start(s[d], view.extent[d])],
                   view.extent[d := Count(s[d], view.extent[d])]);
      todo := todo - {d};
    }
    forall d | 0 <= d < |v.origin| && d !in s
      ensures Start(At(s, d), v.extent[d]) == 0 && Count(At(s, d), v.extent[d]) == v.extent[d]
    {
      WholeSlice(v.extent[d]);
    }
  }

  lemma FitsTotal(s: DimSlice, n: int)
    requires Fits(s, n)
    ensures s.total != 0
  {
  }

  lemma WholeSlice(n: int)
    ensures Start(Whole, n) == 0 && Count(Whole, n) == n
    ensures 0 <= n ==> Fits(Whole, n)
  {
    DivIs(n, 1, n);
  }

  // ---------- where shards lie ----------

  predicate ShardFits(s: Shard, shape: Shape) {
    SliceDefined(shape, s)
  }

  /** The global index lies in the shard. */
  predicate InShard(s: Shard, shape: Shape, g: Index)
    requires ShardFits(s, shape)
  {
    |g| == |shape| && forall d :: 0 <= d < |shape| ==> InShardAt(s, shape, g[d], d)
  }

  predicate InShardAt(s: Shard, shape: Shape, i: int, d: nat)
    requires ShardFits(s, shape) && d < |shape|
  {
    assert Fits(At(s, d), shape[d]);
    Selects(At(s, d), shape[d], i)
  }

  /** The shard's local tensor, as a view of the global one. */
  function LocalView(s: Shard, shape: Shape): View
    requires ShardFits(s, shape)
  {
    SlicedView(View(seq(|shape|, _ => 0), shape), s)
  }

  /** In a dimension that either shard slices, the strategies are the overlap of the two slices. */
  lemma PartsInDim(p: Shard, r: Shard, d: nat)
    requires Comparable(p, r) && Overlaps(p, r)
    ensures d in p.Keys + r.Keys ==> ComparableAt(p, r, d) && OverlapsAt(p, r, d)
    ensures d in p.Keys + r.Keys ==>
      (At(PolicyPart(p, r), d), At(RolloutPart(p, r), d)) == OverlapInfo(At(p, d), At(r, d)).value
    ensures d !in p.Keys + r.Keys ==>
      At(p, d) == At(r, d) == At(PolicyPart(p, r), d) == At(RolloutPart(p, r), d) == Whole
  {
    hide OverlapInfo;
    if d in p.Keys + r.Keys {
      assert ComparableAt(p, r, d) && OverlapsAt(p, r, d);
    }
  }

  /** One dimension of a transfer: both slicings are defined, have the same extent and start at the
      same global position, and the rollout's slice is what both shards hold. */
  predicate TransferDim(sp: DimSlice, sr: DimSlice, p: DimSlice, r: DimSlice, n: int)
    requires Fits(p, n) && Fits(r, n)
  {
    && Fits(sp, Count(p, n)) && Fits(sr, Count(r, n)) && Count(sp, Count(p, n)) == Count(sr, Count(r, n))
    && Start(p, n) + Start(sp, Count(p, n)) == Start(r, n) + Start(sr, Count(r, n))
  }

  lemma TransferAt(p: Shard, r: Shard, shape: Shape, d: nat)
    requires Comparable(p, r) && Overlaps(p, r) && ShardFits(p, shape) && ShardFits(r, shape) && d < |shape|
    ensures Fits(At(p, d), shape[d]) && Fits(At(r, d), shape[d])
    ensures TransferDim(At(PolicyPart(p, r), d), At(RolloutPart(p, r), d), At(p, d), At(r, d), shape[d])
  {
    PartsInDim(p, r, d);
    assert Fits(At(p, d), shape[d]) && Fits(At(r, d), shape[d]);
    hide PolicyPart, RolloutPart, OverlapInfo, TransferDim, Start, Count, Fits;
    if d in p.Keys + r.Keys {
      TransferOverlap(At(p, d), At(r, d), shape[d]);
    } else {
      TransferWhole(shape[d]);
    }
  }

  lemma TransferOverlap(p: DimSlice, r: DimSlice, n: int)
    requires Fits(p, n) && Fits(r, n) && Compatible(p, r) && OverlapInfo(p, r).Some?
    ensures var (sp, sr) := OverlapInfo(p, r).value; TransferDim(sp, sr, p, r, n)
  {
    OverlapSameGlobalStart(p, r, n);
  }

  lemma TransferWhole(n: nat)
    ensures Fits(Whole, n) && TransferDim(Whole, Whole, Whole, Whole, n)
  {
    WholeSlice(n);
  }

  lemma TransferSelects(p: Shard, r: Shard, shape: Shape, d: nat, i: int)
    requires Comparable(p, r) && Overlaps(p, r) && ShardFits(p, shape) && ShardFits(r, shape) && d < |shape|
    ensures At(RolloutPart(p, r), d).total != 0 && At(r, d).total != 0
    ensures InShardAt(p, shape, i, d) && InShardAt(r, shape, i, d) <==>
            Selects(At(RolloutPart(p, r), d), Count(At(r, d), shape[d]), i - Start(At(r, d), shape[d]))
  {
    TransferAt(p, r, shape, d);
    PartsInDim(p, r, d);
    hide PolicyPart, RolloutPart, OverlapInfo;
    if d in p.Keys + r.Keys {
      OverlapSelectsShared(At(p, d), At(r, d), shape[d], i);
    } else {
      WholeSlice(shape[d]);
    }
  }

  /** Shards with a common global index overlap in every dimension. */
  lemma CommonIndexOverlaps(p: Shard, r: Shard, shape: Shape, g: Index)
    requires Comparable(p, r) && ShardFits(p, shape) && ShardFits(r, shape)
    requires InShard(p, shape, g) && InShard(r, shape, g)
    ensures Overlaps(p, r)
  {
    forall d | d in p.Keys + r.Keys
      ensures OverlapsAt(p, r, d)
    {
      assert ComparableAt(p, r, d);
      assert Fits(At(p, d), shape[d]) && Fits(At(r, d), shape[d]);
      assert InShardAt(p, shape, g[d], d) && InShardAt(r, shape, g[d], d);
      NonEmptyDim(At(p, d), shape[d], g[d]);
      OverlapIffShared(At(p, d), At(r, d), shape[d]);
    }
  }

  lemma NonEmptyDim(s: DimSlice, n: int, i: int)
    requires Fits(s, n) && Selects(s, n, i)
    ensures 0 < n
  {
    SliceInBounds(s, n);
  }

  // ---------- one message ----------

  /** The policy rank holds the parameter and its shard contains the global index. */
  predicate Covers(x: Inputs, name: Name, shape: Shape, p: nat, g: Index)
    requires PolicyFits(x, name, shape)
  {
    p < |x.policy| && name in x.policy[p] && InShard(x.policy[p][name], shape, g)
  }

  predicate PolicyFits(x: Inputs, name: Name, shape: Shape) {
    forall p :: 0 <= p < |x.policy| && name in x.policy[p] ==> ShardFits(x.policy[p][name], shape)
  }

  predicate RolloutFits(x: Inputs, name: Name, shape: Shape) {
    forall r :: 0 <= r < |x.rollout| && name in x.rollout[r] ==> ShardFits(x.rollout[r][name], shape)
  }

  predicate InTensor(shape: Shape, g: Index) {
    |g| == |shape| && forall d :: 0 <= d < |shape| ==> 0 <= g[d] < shape[d]
  }

  /** The policy's shards of the parameter tile the tensor: every element is covered, and ranks that
      cover a common element have the same descriptor. */
  ghost predicate PolicyTiles(x: Inputs, name: Name, shape: Shape) {
    && PolicyFits(x, name, shape)
    && forall g :: InTensor(shape, g) ==> CoveredOnce(x, name, shape, g)
  }

  ghost predicate CoveredOnce(x: Inputs, name: Name, shape: Shape, g: Index)
    requires PolicyFits(x, name, shape)
  {
    && (exists p: nat :: Covers(x, name, shape, p, g))
    && forall p: nat, q: nat :: Covers(x, name, shape, p, g) && Covers(x, name, shape, q, g) ==>
         x.policy[p][name] == x.policy[q][name]
  }

  /** The part of the local tensor that one side's entry for a message reads or writes. */
  function Part(x: Inputs, side: Side, m: Msg, shape: Shape): View
    requires IsTransfer(x, m) && PolicyFits(x, m.name, shape) && RolloutFits(x, m.name, shape)
  {
    var s := if side == Sender then x.policy[m.policy][m.name] else x.rollout[m.rollout][m.name];
    PartDefined(x, m, shape);
    SlicedView(View(seq(|shape|, _ => 0), LocalView(s, shape).extent), OpFor(x, side, m).strategy)
  }

  /** The slicing assertions hold on both sides. */
  lemma PartDefined(x: Inputs, m: Msg, shape: Shape)
    requires IsTransfer(x, m) && PolicyFits(x, m.name, shape) && RolloutFits(x, m.name, shape)
    ensures ShardFits(x.policy[m.policy][m.name], shape) && ShardFits(x.rollout[m.rollout][m.name], shape)
    ensures SliceDefined(LocalView(x.policy[m.policy][m.name], shape).extent, OpFor(x, Sender, m).strategy)
    ensures SliceDefined(LocalView(x.rollout[m.rollout][m.name], shape).extent, OpFor(x, Receiver, m).strategy)
  {
    var p, r := x.policy[m.policy][m.name], x.rollout[m.rollout][m.name];
    assert OpFor(x, Sender, m).strategy == PolicyPart(p, r);
    assert OpFor(x, Receiver, m).strategy == RolloutPart(p, r);
    PartsDefined(p, r, shape);
  }

  lemma PartsDefined(p: Shard, r: Shard, shape: Shape)
    requires Comparable(p, r) && Overlaps(p, r) && ShardFits(p, shape) && ShardFits(r, shape)
    ensures SliceDefined(LocalView(p, shape).extent, PolicyPart(p, r))
    ensures SliceDefined(LocalView(r, shape).extent, RolloutPart(p, r))
  {
    hide OverlapInfo, ComparableAt, Fits, Start, Count;
    forall d: nat | d < |shape|
      ensures Fits(At(PolicyPart(p, r), d), LocalView(p, shape).extent[d])
      ensures Fits(At(RolloutPart(p, r), d), LocalView(r, shape).extent[d])
    {
      TransferAt(p, r, shape, d);
    }
  }

  predicate InView(v: View, i: Index)
    requires |v.origin| == |v.extent|
  {
    |i| == |v.origin| && forall d :: 0 <= d < |i| ==> v.origin[d] <= i[d] < v.origin[d] + v.extent[d]
  }

  /** Position i of a rank's local tensor, as a global position. */
  function Global(s: Shard, shape: Shape, i: Index): Index
    requires ShardFits(s, shape) && |i| == |shape|
  {
    seq(|shape|, d requires 0 <= d < |shape| => LocalView(s, shape).origin[d] + i[d])
  }

  predicate InLocal(s: Shard, shape: Shape, i: Index)
    requires ShardFits(s, shape)
  {
    |i| == |shape| && forall d :: 0 <= d < |shape| ==> 0 <= i[d] < LocalView(s, shape).extent[d]
  }

  predicate Fitting(x: Inputs, name: Name, shape: Shape) {
    PolicyFits(x, name, shape) && RolloutFits(x, name, shape)
  }

  /** The receipt of message m writes position i of the rollout rank's tensor of that name. */
  predicate Writes(x: Inputs, m: Msg, name: Name, shape: Shape, i: Index)
    requires Fitting(x, name, shape)
  {
    m.name == name && IsTransfer(x, m) && InView(Part(x, Receiver, m, shape), i)
  }

  /** The global position of the value that message m brings to position i: the element of the
      policy's part that has the same place in the sent view as i has in the received one. */
  function Source(x: Inputs, m: Msg, shape: Shape, i: Index): Index
    requires IsTransfer(x, m) && Fitting(x, m.name, shape) && |i| == |shape|
  {
    var from, to := Part(x, Sender, m, shape), Part(x, Receiver, m, shape);
    PartDefined(x, m, shape);
    var at := LocalView(x.policy[m.policy][m.name], shape).origin;
    seq(|shape|, d requires 0 <= d < |shape| => at[d] + (i[d] - to.origin[d] + from.origin[d]))
  }

  /** How often a sequence of receipts writes a position. */
  function WriteCount(x: Inputs, ms: seq<Msg>, name: Name, shape: Shape, i: Index): nat
    requires Fitting(x, name, shape)
  {
    if ms == [] then 0
    else WriteCount(x, ms[..|ms| - 1], name, shape, i) + if Writes(x, ms[|ms| - 1], name, shape, i) then 1 else 0
  }

  /** What a position holds after a sequence of receipts, when the policies' tensors are the shards
      of the global tensor `weights`. */
  function Final<V>(x: Inputs, ms: seq<Msg>, name: Name, shape: Shape, weights: Index -> V, before: V, i: Index): V
    requires Fitting(x, name, shape) && |i| == |shape|
  {
    if ms == [] then before
    else
      var m := ms[|ms| - 1];
      if Writes(x, m, name, shape, i) then weights(Source(x, m, shape, i))
      else Final(x, ms[..|ms| - 1], name, shape, weights, before, i)
  }

  /** A transfer writes a position exactly when the policy's shard covers the corresponding global
      position. */
  lemma WritesIffCovered(x: Inputs, m: Msg, shape: Shape, i: Index)
    requires IsTransfer(x, m) && Fitting(x, m.name, shape)
    requires InLocal(x.rollout[m.rollout][m.name], shape, i)
    ensures Writes(x, m, m.name, shape, i) <==>
            InShard(x.policy[m.policy][m.name], shape, Global(x.rollout[m.rollout][m.name], shape, i))
  {
    var p, r := x.policy[m.policy][m.name], x.rollout[m.rollout][m.name];
    var g := Global(r, shape, i);
    var to := Part(x, Receiver, m, shape);
    assert |to.origin| == |shape|;
    forall d: nat | d < |shape|
      ensures to.origin[d] <= i[d] < to.origin[d] + to.extent[d] <==> InShardAt(p, shape, g[d], d)
    {
      WritesDim(x, m, shape, i, d);
    }
    hide Part, InShardAt, IsTransfer, Global, LocalView;
  }

  /** What a transfer brings to a position is the element at the same global position. */
  lemma SourceIsSame(x: Inputs, m: Msg, shape: Shape, i: Index)
    requires IsTransfer(x, m) && Fitting(x, m.name, shape)
    requires InLocal(x.rollout[m.rollout][m.name], shape, i)
    ensures Source(x, m, shape, i) == Global(x.rollout[m.rollout][m.name], shape, i)
  {
    var source, g := Source(x, m, shape, i), Global(x.rollout[m.rollout][m.name], shape, i);
    forall d: nat | d < |shape|
      ensures source[d] == g[d]
    {
      WritesDim(x, m, shape, i, d);
    }
    assert |source| == |g|;
  }

  lemma WritesDim(x: Inputs, m: Msg, shape: Shape, i: Index, d: nat)
    requires IsTransfer(x, m) && Fitting(x, m.name, shape) && d < |shape|
    requires InLocal(x.rollout[m.rollout][m.name], shape, i)
    ensures var p, r := x.policy[m.policy][m.name], x.rollout[m.rollout][m.name];
            var from, to := Part(x, Sender, m, shape), Part(x, Receiver, m, shape);
            var g := Global(r, shape, i);
            && (to.origin[d] <= i[d] < to.origin[d] + to.extent[d] <==> InShardAt(p, shape, g[d], d))
            && LocalView(p, shape).origin[d] + (i[d] - to.origin[d] + from.origin[d]) == g[d]
  {
    var p, r := x.policy[m.policy][m.name], x.rollout[m.rollout][m.name];
    var g := Global(r, shape, i);
    PartDim(x, m, shape, d);
    LocalInShard(r, shape, i, d);
    hide Part, PolicyPart, RolloutPart, IsTransfer, Count, Start, InShardAt;
    TransferSelects(p, r, shape, d, g[d]);
    assert g[d] == LocalView(r, shape).origin[d] + i[d];
  }

  lemma LocalInShard(s: Shard, shape: Shape, i: Index, d: nat)
    requires ShardFits(s, shape) && InLocal(s, shape, i) && d < |shape|
    ensures InShardAt(s, shape, Global(s, shape, i)[d], d)
  {
    assert Fits(At(s, d), shape[d]);
    assert LocalView(s, shape).extent[d] == Count(At(s, d), shape[d]);
  }

  /** The parts of a message, dimension by dimension. */
  lemma PartDim(x: Inputs, m: Msg, shape: Shape, d: nat)
    requires IsTransfer(x, m) && Fitting(x, m.name, shape) && d < |shape|
    ensures var p, r := x.policy[m.policy][m.name], x.rollout[m.rollout][m.name];
            && TransferDim(At(PolicyPart(p, r), d), At(RolloutPart(p, r), d), At(p, d), At(r, d), shape[d])
            && Part(x, Receiver, m, shape).origin[d] == Start(At(RolloutPart(p, r), d), Count(At(r, d), shape[d]))
            && Part(x, Receiver, m, shape).extent[d] == Count(At(RolloutPart(p, r), d), Count(At(r, d), shape[d]))
            && Part(x, Sender, m, shape).origin[d] == Start(At(PolicyPart(p, r), d), Count(At(p, d), shape[d]))
            && LocalView(p, shape).origin[d] == Start(At(p, d), shape[d])
            && LocalView(r, shape).origin[d] == Start(At(r, d), shape[d])
  {
    var p, r := x.policy[m.policy][m.name], x.rollout[m.rollout][m.name];
    TransferAt(p, r, shape, d);
  }

  // ---------- all messages to one rank ----------

  /** Rank p is the only one whose message writes position i of rank r's tensor. */
  ghost predicate OnlyWriter(x: Inputs, name: Name, shape: Shape, r: nat, i: Index, p: nat)
    requires Fitting(x, name, shape)
  {
    && Writes(x, Msg(name, p, r), name, shape, i)
    && forall q: nat :: Writes(x, Msg(name, q, r), name, shape, i) ==> q == p
  }

  lemma SameHolders(x: Inputs, name: Name, p: nat, q: nat)
    requires p < |x.policy| && q < |x.policy| && name in x.policy[p] && name in x.policy[q]
    requires x.policy[p][name] == x.policy[q][name]
    ensures DupRanks(x.policy, p, name) == DupRanks(x.policy, q, name)
  {
  }

  lemma GlobalInTensor(x: Inputs, name: Name, shape: Shape, r: nat, i: Index)
    requires r < |x.rollout| && name in x.rollout[r] && RolloutFits(x, name, shape)
    requires InLocal(x.rollout[r][name], shape, i)
    ensures InTensor(shape, Global(x.rollout[r][name], shape, i))
    ensures InShard(x.rollout[r][name], shape, Global(x.rollout[r][name], shape, i))
  {
    var s := x.rollout[r][name];
    forall d: nat | d < |shape|
      ensures 0 <= Global(s, shape, i)[d] < shape[d] && InShardAt(s, shape, Global(s, shape, i)[d], d)
    {
      LocalInShard(s, shape, i, d);
      assert Fits(At(s, d), shape[d]);
      SliceInBounds(At(s, d), shape[d]);
    }
  }

  /** The writer of a position is the server that the assignment picks among the policy ranks whose
      shard covers it. */
  lemma WriterIsServer(x: Inputs, name: Name, shape: Shape, r: nat, i: Index, c: nat, j: nat, q: nat)
    requires r < |x.rollout| && name in x.rollout[r]
    requires PolicyTiles(x, name, shape) && RolloutFits(x, name, shape)
    requires InLocal(x.rollout[r][name], shape, i)
    requires Covers(x, name, shape, c, Global(x.rollout[r][name], shape, i))
    requires DupRanks(x.policy, c, name) != []
    requires j < |DupRanks(x.rollout, r, name)| && DupRanks(x.rollout, r, name)[j] == r
    ensures Writes(x, Msg(name, q, r), name, shape, i) <==>
            q == ServerOf(DupRanks(x.policy, c, name), DupRanks(x.rollout, r, name), j)
  {
    var rs := x.rollout[r][name];
    var g := Global(rs, shape, i);
    var ps, rolls := DupRanks(x.policy, c, name), DupRanks(x.rollout, r, name);
    GlobalInTensor(x, name, shape, r, i);
    HoldersExactly(x.policy, name, x.policy[c][name], |x.policy|);
    HoldersExactly(x.rollout, name, rs, |x.rollout|);
    ServesExactlyOne(ps, rolls, j, q);
    assert CoveredOnce(x, name, shape, g);
    hide Part, Global, InLocal, Serves, ServerOf, HoldersBefore, InShard;
    if q == ServerOf(ps, rolls, j) {
      ServerIsMember(ps, rolls, j);
      assert q in ps && Holds(x.policy, q, name, x.policy[c][name]);
      SameHolders(x, name, q, c);
      CommonIndexOverlaps(x.policy[q][name], rs, shape, g);
      assert IsTransfer(x, Msg(name, q, r));
      WritesIffCovered(x, Msg(name, q, r), shape, i);
    }
    if Writes(x, Msg(name, q, r), name, shape, i) {
      WritesIffCovered(x, Msg(name, q, r), shape, i);
      assert Covers(x, name, shape, q, g);
      SameHolders(x, name, q, c);
    }
  }

  lemma ServerIsMember(policies: seq<nat>, rollouts: seq<nat>, j: nat)
    requires policies != [] && j < |rollouts|
    ensures ServerOf(policies, rollouts, j) in policies
  {
    if |policies| < |rollouts| {
      GroupIndexInRange(policies, rollouts, j);
    }
  }

  /** Exactly one policy rank writes a given position. */
  lemma ExactlyOneWriter(x: Inputs, name: Name, shape: Shape, r: nat, i: Index) returns (p: nat)
    requires r < |x.rollout| && name in x.rollout[r]
    requires PolicyTiles(x, name, shape) && RolloutFits(x, name, shape)
    requires InLocal(x.rollout[r][name], shape, i)
    ensures OnlyWriter(x, name, shape, r, i, p)
  {
    var g := Global(x.rollout[r][name], shape, i);
    GlobalInTensor(x, name, shape, r, i);
    assert CoveredOnce(x, name, shape, g);
    var c: nat :| Covers(x, name, shape, c, g);
    HolderIsDup(x.policy, c, name);
    HoldersExactly(x.rollout, name, x.rollout[r][name], |x.rollout|);
    assert Holds(x.rollout, r, name, x.rollout[r][name]);
    var rolls := DupRanks(x.rollout, r, name);
    assert r in rolls;
    var j: nat :| j < |rolls| && rolls[j] == r;
    p := ServerOf(DupRanks(x.policy, c, name), rolls, j);
    hide ServerOf, DupRanks, Writes, Covers, InLocal, Global;
    forall q: nat
      ensures Writes(x, Msg(name, q, r), name, shape, i) <==> q == p
    {
      WriterIsServer(x, name, shape, r, i, c, j, q);
    }
  }

  lemma {:induction false} CountConcat(x: Inputs, a: seq<Msg>, b: seq<Msg>, name: Name, shape: Shape, i: Index)
    requires Fitting(x, name, shape)
    ensures WriteCount(x, a + b, name, shape, i) == WriteCount(x, a, name, shape, i) + WriteCount(x, b, name, shape, i)
  {
    hide Writes;
    if b == [] {
      assert a + b == a;
    } else {
      assert (a + b)[..|a + b| - 1] == a + b[..|b| - 1];
      CountConcat(x, a, b[..|b| - 1], name, shape, i);
    }
  }

  lemma {:induction false} FinalConcat<V>(x: Inputs, a: seq<Msg>, b: seq<Msg>, name: Name, shape: Shape,
                                           weights: Index -> V, before: V, i: Index)
    requires Fitting(x, name, shape) && |i| == |shape|
    ensures Final(x, a + b, name, shape, weights, before, i) ==
            Final(x, b, name, shape, weights, Final(x, a, name, shape, weights, before, i), i)
  {
    hide Writes, Source;
    if b == [] {
      assert a + b == a;
    } else {
      assert (a + b)[..|a + b| - 1] == a + b[..|b| - 1];
      FinalConcat(x, a, b[..|b| - 1], name, shape, weights, before, i);
    }
  }

  /** The messages of one parameter to rank r: one of them writes the position, if it is that
      parameter's. */
  lemma {:induction false} LineWrites<V>(x: Inputs, name: Name, shape: Shape, r: nat, i: Index, p: nat, k: nat,
                                          weights: Index -> V, before: V)
    requires r < |x.rollout| && name in x.rollout[r] && k <= |x.policy|
    requires Fitting(x, name, shape) && InLocal(x.rollout[r][name], shape, i)
    requires OnlyWriter(x, name, shape, r, i, p)
    ensures WriteCount(x, Line(x, Receiver, name, r, k), name, shape, i) == if p < k then 1 else 0
    ensures Final(x, Line(x, Receiver, name, r, k), name, shape, weights, before, i) ==
            if p < k then weights(Global(x.rollout[r][name], shape, i)) else before
  {
    hide Writes, Source, Global, InLocal, OnlyWriter, Transfers;
    if k > 0 {
      LineWrites(x, name, shape, r, i, p, k - 1, weights, before);
      var m := Msg(name, k - 1, r);
      LastOfLine(x, name, shape, r, i, p, k - 1);
      var init := Line(x, Receiver, name, r, k - 1);
      assert (init + [m])[..|init|] == init;
    }
  }

  lemma LastOfLine(x: Inputs, name: Name, shape: Shape, r: nat, i: Index, p: nat, q: nat)
    requires r < |x.rollout| && name in x.rollout[r] && q < |x.policy|
    requires Fitting(x, name, shape) && InLocal(x.rollout[r][name], shape, i)
    requires OnlyWriter(x, name, shape, r, i, p)
    ensures Writes(x, Msg(name, q, r), name, shape, i) <==> q == p
    ensures q == p ==> IsTransfer(x, Msg(name, q, r)) &&
                       Source(x, Msg(name, q, r), shape, i) == Global(x.rollout[r][name], shape, i)
  {
    if q == p {
      WritesTransfers(x, Msg(name, q, r), name, shape, i);
      SourceIsSame(x, Msg(name, q, r), shape, i);
    }
  }

  lemma {:induction false} OtherLine<V>(x: Inputs, ms: seq<Msg>, name: Name, shape: Shape, i: Index,
                                         weights: Index -> V, before: V)
    requires Fitting(x, name, shape) && |i| == |shape| && forall m :: m in ms ==> m.name != name
    ensures WriteCount(x, ms, name, shape, i) == 0
    ensures Final(x, ms, name, shape, weights, before, i) == before
  {
    if ms != [] {
      OtherLine(x, ms[..|ms| - 1], name, shape, i, weights, before);
    }
  }

  /** The messages to rank r, for a list of parameters without repetitions. */
  lemma {:induction false} LinesWrite<V>(x: Inputs, names: seq<Name>, name: Name, shape: Shape, r: nat, i: Index,
                                          p: nat, weights: Index -> V, before: V)
    requires r < |x.rollout| && name in x.rollout[r] && Distinct(names)
    requires Fitting(x, name, shape) && InLocal(x.rollout[r][name], shape, i)
    requires OnlyWriter(x, name, shape, r, i, p)
    ensures WriteCount(x, Lines(x, Receiver, names, r), name, shape, i) == if name in names then 1 else 0
    ensures Final(x, Lines(x, Receiver, names, r), name, shape, weights, before, i) ==
            if name in names then weights(Global(x.rollout[r][name], shape, i)) else before
  {
    if names != [] {
      var init, last := names[..|names| - 1], names[|names| - 1];
      var line := FullLine(x, Receiver, last, r);
      LinesWrite(x, init, name, shape, r, i, p, weights, before);
      LastIsNew(names);
      var mid := Final(x, Lines(x, Receiver, init, r), name, shape, weights, before, i);
      if last == name {
        LineWrites(x, name, shape, r, i, p, |x.policy|, weights, mid);
      } else {
        LineMembers(x, Receiver, last, r, |x.policy|);
        OtherLine(x, line, name, shape, i, weights, mid);
      }
      hide Writes, Global, InLocal, Line, FullLine;
      CountConcat(x, Lines(x, Receiver, init, r), line, name, shape, i);
      FinalConcat(x, Lines(x, Receiver, init, r), line, name, shape, weights, before, i);
    }
  }

  // ---------- the synchronisation as a whole ----------

  lemma {:induction false} LooseExactly(x: Inputs, names: seq<Name>)
    requires Distinct(names)
    ensures forall n :: n in Loose(x, names) <==> n in names && n !in Grouped(x)
    ensures Distinct(Loose(x, names))
  {
    hide Grouped;
    if names != [] {
      LooseExactly(x, names[..|names| - 1]);
      LastIsNew(names);
    }
  }

  lemma {:induction false} MembersExactly(groups: seq<seq<Name>>, n: Name)
    ensures n in Flat(groups) <==> exists j :: 0 <= j < |groups| && n in groups[j]
  {
    if groups != [] {
      var init, last := groups[..|groups| - 1], groups[|groups| - 1];
      MembersExactly(init, n);
      assert Flat(groups) == Flat(init) + last;
      forall j | 0 <= j < |groups| && n in groups[j]
        ensures n in Flat(groups)
      {
        if j < |init| { assert n in init[j]; }
      }
      if n in last {
        assert n in groups[|groups| - 1];
      } else if n in Flat(groups) {
        var j :| 0 <= j < |init| && n in init[j];
        assert n in groups[j];
      }
    }
  }

  lemma ConcatDistinct(a: seq<Name>, b: seq<Name>)
    requires Distinct(a) && Distinct(b) && forall n :: n in a ==> n !in b
    ensures Distinct(a + b)
  {
    forall i, j | 0 <= i < j < |a + b|
      ensures (a + b)[i] != (a + b)[j]
    {
      if i < |a| <= j {
        assert a[i] in a && b[j - |a|] in b;
      }
    }
  }

  /** Every parameter a rank holds has exactly one place in the order of names. */
  lemma HeldOnce(x: Inputs, all: seq<Name>, r: nat, name: Name)
    requires CommonOrder(x, all) && Distinct(Flat(x.groups)) && r < |x.rollout| && name in x.rollout[r]
    ensures Distinct(NameOrder(x, all)) && name in NameOrder(x, all)
  {
    LooseExactly(x, all);
    MembersExactly(x.groups, name);
    forall n | n in Loose(x, all)
      ensures n !in Flat(x.groups)
    {
      MembersExactly(x.groups, n);
    }
    assert ListOk(x, Receiver, r, all);
    if name !in Grouped(x) {
      SublistMember(SortedNames(x, Receiver, r), all, name);
    } else {
      var j, n :| 0 <= j < |x.groups| && n in x.groups[j] && n == name;
      assert name in Flat(x.groups);
    }
    ConcatDistinct(Loose(x, all), Flat(x.groups));
  }

  /** The main theorem: the receive list of a rollout rank writes each position of each parameter it
      holds exactly once, and leaves there the policy's value of the same global position. */
  lemma SyncIsExact<V>(x: Inputs, all: seq<Name>, r: nat, name: Name, shape: Shape,
                       weights: Index -> V, before: V, i: Index)
    requires CommonOrder(x, all) && Distinct(Flat(x.groups))
    requires r < |x.rollout| && name in x.rollout[r]
    requires PolicyTiles(x, name, shape) && RolloutFits(x, name, shape)
    requires InLocal(x.rollout[r][name], shape, i)
    ensures var receipts := Messages(FlatPlan(Plan(x, Receiver, r)));
            && FlatPlan(Plan(x, Receiver, r)) == Ops(x, Receiver, receipts)
            && WriteCount(x, receipts, name, shape, i) == 1
            && Final(x, receipts, name, shape, weights, before, i) == weights(Global(x.rollout[r][name], shape, i))
  {
    var p := ExactlyOneWriter(x, name, shape, r, i);
    HeldOnce(x, all, r, name);
    PlanProjects(x, Receiver, r, all);
    BlocksProjection(x, Receiver, NameOrder(x, all), r);
    MessagesOfOps(x, Receiver, By(Receiver, GlobalOrder(x, all), r));
    hide Writes, Global, InLocal, Plan, NameOrder, Ops, OnlyWriter;
    LinesWrite(x, NameOrder(x, all), name, shape, r, i, p, weights, before);
  }

  /** With tiling policies, a rank that holds something non-empty of each of its parameters gets its
      list exactly when it holds a member of every parameter group. */
  lemma RecvSucceedsIff(x: Inputs, r: nat, shapes: map<Name, Shape>)
    requires r < |x.rollout|
    requires forall name :: name in x.rollout[r] ==> name in shapes && Sendable(x, r, name, shapes[name])
    ensures RecvOk(x, r) <==> forall j :: 0 <= j < |x.groups| ==> HoldsMember(x, r, x.groups[j])
  {
    forall name
      ensures !Starved(x, r, name)
    {
      if name in x.rollout[r] {
        assert Sendable(x, r, name, shapes[name]);
        NotStarved(x, r, name, shapes[name]);
      }
    }
    hide Starved, Sendable;
    assert forall j :: 0 <= j < |x.groups| ==> (GroupOk(x, r, x.groups[j]) <==> HoldsMember(x, r, x.groups[j]));
  }

  /** The policies tile the parameter and the rank's own shard of it has at least one element. */
  ghost predicate Sendable(x: Inputs, r: nat, name: Name, shape: Shape)
    requires r < |x.rollout| && name in x.rollout[r]
  {
    && PolicyTiles(x, name, shape) && RolloutFits(x, name, shape)
    && exists i :: InLocal(x.rollout[r][name], shape, i)
  }

  lemma NotStarved(x: Inputs, r: nat, name: Name, shape: Shape)
    requires r < |x.rollout| && name in x.rollout[r] && Sendable(x, r, name, shape)
    ensures !Starved(x, r, name)
  {
    var i :| InLocal(x.rollout[r][name], shape, i);
    var p := ExactlyOneWriter(x, name, shape, r, i);
    hide Writes, InLocal;
    assert IsTransfer(x, Msg(name, p, r)) by { WritesTransfers(x, Msg(name, p, r), name, shape, i); }
    TransferListed(x, name, r, p, |x.policy|);
  }

  lemma WritesTransfers(x: Inputs, m: Msg, name: Name, shape: Shape, i: Index)
    requires Fitting(x, name, shape) && Writes(x, m, name, shape, i)
    ensures IsTransfer(x, m)
  {
  }

  lemma {:induction false} TransferListed(x: Inputs, name: Name, r: nat, p: nat, k: nat)
    requires r < |x.rollout| && k <= |x.policy| && p < k && IsTransfer(x, Msg(name, p, r))
    ensures Insts(x, Receiver, name, r, k) != []
  {
    hide IsTransfer;
    if p < k - 1 {
      TransferListed(x, name, r, p, k - 1);
    }
  }

  /** One policy rank with parameters a and b, and two pipelined rollout ranks with one each; b is
      in a parameter group of its own. */
  function TwoStages(): RawInputs {
    RawInputs([map["a" := map[], "b" := map[]]], [map["a" := map[]], map["b" := map[]]],
              [["a", "b"]], [["a"], ["b"]], [0], [0, 1], [["b"]])
  }

  lemma TwoStagesValid()
    ensures Valid(TwoStages())
  {
    assert Comparable(map[], map[]);
  }

  lemma TwoStagesTransfer()
    ensures Valid(TwoStages()) && IsTransfer(TwoStages(), Msg("b", 0, 1))
  {
    TwoStagesValid();
    var x: Inputs := TwoStages();
    var whole: Shard := map[];
    assert HoldersBefore(x.rollout, "b", whole, 0) == [] && HoldersBefore(x.rollout, "b", whole, 1) == [];
    assert HoldersBefore(x.rollout, "b", whole, 2) == [1];
    assert HoldersBefore(x.policy, "b", whole, 0) == [];
    assert HoldersBefore(x.policy, "b", whole, 1) == [0];
    hide HoldersBefore;
    assert Pairs([0], [1], 0, 0, 1);
    assert Serves([0], [1], 0, 1);
    assert Overlaps(whole, whole);
  }

  /** The rank of the stage without a member of the group gets an error, though every parameter can
      be sent; the other rank gets its list. */
  lemma GroupOffStageFails()
    ensures Valid(TwoStages()) && !RecvOk(TwoStages(), 0) && RecvOk(TwoStages(), 1)
  {
    TwoStagesValid();
    var x: Inputs := TwoStages();
    TwoStagesTransfer();
    TransferListed(x, "b", 1, 0, 1);
    assert "b" in x.groups[0];
    assert "b" in Grouped(x);
    hide Insts;
    assert !HoldsMember(x, 0, x.groups[0]);
    assert !GroupOk(x, 0, x.groups[0]);
    assert HoldsMember(x, 1, x.groups[0]);
  }
}
