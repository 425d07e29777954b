/** Weight synchronisation between two meshes: shards computed from the ranks' numbering need no further
    hypothesis to be synchronised exactly. */
module MeshSync {
  import opened Arithmetic
  import opened Common
  import opened SliceInfo
  import opened ShardAssignment
  import opened ShardPlan
  import opened Rendezvous
  import opened SyncOrder
  import opened SyncExact
  import opened MeshNumbering
  import opened MeshTiles

  /** How a parameter lies on a mesh: the mesh dimensions that shard each of its dimensions, and its stage. */
  datatype Layout = Layout(dims: map<nat, seq<string>>, stage: nat)

  type Layouts = map<Name, Layout>

  // ---------- the shards of one rank ----------

  predicate Sliceable(dims: map<nat, seq<string>>, info: map<string, DimSlice>) {
    forall d :: d in dims ==> SliceAlong(dims[d], info).Ok?
  }

  function Slices(dims: map<nat, seq<string>>, info: map<string, DimSlice>): Shard
    requires Sliceable(dims, info)
  {
    map d | d in dims :: SliceAlong(dims[d], info).value
  }

  /** The parameter has a layout and lies on the stage of the rank. */
  predicate OnStage(layouts: Layouts, info: map<string, DimSlice>, name: Name) {
    name in layouts && "pp" in info && info["pp"].offset == layouts[name].stage
  }

  predicate AllSliceable(params: seq<Name>, layouts: Layouts, info: map<string, DimSlice>) {
    forall name :: name in params && OnStage(layouts, info, name) ==> Sliceable(layouts[name].dims, info)
  }

  /** What a rank holds of the listed parameters. */
  ghost predicate HoldsShards(params: seq<Name>, layouts: Layouts, info: map<string, DimSlice>, shards: map<Name, Shard>) {
    && (forall name :: name in shards <==> name in params && OnStage(layouts, info, name))
    && (forall name :: name in shards ==>
          Sliceable(layouts[name].dims, info) && shards[name] == Slices(layouts[name].dims, info))
  }

  /** The shards of a rank; a parameter of its stage that cannot be sliced raises. */
  method LocalShardInfoForParams(params: seq<Name>, layouts: Layouts, info: map<string, DimSlice>)
    returns (res: Outcome<map<Name, Shard>>)
    requires "pp" in info
    ensures res.Ok? <==> AllSliceable(params, layouts, info)
    ensures res.Ok? ==> HoldsShards(params, layouts, info, res.value)
  {
    var shards: map<Name, Shard> := map[];
    for i := 0 to |params|
      invariant HoldsShards(params[..i], layouts, info, shards)
      invariant AllSliceable(params[..i], layouts, info)
    {
      var name := params[i];
      assert params[..i + 1] == params[..i] + [name];
      if name in layouts && info["pp"].offset == layouts[name].stage {
        var shard := GenerateLocalShardInfo(layouts[name].dims, info);
        if shard.Error? {
          assert name in params && OnStage(layouts, info, name);
          return Error;
        }
        assert shard.value == Slices(layouts[name].dims, info);
        shards := shards[name := shard.value];
      }
    }
    assert params[..|params|] == params;
    res := Ok(shards);
  }

  /** Every rank of the mesh holds the shards of its place. */
  ghost predicate OnMesh(g: Degrees, params: seq<Name>, layouts: Layouts, infos: Infos)
    requires g.Ok()
  {
    && |infos| == World(g)
    && forall rank: nat :: rank < World(g) ==> HoldsShards(params, layouts, MeshRankInfo(g, PlaceOf(g, rank)), infos[rank])
  }

  /** The shards of all ranks, each from its own entry of the numbered mesh. */
  method ShardInfos(mesh: ParallelDims, params: seq<Name>, layouts: Layouts) returns (res: Outcome<Infos>)
    requires mesh.Numbered()
    ensures var g := mesh.Settled();
            res.Ok? <==> forall rank: nat :: rank < World(g) ==> AllSliceable(params, layouts, MeshRankInfo(g, PlaceOf(g, rank)))
    ensures res.Ok? ==> OnMesh(mesh.Settled(), params, layouts, res.value)
  {
    hide MeshRankInfo, PlaceOf, World, EntryOk, SizesOf, HoldsShards, AllSliceable;
    ghost var g := mesh.Settled();
    var infos: Infos := [];
    for rank := 0 to |mesh.fullRankInfo|
      invariant |infos| == rank && |mesh.fullRankInfo| == World(g)
      invariant forall r: nat :: r < rank ==>
        AllSliceable(params, layouts, MeshRankInfo(g, PlaceOf(g, r))) &&
        HoldsShards(params, layouts, MeshRankInfo(g, PlaceOf(g, r)), infos[r])
    {
      var info := mesh.GetFullMeshRankInfo(rank);
      StageKnown(g, PlaceOf(g, rank));
      var shards := LocalShardInfoForParams(params, layouts, info);
      if shards.Error? {
        return Error;
      }
      infos := infos + [shards.value];
    }
    res := Ok(infos);
  }

  lemma StageKnown(g: Degrees, c: Place)
    ensures "pp" in MeshRankInfo(g, c) && MeshRankInfo(g, c)["pp"].offset == c.stage
  {
  }

  // ---------- the shards of one parameter ----------

  /** The layout shards each dimension along one of the axes. */
  predicate Along(layout: Layout, axes: map<nat, Axis>) {
    axes.Keys == layout.dims.Keys && forall d :: d in axes ==> Names(layout.dims[d], axes[d])
  }

  /** The parameter is listed with a layout along independent axes, on a stage of the mesh. */
  predicate Sharded(g: Degrees, params: seq<Name>, layouts: Layouts, name: Name, axes: map<nat, Axis>) {
    && name in params && name in layouts && layouts[name].stage < g.pp
    && Along(layouts[name], axes) && Independent(axes)
  }

  /** Slicing along the axes gives the tiles of the place. */
  lemma SlicesAreTiles(g: Degrees, layout: Layout, axes: map<nat, Axis>, c: Place)
    requires Along(layout, axes)
    ensures Sliceable(layout.dims, MeshRankInfo(g, c)) && Slices(layout.dims, MeshRankInfo(g, c)) == ShardAt(g, axes, c)
  {
    hide MeshRankInfo, SliceAlong;
    forall d | d in layout.dims
      ensures SliceAlong(layout.dims[d], MeshRankInfo(g, c)) == Ok(Tile(g, axes[d], c))
    {
      SliceIsTile(g, layout.dims[d], axes[d], c);
    }
  }

  /** Exactly the ranks of the parameter's stage hold it, as the tile of their place. */
  lemma HeldOnStage(g: Degrees, params: seq<Name>, layouts: Layouts, infos: Infos, name: Name, axes: map<nat, Axis>, rank: nat)
    requires g.Ok() && OnMesh(g, params, layouts, infos) && Sharded(g, params, layouts, name, axes) && rank < World(g)
    ensures name in infos[rank] <==> PlaceOf(g, rank).stage == layouts[name].stage
    ensures name in infos[rank] ==> infos[rank][name] == ShardAt(g, axes, PlaceOf(g, rank))
  {
    hide MeshRankInfo, PlaceOf, World, ShardAt, Slices, Sliceable, Independent;
    StageKnown(g, PlaceOf(g, rank));
    SlicesAreTiles(g, layouts[name], axes, PlaceOf(g, rank));
    assert HoldsShards(params, layouts, MeshRankInfo(g, PlaceOf(g, rank)), infos[rank]);
  }

  /** The policy ranks tile the parameter. */
  lemma PoliciesTile(g: Degrees, params: seq<Name>, layouts: Layouts, x: Inputs, name: Name, axes: map<nat, Axis>, shape: Shape)
    requires g.Ok() && OnMesh(g, params, layouts, x.policy) && Sharded(g, params, layouts, name, axes) && Divisible(g, axes, shape)
    ensures PolicyTiles(x, name, shape)
  {
    hide ShardAt, PlaceOf, World, HoldsShards, PolicyTiles, Independent, Divisible;
    forall p: nat | p < |x.policy|
      ensures name in x.policy[p] <==> PlaceOf(g, p).stage == layouts[name].stage
      ensures name in x.policy[p] ==> x.policy[p][name] == ShardAt(g, axes, PlaceOf(g, p))
    {
      HeldOnStage(g, params, layouts, x.policy, name, axes, p);
    }
    MeshTilesTensor(x, name, g, layouts[name].stage, axes, shape);
  }

  lemma RolloutsFit(g: Degrees, params: seq<Name>, layouts: Layouts, x: Inputs, name: Name, axes: map<nat, Axis>, shape: Shape)
    requires g.Ok() && OnMesh(g, params, layouts, x.rollout) && Sharded(g, params, layouts, name, axes) && Divisible(g, axes, shape)
    ensures RolloutFits(x, name, shape)
  {
    hide ShardAt, PlaceOf, World, HoldsShards, Independent, Divisible, ShardFits;
    forall r: nat | r < |x.rollout| && name in x.rollout[r]
      ensures ShardFits(x.rollout[r][name], shape)
    {
      HeldOnStage(g, params, layouts, x.rollout, name, axes, r);
      RankOfPlace(g, r);
      TilesFit(g, axes, shape, PlaceOf(g, r));
    }
  }

  // ---------- comparable shards ----------

  function CountAlong(g: Degrees, axes: map<nat, Axis>, d: nat): nat {
    if d in axes then TileCount(g, axes[d]) else 1
  }

  /** In every dimension one side's number of tiles divides the other's. */
  predicate Nested(g: Degrees, axes: map<nat, Axis>, h: Degrees, others: map<nat, Axis>) {
    forall d :: d in axes.Keys + others.Keys ==>
      var a, b := CountAlong(g, axes, d), CountAlong(h, others, d);
      0 < a && 0 < b && (Divides(a, b) || Divides(b, a))
  }

  lemma TileWellFormed(g: Degrees, axes: map<nat, Axis>, c: Place, d: nat)
    requires g.Ok() && PlaceIn(g, c)
    ensures WellFormed(At(ShardAt(g, axes, c), d)) && At(ShardAt(g, axes, c), d).total == CountAlong(g, axes, d)
  {
    if d in axes {
      PlaceHolds(g, axes[d], c);
    }
  }

  lemma DividesMax(a: int, b: int)
    requires 0 < a && 0 < b && (Divides(a, b) || Divides(b, a))
    ensures Divides(a, Max(a, b)) && Divides(b, Max(a, b))
  {
    if Divides(a, b) {
      ExactDiv(b, a);
      if b < a { MulLe(b / a, 0, a); }
    } else {
      ExactDiv(a, b);
      if a < b { MulLe(a / b, 0, b); }
    }
  }

  /** Tiles of nested cuttings can be compared: the assertions of the slice algebra hold between them. */
  lemma NestedComparable(g: Degrees, axes: map<nat, Axis>, c: Place, h: Degrees, others: map<nat, Axis>, e: Place)
    requires g.Ok() && h.Ok() && PlaceIn(g, c) && PlaceIn(h, e) && Nested(g, axes, h, others)
    ensures Comparable(ShardAt(g, axes, c), ShardAt(h, others, e))
  {
    var p, r := ShardAt(g, axes, c), ShardAt(h, others, e);
    forall d | d in p.Keys + r.Keys
      ensures ComparableAt(p, r, d)
    {
      TileWellFormed(g, axes, c, d);
      TileWellFormed(h, others, e, d);
      DividesMax(CountAlong(g, axes, d), CountAlong(h, others, d));
    }
  }

  // ---------- the corollary ----------

  /** All parameters lie along independent axes, whose cuttings of the two meshes are nested. */
  ghost predicate AllNested(g: Degrees, params: seq<Name>, layouts: Layouts, h: Degrees, others: seq<Name>, layouts': Layouts,
                            axes: map<Name, map<nat, Axis>>, axes': map<Name, map<nat, Axis>>) {
    forall name :: name in params && name in layouts && name in others && name in layouts' ==>
      && name in axes && name in axes' && Sharded(g, params, layouts, name, axes[name])
      && Sharded(h, others, layouts', name, axes'[name]) && Nested(g, axes[name], h, axes'[name])
  }

  lemma HeldIsListed(g: Degrees, params: seq<Name>, layouts: Layouts, infos: Infos, name: Name, rank: nat)
    requires g.Ok() && OnMesh(g, params, layouts, infos) && rank < World(g) && name in infos[rank]
    ensures name in params && name in layouts
  {
    hide MeshRankInfo, PlaceOf, World;
    assert HoldsShards(params, layouts, MeshRankInfo(g, PlaceOf(g, rank)), infos[rank]);
  }

  /** Shards computed on two meshes with nested cuttings are valid inputs of the planner. */
  lemma MeshInputsValid(g: Degrees, params: seq<Name>, layouts: Layouts, h: Degrees, others: seq<Name>, layouts': Layouts,
                        axes: map<Name, map<nat, Axis>>, axes': map<Name, map<nat, Axis>>, x: RawInputs)
    requires g.Ok() && h.Ok() && OnMesh(g, params, layouts, x.policy) && OnMesh(h, others, layouts', x.rollout)
    requires AllNested(g, params, layouts, h, others, layouts', axes, axes')
    requires |x.stagePolicy| == |x.policy| && |x.stageRollout| == |x.rollout|
    requires forall p :: 0 <= p < |x.policy| ==> x.stagePolicy[p] < |x.sortedPolicy|
    requires forall r :: 0 <= r < |x.rollout| ==> x.stageRollout[r] < |x.sortedRollout|
    ensures Valid(x)
  {
    hide ShardAt, PlaceOf, World, HoldsShards, Sharded, Nested, Comparable;
    forall p, r, name | 0 <= p < |x.policy| && 0 <= r < |x.rollout| && name in x.policy[p] && name in x.rollout[r]
      ensures Comparable(x.policy[p][name], x.rollout[r][name])
    {
      HeldIsListed(g, params, layouts, x.policy, name, p);
      HeldIsListed(h, others, layouts', x.rollout, name, r);
      HeldOnStage(g, params, layouts, x.policy, name, axes[name], p);
      HeldOnStage(h, others, layouts', x.rollout, name, axes'[name], r);
      RankOfPlace(g, p);
      RankOfPlace(h, r);
      NestedComparable(g, axes[name], PlaceOf(g, p), h, axes'[name], PlaceOf(h, r));
    }
  }

  /** Two meshes, shards computed from their numberings, and a parameter whose layouts divide it: the receive
      list of every rollout rank of the parameter's stage writes each position of its shard exactly once, with
      the policy's value of the same global position. */
  lemma MeshSyncIsExact<V>(x: Inputs, g: Degrees, params: seq<Name>, layouts: Layouts, h: Degrees, others: seq<Name>, layouts': Layouts,
                           all: seq<Name>, r: nat, name: Name, axes: map<nat, Axis>, axes': map<nat, Axis>, shape: Shape,
                           weights: Index -> V, before: V, i: Index)
    requires g.Ok() && h.Ok() && OnMesh(g, params, layouts, x.policy) && OnMesh(h, others, layouts', x.rollout)
    requires CommonOrder(x, all) && Distinct(Flat(x.groups))
    requires Sharded(g, params, layouts, name, axes) && Divisible(g, axes, shape)
    requires Sharded(h, others, layouts', name, axes') && Divisible(h, axes', shape)
    requires r < World(h)
    ensures name in x.rollout[r] <==> PlaceOf(h, r).stage == layouts'[name].stage
    ensures name in x.rollout[r] ==>
            x.rollout[r][name] == ShardAt(h, axes', PlaceOf(h, r)) && ShardFits(x.rollout[r][name], shape)
    ensures name in x.rollout[r] && InLocal(x.rollout[r][name], shape, i) ==>
            var receipts := Messages(FlatPlan(Plan(x, Receiver, r)));
            && FlatPlan(Plan(x, Receiver, r)) == Ops(x, Receiver, receipts)
            && PolicyFits(x, name, shape) && RolloutFits(x, name, shape)
            && WriteCount(x, receipts, name, shape, i) == 1
            && Final(x, receipts, name, shape, weights, before, i) == weights(Global(x.rollout[r][name], shape, i))
  {
    hide ShardAt, PlaceOf, World, HoldsShards, Sharded, Divisible, CommonOrder, Global, WriteCount, Final, Plan,
      InLocal, ShardFits;
    HeldOnStage(h, others, layouts', x.rollout, name, axes', r);
    PoliciesTile(g, params, layouts, x, name, axes, shape);
    RolloutsFit(h, others, layouts', x, name, axes', shape);
    if name in x.rollout[r] && InLocal(x.rollout[r][name], shape, i) {
      SyncIsExact(x, all, r, name, shape, weights, before, i);
    }
  }
}
