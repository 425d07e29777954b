/** The parallel dimensions of a replica, and the shards that its mesh dimensions define. */
module MeshTiles {
  import opened Arithmetic
  import opened Common
  import opened SliceInfo
  import opened ShardPlan
  import opened MeshNumbering
  import opened SyncExact

  /** Degrees of parallelism after validation. */
  datatype Degrees = Degrees(pp: nat, dpReplicate: nat, dpShard: nat, cp: nat, tp: nat)
  {
    predicate Ok() {
      0 < pp && 0 < dpReplicate && 0 < dpShard && 0 < cp && 0 < tp
    }

    function Sizes(): seq<nat> {
      [pp, dpReplicate, dpShard, cp, tp]
    }

    /** Size of the fused dimension "dp_shard_cp". */
    function ShardCp(): nat {
      dpShard * cp
    }
  }

  /** The coordinates that matter for sharding: stage, replica, fused dp_shard_cp rank, tp rank. */
  datatype Place = Place(stage: nat, replica: nat, shard: nat, tp: nat)

  predicate PlaceIn(g: Degrees, c: Place) {
    c.stage < g.pp && c.replica < g.dpReplicate && c.shard < g.ShardCp() && c.tp < g.tp
  }

  function RankAt(g: Degrees, c: Place): nat {
    ((c.stage * g.dpReplicate + c.replica) * g.ShardCp() + c.shard) * g.tp + c.tp
  }

  /** The place of a rank, from its five coordinates. */
  function PlaceOf(g: Degrees, rank: nat): Place
    requires g.Ok()
  {
    var ds := Digits(g.Sizes(), rank);
    Place(ds[0], ds[1], ds[2] * g.cp + ds[3], ds[4])
  }

  function World(g: Degrees): nat {
    Suffix(g.Sizes(), 0)
  }

  lemma WorldIs(g: Degrees)
    ensures World(g) == g.pp * (g.dpReplicate * (g.ShardCp() * g.tp))
  {
    var s := g.Sizes();
    assert Suffix(s, 5) == 1 && Suffix(s, 4) == g.tp && Suffix(s, 3) == g.cp * g.tp;
    assert Suffix(s, 2) == g.dpShard * (g.cp * g.tp);
    assert g.dpShard * (g.cp * g.tp) == g.ShardCp() * g.tp;
    assert Suffix(s, 1) == g.dpReplicate * (g.ShardCp() * g.tp);
  }

  /** Every rank has a place inside the mesh, and it is the rank at that place. */
  lemma RankOfPlace(g: Degrees, rank: nat)
    requires g.Ok() && rank < World(g)
    ensures PlaceIn(g, PlaceOf(g, rank)) && RankAt(g, PlaceOf(g, rank)) == rank
  {
    var s := g.Sizes();
    var ds := Digits(s, rank);
    ValueOfDigits(s, rank, 5);
    assert Suffix(s, 5) == 1;
    DivIs(rank, 1, rank);
    DigitsInBox(s, rank);
    FusedValue(g, ds);
  }

  lemma DigitsInBox(sizes: seq<nat>, rank: nat)
    requires Positive(sizes)
    ensures InBox(sizes, Digits(sizes, rank))
  {
  }

  /** The fused place and the five coordinates number the ranks alike. */
  lemma FusedValue(g: Degrees, ds: seq<nat>)
    requires g.Ok() && InBox(g.Sizes(), ds)
    ensures var c := Place(ds[0], ds[1], ds[2] * g.cp + ds[3], ds[4]);
            PlaceIn(g, c) && Value(g.Sizes(), ds, 5) == RankAt(g, c)
  {
    var s := g.Sizes();
    assert Value(s, ds, 1) == ds[0];
    var v := ds[0] * g.dpReplicate + ds[1];
    assert Value(s, ds, 2) == v;
    assert Value(s, ds, 3) == v * g.dpShard + ds[2];
    assert Value(s, ds, 4) == (v * g.dpShard + ds[2]) * g.cp + ds[3];
    assert (v * g.dpShard + ds[2]) * g.cp == v * (g.dpShard * g.cp) + ds[2] * g.cp;
    MulLe(ds[2] + 1, g.dpShard, g.cp);
    assert (ds[2] + 1) * g.cp == ds[2] * g.cp + g.cp;
  }

  /** And every place inside the mesh is the place of its rank. */
  lemma PlaceOfRank(g: Degrees, c: Place)
    requires g.Ok() && PlaceIn(g, c)
    ensures RankAt(g, c) < World(g) && PlaceOf(g, RankAt(g, c)) == c
  {
    var s := g.Sizes();
    var ds := [c.stage, c.replica, c.shard / g.cp, c.shard % g.cp, c.tp];
    DivMod(c.shard, g.cp);
    DivBelow(c.shard, g.cp, g.dpShard);
    assert InBox(s, ds);
    FusedValue(g, ds);
    DigitsOfValue(s, ds, 0);
    assert Digits(s, RankAt(g, c)) == ds;
    ValueBelow(s, ds, 5);
    assert Suffix(s, 5) == 1;
  }

  // ---------- the object that holds the degrees and the coordinates ----------

  /** The degree of sharding that validation settles on: -1 asks for what fills the world. */
  function ResolvedShard(dpShard: int, others: int, world: int): int
    requires 0 < others
  {
    if dpShard < 0 then FloorDiv(world, others) else dpShard
  }

  /** Exactly when validation succeeds (without expert parallelism). */
  predicate Acceptable(dpReplicate: int, dpShard: int, cp: int, tp: int, pp: int, world: int) {
    && 1 <= dpReplicate && 1 <= cp && 1 <= tp && 1 <= pp
    && (dpShard == -1 || 1 <= dpShard)
    && 0 < dpReplicate * cp * tp * pp
    && var shard := ResolvedShard(dpShard, dpReplicate * cp * tp * pp, world);
    1 <= shard && dpReplicate * shard * cp * tp * pp == world && !(pp > 1 && dpReplicate > 1)
  }

  class ParallelDims {
    const dpReplicate: int
    var dpShard: int
    const cp: int
    const tp: int
    const pp: int
    const world: int
    var fullRankInfo: seq<RankInfo>
    var fullWorldSizeInfo: map<string, int>

    constructor (dpReplicate: int, dpShard: int, cp: int, tp: int, pp: int, world: int)
      ensures this.dpReplicate == dpReplicate && this.dpShard == dpShard && this.cp == cp && this.tp == tp
      ensures this.pp == pp && this.world == world
    {
      this.dpReplicate, this.dpShard, this.cp, this.tp := dpReplicate, dpShard, cp, tp;
      this.pp, this.world, fullRankInfo, fullWorldSizeInfo := pp, world, [], map[];
    }

    /** Checks the degrees and settles the sharding degree; false stands for a raised error. */
    method Validate() returns (ok: bool)
      modifies this`dpShard
      ensures ok == Acceptable(dpReplicate, old(dpShard), cp, tp, pp, world)
      ensures ok ==> dpShard == ResolvedShard(old(dpShard), dpReplicate * cp * tp * pp, world)
    {
      if !(1 <= dpReplicate && 1 <= cp && 1 <= tp && 1 <= pp) || !(dpShard == -1 || 1 <= dpShard) {
        return false;
      }
      MulLt(0, dpReplicate, cp);
      MulLt(0, dpReplicate * cp, tp);
      MulLt(0, dpReplicate * cp * tp, pp);
      if dpShard < 0 {
        dpShard := FloorDiv(world, dpReplicate * cp * tp * pp);
      }
      ok := 1 <= dpShard && dpReplicate * dpShard * cp * tp * pp == world && !(pp > 1 && dpReplicate > 1);
    }

    /** The degrees, once validated. */
    function Settled(): Degrees
      reads this`dpShard
      requires 0 <= pp && 0 <= dpReplicate && 0 <= dpShard && 0 <= cp && 0 <= tp
    {
      Degrees(pp, dpReplicate, dpShard, cp, tp)
    }

    /** Every rank's entry names its coordinates and its fused ranks; the sizes are those of the dimensions. */
    ghost predicate Numbered()
      reads this
    {
      && 0 < pp && 0 < dpReplicate && 0 < dpShard && 0 < cp && 0 < tp
      && |fullRankInfo| == World(Settled()) && fullWorldSizeInfo == SizesOf(Settled())
      && forall rank :: 0 <= rank < |fullRankInfo| ==> EntryOk(Settled(), fullRankInfo[rank], rank)
    }

    method BuildMeshInfo()
      requires 0 < pp && 0 < dpReplicate && 0 < dpShard && 0 < cp && 0 < tp
      modifies this`fullRankInfo, this`fullWorldSizeInfo
      ensures Numbered()
    {
      hide EntryOk, Fuse, PlaceOf, HasCoordinates, HasDigits, Digits;
      var info := BuildCoordinates([pp, dpReplicate, dpShard, cp, tp]);
      ghost var g := Settled();
      ghost var coords := info;
      assert g.Sizes() == [pp, dpReplicate, dpShard, cp, tp];
      for rank := 0 to |info|
        invariant |info| == |coords| == World(g)
        invariant forall d :: 0 <= d < rank ==> EntryOk(g, info[d], d)
        invariant forall d :: rank <= d < |info| ==> info[d] == coords[d]
      {
        CoordinatesGivePlace(g, coords, rank);
        var e := info[rank];
        CoordinatesThere(g, e, rank);
        var fused := Fuse(e, dpReplicate, dpShard, cp, tp);
        FusedEntryOk(g, e, rank);
        info := info[rank := fused];
      }
      assert dpReplicate * dpShard * cp * tp == g.dpReplicate * g.ShardCp() * g.tp;
      fullRankInfo := info;
      fullWorldSizeInfo := map["pp" := pp, "dp_replicate" := dpReplicate, "dp_shard" := dpShard, "cp" := cp, "tp" := tp,
        "dp_shard_cp" := dpShard * cp, "dp" := dpReplicate * dpShard, "dp_cp_tp" := dpReplicate * dpShard * cp * tp,
        "pp_cp_tp" := cp * tp * pp];
    }

    /** A dimension that was not numbered raises. */
    function GetRankInDim(dim: string, rank: nat): Outcome<int>
      requires rank < |fullRankInfo|
      reads this`fullRankInfo
    {
      if dim in fullRankInfo[rank] then Ok(fullRankInfo[rank][dim]) else Error
    }

    function GetSizeInDim(dim: string): Outcome<int>
      reads this`fullWorldSizeInfo
    {
      if dim in fullWorldSizeInfo then Ok(fullWorldSizeInfo[dim]) else Error
    }

    /** The slices that the mesh dimensions make a rank hold are those of its place. */
    method GetFullMeshRankInfo(rank: nat) returns (info: map<string, DimSlice>)
      requires Numbered() && rank < |fullRankInfo|
      ensures info == MeshRankInfo(Settled(), PlaceOf(Settled(), rank))
    {
      var dims := ["tp", "dp_shard_cp", "dp_cp_tp", "pp"];
      var g := Settled();
      EntrySlices(g, fullRankInfo[rank], rank);
      info := map[];
      for i := 0 to |dims|
        invariant info == SlicesIn(fullRankInfo[rank], fullWorldSizeInfo, dims[..i])
      {
        assert dims[i] in fullRankInfo[rank] && dims[i] in fullWorldSizeInfo;
        info := info[dims[i] := DimSlice(GetRankInDim(dims[i], rank).value, GetSizeInDim(dims[i]).value, dims[i], 1)];
        assert dims[..i + 1] == dims[..i] + [dims[i]];
      }
      assert dims[..|dims|] == dims;
    }
  }

  function SlicesIn(e: RankInfo, sizes: map<string, int>, dims: seq<string>): map<string, DimSlice> {
    map dim | dim in dims && dim in e && dim in sizes :: DimSlice(e[dim], sizes[dim], dim, 1)
  }

  /** The entry holds the five coordinates of the rank. */
  predicate HasCoordinates(g: Degrees, e: RankInfo, rank: nat)
    requires g.Ok()
  {
    var ds := Digits(g.Sizes(), rank);
    && "pp" in e && "dp_replicate" in e && "dp_shard" in e && "cp" in e && "tp" in e
    && e["pp"] == ds[0] && e["dp_replicate"] == ds[1] && e["dp_shard"] == ds[2] && e["cp"] == ds[3] && e["tp"] == ds[4]
  }

  lemma CoordinatesThere(g: Degrees, e: RankInfo, rank: nat)
    requires g.Ok() && HasCoordinates(g, e, rank)
    ensures "pp" in e && "dp_replicate" in e && "dp_shard" in e && "cp" in e && "tp" in e
  {
  }

  lemma CoordinatesGivePlace(g: Degrees, info: seq<RankInfo>, rank: nat)
    requires g.Ok() && HasDigits(info, g.Sizes(), 5) && rank < |info|
    ensures HasCoordinates(g, info[rank], rank)
  {
    var s := g.Sizes();
    assert forall i :: 0 <= i < 5 ==> DIMS[i] in info[rank] && info[rank][DIMS[i]] == Digit(s, i, rank);
    assert DIMS[0] == "pp" && DIMS[1] == "dp_replicate" && DIMS[2] == "dp_shard" && DIMS[3] == "cp" && DIMS[4] == "tp";
  }

  /** Adds the fused ranks to an entry. */
  function Fuse(e: RankInfo, dpReplicate: int, dpShard: int, cp: int, tp: int): RankInfo
    requires "dp_replicate" in e && "dp_shard" in e && "cp" in e && "tp" in e && "pp" in e
  {
    e["dp_cp_tp" := e["dp_replicate"] * dpShard * cp * tp + e["dp_shard"] * cp * tp + e["cp"] * tp + e["tp"]]
     ["dp_shard_cp" := e["dp_shard"] * cp + e["cp"]]
     ["dp" := e["dp_replicate"] * dpShard + e["dp_shard"]]
     ["pp_cp_tp" := e["pp"] * tp * cp + e["cp"] * tp + e["tp"]]
  }

  /** Sizes of the dimensions and of the fused ones. */
  function SizesOf(g: Degrees): map<string, int> {
    map["pp" := g.pp, "dp_replicate" := g.dpReplicate, "dp_shard" := g.dpShard, "cp" := g.cp, "tp" := g.tp,
        "dp_shard_cp" := g.ShardCp(), "dp" := g.dpReplicate * g.dpShard, "dp_cp_tp" := g.dpReplicate * g.ShardCp() * g.tp,
        "pp_cp_tp" := g.cp * g.tp * g.pp]
  }

  /** The fused ranks are the partial numbers of their dimensions: what is left of the rank's own number when
      the dimensions after them and before them are divided out. The dimensions of pp_cp_tp are not
      neighbours; it is the stage followed by the number within (cp, tp). */
  predicate FusedNumbers(g: Degrees, e: RankInfo, rank: nat)
    requires g.Ok()
  {
    && "dp" in e && "dp_shard_cp" in e && "dp_cp_tp" in e && "pp_cp_tp" in e
    && 0 < g.cp * g.tp && 0 < g.dpReplicate * g.dpShard && 0 < g.ShardCp() && 0 < g.dpReplicate * g.ShardCp() * g.tp
    && e["dp"] == rank / (g.cp * g.tp) % (g.dpReplicate * g.dpShard)
    && e["dp_shard_cp"] == rank / g.tp % g.ShardCp()
    && e["dp_cp_tp"] == rank % (g.dpReplicate * g.ShardCp() * g.tp)
    && e["pp_cp_tp"] == rank / (g.dpReplicate * g.ShardCp() * g.tp) * (g.cp * g.tp) + rank % (g.cp * g.tp)
  }

  /** The entry of a rank: its coordinates and its fused ranks, which are also those of its place. */
  predicate EntryOk(g: Degrees, e: RankInfo, rank: nat)
    requires g.Ok()
  {
    var c := PlaceOf(g, rank);
    && HasCoordinates(g, e, rank) && FusedNumbers(g, e, rank)
    && e["pp"] == c.stage && e["tp"] == c.tp && e["dp_shard_cp"] == c.shard
    && e["dp_cp_tp"] == (c.replica * g.ShardCp() + c.shard) * g.tp + c.tp
  }

  lemma FusedEntryOk(g: Degrees, e: RankInfo, rank: nat)
    requires g.Ok() && HasCoordinates(g, e, rank) && rank < World(g)
    ensures EntryOk(g, Fuse(e, g.dpReplicate, g.dpShard, g.cp, g.tp), rank)
  {
    PartialNumbers(g, rank);
    hide Digits, World;
    var ds := Digits(g.Sizes(), rank);
    var f := Fuse(e, g.dpReplicate, g.dpShard, g.cp, g.tp);
    FusedProducts(ds[0], ds[1], g.dpShard, ds[2], g.cp, ds[3], g.tp, ds[4]);
    assert HasCoordinates(g, f, rank);
  }

  lemma FusedProducts(p: nat, r: nat, dpShard: nat, s: nat, cp: nat, c: nat, tp: nat, t: nat)
    ensures (r * (dpShard * cp) + (s * cp + c)) * tp + t == r * dpShard * cp * tp + s * cp * tp + c * tp + t
    ensures p * tp * cp + c * tp + t == p * (cp * tp) + (c * tp + t)
  {
    assert (r * (dpShard * cp) + (s * cp + c)) * tp == r * (dpShard * cp) * tp + (s * cp + c) * tp;
    assert r * (dpShard * cp) * tp == r * dpShard * cp * tp;
    assert (s * cp + c) * tp == s * cp * tp + c * tp;
    assert p * tp * cp == p * (cp * tp);
  }

  /** A number with three digits, without the first one. */
  lemma MiddleNumber(top: nat, hi: nat, h: nat, lo: nat, l: nat)
    requires hi < h && lo < l
    ensures 0 < h * l && ((top * h + hi) * l + lo) % (h * l) == hi * l + lo && ((top * h + hi) * l + lo) / (h * l) == top
  {
    TwoDigits(hi, lo, h, l);
    assert (top * h + hi) * l + lo == top * (h * l) + (hi * l + lo);
    DivIs((top * h + hi) * l + lo, h * l, top);
  }

  /** The numbers of the first coordinates, for the five dimensions. */
  lemma PrefixNumbers(g: Degrees, rank: nat)
    requires g.Ok() && rank < World(g)
    ensures var ds := Digits(g.Sizes(), rank);
            var v3 := (ds[0] * g.dpReplicate + ds[1]) * g.dpShard + ds[2];
            && InBox(g.Sizes(), ds) && 0 < g.cp * g.tp && rank / (g.cp * g.tp) == v3 && rank / g.tp == v3 * g.cp + ds[3]
            && rank == (v3 * g.cp + ds[3]) * g.tp + ds[4]
  {
    var s := g.Sizes();
    var ds := Digits(s, rank);
    DigitsInBox(s, rank);
    assert Suffix(s, 5) == 1 && Suffix(s, 4) == g.tp && Suffix(s, 3) == g.cp * g.tp;
    assert Value(s, ds, 1) == ds[0];
    assert Value(s, ds, 2) == ds[0] * g.dpReplicate + ds[1];
    assert Value(s, ds, 3) == (ds[0] * g.dpReplicate + ds[1]) * g.dpShard + ds[2];
    hide Digits, World;
    ValueOfDigits(s, rank, 3);
    ValueOfDigits(s, rank, 4);
    ValueOfDigits(s, rank, 5);
    DivIs(rank, 1, rank);
  }

  /** Each partial number is what division by the size of the other dimensions leaves. */
  lemma PartialNumbers(g: Degrees, rank: nat)
    requires g.Ok() && rank < World(g)
    ensures var ds := Digits(g.Sizes(), rank);
            && 0 < g.cp * g.tp && 0 < g.dpReplicate * g.dpShard && 0 < g.ShardCp() && 0 < g.dpReplicate * g.ShardCp() * g.tp
            && rank / (g.cp * g.tp) % (g.dpReplicate * g.dpShard) == ds[1] * g.dpShard + ds[2]
            && rank / g.tp % g.ShardCp() == ds[2] * g.cp + ds[3]
            && rank % (g.dpReplicate * g.ShardCp() * g.tp) == (ds[1] * g.ShardCp() + (ds[2] * g.cp + ds[3])) * g.tp + ds[4]
            && rank / (g.dpReplicate * g.ShardCp() * g.tp) == ds[0]
            && rank % (g.cp * g.tp) == ds[3] * g.tp + ds[4]
  {
    PrefixNumbers(g, rank);
    var ds := Digits(g.Sizes(), rank);
    assert ds[1] < g.dpReplicate && ds[2] < g.dpShard && ds[3] < g.cp && ds[4] < g.tp;
    hide Digits, World;
    var v2 := ds[0] * g.dpReplicate + ds[1];
    MiddleNumber(ds[0], ds[1], g.dpReplicate, ds[2], g.dpShard);
    MiddleNumber(v2, ds[2], g.dpShard, ds[3], g.cp);
    MiddleNumber(v2 * g.dpShard + ds[2], ds[3], g.cp, ds[4], g.tp);
    StageAndRest(ds[0], ds[1], g.dpReplicate, ds[2], g.dpShard, ds[3], g.cp, ds[4], g.tp);
  }

  lemma Regroup(v: nat, s: nat, dpShard: nat, c: nat, cp: nat)
    ensures (v * dpShard + s) * cp + c == v * (dpShard * cp) + (s * cp + c)
  {
    assert (v * dpShard + s) * cp == v * dpShard * cp + s * cp;
  }

  lemma StageAndRest(stage: nat, r: nat, reps: nat, s: nat, dpShard: nat, c: nat, cp: nat, t: nat, tp: nat)
    requires r < reps && s < dpShard && c < cp && t < tp
    ensures var rank := (((stage * reps + r) * dpShard + s) * cp + c) * tp + t;
            && 0 < reps * (dpShard * cp) * tp
            && rank % (reps * (dpShard * cp) * tp) == (r * (dpShard * cp) + (s * cp + c)) * tp + t
            && rank / (reps * (dpShard * cp) * tp) == stage
  {
    TwoDigits(s, c, dpShard, cp);
    Regroup(stage * reps + r, s, dpShard, c, cp);
    WithoutStage(stage, r, reps, s * cp + c, dpShard * cp, t, tp);
  }

  lemma WithoutStage(stage: nat, r: nat, reps: nat, a: nat, shards: nat, t: nat, tp: nat)
    requires r < reps && a < shards && t < tp
    ensures 0 < reps * shards * tp
    ensures (((stage * reps + r) * shards + a) * tp + t) % (reps * shards * tp) == (r * shards + a) * tp + t
    ensures (((stage * reps + r) * shards + a) * tp + t) / (reps * shards * tp) == stage
  {
    TwoDigits(r, a, reps, shards);
    assert (stage * reps + r) * shards + a == stage * (reps * shards) + (r * shards + a);
    MiddleNumber(stage, r * shards + a, reps * shards, t, tp);
  }

  /** The entry of a rank holds the slices of its place. */
  lemma EntrySlices(g: Degrees, e: RankInfo, rank: nat)
    requires g.Ok() && EntryOk(g, e, rank)
    ensures var dims := ["tp", "dp_shard_cp", "dp_cp_tp", "pp"];
            && (forall dim :: dim in dims ==> dim in e && dim in SizesOf(g))
            && SlicesIn(e, SizesOf(g), dims) == MeshRankInfo(g, PlaceOf(g, rank))
  {
  }

  /** Leaving the sharding degree open works exactly when the other degrees divide the world. */
  lemma OpenShardAccepted(dpReplicate: int, cp: int, tp: int, pp: int, world: int)
    requires 1 <= dpReplicate && 1 <= cp && 1 <= tp && 1 <= pp && !(pp > 1 && dpReplicate > 1)
    ensures 0 < dpReplicate * cp * tp * pp
    ensures Acceptable(dpReplicate, -1, cp, tp, pp, world) <==> 0 < world && Divides(dpReplicate * cp * tp * pp, world)
  {
    MulLt(0, dpReplicate, cp);
    MulLt(0, dpReplicate * cp, tp);
    MulLt(0, dpReplicate * cp * tp, pp);
    var others := dpReplicate * cp * tp * pp;
    var q := world / others;
    DivMod(world, others);
    assert dpReplicate * q * cp * tp * pp == q * others;
    if 1 <= q { MulLe(1, q, others); } else { MulLe(q, 0, others); }
  }

  // ---------- shards along mesh dimensions ----------

  /** What one tensor dimension can be sharded by: tp, dp_shard_cp, both merged, or dp_cp_tp. */
  datatype Axis = Tp | DpShardCp | Merged | DpCpTp

  /** Into how many tiles an axis cuts a tensor dimension. */
  function TileCount(g: Degrees, axis: Axis): nat {
    match axis
    case Tp => g.tp
    case DpShardCp => g.ShardCp()
    case Merged => g.tp * g.ShardCp()
    case DpCpTp => g.dpReplicate * g.ShardCp() * g.tp
  }

  /** Which of the tiles the rank at a place holds. */
  function TileAt(g: Degrees, axis: Axis, c: Place): nat {
    match axis
    case Tp => c.tp
    case DpShardCp => c.shard
    case Merged => c.tp * g.ShardCp() + c.shard
    case DpCpTp => (c.replica * g.ShardCp() + c.shard) * g.tp + c.tp
  }

  /** A place on the given stage whose rank holds the given tile; the copies are numbered. */
  function Holder(g: Degrees, axis: Axis, stage: nat, tile: nat, copy: nat): Place
    requires g.Ok()
  {
    var a := g.ShardCp();
    assert 0 < a by { MulLt(0, g.dpShard, g.cp); }
    match axis
    case Tp => DivMono(0, copy, a); Place(stage, copy / a, copy % a, tile)
    case DpShardCp => DivMono(0, copy, g.tp); Place(stage, copy / g.tp, tile, copy % g.tp)
    case Merged => DivMono(0, tile, a); Place(stage, copy, tile % a, tile / a)
    case DpCpTp =>
      DivMono(0, tile, g.tp);
      DivMono(0, tile / g.tp, a);
      Place(stage, tile / g.tp / a, tile / g.tp % a, tile % g.tp)
  }

  function Copies(g: Degrees, axis: Axis): nat {
    match axis
    case Tp => g.dpReplicate * g.ShardCp()
    case DpShardCp => g.dpReplicate * g.tp
    case Merged => g.dpReplicate
    case DpCpTp => 1
  }

  /** Which copy of its tile the rank at a place is. */
  function CopyAt(g: Degrees, axis: Axis, c: Place): nat {
    match axis
    case Tp => c.replica * g.ShardCp() + c.shard
    case DpShardCp => c.replica * g.tp + c.tp
    case Merged => c.replica
    case DpCpTp => 0
  }

  /** Combining two digits, and taking them apart again. */
  lemma TwoDigits(hi: nat, lo: nat, h: nat, l: nat)
    requires hi < h && lo < l
    ensures hi * l + lo < h * l && (hi * l + lo) / l == hi && (hi * l + lo) % l == lo
  {
    DivIs(hi * l + lo, l, hi);
    MulLe(hi + 1, h, l);
    assert (hi + 1) * l == hi * l + l;
  }

  lemma SplitDigits(n: nat, h: nat, l: nat)
    requires n < h * l && 0 < l
    ensures 0 <= n / l < h && 0 <= n % l < l && n / l * l + n % l == n
  {
    DivMod(n, l);
    DivBelow(n, l, h);
  }

  /** The rank at a place holds one of the tiles, as one of its copies. */
  lemma PlaceHolds(g: Degrees, axis: Axis, c: Place)
    requires g.Ok() && PlaceIn(g, c)
    ensures TileAt(g, axis, c) < TileCount(g, axis) && CopyAt(g, axis, c) < Copies(g, axis)
    ensures Holder(g, axis, c.stage, TileAt(g, axis, c), CopyAt(g, axis, c)) == c
  {
    var a := g.ShardCp();
    match axis
    case Tp => TwoDigits(c.replica, c.shard, g.dpReplicate, a);
    case DpShardCp => TwoDigits(c.replica, c.tp, g.dpReplicate, g.tp);
    case Merged => TwoDigits(c.tp, c.shard, g.tp, a);
    case DpCpTp =>
      TwoDigits(c.replica, c.shard, g.dpReplicate, a);
      TwoDigits(c.replica * a + c.shard, c.tp, g.dpReplicate * a, g.tp);
  }

  /** Every copy of every tile is at a place of the mesh. */
  lemma HolderHolds(g: Degrees, axis: Axis, stage: nat, tile: nat, copy: nat)
    requires g.Ok() && stage < g.pp && tile < TileCount(g, axis) && copy < Copies(g, axis)
    ensures var c := Holder(g, axis, stage, tile, copy);
            PlaceIn(g, c) && c.stage == stage && TileAt(g, axis, c) == tile && CopyAt(g, axis, c) == copy
  {
    var a := g.ShardCp();
    MulLt(0, g.dpShard, g.cp);
    match axis
    case Tp => SplitDigits(copy, g.dpReplicate, a);
    case DpShardCp => SplitDigits(copy, g.dpReplicate, g.tp);
    case Merged => SplitDigits(tile, g.tp, a);
    case DpCpTp =>
      SplitDigits(tile, g.dpReplicate * a, g.tp);
      SplitDigits(tile / g.tp, g.dpReplicate, a);
  }

  function RanksHolding(g: Degrees, axis: Axis, stage: nat, tile: nat): set<nat>
    requires g.Ok()
  {
    set rank: nat | rank < World(g) && PlaceOf(g, rank).stage == stage && TileAt(g, axis, PlaceOf(g, rank)) == tile
  }

  /** On every stage, every tile is held by equally many ranks. */
  lemma EquallyHeld(g: Degrees, axis: Axis, stage: nat, tile: nat)
    requires g.Ok() && stage < g.pp && tile < TileCount(g, axis)
    ensures |RanksHolding(g, axis, stage, tile)| == Copies(g, axis)
    ensures g.pp * (TileCount(g, axis) * Copies(g, axis)) == World(g)
  {
    WorldIs(g);
    TilesTimesCopies(g.dpReplicate, g.ShardCp(), g.tp);
    FirstCopies(g, axis, stage, tile, Copies(g, axis));
    CopiesAreBounded(g, axis, stage, tile);
    assert RanksHolding(g, axis, stage, tile) == CopiesBefore(g, axis, stage, tile, Copies(g, axis));
  }

  lemma TilesTimesCopies(r: nat, a: nat, t: nat)
    ensures t * (r * a) == r * (a * t) && a * (r * t) == r * (a * t) && t * a * r == r * (a * t) && r * a * t * 1 == r * (a * t)
  {
  }

  lemma CopiesAreBounded(g: Degrees, axis: Axis, stage: nat, tile: nat)
    requires g.Ok()
    ensures forall rank :: rank in RanksHolding(g, axis, stage, tile) ==> CopyAt(g, axis, PlaceOf(g, rank)) < Copies(g, axis)
  {
    forall rank | rank in RanksHolding(g, axis, stage, tile)
      ensures CopyAt(g, axis, PlaceOf(g, rank)) < Copies(g, axis)
    {
      RankOfPlace(g, rank);
      PlaceHolds(g, axis, PlaceOf(g, rank));
    }
  }

  function CopiesBefore(g: Degrees, axis: Axis, stage: nat, tile: nat, n: nat): set<nat>
    requires g.Ok()
  {
    set rank | rank in RanksHolding(g, axis, stage, tile) && CopyAt(g, axis, PlaceOf(g, rank)) < n
  }

  /** The n-th copy of a tile is held by one rank. */
  lemma NthCopy(g: Degrees, axis: Axis, stage: nat, tile: nat, n: nat) returns (holder: nat)
    requires g.Ok() && stage < g.pp && tile < TileCount(g, axis) && n < Copies(g, axis)
    ensures holder in RanksHolding(g, axis, stage, tile) && CopyAt(g, axis, PlaceOf(g, holder)) == n
    ensures forall rank :: rank in RanksHolding(g, axis, stage, tile) && CopyAt(g, axis, PlaceOf(g, rank)) == n ==>
      rank == holder
  {
    var c := Holder(g, axis, stage, tile, n);
    HolderHolds(g, axis, stage, tile, n);
    PlaceOfRank(g, c);
    holder := RankAt(g, c);
    hide World, RankAt, PlaceOf, Holder, TileAt, CopyAt, TileCount, Copies;
    forall rank | rank in RanksHolding(g, axis, stage, tile) && CopyAt(g, axis, PlaceOf(g, rank)) == n
      ensures rank == holder
    {
      RankOfPlace(g, rank);
      PlaceHolds(g, axis, PlaceOf(g, rank));
    }
  }

  lemma {:induction false} FirstCopies(g: Degrees, axis: Axis, stage: nat, tile: nat, n: nat)
    requires g.Ok() && stage < g.pp && tile < TileCount(g, axis) && n <= Copies(g, axis)
    ensures |CopiesBefore(g, axis, stage, tile, n)| == n
  {
    hide TileAt, CopyAt, PlaceOf, World, RanksHolding, TileCount, Copies;
    if n == 0 {
      assert CopiesBefore(g, axis, stage, tile, 0) == {};
    } else {
      FirstCopies(g, axis, stage, tile, n - 1);
      var added := NthCopy(g, axis, stage, tile, n - 1);
      assert CopiesBefore(g, axis, stage, tile, n) == CopiesBefore(g, axis, stage, tile, n - 1) + {added};
    }
  }

  // ---------- shard descriptors ----------

  /** The mesh ranks of a place, as slices. */
  function MeshRankInfo(g: Degrees, c: Place): map<string, DimSlice> {
    map["tp" := DimSlice(c.tp, g.tp, "tp", 1),
        "dp_shard_cp" := DimSlice(c.shard, g.ShardCp(), "dp_shard_cp", 1),
        "dp_cp_tp" := DimSlice(TileAt(g, DpCpTp, c), TileCount(g, DpCpTp), "dp_cp_tp", 1),
        "pp" := DimSlice(c.stage, g.pp, "pp", 1)]
  }

  function RankOr(info: map<string, DimSlice>, dim: string): DimSlice {
    if dim in info then info[dim] else DimSlice(0, 1, dim, 1)
  }

  /** The slice of a tensor dimension that is sharded along the named mesh dimensions. */
  function SliceAlong(dims: seq<string>, info: map<string, DimSlice>): Outcome<DimSlice> {
    if |dims| == 1 then Ok(RankOr(info, dims[0]))
    else if |dims| == 2 && "dp_cp_tp" !in dims && "tp" in dims && "dp_shard_cp" in dims
            && RankOr(info, "tp").length in {0, 1} then
      Ok(MergeRank(RankOr(info, "tp"), RankOr(info, "dp_shard_cp")))
    else Error
  }

  method GenerateLocalShardInfo(dimToParallel: map<nat, seq<string>>, info: map<string, DimSlice>)
    returns (res: Outcome<Shard>)
    ensures res.Ok? <==> forall d :: d in dimToParallel ==> SliceAlong(dimToParallel[d], info).Ok?
    ensures res.Ok? ==> res.value.Keys == dimToParallel.Keys
    ensures res.Ok? ==> forall d :: d in dimToParallel ==> Ok(res.value[d]) == SliceAlong(dimToParallel[d], info)
  {
    var shard: Shard := map[];
    var todo := dimToParallel.Keys;
    while todo != {}
      invariant todo <= dimToParallel.Keys && shard.Keys == dimToParallel.Keys - todo
      invariant forall d :: d in shard ==> Ok(shard[d]) == SliceAlong(dimToParallel[d], info)
      decreases todo
    {
      var d :| d in todo;
      var slice := SliceAlong(dimToParallel[d], info);
      if slice.Error? {
        return Error;
      }
      shard, todo := shard[d := slice.value], todo - {d};
    }
    res := Ok(shard);
  }

  /** The mesh dimensions an axis stands for. */
  predicate Names(dims: seq<string>, axis: Axis) {
    match axis
    case Tp => dims == ["tp"]
    case DpShardCp => dims == ["dp_shard_cp"]
    case Merged => dims == ["tp", "dp_shard_cp"] || dims == ["dp_shard_cp", "tp"]
    case DpCpTp => dims == ["dp_cp_tp"]
  }

  function Label(axis: Axis): string {
    match axis
    case Tp => "tp"
    case DpShardCp => "dp_shard_cp"
    case Merged => "tp"
    case DpCpTp => "dp_cp_tp"
  }

  /** One tile of as many as the axis makes. */
  function Tile(g: Degrees, axis: Axis, c: Place): DimSlice {
    DimSlice(TileAt(g, axis, c), TileCount(g, axis), Label(axis), 1)
  }

  /** Each way to shard a dimension yields the rank's tile of that dimension. */
  lemma SliceIsTile(g: Degrees, dims: seq<string>, axis: Axis, c: Place)
    requires Names(dims, axis)
    ensures SliceAlong(dims, MeshRankInfo(g, c)) == Ok(Tile(g, axis, c))
  {
    if axis == Merged {
      assert dims[0] == "tp" || dims[1] == "tp";
      assert dims[0] == "dp_shard_cp" || dims[1] == "dp_shard_cp";
      assert |"tp"| == 2 && |"dp_shard_cp"| == 11 && |"dp_cp_tp"| == 8;
    }
  }

  function ShardAt(g: Degrees, axes: map<nat, Axis>, c: Place): Shard {
    map d | d in axes :: Tile(g, axes[d], c)
  }

  /** Two axes that share no mesh dimension. */
  predicate Apart(a: Axis, b: Axis) {
    (a == Tp && b == DpShardCp) || (a == DpShardCp && b == Tp)
  }

  predicate Independent(axes: map<nat, Axis>) {
    forall d, e :: d in axes && e in axes && d != e ==> Apart(axes[d], axes[e])
  }

  predicate Divisible(g: Degrees, axes: map<nat, Axis>, shape: Shape) {
    forall d :: d in axes ==> d < |shape| && 0 < TileCount(g, axes[d]) && Divides(TileCount(g, axes[d]), shape[d])
  }

  /** A parameter of one pipeline stage, held by all ranks of the stage along the axes. */
  predicate LaidOut(x: Inputs, name: Name, g: Degrees, stage: nat, axes: map<nat, Axis>)
    requires g.Ok()
  {
    && |x.policy| == World(g)
    && forall p: nat :: p < |x.policy| ==>
         && (name in x.policy[p] <==> PlaceOf(g, p).stage == stage)
         && (name in x.policy[p] ==> x.policy[p][name] == ShardAt(g, axes, PlaceOf(g, p)))
  }

  /** The tile of a dimension that contains an index. */
  function TileOfIndex(g: Degrees, axis: Axis, n: nat, i: int): int
    requires 0 < TileCount(g, axis) && 0 < n / TileCount(g, axis)
  {
    i / (n / TileCount(g, axis))
  }

  lemma TileSelects(g: Degrees, axis: Axis, c: Place, n: nat, i: int)
    requires 0 < TileCount(g, axis) && Divides(TileCount(g, axis), n) && 0 <= i < n
    ensures 0 < n / TileCount(g, axis)
    ensures 0 <= TileOfIndex(g, axis, n, i) < TileCount(g, axis)
    ensures Selects(Tile(g, axis, c), n, i) <==> TileAt(g, axis, c) == TileOfIndex(g, axis, n, i)
  {
    var k := TileCount(g, axis);
    var u := n / k;
    ExactDiv(n, k);
    if u <= 0 { MulLe(u, 0, k); }
    var o := TileAt(g, axis, c);
    hide TileAt, TileCount;
    assert u * k == k * u && u * o == o * u;
    DivBelow(i, u, k);
    DivMod(i, u);
    if o * u <= i < o * u + u {
      DivIs(i, u, o);
    }
  }

  /** A place of the stage whose tiles contain the given index, dimension by dimension. */
  lemma PlaceCovering(g: Degrees, stage: nat, axes: map<nat, Axis>, tiles: map<nat, nat>) returns (c: Place)
    requires g.Ok() && stage < g.pp && Independent(axes) && tiles.Keys == axes.Keys
    requires forall d :: d in axes ==> tiles[d] < TileCount(g, axes[d])
    ensures PlaceIn(g, c) && c.stage == stage
    ensures forall d :: d in axes ==> TileAt(g, axes[d], c) == tiles[d]
  {
    MulLt(0, g.dpShard, g.cp);
    if d :| d in axes && (axes[d] == Merged || axes[d] == DpCpTp) {
      assert forall e :: e in axes ==> e == d;
      c := Holder(g, axes[d], stage, tiles[d], 0);
      HolderHolds(g, axes[d], stage, tiles[d], 0);
    } else {
      var t, s := 0, 0;
      if d :| d in axes && axes[d] == Tp { t := tiles[d]; }
      if d :| d in axes && axes[d] == DpShardCp { s := tiles[d]; }
      c := Place(stage, 0, s, t);
    }
  }

  lemma TilesFit(g: Degrees, axes: map<nat, Axis>, shape: Shape, c: Place)
    requires g.Ok() && PlaceIn(g, c) && Divisible(g, axes, shape)
    ensures ShardFits(ShardAt(g, axes, c), shape)
  {
    var s := ShardAt(g, axes, c);
    forall d: nat | d < |shape|
      ensures Fits(At(s, d), shape[d])
    {
      if d in axes {
        PlaceHolds(g, axes[d], c);
      } else {
        WholeSlice(shape[d]);
      }
    }
  }

  /** A rank's shard contains an index exactly when its tile of each sharded dimension does. */
  lemma InShardIffTiles(g: Degrees, axes: map<nat, Axis>, shape: Shape, c: Place, i: Index)
    requires g.Ok() && PlaceIn(g, c) && Divisible(g, axes, shape) && InTensor(shape, i)
    ensures ShardFits(ShardAt(g, axes, c), shape)
    ensures forall d :: d in axes ==> 0 < shape[d] / TileCount(g, axes[d])
    ensures InShard(ShardAt(g, axes, c), shape, i) <==>
            forall d :: d in axes ==> TileAt(g, axes[d], c) == TileOfIndex(g, axes[d], shape[d], i[d])
  {
    TilesFit(g, axes, shape, c);
    var s := ShardAt(g, axes, c);
    forall d: nat | d < |shape|
      ensures d in axes ==> 0 < shape[d] / TileCount(g, axes[d])
      ensures InShardAt(s, shape, i[d], d) <==>
              (d in axes ==> TileAt(g, axes[d], c) == TileOfIndex(g, axes[d], shape[d], i[d]))
    {
      if d in axes {
        TileSelects(g, axes[d], c, shape[d], i[d]);
      } else {
        WholeSlice(shape[d]);
      }
    }
    hide InShardAt, TileAt, TileOfIndex, TileCount;
    assert Divisible(g, axes, shape);
  }

  /** Sharding along independent axes that divide the tensor makes the ranks of the stage tile it:
      the hypothesis under which a weight synchronisation is exact. */
  lemma MeshTilesTensor(x: Inputs, name: Name, g: Degrees, stage: nat, axes: map<nat, Axis>, shape: Shape)
    requires g.Ok() && stage < g.pp && LaidOut(x, name, g, stage, axes)
    requires Independent(axes) && Divisible(g, axes, shape)
    ensures PolicyTiles(x, name, shape)
  {
    forall p: nat | p < |x.policy| && name in x.policy[p]
      ensures ShardFits(x.policy[p][name], shape)
    {
      RankOfPlace(g, p);
      TilesFit(g, axes, shape, PlaceOf(g, p));
    }
    assert PolicyFits(x, name, shape);
    forall i | InTensor(shape, i)
      ensures CoveredOnce(x, name, shape, i)
    {
      CoveredByOneTile(x, name, g, stage, axes, shape, i);
    }
  }

  lemma CoversIffTiles(x: Inputs, name: Name, g: Degrees, stage: nat, axes: map<nat, Axis>, shape: Shape, i: Index, p: nat)
    requires g.Ok() && LaidOut(x, name, g, stage, axes)
    requires Divisible(g, axes, shape) && InTensor(shape, i) && PolicyFits(x, name, shape)
    ensures forall d :: d in axes ==> 0 < TileCount(g, axes[d]) && 0 < shape[d] / TileCount(g, axes[d])
    ensures Covers(x, name, shape, p, i) <==>
            p < |x.policy| && name in x.policy[p] &&
            forall d :: d in axes ==> TileAt(g, axes[d], PlaceOf(g, p)) == TileOfIndex(g, axes[d], shape[d], i[d])
  {
    forall d | d in axes
      ensures 0 < shape[d] / TileCount(g, axes[d])
    {
      TileSelects(g, axes[d], Place(0, 0, 0, 0), shape[d], i[d]);
    }
    if p < |x.policy| && name in x.policy[p] {
      RankOfPlace(g, p);
      InShardIffTiles(g, axes, shape, PlaceOf(g, p), i);
    }
  }

  lemma CoveredByOneTile(x: Inputs, name: Name, g: Degrees, stage: nat, axes: map<nat, Axis>, shape: Shape, i: Index)
    requires g.Ok() && stage < g.pp && LaidOut(x, name, g, stage, axes)
    requires Independent(axes) && Divisible(g, axes, shape) && InTensor(shape, i) && PolicyFits(x, name, shape)
    ensures CoveredOnce(x, name, shape, i)
  {
    forall d | d in axes
      ensures 0 < shape[d] / TileCount(g, axes[d])
      ensures 0 <= TileOfIndex(g, axes[d], shape[d], i[d]) < TileCount(g, axes[d])
    {
      TileSelects(g, axes[d], Place(0, 0, 0, 0), shape[d], i[d]);
    }
    var tiles: map<nat, nat> := map d | d in axes :: TileOfIndex(g, axes[d], shape[d], i[d]);
    var c := PlaceCovering(g, stage, axes, tiles);
    PlaceOfRank(g, c);
    CoversIffTiles(x, name, g, stage, axes, shape, i, RankAt(g, c));
    hide TileOfIndex, TileCount, PlaceOf, World, RankAt, TileAt, Covers;
    assert Covers(x, name, shape, RankAt(g, c), i);
    forall p: nat, q: nat | Covers(x, name, shape, p, i) && Covers(x, name, shape, q, i)
      ensures p < |x.policy| && q < |x.policy| && name in x.policy[p] && name in x.policy[q]
      ensures x.policy[p][name] == x.policy[q][name]
    {
      CoversIffTiles(x, name, g, stage, axes, shape, i, p);
      CoversIffTiles(x, name, g, stage, axes, shape, i, q);
      assert ShardAt(g, axes, PlaceOf(g, p)) == ShardAt(g, axes, PlaceOf(g, q));
    }
  }
}
