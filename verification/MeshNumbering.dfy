/** The numbering of a replica's ranks along its mesh dimensions. */
module MeshNumbering {
  import opened Arithmetic

  /** Product of sizes[j..]: how many consecutive ranks share the coordinates before dimension j. */
  function Suffix(sizes: seq<nat>, j: nat): nat
    requires j <= |sizes|
    decreases |sizes| - j
  {
    if j == |sizes| then 1 else sizes[j] * Suffix(sizes, j + 1)
  }

  predicate Positive(sizes: seq<nat>) {
    forall j :: 0 <= j < |sizes| ==> 0 < sizes[j]
  }

  lemma SuffixPositive(sizes: seq<nat>, j: nat)
    requires Positive(sizes) && j <= |sizes|
    ensures 0 < Suffix(sizes, j)
    decreases |sizes| - j
  {
    if j < |sizes| {
      SuffixPositive(sizes, j + 1);
      MulLt(0, sizes[j], Suffix(sizes, j + 1));
    }
  }

  /** Position within a dimension of size k whose neighbours are `len` ranks apart. */
  function Coord(rank: nat, len: nat, k: nat): nat
    requires 0 < len && 0 < k
  {
    DivMono(0, rank, len);
    rank / len % k
  }

  /** The mixed-radix digit of a rank in dimension j. */
  function Digit(sizes: seq<nat>, j: nat, rank: nat): nat
    requires Positive(sizes) && j < |sizes|
  {
    SuffixPositive(sizes, j + 1);
    Coord(rank, Suffix(sizes, j + 1), sizes[j])
  }

  function Range(start: nat, count: nat): seq<nat> {
    seq(count, i requires 0 <= i => start + i)
  }

  /** Where section r of numpy's array_split begins: the first `n % k` sections are longer by one. */
  function SectionStart(n: nat, k: nat, r: nat): int
    requires 0 < k
  {
    r * (n / k) + Min(r, n % k)
  }

  lemma SectionBounds(n: nat, k: nat, r: nat)
    requires 0 < k && r < k
    ensures 0 <= SectionStart(n, k, r) <= SectionStart(n, k, r + 1) <= n
  {
    DivMod(n, k);
    var q := n / k;
    DivMono(0, n, k);
    MulLe(0, r, q);
    MulLe(r + 1, k, q);
    assert (r + 1) * q == r * q + q;
  }

  function Section(m: seq<nat>, k: nat, r: nat): seq<nat>
    requires 0 < k && r < k
  {
    SectionBounds(|m|, k, r);
    m[SectionStart(|m|, k, r)..SectionStart(|m|, k, r + 1)]
  }

  function ArraySplit(m: seq<nat>, k: nat): seq<seq<nat>>
    requires 0 < k
  {
    seq(k, r requires 0 <= r < k => Section(m, k, r))
  }

  /** An evenly divided range splits into consecutive ranges. */
  lemma SplitRange(b: nat, len: nat, k: nat, r: nat)
    requires 0 < k && r < k
    ensures Section(Range(b * (k * len), k * len), k, r) == Range((b * k + r) * len, len)
  {
    var m := Range(b * (k * len), k * len);
    MulDiv(len, k);
    assert k * len == len * k;
    assert SectionStart(k * len, k, r) == r * len;
    assert SectionStart(k * len, k, r + 1) == r * len + len;
    SectionBounds(k * len, k, r);
    assert (b * k + r) * len == b * (k * len) + r * len;
  }

  type RankInfo = map<string, int>

  /** The meshes of one level: consecutive ranges of ranks. */
  predicate AreRanges(meshes: seq<seq<nat>>, len: nat) {
    forall b :: 0 <= b < |meshes| ==> meshes[b] == Range(b * len, len)
  }

  /** All ranks below `upto` have their coordinate in dimension `dim`; nothing else changed. */
  predicate Labelled(before: seq<RankInfo>, after: seq<RankInfo>, dim: string, len: nat, k: nat, upto: int)
    requires 0 < len && 0 < k
  {
    && |after| == |before|
    && forall d :: 0 <= d < |before| ==>
         after[d] == if d < upto then before[d][dim := Coord(d, len, k)] else before[d]
  }

  /** Labels the ranks of one section. */
  method LabelSection(info: seq<RankInfo>, arr: seq<nat>, dim: string, r: nat, ghost nb: nat, ghost len: nat, ghost k: nat,
                      ghost before: seq<RankInfo>)
    returns (res: seq<RankInfo>)
    requires 0 < len && 0 < k && r == nb % k && arr == Range(nb * len, len)
    requires Labelled(before, info, dim, len, k, nb * len) && nb * len + len <= |before|
    ensures Labelled(before, res, dim, len, k, nb * len + len)
  {
    res := info;
    for i := 0 to |arr|
      invariant Labelled(before, res, dim, len, k, nb * len + i)
    {
      var d := arr[i];
      DivIs(d, len, nb);
      res := res[d := res[d][dim := r]];
    }
  }

  /** Splits one mesh into k and labels the ranks of each part. */
  method SplitMesh(info: seq<RankInfo>, m: seq<nat>, dim: string, k: nat, ghost b: nat, ghost len: nat,
                   ghost before: seq<RankInfo>)
    returns (res: seq<RankInfo>, parts: seq<seq<nat>>)
    requires 0 < k && 0 < len && m == Range(b * (k * len), k * len)
    requires Labelled(before, info, dim, len, k, b * k * len) && (b * k + k) * len <= |before|
    ensures Labelled(before, res, dim, len, k, (b * k + k) * len)
    ensures |parts| == k && forall r :: 0 <= r < k ==> parts[r] == Range((b * k + r) * len, len)
  {
    res, parts := info, ArraySplit(m, k);
    for r := 0 to k
      invariant Labelled(before, res, dim, len, k, (b * k + r) * len)
      invariant forall i :: 0 <= i < r ==> parts[i] == Range((b * k + i) * len, len)
    {
      ghost var nb := b * k + r;
      SplitRange(b, len, k, r);
      DivIs(nb, k, b);
      hide Labelled, Range, ArraySplit, Section;
      AddOne(nb, len);
      MulLe(nb + 1, b * k + k, len);
      res := LabelSection(res, parts[r], dim, r, nb, len, k, before);
    }
  }

  /** Splits every mesh of one level along the next dimension. */
  method SplitLevel(info: seq<RankInfo>, meshes: seq<seq<nat>>, dim: string, k: nat, ghost len: nat)
    returns (res: seq<RankInfo>, next: seq<seq<nat>>)
    requires 0 < k && 0 < len && AreRanges(meshes, k * len) && |info| == |meshes| * (k * len)
    ensures Labelled(info, res, dim, len, k, |info|)
    ensures AreRanges(next, len) && |next| == |meshes| * k
  {
    res, next := info, [];
    for b := 0 to |meshes|
      invariant Labelled(info, res, dim, len, k, b * k * len)
      invariant AreRanges(next, len) && |next| == b * k
    {
      LevelFits(|meshes|, b, k, len);
      var parts;
      res, parts := SplitMesh(res, meshes[b], dim, k, b, len, info);
      hide Labelled, Range;
      assert (b + 1) * k == b * k + k;
      forall i | 0 <= i < |next| + k
        ensures (next + parts)[i] == Range(i * len, len)
      {
        if i >= |next| { assert parts[i - |next|] == Range((b * k + (i - |next|)) * len, len); }
      }
      next := next + parts;
    }
    assert |meshes| * k * len == |info|;
  }

  lemma LevelFits(count: nat, b: nat, k: nat, len: nat)
    requires b < count
    ensures (b * k + k) * len <= count * (k * len)
  {
    MulLe(b + 1, count, k);
    assert (b + 1) * k == b * k + k;
    MulLe(b * k + k, count * k, len);
    assert count * k * len == count * (k * len);
  }

  const DIMS: seq<string> := ["pp", "dp_replicate", "dp_shard", "cp", "tp"]

  /** The coordinates of every rank in the first j dimensions are its digits. */
  predicate HasDigits(info: seq<RankInfo>, sizes: seq<nat>, j: nat)
    requires Positive(sizes) && |sizes| == |DIMS| && j <= |sizes|
  {
    forall d, i :: 0 <= d < |info| && 0 <= i < j ==> DIMS[i] in info[d] && info[d][DIMS[i]] == Digit(sizes, i, d)
  }

  lemma DimsDistinct(i: nat, j: nat)
    requires i < j < |DIMS|
    ensures DIMS[i] != DIMS[j]
  {
    assert |DIMS[0]| == 2 && |DIMS[1]| == 12 && |DIMS[2]| == 8 && |DIMS[3]| == 2 && |DIMS[4]| == 2;
    assert DIMS[0][0] == 'p' && DIMS[3][0] == 'c' && DIMS[4][0] == 't';
  }

  lemma LabelledHasDigits(before: seq<RankInfo>, after: seq<RankInfo>, sizes: seq<nat>, j: nat)
    requires Positive(sizes) && |sizes| == |DIMS| && j < |sizes| && HasDigits(before, sizes, j)
    requires 0 < Suffix(sizes, j + 1)
    requires Labelled(before, after, DIMS[j], Suffix(sizes, j + 1), sizes[j], |before|)
    ensures HasDigits(after, sizes, j + 1)
  {
    hide Suffix, Coord;
    forall d, i | 0 <= d < |after| && 0 <= i < j + 1
      ensures DIMS[i] in after[d] && after[d][DIMS[i]] == Digit(sizes, i, d)
    {
      if i < j { DimsDistinct(i, j); }
    }
  }

  lemma NoDigitsYet(info: seq<RankInfo>, sizes: seq<nat>)
    requires Positive(sizes) && |sizes| == |DIMS|
    ensures HasDigits(info, sizes, 0)
  {
  }

  lemma SuffixStep(sizes: seq<nat>, j: nat)
    requires j < |sizes|
    ensures Suffix(sizes, j) == sizes[j] * Suffix(sizes, j + 1)
  {
  }

  lemma WholeRange(count: nat, size: nat, len: nat)
    ensures count * (size * len) == (count * size) * len
  {
  }

  /** The nested splitting of the ranks gives every rank its mixed-radix digits. */
  method BuildCoordinates(sizes: seq<nat>) returns (info: seq<RankInfo>)
    requires |sizes| == |DIMS| && Positive(sizes)
    ensures |info| == Suffix(sizes, 0)
    ensures HasDigits(info, sizes, |sizes|)
  {
    var world := Suffix(sizes, 0);
    info := seq(world, _ => map[]);
    var meshes := [Range(0, world)];
    assert meshes[0] == Range(0 * world, world);
    NoDigitsYet(info, sizes);
    hide Suffix, HasDigits, Labelled, Range;
    for j := 0 to |sizes|
      invariant |info| == world == |meshes| * Suffix(sizes, j)
      invariant AreRanges(meshes, Suffix(sizes, j))
      invariant HasDigits(info, sizes, j)
    {
      ghost var len := Suffix(sizes, j + 1);
      SuffixPositive(sizes, j + 1);
      SuffixStep(sizes, j);
      ghost var before, count := info, |meshes|;
      info, meshes := SplitLevel(info, meshes, DIMS[j], sizes[j], len);
      WholeRange(count, sizes[j], len);
      LabelledHasDigits(before, info, sizes, j);
    }
  }

  // ---------- digits and ranks determine each other ----------

  function Digits(sizes: seq<nat>, rank: nat): seq<nat>
    requires Positive(sizes)
  {
    seq(|sizes|, j requires 0 <= j < |sizes| => Digit(sizes, j, rank))
  }

  /** The rank number of the first j coordinates. */
  function Value(sizes: seq<nat>, digits: seq<nat>, j: nat): nat
    requires |digits| == |sizes| && j <= |sizes|
  {
    if j == 0 then 0 else Value(sizes, digits, j - 1) * sizes[j - 1] + digits[j - 1]
  }

  predicate InBox(sizes: seq<nat>, digits: seq<nat>) {
    |digits| == |sizes| && forall j :: 0 <= j < |sizes| ==> digits[j] < sizes[j]
  }

  /** Putting the digits of a rank together again gives the rank. */
  lemma {:induction false} ValueOfDigits(sizes: seq<nat>, rank: nat, j: nat)
    requires Positive(sizes) && j <= |sizes| && rank < Suffix(sizes, 0)
    ensures 0 < Suffix(sizes, j) && Value(sizes, Digits(sizes, rank), j) == rank / Suffix(sizes, j)
  {
    SuffixPositive(sizes, j);
    if j == 0 {
      DivIs(rank, Suffix(sizes, 0), 0);
    } else {
      ValueOfDigits(sizes, rank, j - 1);
      NestedDiv(rank, Suffix(sizes, j), sizes[j - 1]);
      DivMod(rank / Suffix(sizes, j), sizes[j - 1]);
    }
  }

  lemma NestedDiv(n: nat, d: nat, k: nat)
    requires 0 < d && 0 < k
    ensures 0 < k * d && n / (k * d) == n / d / k
  {
    MulLt(0, k, d);
    DivMod(n, d);
    DivMod(n / d, k);
    var q := n / d / k;
    assert q * (k * d) == q * k * d;
    MulLe(q * k, n / d, d);
    MulLe(n / d + 1, q * k + k, d);
    assert (q * k + k) * d == q * (k * d) + k * d;
    assert (n / d + 1) * d == n / d * d + d;
    DivIs(n, k * d, q);
  }

  /** Every coordinate vector is the digit vector of its rank. */
  lemma {:induction false} DigitsOfValue(sizes: seq<nat>, digits: seq<nat>, j: nat)
    requires Positive(sizes) && InBox(sizes, digits) && j <= |sizes|
    ensures var v := Value(sizes, digits, |sizes|);
            && 0 < Suffix(sizes, j) && v / Suffix(sizes, j) == Value(sizes, digits, j)
            && forall i :: j <= i < |sizes| ==> Digit(sizes, i, v) == digits[i]
    decreases |sizes| - j
  {
    var v := Value(sizes, digits, |sizes|);
    SuffixPositive(sizes, j);
    if j == |sizes| {
      DivIs(v, 1, v);
    } else {
      DigitsOfValue(sizes, digits, j + 1);
      NestedDiv(v, Suffix(sizes, j + 1), sizes[j]);
      DivIs(Value(sizes, digits, j + 1), sizes[j], Value(sizes, digits, j));
    }
  }

  lemma {:induction false} ValueBelow(sizes: seq<nat>, digits: seq<nat>, j: nat)
    requires Positive(sizes) && InBox(sizes, digits) && j <= |sizes|
    ensures (Value(sizes, digits, j) + 1) * Suffix(sizes, j) <= Suffix(sizes, 0)
  {
    if j > 0 {
      ValueBelow(sizes, digits, j - 1);
      SuffixPositive(sizes, j);
      var v, k, len := Value(sizes, digits, j - 1), sizes[j - 1], Suffix(sizes, j);
      MulLe(v * k + digits[j - 1] + 1, v * k + k, len);
      assert (v * k + k) * len == (v + 1) * (k * len);
    }
  }
}
