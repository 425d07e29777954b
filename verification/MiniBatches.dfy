/** Splitting a batch into mini-batches whose token counts are bounded. */
module MiniBatches {
  import opened Arithmetic
  import opened Balance
  import opened Common

  // ---------- sums do not depend on the order ----------

  lemma {:induction false} LengthSumConcat(seqlens: seq<int>, a: seq<int>, b: seq<int>)
    ensures LengthSum(seqlens, a + b) == LengthSum(seqlens, a) + LengthSum(seqlens, b)
  {
    if b == [] {
      assert a + b == a;
    } else {
      assert (a + b)[..|a + b| - 1] == a + b[..|b| - 1];
      LengthSumConcat(seqlens, a, b[..|b| - 1]);
    }
  }

  lemma LengthSumOne(seqlens: seq<int>, x: int)
    ensures LengthSum(seqlens, [x]) == LengthAt(seqlens, x)
  {
    assert [x][..0] == [];
    assert LengthSum(seqlens, []) == 0;
  }

  lemma {:induction false} LengthSumPermutes(seqlens: seq<int>, a: seq<int>, b: seq<int>)
    requires multiset(a) == multiset(b)
    ensures LengthSum(seqlens, a) == LengthSum(seqlens, b)
  {
    if a == [] {
      assert |multiset(b)| == 0;
    } else {
      var init, x := a[..|a| - 1], a[|a| - 1];
      assert a == init + [x];
      assert x in multiset(b);
      var j :| 0 <= j < |b| && b[j] == x;
      var rest := b[..j] + b[j + 1..];
      assert b == b[..j] + [x] + b[j + 1..];
      assert multiset(b) == multiset(b[..j]) + multiset{x} + multiset(b[j + 1..]);
      assert multiset(a) == multiset(init) + multiset{x};
      assert multiset(rest) == multiset(b[..j]) + multiset(b[j + 1..]);
      assert multiset(rest) == multiset(init) by {
        forall y
          ensures multiset(rest)[y] == multiset(init)[y]
        {
          assert multiset(rest)[y] + multiset{x}[y] == multiset(b)[y];
        }
      }
      LengthSumPermutes(seqlens, init, rest);
      LengthSumConcat(seqlens, b[..j] + [x], b[j + 1..]);
      LengthSumConcat(seqlens, b[..j], [x]);
      LengthSumConcat(seqlens, b[..j], b[j + 1..]);
      LengthSumOne(seqlens, x);
    }
  }

  function Flatten(parts: seq<seq<int>>): seq<int> {
    if parts == [] then [] else parts[0] + Flatten(parts[1..])
  }

  function PartsTotal(seqlens: seq<int>, parts: seq<seq<int>>): int {
    if parts == [] then 0 else LengthSum(seqlens, parts[0]) + PartsTotal(seqlens, parts[1..])
  }

  lemma {:induction false} FlattenKeeps(seqlens: seq<int>, parts: seq<seq<int>>)
    ensures multiset(Flatten(parts)) == IndexBag(parts)
    ensures LengthSum(seqlens, Flatten(parts)) == PartsTotal(seqlens, parts)
  {
    if parts != [] {
      FlattenKeeps(seqlens, parts[1..]);
      LengthSumConcat(seqlens, parts[0], Flatten(parts[1..]));
    }
  }

  /** The lengths of all indices together: the number of tokens of the batch. */
  function Tokens(seqlens: seq<int>): int {
    LengthSum(seqlens, AllIndices(|seqlens|))
  }

  lemma PartitionTotal(seqlens: seq<int>, parts: seq<seq<int>>)
    requires IndexBag(parts) == multiset(AllIndices(|seqlens|))
    ensures PartsTotal(seqlens, parts) == Tokens(seqlens)
  {
    FlattenKeeps(seqlens, parts);
    LengthSumPermutes(seqlens, Flatten(parts), AllIndices(|seqlens|));
  }

  lemma {:induction false} TotalAtLeast(seqlens: seq<int>, parts: seq<seq<int>>, low: int)
    requires forall i :: 0 <= i < |parts| ==> low <= LengthSum(seqlens, parts[i])
    ensures |parts| * low <= PartsTotal(seqlens, parts)
  {
    if parts != [] {
      TotalAtLeast(seqlens, parts[1..], low);
      AddOne(|parts| - 1, low);
    }
  }

  lemma {:induction false} TotalExceeds(seqlens: seq<int>, parts: seq<seq<int>>, low: int, i: nat)
    requires i < |parts| && forall j :: 0 <= j < |parts| ==> low <= LengthSum(seqlens, parts[j])
    ensures (|parts| - 1) * low + LengthSum(seqlens, parts[i]) <= PartsTotal(seqlens, parts)
  {
    if i == 0 {
      TotalAtLeast(seqlens, parts[1..], low);
    } else {
      TotalExceeds(seqlens, parts[1..], low, i - 1);
      AddOne(|parts| - 2, low);
    }
  }

  /** The token bound: when the parts differ by at most m and are enough for the tokens at m each,
      every part stays below twice m. */
  lemma TokenBound(seqlens: seq<int>, k: nat, m: int, parts: seq<seq<int>>, i: nat)
    requires 0 < m && Balanced(seqlens, k, false, m, parts) && Tokens(seqlens) <= k * m && i < k
    ensures LengthSum(seqlens, parts[i]) < 2 * m
  {
    PartitionTotal(seqlens, parts);
    if LengthSum(seqlens, parts[i]) >= 2 * m {
      hide LengthSum, PartsTotal, Tokens, IndexBag;
      TotalExceeds(seqlens, parts, m, i);
      AddOne(k - 1, m);
    }
  }

  // ---------- checked partitions ----------

  function InsertInt(x: int, s: seq<int>): seq<int> {
    if s == [] || x < s[0] then [x] + s else [s[0]] + InsertInt(x, s[1..])
  }

  function SortInts(s: seq<int>): seq<int> {
    if s == [] then [] else InsertInt(s[|s| - 1], SortInts(s[..|s| - 1]))
  }

  predicate NonDecreasing(s: seq<int>) {
    forall i, j :: 0 <= i <= j < |s| ==> s[i] <= s[j]
  }

  lemma {:induction false} InsertIntKeeps(x: int, s: seq<int>)
    requires NonDecreasing(s)
    ensures multiset(InsertInt(x, s)) == multiset{x} + multiset(s) && NonDecreasing(InsertInt(x, s))
    ensures |InsertInt(x, s)| == |s| + 1
    ensures forall y :: y in InsertInt(x, s) ==> y == x || y in s
  {
    if s == [] || x < s[0] {
    } else {
      InsertIntKeeps(x, s[1..]);
      assert s == [s[0]] + s[1..];
      var t := InsertInt(x, s[1..]);
      forall i | 0 <= i < |t|
        ensures s[0] <= t[i]
      {
        assert t[i] in t;
        if t[i] != x {
          var j :| 0 <= j < |s| - 1 && s[1..][j] == t[i];
          assert s[j + 1] == t[i];
        }
      }
    }
  }

  lemma {:induction false} SortIntsKeeps(s: seq<int>)
    ensures multiset(SortInts(s)) == multiset(s) && NonDecreasing(SortInts(s)) && |SortInts(s)| == |s|
  {
    hide InsertInt;
    if s != [] {
      SortIntsKeeps(s[..|s| - 1]);
      InsertIntKeeps(s[|s| - 1], SortInts(s[..|s| - 1]));
      assert s == s[..|s| - 1] + [s[|s| - 1]];
    }
  }

  /** Same parts up to the order within each. */
  predicate Rearranged(a: seq<seq<int>>, b: seq<seq<int>>) {
    |a| == |b| && forall i :: 0 <= i < |a| ==> multiset(a[i]) == multiset(b[i]) && |a[i]| == |b[i]|
  }

  lemma {:induction false} RearrangedBag(a: seq<seq<int>>, b: seq<seq<int>>)
    requires Rearranged(a, b)
    ensures IndexBag(a) == IndexBag(b)
  {
    if a != [] {
      RearrangedBag(a[1..], b[1..]);
    }
  }

  lemma RearrangedBalanced(seqlens: seq<int>, k: nat, equalSize: bool, bound: int, a: seq<seq<int>>, b: seq<seq<int>>)
    requires Balanced(seqlens, k, equalSize, bound, a) && Rearranged(a, b)
    ensures Balanced(seqlens, k, equalSize, bound, b)
  {
    RearrangedBag(a, b);
    forall i | 0 <= i < k
      ensures LengthSum(seqlens, b[i]) == LengthSum(seqlens, a[i])
      ensures b[i] != [] <==> a[i] != []
    {
      LengthSumPermutes(seqlens, a[i], b[i]);
    }
    hide LengthSum, IndexBag;
  }

  /** The final check: the right number of parts, none empty, all indices seen; sorts each part. */
  method CheckAndSortPartitions(partitions: seq<seq<int>>, k: nat, n: nat) returns (res: Outcome<seq<seq<int>>>)
    ensures res.Ok? <==> |partitions| == k && (forall i :: 0 <= i < k ==> partitions[i] != []) && AllSeen(partitions, n)
    ensures res.Ok? ==> |res.value| == k && forall i :: 0 <= i < k ==> res.value[i] == SortInts(partitions[i])
  {
    if |partitions| != k {
      return Error;
    }
    var seen: set<int> := {};
    var sorted := [];
    for i := 0 to k
      invariant seen == SeenUpTo(partitions, i)
      invariant |sorted| == i && forall j :: 0 <= j < i ==> partitions[j] != [] && sorted[j] == SortInts(partitions[j])
    {
      if partitions[i] == [] {
        return Error;
      }
      for j := 0 to |partitions[i]|
        invariant seen == SeenUpTo(partitions, i) + Members(partitions[i][..j])
      {
        seen := seen + {partitions[i][j]};
      }
      assert partitions[i][..|partitions[i]|] == partitions[i];
      sorted := sorted + [SortInts(partitions[i])];
    }
    if seen != Members(AllIndices(n)) {
      return Error;
    }
    res := Ok(sorted);
  }

  function Members(s: seq<int>): set<int> {
    set x | x in s
  }

  function SeenUpTo(parts: seq<seq<int>>, k: nat): set<int>
    requires k <= |parts|
  {
    if k == 0 then {} else SeenUpTo(parts, k - 1) + Members(parts[k - 1])
  }

  predicate AllSeen(parts: seq<seq<int>>, n: nat) {
    SeenUpTo(parts, |parts|) == Members(AllIndices(n))
  }

  lemma {:induction false} SeenIffInBag(parts: seq<seq<int>>, k: nat, x: int)
    requires k <= |parts|
    ensures x in SeenUpTo(parts, k) <==> x in IndexBag(parts[..k])
  {
    if k > 0 {
      SeenIffInBag(parts, k - 1, x);
      assert parts[..k] == parts[..k - 1] + [parts[k - 1]];
      BagAppend(parts[..k - 1], parts[k - 1]);
    }
  }

  lemma {:induction false} BagAppend(parts: seq<seq<int>>, p: seq<int>)
    ensures IndexBag(parts + [p]) == IndexBag(parts) + multiset(p)
  {
    if parts == [] {
      assert [p][1..] == [];
    } else {
      BagAppend(parts[1..], p);
      assert (parts + [p])[1..] == parts[1..] + [p];
    }
  }

  lemma PartitionSeesAll(parts: seq<seq<int>>, n: nat)
    requires IndexBag(parts) == multiset(AllIndices(n))
    ensures AllSeen(parts, n)
  {
    assert parts[..|parts|] == parts;
    forall x
      ensures x in SeenUpTo(parts, |parts|) <==> x in AllIndices(n)
    {
      SeenIffInBag(parts, |parts|, x);
      assert x in multiset(AllIndices(n)) <==> x in AllIndices(n);
    }
  }

  /** Succeeds whenever there are enough items (and they divide evenly, for equal sizes): none of the
      final assertions can fail. */
  method GetSeqlenBalancedPartitions(seqlens: seq<int>, k: nat, equalSize: bool) returns (res: Outcome<seq<seq<int>>>)
    requires 0 < k && forall i :: 0 <= i < |seqlens| ==> 0 <= seqlens[i]
    ensures res.Ok? <==> k <= |seqlens| && Fitting(|seqlens|, k, equalSize)
    ensures res.Ok? ==> Balanced(seqlens, k, equalSize, MaxSpread(seqlens, k, equalSize), res.value)
    ensures res.Ok? ==> forall i :: 0 <= i < k ==> res.value[i] != [] && NonDecreasing(res.value[i])
  {
    hide MaxSpread, LengthSum, IndexBag, AllSeen, SortInts, Fitting;
    if |seqlens| < k {
      return Error;
    }
    var partitions := KarmarkarKarp(seqlens, k, equalSize);
    if partitions.Error? {
      return Error;
    }
    PartitionSeesAll(partitions.value, |seqlens|);
    res := CheckAndSortPartitions(partitions.value, k, |seqlens|);
    forall i | 0 <= i < k
      ensures multiset(res.value[i]) == multiset(partitions.value[i]) && NonDecreasing(res.value[i])
      ensures |res.value[i]| == |partitions.value[i]|
    {
      SortIntsKeeps(partitions.value[i]);
    }
    RearrangedBalanced(seqlens, k, equalSize, MaxSpread(seqlens, k, equalSize), partitions.value, res.value);
  }

  // ---------- mini-batches ----------

  function Largest(xs: seq<int>): int
    requires xs != []
  {
    if |xs| == 1 then xs[0] else Max(Largest(xs[..|xs| - 1]), xs[|xs| - 1])
  }

  lemma {:induction false} LargestIsMax(xs: seq<int>)
    requires xs != []
    ensures Largest(xs) in xs && forall i :: 0 <= i < |xs| ==> xs[i] <= Largest(xs)
  {
    if |xs| > 1 {
      LargestIsMax(xs[..|xs| - 1]);
      assert forall i :: 0 <= i < |xs| - 1 ==> xs[i] == xs[..|xs| - 1][i];
    }
  }

  /** The token limit in force: never below the longest sequence. */
  function Limit(seqlens: seq<int>, maxTokenLen: int): int
    requires seqlens != []
  {
    Max(maxTokenLen, Largest(seqlens))
  }

  /** The number of mini-batches this rank would choose. */
  function OwnCount(seqlens: seq<int>, maxTokenLen: int): int
    requires seqlens != [] && 0 < Limit(seqlens, maxTokenLen)
  {
    Min(|seqlens|, CeilDiv(Tokens(seqlens), Limit(seqlens, maxTokenLen)))
  }

  /** The number of mini-batches after the configured minimum and the peers' numbers. */
  function FinalCount(own: int, minCount: Option<int>, peers: seq<int>): int {
    var n := match minCount case None => own case Some(m) => Max(m, own);
    if peers == [] then n else Max(n, Largest(peers))
  }

  lemma {:induction false} TokensCover(seqlens: seq<int>, k: nat, j: nat)
    requires j < k <= |seqlens| && forall i :: 0 <= i < |seqlens| ==> 0 <= seqlens[i]
    ensures LengthSum(seqlens, AllIndices(k)) >= seqlens[j]
  {
    assert AllIndices(k)[..k - 1] == AllIndices(k - 1);
    if j < k - 1 {
      TokensCover(seqlens, k - 1, j);
    } else {
      TokensNonNegative(seqlens, k - 1);
    }
  }

  lemma {:induction false} TokensNonNegative(seqlens: seq<int>, k: nat)
    requires k <= |seqlens| && forall i :: 0 <= i < |seqlens| ==> 0 <= seqlens[i]
    ensures LengthSum(seqlens, AllIndices(k)) >= 0
  {
    if k > 0 {
      TokensNonNegative(seqlens, k - 1);
      assert AllIndices(k)[..k - 1] == AllIndices(k - 1);
    }
  }

  /** The count is enough for all tokens at the limit each; this rank's own choice never exceeds the
      number of items, and is at least one as soon as there is a token. */
  lemma CountIsEnough(seqlens: seq<int>, maxTokenLen: int, minCount: Option<int>, peers: seq<int>)
    requires seqlens != [] && forall i :: 0 <= i < |seqlens| ==> 0 <= seqlens[i]
    requires 0 < Limit(seqlens, maxTokenLen)
    ensures 0 <= OwnCount(seqlens, maxTokenLen) <= |seqlens|
    ensures 0 < Largest(seqlens) ==> 1 <= OwnCount(seqlens, maxTokenLen)
    ensures var k := FinalCount(OwnCount(seqlens, maxTokenLen), minCount, peers);
            Tokens(seqlens) <= k * Limit(seqlens, maxTokenLen)
  {
    LargestIsMax(seqlens);
    var m := Limit(seqlens, maxTokenLen);
    var own := OwnCount(seqlens, maxTokenLen);
    var k := FinalCount(own, minCount, peers);
    var j :| 0 <= j < |seqlens| && seqlens[j] == Largest(seqlens);
    TokensCover(seqlens, |seqlens|, j);
    TokensAtMost(seqlens, |seqlens|, m);
    var c := CeilDiv(Tokens(seqlens), m);
    CeilDivIsCeiling(Tokens(seqlens), m);
    if c < 0 { MulLe(c, -1, m); }
    if c <= 0 { MulLe(c, 0, m); }
    MulLe(Min(|seqlens|, c), k, m);
  }

  lemma {:induction false} TokensAtMost(seqlens: seq<int>, k: nat, m: int)
    requires k <= |seqlens| && forall i :: 0 <= i < |seqlens| ==> seqlens[i] <= m
    ensures LengthSum(seqlens, AllIndices(k)) <= k * m
  {
    if k > 0 {
      TokensAtMost(seqlens, k - 1, m);
      assert AllIndices(k)[..k - 1] == AllIndices(k - 1);
      AddOne(k - 1, m);
    }
  }

  /** The spread of the method never exceeds the limit. */
  lemma SpreadWithinLimit(seqlens: seq<int>, k: nat, maxTokenLen: int)
    requires 0 < k && seqlens != []
    ensures MaxSpread(seqlens, k, false) <= Limit(seqlens, maxTokenLen)
  {
    var items, sorted := ItemsOf(seqlens), SortedItems(seqlens);
    SortItemsKeeps(items);
    var last := sorted[|sorted| - 1];
    assert last in multiset(sorted);
    assert last in items;
    LargestIsMax(seqlens);
  }

  // ---------- heaviest first ----------

  function SquareSum(seqlens: seq<int>, part: seq<int>): int {
    if part == [] then 0
    else SquareSum(seqlens, part[..|part| - 1]) + LengthAt(seqlens, part[|part| - 1]) * LengthAt(seqlens, part[|part| - 1])
  }

  function Smallest(part: seq<int>): int {
    if part == [] then 0
    else if |part| == 1 then part[0]
    else Min(Smallest(part[..|part| - 1]), part[|part| - 1])
  }

  /** The attention work of a part, then its first index. */
  predicate Lighter(seqlens: seq<int>, a: seq<int>, b: seq<int>) {
    || SquareSum(seqlens, a) < SquareSum(seqlens, b)
    || (SquareSum(seqlens, a) == SquareSum(seqlens, b) && Smallest(a) < Smallest(b))
  }

  function InsertPart(seqlens: seq<int>, p: seq<int>, s: seq<seq<int>>): seq<seq<int>> {
    if s == [] || Lighter(seqlens, s[0], p) then [p] + s else [s[0]] + InsertPart(seqlens, p, s[1..])
  }

  function HeaviestFirst(seqlens: seq<int>, s: seq<seq<int>>): seq<seq<int>> {
    if s == [] then [] else InsertPart(seqlens, s[|s| - 1], HeaviestFirst(seqlens, s[..|s| - 1]))
  }

  predicate NonIncreasingWork(seqlens: seq<int>, s: seq<seq<int>>) {
    forall i, j :: 0 <= i < j < |s| ==> !Lighter(seqlens, s[i], s[j])
  }

  lemma {:induction false} InsertPartKeeps(seqlens: seq<int>, p: seq<int>, s: seq<seq<int>>)
    requires NonIncreasingWork(seqlens, s)
    ensures var t := InsertPart(seqlens, p, s);
            && NonIncreasingWork(seqlens, t) && |t| == |s| + 1 && IndexBag(t) == multiset(p) + IndexBag(s)
            && (forall q :: q in t <==> q == p || q in s)
  {
    hide SquareSum, Smallest;
    if s == [] || Lighter(seqlens, s[0], p) {
    } else {
      InsertPartKeeps(seqlens, p, s[1..]);
      assert s == [s[0]] + s[1..];
      var t := InsertPart(seqlens, p, s[1..]);
      assert forall q :: q in s[1..] ==> !Lighter(seqlens, s[0], q);
      assert forall i :: 0 <= i < |t| ==> t[i] in t && !Lighter(seqlens, s[0], t[i]);
    }
  }

  lemma {:induction false} HeaviestFirstKeeps(seqlens: seq<int>, s: seq<seq<int>>)
    ensures var t := HeaviestFirst(seqlens, s);
            && NonIncreasingWork(seqlens, t) && |t| == |s| && IndexBag(t) == IndexBag(s)
            && (forall q :: q in t <==> q in s)
  {
    hide InsertPart, NonIncreasingWork;
    if s == [] {
      NothingOrdered(seqlens);
    } else {
      var init, last := s[..|s| - 1], s[|s| - 1];
      HeaviestFirstKeeps(seqlens, init);
      InsertPartKeeps(seqlens, last, HeaviestFirst(seqlens, init));
      assert s == init + [last];
      BagAppend(init, last);
    }
  }

  lemma NothingOrdered(seqlens: seq<int>)
    ensures NonIncreasingWork(seqlens, [])
  {
  }

  /** What the mini-batches promise: none is empty, together they hold every index once, and each stays
      below twice the token limit. */
  ghost predicate Bounded(seqlens: seq<int>, k: nat, m: int, parts: seq<seq<int>>) {
    && |parts| == k
    && IndexBag(parts) == multiset(AllIndices(|seqlens|))
    && forall p :: p in parts ==> p != [] && LengthSum(seqlens, p) < 2 * m
  }

  lemma BalancedIsBounded(seqlens: seq<int>, k: nat, maxTokenLen: int, parts: seq<seq<int>>)
    requires 0 < k <= |seqlens| && 0 < Limit(seqlens, maxTokenLen)
    requires Balanced(seqlens, k, false, MaxSpread(seqlens, k, false), parts)
    requires Tokens(seqlens) <= k * Limit(seqlens, maxTokenLen)
    ensures Bounded(seqlens, k, Limit(seqlens, maxTokenLen), parts)
  {
    hide LengthSum, IndexBag, Tokens, Limit, MaxSpread, AllIndices;
    var m := Limit(seqlens, maxTokenLen);
    SpreadWithinLimit(seqlens, k, maxTokenLen);
    assert Balanced(seqlens, k, false, m, parts);
    forall p | p in parts
      ensures p != [] && LengthSum(seqlens, p) < 2 * m
    {
      var i :| 0 <= i < k && parts[i] == p;
      TokenBound(seqlens, k, m, parts, i);
    }
  }

  lemma HeaviestFirstBounded(seqlens: seq<int>, k: nat, m: int, parts: seq<seq<int>>)
    requires Bounded(seqlens, k, m, parts)
    ensures Bounded(seqlens, k, m, HeaviestFirst(seqlens, parts))
  {
    hide HeaviestFirst, LengthSum, IndexBag;
    HeaviestFirstKeeps(seqlens, parts);
  }

  lemma {:induction false} BagHas(parts: seq<seq<int>>, i: nat, x: int)
    requires i < |parts| && x in parts[i]
    ensures x in IndexBag(parts)
  {
    if i > 0 {
      BagHas(parts[1..], i - 1, x);
    }
  }

  lemma IndicesInRange(seqlens: seq<int>, k: nat, m: int, parts: seq<seq<int>>)
    requires Bounded(seqlens, k, m, parts)
    ensures forall p :: p in parts ==> forall x :: x in p ==> 0 <= x < |seqlens|
  {
    forall p, x | p in parts && x in p
      ensures 0 <= x < |seqlens|
    {
      var i :| 0 <= i < |parts| && parts[i] == p;
      BagHas(parts, i, x);
      assert x in multiset(AllIndices(|seqlens|));
    }
  }

  predicate FollowsOne<T(==)>(batch: seq<T>, part: seq<int>, mini: seq<T>) {
    |mini| == |part| && forall j :: 0 <= j < |mini| ==> 0 <= part[j] < |batch| && mini[j] == batch[part[j]]
  }

  /** The mini-batches follow the index lists element by element. */
  predicate Follows<T(==)>(batch: seq<T>, indices: seq<seq<int>>, minis: seq<seq<T>>) {
    |minis| == |indices| && forall i :: 0 <= i < |minis| ==> FollowsOne(batch, indices[i], minis[i])
  }

  method Gather<T(==)>(batch: seq<T>, indices: seq<seq<int>>) returns (minis: seq<seq<T>>)
    requires forall p :: p in indices ==> forall x :: x in p ==> 0 <= x < |batch|
    ensures Follows(batch, indices, minis)
  {
    minis := [];
    for i := 0 to |indices|
      invariant Follows(batch, indices[..i], minis)
    {
      var current := [];
      assert indices[i] in indices;
      for j := 0 to |indices[i]|
        invariant FollowsOne(batch, indices[i][..j], current)
      {
        assert indices[i][j] in indices[i];
        current := current + [batch[indices[i][j]]];
      }
      assert indices[i][..|indices[i]|] == indices[i];
      minis := minis + [current];
    }
    assert indices[..|indices|] == indices;
  }

  /** Splits a batch by token count. The peers' counts stand for the collective maximum. It fails exactly
      when there is nothing to split, no positive limit or count, or more mini-batches than items. */
  method RearrangeMiniBatches<T(==)>(batch: seq<T>, seqlens: seq<int>, maxTokenLen: int, minCount: Option<int>,
      peers: seq<int>, balance: bool) returns (res: Outcome<(seq<seq<T>>, seq<seq<int>>)>)
    requires |batch| == |seqlens| && forall i :: 0 <= i < |seqlens| ==> 0 <= seqlens[i]
    ensures res.Ok? <==> seqlens != [] && 0 < Limit(seqlens, maxTokenLen) &&
                         0 < FinalCount(OwnCount(seqlens, maxTokenLen), minCount, peers) <= |seqlens|
    ensures res.Ok? ==> Bounded(seqlens, FinalCount(OwnCount(seqlens, maxTokenLen), minCount, peers),
                                Limit(seqlens, maxTokenLen), res.value.1)
    ensures res.Ok? ==> Follows(batch, res.value.1, res.value.0)
    ensures res.Ok? && balance ==> NonIncreasingWork(seqlens, res.value.1)
  {
    hide Bounded, MaxSpread, LengthSum, FinalCount, OwnCount, Limit, HeaviestFirst, NonIncreasingWork, Tokens, Balanced;
    if seqlens == [] || Limit(seqlens, maxTokenLen) <= 0 {
      return Error;
    }
    CountIsEnough(seqlens, maxTokenLen, minCount, peers);
    var k := FinalCount(OwnCount(seqlens, maxTokenLen), minCount, peers);
    if k <= 0 || |seqlens| < k {
      return Error;
    }
    var parts := GetSeqlenBalancedPartitions(seqlens, k, false);
    BalancedIsBounded(seqlens, k, maxTokenLen, parts.value);
    var indices := parts.value;
    if balance {
      HeaviestFirstBounded(seqlens, k, Limit(seqlens, maxTokenLen), indices);
      HeaviestFirstKeeps(seqlens, indices);
      indices := HeaviestFirst(seqlens, indices);
    }
    IndicesInRange(seqlens, k, Limit(seqlens, maxTokenLen), indices);
    var minis := Gather(batch, indices);
    res := Ok((minis, indices));
  }

  /** With at least one token, and no minimum or peer forcing more mini-batches than items, the split
      succeeds. */
  lemma SplitSucceeds(seqlens: seq<int>, maxTokenLen: int, minCount: Option<int>, peers: seq<int>)
    requires seqlens != [] && (forall i :: 0 <= i < |seqlens| ==> 0 <= seqlens[i]) && 0 < Largest(seqlens)
    requires minCount.Some? ==> minCount.value <= |seqlens|
    requires forall i :: 0 <= i < |peers| ==> peers[i] <= |seqlens|
    ensures 0 < Limit(seqlens, maxTokenLen)
    ensures 0 < FinalCount(OwnCount(seqlens, maxTokenLen), minCount, peers) <= |seqlens|
  {
    CountIsEnough(seqlens, maxTokenLen, minCount, peers);
    if peers != [] {
      LargestIsMax(peers);
    }
  }
}
