/** States of the Karmarkar-Karp differencing method: k sets of items in descending order, and how
    merging two states changes their spread, their contents and their empty sets. */
module PartAlgebra {
  import opened Arithmetic

  /** An item: its index and its length. */
  type Item = (int, int)

  datatype Part = Part(sum: int, items: seq<Item>)

  const Empty: Part := Part(0, [])

  // ---------- the order of sets ----------

  predicate ItemLess(a: Item, b: Item) {
    a.0 < b.0 || (a.0 == b.0 && a.1 < b.1)
  }

  /** Python's lexicographic order of lists of pairs. */
  predicate ItemsLess(a: seq<Item>, b: seq<Item>) {
    if b == [] then false
    else if a == [] then true
    else if a[0] != b[0] then ItemLess(a[0], b[0])
    else ItemsLess(a[1..], b[1..])
  }

  predicate PartLess(a: Part, b: Part) {
    if a.sum != b.sum then a.sum < b.sum
    else if |a.items| != |b.items| then |a.items| < |b.items|
    else ItemsLess(a.items, b.items)
  }

  lemma {:induction false} ItemsLessTransitive(a: seq<Item>, b: seq<Item>, c: seq<Item>)
    requires ItemsLess(a, b) && ItemsLess(b, c)
    ensures ItemsLess(a, c)
  {
    if a != [] && a[0] == b[0] == c[0] {
      ItemsLessTransitive(a[1..], b[1..], c[1..]);
    }
  }

  lemma {:induction false} ItemsLessIrreflexive(a: seq<Item>)
    ensures !ItemsLess(a, a)
  {
    if a != [] {
      ItemsLessIrreflexive(a[1..]);
    }
  }

  lemma PartLessTransitive(a: Part, b: Part, c: Part)
    requires PartLess(a, b) && PartLess(b, c)
    ensures PartLess(a, c)
  {
    if a.sum == b.sum == c.sum && |a.items| == |b.items| == |c.items| {
      ItemsLessTransitive(a.items, b.items, c.items);
    }
  }

  // ---------- sorting ----------

  /** No set is followed by a greater one. */
  predicate Descending(s: seq<Part>) {
    forall i :: 0 <= i < |s| - 1 ==> !PartLess(s[i], s[i + 1])
  }

  function Insert(p: Part, s: seq<Part>): seq<Part> {
    if s == [] || PartLess(s[0], p) then [p] + s else [s[0]] + Insert(p, s[1..])
  }

  /** Python's stable `sorted(..., reverse=True)`. */
  function Sorted(s: seq<Part>): seq<Part> {
    if s == [] then [] else Insert(s[|s| - 1], Sorted(s[..|s| - 1]))
  }

  lemma {:induction false} InsertDescending(p: Part, s: seq<Part>)
    requires Descending(s)
    ensures Descending(Insert(p, s)) && |Insert(p, s)| == |s| + 1
  {
    if s == [] || PartLess(s[0], p) {
      if s != [] && PartLess(p, s[0]) {
        PartLessTransitive(p, s[0], p);
        ItemsLessIrreflexive(p.items);
      }
    } else {
      var t := Insert(p, s[1..]);
      InsertDescending(p, s[1..]);
      assert t[0] == p || t[0] == s[1];
      forall i | 0 <= i < |s|
        ensures !PartLess(([s[0]] + t)[i], ([s[0]] + t)[i + 1])
      {
        if i > 0 { assert !PartLess(t[i - 1], t[i]); }
      }
    }
  }

  lemma {:induction false} SortedDescending(s: seq<Part>)
    ensures Descending(Sorted(s)) && |Sorted(s)| == |s|
  {
    if s != [] {
      SortedDescending(s[..|s| - 1]);
      InsertDescending(s[|s| - 1], Sorted(s[..|s| - 1]));
    }
  }

  // ---------- totals over the sets of a state ----------

  function Total(s: seq<Part>): int {
    if s == [] then 0 else s[0].sum + Total(s[1..])
  }

  function Contents(s: seq<Part>): multiset<Item> {
    if s == [] then multiset{} else multiset(s[0].items) + Contents(s[1..])
  }

  /** How many sets are not empty. */
  function Filled(s: seq<Part>): nat {
    if s == [] then 0 else (if s[0].items == [] then 0 else 1) + Filled(s[1..])
  }

  lemma {:induction false} InsertKeeps(p: Part, s: seq<Part>)
    ensures Total(Insert(p, s)) == p.sum + Total(s)
    ensures Contents(Insert(p, s)) == multiset(p.items) + Contents(s)
    ensures Filled(Insert(p, s)) == (if p.items == [] then 0 else 1) + Filled(s)
    ensures multiset(Insert(p, s)) == multiset{p} + multiset(s)
  {
    if s == [] || PartLess(s[0], p) {
      assert ([p] + s)[1..] == s;
    } else {
      InsertKeeps(p, s[1..]);
      assert ([s[0]] + Insert(p, s[1..]))[1..] == Insert(p, s[1..]);
      assert s == [s[0]] + s[1..];
    }
  }

  lemma {:induction false} AppendTotals(s: seq<Part>, p: Part)
    ensures Total(s + [p]) == Total(s) + p.sum
    ensures Contents(s + [p]) == Contents(s) + multiset(p.items)
    ensures Filled(s + [p]) == Filled(s) + (if p.items == [] then 0 else 1)
  {
    if s == [] {
      assert [p][1..] == [];
    } else {
      AppendTotals(s[1..], p);
      assert (s + [p])[1..] == s[1..] + [p];
    }
  }

  /** Sorting rearranges the sets and changes nothing else. */
  lemma {:induction false} SortedKeeps(s: seq<Part>)
    ensures Total(Sorted(s)) == Total(s) && Contents(Sorted(s)) == Contents(s) && Filled(Sorted(s)) == Filled(s)
    ensures multiset(Sorted(s)) == multiset(s)
  {
    hide Insert, Total, Contents, Filled;
    if s != [] {
      var init, last := s[..|s| - 1], s[|s| - 1];
      SortedKeeps(init);
      InsertKeeps(last, Sorted(init));
      AppendTotals(init, last);
      assert s == init + [last];
    }
  }

  // ---------- merging two states ----------

  function Absorb(a: Part, b: Part): Part {
    Part(a.sum + b.sum, a.items + b.items)
  }

  /** The largest set of one state joins the smallest of the other, and so on. */
  function Paired(a: seq<Part>, b: seq<Part>): seq<Part>
    requires |a| == |b|
  {
    seq(|a|, i requires 0 <= i < |a| => Absorb(a[i], b[|a| - 1 - i]))
  }

  function Merged(a: seq<Part>, b: seq<Part>): seq<Part>
    requires |a| == |b|
  {
    Sorted(Paired(a, b))
  }

  /** All sums lie within `bound` of each other. */
  predicate Within(s: seq<Part>, bound: int) {
    forall p, q :: p in s && q in s ==> p.sum - q.sum <= bound
  }

  predicate SumsDescend(s: seq<Part>) {
    forall i, j :: 0 <= i <= j < |s| ==> s[j].sum <= s[i].sum
  }

  lemma {:induction false} DescendingSums(s: seq<Part>)
    requires Descending(s)
    ensures SumsDescend(s)
  {
    if |s| > 1 {
      DescendingSums(s[1..]);
      assert !PartLess(s[0], s[1]);
      forall i, j | 0 <= i <= j < |s|
        ensures s[j].sum <= s[i].sum
      {
        if i > 0 { assert s[1..][j - 1].sum <= s[1..][i - 1].sum; }
        else if j > 0 { assert s[1..][j - 1].sum <= s[1..][0].sum; }
      }
    }
  }

  lemma SameMembers(s: seq<Part>, t: seq<Part>)
    requires multiset(s) == multiset(t)
    ensures forall p :: p in s <==> p in t
  {
    forall p
      ensures p in s <==> p in t
    {
      assert p in s <==> p in multiset(s);
      assert p in t <==> p in multiset(t);
    }
  }

  /** The spread bound: pairing two descending states in opposite order gives sums that lie within
      the larger of the two bounds. */
  lemma PairedWithin(a: seq<Part>, b: seq<Part>, bound: int)
    requires |a| == |b| && SumsDescend(a) && SumsDescend(b) && Within(a, bound) && Within(b, bound)
    ensures Within(Paired(a, b), bound)
  {
    var c := Paired(a, b);
    hide Within;
    forall p, q | p in c && q in c
      ensures p.sum - q.sum <= bound
    {
      var i :| 0 <= i < |a| && c[i] == p;
      var j :| 0 <= j < |a| && c[j] == q;
      PairGap(a, b, i, j, bound);
    }
    WithinIntro(c, bound);
  }

  lemma WithinIntro(s: seq<Part>, bound: int)
    requires forall p, q :: p in s && q in s ==> p.sum - q.sum <= bound
    ensures Within(s, bound)
  {
  }

  lemma PairGap(a: seq<Part>, b: seq<Part>, i: nat, j: nat, bound: int)
    requires |a| == |b| && i < |a| && j < |a|
    requires SumsDescend(a) && SumsDescend(b) && Within(a, bound) && Within(b, bound)
    ensures Paired(a, b)[i].sum - Paired(a, b)[j].sum <= bound
  {
    var n := |a|;
    assert a[i] in a && a[j] in a && b[n - 1 - i] in b && b[n - 1 - j] in b;
    if i <= j {
      assert b[n - 1 - i].sum <= b[n - 1 - j].sum;
    } else {
      assert a[i].sum <= a[j].sum;
    }
  }

  lemma {:induction false} PairedTotals(a: seq<Part>, b: seq<Part>)
    requires |a| == |b|
    ensures Total(Paired(a, b)) == Total(a) + Total(b)
    ensures Contents(Paired(a, b)) == Contents(a) + Contents(b)
  {
    if a != [] {
      var init, last := b[..|b| - 1], b[|b| - 1];
      assert b == init + [last];
      AppendTotals(init, last);
      PairedTotals(a[1..], init);
      assert Paired(a, b)[1..] == Paired(a[1..], init);
      assert multiset(Absorb(a[0], last).items) == multiset(a[0].items) + multiset(last.items);
    }
  }

  // ---------- empty sets ----------

  /** Exactly the first n sets hold items. */
  predicate FilledFirst(s: seq<Part>, n: nat) {
    n <= |s| && forall i :: 0 <= i < |s| ==> (s[i].items != [] <==> i < n)
  }

  /** Empty sets have sum zero and no set has a negative sum. */
  predicate Sums(s: seq<Part>) {
    forall p :: p in s ==> 0 <= p.sum && (p.items == [] ==> p.sum == 0)
  }

  lemma {:induction false} EmptyOnly(s: seq<Part>)
    requires forall i :: 0 <= i < |s| ==> s[i].items == []
    ensures Filled(s) == 0
  {
    if s != [] {
      EmptyOnly(s[1..]);
    }
  }

  /** In a descending state the empty sets come last. */
  lemma {:induction false} DescendingFilledFirst(s: seq<Part>)
    requires Descending(s) && Sums(s)
    ensures FilledFirst(s, Filled(s))
  {
    if s != [] {
      var t := s[1..];
      assert forall p :: p in t ==> p in s;
      DescendingFilledFirst(t);
      assert forall i :: 0 < i < |s| ==> s[i] == t[i - 1];
      if s[0].items == [] && t != [] {
        assert !PartLess(s[0], s[1]) && s[0] in s && s[1] in s;
        assert t[0].items == [];
      }
    }
  }

  /** The number of filled sets among the first i after pairing: those filled from either side. */
  lemma {:induction false} PairedFilledUpTo(a: seq<Part>, b: seq<Part>, m: nat, n: nat, i: nat)
    requires |a| == |b| && FilledFirst(a, m) && FilledFirst(b, n) && i <= |a|
    ensures Filled(Paired(a, b)[..i]) == Min(i, m) + Max(0, i - Max(m, |a| - n))
  {
    var c := Paired(a, b);
    if i > 0 {
      PairedFilledUpTo(a, b, m, n, i - 1);
      assert c[..i] == c[..i - 1] + [c[i - 1]];
      AppendTotals(c[..i - 1], c[i - 1]);
      assert c[i - 1].items == a[i - 1].items + b[|a| - i].items;
    }
  }

  // ---------- what every state of the method keeps ----------

  /** A state with `count` items in k sets. */
  predicate Good(s: seq<Part>, k: nat, count: nat, bound: int) {
    && |s| == k && Descending(s) && Sums(s) && Within(s, bound)
    && Filled(s) == Min(count, k) && |Contents(s)| == count
  }

  lemma MergedGood(a: seq<Part>, b: seq<Part>, k: nat, m: nat, n: nat, bound: int)
    requires Good(a, k, m, bound) && Good(b, k, n, bound)
    ensures Good(Merged(a, b), k, m + n, bound)
    ensures Contents(Merged(a, b)) == Contents(a) + Contents(b)
    ensures Total(Merged(a, b)) == Total(a) + Total(b)
    ensures FilledFirst(Merged(a, b), Min(m + n, k))
  {
    DescendingSums(a);
    DescendingSums(b);
    PairedWithin(a, b, bound);
    PairedTotals(a, b);
    PairedFilled(a, b, m, n);
    PairedSums(a, b);
    hide Paired, Descending, SumsDescend, Filled, Contents, Total, Within, Sums, FilledFirst;
    SortedGood(Paired(a, b), k, m + n, bound);
  }

  lemma PairedFilled(a: seq<Part>, b: seq<Part>, m: nat, n: nat)
    requires |a| == |b| && Descending(a) && Descending(b) && Sums(a) && Sums(b)
    requires Filled(a) == Min(m, |a|) && Filled(b) == Min(n, |b|)
    ensures |Paired(a, b)| == |a| && Filled(Paired(a, b)) == Min(m + n, |a|)
  {
    DescendingFilledFirst(a);
    DescendingFilledFirst(b);
    assert Paired(a, b)[..|a|] == Paired(a, b);
    hide Filled, Descending, Sums;
    PairedFilledUpTo(a, b, Min(m, |a|), Min(n, |a|), |a|);
  }

  /** Sorting turns sets with the right totals into a state. */
  lemma SortedGood(c: seq<Part>, k: nat, count: nat, bound: int)
    requires |c| == k && Sums(c) && Within(c, bound) && Filled(c) == Min(count, k) && |Contents(c)| == count
    ensures Good(Sorted(c), k, count, bound) && FilledFirst(Sorted(c), Min(count, k))
    ensures Contents(Sorted(c)) == Contents(c) && Total(Sorted(c)) == Total(c)
  {
    SortedDescending(c);
    SortedKeeps(c);
    SameMembers(Sorted(c), c);
    hide Descending, Filled, Contents, Sorted, Total;
    DescendingFilledFirst(Sorted(c));
  }

  lemma PairedSums(a: seq<Part>, b: seq<Part>)
    requires |a| == |b| && Sums(a) && Sums(b)
    ensures Sums(Paired(a, b))
  {
    var c := Paired(a, b);
    forall p | p in c
      ensures 0 <= p.sum && (p.items == [] ==> p.sum == 0)
    {
      var i :| 0 <= i < |c| && c[i] == p;
      assert a[i] in a && b[|a| - 1 - i] in b;
    }
  }

  /** Sets of equal size stay so: the equal-size mode. */
  predicate AllOfSize(s: seq<Part>, size: nat) {
    forall p :: p in s ==> |p.items| == size
  }

  lemma MergedAllOfSize(a: seq<Part>, b: seq<Part>, m: nat, n: nat)
    requires |a| == |b| && AllOfSize(a, m) && AllOfSize(b, n)
    ensures AllOfSize(Merged(a, b), m + n)
  {
    var c := Paired(a, b);
    SortedKeeps(c);
    SameMembers(Sorted(c), c);
    forall p | p in c
      ensures |p.items| == m + n
    {
      var i :| 0 <= i < |c| && c[i] == p;
      assert a[i] in a && b[|a| - 1 - i] in b;
    }
  }

  /** The order in which states leave the heap: larger spread first, then larger first set. */
  predicate StateLess(a: seq<Part>, b: seq<Part>)
    requires a != [] && b != []
  {
    if Spread(a) != Spread(b) then Spread(a) > Spread(b) else PartLess(b[0], a[0])
  }

  function Spread(s: seq<Part>): int
    requires s != []
  {
    s[0].sum - s[|s| - 1].sum
  }

  lemma StateLessTransitive(a: seq<Part>, b: seq<Part>, c: seq<Part>)
    requires a != [] && b != [] && c != [] && StateLess(a, b) && StateLess(b, c)
    ensures StateLess(a, c)
  {
    if Spread(a) == Spread(b) == Spread(c) {
      PartLessTransitive(c[0], b[0], a[0]);
    }
  }

  lemma StateLessIrreflexive(a: seq<Part>)
    requires a != []
    ensures !StateLess(a, a)
  {
    ItemsLessIrreflexive(a[0].items);
  }
}
