/** Balanced partitions of sequence lengths, and mini-batches bounded in tokens. */
module Balance {
  import opened Arithmetic
  import opened Common
  import opened PartAlgebra
  import opened PartStates

  // ---------- items in ascending order of length ----------

  predicate Shorter(a: Item, b: Item) {
    a.1 < b.1 || (a.1 == b.1 && a.0 < b.0)
  }

  function InsertItem(x: Item, s: seq<Item>): seq<Item> {
    if s == [] || Shorter(x, s[0]) then [x] + s else [s[0]] + InsertItem(x, s[1..])
  }

  function SortItems(s: seq<Item>): seq<Item> {
    if s == [] then [] else InsertItem(s[|s| - 1], SortItems(s[..|s| - 1]))
  }

  predicate Ascending(s: seq<Item>) {
    forall i, j :: 0 <= i <= j < |s| ==> s[i].1 <= s[j].1
  }

  lemma {:induction false} InsertItemKeeps(x: Item, s: seq<Item>)
    requires Ascending(s)
    ensures multiset(InsertItem(x, s)) == multiset{x} + multiset(s) && Ascending(InsertItem(x, s))
    ensures |InsertItem(x, s)| == |s| + 1
    ensures forall i :: 0 <= i <= |s| ==> InsertItem(x, s)[i] == x || InsertItem(x, s)[i] in s
  {
    if s == [] || Shorter(x, s[0]) {
    } else {
      InsertItemKeeps(x, s[1..]);
      assert s == [s[0]] + s[1..];
      var t := InsertItem(x, s[1..]);
      hide InsertItem;
      assert forall i :: 0 <= i < |t| ==> s[0].1 <= t[i].1;
    }
  }

  lemma SumOfFirst(x: Item, s: seq<Item>)
    ensures SumOf([x] + s) == x.1 + SumOf(s)
  {
    SumOfConcat([x], s);
    assert [x][..0] == [] && SumOf([]) == 0;
    assert SumOf([x]) == SumOf([x][..0]) + x.1;
  }

  lemma {:induction false} InsertItemSum(x: Item, s: seq<Item>)
    ensures SumOf(InsertItem(x, s)) == x.1 + SumOf(s)
  {
    hide SumOf;
    if s == [] || Shorter(x, s[0]) {
      SumOfFirst(x, s);
    } else {
      InsertItemSum(x, s[1..]);
      assert s == [s[0]] + s[1..];
      SumOfFirst(s[0], s[1..]);
      SumOfFirst(s[0], InsertItem(x, s[1..]));
    }
  }

  lemma {:induction false} SortItemsKeeps(s: seq<Item>)
    ensures SumOf(SortItems(s)) == SumOf(s)
    ensures multiset(SortItems(s)) == multiset(s) && Ascending(SortItems(s)) && |SortItems(s)| == |s|
  {
    hide InsertItem, Ascending;
    if s == [] {
      AscendingEmpty();
    } else {
      var init, last := s[..|s| - 1], s[|s| - 1];
      SortItemsKeeps(init);
      InsertItemKeeps(last, SortItems(init));
      InsertItemSum(last, SortItems(init));
      assert s == init + [last];
    }
  }

  lemma AscendingEmpty()
    ensures Ascending([])
  {
  }

  // ---------- the heap of states ----------

  /** Valid states of k sets each, none sharing an object with another. */
  ghost predicate HeapOk(heap: seq<State>, k: nat)
    reads *
  {
    && (forall i :: 0 <= i < |heap| ==> heap[i].Valid() && heap[i].k == k)
    && forall i, j :: 0 <= i < j < |heap| ==> heap[i].Footprint() !! heap[j].Footprint()
  }

  function Snapshot(heap: seq<State>): (vs: seq<seq<Part>>)
    reads *
    ensures |vs| == |heap| && forall i :: 0 <= i < |vs| ==> vs[i] == heap[i].Views()
  {
    seq(|heap|, i requires 0 <= i < |heap| reads * => heap[i].Views())
  }

  function Drop<T>(s: seq<T>, i: nat): seq<T>
    requires i < |s|
  {
    s[..i] + s[i + 1..]
  }

  predicate NoneEmpty(vs: seq<seq<Part>>) {
    forall i :: 0 <= i < |vs| ==> vs[i] != []
  }

  /** No state precedes the given one: what popping the heap yields. */
  predicate IsLeast(vs: seq<seq<Part>>, least: nat)
    requires NoneEmpty(vs)
  {
    least < |vs| && forall i :: 0 <= i < |vs| ==> !StateLess(vs[i], vs[least])
  }

  method LeastState(vs: seq<seq<Part>>) returns (least: nat)
    requires vs != [] && NoneEmpty(vs)
    ensures IsLeast(vs, least)
  {
    least := 0;
    StateLessIrreflexive(vs[0]);
    hide StateLess;
    for i := 1 to |vs|
      invariant least < i
      invariant forall j :: 0 <= j < i ==> !StateLess(vs[j], vs[least])
    {
      if StateLess(vs[i], vs[least]) {
        StateLessIrreflexive(vs[i]);
        forall j | 0 <= j < i
          ensures !StateLess(vs[j], vs[i])
        {
          if StateLess(vs[j], vs[i]) { StateLessTransitive(vs[j], vs[i], vs[least]); }
        }
        least := i;
      }
    }
  }

  /** Merging one state of the heap into another leaves the rest alone. */
  method MergeInto(heap: seq<State>, i: nat, j: nat, k: nat)
    requires HeapOk(heap, k) && i < |heap| && j < |heap| && i != j
    modifies heap[i].Footprint()
    ensures HeapOk(heap, k)
    ensures forall n :: 0 <= n < |heap| ==> heap[n].Footprint() == old(heap[n].Footprint())
    ensures forall n :: 0 <= n < |heap| && n != i ==> heap[n].Views() == old(heap[n].Views())
    ensures heap[i].Views() == Merged(old(heap[i].Views()), old(heap[j].Views()))
  {
    assert heap[i].Footprint() !! heap[j].Footprint();
    heap[i].Merge(heap[j]);
    forall n | 0 <= n < |heap| && n != i
      ensures heap[n].Footprint() == old(heap[n].Footprint()) && heap[n].Views() == old(heap[n].Views())
      ensures heap[n].Valid()
    {
      assert old(heap[n].Footprint()) !! old(heap[i].Footprint());
      assert heap[n] in old(heap[n].Footprint()) && heap[n] !in old(heap[i].Footprint());
      assert forall s: object :: s in old(heap[n].sets) ==> s !in old(heap[i].Footprint());
    }
  }

  // ---------- what a round keeps ----------

  function AllContents(vs: seq<seq<Part>>): multiset<Item> {
    if vs == [] then multiset{} else AllContents(vs[..|vs| - 1]) + Contents(vs[|vs| - 1])
  }

  function AllTotal(vs: seq<seq<Part>>): int {
    if vs == [] then 0 else AllTotal(vs[..|vs| - 1]) + Total(vs[|vs| - 1])
  }

  predicate Healthy(vs: seq<seq<Part>>, k: nat, bound: int) {
    forall v :: v in vs ==> Good(v, k, |Contents(v)|, bound)
  }

  ghost predicate Uniform(v: seq<Part>) {
    exists size: nat :: AllOfSize(v, size)
  }

  ghost predicate AllUniform(vs: seq<seq<Part>>) {
    forall v :: v in vs ==> Uniform(v)
  }

  lemma {:induction false} AllConcat(a: seq<seq<Part>>, b: seq<seq<Part>>)
    ensures AllContents(a + b) == AllContents(a) + AllContents(b)
    ensures AllTotal(a + b) == AllTotal(a) + AllTotal(b)
  {
    hide Contents, Total;
    if b == [] {
      assert a + b == a;
    } else {
      assert (a + b)[..|a + b| - 1] == a + b[..|b| - 1];
      AllConcat(a, b[..|b| - 1]);
    }
  }

  lemma AllOfOne(v: seq<Part>)
    ensures AllContents([v]) == Contents(v) && AllTotal([v]) == Total(v)
  {
    assert [v][..0] == [];
    assert AllContents([]) == multiset{} && AllTotal([]) == 0;
  }

  lemma AllDrop(vs: seq<seq<Part>>, i: nat)
    requires i < |vs|
    ensures AllContents(vs) == AllContents(Drop(vs, i)) + Contents(vs[i])
    ensures AllTotal(vs) == AllTotal(Drop(vs, i)) + Total(vs[i])
  {
    hide Contents, Total, AllContents, AllTotal;
    assert vs == vs[..i] + ([vs[i]] + vs[i + 1..]);
    AllConcat(vs[..i], [vs[i]] + vs[i + 1..]);
    AllConcat([vs[i]], vs[i + 1..]);
    AllOfOne(vs[i]);
    AllConcat(vs[..i], vs[i + 1..]);
  }

  /** Two popped states replaced by their merge. */
  function Round(vs: seq<seq<Part>>, i: nat, j: nat): seq<seq<Part>>
    requires i < |vs| && j < |vs| - 1 && |vs[i]| == |Drop(vs, i)[j]|
  {
    Drop(Drop(vs, i), j) + [Merged(vs[i], Drop(vs, i)[j])]
  }

  lemma RoundMembers(vs: seq<seq<Part>>, i: nat, j: nat)
    requires i < |vs| && j < |vs| - 1 && |vs[i]| == |Drop(vs, i)[j]|
    ensures Drop(vs, i)[j] in vs && vs[i] in vs
    ensures forall v :: v in Round(vs, i, j) ==> v in vs || v == Merged(vs[i], Drop(vs, i)[j])
  {
    hide Merged;
    DropMembers(vs, i);
    DropMembers(Drop(vs, i), j);
  }

  lemma DropMembers<T>(s: seq<T>, i: nat)
    requires i < |s|
    ensures forall v :: v in Drop(s, i) ==> v in s
  {
  }

  lemma RoundKeeps(vs: seq<seq<Part>>, i: nat, j: nat, k: nat, bound: int)
    requires Healthy(vs, k, bound) && i < |vs| && j < |vs| - 1 && |vs[i]| == |Drop(vs, i)[j]|
    ensures Healthy(Round(vs, i, j), k, bound)
    ensures AllContents(Round(vs, i, j)) == AllContents(vs) && AllTotal(Round(vs, i, j)) == AllTotal(vs)
  {
    var rest := Drop(vs, i);
    var a, b := vs[i], rest[j];
    RoundMembers(vs, i, j);
    hide Good, Merged, Contents, Total, AllContents, AllTotal;
    MergedGood(a, b, k, |Contents(a)|, |Contents(b)|, bound);
    AllDrop(vs, i);
    AllDrop(rest, j);
    AllConcat(Drop(rest, j), [Merged(a, b)]);
    AllOfOne(Merged(a, b));
  }

  lemma RoundKeepsUniform(vs: seq<seq<Part>>, i: nat, j: nat)
    requires AllUniform(vs) && i < |vs| && j < |vs| - 1 && |vs[i]| == |Drop(vs, i)[j]|
    ensures AllUniform(Round(vs, i, j))
  {
    var rest := Drop(vs, i);
    var a, b := vs[i], rest[j];
    RoundMembers(vs, i, j);
    assert Uniform(a) && Uniform(b);
    var m: nat :| AllOfSize(a, m);
    var n: nat :| AllOfSize(b, n);
    MergedAllOfSize(a, b, m, n);
    hide AllOfSize, Merged;
    assert Uniform(Merged(a, b));
  }

  // ---------- new states ----------

  /** The sets of a new state hold the items given, and nothing else. */
  predicate HasTotals(ps: seq<Part>, items: seq<Item>) {
    Contents(ps) == multiset(items) && Total(ps) == SumOf(items) && Filled(ps) == |items|
  }

  lemma HasTotalsAppend(ps: seq<Part>, items: seq<Item>, x: Item)
    requires HasTotals(ps, items)
    ensures HasTotals(ps + [Part(x.1, [x])], items + [x])
  {
    AppendTotals(ps, Part(x.1, [x]));
    hide Contents, Total, Filled;
    assert (items + [x])[..|items|] == items;
  }

  lemma {:induction false} InitItems(items: seq<Item>, k: nat, i: nat)
    requires i <= |items| <= k
    ensures HasTotals(InitParts(items, k)[..i], items[..i])
  {
    if i > 0 {
      var ps := InitParts(items, k);
      InitItems(items, k, i - 1);
      HasTotalsAppend(ps[..i - 1], items[..i - 1], items[i - 1]);
      hide HasTotals;
      assert ps[..i] == ps[..i - 1] + [Part(items[i - 1].1, [items[i - 1]])];
      assert items[..i] == items[..i - 1] + [items[i - 1]];
    }
  }

  lemma {:induction false} InitTotals(items: seq<Item>, k: nat, i: nat)
    requires |items| <= i <= k
    ensures HasTotals(InitParts(items, k)[..i], items)
  {
    if i == |items| {
      InitItems(items, k, i);
      assert items[..i] == items;
    } else {
      var ps := InitParts(items, k);
      InitTotals(items, k, i - 1);
      assert ps[..i] == ps[..i - 1] + [ps[i - 1]];
      AppendTotals(ps[..i - 1], ps[i - 1]);
    }
  }

  /** A new state is healthy within any bound on the gaps between its sets. */
  lemma {:induction false} InitGood(items: seq<Item>, k: nat, bound: int)
    requires 0 < |items| <= k && (forall x :: x in items ==> 0 <= x.1)
    requires Within(InitParts(items, k), bound)
    ensures var v := Sorted(InitParts(items, k));
            && Good(v, k, |items|, bound) && Contents(v) == multiset(items) && Total(v) == SumOf(items)
  {
    var ps := InitParts(items, k);
    InitTotals(items, k, k);
    assert ps[..k] == ps;
    forall p | p in ps
      ensures 0 <= p.sum && (p.items == [] ==> p.sum == 0)
    {
      var i :| 0 <= i < k && ps[i] == p;
      if i < |items| { assert items[i] in items; }
    }
    assert Sums(ps);
    hide InitParts, Contents, Total, Filled, Sorted, Within, Sums;
    SortedGood(ps, k, |items|, bound);
  }

  lemma InitUniform(items: seq<Item>, k: nat)
    requires |items| == k
    ensures AllOfSize(Sorted(InitParts(items, k)), 1)
  {
    var ps := InitParts(items, k);
    SortedKeeps(ps);
    SameMembers(Sorted(ps), ps);
  }

  // ---------- the bounds ----------

  /** The widest gap within the consecutive groups of k items. */
  function Widest(items: seq<Item>, k: nat): int
    requires 0 < k
  {
    if |items| < k then 0 else Max(items[k - 1].1 - items[0].1, Widest(items[k..], k))
  }

  /** The spread no new state exceeds, and hence none of the method's states. */
  function SpreadBound(items: seq<Item>, k: nat, equalSize: bool): int
    requires 0 < k && items != []
  {
    if equalSize then Widest(items, k) else items[|items| - 1].1
  }

  lemma SingleWithin(item: Item, k: nat, bound: int)
    requires 0 <= item.1 <= bound
    ensures Within(InitParts([item], k), bound)
  {
  }

  lemma GroupWithin(items: seq<Item>, k: nat, bound: int)
    requires |items| == k && 0 < k && Ascending(items) && items[k - 1].1 - items[0].1 <= bound
    ensures Within(InitParts(items, k), bound)
  {
    var ps := InitParts(items, k);
    forall p, q | p in ps && q in ps
      ensures p.sum - q.sum <= bound
    {
      var i :| 0 <= i < k && ps[i] == p;
      var j :| 0 <= j < k && ps[j] == q;
      assert items[i].1 <= items[k - 1].1 && items[0].1 <= items[j].1;
    }
  }

  lemma WidestCovers(items: seq<Item>, k: nat)
    requires 0 < k <= |items|
    ensures items[k - 1].1 - items[0].1 <= Widest(items, k) && Widest(items[k..], k) <= Widest(items, k)
  {
  }

  // ---------- the method ----------

  /** The items of a list of lengths: each index with its length. */
  function ItemsOf(seqlens: seq<int>): seq<Item> {
    seq(|seqlens|, i requires 0 <= i < |seqlens| => (i, seqlens[i]))
  }

  function SortedItems(seqlens: seq<int>): seq<Item> {
    SortItems(ItemsOf(seqlens))
  }

  /** Healthy states that hold exactly the given items. */
  predicate Holds(vs: seq<seq<Part>>, k: nat, bound: int, items: seq<Item>) {
    Healthy(vs, k, bound) && AllContents(vs) == multiset(items) && AllTotal(vs) == SumOf(items)
  }

  lemma HoldsMore(vs: seq<seq<Part>>, k: nat, bound: int, held: seq<Item>, items: seq<Item>)
    requires Holds(vs, k, bound, held)
    requires 0 < |items| <= k && (forall x :: x in items ==> 0 <= x.1) && Within(InitParts(items, k), bound)
    ensures Holds([Sorted(InitParts(items, k))] + vs, k, bound, items + held)
  {
    var v := Sorted(InitParts(items, k));
    InitGood(items, k, bound);
    AllConcat([v], vs);
    AllOfOne(v);
    SumOfConcat(items, held);
    hide Good, Contents, Total, AllContents, AllTotal, Sorted, InitParts;
  }

  lemma SnapshotDrop(heap: seq<State>, i: nat, k: nat)
    requires i < |heap| && HeapOk(heap, k)
    ensures Snapshot(Drop(heap, i)) == Drop(Snapshot(heap), i) && HeapOk(Drop(heap, i), k)
  {
    var rest := Drop(heap, i);
    assert forall n :: 0 <= n < |rest| ==> rest[n] == if n < i then heap[n] else heap[n + 1];
  }

  /** Adds a new state to the heap. */
  method Push(heap: seq<State>, items: seq<Item>, k: nat) returns (next: seq<State>)
    requires 0 < k && (|items| == 1 || |items| == k) && HeapOk(heap, k)
    ensures HeapOk(next, k) && |next| == |heap| + 1 && next[..|heap|] == heap && fresh(next[|heap|].Footprint())
    ensures Snapshot(next) == old(Snapshot(heap)) + [Sorted(InitParts(items, k))]
  {
    var s := new State(items, k);
    hide Sorted;
    assert forall i :: 0 <= i < |heap| ==> heap[i].Valid() && heap[i].Views() == old(heap[i].Views());
    next := heap + [s];
    forall i | 0 <= i < |heap|
      ensures next[i].Footprint() !! s.Footprint()
    {
      assert forall o :: o in next[i].Footprint() ==> old(allocated(o));
    }
  }

  lemma WholeGroupLeft(left: int, k: int)
    requires 0 < k && 0 < left && left % k == 0
    ensures k <= left && (left - k) % k == 0
  {
    ExactDiv(left, k);
    if left / k <= 0 { MulLe(left / k, 0, k); }
    MulLe(1, left / k, k);
    assert left - k == (left / k - 1) * k;
    MulDiv(left / k - 1, k);
  }

  /** How many of the remaining items the next state takes. */
  function Step(left: nat, k: nat, equalSize: bool): nat
    requires 0 < k && 0 < left
    ensures 0 < Step(left, k, equalSize) <= left
  {
    if equalSize then Min(k, left) else 1
  }

  /** The states the heap starts with. */
  function InitialStates(items: seq<Item>, k: nat, equalSize: bool): seq<seq<Part>>
    requires 0 < k
  {
    if items == [] then []
    else
      var n := Step(|items|, k, equalSize);
      [Sorted(InitParts(items[..n], k))] + InitialStates(items[n..], k, equalSize)
  }

  predicate Fitting(n: nat, k: nat, equalSize: bool)
    requires 0 < k
  {
    equalSize ==> n % k == 0
  }

  /** The bound covers the spread of every state still to be made. */
  predicate BoundOk(items: seq<Item>, k: nat, equalSize: bool, bound: int)
    requires 0 < k
  {
    && Ascending(items) && (forall x :: x in items ==> 0 <= x.1) && Fitting(|items|, k, equalSize)
    && (items != [] ==> if equalSize then Widest(items, k) <= bound else items[|items| - 1].1 <= bound)
  }

  /** The next items to become a state make a healthy one. */
  lemma GroupWithinBound(items: seq<Item>, k: nat, equalSize: bool, bound: int)
    requires 0 < k && items != [] && BoundOk(items, k, equalSize, bound)
    ensures var n := Step(|items|, k, equalSize);
            && 0 < n <= k && Within(InitParts(items[..n], k), bound) && BoundOk(items[n..], k, equalSize, bound)
            && forall x :: x in items[..n] ==> 0 <= x.1
  {
    var n := Step(|items|, k, equalSize);
    assert forall x :: x in items[..n] ==> x in items;
    assert forall x :: x in items[n..] ==> x in items;
    if equalSize {
      WholeGroupLeft(|items|, k);
      WidestCovers(items, k);
      GroupWithin(items[..k], k, bound);
    } else {
      assert items[0] in items && items[0].1 <= items[|items| - 1].1;
      assert items[..1] == [items[0]];
      SingleWithin(items[0], k, bound);
    }
  }

  lemma FirstStateHolds(items: seq<Item>, k: nat, equalSize: bool, bound: int) returns (n: nat)
    requires 0 < k && items != [] && BoundOk(items, k, equalSize, bound)
    ensures 0 < n <= |items| && n <= k && BoundOk(items[n..], k, equalSize, bound)
    ensures Within(InitParts(items[..n], k), bound) && forall x :: x in items[..n] ==> 0 <= x.1
    ensures InitialStates(items, k, equalSize) ==
            [Sorted(InitParts(items[..n], k))] + InitialStates(items[n..], k, equalSize)
  {
    n := Step(|items|, k, equalSize);
    GroupWithinBound(items, k, equalSize, bound);
  }

  lemma HoldsNothing(k: nat, equalSize: bool, bound: int)
    requires 0 < k
    ensures Holds(InitialStates([], k, equalSize), k, bound, [])
  {
  }

  lemma {:induction false} InitialStatesHold(items: seq<Item>, k: nat, equalSize: bool, bound: int)
    requires 0 < k && BoundOk(items, k, equalSize, bound)
    ensures Holds(InitialStates(items, k, equalSize), k, bound, items)
  {
    hide *;
    if items == [] {
      HoldsNothing(k, equalSize, bound);
    } else {
      var n := FirstStateHolds(items, k, equalSize, bound);
      InitialStatesHold(items[n..], k, equalSize, bound);
      HoldsMore(InitialStates(items[n..], k, equalSize), k, bound, items[n..], items[..n]);
      assert items == items[..n] + items[n..];
    }
  }

  lemma {:induction false} InitialStatesUniform(items: seq<Item>, k: nat)
    requires 0 < k && Fitting(|items|, k, true)
    ensures AllUniform(InitialStates(items, k, true))
  {
    if items != [] {
      WholeGroupLeft(|items|, k);
      InitialStatesUniform(items[k..], k);
      InitUniform(items[..k], k);
      hide Sorted, InitParts;
      assert Uniform(Sorted(InitParts(items[..k], k)));
    }
  }

  lemma InitialStatesStep(items: seq<Item>, k: nat, equalSize: bool, offset: nat)
    requires 0 < k && offset < |items| && Fitting(|items| - offset, k, equalSize)
    ensures var n := if equalSize then k else 1;
            && offset + n <= |items| && Fitting(|items| - offset - n, k, equalSize)
            && InitialStates(items[offset..], k, equalSize) ==
               [Sorted(InitParts(items[offset..offset + n], k))] + InitialStates(items[offset + n..], k, equalSize)
  {
    if equalSize { WholeGroupLeft(|items| - offset, k); }
    var n := if equalSize then k else 1;
    hide Sorted, InitParts;
    assert items[offset..][..n] == items[offset..offset + n] && items[offset..][n..] == items[offset + n..];
  }

  lemma NoItemsLeft(items: seq<Item>, k: nat, equalSize: bool)
    requires 0 < k && Fitting(0, k, equalSize)
    ensures InitialStates(items[|items|..], k, equalSize) == [] && Fitting(|items[|items|..]|, k, equalSize)
  {
  }

  /** One state for each item, or for each group of k items. */
  method FillHeap(items: seq<Item>, k: nat, equalSize: bool) returns (heap: seq<State>)
    requires 0 < k && Fitting(|items|, k, equalSize)
    ensures HeapOk(heap, k) && forall s :: s in heap ==> fresh(s.Footprint())
    ensures Snapshot(heap) == InitialStates(items, k, equalSize)
  {
    hide Fitting, Sorted, InitParts, InitialStates;
    heap := [];
    var offset := 0;
    assert items[0..] == items;
    while offset < |items|
      invariant 0 <= offset <= |items| && Fitting(|items| - offset, k, equalSize)
      invariant HeapOk(heap, k) && forall s :: s in heap ==> fresh(s.Footprint())
      invariant Snapshot(heap) + InitialStates(items[offset..], k, equalSize) == InitialStates(items, k, equalSize)
    {
      InitialStatesStep(items, k, equalSize, offset);
      var n := if equalSize then k else 1;
      heap := Push(heap, items[offset..offset + n], k);
      offset := offset + n;
    }
    NoItemsLeft(items, k, equalSize);
  }

  lemma DropTwo<T>(s: seq<T>, i: nat, j: nat, n: nat) returns (m: nat)
    requires i < |s| && j < |s| - 1 && n < |s| - 2
    ensures m < |s| && m != i && Drop(Drop(s, i), j)[n] == s[m]
  {
    var r := if n < j then n else n + 1;
    assert Drop(Drop(s, i), j)[n] == Drop(s, i)[r];
    m := if r < i then r else r + 1;
  }

  /** Taking two states off the heap and putting the first of them back leaves a heap in order, whose
      contents changed accordingly. */
  lemma NextHeap(heap: seq<State>, i: nat, j: nat, k: nat)
    requires HeapOk(heap, k) && i < |heap| && j < |heap| - 1
    ensures var rest := Drop(Drop(heap, i), j);
            HeapOk(rest + [heap[i]], k) && Snapshot(rest + [heap[i]]) == Drop(Drop(Snapshot(heap), i), j) + [heap[i].Views()]
  {
    SnapshotDrop(heap, i, k);
    SnapshotDrop(Drop(heap, i), j, k);
    var rest := Drop(Drop(heap, i), j);
    forall n | 0 <= n < |rest|
      ensures rest[n].Footprint() !! heap[i].Footprint()
    {
      var m := DropTwo(heap, i, j, n);
    }
    assert Snapshot(rest + [heap[i]]) == Snapshot(rest) + [heap[i].Views()];
  }

  /** The two states the heap yields next: the second one by its place among the others. */
  method PickTwo(vs: seq<seq<Part>>) returns (i: nat, j: nat)
    requires |vs| > 1 && NoneEmpty(vs)
    ensures i < |vs| && j < |vs| - 1 && NoneEmpty(Drop(vs, i)) && IsLeast(vs, i) && IsLeast(Drop(vs, i), j)
  {
    i := LeastState(vs);
    DropMembers(vs, i);
    assert forall n :: 0 <= n < |Drop(vs, i)| ==> Drop(vs, i)[n] in Drop(vs, i);
    j := LeastState(Drop(vs, i));
  }

  /** What every round keeps. */
  ghost predicate RoundInv(vs: seq<seq<Part>>, k: nat, bound: int, items: seq<Item>, equalSize: bool) {
    vs != [] && 0 < k && Holds(vs, k, bound, items) && (equalSize ==> AllUniform(vs))
  }

  lemma RoundInvKept(vs: seq<seq<Part>>, i: nat, j: nat, k: nat, bound: int, items: seq<Item>, equalSize: bool)
    requires RoundInv(vs, k, bound, items, equalSize) && i < |vs| && j < |vs| - 1 && |vs[i]| == |Drop(vs, i)[j]|
    ensures RoundInv(Round(vs, i, j), k, bound, items, equalSize)
  {
    RoundKeeps(vs, i, j, k, bound);
    if equalSize { RoundKeepsUniform(vs, i, j); }
  }

  lemma NoEmptyState(vs: seq<seq<Part>>, k: nat, bound: int, items: seq<Item>, equalSize: bool)
    requires RoundInv(vs, k, bound, items, equalSize)
    ensures NoneEmpty(vs)
  {
    assert forall i :: 0 <= i < |vs| ==> vs[i] in vs;
  }

  lemma InitialInv(items: seq<Item>, k: nat, equalSize: bool, bound: int)
    requires 0 < k && items != [] && BoundOk(items, k, equalSize, bound)
    ensures RoundInv(InitialStates(items, k, equalSize), k, bound, items, equalSize)
    ensures Fitting(|items|, k, equalSize) && InitialStates(items, k, equalSize) != []
  {
    InitialStatesHold(items, k, equalSize, bound);
    if equalSize { InitialStatesUniform(items, k); }
  }

  /** Merges the states of a heap until one is left. */
  method Reduce(items: seq<Item>, k: nat, equalSize: bool, ghost bound: int) returns (final: State)
    requires 0 < k && items != [] && BoundOk(items, k, equalSize, bound)
    ensures final.Valid() && final.k == k && fresh(final.Footprint())
    ensures RoundInv([final.Views()], k, bound, items, equalSize)
  {
    hide InitialStates, RoundInv, BoundOk, IsLeast, Fitting, Round;
    InitialInv(items, k, equalSize, bound);
    var heap := FillHeap(items, k, equalSize);
    assert |heap| == |Snapshot(heap)| && heap != [];
    while |heap| > 1
      invariant heap != [] && HeapOk(heap, k) && forall s :: s in heap ==> fresh(s.Footprint())
      invariant RoundInv(Snapshot(heap), k, bound, items, equalSize)
    {
      NoEmptyState(Snapshot(heap), k, bound, items, equalSize);
      ghost var vs := Snapshot(heap);
      var i, j := PickTwo(Snapshot(heap));
      heap := MergePicked(heap, i, j, k);
      RoundInvKept(vs, i, j, k, bound, items, equalSize);
    }
    final := heap[0];
    assert Snapshot(heap) == [final.Views()];
  }

  method MergePicked(heap: seq<State>, i: nat, j: nat, k: nat) returns (next: seq<State>)
    requires HeapOk(heap, k) && i < |heap| && j < |heap| - 1
    modifies heap[i].Footprint()
    ensures HeapOk(next, k) && |next| == |heap| - 1
    ensures forall s :: s in next ==> s in heap && s.Footprint() == old(s.Footprint())
    ensures var vs := old(Snapshot(heap));
            |vs[i]| == |Drop(vs, i)[j]| && Snapshot(next) == Round(vs, i, j)
  {
    hide Merged;
    ghost var vs := Snapshot(heap);
    var other := if j < i then j else j + 1;
    assert Drop(vs, i)[j] == heap[other].Views();
    MergeInto(heap, i, other, k);
    NextHeap(heap, i, j, k);
    DropMembers(heap, i);
    DropMembers(Drop(heap, i), j);
    assert Drop(Snapshot(heap), i) == Drop(vs, i);
    next := Drop(Drop(heap, i), j) + [heap[i]];
  }

  // ---------- the partitions ----------

  function LengthAt(seqlens: seq<int>, i: int): int {
    if 0 <= i < |seqlens| then seqlens[i] else 0
  }

  /** The total length of the items of a partition. */
  function LengthSum(seqlens: seq<int>, part: seq<int>): int {
    if part == [] then 0 else LengthSum(seqlens, part[..|part| - 1]) + LengthAt(seqlens, part[|part| - 1])
  }

  /** All indices of a list of partitions, with multiplicity. */
  function IndexBag(parts: seq<seq<int>>): multiset<int> {
    if parts == [] then multiset{} else multiset(parts[0]) + IndexBag(parts[1..])
  }

  function AllIndices(n: nat): seq<int> {
    seq(n, i => i)
  }

  /** Every item carries the length of its index. */
  predicate Labelled(items: seq<Item>, seqlens: seq<int>) {
    forall x :: x in items ==> x.1 == LengthAt(seqlens, x.0)
  }

  predicate AllLabelled(v: seq<Part>, seqlens: seq<int>) {
    forall i :: 0 <= i < |v| ==> Labelled(v[i].items, seqlens)
  }

  lemma {:induction false} SumOfLabelled(items: seq<Item>, seqlens: seq<int>)
    requires Labelled(items, seqlens)
    ensures SumOf(items) == LengthSum(seqlens, Indices(items))
  {
    if items != [] {
      var init := items[..|items| - 1];
      SumOfLabelled(init, seqlens);
      assert Indices(items)[..|items| - 1] == Indices(init);
      assert items[|items| - 1] in items;
    }
  }

  lemma {:induction false} BagOfItems(items: seq<Item>, seqlens: seq<int>, n: int)
    requires Labelled(items, seqlens)
    ensures multiset(Indices(items))[n] == multiset(items)[(n, LengthAt(seqlens, n))]
  {
    if items != [] {
      var init, last := items[..|items| - 1], items[|items| - 1];
      BagOfItems(init, seqlens, n);
      assert Indices(items) == Indices(init) + [last.0];
      assert items == init + [last];
      assert last in items;
    }
  }

  function IndexLists(v: seq<Part>): seq<seq<int>> {
    seq(|v|, i requires 0 <= i < |v| => Indices(v[i].items))
  }

  lemma {:induction false} BagOfState(v: seq<Part>, seqlens: seq<int>, n: int)
    requires AllLabelled(v, seqlens)
    ensures IndexBag(IndexLists(v))[n] == Contents(v)[(n, LengthAt(seqlens, n))]
  {
    if v != [] {
      assert AllLabelled(v[1..], seqlens);
      BagOfState(v[1..], seqlens, n);
      assert Labelled(v[0].items, seqlens);
      BagOfItems(v[0].items, seqlens, n);
      assert IndexLists(v)[1..] == IndexLists(v[1..]);
    }
  }

  lemma {:induction false} ContentsHave(v: seq<Part>, i: nat, x: Item)
    requires i < |v| && x in v[i].items
    ensures x in Contents(v)
  {
    if i == 0 {
      assert x in multiset(v[0].items);
    } else {
      ContentsHave(v[1..], i - 1, x);
    }
  }

  /** A state that holds exactly the items of a list partitions the list's indices. */
  lemma StatePartitions(v: seq<Part>, seqlens: seq<int>)
    requires Contents(v) == multiset(ItemsOf(seqlens))
    ensures AllLabelled(v, seqlens)
    ensures IndexBag(IndexLists(v)) == multiset(AllIndices(|seqlens|))
  {
    var items := ItemsOf(seqlens);
    forall i, x | 0 <= i < |v| && x in v[i].items
      ensures x.1 == LengthAt(seqlens, x.0)
    {
      ContentsHave(v, i, x);
      assert x in multiset(items);
    }
    assert AllLabelled(v, seqlens);
    assert Labelled(items, seqlens);
    assert Indices(items) == AllIndices(|seqlens|);
    forall n
      ensures IndexBag(IndexLists(v))[n] == multiset(AllIndices(|seqlens|))[n]
    {
      BagOfState(v, seqlens, n);
      BagOfItems(items, seqlens, n);
    }
  }

  lemma {:induction false} ContentsSize(v: seq<Part>, size: nat)
    requires AllOfSize(v, size)
    ensures |Contents(v)| == |v| * size
  {
    if v != [] {
      assert v[0] in v && forall p :: p in v[1..] ==> p in v;
      ContentsSize(v[1..], size);
      assert |Contents(v)| == |multiset(v[0].items)| + |Contents(v[1..])|;
      AddOne(|v| - 1, size);
    }
  }

  /** The promises of a balanced partition: every index in exactly one part, the first parts (all of
      them when there are enough items) not empty, sums within the bound, equal sizes on request. */
  ghost predicate Balanced(seqlens: seq<int>, k: nat, equalSize: bool, bound: int, parts: seq<seq<int>>) {
    && |parts| == k
    && IndexBag(parts) == multiset(AllIndices(|seqlens|))
    && (forall i :: 0 <= i < k ==> (parts[i] != [] <==> i < |seqlens|))
    && (forall i, j :: 0 <= i < k && 0 <= j < k ==> LengthSum(seqlens, parts[i]) - LengthSum(seqlens, parts[j]) <= bound)
    && (equalSize ==> forall i :: 0 <= i < k ==> |parts[i]| * k == |seqlens|)
  }

  lemma StateIsBalanced(v: seq<Part>, seqlens: seq<int>, k: nat, equalSize: bool, bound: int)
    requires 0 < k && seqlens != [] && SumsOwn(v)
    requires Good(v, k, |seqlens|, bound) && Contents(v) == multiset(ItemsOf(seqlens))
    requires equalSize ==> Uniform(v)
    ensures Balanced(seqlens, k, equalSize, bound, IndexLists(v))
  {
    hide *;
    StatePartitions(v, seqlens);
    GoodFacts(v, k, |seqlens|, bound);
    StateSumsBalanced(v, seqlens, bound);
    if equalSize {
      PartsEqual(v, k, |seqlens|);
    }
    BalancedIntro(v, seqlens, k, equalSize, bound);
  }

  lemma GoodFacts(v: seq<Part>, k: nat, count: nat, bound: int)
    requires Good(v, k, count, bound)
    ensures |v| == k && Within(v, bound) && FilledFirst(v, Min(count, k)) && |Contents(v)| == count
  {
    DescendingFilledFirst(v);
  }

  lemma PartsEqual(v: seq<Part>, k: nat, count: nat)
    requires |v| == k && Uniform(v) && |Contents(v)| == count
    ensures forall i :: 0 <= i < k ==> |v[i].items| * k == count
  {
    var size: nat :| AllOfSize(v, size);
    ContentsSize(v, size);
    forall i | 0 <= i < k
      ensures |v[i].items| * k == count
    {
      assert v[i] in v;
    }
  }

  lemma BalancedIntro(v: seq<Part>, seqlens: seq<int>, k: nat, equalSize: bool, bound: int)
    requires |v| == k && FilledFirst(v, Min(|seqlens|, k))
    requires IndexBag(IndexLists(v)) == multiset(AllIndices(|seqlens|))
    requires forall i, j :: 0 <= i < k && 0 <= j < k ==>
      LengthSum(seqlens, IndexLists(v)[i]) - LengthSum(seqlens, IndexLists(v)[j]) <= bound
    requires equalSize ==> forall i :: 0 <= i < k ==> |v[i].items| * k == |seqlens|
    ensures Balanced(seqlens, k, equalSize, bound, IndexLists(v))
  {
    hide LengthSum, IndexBag, AllIndices;
    assert forall i :: 0 <= i < k ==> |IndexLists(v)[i]| == |v[i].items|;
  }

  lemma StateSumsBalanced(v: seq<Part>, seqlens: seq<int>, bound: int)
    requires SumsOwn(v) && Within(v, bound) && AllLabelled(v, seqlens)
    ensures forall i, j :: 0 <= i < |v| && 0 <= j < |v| ==>
      LengthSum(seqlens, IndexLists(v)[i]) - LengthSum(seqlens, IndexLists(v)[j]) <= bound
    ensures forall i :: 0 <= i < |v| ==> LengthSum(seqlens, IndexLists(v)[i]) == v[i].sum
  {
    forall i | 0 <= i < |v|
      ensures LengthSum(seqlens, IndexLists(v)[i]) == v[i].sum && v[i] in v
    {
      assert Labelled(v[i].items, seqlens);
      SumOfLabelled(v[i].items, seqlens);
    }
  }

  /** The bound of the method: the longest item, or with equal sizes the widest gap within the groups
      of k consecutive items in ascending order. */
  function MaxSpread(seqlens: seq<int>, k: nat, equalSize: bool): int
    requires 0 < k && seqlens != []
  {
    SortItemsKeeps(ItemsOf(seqlens));
    SpreadBound(SortedItems(seqlens), k, equalSize)
  }

  method KarmarkarKarp(seqlens: seq<int>, k: nat, equalSize: bool) returns (res: Outcome<seq<seq<int>>>)
    requires 0 < k && forall i :: 0 <= i < |seqlens| ==> 0 <= seqlens[i]
    ensures res.Ok? <==> seqlens != [] && Fitting(|seqlens|, k, equalSize)
    ensures res.Ok? ==> Balanced(seqlens, k, equalSize, MaxSpread(seqlens, k, equalSize), res.value)
  {
    hide Balanced, SpreadBound, Sorted, Contents, Good, BoundOk, RoundInv;
    if !(equalSize ==> |seqlens| % k == 0) || seqlens == [] {
      return Error;
    }
    var items := SortedItems(seqlens);
    ghost var bound := MaxSpread(seqlens, k, equalSize);
    SortedBoundOk(seqlens, k, equalSize);
    var final := Reduce(items, k, equalSize, bound);
    var partitions := final.GetPartitions();
    OwnedSums(final.sets);
    FinalIsBalanced(final.Views(), seqlens, k, equalSize);
    assert partitions == IndexLists(final.Views());
    res := Ok(partitions);
  }

  lemma SortedBoundOk(seqlens: seq<int>, k: nat, equalSize: bool)
    requires 0 < k && seqlens != [] && Fitting(|seqlens|, k, equalSize)
    requires forall i :: 0 <= i < |seqlens| ==> 0 <= seqlens[i]
    ensures SortedItems(seqlens) != [] && BoundOk(SortedItems(seqlens), k, equalSize, MaxSpread(seqlens, k, equalSize))
  {
    var items, sorted := ItemsOf(seqlens), SortedItems(seqlens);
    SortItemsKeeps(items);
    forall x | x in sorted
      ensures 0 <= x.1
    {
      assert x in multiset(sorted);
      assert x in items;
    }
  }

  lemma FinalIsBalanced(v: seq<Part>, seqlens: seq<int>, k: nat, equalSize: bool)
    requires 0 < k && seqlens != [] && SumsOwn(v)
    requires RoundInv([v], k, MaxSpread(seqlens, k, equalSize), SortedItems(seqlens), equalSize)
    ensures Balanced(seqlens, k, equalSize, MaxSpread(seqlens, k, equalSize), IndexLists(v))
    ensures Total(v) == SumOf(ItemsOf(seqlens))
  {
    SortItemsKeeps(ItemsOf(seqlens));
    AllOfOne(v);
    assert v in [v];
    hide Good, MaxSpread, Uniform, Contents, IndexLists, Balanced;
    assert |Contents(v)| == |multiset(ItemsOf(seqlens))| == |seqlens|;
    StateIsBalanced(v, seqlens, k, equalSize, MaxSpread(seqlens, k, equalSize));
  }
}
