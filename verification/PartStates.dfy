/** The mutable sets and states of the Karmarkar-Karp differencing method. */
module PartStates {
  import opened PartAlgebra

  function SumOf(items: seq<Item>): int {
    if items == [] then 0 else SumOf(items[..|items| - 1]) + items[|items| - 1].1
  }

  lemma {:induction false} SumOfConcat(a: seq<Item>, b: seq<Item>)
    ensures SumOf(a + b) == SumOf(a) + SumOf(b)
  {
    if b == [] {
      assert a + b == a;
    } else {
      assert (a + b)[..|a + b| - 1] == a + b[..|b| - 1];
      SumOfConcat(a, b[..|b| - 1]);
    }
  }

  // ---------- sets ----------

  class PartSet {
    var sum: int
    var items: seq<Item>

    ghost predicate Valid()
      reads this
    {
      sum == SumOf(items)
    }

    function View(): Part
      reads this
    {
      Part(sum, items)
    }

    constructor ()
      ensures Valid() && View() == Empty
    {
      sum, items := 0, [];
    }

    method Add(idx: int, val: int)
      requires Valid()
      modifies this
      ensures Valid() && View() == Part(old(sum) + val, old(items) + [(idx, val)])
    {
      items, sum := items + [(idx, val)], sum + val;
    }

    method Merge(other: PartSet)
      requires Valid() && other.Valid() && other != this
      modifies this
      ensures Valid() && View() == Absorb(old(View()), other.View())
    {
      for i := 0 to |other.items|
        invariant other.items == old(other.items) && other.Valid() && other.View() == old(other.View())
        invariant items == old(items) + other.items[..i] && sum == old(sum) + SumOf(other.items[..i])
      {
        assert other.items[..i + 1][..i] == other.items[..i];
        items, sum := items + [other.items[i]], sum + other.items[i].1;
      }
      assert other.items[..|other.items|] == other.items;
      SumOfConcat(old(items), other.items);
    }
  }

  /** Different objects, each with the sum of its own items. */
  ghost predicate Owned(sets: seq<PartSet>)
    reads sets
  {
    (forall i, j :: 0 <= i < j < |sets| ==> sets[i] != sets[j]) && forall s :: s in sets ==> s.Valid()
  }

  function ViewsOf(sets: seq<PartSet>): seq<Part>
    reads sets
  {
    seq(|sets|, i requires 0 <= i < |sets| reads sets => sets[i].View())
  }

  /** Inserting at the first smaller set is what `Insert` does. */
  lemma {:induction false} InsertAt(p: Part, s: seq<Part>, j: nat)
    requires j <= |s| && (forall i :: 0 <= i < j ==> !PartLess(s[i], p)) && (j < |s| ==> PartLess(s[j], p))
    ensures Insert(p, s) == s[..j] + [p] + s[j..]
  {
    if j > 0 {
      InsertAt(p, s[1..], j - 1);
      assert s[1..][..j - 1] == s[1..j];
      assert s[1..][j - 1..] == s[j..];
      assert s[..j] == [s[0]] + s[1..j];
    }
  }

  /** Puts a set before the first smaller one. */
  method InsertSet(sets: seq<PartSet>, x: PartSet) returns (res: seq<PartSet>)
    requires Owned(sets) && x.Valid() && x !in sets
    ensures Owned(res) && |res| == |sets| + 1 && (forall s :: s in res <==> s in sets || s == x)
    ensures ViewsOf(res) == Insert(x.View(), ViewsOf(sets))
  {
    var j := 0;
    while j < |sets| && !PartLess(sets[j].View(), x.View())
      invariant 0 <= j <= |sets|
      invariant forall n :: 0 <= n < j ==> !PartLess(sets[n].View(), x.View())
    {
      j := j + 1;
    }
    InsertAt(x.View(), ViewsOf(sets), j);
    hide PartLess, Insert;
    res := sets[..j] + [x] + sets[j..];
    assert ViewsOf(res) == ViewsOf(sets)[..j] + [x.View()] + ViewsOf(sets)[j..];
  }

  /** Sorts the objects by their contents, greatest first. */
  method SortSets(sets: seq<PartSet>) returns (res: seq<PartSet>)
    requires Owned(sets)
    ensures Owned(res) && |res| == |sets| && (forall s :: s in res <==> s in sets)
    ensures ViewsOf(res) == Sorted(ViewsOf(sets))
  {
    res := [];
    ghost var views := ViewsOf(sets);
    assert views[..0] == [];
    for i := 0 to |sets|
      invariant |res| == i && Owned(res) && (forall s :: s in res <==> s in sets[..i])
      invariant ViewsOf(res) == Sorted(views[..i])
    {
      assert views[..i + 1][..i] == views[..i] && sets[..i + 1] == sets[..i] + [sets[i]];
      res := InsertSet(res, sets[i]);
    }
    assert sets[..|sets|] == sets && views[..|sets|] == views;
  }

  /** Each set absorbs its counterpart from the other end. */
  method MergeAll(a: seq<PartSet>, b: seq<PartSet>)
    requires Owned(a) && Owned(b) && |a| == |b|
    requires forall i, j :: 0 <= i < |a| && 0 <= j < |b| ==> a[i] != b[j]
    modifies a
    ensures Owned(a) && ViewsOf(a) == Paired(old(ViewsOf(a)), old(ViewsOf(b)))
  {
    ghost var mine, theirs := ViewsOf(a), ViewsOf(b);
    for i := 0 to |a|
      invariant Owned(a) && Owned(b)
      invariant forall j :: 0 <= j < |b| ==> b[j].View() == theirs[j]
      invariant forall j :: 0 <= j < i ==> a[j].View() == Absorb(mine[j], theirs[|a| - 1 - j])
      invariant forall j :: i <= j < |a| ==> a[j].View() == mine[j]
    {
      a[i].Merge(b[|a| - 1 - i]);
    }
  }

  // ---------- states ----------

  /** The sets a new state is made of: one item each, as far as they go. */
  function InitParts(items: seq<Item>, k: nat): seq<Part> {
    seq(k, i requires 0 <= i < k => if i < |items| then Part(items[i].1, [items[i]]) else Empty)
  }

  class State {
    const k: nat
    var sets: seq<PartSet>

    ghost predicate Valid()
      reads this, sets
    {
      |sets| == k && 0 < k && Owned(sets)
    }

    ghost function Footprint(): set<object>
      reads this
    {
      {this} + (set s: object | s in sets)
    }

    function Views(): seq<Part>
      reads this, sets
    {
      ViewsOf(sets)
    }

    constructor (items: seq<Item>, k: nat)
      requires 0 < k && (|items| == 1 || |items| == k)
      ensures Valid() && fresh(Footprint()) && this.k == k
      ensures Views() == Sorted(InitParts(items, k))
    {
      this.k := k;
      this.sets := [];
      new;
      var made := NewSets(items, k);
      sets := SortSets(made);
    }

    method Merge(other: State)
      requires Valid() && other.Valid() && other.k == k && Footprint() !! other.Footprint()
      modifies Footprint()
      ensures Valid() && Footprint() == old(Footprint())
      ensures Views() == Merged(old(Views()), old(other.Views()))
    {
      forall i, j | 0 <= i < k && 0 <= j < k
        ensures sets[i] != other.sets[j]
      {
        assert sets[i] in Footprint() && other.sets[j] in other.Footprint();
      }
      MergeAll(sets, other.sets);
      sets := SortSets(sets);
    }

    method GetPartitions() returns (partitions: seq<seq<int>>)
      requires Valid()
      ensures |partitions| == k && forall i :: 0 <= i < k ==> partitions[i] == Indices(Views()[i].items)
    {
      partitions := [];
      for i := 0 to k
        invariant |partitions| == i && forall j :: 0 <= j < i ==> partitions[j] == Indices(Views()[j].items)
      {
        var cur := [];
        for j := 0 to |sets[i].items|
          invariant cur == Indices(sets[i].items)[..j]
        {
          cur := cur + [sets[i].items[j].0];
        }
        partitions := partitions + [cur];
      }
    }
  }

  /** One set for each of the k partitions, the first ones with an item. */
  method NewSets(items: seq<Item>, k: nat) returns (sets: seq<PartSet>)
    requires |items| <= k
    ensures |sets| == k && Owned(sets) && fresh(set s | s in sets)
    ensures ViewsOf(sets) == InitParts(items, k)
  {
    sets := [];
    for i := 0 to k
      invariant |sets| == i && Owned(sets) && fresh(set s | s in sets)
      invariant forall j :: 0 <= j < i ==> sets[j].View() == InitParts(items, k)[j]
    {
      var s := new PartSet();
      if i < |items| {
        s.Add(items[i].0, items[i].1);
        assert [] + [(items[i].0, items[i].1)] == [items[i]];
      }
      sets := sets + [s];
    }
  }

  /** The sum of every set is that of its items. */
  predicate SumsOwn(v: seq<Part>) {
    forall i :: 0 <= i < |v| ==> v[i].sum == SumOf(v[i].items)
  }

  lemma OwnedSums(sets: seq<PartSet>)
    requires Owned(sets)
    ensures SumsOwn(ViewsOf(sets))
  {
    assert forall i :: 0 <= i < |sets| ==> sets[i] in sets;
  }

  function Indices(items: seq<Item>): seq<int> {
    seq(|items|, i requires 0 <= i < |items| => items[i].0)
  }
}
