/** The rank queues keep every rollout, and keep it with its rank. */
module ControllerQueues {
  import opened Arithmetic
  import opened ControllerModel

  /** All rollouts in the rank queues. */
  function AllQueued(qs: seq<seq<Rollout>>): multiset<Rollout> {
    if qs == [] then multiset{} else AllQueued(qs[..|qs| - 1]) + multiset(qs[|qs| - 1])
  }

  /** Every rollout is in the queue of its prompt's rank. */
  predicate Routed(qs: seq<seq<Rollout>>) {
    forall i :: 0 <= i < |qs| ==> RoutedTo(qs[i], |qs|, i)
  }

  predicate RoutedTo(q: seq<Rollout>, n: nat, i: nat)
    requires 0 < n
  {
    forall x :: x in q ==> x.prompt % n == i
  }

  lemma {:induction false} UpdateQueue(qs: seq<seq<Rollout>>, i: nat, q: seq<Rollout>)
    requires i < |qs|
    ensures AllQueued(qs[i := q]) + multiset(qs[i]) == AllQueued(qs) + multiset(q)
  {
    var n := |qs|;
    if i == n - 1 {
      assert qs[i := q][..n - 1] == qs[..n - 1];
    } else {
      assert qs[i := q][..n - 1] == qs[..n - 1][i := q];
      UpdateQueue(qs[..n - 1], i, q);
      AddBoth(AllQueued(qs[..n - 1][i := q]), multiset(qs[i]), AllQueued(qs[..n - 1]), multiset(q), multiset(qs[n - 1]));
    }
  }

  lemma AddBoth(a: multiset<Rollout>, b: multiset<Rollout>, c: multiset<Rollout>, d: multiset<Rollout>, e: multiset<Rollout>)
    requires a + b == c + d
    ensures (a + e) + b == (c + e) + d
  {
    forall x
      ensures ((a + e) + b)[x] == ((c + e) + d)[x]
    {
      assert (a + b)[x] == (c + d)[x];
    }
  }

  lemma AppendQueued(qs: seq<seq<Rollout>>, i: nat, x: Rollout)
    requires i < |qs|
    ensures AllQueued(qs[i := qs[i] + [x]]) == AllQueued(qs) + multiset{x}
    ensures Routed(qs) && i == x.prompt % |qs| ==> Routed(qs[i := qs[i] + [x]])
  {
    hide AllQueued;
    UpdateQueue(qs, i, qs[i] + [x]);
    forall y
      ensures AllQueued(qs[i := qs[i] + [x]])[y] == (AllQueued(qs) + multiset{x})[y]
    {
      assert multiset(qs[i] + [x])[y] == multiset(qs[i])[y] + multiset{x}[y];
      assert (AllQueued(qs[i := qs[i] + [x]]) + multiset(qs[i]))[y] == (AllQueued(qs) + multiset(qs[i] + [x]))[y];
    }
    if Routed(qs) && i == x.prompt % |qs| {
      RoutedAppend(qs[i], |qs|, i, x);
    }
  }

  lemma RoutedAppend(q: seq<Rollout>, n: nat, i: nat, x: Rollout)
    requires 0 < n && RoutedTo(q, n, i) && x.prompt % n == i
    ensures RoutedTo(q + [x], n, i)
  {
  }

  lemma {:induction false} EmptyQueues(n: nat)
    ensures AllQueued(seq(n, i => [])) == multiset{} && Routed(seq(n, i => []))
  {
    if n > 0 {
      EmptyQueues(n - 1);
      var qs: seq<seq<Rollout>> := seq(n, i => []);
      assert qs[..n - 1] == seq(n - 1, i => []);
    }
  }

  lemma {:induction false} SlottedKeeps(qs: seq<seq<Rollout>>, xs: seq<Rollout>)
    requires qs != [] && Routed(qs)
    ensures AllQueued(Slotted(qs, xs)) == AllQueued(qs) + multiset(xs) && Routed(Slotted(qs, xs))
  {
    hide AllQueued, Routed;
    if xs != [] {
      var init, last := xs[..|xs| - 1], xs[|xs| - 1];
      SlottedKeeps(qs, init);
      AppendQueued(Slotted(qs, init), last.prompt % |qs|, last);
      assert xs == init + [last];
    }
  }

  /** Redistribution keeps every rollout and puts it in the slot of its prompt. */
  lemma {:induction false} RearrangedKeeps(qs: seq<seq<Rollout>>, n: nat)
    requires 0 < n
    ensures AllQueued(Rearranged(qs, n)) == AllQueued(qs) && Routed(Rearranged(qs, n)) && |Rearranged(qs, n)| == n
  {
    hide Routed, Slotted;
    if qs == [] {
      EmptyQueues(n);
    } else {
      RearrangedKeeps(qs[..|qs| - 1], n);
      SlottedKeeps(Rearranged(qs[..|qs| - 1], n), qs[|qs| - 1]);
    }
  }

  lemma {:induction false} InsertByPromptKeeps(x: Rollout, s: seq<Rollout>)
    ensures multiset(InsertByPrompt(x, s)) == multiset{x} + multiset(s)
  {
    if s == [] || x.prompt < s[0].prompt {
    } else {
      InsertByPromptKeeps(x, s[1..]);
      assert s == [s[0]] + s[1..];
    }
  }

  lemma {:induction false} SortByPromptKeeps(s: seq<Rollout>)
    ensures multiset(SortByPrompt(s)) == multiset(s)
  {
    if s != [] {
      SortByPromptKeeps(s[..|s| - 1]);
      InsertByPromptKeeps(s[|s| - 1], SortByPrompt(s[..|s| - 1]));
      assert s == s[..|s| - 1] + [s[|s| - 1]];
    }
  }

  lemma {:induction false} AllQueuedSame(a: seq<seq<Rollout>>, b: seq<seq<Rollout>>)
    requires |a| == |b| && forall i :: 0 <= i < |a| ==> multiset(a[i]) == multiset(b[i])
    ensures AllQueued(a) == AllQueued(b)
  {
    if a != [] {
      AllQueuedSame(a[..|a| - 1], b[..|b| - 1]);
    }
  }

  lemma SortedQueuesKeep(qs: seq<seq<Rollout>>, n: nat)
    requires n <= |qs|
    ensures AllQueued(SortedQueues(qs, n)) == AllQueued(qs)
    ensures Routed(qs) ==> Routed(SortedQueues(qs, n))
  {
    var ts := SortedQueues(qs, n);
    forall i | 0 <= i < |qs|
      ensures multiset(ts[i]) == multiset(qs[i])
      ensures forall x :: x in ts[i] ==> x in qs[i]
    {
      SortByPromptKeeps(qs[i]);
      SameElements(ts[i], qs[i]);
    }
    AllQueuedSame(ts, qs);
  }

  lemma SameElements(a: seq<Rollout>, b: seq<Rollout>)
    requires multiset(a) == multiset(b)
    ensures forall x :: x in a ==> x in b
  {
    forall x | x in a
      ensures x in b
    {
      assert x in multiset(a);
      assert x in multiset(b);
    }
  }

  /** What is dealt and what stays are together what was there. */
  lemma {:induction false} ServedKeeps(qs: seq<seq<Rollout>>, n: nat, k: nat)
    requires n <= |qs| && forall i :: 0 <= i < n ==> k <= |qs[i]|
    ensures AllQueued(Served(qs, n, k)) + multiset(DealtByRank(qs, n, k)) == AllQueued(qs)
  {
    hide AllQueued, DealtByRank, Served;
    if n == 0 {
      NothingServed(qs, k);
    } else {
      ServedKeeps(qs, n - 1, k);
      ServedNext(qs, n, k);
      DealtNext(Served(qs, n - 1, k), n - 1, qs[n - 1], k, DealtByRank(qs, n - 1, k), AllQueued(qs));
    }
  }

  lemma NothingServed(qs: seq<seq<Rollout>>, k: nat)
    ensures AllQueued(Served(qs, 0, k)) + multiset(DealtByRank(qs, 0, k)) == AllQueued(qs)
  {
    assert Served(qs, 0, k) == qs;
    assert multiset(DealtByRank(qs, 0, k)) == multiset{};
  }

  lemma DealtNext(qs: seq<seq<Rollout>>, i: nat, q: seq<Rollout>, k: nat, dealt: seq<Rollout>, all: multiset<Rollout>)
    requires i < |qs| && qs[i] == q && k <= |q| && AllQueued(qs) + multiset(dealt) == all
    ensures AllQueued(qs[i := q[k..]]) + multiset(dealt + q[..k]) == all
  {
    hide AllQueued;
    UpdateQueue(qs, i, q[k..]);
    ServedOneMore(AllQueued(qs), AllQueued(qs[i := q[k..]]), all, dealt, q, k);
  }

  lemma ServedNext(qs: seq<seq<Rollout>>, n: nat, k: nat)
    requires 0 < n <= |qs| && forall i :: 0 <= i < n ==> k <= |qs[i]|
    ensures Served(qs, n - 1, k)[n - 1] == qs[n - 1]
    ensures Served(qs, n, k) == Served(qs, n - 1, k)[n - 1 := qs[n - 1][k..]]
    ensures DealtByRank(qs, n, k) == DealtByRank(qs, n - 1, k) + qs[n - 1][..k]
  {
  }

  lemma ServedOneMore(before: multiset<Rollout>, after: multiset<Rollout>, all: multiset<Rollout>,
      dealt: seq<Rollout>, q: seq<Rollout>, k: nat)
    requires k <= |q| && before + multiset(dealt) == all && after + multiset(q) == before + multiset(q[k..])
    ensures after + multiset(dealt + q[..k]) == all
  {
    assert q == q[..k] + q[k..];
    forall x
      ensures (after + multiset(dealt + q[..k]))[x] == all[x]
    {
      assert multiset(q)[x] == multiset(q[..k])[x] + multiset(q[k..])[x];
      assert (after + multiset(q))[x] == (before + multiset(q[k..]))[x];
      assert (before + multiset(dealt))[x] == all[x];
      assert multiset(dealt + q[..k])[x] == multiset(dealt)[x] + multiset(q[..k])[x];
    }
  }

  lemma ServedRouted(qs: seq<seq<Rollout>>, n: nat, k: nat)
    requires n <= |qs| && (forall i :: 0 <= i < n ==> k <= |qs[i]|) && Routed(qs)
    ensures Routed(Served(qs, n, k))
  {
    var ts := Served(qs, n, k);
    forall i | 0 <= i < |ts|
      ensures RoutedTo(ts[i], |ts|, i)
    {
      assert RoutedTo(qs[i], |qs|, i);
    }
  }

  lemma {:induction false} QueuedInCounts(qs: seq<seq<Rollout>>)
    ensures QueuedIn(qs) == |AllQueued(qs)|
  {
    if qs != [] {
      QueuedInCounts(qs[..|qs| - 1]);
    }
  }

  // ---------- dealing ----------

  /** The j-th rollout a replica gets from the shared queue is the one of its turn in the j-th round. */
  lemma {:induction false} ShareAt(queue: seq<Rollout>, n: nat, k: nat, i: nat, j: nat)
    requires i < n && k * n <= |queue| && j < k
    ensures |Share(queue, n, k, i)| == k && j * n + i < |queue| && Share(queue, n, k, i)[j] == queue[j * n + i]
  {
    OneRound(k, n);
    ShareLength(queue, n, k, i);
    if j > 0 {
      OneRound(j, n);
      ShareAt(queue[n..], n, k - 1, i, j - 1);
    }
  }

  lemma OneRound(k: int, n: int)
    requires 0 < k && 0 <= n
    ensures k * n == (k - 1) * n + n && n <= k * n
  {
    MulLe(1, k, n);
  }

  lemma {:induction false} ShareLength(queue: seq<Rollout>, n: nat, k: nat, i: nat)
    requires i < n && k * n <= |queue|
    ensures |Share(queue, n, k, i)| == k
  {
    if k > 0 {
      OneRound(k, n);
      ShareLength(queue[n..], n, k - 1, i);
    }
  }
}
