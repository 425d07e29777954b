/** Blocking, in-order, pairwise message exchange: every sender and every receiver works through
    its own list, and a message is exchanged when it heads both lists. */
module Rendezvous {
  datatype Side = Sender | Receiver

  datatype Msg = Msg(name: string, policy: nat, rollout: nat)

  /** The rank that handles the message on one side. */
  function Rank(side: Side, m: Msg): nat {
    if side == Sender then m.policy else m.rollout
  }

  /** The messages of an order that one rank handles. */
  function By(side: Side, ms: seq<Msg>, rank: nat): seq<Msg> {
    if ms == [] then []
    else
      var init := By(side, ms[..|ms| - 1], rank);
      if Rank(side, ms[|ms| - 1]) == rank then init + [ms[|ms| - 1]] else init
  }

  lemma {:induction false} ByConcat(side: Side, a: seq<Msg>, b: seq<Msg>, x: nat)
    ensures By(side, a + b, x) == By(side, a, x) + By(side, b, x)
  {
    if b == [] {
      assert a + b == a;
    } else {
      assert (a + b)[..|a + b| - 1] == a + b[..|b| - 1];
      ByConcat(side, a, b[..|b| - 1], x);
    }
  }

  lemma ByOne(side: Side, m: Msg, x: nat)
    ensures By(side, [m], x) == if Rank(side, m) == x then [m] else []
  {
    assert [m][..0] == [];
    assert By(side, [], x) == [];
  }

  lemma SplitAt(side: Side, before: seq<Msg>, m: Msg, after: seq<Msg>, x: nat)
    ensures By(side, before + [m] + after, x) ==
            By(side, before, x) + (if Rank(side, m) == x then [m] else []) + By(side, after, x)
  {
    ByConcat(side, before + [m], after, x);
    ByConcat(side, before, [m], x);
    ByOne(side, m, x);
  }

  lemma {:induction false} ProjectionsCommute(ms: seq<Msg>, p: nat, r: nat)
    ensures By(Receiver, By(Sender, ms, p), r) == By(Sender, By(Receiver, ms, r), p)
  {
    if ms != [] {
      var init, m := ms[..|ms| - 1], ms[|ms| - 1];
      ProjectionsCommute(init, p, r);
      ByConcat(Receiver, By(Sender, init, p), if m.policy == p then [m] else [], r);
      ByConcat(Sender, By(Receiver, init, r), if m.rollout == r then [m] else [], p);
      ByOne(Receiver, m, r);
      ByOne(Sender, m, p);
    }
  }

  // ---------- the exchange as a state machine ----------

  /** What each policy rank still has to send and each rollout rank still has to receive. */
  datatype State = State(send: seq<seq<Msg>>, recv: seq<seq<Msg>>)

  predicate Enabled(s: State, p: nat, r: nat) {
    && p < |s.send| && r < |s.recv|
    && s.send[p] != [] && s.recv[r] != []
    && s.send[p][0].rollout == r && s.recv[r][0].policy == p
  }

  /** Both ranks move past the message at the head of their lists. */
  function Exchange(s: State, p: nat, r: nat): State
    requires Enabled(s, p, r)
  {
    State(s.send[p := s.send[p][1..]], s.recv[r := s.recv[r][1..]])
  }

  predicate Finished(s: State) {
    && (forall p :: 0 <= p < |s.send| ==> s.send[p] == [])
    && (forall r :: 0 <= r < |s.recv| ==> s.recv[r] == [])
  }

  /** All lists are projections of one order. */
  predicate Projects(s: State, order: seq<Msg>) {
    && (forall p :: 0 <= p < |s.send| ==> s.send[p] == By(Sender, order, p))
    && (forall r :: 0 <= r < |s.recv| ==> s.recv[r] == By(Receiver, order, r))
    && (forall i :: 0 <= i < |order| ==> order[i].policy < |s.send| && order[i].rollout < |s.recv|)
  }

  /** Any run of exchanges, as the pairs that exchanged. */
  ghost predicate Runs(s: State, steps: seq<(nat, nat)>, t: State)
    decreases |steps|
  {
    if steps == [] then s == t
    else Enabled(s, steps[0].0, steps[0].1) && Runs(Exchange(s, steps[0].0, steps[0].1), steps[1..], t)
  }

  /** Splits an order at the first message of a rank. */
  lemma {:induction false} FirstOf(side: Side, order: seq<Msg>, x: nat) returns (k: nat)
    requires order != [] && By(side, order, x) != []
    ensures k < |order| && order[k] == By(side, order, x)[0]
    ensures By(side, order[..k], x) == [] && By(side, order[k + 1..], x) == By(side, order, x)[1..]
  {
    hide By;
    var init, m := order[..|order| - 1], order[|order| - 1];
    assert init + [m] == order;
    ByAppend(side, init, m, x);
    if By(side, init, x) == [] {
      k := |order| - 1;
      assert order[k + 1..] == [];
      NothingBy(side, x);
    } else {
      NothingBy(side, x);
      k := FirstOf(side, init, x);
      PrefixParts(order, init, m, k);
      FirstKept(side, order, init, m, k, x);
    }
  }

  /** A later message leaves the first one first. */
  lemma FirstKept(side: Side, order: seq<Msg>, init: seq<Msg>, m: Msg, k: nat, x: nat)
    requires order == init + [m] && k < |init| && order[k + 1..] == init[k + 1..] + [m]
    requires By(side, init, x) != [] && By(side, init[k + 1..], x) == By(side, init, x)[1..]
    ensures By(side, order, x) != [] && By(side, order, x)[0] == By(side, init, x)[0]
    ensures By(side, order[k + 1..], x) == By(side, order, x)[1..]
  {
    hide By;
    ByAppend(side, init, m, x);
    ByAppend(side, init[k + 1..], m, x);
    TailAppend(By(side, init, x), m);
  }

  lemma PrefixParts(order: seq<Msg>, init: seq<Msg>, m: Msg, k: nat)
    requires order == init + [m] && k < |init|
    ensures order[k] == init[k] && order[..k] == init[..k] && order[k + 1..] == init[k + 1..] + [m]
  {
  }

  lemma TailAppend(s: seq<Msg>, m: Msg)
    requires s != []
    ensures (s + [m])[0] == s[0] && (s + [m])[1..] == s[1..] + [m]
  {
  }

  lemma NothingBy(side: Side, x: nat)
    ensures By(side, [], x) == []
  {
  }

  lemma ByAppend(side: Side, ms: seq<Msg>, m: Msg, x: nat)
    ensures By(side, ms + [m], x) == if Rank(side, m) == x then By(side, ms, x) + [m] else By(side, ms, x)
  {
    assert (ms + [m])[..|ms|] == ms;
  }

  lemma {:induction false} MemberProjects(side: Side, order: seq<Msg>, k: nat)
    requires k < |order|
    ensures order[k] in By(side, order, Rank(side, order[k]))
  {
    if k < |order| - 1 {
      MemberProjects(side, order[..|order| - 1], k);
    }
  }

  lemma {:induction false} ProjectionOwner(side: Side, order: seq<Msg>, x: nat)
    ensures forall m :: m in By(side, order, x) ==> Rank(side, m) == x && m in order
  {
    if order != [] {
      ProjectionOwner(side, order[..|order| - 1], x);
    }
  }

  /** In an enabled exchange both ranks are at the very same message of the common order. */
  lemma EnabledMeets(s: State, order: seq<Msg>, p: nat, r: nat) returns (k: nat)
    requires Projects(s, order) && Enabled(s, p, r)
    ensures k < |order| && order[k] == s.send[p][0] == s.recv[r][0]
    ensures order[k].policy == p && order[k].rollout == r
    ensures By(Sender, order[..k], p) == [] && By(Receiver, order[..k], r) == []
  {
    k := FirstOf(Sender, order, p);
    var j := FirstOf(Receiver, order, r);
    ProjectionOwner(Sender, order, p);
    ProjectionOwner(Receiver, order, r);
    if k < j {
      MemberProjects(Receiver, order[..j], k);
    } else if j < k {
      MemberProjects(Sender, order[..k], j);
    }
  }

  function Removed(order: seq<Msg>, k: nat): seq<Msg>
    requires k < |order|
  {
    order[..k] + order[k + 1..]
  }

  /** Removing the first message of a rank drops the head of that rank's list only. */
  lemma RemovedBy(side: Side, order: seq<Msg>, k: nat, q: nat)
    requires k < |order| && By(side, order[..k], Rank(side, order[k])) == []
    ensures By(side, order, q) ==
            (if q == Rank(side, order[k]) then [order[k]] else []) + By(side, Removed(order, k), q)
  {
    assert order == order[..k] + [order[k]] + order[k + 1..];
    SplitAt(side, order[..k], order[k], order[k + 1..], q);
    ByConcat(side, order[..k], order[k + 1..], q);
  }

  /** An exchange removes one message from the common order and keeps everything else in place. */
  lemma ExchangeKeepsOrder(s: State, order: seq<Msg>, p: nat, r: nat) returns (rest: seq<Msg>)
    requires Projects(s, order) && Enabled(s, p, r)
    ensures Projects(Exchange(s, p, r), rest) && |rest| == |order| - 1
  {
    var k := EnabledMeets(s, order, p, r);
    rest := Removed(order, k);
    forall q | 0 <= q < |s.send|
      ensures Exchange(s, p, r).send[q] == By(Sender, rest, q)
    {
      RemovedBy(Sender, order, k, q);
    }
    forall q | 0 <= q < |s.recv|
      ensures Exchange(s, p, r).recv[q] == By(Receiver, rest, q)
    {
      RemovedBy(Receiver, order, k, q);
    }
    forall i | 0 <= i < |rest|
      ensures rest[i].policy < |s.send| && rest[i].rollout < |s.recv|
    {
      assert rest[i] == if i < k then order[i] else order[i + 1];
    }
  }

  /** The first message of the order can always be exchanged. */
  lemma FirstIsEnabled(s: State, order: seq<Msg>)
    requires Projects(s, order) && order != []
    ensures Enabled(s, order[0].policy, order[0].rollout)
  {
    var m := order[0];
    assert order == [] + [m] + order[1..];
    SplitAt(Sender, [], m, order[1..], m.policy);
    SplitAt(Receiver, [], m, order[1..], m.rollout);
  }

  /** From lists that project one order, every run of exchanges, in any interleaving, can be
      continued until all lists are exhausted, and is then exactly as long as the order. */
  lemma {:induction false} NeverStuck(s: State, order: seq<Msg>, steps: seq<(nat, nat)>, t: State)
    requires Projects(s, order) && Runs(s, steps, t)
    ensures |steps| <= |order|
    ensures |steps| == |order| <==> Finished(t)
    ensures !Finished(t) ==> exists p, r :: Enabled(t, p, r)
    decreases |steps|
  {
    if steps == [] {
      if order == [] {
        assert Finished(t);
      } else {
        FirstIsEnabled(s, order);
        assert !Finished(t);
      }
    } else {
      var rest := ExchangeKeepsOrder(s, order, steps[0].0, steps[0].1);
      NeverStuck(Exchange(s, steps[0].0, steps[0].1), rest, steps[1..], t);
    }
  }
}
