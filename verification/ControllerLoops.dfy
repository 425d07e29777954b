/** The loops of the controller's handlers, proved against the functions that specify them. */
module ControllerLoops {
  import opened Arithmetic
  import opened Common
  import opened ControllerModel
  import opened ControllerMesh

  method CollectArrived(g: Group, order: seq<nat>) returns (ids: seq<nat>)
    ensures ids == ArrivedIn(g, order)
  {
    ids := [];
    for i := 0 to |order|
      invariant ids == ArrivedIn(g, order[..i])
    {
      assert order[..i + 1][..i] == order[..i];
      if order[i] in g && Arrived(g[order[i]]) {
        ids := ids + [order[i]];
      }
    }
    assert order[..|order|] == order;
  }

  // ---------- meshes ----------

  /** Replicas ranked so far. */
  predicate RankedUpTo(g: Group, h: Group, order: seq<nat>, i: nat) {
    && h.Keys == g.Keys
    && forall id :: id in g ==> h[id] == if id in order && IndexOf(order, id) < i then g[id].(rank := Some(IndexOf(order, id))) else g[id]
  }

  predicate ToldUpTo(g: Group, h: Group, order: seq<nat>, ranks: map<nat, nat>, i: nat) {
    && h.Keys == g.Keys
    && forall id :: id in g ==> h[id] == if id in order && IndexOf(order, id) < i then Told(g[id], BuildMesh(ranks)) else g[id]
  }

  lemma RankOne(g: Group, h: Group, order: seq<nat>, i: nat)
    requires RankedUpTo(g, h, order, i) && Distinct(order) && i < |order| && order[i] in g
    ensures RankedUpTo(g, h[order[i] := h[order[i]].(rank := Some(i))], order, i + 1)
  {
    IndexOfAt(order, i);
  }

  lemma TellOne(g: Group, h: Group, order: seq<nat>, ranks: map<nat, nat>, i: nat)
    requires ToldUpTo(g, h, order, ranks, i) && Distinct(order) && i < |order| && order[i] in g
    ensures ToldUpTo(g, h[order[i] := Told(h[order[i]], BuildMesh(ranks))], order, ranks, i + 1)
  {
    IndexOfAt(order, i);
  }

  lemma AllTold(g: Group, m: Group, h: Group, order: seq<nat>)
    requires RankedUpTo(g, m, order, |order|) && ToldUpTo(m, h, order, MeshOf(order), |order|)
    ensures h == BuildMeshIn(g, order)
  {
    hide MeshOf;
    forall id | id in g
      ensures h[id] == BuildMeshIn(g, order)[id]
    {
    }
  }

  /** The map of the ranks given so far. */
  ghost predicate RanksUpTo(ranks: map<nat, nat>, order: seq<nat>, i: nat)
    requires i <= |order|
  {
    && (forall id :: id in ranks <==> id in order[..i])
    && forall id :: id in ranks ==> id in order && ranks[id] == IndexOf(order, id)
  }

  lemma RankNext(ranks: map<nat, nat>, order: seq<nat>, i: nat)
    requires i < |order| && Distinct(order) && RanksUpTo(ranks, order, i)
    ensures RanksUpTo(ranks[order[i] := i], order, i + 1)
  {
    IndexOfAt(order, i);
    assert order[..i + 1] == order[..i] + [order[i]];
  }

  lemma AllRanks(ranks: map<nat, nat>, order: seq<nat>)
    requires RanksUpTo(ranks, order, |order|)
    ensures ranks == MeshOf(order)
  {
    assert order[..|order|] == order;
    assert ranks.Keys == MeshOf(order).Keys;
  }

  method RankLoop(g: Group, order: seq<nat>) returns (h: Group, ranks: map<nat, nat>)
    requires Distinct(order) && forall id :: id in order ==> id in g
    ensures RankedUpTo(g, h, order, |order|) && ranks == MeshOf(order)
  {
    hide RanksUpTo, MeshOf, Distinct;
    h, ranks := g, map[];
    NoRanks(order);
    for i := 0 to |order|
      invariant RankedUpTo(g, h, order, i) && RanksUpTo(ranks, order, i)
    {
      assert order[i] in order;
      RankOne(g, h, order, i);
      RankNext(ranks, order, i);
      h := h[order[i] := h[order[i]].(rank := Some(i))];
      ranks := ranks[order[i] := i];
    }
    AllRanks(ranks, order);
  }

  lemma NoRanks(order: seq<nat>)
    ensures RanksUpTo(map[], order, 0)
  {
  }

  lemma KeysSame(g: Group, h: Group, order: seq<nat>, i: nat)
    requires RankedUpTo(g, h, order, i)
    ensures h.Keys == g.Keys
  {
  }

  /** Ranks the replicas in order, then publishes the map to each of them. */
  method BuildMeshLoop(g: Group, order: seq<nat>) returns (h: Group)
    requires Distinct(order) && forall id :: id in order ==> id in g
    ensures h == BuildMeshIn(g, order)
  {
    var ranks;
    h, ranks := RankLoop(g, order);
    KeysSame(g, h, order, |order|);
    ghost var ranked := h;
    for i := 0 to |order|
      invariant h.Keys == g.Keys && ToldUpTo(ranked, h, order, ranks, i)
    {
      assert order[i] in order;
      TellOne(ranked, h, order, ranks, i);
      h := h[order[i] := Told(h[order[i]], BuildMesh(ranks))];
    }
    AllTold(g, ranked, h, order);
  }

  // ---------- the rank queues ----------

  /** Moves every rollout, queue by queue and in order, to the slot of its prompt. */
  method RearrangeLoop(qs: seq<seq<Rollout>>, n: nat) returns (ts: seq<seq<Rollout>>)
    requires 0 < n
    ensures ts == Rearranged(qs, n)
  {
    ts := seq(n, i => []);
    for k := 0 to |qs|
      invariant ts == Rearranged(qs[..k], n)
    {
      assert qs[..k + 1][..k] == qs[..k];
      var q, taken := qs[k], 0;
      ghost var before := ts;
      assert q[..0] == [];
      while taken < |q|
        invariant taken <= |q| && ts == Slotted(before, q[..taken])
      {
        var x := q[taken];
        assert q[..taken + 1][..taken] == q[..taken];
        ts := ts[x.prompt % n := ts[x.prompt % n] + [x]];
        taken := taken + 1;
      }
      assert q[..|q|] == q;
    }
    assert qs[..|qs|] == qs;
  }

  // ---------- dispatching ----------

  /** One round: each replica gets the rollout of its turn. */
  predicate DealtTo(g: Group, h: Group, ids: seq<nat>, front: seq<Rollout>, i: nat)
    requires i <= |ids| <= |front| && forall id :: id in ids ==> id in g
  {
    && h.Keys == g.Keys
    && (forall id :: id in g && id !in ids ==> h[id] == g[id])
    && (forall j :: 0 <= j < |ids| ==> h[ids[j]] == if j < i then Given(g[ids[j]], [front[j]]) else g[ids[j]])
  }

  method DealRound(g: Group, ids: seq<nat>, queue: seq<Rollout>, dealt: seq<Rollout>) returns (h: Group, left: seq<Rollout>, all: seq<Rollout>)
    requires Distinct(ids) && (forall id :: id in ids ==> id in g) && |ids| <= |queue|
    ensures DealtTo(g, h, ids, queue, |ids|) && left == queue[|ids|..] && all == dealt + queue[..|ids|]
  {
    h, left, all := g, queue, dealt;
    for i := 0 to |ids|
      invariant DealtTo(g, h, ids, queue, i) && left == queue[i..] && all == dealt + queue[..i]
    {
      assert ids[i] in ids;
      var x := left[0];
      left := left[1..];
      h := h[ids[i] := Given(h[ids[i]], [x])];
      all := all + [x];
    }
  }

  predicate OthersSame(g: Group, h: Group, ids: seq<nat>) {
    h.Keys == g.Keys && forall id :: id in g && id !in ids ==> h[id] == g[id]
  }

  /** With the rounds left dealt as well, each replica has its share of the whole queue. */
  predicate OnTheWay(g: Group, h: Group, ids: seq<nat>, queue: seq<Rollout>, rounds: nat, left: seq<Rollout>, more: nat) {
    && (forall j :: 0 <= j < |ids| ==> ids[j] in g && ids[j] in h)
    && (forall j :: 0 <= j < |ids| ==> Given(h[ids[j]], Share(left, |ids|, more, j)) == Given(g[ids[j]], Share(queue, |ids|, rounds, j)))
  }

  lemma ShareNext(r: Replica, t: Replica, left: seq<Rollout>, n: nat, more: nat, j: nat)
    requires j < n <= |left| && 0 < more && t == Given(r, [left[j]])
    ensures Given(t, Share(left[n..], n, more - 1, j)) == Given(r, Share(left, n, more, j))
  {
    assert (r.received + [left[j]]) + Share(left[n..], n, more - 1, j) == r.received + Share(left, n, more, j);
  }

  lemma RoundGave(h: Group, t: Group, ids: seq<nat>, front: seq<Rollout>)
    requires |ids| <= |front| && (forall id :: id in ids ==> id in h) && DealtTo(h, t, ids, front, |ids|)
    ensures OthersSame(h, t, ids)
    ensures forall j :: 0 <= j < |ids| ==> ids[j] in h && ids[j] in t && t[ids[j]] == Given(h[ids[j]], [front[j]])
  {
  }

  lemma StillOnTheWay(g: Group, h: Group, t: Group, ids: seq<nat>, queue: seq<Rollout>, rounds: nat, left: seq<Rollout>, more: nat)
    requires OnTheWay(g, h, ids, queue, rounds, left, more) && 0 < more && |ids| <= |left|
    requires forall j :: 0 <= j < |ids| ==> ids[j] in h && ids[j] in t && t[ids[j]] == Given(h[ids[j]], [left[j]])
    ensures OnTheWay(g, t, ids, queue, rounds, left[|ids|..], more - 1)
  {
    hide Given, Share;
    forall j | 0 <= j < |ids|
      ensures Given(t[ids[j]], Share(left[|ids|..], |ids|, more - 1, j)) == Given(g[ids[j]], Share(queue, |ids|, rounds, j))
    {
      ShareNext(h[ids[j]], t[ids[j]], left, |ids|, more, j);
    }
  }

  lemma OthersTransitive(g: Group, h: Group, t: Group, ids: seq<nat>)
    requires OthersSame(g, h, ids) && OthersSame(h, t, ids)
    ensures OthersSame(g, t, ids)
  {
  }

  lemma DealFinished(c: Config, g: Group, h: Group, ids: seq<nat>, queue: seq<Rollout>, left: seq<Rollout>)
    requires c.batch * |ids| <= |queue| && OthersSame(g, h, ids) && OnTheWay(g, h, ids, queue, c.batch, left, 0)
    ensures h == Deal(c, g, ids, queue)
  {
    forall id | id in g
      ensures h[id] == Deal(c, g, ids, queue)[id]
    {
      if id in ids {
        var j := IndexOf(ids, id);
        assert Given(h[ids[j]], Share(left, |ids|, 0, j)) == Given(g[ids[j]], Share(queue, |ids|, c.batch, j));
        assert h[id].received + [] == h[id].received;
      }
    }
  }

  lemma NothingDealt(g: Group, ids: seq<nat>, queue: seq<Rollout>, rounds: nat)
    requires forall id :: id in ids ==> id in g
    ensures OthersSame(g, g, ids) && OnTheWay(g, g, ids, queue, rounds, queue, rounds)
  {
  }

  /** Deals the queue in rounds, one rollout to each replica in turn, taking each from the front. */
  method DealLoop(c: Config, g: Group, ids: seq<nat>, queue: seq<Rollout>) returns (h: Group, left: seq<Rollout>, dealt: seq<Rollout>)
    requires ValidConfig(c) && Distinct(ids) && (forall id :: id in ids ==> id in g) && c.batch * |ids| <= |queue|
    ensures h == Deal(c, g, ids, queue) && left == queue[c.batch * |ids|..] && dealt == queue[..c.batch * |ids|]
  {
    hide OnTheWay, DealtTo, OthersSame, Deal;
    h, left, dealt := g, queue, [];
    NothingDealt(g, ids, queue, c.batch);
    ghost var used: nat := 0;
    for k := 0 to c.batch
      invariant used == k * |ids| <= |queue| && left == queue[used..] && dealt == queue[..used]
      invariant forall id :: id in ids ==> id in h
      invariant OthersSame(g, h, ids) && OnTheWay(g, h, ids, queue, c.batch, left, c.batch - k)
    {
      RoundFits(k, |ids|, c.batch);
      ghost var before, front := h, left;
      h, left, dealt := DealRound(h, ids, left, dealt);
      RoundGave(before, h, ids, front);
      OthersTransitive(g, before, h, ids);
      KnownStay(before, h, ids);
      StillOnTheWay(g, before, h, ids, queue, c.batch, front, c.batch - k);
      used := used + |ids|;
    }
    DealFinished(c, g, h, ids, queue, left);
  }

  lemma KnownStay(g: Group, h: Group, ids: seq<nat>)
    requires OthersSame(g, h, ids) && forall id :: id in ids ==> id in g
    ensures forall id :: id in ids ==> id in h
  {
  }

  lemma RoundFits(k: int, n: int, total: int)
    requires 0 <= n && k < total
    ensures k * n + n == (k + 1) * n <= total * n
  {
    MulLe(k + 1, total, n);
  }

  // ---------- dispatching by rank ----------

  /** Takes rollouts from the front of one queue, one by one. */
  method TakeFront(r: Replica, q: seq<Rollout>, items: nat) returns (t: Replica, left: seq<Rollout>)
    requires items <= |q|
    ensures t == Given(r, q[..items]) && left == q[items..]
  {
    t, left := r, q;
    assert r.received + [] == r.received;
    for k := 0 to items
      invariant t == Given(r, q[..k]) && left == q[k..]
    {
      assert (r.received + q[..k]) + [q[k]] == r.received + q[..k + 1];
      t := Given(t, [left[0]]);
      left := left[1..];
    }
  }

  /** The first i replicas are served from their sorted queues. */
  predicate RankedDealt(g: Group, h: Group, ids: seq<nat>, sorted: seq<seq<Rollout>>, items: nat, i: nat)
    requires i <= |ids| <= |sorted| && forall m :: 0 <= m < |ids| ==> items <= |sorted[m]|
  {
    && OthersSame(g, h, ids) && (forall m :: 0 <= m < |ids| ==> ids[m] in g && ids[m] in h)
    && (forall m :: 0 <= m < |ids| ==> h[ids[m]] == if m < i then Given(g[ids[m]], sorted[m][..items]) else g[ids[m]])
  }

  predicate QueuesServed(qs: seq<seq<Rollout>>, sorted: seq<seq<Rollout>>, left: seq<seq<Rollout>>, n: nat, items: nat, i: nat)
    requires i <= n <= |qs| && |sorted| == |qs| && forall m :: 0 <= m < n ==> items <= |sorted[m]|
  {
    |left| == |qs| && forall m :: 0 <= m < |qs| ==> left[m] == if m < i then sorted[m][items..] else qs[m]
  }

  lemma ServeOne(g: Group, h: Group, ids: seq<nat>, sorted: seq<seq<Rollout>>, items: nat, i: nat)
    requires i < |ids| <= |sorted| && (forall m :: 0 <= m < |ids| ==> items <= |sorted[m]|) && Distinct(ids)
    requires RankedDealt(g, h, ids, sorted, items, i)
    ensures RankedDealt(g, h[ids[i] := Given(h[ids[i]], sorted[i][..items])], ids, sorted, items, i + 1)
  {
    hide Given;
    assert ids[i] in ids;
  }

  lemma AllServed(g: Group, h: Group, ids: seq<nat>, sorted: seq<seq<Rollout>>, items: nat)
    requires |ids| <= |sorted| && (forall m :: 0 <= m < |ids| ==> items <= |sorted[m]|)
    requires RankedDealt(g, h, ids, sorted, items, |ids|)
    ensures h == DealByRank(g, ids, sorted, items)
  {
    forall id | id in g
      ensures h[id] == DealByRank(g, ids, sorted, items)[id]
    {
      if id in ids {
        var m := IndexOf(ids, id);
        assert h[ids[m]] == Given(g[ids[m]], sorted[m][..items]);
      }
    }
  }

  /** Sorts each replica's queue and serves the replica from its front. */
  method RankDealLoop(g: Group, ids: seq<nat>, qs: seq<seq<Rollout>>, items: nat) returns (h: Group, left: seq<seq<Rollout>>, dealt: seq<Rollout>)
    requires Distinct(ids) && (forall id :: id in ids ==> id in g) && |ids| <= |qs|
    requires forall m :: 0 <= m < |ids| ==> items <= |qs[m]|
    ensures var sorted := SortedQueues(qs, |ids|);
            h == DealByRank(g, ids, sorted, items) && left == Served(sorted, |ids|, items) && dealt == DealtByRank(sorted, |ids|, items)
  {
    hide RankedDealt, DealByRank, QueuesServed, DealtByRank, Given, Distinct;
    ghost var sorted := SortedQueues(qs, |ids|);
    h, left, dealt := g, qs, [];
    NothingServedYet(g, ids, sorted, items);
    NoQueueServed(qs, sorted, |ids|, items);
    for i := 0 to |ids|
      invariant RankedDealt(g, h, ids, sorted, items, i) && QueuesServed(qs, sorted, left, |ids|, items, i)
      invariant dealt == DealtByRank(sorted, i, items)
    {
      QueueServedNext(qs, sorted, left, |ids|, items, i);
      var q := SortByPrompt(left[i]);
      RankedKnown(g, h, ids, sorted, items, i);
      var t, rest := TakeFront(h[ids[i]], q, items);
      ServeOne(g, h, ids, sorted, items, i);
      h := h[ids[i] := t];
      left := left[i := rest];
      dealt := dealt + q[..items];
    }
    AllServed(g, h, ids, sorted, items);
    AllQueuesServed(qs, sorted, left, |ids|, items);
  }

  lemma NoQueueServed(qs: seq<seq<Rollout>>, sorted: seq<seq<Rollout>>, n: nat, items: nat)
    requires n <= |qs| && |sorted| == |qs| && forall m :: 0 <= m < n ==> items <= |sorted[m]|
    ensures QueuesServed(qs, sorted, qs, n, items, 0) && DealtByRank(sorted, 0, items) == []
  {
  }

  lemma QueueServedNext(qs: seq<seq<Rollout>>, sorted: seq<seq<Rollout>>, left: seq<seq<Rollout>>, n: nat, items: nat, i: nat)
    requires i < n <= |qs| && sorted == SortedQueues(qs, n) && forall m :: 0 <= m < n ==> items <= |sorted[m]|
    requires QueuesServed(qs, sorted, left, n, items, i)
    ensures |left| == |qs| && left[i] == qs[i] && SortByPrompt(left[i]) == sorted[i]
    ensures QueuesServed(qs, sorted, left[i := sorted[i][items..]], n, items, i + 1)
    ensures DealtByRank(sorted, i + 1, items) == DealtByRank(sorted, i, items) + sorted[i][..items]
  {
  }

  lemma AllQueuesServed(qs: seq<seq<Rollout>>, sorted: seq<seq<Rollout>>, left: seq<seq<Rollout>>, n: nat, items: nat)
    requires n <= |qs| && sorted == SortedQueues(qs, n) && forall m :: 0 <= m < n ==> items <= |sorted[m]|
    requires QueuesServed(qs, sorted, left, n, items, n)
    ensures left == Served(sorted, n, items)
  {
  }

  lemma NothingServedYet(g: Group, ids: seq<nat>, sorted: seq<seq<Rollout>>, items: nat)
    requires |ids| <= |sorted| && (forall m :: 0 <= m < |ids| ==> items <= |sorted[m]|) && forall id :: id in ids ==> id in g
    ensures RankedDealt(g, g, ids, sorted, items, 0)
  {
  }

  lemma RankedKnown(g: Group, h: Group, ids: seq<nat>, sorted: seq<seq<Rollout>>, items: nat, i: nat)
    requires i < |ids| <= |sorted| && (forall m :: 0 <= m < |ids| ==> items <= |sorted[m]|)
    requires RankedDealt(g, h, ids, sorted, items, i)
    ensures ids[i] in h
  {
  }

  // ---------- publishing one by one ----------

  /** Publishes a command to the replicas of a list, one after the other. */
  method TellLoop(g: Group, ids: seq<nat>, cmd: Command, load: bool) returns (h: Group)
    requires Distinct(ids) && forall id :: id in ids ==> id in g
    ensures h == if load then Load(g, AsSet(ids), cmd) else Tell(g, AsSet(ids), cmd)
  {
    h := g;
    for i := 0 to |ids|
      invariant h.Keys == g.Keys
      invariant forall id :: id in g ==> h[id] == if id in ids[..i] then PublishedTo(g[id], cmd, load) else g[id]
    {
      assert ids[i] in ids && ids[i] !in ids[..i];
      h := h[ids[i] := PublishedTo(h[ids[i]], cmd, load)];
      assert ids[..i + 1] == ids[..i] + [ids[i]];
    }
    assert ids[..|ids|] == ids;
  }

  function PublishedTo(r: Replica, cmd: Command, load: bool): Replica {
    if load then Told(r, cmd).(loaded := true) else Told(r, cmd)
  }

  /** Publishes the fetch of a step to each arrived replica and sets it running. */
  method FetchLoop(g: Group, ids: seq<nat>, cmd: Command) returns (h: Group)
    requires Distinct(ids) && forall id :: id in ids ==> id in g
    ensures h == Fetch(g, AsSet(ids), cmd)
  {
    h := g;
    for i := 0 to |ids|
      invariant h.Keys == g.Keys
      invariant forall id :: id in g ==> h[id] == if id in ids[..i] then Told(g[id], cmd).(status := Some(Running)) else g[id]
    {
      assert ids[i] in ids && ids[i] !in ids[..i];
      h := h[ids[i] := Told(h[ids[i]], cmd).(status := Some(Running))];
      assert ids[..i + 1] == ids[..i] + [ids[i]];
    }
    assert ids[..|ids|] == ids;
  }

  /** Publishes the fetch of the step after w. */
  method Announce(c: Config, ghost w: World, g: Group, ids: seq<nat>, fake: bool, step: int, total: int, remain: int) returns (h: Group)
    requires Distinct(ids) && (forall id :: id in ids ==> id in g) && ids == ArrivedPolicies(w)
    requires step == w.step + 1 && total == w.total && remain == w.remain - if fake then 0 else PerStep(c, w)
    ensures h == Fetch(g, AsSet(ArrivedPolicies(w)), FetchOf(c, w, fake)) && h.Keys == g.Keys
  {
    hide ArrivedIn, PerStep;
    h := FetchLoop(g, ids, DataFetch(if fake then 0 else c.batch, step, total, remain));
  }

  method StatusLoop(g: Group, ids: seq<nat>, s: Status) returns (h: Group)
    requires Distinct(ids) && forall id :: id in ids ==> id in g
    ensures h == SetStatus(g, AsSet(ids), s)
  {
    h := g;
    for i := 0 to |ids|
      invariant h.Keys == g.Keys
      invariant forall id :: id in g ==> h[id] == if id in ids[..i] then g[id].(status := Some(s)) else g[id]
    {
      assert ids[i] in ids && ids[i] !in ids[..i];
      h := h[ids[i] := h[ids[i]].(status := Some(s))];
      assert ids[..i + 1] == ids[..i] + [ids[i]];
    }
    assert ids[..|ids|] == ids;
  }

  // ---------- broadcasting to rollouts ----------

  method AllLoadedLoop(g: Group, ids: seq<nat>) returns (b: bool)
    requires forall id :: id in ids ==> id in g
    ensures b <==> AllLoaded(g, AsSet(ids))
  {
    for i := 0 to |ids|
      invariant forall j :: 0 <= j < i ==> ids[j] in g && g[ids[j]].loaded
    {
      assert ids[i] in ids;
      if !g[ids[i]].loaded {
        return false;
      }
    }
    return true;
  }

  /** Publishes a command to those replicas of a list that are in the mesh, and regards them as loaded. */
  method LoadMeshLoop(g: Group, ids: seq<nat>, cmd: Command) returns (h: Group)
    requires Distinct(ids) && forall id :: id in ids ==> id in g
    ensures h == Load(g, MeshMembers(g, AsSet(ids)), cmd)
  {
    h := g;
    for i := 0 to |ids|
      invariant h.Keys == g.Keys
      invariant forall id :: id in g ==> h[id] == if id in ids[..i] && g[id].rank.Some? then Told(g[id], cmd).(loaded := true) else g[id]
    {
      assert ids[i] in ids && ids[i] !in ids[..i];
      assert ids[..i + 1] == ids[..i] + [ids[i]];
      if h[ids[i]].rank.None? {
        continue;
      }
      h := h[ids[i] := Told(h[ids[i]], cmd).(loaded := true)];
    }
    assert ids[..|ids|] == ids;
  }

  // ---------- searching and removing ----------

  method FindLoaded(g: Group, order: seq<nat>) returns (r: Option<nat>)
    ensures r == FirstLoaded(g, order)
  {
    var i := 0;
    assert order[0..] == order;
    while i < |order|
      invariant i <= |order| && FirstLoaded(g, order) == FirstLoaded(g, order[i..])
    {
      assert order[i..][1..] == order[i + 1..];
      if order[i] in g && g[order[i]].loaded {
        return Some(order[i]);
      }
      i := i + 1;
    }
    return None;
  }

  method Remove(order: seq<nat>, id: nat) returns (r: seq<nat>)
    ensures r == Without(order, id)
  {
    r := [];
    for i := 0 to |order|
      invariant r == Without(order[..i], id)
    {
      assert order[..i + 1][..i] == order[..i];
      if order[i] != id {
        r := r + [order[i]];
      }
    }
    assert order[..|order|] == order;
  }
}
