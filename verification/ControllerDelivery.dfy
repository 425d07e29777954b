/** Delivery: what the replicas received, those that left included, is together what the steps dispatched. */
module ControllerDelivery {
  import opened Arithmetic
  import opened Common
  import opened ControllerModel
  import opened ControllerFlow
  import opened ControllerQueues
  import opened ControllerLedger
  import opened ControllerMesh
  import opened ControllerLoads
  import opened ControllerWeights
  import opened ControllerLockStep
  import opened ControllerStart

  // ---------- what the replicas hold ----------

  /** All that the listed replicas received. */
  function HeldBy(g: Group, order: seq<nat>): multiset<Rollout> {
    if order == [] then multiset{}
    else HeldBy(g, order[..|order| - 1]) + multiset(ReceivedOf(g, order[|order| - 1]))
  }

  /** What is handed to the listed replicas. */
  function Gifts(gifts: map<nat, seq<Rollout>>, order: seq<nat>): multiset<Rollout> {
    if order == [] then multiset{}
    else Gifts(gifts, order[..|order| - 1]) + multiset(GiftTo(gifts, order[|order| - 1]))
  }

  function GiftTo(gifts: map<nat, seq<Rollout>>, id: nat): seq<Rollout> {
    if id in gifts then gifts[id] else []
  }

  lemma {:induction false} HeldSame(g: Group, h: Group, order: seq<nat>)
    requires forall id :: id in order ==> ReceivedOf(h, id) == ReceivedOf(g, id)
    ensures HeldBy(h, order) == HeldBy(g, order)
  {
    hide ReceivedOf;
    if order != [] {
      HeldSame(g, h, order[..|order| - 1]);
      assert order[|order| - 1] in order;
    }
  }

  lemma {:induction false} HeldGrows(g: Group, h: Group, gifts: map<nat, seq<Rollout>>, order: seq<nat>)
    requires forall id :: id in order ==> ReceivedOf(h, id) == ReceivedOf(g, id) + GiftTo(gifts, id)
    ensures HeldBy(h, order) == HeldBy(g, order) + Gifts(gifts, order)
  {
    hide ReceivedOf, GiftTo;
    if order != [] {
      var front, last := order[..|order| - 1], order[|order| - 1];
      HeldGrows(g, h, gifts, front);
      assert last in order;
      assert multiset(ReceivedOf(g, last) + GiftTo(gifts, last)) == multiset(ReceivedOf(g, last)) + multiset(GiftTo(gifts, last));
      AddPairs(HeldBy(g, front), Gifts(gifts, front), multiset(ReceivedOf(g, last)), multiset(GiftTo(gifts, last)));
    }
  }

  lemma AddPairs(a: multiset<Rollout>, b: multiset<Rollout>, d: multiset<Rollout>, e: multiset<Rollout>)
    ensures (a + b) + (d + e) == (a + d) + (b + e)
  {
  }

  /** Gifts go to arrived replicas only. */
  lemma {:induction false} GiftsToArrived(g: Group, gifts: map<nat, seq<Rollout>>, order: seq<nat>)
    requires forall id :: id in gifts ==> id in g && Arrived(g[id])
    ensures Gifts(gifts, ArrivedIn(g, order)) == Gifts(gifts, order)
  {
    hide Arrived;
    if order != [] {
      var front, last := order[..|order| - 1], order[|order| - 1];
      GiftsToArrived(g, gifts, front);
      if last in g && Arrived(g[last]) {
        assert ArrivedIn(g, order) == ArrivedIn(g, front) + [last];
        assert (ArrivedIn(g, front) + [last])[..|ArrivedIn(g, front)|] == ArrivedIn(g, front);
      }
    }
  }

  lemma {:induction false} GiftsInserted(g: Group, gifts: map<nat, seq<Rollout>>, id: nat, s: seq<nat>)
    ensures Gifts(gifts, InsertByStart(g, id, s)) == Gifts(gifts, s) + multiset(GiftTo(gifts, id))
  {
    hide GiftTo, StartOf;
    if s == [] || StartOf(g, id) < StartOf(g, s[0]) {
      GiftsFront(gifts, id, s);
    } else {
      GiftsInserted(g, gifts, id, s[1..]);
      GiftsFront(gifts, s[0], InsertByStart(g, id, s[1..]));
      GiftsFront(gifts, s[0], s[1..]);
      assert s == [s[0]] + s[1..];
    }
  }

  lemma {:induction false} GiftsFront(gifts: map<nat, seq<Rollout>>, id: nat, s: seq<nat>)
    ensures Gifts(gifts, [id] + s) == multiset(GiftTo(gifts, id)) + Gifts(gifts, s)
  {
    hide GiftTo;
    if s == [] {
      assert ([id] + s)[..0] == [] && ([id] + s)[0] == id;
    } else {
      GiftsFront(gifts, id, s[..|s| - 1]);
      assert ([id] + s)[..|s|] == [id] + s[..|s| - 1];
    }
  }

  lemma {:induction false} GiftsSorted(g: Group, gifts: map<nat, seq<Rollout>>, s: seq<nat>)
    ensures Gifts(gifts, SortByStart(g, s)) == Gifts(gifts, s)
  {
    if s != [] {
      GiftsSorted(g, gifts, s[..|s| - 1]);
      GiftsInserted(g, gifts, s[|s| - 1], SortByStart(g, s[..|s| - 1]));
    }
  }

  /** Gifts in the order of the parts they come from. */
  lemma {:induction false} GiftsAreParts(gifts: map<nat, seq<Rollout>>, ids: seq<nat>, parts: seq<seq<Rollout>>)
    requires |parts| == |ids| && forall i :: 0 <= i < |ids| ==> GiftTo(gifts, ids[i]) == parts[i]
    ensures Gifts(gifts, ids) == AllQueued(parts)
  {
    hide GiftTo;
    if ids != [] {
      GiftsAreParts(gifts, ids[..|ids| - 1], parts[..|parts| - 1]);
    }
  }

  // ---------- dealing the shared queue ----------

  function Shares(queue: seq<Rollout>, n: nat, k: nat, j: nat): (ps: seq<seq<Rollout>>)
    requires j <= n
    ensures |ps| == j && forall i :: 0 <= i < j ==> ps[i] == Share(queue, n, k, i)
  {
    seq(j, i requires 0 <= i < j => Share(queue, n, k, i))
  }

  lemma SharesAppend(queue: seq<Rollout>, n: nat, k: nat, j: nat)
    requires j < n
    ensures AllQueued(Shares(queue, n, k, j + 1)) == AllQueued(Shares(queue, n, k, j)) + multiset(Share(queue, n, k, j))
  {
    var ps := Shares(queue, n, k, j + 1);
    assert ps[..j] == Shares(queue, n, k, j);
  }

  /** The first round gives the first rollouts of the queue, one each. */
  lemma {:induction false} FirstRound(queue: seq<Rollout>, n: nat, k: nat, j: nat)
    requires j <= n <= |queue| && 0 < k
    ensures AllQueued(Shares(queue, n, k, j)) == multiset(queue[..j]) + AllQueued(Shares(queue[n..], n, k - 1, j))
  {
    hide AllQueued, Share, Shares;
    if j == 0 {
      NoShares(queue, n, k);
      NoShares(queue[n..], n, k - 1);
    } else {
      FirstRound(queue, n, k, j - 1);
      SharesAppend(queue, n, k, j - 1);
      SharesAppend(queue[n..], n, k - 1, j - 1);
      FirstOfShare(queue, n, k, j - 1);
      assert queue[..j] == queue[..j - 1] + [queue[j - 1]];
      AddPairs(multiset(queue[..j - 1]), AllQueued(Shares(queue[n..], n, k - 1, j - 1)),
               multiset{queue[j - 1]}, multiset(Share(queue[n..], n, k - 1, j - 1)));
    }
  }

  lemma NoShares(queue: seq<Rollout>, n: nat, k: nat)
    ensures AllQueued(Shares(queue, n, k, 0)) == multiset{}
  {
  }

  lemma FirstOfShare(queue: seq<Rollout>, n: nat, k: nat, i: nat)
    requires i < n <= |queue| && 0 < k
    ensures multiset(Share(queue, n, k, i)) == multiset{queue[i]} + multiset(Share(queue[n..], n, k - 1, i))
  {
    assert Share(queue, n, k, i) == [queue[i]] + Share(queue[n..], n, k - 1, i);
  }

  lemma {:induction false} NoRounds(queue: seq<Rollout>, n: nat, j: nat)
    requires j <= n
    ensures AllQueued(Shares(queue, n, 0, j)) == multiset{}
  {
    if j > 0 {
      NoRounds(queue, n, j - 1);
      SharesAppend(queue, n, 0, j - 1);
    }
  }

  /** All shares together are what was dealt from the front of the queue. */
  lemma {:induction false} SharesAreDealt(queue: seq<Rollout>, n: nat, k: nat)
    requires k * n <= |queue|
    ensures AllQueued(Shares(queue, n, k, n)) == multiset(queue[..k * n])
  {
    hide AllQueued, Share, Shares;
    if k == 0 {
      NoRounds(queue, n, n);
      assert queue[..0] == [];
    } else {
      OneRound(k, n);
      FirstRound(queue, n, k, n);
      var rounds := (k - 1) * n;
      SharesAreDealt(queue[n..], n, k - 1);
      TakeMore(queue, n, rounds);
    }
  }

  lemma TakeMore(queue: seq<Rollout>, n: nat, m: nat)
    requires n + m <= |queue|
    ensures multiset(queue[..n]) + multiset(queue[n..][..m]) == multiset(queue[..n + m])
  {
    assert queue[..n + m] == queue[..n] + queue[n..][..m];
  }

  /** A deal: every replica gets its gift, gifts go to arrived ones, and together they are what was dealt. */
  predicate Deals(g: Group, h: Group, order: seq<nat>, gifts: map<nat, seq<Rollout>>, dealt: multiset<Rollout>) {
    && h.Keys == g.Keys && (forall id :: id in gifts ==> id in g && Arrived(g[id]))
    && (forall id :: id in g ==> h[id].received == g[id].received + GiftTo(gifts, id))
    && Gifts(gifts, ArrivedIn(g, order)) == dealt
  }

  lemma DealsHeld(g: Group, h: Group, order: seq<nat>, gifts: map<nat, seq<Rollout>>, dealt: multiset<Rollout>)
    requires Deals(g, h, order, gifts, dealt)
    ensures HeldBy(h, order) == HeldBy(g, order) + dealt
  {
    GiftsToArrived(g, gifts, order);
    HeldGrows(g, h, gifts, order);
  }

  /** Handing out by gifts. */
  predicate Hands(g: Group, h: Group, gifts: map<nat, seq<Rollout>>) {
    && h.Keys == g.Keys && (forall id :: id in g && id in gifts ==> h[id] == Given(g[id], gifts[id]))
    && (forall id :: id in g && id !in gifts ==> h[id] == g[id])
  }

  lemma HandsDeal(g: Group, h: Group, order: seq<nat>, gifts: map<nat, seq<Rollout>>, dealt: multiset<Rollout>)
    requires Hands(g, h, gifts) && (forall id :: id in gifts ==> id in g && Arrived(g[id])) && Gifts(gifts, ArrivedIn(g, order)) == dealt
    ensures Deals(g, h, order, gifts, dealt)
  {
    hide ArrivedIn, Gifts;
    forall id | id in g
      ensures h[id].received == g[id].received + GiftTo(gifts, id)
    {
      if id !in gifts { assert g[id].received + [] == g[id].received; }
    }
  }

  lemma SharedDeals(c: Config, w: World) returns (gifts: map<nat, seq<Rollout>>)
    requires Distinct(w.policyOrder) && |w.queue| >= PerStep(c, w)
    ensures Deals(w.policies, DispatchShared(c, w, false).policies, w.policyOrder, gifts, multiset(w.queue[..PerStep(c, w)]))
  {
    hide ArrivedIn, Share, AllQueued, Gifts, Arrived, Given, Deals, Shares, Distinct;
    var ids := ArrivedPolicies(w);
    gifts := map id | id in ids :: Share(w.queue, |ids|, c.batch, IndexOf(ids, id));
    ArrivedDistinct(w.policies, w.policyOrder);
    SharedGifts(w.queue, ids, c.batch, gifts);
    HandsDeal(w.policies, DispatchShared(c, w, false).policies, w.policyOrder, gifts, multiset(w.queue[..PerStep(c, w)]));
  }

  lemma SharedGifts(queue: seq<Rollout>, ids: seq<nat>, k: nat, gifts: map<nat, seq<Rollout>>)
    requires Distinct(ids) && k * |ids| <= |queue|
    requires gifts == map id | id in ids :: Share(queue, |ids|, k, IndexOf(ids, id))
    ensures Gifts(gifts, ids) == multiset(queue[..k * |ids|])
  {
    hide Share, AllQueued, Gifts;
    forall i | 0 <= i < |ids|
      ensures GiftTo(gifts, ids[i]) == Shares(queue, |ids|, k, |ids|)[i]
    {
      IndexOfAt(ids, i);
    }
    GiftsAreParts(gifts, ids, Shares(queue, |ids|, k, |ids|));
    SharesAreDealt(queue, |ids|, k);
  }

  // ---------- dealing by rank ----------

  function Taken(qs: seq<seq<Rollout>>, n: nat, k: nat): (ps: seq<seq<Rollout>>)
    requires n <= |qs| && forall i :: 0 <= i < n ==> k <= |qs[i]|
    ensures |ps| == n && forall i :: 0 <= i < n ==> ps[i] == qs[i][..k]
  {
    seq(n, i requires 0 <= i < n => qs[i][..k])
  }

  lemma {:induction false} TakenAreDealt(qs: seq<seq<Rollout>>, n: nat, k: nat)
    requires n <= |qs| && forall i :: 0 <= i < n ==> k <= |qs[i]|
    ensures AllQueued(Taken(qs, n, k)) == multiset(DealtByRank(qs, n, k))
  {
    if n > 0 {
      TakenAreDealt(qs, n - 1, k);
      assert Taken(qs, n, k)[..n - 1] == Taken(qs, n - 1, k);
    }
  }

  lemma RankDeals(w: World, items: nat) returns (gifts: map<nat, seq<Rollout>>)
    requires Distinct(w.policyOrder) && |ArrivedPolicies(w)| <= |w.rankQueues|
    requires forall i :: 0 <= i < |ArrivedPolicies(w)| ==> items <= |w.rankQueues[i]|
    ensures Deals(w.policies, DispatchByRank(w, items).policies, w.policyOrder, gifts,
                  multiset(DealtByRank(SortedQueues(w.rankQueues, |ArrivedPolicies(w)|), |ArrivedPolicies(w)|, items)))
  {
    hide ArrivedIn, AllQueued, Gifts, SortByPrompt, DealtByRank, Served, Arrived, Given, Deals, Taken, Distinct;
    var ids := SortByStart(w.policies, ArrivedPolicies(w));
    var qs := SortedQueues(w.rankQueues, |ArrivedPolicies(w)|);
    gifts := map id | id in ids :: qs[IndexOf(ids, id)][..items];
    ArrivedDistinct(w.policies, w.policyOrder);
    SortDistinct(w.policies, ArrivedPolicies(w));
    RankGifts(qs, ids, items, gifts);
    GiftsSorted(w.policies, gifts, ArrivedPolicies(w));
    HandsDeal(w.policies, DispatchByRank(w, items).policies, w.policyOrder, gifts, multiset(DealtByRank(qs, |ids|, items)));
  }

  lemma RankGifts(qs: seq<seq<Rollout>>, ids: seq<nat>, k: nat, gifts: map<nat, seq<Rollout>>)
    requires Distinct(ids) && |ids| <= |qs| && forall i :: 0 <= i < |ids| ==> k <= |qs[i]|
    requires gifts == map id | id in ids :: qs[IndexOf(ids, id)][..k]
    ensures Gifts(gifts, ids) == multiset(DealtByRank(qs, |ids|, k))
  {
    hide AllQueued, Gifts, DealtByRank;
    forall i | 0 <= i < |ids|
      ensures GiftTo(gifts, ids[i]) == Taken(qs, |ids|, k)[i]
    {
      IndexOfAt(ids, i);
    }
    GiftsAreParts(gifts, ids, Taken(qs, |ids|, k));
    TakenAreDealt(qs, |ids|, k);
  }

  // ---------- the invariant ----------

  /** What was received, by those present and those gone, is what the steps dispatched. */
  predicate Delivered(w: World, gone: multiset<Rollout>) {
    HeldBy(w.policies, w.policyOrder) + gone == multiset(Flat(w.log.steps))
  }

  lemma DispatchDelivers(c: Config, w: World, gone: multiset<Rollout>)
    requires Distinct(w.policyOrder) && Delivered(w, gone) && Enough(c, w) && Dispatch(c, w, false).Some?
    ensures Delivered(Dispatch(c, w, false).value, gone)
  {
    hide ArrivedPolicies, HeldBy, Deals, DealtByRank, Share, PerStep;
    var d := Dispatch(c, w, false).value;
    if c.byRank {
      var n := |ArrivedPolicies(w)|;
      var dealt := DealtByRank(SortedQueues(w.rankQueues, n), n, c.batch);
      var gifts := RankDeals(w, c.batch);
      DealsHeld(w.policies, d.policies, w.policyOrder, gifts, multiset(dealt));
      FlatAppend(w.log.steps, dealt);
      MoreDealt(w, d, gone, dealt);
    } else {
      var gifts := SharedDeals(c, w);
      DealsHeld(w.policies, d.policies, w.policyOrder, gifts, multiset(w.queue[..PerStep(c, w)]));
      FlatAppend(w.log.steps, w.queue[..PerStep(c, w)]);
      MoreDealt(w, d, gone, w.queue[..PerStep(c, w)]);
    }
  }

  lemma MoreDealt(w: World, d: World, gone: multiset<Rollout>, dealt: seq<Rollout>)
    requires Delivered(w, gone) && HeldBy(d.policies, d.policyOrder) == HeldBy(w.policies, w.policyOrder) + multiset(dealt)
    requires Flat(d.log.steps) == Flat(w.log.steps) + dealt
    ensures Delivered(d, gone)
  {
    hide HeldBy, Flat;
    assert multiset(Flat(w.log.steps) + dealt) == multiset(Flat(w.log.steps)) + multiset(dealt);
  }

  /** Nobody received anything and no step is recorded that dispatched anything. */
  predicate Undelivered(w: World, v: World) {
    && v.policyOrder == w.policyOrder && Flat(v.log.steps) == Flat(w.log.steps)
    && forall id :: id in w.policyOrder ==> ReceivedOf(v.policies, id) == ReceivedOf(w.policies, id)
  }

  lemma UndeliveredKeeps(w: World, v: World, gone: multiset<Rollout>)
    requires Undelivered(w, v) && Delivered(w, gone)
    ensures Delivered(v, gone)
  {
    HeldSame(w.policies, v.policies, w.policyOrder);
  }

  lemma LaunchUndelivered(c: Config, w: World, d: World)
    ensures Undelivered(d, Launch(c, w, d, false))
  {
    hide FetchOf, ArrivedPolicies;
  }

  lemma TriggerDelivers(c: Config, w: World, gone: multiset<Rollout>)
    requires Distinct(w.policyOrder) && Delivered(w, gone) && TryTrigger(c, w, false).Some?
    ensures Delivered(TryTrigger(c, w, false).value, gone) && TryTrigger(c, w, false).value.policyOrder == w.policyOrder
  {
    hide Dispatch, Delivered, Undelivered, Distinct, Launch, FetchOf, Enough, ArrivedPolicies, AllStatus;
    if Triggers(c, w, false) {
      DispatchDelivers(c, w, gone);
      var d := Dispatch(c, w, false).value;
      LaunchUndelivered(c, w, d);
      UndeliveredKeeps(d, Launch(c, w, d, false), gone);
      TriggerOrderKept(c, w);
    }
  }

  lemma TriggerOrderKept(c: Config, w: World)
    requires TryTrigger(c, w, false).Some?
    ensures TryTrigger(c, w, false).value.policyOrder == w.policyOrder
  {
    hide InPlace;
    TriggerInPlace(c, w, false);
    InPlaceOrder(w, TryTrigger(c, w, false).value);
  }

  lemma InPlaceOrder(w: World, v: World)
    requires InPlace(w, v)
    ensures v.policyOrder == w.policyOrder
  {
  }

  // ---------- rollouts and reports ----------

  lemma SamePoliciesUndelivered(w: World, v: World)
    requires v.policies == w.policies && v.policyOrder == w.policyOrder && v.log.steps == w.log.steps
    ensures Undelivered(w, v)
  {
  }

  lemma {:induction false} PutEachDelivers(c: Config, w: World, xs: seq<Rollout>, gone: multiset<Rollout>)
    requires Distinct(w.policyOrder) && Delivered(w, gone) && PutEach(c, w, xs).Some?
    ensures Delivered(PutEach(c, w, xs).value, gone)
    decreases |xs|
  {
    hide Distinct, Delivered, TryTrigger, Undelivered;
    if xs != [] {
      var b := Buffer(c, w, xs[0]).value;
      SamePoliciesUndelivered(w, b);
      UndeliveredKeeps(w, b, gone);
      TriggerDelivers(c, b, gone);
      var p := PutRollout(c, w, xs[0]).value;
      if c.onPolicy && Pending(c, p) == 0 {
        SamePoliciesUndelivered(p, p.(stepSampled := true));
        UndeliveredKeeps(p, p.(stepSampled := true), gone);
      } else {
        PutEachDelivers(c, p, xs[1..], gone);
      }
    }
  }

  lemma GroupDelivers(c: Config, w: World, xs: seq<Rollout>, gone: multiset<Rollout>)
    requires ValidConfig(c) && Distinct(w.policyOrder) && Delivered(w, gone) && PutGroup(c, w, xs).Some?
    ensures Delivered(PutGroup(c, w, xs).value, gone)
  {
    hide Distinct, Delivered, PutEach, Undelivered;
    var kept := FreshOnes(c, w, xs);
    var p := w.(remain := w.remain - (|xs| - |kept|));
    SamePoliciesUndelivered(w, p);
    UndeliveredKeeps(w, p, gone);
    if c.onPolicy && p.stepSampled {
      SamePoliciesUndelivered(w, PutGroup(c, w, xs).value);
      UndeliveredKeeps(w, PutGroup(c, w, xs).value, gone);
    } else {
      PutEachDelivers(c, p, kept, gone);
    }
  }

  /** Books alike and the same log: nothing was delivered in between. */
  lemma SameBooksUndelivered(c: Config, w: World, v: World)
    requires SameBooks(c, w, v) && v.log == w.log
    ensures Undelivered(w, v)
  {
    assert forall id :: id in w.policies ==> SameBook(c, w.policies[id], v.policies[id]);
  }

  lemma AckDelivers(c: Config, w: World, id: nat, step: int, lastStep: int, gone: multiset<Rollout>)
    requires ValidConfig(c) && Distinct(w.policyOrder) && Delivered(w, gone) && TrainAck(c, w, id, step, lastStep).Some?
    ensures Delivered(TrainAck(c, w, id, step, lastStep).value, gone)
  {
    hide Distinct, Delivered, TryTrigger, SyncIfDue, StepDone, Acked, AllStatus, SameBooks, Undelivered;
    var a := Acked(w, id);
    AckedAccounts(c, w, id);
    AckedLog(w, id);
    SameBooksUndelivered(c, w, a);
    UndeliveredKeeps(w, a, gone);
    BooksOrder(c, w, a);
    if AllStatus(a, {Reduced}) {
      var b := StepDone(c, a);
      DoneAccounts(c, a);
      SyncAccounts(c, b, step, lastStep);
      var s := SyncIfDue(c, b, step, lastStep);
      SameBooksTransitive(c, a, b, s);
      SyncLog(c, a, step, lastStep);
      SameBooksUndelivered(c, a, s);
      UndeliveredKeeps(a, s, gone);
      BooksOrder(c, a, s);
      TriggerDelivers(c, s, gone);
      var t := TryTrigger(c, s, false).value;
      SamePoliciesUndelivered(t, t.(stepSampled := false));
      UndeliveredKeeps(t, t.(stepSampled := false), gone);
    }
  }

  lemma BooksOrder(c: Config, w: World, v: World)
    requires SameBooks(c, w, v)
    ensures v.policyOrder == w.policyOrder
  {
  }

  lemma AckedLog(w: World, id: nat)
    requires id in w.policies
    ensures Acked(w, id).log == w.log
  {
  }

  lemma SyncLog(c: Config, a: World, step: int, lastStep: int)
    requires ValidConfig(c)
    ensures SyncIfDue(c, StepDone(c, a), step, lastStep).log == a.log
  {
    hide ArrivedPolicies, SetStatus, Untrained;
    SyncUntrained(c, StepDone(c, a), step, lastStep);
    UntrainedLog(StepDone(c, a), SyncIfDue(c, StepDone(c, a), step, lastStep));
  }

  lemma UntrainedLog(w: World, v: World)
    requires Untrained(w, v)
    ensures v.log == w.log && v.policyOrder == w.policyOrder && v.policies.Keys == w.policies.Keys
  {
  }

  // ---------- the other events ----------

  /** Quiet events that record no step. */
  lemma QuietUndelivered(c: Config, w: World, v: World)
    requires Quiet(c, w, v) && v.policies.Keys == w.policies.Keys && v.policyOrder == w.policyOrder && Flat(v.log.steps) == Flat(w.log.steps)
    ensures Undelivered(w, v)
  {
    forall id | id in w.policyOrder
      ensures ReceivedOf(v.policies, id) == ReceivedOf(w.policies, id)
    {
      if id in v.policies { assert RealOf(c, v.policies, id) == RealOf(c, w.policies, id); }
    }
  }

  lemma ExtraSteps(c: Config, w: World)
    requires TryTrigger(c, w, true).Some?
    ensures Flat(TryTrigger(c, w, true).value.log.steps) == Flat(w.log.steps)
  {
    hide ArrivedPolicies, FetchOf, Deal, DealByRank, Served, Finished;
    if Triggers(c, w, true) {
      var n := |ArrivedPolicies(w)|;
      FlatAppend(w.log.steps, []);
      assert Flat(w.log.steps) + [] == Flat(w.log.steps);
      if c.byRank {
        NothingDealt(SortedQueues(w.rankQueues, n), n);
      }
    }
  }

  lemma {:induction false} NothingDealt(qs: seq<seq<Rollout>>, n: nat)
    requires n <= |qs|
    ensures DealtByRank(qs, n, 0) == []
  {
    if n > 0 { NothingDealt(qs, n - 1); }
  }

  lemma EndDelivers(c: Config, w: World, id: nat, gone: multiset<Rollout>)
    requires ValidConfig(c) && Delivered(w, gone) && RolloutEnd(c, w, id).Some?
    ensures Delivered(RolloutEnd(c, w, id).value, gone)
  {
    hide Delivered, Undelivered, Quiet, InPlace;
    var v := RolloutEnd(c, w, id).value;
    EndQuiet(c, w, id);
    EndInPlace(c, w, id);
    InPlaceKeys(w, v);
    EndSteps(c, w, id);
    QuietUndelivered(c, w, v);
    UndeliveredKeeps(w, v, gone);
  }

  lemma InPlaceKeys(w: World, v: World)
    requires InPlace(w, v)
    ensures v.policies.Keys == w.policies.Keys && v.policyOrder == w.policyOrder
  {
  }

  lemma EndSteps(c: Config, w: World, id: nat)
    requires RolloutEnd(c, w, id).Some?
    ensures Flat(RolloutEnd(c, w, id).value.log.steps) == Flat(w.log.steps)
  {
    hide TryTrigger, Flat, PerStep;
    var e := MarkEnded(w, id);
    if AllEnded(e) {
      var t := Recompute(c, e, Pending(c, e));
      if !(t.total > t.step || t.step == e.total) {
        ExtraSteps(c, Curtailed(t));
      }
    }
  }

  lemma RegistrationLog(c: Config, w: World, id: nat, atom: nat, size: nat, now: int)
    requires RegisterPolicy(c, w, id, atom, size, now).Some?
    ensures var v := RegisterPolicy(c, w, id, atom, size, now).value;
            && v.log == w.log && v.policyOrder == (if id in w.policies then w.policyOrder else w.policyOrder + [id])
            && v.policies.Keys == w.policies.Keys + {id}
  {
    hide AfterPolicyArrives, FirstPolicyArrives, Enrol, ArrivedPolicies, SetStatus, Stamp;
    var g := Enrol(w.policies, id, atom, size).value;
    EnrolFacts(w, id, atom, size);
    if Arrived(g[id]) {
      EnrolledIs(w, id, g, now);
      var s := Enrolled(w, id, g, now);
      EnrolledFacts(w, id, g, now);
      if |ArrivedPolicies(s)| == 1 {
        FirstPolicyCounts(s, id);
        FirstPolicyKeys(s, id);
        ArrivalLog(c, FirstPolicyArrives(s, id), id);
      } else {
        ArrivalLog(c, s, id);
      }
    }
  }

  lemma FirstPolicyKeys(s: World, id: nat)
    ensures FirstPolicyArrives(s, id).policies.Keys == s.policies.Keys
  {
  }

  lemma ArrivalLog(c: Config, w: World, id: nat)
    requires id in w.policies && AfterPolicyArrives(c, w, id).Some?
    ensures var v := AfterPolicyArrives(c, w, id).value;
            v.log == w.log && v.policyOrder == w.policyOrder && v.policies.Keys == w.policies.Keys
  {
    AfterPolicyQuiet(c, w, id);
    hide Quiet, AfterPolicyArrives;
    var m := ArrivalIs(c, w, id);
    RebuildLog(c, w);
    RebuildLog(c, w.(policyReady := true));
  }

  /** But for the replicas, an arrival leaves the state as it is or rebuilds the mesh. */
  lemma ArrivalIs(c: Config, w: World, id: nat) returns (m: World)
    requires id in w.policies && AfterPolicyArrives(c, w, id).Some?
    ensures AfterPolicyArrives(c, w, id).value == m.(policies := AfterPolicyArrives(c, w, id).value.policies)
    ensures m == w || m == RebuildPolicyMesh(c, w) || m == RebuildPolicyMesh(c, w.(policyReady := true))
  {
    hide RebuildPolicyMesh, ArrivedPolicies, SortByStart, SetStatus, Load, Tell;
    var ids := SortByStart(w.policies, ArrivedPolicies(w));
    if !w.policyReady && |ids| >= w.policyInit {
      m := RebuildPolicyMesh(c, w.(policyReady := true));
    } else if w.policyReady {
      m := RebuildPolicyMesh(c, w);
    } else {
      m := w;
    }
  }

  lemma RebuildLog(c: Config, w: World)
    ensures var v := RebuildPolicyMesh(c, w);
            v.log == w.log && v.policyOrder == w.policyOrder && v.policies.Keys == w.policies.Keys
  {
    hide RebuildPolicyMesh;
    RebuildFields(c, w);
  }

  /** A new replica has received nothing. */
  lemma RegistrationDelivers(c: Config, w: World, id: nat, atom: nat, size: nat, now: int, gone: multiset<Rollout>)
    requires Ledger(c, w) && Delivered(w, gone) && atom < size && RegisterPolicy(c, w, id, atom, size, now).Some?
    ensures Delivered(RegisterPolicy(c, w, id, atom, size, now).value, gone)
  {
    hide BooksOk, StagesOk, Entry, Proper, RegisterPolicy, Flat, RealOf;
    var v := RegisterPolicy(c, w, id, atom, size, now).value;
    RegisterPolicyQuiet(c, w, id, atom, size, now);
    RegistrationLog(c, w, id, atom, size, now);
    forall i | i in w.policyOrder
      ensures ReceivedOf(v.policies, i) == ReceivedOf(w.policies, i)
    {
      assert RealOf(c, v.policies, i) == RealOf(c, w.policies, i);
    }
    HeldSame(w.policies, v.policies, w.policyOrder);
    if id !in w.policies {
      assert RealOf(c, v.policies, id) == RealOf(c, w.policies, id);
      assert v.policyOrder[..|w.policyOrder|] == w.policyOrder;
    }
  }

  lemma {:induction false} HeldWithout(g: Group, order: seq<nat>, id: nat)
    requires Distinct(order)
    ensures HeldBy(g - {id}, Without(order, id)) + (if id in order then multiset(ReceivedOf(g, id)) else multiset{}) == HeldBy(g, order)
  {
    if order != [] {
      var front, last := order[..|order| - 1], order[|order| - 1];
      HeldWithout(g, front, id);
      assert last !in front;
      if last != id {
        assert (Without(front, id) + [last])[..|Without(front, id)|] == Without(front, id);
      } else {
        assert id !in front;
      }
    }
  }

  /** What a departing replica had received leaves with it. */
  function Leaving(w: World, e: Event): multiset<Rollout> {
    if e.PolicyGone? then multiset(ReceivedOf(w.policies, e.id)) else multiset{}
  }

  lemma DepartureDelivers(c: Config, w: World, id: nat, gone: multiset<Rollout>)
    requires (forall i :: i in w.policies <==> i in w.policyOrder) && Distinct(w.policyOrder) && Delivered(w, gone)
    requires UnregisterPolicy(c, w, id).Some?
    ensures Delivered(UnregisterPolicy(c, w, id).value, gone + Leaving(w, PolicyGone(id)))
  {
    hide Distinct, RebuildPolicyMesh, ArrivedPolicies, Flat, Quiet, Undelivered, HeldBy;
    var u := w.(policies := w.policies - {id}, policyOrder := Without(w.policyOrder, id));
    HeldWithout(w.policies, w.policyOrder, id);
    assert Delivered(u, gone + Leaving(w, PolicyGone(id)));
    RebuildQuiet(c, u);
    RebuildFields(c, u);
    QuietUndelivered(c, u, RebuildPolicyMesh(c, u));
    UndeliveredKeeps(u, RebuildPolicyMesh(c, u), gone + Leaving(w, PolicyGone(id)));
  }

  lemma RolloutEventDelivers(c: Config, w: World, e: Event, gone: multiset<Rollout>)
    requires ValidConfig(c) && (e.RolloutAtom? || e.RolloutGone?) && Delivered(w, gone) && After(c, w, e).Some?
    ensures Delivered(After(c, w, e).value, gone)
  {
    hide Untrained, After, Delivered;
    var v := After(c, w, e).value;
    RolloutEventsUntrained(c, w, e);
    UntrainedUndelivered(w, v);
    UndeliveredKeeps(w, v, gone);
  }

  lemma UntrainedUndelivered(w: World, v: World)
    requires Untrained(w, v)
    ensures Undelivered(w, v)
  {
    forall id | id in w.policyOrder
      ensures ReceivedOf(v.policies, id) == ReceivedOf(w.policies, id)
    {
      if id in w.policies { assert ToldMore(w.policies[id], v.policies[id]); }
    }
  }

  // ---------- every run ----------

  lemma EventDelivers(c: Config, w: World, e: Event, gone: multiset<Rollout>)
    requires ValidConfig(c) && Ledger(c, w) && Seated(c, w) && Delivered(w, gone) && Regular(w, e) && After(c, w, e).Some?
    ensures Delivered(After(c, w, e).value, gone + Leaving(w, e))
  {
    hide Delivered, BooksOk, StagesOk, Entry, Proper, Distinct, RanksOfArrived, NobodyPlaced, QueuesFit, RegisterPolicy, UnregisterPolicy,
      RegisterRollout, UnregisterRollout, PutGroup, TrainAck, RolloutEnd, Unreported, ReceivedOf;
    assert gone + multiset{} == gone;
    match e
    case PolicyAtom(id, atom, size, now) => RegistrationDelivers(c, w, id, atom, size, now, gone);
    case PolicyGone(id) => DepartureDelivers(c, w, id, gone);
    case RolloutAtom(id, atom, size, now) => RolloutEventDelivers(c, w, e, gone);
    case RolloutGone(id) => RolloutEventDelivers(c, w, e, gone);
    case PromptsOut(samples) =>
      SamePoliciesUndelivered(w, After(c, w, e).value);
      UndeliveredKeeps(w, After(c, w, e).value, gone);
    case GroupIn(xs) => GroupDelivers(c, w, xs, gone);
    case AckIn(id, step, lastStep) => AckDelivers(c, w, id, step, lastStep, gone);
    case EndIn(id) => EndDelivers(c, w, id, gone);
  }

  /** What the policy replicas that left during a run had received. */
  ghost function Gone(c: Config, w: World, events: seq<Event>): multiset<Rollout>
    requires ValidConfig(c) && CanRun(c, w, events)
    decreases |events|
  {
    if events == [] then multiset{} else Leaving(w, events[0]) + Gone(c, After(c, w, events[0]).value, events[1..])
  }

  lemma {:induction false} RunDelivers(c: Config, w: World, events: seq<Event>, gone: multiset<Rollout>)
    requires ValidConfig(c) && Ledger(c, w) && Seated(c, w) && Delivered(w, gone) && RegularRun(c, w, events) && CanRun(c, w, events)
    ensures Delivered(Run(c, w, events), gone + Gone(c, w, events))
    decreases |events|
  {
    hide Ledger, Seated, Delivered, After, Regular, Leaving;
    if events == [] {
      assert gone + multiset{} == gone;
    } else {
      EventLedger(c, w, events[0]);
      EventSeated(c, w, events[0]);
      EventDelivers(c, w, events[0], gone);
      var v := After(c, w, events[0]).value;
      RunDelivers(c, v, events[1..], gone + Leaving(w, events[0]));
      assert gone + Leaving(w, events[0]) + Gone(c, v, events[1..]) == gone + (Leaving(w, events[0]) + Gone(c, v, events[1..]));
    }
  }

  /** Over every run from the start: the rollouts of all steps, each as often as it was dispatched, are exactly
      what the policy replicas received, those present and those that left. */
  lemma RolloutsDelivered(c: Config, policyInit: nat, rolloutInit: nat, step: int, remain: int, events: seq<Event>)
    requires ValidConfig(c) && 0 <= step && RegularRun(c, Opening(policyInit, rolloutInit, step, remain), events)
    ensures CanRun(c, Opening(policyInit, rolloutInit, step, remain), events)
    ensures var o := Opening(policyInit, rolloutInit, step, remain);
            var w := Run(c, o, events);
            HeldBy(w.policies, w.policyOrder) + Gone(c, o, events) == multiset(Flat(w.log.steps))
  {
    var o := Opening(policyInit, rolloutInit, step, remain);
    OpeningLedger(c, policyInit, rolloutInit, step, remain);
    OpeningMesh(c, policyInit, rolloutInit, step, remain);
    RegularCanRun(c, o, events);
    assert Delivered(o, multiset{});
    hide Ledger, Opening, HeldBy, Flat, Gone;
    MeshIsSeated(c, o);
    RunDelivers(c, o, events, multiset{});
    assert multiset{} + Gone(c, o, events) == Gone(c, o, events);
  }
}
