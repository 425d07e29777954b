/** Which policy rank serves which rollout rank among ranks that hold the same shard. */
module ShardAssignment {
  import opened Arithmetic
  import opened Common

  /** Python's `s[lo:hi]` for 0 <= lo: both ends are clamped to the length. */
  function PySlice<T>(s: seq<T>, lo: nat, hi: nat): seq<T> {
    if lo < Min(hi, |s|) then s[lo..Min(hi, |s|)] else []
  }

  function GroupSize(policies: seq<nat>, rollouts: seq<nat>): nat
    requires 0 < |policies| < |rollouts|
  {
    (|rollouts| - 1) / |policies| + 1
  }

  /** Whether r lies in the i-th chunk of g rollouts. */
  predicate InChunk(rollouts: seq<nat>, g: nat, i: nat, r: nat) {
    r in PySlice(rollouts, i * g, i * g + g)
  }

  /** Whether the i-th policy is p and is paired with the rollout r. */
  predicate Pairs(policies: seq<nat>, rollouts: seq<nat>, i: nat, p: nat, r: nat)
    requires i < |policies|
  {
    && policies[i] == p
    && if |policies| >= |rollouts| then i < |rollouts| && rollouts[i] == r
       else InChunk(rollouts, GroupSize(policies, rollouts), i, r)
  }

  /** The pairs the assignment code accepts. */
  predicate Serves(policies: seq<nat>, rollouts: seq<nat>, p: nat, r: nat) {
    ServesBefore(policies, rollouts, |policies|, p, r)
  }

  predicate ServesBefore(policies: seq<nat>, rollouts: seq<nat>, k: nat, p: nat, r: nat)
    requires k <= |policies|
  {
    exists i: nat :: i < k && Pairs(policies, rollouts, i, p, r)
  }

  lemma ServesStep(policies: seq<nat>, rollouts: seq<nat>, k: nat, p: nat, r: nat)
    requires k < |policies|
    ensures ServesBefore(policies, rollouts, k + 1, p, r) <==>
            ServesBefore(policies, rollouts, k, p, r) || Pairs(policies, rollouts, k, p, r)
  {
  }

  method PolicyToRolloutAssign(policies: seq<nat>, rollouts: seq<nat>, pRank: nat, rRank: nat)
    returns (pAssignment: seq<nat>, rAssignment: seq<nat>)
    requires policies != []
    ensures pAssignment == if Serves(policies, rollouts, pRank, rRank) then [rRank] else []
    ensures rAssignment == if Serves(policies, rollouts, pRank, rRank) then [pRank] else []
  {
    pAssignment, rAssignment := [], [];
    if |policies| >= |rollouts| {
      for i := 0 to |policies|
        invariant pAssignment == if ServesBefore(policies, rollouts, i, pRank, rRank) then [rRank] else []
        invariant rAssignment == if ServesBefore(policies, rollouts, i, pRank, rRank) then [pRank] else []
      {
        if i >= |rollouts| {
          break;
        }
        ServesStep(policies, rollouts, i, pRank, rRank);
        if policies[i] == pRank && rollouts[i] == rRank {
          pAssignment, rAssignment := [rRank], [pRank];
        }
      }
    } else {
      var g := GroupSize(policies, rollouts);
      for i := 0 to |policies|
        invariant pAssignment == if ServesBefore(policies, rollouts, i, pRank, rRank) then [rRank] else []
        invariant rAssignment == if ServesBefore(policies, rollouts, i, pRank, rRank) then [pRank] else []
      {
        ServesStep(policies, rollouts, i, pRank, rRank);
        if policies[i] == pRank {
          if InChunk(rollouts, g, i, rRank) {
            pAssignment, rAssignment := [rRank], [pRank];
          }
        }
      }
    }
  }

  /** The one policy that serves the rollout at position j. */
  function ServerOf(policies: seq<nat>, rollouts: seq<nat>, j: nat): nat
    requires policies != [] && j < |rollouts|
  {
    if |policies| >= |rollouts| then policies[j]
    else
      GroupIndexInRange(policies, rollouts, j);
      policies[j / GroupSize(policies, rollouts)]
  }

  lemma GroupIndexInRange(policies: seq<nat>, rollouts: seq<nat>, j: nat)
    requires 0 < |policies| < |rollouts| && j < |rollouts|
    ensures 0 <= j / GroupSize(policies, rollouts) < |policies|
  {
    ChunksCover(|rollouts|, |policies|, j);
  }

  /** n chunks of ceil(m / n) entries reach every index below m. */
  lemma ChunksCover(m: int, n: int, j: int)
    requires 0 < n < m && 0 <= j < m
    ensures var g := (m - 1) / n + 1; 0 < g && 0 <= j / g < n
  {
    var q := (m - 1) / n;
    DivMod(m - 1, n);
    if q < 0 { MulLe(q, -1, n); }
    assert n * (q + 1) == q * n + n;
    DivBelow(j, q + 1, n);
  }

  /** The chunks of a list without repetitions are numbered by integer division. */
  lemma ChunkIndex(rollouts: seq<nat>, g: nat, i: nat, j: nat)
    requires 0 < g && Distinct(rollouts) && j < |rollouts|
    ensures InChunk(rollouts, g, i, rollouts[j]) <==> i == j / g
  {
    InSlice(rollouts, i * g, i * g + g, j);
    if i * g <= j < i * g + g {
      DivIs(j, g, i);
    } else {
      DivMod(j, g);
    }
  }

  lemma InSlice(s: seq<nat>, lo: nat, hi: nat, j: nat)
    requires Distinct(s) && j < |s|
    ensures s[j] in PySlice(s, lo, hi) <==> lo <= j < hi
  {
    var t := PySlice(s, lo, hi);
    if lo <= j < hi {
      assert t[j - lo] == s[j];
    }
    if s[j] in t {
      var k :| 0 <= k < |t| && t[k] == s[j];
      assert s[lo + k] == s[j];
    }
  }

  /** A rollout is served by its server and by nobody else. */
  lemma ServesExactlyOne(policies: seq<nat>, rollouts: seq<nat>, j: nat, p: nat)
    requires policies != [] && Distinct(policies) && Distinct(rollouts) && j < |rollouts|
    ensures Serves(policies, rollouts, p, rollouts[j]) <==> p == ServerOf(policies, rollouts, j)
  {
    if |policies| >= |rollouts| {
      assert Pairs(policies, rollouts, j, policies[j], rollouts[j]);
    } else {
      var g := GroupSize(policies, rollouts);
      GroupIndexInRange(policies, rollouts, j);
      forall i: nat | i < |policies|
        ensures Pairs(policies, rollouts, i, policies[i], rollouts[j]) <==> i == j / g
      {
        ChunkIndex(rollouts, g, i, j);
      }
    }
  }

  function Elements(s: seq<nat>): set<nat> {
    set x | x in s
  }

  lemma {:induction false} ElementsAtMostLength(s: seq<nat>)
    ensures |Elements(s)| <= |s|
  {
    if s != [] {
      ElementsAtMostLength(s[1..]);
      assert Elements(s) == {s[0]} + Elements(s[1..]);
    }
  }

  function Served(policies: seq<nat>, rollouts: seq<nat>, p: nat): set<nat> {
    set r | r in rollouts && Serves(policies, rollouts, p, r)
  }

  /** No policy serves more than its fair share, rounded up. */
  lemma FairShare(policies: seq<nat>, rollouts: seq<nat>, p: nat)
    requires policies != [] && Distinct(policies) && Distinct(rollouts)
    ensures |Served(policies, rollouts, p)| <= -FloorDiv(|rollouts|, -|policies|)
  {
    var n, m := |policies|, |rollouts|;
    if m == 0 {
      assert Served(policies, rollouts, p) == {};
      DivIs(0, n, 0);
    } else if n >= m {
      DivMono(-m, -1, n);
      DivIs(-1, n, -1);
      if i: nat :| i < m && policies[i] == p {
        SubsetSize(Served(policies, rollouts, p), {rollouts[i]});
      } else {
        assert Served(policies, rollouts, p) == {};
      }
    } else {
      CeilingAsGroupSize(m, n);
      ShareOfChunk(policies, rollouts, p);
    }
  }

  lemma ShareOfChunk(policies: seq<nat>, rollouts: seq<nat>, p: nat)
    requires 0 < |policies| < |rollouts| && Distinct(policies)
    ensures |Served(policies, rollouts, p)| <= GroupSize(policies, rollouts)
  {
    var g := GroupSize(policies, rollouts);
    hide GroupSize;
    if i: nat :| i < |policies| && policies[i] == p {
      var s := PySlice(rollouts, i * g, i * g + g);
      ServedInChunk(policies, rollouts, i);
      hide Served, Elements;
      SubsetSize(Served(policies, rollouts, p), Elements(s));
      ElementsAtMostLength(s);
    } else {
      assert Served(policies, rollouts, p) == {};
    }
  }

  lemma ServedInChunk(policies: seq<nat>, rollouts: seq<nat>, i: nat)
    requires 0 < |policies| < |rollouts| && Distinct(policies) && i < |policies|
    ensures var g := GroupSize(policies, rollouts);
            Served(policies, rollouts, policies[i]) <= Elements(PySlice(rollouts, i * g, i * g + g))
  {
    var g := GroupSize(policies, rollouts);
    hide GroupSize;
    assert forall r :: r in Served(policies, rollouts, policies[i]) ==> InChunk(rollouts, g, i, r);
  }

  lemma CeilingAsGroupSize(m: int, n: int)
    requires 0 < n < m
    ensures (m - 1) / n + 1 == -((-m) / n)
  {
    var q := (m - 1) / n;
    assert q * n + (m - 1) % n == m - 1;
    assert (-(q + 1)) * n == -(q * n) - n;
    DivIs(-m, n, -(q + 1));
  }
}
