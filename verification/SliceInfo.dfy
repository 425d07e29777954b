/** Slices of one tensor dimension, written as exact fractions `offset/total` with a length, and
    the algebra the weight-synchronisation planner uses on them. */
module SliceInfo {
  import opened Arithmetic
  import opened Common

  datatype DimSlice = DimSlice(offset: int, total: int, dim: string, length: int)

  /** A slice that lies inside its dimension. */
  predicate WellFormed(s: DimSlice) {
    0 < s.total && 0 <= s.offset && 0 <= s.length && s.offset + s.length <= s.total
  }

  const Whole: DimSlice := DimSlice(0, 1, "", 1)

  /** First index and number of indices the slice takes from a dimension of n entries. */
  function Start(s: DimSlice, n: int): int
    requires s.total != 0
  {
    n / s.total * s.offset
  }

  function Count(s: DimSlice, n: int): int
    requires s.total != 0
  {
    n / s.total * s.length
  }

  /** The slicing of a dimension of n entries is defined: the assertion of the slicing code. */
  predicate Fits(s: DimSlice, n: int) {
    WellFormed(s) && 0 <= n && Divides(s.total, n)
  }

  predicate Selects(s: DimSlice, n: int, i: int)
    requires s.total != 0
  {
    Start(s, n) <= i < Start(s, n) + Count(s, n)
  }

  lemma SliceInBounds(s: DimSlice, n: int)
    requires Fits(s, n)
    ensures 0 <= Start(s, n) && 0 <= Count(s, n) && Start(s, n) + Count(s, n) <= n
  {
    var u := n / s.total;
    ExactDiv(n, s.total);
    MulLe(0, s.offset, u);
    MulLe(0, s.length, u);
    MulLe(s.offset + s.length, s.total, u);
    assert u * s.offset + u * s.length == (s.offset + s.length) * u;
  }

  // ---------- lowest terms ----------

  function CommonFactor(s: DimSlice): (g: nat)
    requires WellFormed(s)
    ensures g > 0
  {
    Gcd(Gcd(s.offset, s.total), s.length)
  }

  function Simplify(s: DimSlice): DimSlice
    requires WellFormed(s)
  {
    var g := CommonFactor(s);
    DimSlice(s.offset / g, s.total / g, s.dim, s.length / g)
  }

  lemma CommonFactorDivides(s: DimSlice)
    requires WellFormed(s)
    ensures var g := CommonFactor(s);
            Divides(g, s.offset) && Divides(g, s.total) && Divides(g, s.length)
  {
    var h := Gcd(s.offset, s.total);
    var g := CommonFactor(s);
    GcdDivides(s.offset, s.total);
    GcdDivides(h, s.length);
    DividesTransitive(g, h, s.offset);
    DividesTransitive(g, h, s.total);
  }

  lemma DividesTransitive(a: int, b: int, c: int)
    requires 0 < a && 0 < b && Divides(a, b) && Divides(b, c)
    ensures Divides(a, c)
  {
    ExactDiv(b, a);
    ExactDiv(c, b);
    assert c == (c / b * (b / a)) * a;
    MulDiv(c / b * (b / a), a);
  }

  /** Scaling all three numbers of a slice by the same factor keeps the selected indices. */
  lemma ScaleKeepsIndices(s: DimSlice, t: DimSlice, k: int, n: int)
    requires 0 < k && WellFormed(s) && 0 <= n
    requires t.offset == s.offset * k && t.total == s.total * k && t.length == s.length * k
    ensures WellFormed(t)
    ensures Fits(t, n) ==> Fits(s, n) && Start(t, n) == Start(s, n) && Count(t, n) == Count(s, n)
  {
    MulLt(0, s.total, k);
    MulLe(0, s.offset, k);
    MulLe(0, s.length, k);
    MulLe(s.offset + s.length, s.total, k);
    assert (s.offset + s.length) * k == t.offset + t.length;
    if Fits(t, n) {
      DivByProduct(n, s.total, k);
      var v := n / t.total;
      assert v * k * s.offset == v * (s.offset * k);
      assert v * k * s.length == v * (s.length * k);
    }
  }

  lemma SimplifyScales(s: DimSlice)
    requires WellFormed(s)
    ensures var g, t := CommonFactor(s), Simplify(s);
            WellFormed(t) && s.offset == t.offset * g && s.total == t.total * g && s.length == t.length * g
  {
    CommonFactorDivides(s);
    var g, t := CommonFactor(s), Simplify(s);
    ExactDiv(s.offset, g);
    ExactDiv(s.total, g);
    ExactDiv(s.length, g);
    ScaledInside(t.offset, t.length, t.total, g);
  }

  /** Dividing all three numbers by a positive factor keeps the slice inside its dimension. */
  lemma ScaledInside(offset: int, length: int, total: int, g: int)
    requires 0 < g && 0 < total * g && 0 <= offset * g && 0 <= length * g && offset * g + length * g <= total * g
    ensures 0 < total && 0 <= offset && 0 <= length && offset + length <= total
  {
    assert (offset + length) * g == offset * g + length * g;
    if total <= 0 { MulLe(total, 0, g); }
    if offset < 0 { MulLt(offset, 0, g); }
    if length < 0 { MulLt(length, 0, g); }
    if total < offset + length { MulLt(total, offset + length, g); }
  }

  /** Simplification never changes which indices are selected, at any size the slice divides. */
  lemma SimplifyKeepsIndices(s: DimSlice, n: int)
    requires Fits(s, n)
    ensures Fits(Simplify(s), n)
    ensures Start(Simplify(s), n) == Start(s, n) && Count(Simplify(s), n) == Count(s, n)
  {
    SimplifyScales(s);
    ScaleKeepsIndices(Simplify(s), s, CommonFactor(s), n);
  }

  /** The simplified numbers have no common divisor left but one. */
  lemma SimplifyLowestTerms(s: DimSlice, d: int)
    requires WellFormed(s) && 0 < d
    requires var t := Simplify(s); Divides(d, t.offset) && Divides(d, t.total) && Divides(d, t.length)
    ensures d == 1
  {
    SimplifyScales(s);
    var g, t := CommonFactor(s), Simplify(s);
    FactorTimes(t.offset, d, g);
    FactorTimes(t.total, d, g);
    FactorTimes(t.length, d, g);
    MulLt(0, g, d);
    GcdGreatest(s.offset, s.total, d * g);
    GcdGreatest(Gcd(s.offset, s.total), s.length, d * g);
    ExactDiv(g, d * g);
    var q := g / (d * g);
    if d > 1 {
      MulLt(1, d, g);
      if q >= 1 { MulLe(1, q, d * g); } else { MulLe(q, 0, d * g); }
    }
  }

  lemma FactorTimes(a: int, d: int, g: int)
    requires 0 < d && 0 < g && Divides(d, a)
    ensures 0 < d * g && Divides(d * g, a * g)
  {
    MulLt(0, d, g);
    ExactDiv(a, d);
    assert a * g == (a / d) * (d * g);
    MulDiv(a / d, d * g);
  }

  // ---------- common denominators ----------

  /** Both totals divide the larger one: the assertion of the unification code. */
  predicate Compatible(a: DimSlice, b: DimSlice)
    requires 0 < a.total && 0 < b.total
  {
    Divides(a.total, Max(a.total, b.total)) && Divides(b.total, Max(a.total, b.total))
  }

  function Scaled(s: DimSlice, size: int): DimSlice
    requires 0 < s.total
  {
    var k := size / s.total;
    DimSlice(s.offset * k, s.total * k, s.dim, s.length * k)
  }

  function Unify(a: DimSlice, b: DimSlice): (DimSlice, DimSlice)
    requires 0 < a.total && 0 < b.total && Compatible(a, b)
  {
    var size := Max(a.total, b.total);
    (Scaled(a, size), Scaled(b, size))
  }

  lemma ScaledFacts(s: DimSlice, size: int, n: int)
    requires WellFormed(s) && 0 < size && Divides(s.total, size)
    ensures WellFormed(Scaled(s, size)) && Scaled(s, size).total == size
    ensures s.length > 0 ==> Scaled(s, size).length > 0
    ensures Fits(s, n) && Divides(size, n) ==>
      Start(Scaled(s, size), n) == Start(s, n) && Count(Scaled(s, size), n) == Count(s, n)
  {
    var k := size / s.total;
    ExactDiv(size, s.total);
    if k <= 0 { MulLe(k, 0, s.total); }
    if 0 <= n { ScaleKeepsIndices(s, Scaled(s, size), k, n); } else { ScaleKeepsIndices(s, Scaled(s, size), k, 0); }
    if s.length > 0 { MulLt(0, s.length, k); }
  }

  /** Unification brings both slices to one denominator and selects the same indices as before. */
  lemma UnifyKeepsIndices(a: DimSlice, b: DimSlice, n: int)
    requires Fits(a, n) && Fits(b, n) && Compatible(a, b)
    ensures var (ua, ub) := Unify(a, b);
            && ua.total == ub.total && Fits(ua, n) && Fits(ub, n)
            && Start(ua, n) == Start(a, n) && Count(ua, n) == Count(a, n)
            && Start(ub, n) == Start(b, n) && Count(ub, n) == Count(b, n)
  {
    var size := Max(a.total, b.total);
    ScaledFacts(a, size, n);
    ScaledFacts(b, size, n);
  }

  // ---------- overlap and relative position ----------

  function RankOverlap(a: DimSlice, b: DimSlice): Option<DimSlice>
    requires 0 < a.total && 0 < b.total && Compatible(a, b)
  {
    var (ua, ub) := Unify(a, b);
    var left := Max(ua.offset, ub.offset);
    var right := Min(ua.offset + ua.length, ub.offset + ub.length);
    if left < right then Some(DimSlice(left, ua.total, ua.dim, right - left)) else None
  }

  /** The smaller slice lies inside the larger one: the assertions of `relative_rank`. */
  predicate Inside(smaller: DimSlice, larger: DimSlice)
    requires 0 < smaller.total && 0 < larger.total && Compatible(smaller, larger)
  {
    var (s, l) := Unify(smaller, larger);
    l.offset <= s.offset && s.offset + s.length <= l.offset + l.length
  }

  function RelativeRank(smaller: DimSlice, larger: DimSlice): DimSlice
    requires 0 < smaller.total && 0 < larger.total && Compatible(smaller, larger)
    requires Inside(smaller, larger)
  {
    var (s, l) := Unify(smaller, larger);
    DimSlice(s.offset - l.offset, l.length, s.dim, s.length)
  }

  function MergeRank(outer: DimSlice, inner: DimSlice): DimSlice
    requires outer.length == 0 || outer.length == 1
  {
    DimSlice(outer.offset * inner.total + inner.offset, outer.total * inner.total, outer.dim,
             inner.length * outer.length)
  }

  /** Taking the outer slice and then the inner slice of the result is taking the merged slice. */
  lemma MergeIsNested(outer: DimSlice, inner: DimSlice, n: int)
    requires outer.length == 1 && Fits(outer, n) && Fits(inner, Count(outer, n))
    ensures Fits(MergeRank(outer, inner), n)
    ensures Start(MergeRank(outer, inner), n) == Start(outer, n) + Start(inner, Count(outer, n))
    ensures Count(MergeRank(outer, inner), n) == Count(inner, Count(outer, n))
  {
    var m := MergeRank(outer, inner);
    var t, k := outer.total, inner.total;
    MulLt(0, t, k);
    ProductDivides(n, t, k);
    DivByProduct(n, t, k);
    var v := n / (t * k);
    MulDiv(v, k);
    assert v * (outer.offset * k + inner.offset) == v * k * outer.offset + v * inner.offset;
    MulLe(0, outer.offset, k);
    MulLe(outer.offset + 1, t, k);
    assert (outer.offset + 1) * k == outer.offset * k + k;
  }

  /** An empty outer slice stays empty whatever is taken inside it. */
  lemma MergeEmptyOuter(outer: DimSlice, inner: DimSlice, n: int, i: int)
    requires outer.length == 0 && Fits(outer, n) && WellFormed(inner)
    ensures Count(inner, Count(outer, n)) == 0
    ensures MergeRank(outer, inner).total != 0 && !Selects(MergeRank(outer, inner), n, i)
  {
    MulLt(0, outer.total, inner.total);
    DivIs(0, inner.total, 0);
  }

  /** The part both slices hold, over their common denominator. */
  function SharedPart(p: DimSlice, r: DimSlice): Option<DimSlice>
    requires WellFormed(p) && WellFormed(r) && Compatible(p, r)
  {
    var (up, ur) := Unify(p, r);
    OverlapFacts(p, r);
    RankOverlap(up, ur)
  }

  /** The part of a policy slice and of a rollout slice that both hold, each in its own frame. */
  function OverlapInfo(p: DimSlice, r: DimSlice): Option<(DimSlice, DimSlice)>
    requires WellFormed(p) && WellFormed(r) && Compatible(p, r)
  {
    var (up, ur) := Unify(p, r);
    OverlapFacts(p, r);
    match SharedPart(p, r)
    case None => None
    case Some(o) => Some((Simplify(RelativeRank(o, up)), Simplify(RelativeRank(o, ur))))
  }

  lemma ScaledSame(s: DimSlice)
    requires 0 < s.total
    ensures Scaled(s, s.total) == s
  {
    DivIs(s.total, s.total, 1);
  }

  /** Every call the overlap computation makes meets its callee's assertions. */
  lemma OverlapFacts(p: DimSlice, r: DimSlice)
    requires WellFormed(p) && WellFormed(r) && Compatible(p, r)
    ensures var (up, ur) := Unify(p, r);
            && WellFormed(up) && WellFormed(ur) && up.total == ur.total
            && Compatible(up, ur)
            && var o := RankOverlap(up, ur);
            o.Some? ==>
              && var ov := o.value;
              && WellFormed(ov) && ov.total == up.total && ov.length > 0
              && up.length > 0 && ur.length > 0
              && up.offset <= ov.offset && ov.offset + ov.length <= up.offset + up.length
              && ur.offset <= ov.offset && ov.offset + ov.length <= ur.offset + ur.length
              && (ov.offset == up.offset || ov.offset == ur.offset)
              && (ov.offset + ov.length == up.offset + up.length || ov.offset + ov.length == ur.offset + ur.length)
              && Compatible(ov, up) && Compatible(ov, ur) && Inside(ov, up) && Inside(ov, ur)
              && RelativeRank(ov, up) == DimSlice(ov.offset - up.offset, up.length, up.dim, ov.length)
              && RelativeRank(ov, ur) == DimSlice(ov.offset - ur.offset, ur.length, up.dim, ov.length)
  {
    var size := Max(p.total, r.total);
    ScaledFacts(p, size, 0);
    ScaledFacts(r, size, 0);
    var (up, ur) := Unify(p, r);
    DivIs(size, size, 1);
    ScaledSame(up);
    ScaledSame(ur);
    var o := RankOverlap(up, ur);
    if o.Some? {
      ScaledSame(o.value);
    }
  }

  /** There is an overlap exactly when some index is selected by both slices. */
  lemma OverlapIffShared(p: DimSlice, r: DimSlice, n: int)
    requires Fits(p, n) && Fits(r, n) && Compatible(p, r) && 0 < n
    ensures OverlapInfo(p, r).Some? <==> exists i :: Selects(p, n, i) && Selects(r, n, i)
  {
    OverlapFacts(p, r);
    UnifyKeepsIndices(p, r, n);
    var (up, ur) := Unify(p, r);
    var u := n / up.total;
    ExactDiv(n, up.total);
    if u <= 0 { MulLe(u, 0, up.total); }
    ScaledSame(up);
    ScaledSame(ur);
    var left := Max(up.offset, ur.offset);
    var right := Min(up.offset + up.length, ur.offset + ur.length);
    if left < right {
      IntersectScaled(u, up.offset, up.length, ur.offset, ur.length, left, right - left, u * left);
      ScaleBetween(u, left, right - left, left);
      assert Selects(p, n, u * left) && Selects(r, n, u * left);
    } else {
      forall i
        ensures !(Selects(p, n, i) && Selects(r, n, i))
      {
        NoIntersection(u, up.offset, up.length, ur.offset, ur.length, i);
      }
    }
  }

  lemma NoIntersection(u: int, a: int, la: int, b: int, lb: int, i: int)
    requires 0 <= u && Min(a + la, b + lb) <= Max(a, b)
    ensures !(u * a <= i < u * a + u * la && u * b <= i < u * b + u * lb)
  {
    assert u * a + u * la == u * (a + la);
    assert u * b + u * lb == u * (b + lb);
    MulLe(Min(a + la, b + lb), Max(a, b), u);
  }

  lemma ScaleBetween(u: int, offset: int, length: int, x: int)
    requires 0 < u && offset <= x < offset + length
    ensures u * offset <= u * x < u * offset + u * length
  {
    MulLe(offset, x, u);
    MulLt(x, offset + length, u);
    assert u * (offset + length) == u * offset + u * length;
  }

  /** The policy's slice of its local shard and the rollout's slice of its local shard start at the
      same global index and have the same length. */
  lemma OverlapSameGlobalStart(p: DimSlice, r: DimSlice, n: int)
    requires Fits(p, n) && Fits(r, n) && Compatible(p, r) && OverlapInfo(p, r).Some?
    ensures var (sp, sr) := OverlapInfo(p, r).value;
            && Fits(sp, Count(p, n)) && Fits(sr, Count(r, n))
            && Start(p, n) + Start(sp, Count(p, n)) == Start(r, n) + Start(sr, Count(r, n))
            && Count(sp, Count(p, n)) == Count(sr, Count(r, n))
    ensures var (sp, sr) := OverlapInfo(p, r).value;
            && SharedPart(p, r).Some? && SharedPart(p, r).value.total > 0
            && Start(r, n) + Start(sr, Count(r, n)) == Start(SharedPart(p, r).value, n)
            && Count(sr, Count(r, n)) == Count(SharedPart(p, r).value, n)
  {
    OverlapFacts(p, r);
    UnifyKeepsIndices(p, r, n);
    var (up, ur) := Unify(p, r);
    var ov := SharedPart(p, r).value;
    RelativeStart(up, ov, up.dim, n);
    RelativeStart(ur, ov, up.dim, n);
  }

  /** The transferred indices are exactly those that both shards select. */
  lemma OverlapSelectsShared(p: DimSlice, r: DimSlice, n: int, i: int)
    requires Fits(p, n) && Fits(r, n) && Compatible(p, r) && OverlapInfo(p, r).Some?
    ensures var sr := OverlapInfo(p, r).value.1;
            Selects(p, n, i) && Selects(r, n, i) <==>
            sr.total != 0 && Selects(sr, Count(r, n), i - Start(r, n))
  {
    OverlapFacts(p, r);
    OverlapSameGlobalStart(p, r, n);
    UnifyKeepsIndices(p, r, n);
    var (up, ur) := Unify(p, r);
    var ov := SharedPart(p, r).value;
    var u := n / up.total;
    IntersectScaled(u, up.offset, up.length, ur.offset, ur.length, ov.offset, ov.length, i);
  }

  /** The intersection of two scaled intervals is the scaled intersection. */
  lemma IntersectScaled(u: int, a: int, la: int, b: int, lb: int, c: int, lc: int, i: int)
    requires 0 <= u && c == Max(a, b) && c + lc == Min(a + la, b + lb)
    ensures u * a <= i < u * a + u * la && u * b <= i < u * b + u * lb <==> u * c <= i < u * c + u * lc
  {
    assert u * a + u * la == u * (a + la);
    assert u * b + u * lb == u * (b + lb);
    assert u * c + u * lc == u * (c + lc);
    MulLe(a, c, u);
    MulLe(b, c, u);
    MulLe(c + lc, a + la, u);
    MulLe(c + lc, b + lb, u);
  }

  /** Slicing a shard by its relative part reaches the part itself. */
  lemma RelativeStart(shard: DimSlice, part: DimSlice, dim: string, n: int)
    requires WellFormed(shard) && WellFormed(part) && 0 < shard.length && part.total == shard.total
    requires Fits(shard, n)
    requires shard.offset <= part.offset && part.offset + part.length <= shard.offset + shard.length
    ensures var rel := DimSlice(part.offset - shard.offset, shard.length, dim, part.length);
            && WellFormed(rel) && Fits(Simplify(rel), Count(shard, n))
            && Start(shard, n) + Start(Simplify(rel), Count(shard, n)) == n / shard.total * part.offset
            && Count(Simplify(rel), Count(shard, n)) == n / shard.total * part.length
  {
    var rel := DimSlice(part.offset - shard.offset, shard.length, dim, part.length);
    var u := n / shard.total;
    SliceInBounds(shard, n);
    MulDiv(u, shard.length);
    assert u * (part.offset - shard.offset) == u * part.offset - u * shard.offset;
    SimplifyKeepsIndices(rel, Count(shard, n));
  }
}
