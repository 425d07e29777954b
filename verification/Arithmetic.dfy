/** Integer facts shared by the other modules: Python's floor division, exact division and
    greatest common divisors. */
module Arithmetic {

  /** Python's `a // b`: rounds towards minus infinity for either sign of the divisor. */
  function FloorDiv(a: int, b: int): int
    requires b != 0
  {
    if b > 0 then a / b else (-a) / (-b)
  }

  function Max(a: int, b: int): int {
    if a >= b then a else b
  }

  function Min(a: int, b: int): int {
    if a <= b then a else b
  }

  predicate Divides(d: int, n: int)
    requires d != 0
  {
    n % d == 0
  }

  lemma MulLe(a: int, b: int, c: int)
    requires a <= b && 0 <= c
    ensures a * c <= b * c
  {}

  lemma MulLt(a: int, b: int, c: int)
    requires a < b && 0 < c
    ensures a * c < b * c
  {}

  lemma AddOne(n: int, size: int)
    ensures (n + 1) * size == n * size + size
  {}

  /** The quotient of a bracketed value. */
  lemma DivIs(n: int, d: int, q: int)
    requires 0 < d && q * d <= n < q * d + d
    ensures n / d == q && n % d == n - q * d
  {
    if n / d < q {
      MulLe(n / d + 1, q, d);
    } else if n / d > q {
      MulLe(q + 1, n / d, d);
    }
  }

  lemma MulDiv(q: int, d: int)
    requires 0 < d
    ensures (q * d) / d == q && (q * d) % d == 0
  {
    DivIs(q * d, d, q);
  }

  lemma ExactDiv(n: int, d: int)
    requires 0 < d && Divides(d, n)
    ensures n == n / d * d
  {}

  lemma DivMod(n: int, d: int)
    requires 0 < d
    ensures n == n / d * d + n % d && 0 <= n % d < d
  {}

  lemma DivBelow(n: int, d: int, k: int)
    requires 0 < d && 0 <= n < k * d
    ensures 0 <= n / d < k
  {
    DivMod(n, d);
    if n / d >= k { MulLe(k, n / d, d); }
    if n / d < 0 { MulLe(n / d, -1, d); }
  }

  function CeilDiv(a: int, b: int): int
    requires b != 0
  {
    -FloorDiv(a, -b)
  }

  lemma CeilDivIsCeiling(a: int, b: int)
    requires 0 < b
    ensures a <= CeilDiv(a, b) * b < a + b
  {
    DivMod(-a, b);
    assert (-((-a) / b)) * b == -((-a) / b * b);
  }

  /** Dividing by a product is dividing by one factor and then by the other. */
  lemma DivByProduct(n: int, d: int, k: int)
    requires 0 < d && 0 < k && 0 < d * k && Divides(d * k, n)
    ensures Divides(d, n) && n / d == n / (d * k) * k
  {
    var u := n / (d * k);
    ExactDiv(n, d * k);
    assert n == (u * k) * d;
    MulDiv(u * k, d);
  }

  lemma ProductDivides(n: int, d: int, k: int)
    requires 0 < d && 0 < k && 0 < d * k && Divides(d, n) && Divides(k, n / d)
    ensures Divides(d * k, n)
  {
    ExactDiv(n, d);
    ExactDiv(n / d, k);
    assert n == (n / d / k) * (d * k);
    MulDiv(n / d / k, d * k);
  }

  lemma DivMono(a: int, b: int, d: int)
    requires a <= b && 0 < d
    ensures a / d <= b / d
  {
    if a / d > b / d {
      MulLe(b / d + 1, a / d, d);
    }
  }

  /** Shifting by whole multiples shifts the quotient. */
  lemma DivShift(a: int, q: int, d: int)
    requires 0 < d
    ensures (a + q * d) / d == a / d + q
  {
    DivIs(a + q * d, d, a / d + q);
  }

  // ---------- greatest common divisor ----------

  function Gcd(a: nat, b: nat): (g: nat)
    ensures a + b > 0 ==> g > 0
    decreases b
  {
    if b == 0 then a else Gcd(b, a % b)
  }

  lemma {:induction false} GcdDivides(a: nat, b: nat)
    requires a + b > 0
    ensures Divides(Gcd(a, b), a) && Divides(Gcd(a, b), b)
    decreases b
  {
    if b != 0 {
      GcdDivides(b, a % b);
      var g := Gcd(b, a % b);
      ExactDiv(b, g);
      ExactDiv(a % b, g);
      var q := a / b * (b / g) + (a % b) / g;
      assert a == a / b * b + a % b;
      assert a == q * g by {
        assert a / b * (b / g) * g == a / b * (b / g * g);
      }
      MulDiv(q, g);
    }
  }

  /** Every common divisor divides the greatest one. */
  lemma {:induction false} GcdGreatest(a: nat, b: nat, d: int)
    requires a + b > 0 && 0 < d && Divides(d, a) && Divides(d, b)
    ensures Divides(d, Gcd(a, b))
    decreases b
  {
    if b != 0 {
      ExactDiv(a, d);
      ExactDiv(b, d);
      var q := a / d - a / b * (b / d);
      assert a % b == a - a / b * b;
      assert a % b == q * d by {
        assert a / b * (b / d) * d == a / b * (b / d * d);
      }
      MulDiv(q, d);
      GcdGreatest(b, a % b, d);
    }
  }
}
