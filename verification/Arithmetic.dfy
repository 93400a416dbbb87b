/** Powers of two and the exact integer logarithms the engine takes of its queue count. */
module Powers {

  function Pow2(k: nat): (p: nat)
    ensures p >= 1
  {
    if k == 0 then 1 else 2 * Pow2(k - 1)
  }

  function FloorLog2(n: nat): (k: nat)
    requires n >= 1
    ensures Pow2(k) <= n < Pow2(k + 1)
  {
    if n == 1 then 0 else 1 + FloorLog2(n / 2)
  }

  function CeilLog2(n: nat): (k: nat)
    requires n >= 1
    ensures n <= Pow2(k) && (k > 0 ==> Pow2(k - 1) < n)
  {
    if n == 1 then 0 else 1 + CeilLog2((n + 1) / 2)
  }

  lemma {:induction false} Pow2Monotone(a: nat, b: nat)
    requires a < b
    ensures 2 * Pow2(a) <= Pow2(b)
    decreases b
  {
    if a < b - 1 {
      Pow2Monotone(a, b - 1);
    }
  }

  /** The two logarithms agree on powers of two and are one apart elsewhere. */
  lemma LogsMeet(n: nat)
    requires n >= 1
    ensures CeilLog2(n) == FloorLog2(n) + (if n == Pow2(FloorLog2(n)) then 0 else 1)
  {
    var f, c := FloorLog2(n), CeilLog2(n);
    assert Pow2(f + 1) == 2 * Pow2(f) && (c > 0 ==> Pow2(c) == 2 * Pow2(c - 1));
    hide Pow2, FloorLog2, CeilLog2;
    if f + 1 < c {
      Pow2Monotone(f, c - 1);
    }
    if c < f {
      Pow2Monotone(c, f);
    }
  }
}

/** Division with remainder by a variable divisor. */
module DivMod {
  lemma MulMonotone(p: nat, q: nat, d: nat)
    requires p < q
    ensures p * d + d <= q * d
  {
    var k := q - p - 1;
    assert q * d == (p + 1 + k) * d == p * d + d + k * d;
  }

  lemma SameQuotient(d: nat, p: nat, s: nat, q: nat, r: nat)
    requires p * d + s == q * d + r && s < d && r < d
    ensures p == q && s == r
  {
    if p < q {
      MulMonotone(p, q, d);
    } else if q < p {
      MulMonotone(q, p, d);
    }
  }

  /** Quotient and remainder are determined by the division equation. */
  lemma DivModUnique(a: nat, d: nat, q: nat, r: nat)
    requires a == q * d + r && r < d
    ensures a / d == q && a % d == r
  {
    SameQuotient(d, a / d, a % d, q, r);
  }

  function Quotient(a: nat, d: nat): nat
    requires d > 0
  {
    a / d
  }

  function Remainder(a: nat, d: nat): nat
    requires d > 0
  {
    a % d
  }
}

/** Sizes of finite sets. */
module Sets {

  lemma {:induction false} SubsetSize(a: set<nat>, b: set<nat>)
    requires a <= b
    ensures |a| <= |b|
    decreases a
  {
    if a != {} {
      var x :| x in a;
      SubsetSize(a - {x}, b - {x});
    }
  }
}
