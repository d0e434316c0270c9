/** util.DivCeil: ceiling division on Go's int64, and the mathematics it stands for. */
module CeilingDivision {
  import opened Sums

  const MAX_INT64: int := 0x7FFF_FFFF_FFFF_FFFF
  const TWO_TO_63: int := 0x8000_0000_0000_0000
  const TWO_TO_64: int := 0x1_0000_0000_0000_0000

  /** Two's complement wrap-around of a 64-bit signed result. */
  function WrapInt64(x: int): (r: int)
    ensures -TWO_TO_63 <= r <= MAX_INT64
    ensures -TWO_TO_63 <= x <= MAX_INT64 ==> r == x
    ensures MAX_INT64 < x < TWO_TO_64 ==> r == x - TWO_TO_64
    ensures -TWO_TO_64 <= x < -TWO_TO_63 ==> r == x + TWO_TO_64
  {
    (x + TWO_TO_63) % TWO_TO_64 - TWO_TO_63
  }

  /** Go's integer division truncates toward zero. */
  function TruncDiv(a: int, b: int): int
    requires b != 0
  {
    if a >= 0 then a / b else -((-a) / b)
  }

  /** The quotient leaves a remainder smaller than the divisor and with the sign of the dividend. */
  lemma TruncDivLeaves(a: int, b: int)
    requires b > 0
    ensures var rest := a - TruncDiv(a, b) * b;
            -b < rest < b && (a >= 0 ==> rest >= 0) && (a <= 0 ==> rest <= 0)
  {
    if a >= 0 {
      assert a == a / b * b + a % b;
    } else {
      var n := -a;
      assert n == n / b * b + n % b;
      assert -(n / b) * b == -(n / b * b);
    }
  }

  /** The code: None is the "division by zero" panic. */
  function DivCeil(a: int, b: int): Option<int> {
    if b == 0 then None else Some(WrapInt64(TruncDiv(WrapInt64(a + b - 1), b)))
  }

  /** The mathematical ceiling of a / b. */
  function Ceil(a: nat, b: nat): (q: nat)
    requires b > 0
    ensures a <= q * b
    ensures q > 0 ==> (q - 1) * b < a
  {
    var q := (a + b - 1) / b;
    assert q * b + (a + b - 1) % b == a + b - 1;
    assert (q - 1) * b == q * b - b;
    q
  }

  /** Ceil(a, b) is the least multiplier of b that reaches a. */
  lemma CeilLeast(a: nat, b: nat, k: nat)
    requires b > 0
    ensures Ceil(a, b) <= k <==> a <= k * b
  {
    var q := Ceil(a, b);
    if q <= k {
      Scale(q, k, b);
    } else {
      Scale(k, q - 1, b);
    }
  }

  lemma Scale(x: nat, y: nat, b: nat)
    requires x <= y
    ensures x * b <= y * b
  {
    assert (y - x) * b >= 0;
  }

  /** On non-negative operands the code rounds up correctly exactly when the
      intermediate sum fits in 64 bits. */
  lemma DivCeilExact(a: int, b: int)
    requires 0 <= a <= MAX_INT64 && 0 < b <= MAX_INT64
    ensures DivCeil(a, b) == Some(Ceil(a, b)) <==> a + b - 1 <= MAX_INT64
  {
    var x := a + b - 1;
    if x <= MAX_INT64 {
      QuotientShrinks(x, b);
      CeilUnique(a, b, x / b);
    } else {
      QuotientShrinks(TWO_TO_64 - x, b);
      CeilLeast(a, b, 0);
      assert Ceil(a, b) > 0;
    }
  }

  lemma CeilUnique(a: nat, b: nat, q: nat)
    requires b > 0 && q == (a + b - 1) / b
    ensures q == Ceil(a, b)
  {
  }

  lemma QuotientShrinks(a: nat, b: nat)
    requires b > 0
    ensures 0 <= a / b <= a
  {
    var q := a / b;
    assert q * b + a % b == a;
    Scale(1, b, q);
    assert q <= q * b;
  }

  /** A larger divisor never raises the quotient; a larger dividend never lowers it. */
  lemma CeilMonotone(a: nat, a': nat, b: nat, b': nat)
    requires a <= a' && 0 < b <= b'
    ensures Ceil(a, b') <= Ceil(a', b)
  {
    var q := Ceil(a', b);
    Scale(b, b', q);
    CeilLeast(a, b', q);
  }

  /** Rounding up twice loses nothing. */
  lemma CeilCompose(a: nat, b: nat, c: nat)
    requires b > 0 && c > 0
    ensures b * c > 0
    ensures Ceil(Ceil(a, b), c) == Ceil(a, b * c)
  {
    Scale(1, c, b);
    var bc := b * c;
    CeilComposeReaches(a, b, c, bc, Ceil(a, bc));
    CeilComposeReaches(a, b, c, bc, Ceil(Ceil(a, b), c));
    hide Ceil;
  }

  /** The two roundings and the one are reached by the same multipliers. */
  lemma CeilComposeReaches(a: nat, b: nat, c: nat, bc: nat, k: nat)
    requires b > 0 && c > 0 && bc == b * c && bc > 0
    ensures Ceil(Ceil(a, b), c) <= k <==> Ceil(a, bc) <= k
  {
    CeilLeast(Ceil(a, b), c, k);
    Scale(0, k, c);
    CeilLeast(a, b, k * c);
    CeilLeast(a, bc, k);
    Regroup(k, c, b);
    hide Ceil;
  }

  lemma Regroup(x: nat, y: nat, z: nat)
    ensures (x * y) * z == x * (z * y)
  {
  }

  /** The rounded shares cover the whole and overshoot it by less than one unit each. */
  lemma CeilSandwich(a: nat, b: nat)
    requires b > 0
    ensures a <= b * Ceil(a, b) <= a + b - 1
  {
    var q := Ceil(a, b);
    assert (q - 1) * b == q * b - b;
  }

  lemma CeilOne(a: nat)
    ensures Ceil(a, 1) == a
  {
  }
}
