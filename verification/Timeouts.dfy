/** UploadTimeout: the timeout of each upload attempt, in nanoseconds. */
module Timeouts {

  function Pow(b: nat, e: nat): (p: nat)
    ensures b >= 1 ==> p >= 1
  {
    if e == 0 then 1 else b * Pow(b, e - 1)
  }

  /** The timeout of an attempt in exact integer arithmetic. */
  function UploadTimeout(base: nat, factor: int, attempt: int): nat {
    if attempt <= 1 || factor <= 1 then base else Pow(factor, attempt - 1) * base
  }

  /** The timeouts of attempts 1 to n together. */
  function TotalTimeout(base: nat, factor: int, n: int): nat {
    if n <= 0 then 0 else TotalTimeout(base, factor, n - 1) + UploadTimeout(base, factor, n)
  }

  const TWO_TO_53: int := 0x20_0000_0000_0000

  predicate FitsFloat(n: int) {
    -TWO_TO_53 <= n <= TWO_TO_53
  }

  /** A floating-point rounding keeps every integer up to 2^53. */
  ghost predicate KeepsIntegers(round: real -> real) {
    forall n: int :: FitsFloat(n) ==> round(n as real) == n as real
  }

  /** A float power of integers is exact when its result is an integer up to 2^53. */
  ghost predicate KeepsPowers(pow: (nat, nat) -> real) {
    forall b: nat, e: nat :: FitsFloat(Pow(b, e)) ==> pow(b, e) == Pow(b, e) as real
  }

  /** The computation the code makes: a float power, a conversion and a product,
      each rounded to a float64, then rounded to the nearest integer. */
  function FloatTimeout(round: real -> real, pow: (nat, nat) -> real, base: nat, factor: int, attempt: int): int {
    if attempt <= 1 || factor <= 1 then base
    else
      var t := round(pow(factor, attempt - 1) * round(base as real));
      (t + 0.5).Floor
  }

  /** Below 2^53 nanoseconds (104 days) no float rounding shows. */
  lemma FloatTimeoutExact(round: real -> real, pow: (nat, nat) -> real, base: nat, factor: int, attempt: int)
    requires KeepsIntegers(round) && KeepsPowers(pow)
    requires 0 < base && UploadTimeout(base, factor, attempt) <= TWO_TO_53
    ensures FloatTimeout(round, pow, base, factor, attempt) == UploadTimeout(base, factor, attempt)
  {
    if attempt > 1 && factor > 1 {
      var f := Pow(factor, attempt - 1);
      var n := UploadTimeout(base, factor, attempt);
      ProductBounds(f, base);
      RealProduct(f, base, n);
      assert FitsFloat(f) && FitsFloat(base) && FitsFloat(n);
      assert pow(factor, attempt - 1) == f as real;
      var b: int, m: int := base, n;
      assert round(b as real) == b as real && round(m as real) == m as real;
      var product := pow(factor, attempt - 1) * round(base as real);
      assert product == n as real && round(product) == n as real;
      HalfUpFloor(n);
    }
  }

  lemma RealProduct(x: int, y: int, n: int)
    requires n == x * y
    ensures (x as real) * (y as real) == n as real
  {
  }

  lemma HalfUpFloor(n: int)
    ensures (n as real + 0.5).Floor == n
  {
  }

  lemma ProductBounds(x: nat, y: nat)
    requires x > 0 && y > 0
    ensures x <= x * y && y <= x * y
  {
    assert x * (y - 1) >= 0 && (x - 1) * y >= 0;
  }

  /** Without backoff the attempts share one timeout. */
  lemma {:induction false} TotalTimeoutFlat(base: nat, factor: int, n: nat)
    requires factor <= 1
    ensures TotalTimeout(base, factor, n) == n * base
  {
    if n > 0 {
      TotalTimeoutFlat(base, factor, n - 1);
      assert (n - 1) * base + base == n * base;
    }
  }

  /** With backoff they form a geometric series: total * (factor - 1) == base * (factor^n - 1). */
  lemma {:induction false} TotalTimeoutGeometric(base: nat, factor: nat, n: nat)
    requires factor >= 2
    ensures TotalTimeout(base, factor, n) * (factor - 1) == base * (Pow(factor, n) - 1)
  {
    if n > 0 {
      TotalTimeoutGeometric(base, factor, n - 1);
      var p := Pow(factor, n - 1);
      assert UploadTimeout(base, factor, n) == p * base;
      GeometricStep(TotalTimeout(base, factor, n - 1), p, base, factor);
    }
  }

  lemma GeometricStep(before: nat, p: nat, base: nat, factor: nat)
    requires before * (factor - 1) == base * (p - 1)
    ensures (before + p * base) * (factor - 1) == base * (factor * p - 1)
  {
    var x := p * base;
    assert (before + x) * (factor - 1) == before * (factor - 1) + x * factor - x;
    assert x * factor == base * (factor * p);
  }

  lemma {:induction false} TotalTimeoutMonotone(base: nat, factor: int, m: int, n: int)
    requires m <= n
    ensures TotalTimeout(base, factor, m) <= TotalTimeout(base, factor, n)
    decreases n - m
  {
    if m < n {
      TotalTimeoutMonotone(base, factor, m, n - 1);
    }
  }

  /** README's examples: 5s with factor 2 gives 5s, 10s and 20s; ten tries of 3s take 30s. */
  lemma ReadmeTimeouts(second: nat)
    ensures UploadTimeout(5 * second, 2, 1) == 5 * second
    ensures UploadTimeout(5 * second, 2, 2) == 10 * second
    ensures UploadTimeout(5 * second, 2, 3) == 20 * second
    ensures TotalTimeout(3 * second, 1, 10) == 30 * second
  {
    assert Pow(2, 2) == 4;
    TotalTimeoutFlat(3 * second, 1, 10);
  }
}
