/**
 The reconnect delay (src/main.go, backoffDuration): exponential in 64-bit nanoseconds, with
 the exponent computed in float64.
 */
module Backoff {
  import opened Wrappers
  import opened Numbers

  const MAX_INT64 := 0x7fff_ffff_ffff_ffff
  const TWO64 := 0x1_0000_0000_0000_0000

  function Min(a: int, b: int): int {
    if a <= b then a else b
  }

  // ----- the arithmetic of the machine

  /** The spacing of float64 values around n: 53 significant bits. */
  function Ulp(n: nat): (u: nat)
    ensures u >= 1
    ensures u == 1 || u <= n
  {
    if n < 0x20_0000_0000_0000 then 1 else 2 * Ulp(n / 2)
  }

  /** float64(n), rounding to nearest, ties to even. */
  function Float64(n: nat): nat {
    var u := Ulp(n);
    var k, r := n / u, n % u;
    if 2 * r < u || (2 * r == u && k % 2 == 0) then k * u else (k + 1) * u
  }

  /** Two's complement wrap-around of an int64 product. */
  function Wrap64(n: int): int {
    var r := n % TWO64;
    if r > MAX_INT64 then r - TWO64 else r
  }

  /** math.Pow(2, n) is exact up to 2^1023 and +Inf, here None, beyond. */
  function MathPow2(n: nat): Option<nat> {
    if n <= 1023 then Some(Pow2(n)) else None
  }

  /**
   backoffDuration.  `saturated` is what the processor makes of a float too large for int64;
   2^63 is the only such value that reaches the conversion.
   */
  function BackoffDuration(attempt: int, initial: int, maxDur: int, saturated: int): int
    requires attempt >= 1 && 0 < initial <= MAX_INT64 && 0 <= maxDur <= MAX_INT64
  {
    match MathPow2(attempt - 1)
    case None => maxDur
    case Some(exp) =>
      if exp > Float64(maxDur / initial) then maxDur
      else
        var d := Wrap64((if exp <= MAX_INT64 then exp else saturated) * initial);
        if d > maxDur then maxDur else d
  }

  /** The delay the program is documented to have. */
  function Delay(attempt: int, initial: int, maxDur: int): int
    requires attempt >= 1
  {
    Min(Pow2(attempt - 1) * initial, maxDur)
  }

  // ----- when the two agree

  lemma {:induction false} UlpIsPow2(n: nat) returns (k: nat)
    ensures Ulp(n) == Pow2(k)
  {
    if n < 0x20_0000_0000_0000 {
      k := 0;
    } else {
      k := UlpIsPow2(n / 2);
      k := k + 1;
    }
  }

  lemma Float64Bounds(n: nat)
    ensures n / Ulp(n) * Ulp(n) <= Float64(n) <= n / Ulp(n) * Ulp(n) + Ulp(n)
  {
    var u := Ulp(n);
    var k := n / u;
    assert (k + 1) * u == k * u + u;
  }

  /** Rounding down to a multiple of u keeps a multiple of u, and keeps u itself. */
  lemma FloorKeeps(n: nat, u: nat, m: nat)
    requires 0 < u && m * u <= n
    ensures m * u <= n / u * u <= n
  {
    var k, r := n / u, n % u;
    assert n == k * u + r;
    assert (k + 1) * u == k * u + u;
    assert k < m ==> (k + 1) * u <= m * u;
    assert m * u <= k * u;
  }

  /** Rounding to float64 never crosses a power of two. */
  lemma RoundingKeepsPowers(e: nat, q: nat)
    requires Pow2(e) <= q
    ensures Pow2(e) <= Float64(q)
  {
    Float64Bounds(q);
    var k := UlpIsPow2(q);
    if k <= e {
      Pow2Sum(e - k, k);
      FloorKeeps(q, Ulp(q), Pow2(e - k));
    } else {
      Pow2Monotone(e, k);
      FloorKeeps(q, Ulp(q), 1);
    }
  }

  lemma RoundingAtMostDoubles(q: nat)
    requires q > 0
    ensures Float64(q) <= 2 * q
  {
    Float64Bounds(q);
    FloorKeeps(q, Ulp(q), 0);
  }

  /**
   The 64-bit product overflows: the rounded bound lets the power through, although the power
   times `initial` no longer fits.
   */
  predicate Overflows(attempt: int, initial: int, maxDur: int)
    requires attempt >= 1 && 0 < initial <= MAX_INT64 && 0 <= maxDur <= MAX_INT64
  {
    attempt <= 1024
    && Pow2(attempt - 1) <= Float64(maxDur / initial)
    && Pow2(attempt - 1) * initial > MAX_INT64
  }

  lemma QuotientBound(x: int, initial: int, maxDur: int)
    requires 0 < initial && 0 <= maxDur
    ensures x <= maxDur / initial <==> x * initial <= maxDur
  {
    var q := maxDur / initial;
    assert maxDur == q * initial + maxDur % initial;
    if x <= q {
      assert x * initial <= q * initial;
    } else {
      assert x * initial >= (q + 1) * initial;
      assert (q + 1) * initial == q * initial + initial;
    }
  }

  /**
   The exact condition: the delay is min(2^(attempt-1) * initial, maxDur) unless the product
   overflows, and then only if the factor itself did not fit and the processor's replacement
   is at least maxDur.
   */
  lemma BackoffExact(attempt: int, initial: int, maxDur: int, saturated: int)
    requires attempt >= 1 && 0 < initial <= MAX_INT64 && 0 <= maxDur <= MAX_INT64
    requires -MAX_INT64 - 1 <= saturated <= MAX_INT64
    ensures BackoffDuration(attempt, initial, maxDur, saturated) == Delay(attempt, initial, maxDur)
       <==> !Overflows(attempt, initial, maxDur) || (Pow2(attempt - 1) > MAX_INT64 && saturated >= maxDur)
  {
    var exp, q := Pow2(attempt - 1), maxDur / initial;
    if attempt > 1024 {
      Pow2Constants();
      Pow2Monotone(63, attempt - 1);
      ProductAtLeast(exp, initial);
    } else if exp <= q {
      RoundingKeepsPowers(attempt - 1, q);
      Fits(exp, initial, maxDur);
    } else if exp > Float64(q) {
      QuotientBound(exp, initial, maxDur);
    } else {
      RoundingAtMostDoubles(q);
      LetThrough(exp, q, initial, maxDur, saturated);
    }
  }

  lemma Fits(exp: nat, initial: int, maxDur: int)
    requires 0 < initial && 0 <= maxDur <= MAX_INT64 && exp <= maxDur / initial
    ensures exp <= exp * initial <= maxDur && Wrap64(exp * initial) == exp * initial
  {
    QuotientBound(exp, initial, maxDur);
    ProductAtLeast(exp, initial);
  }

  /** A factor above the quotient that the rounded bound lets through. */
  lemma LetThrough(exp: nat, q: nat, initial: int, maxDur: int, saturated: int)
    requires 0 < initial && 0 <= maxDur <= MAX_INT64 && q == maxDur / initial && q < exp <= 2 * q
    requires -MAX_INT64 - 1 <= saturated <= MAX_INT64
    ensures exp * initial > maxDur
    ensures exp * initial > MAX_INT64 && exp <= MAX_INT64 ==> Wrap64(exp * initial) < 0
    ensures exp * initial <= MAX_INT64 && exp <= MAX_INT64 ==> Wrap64(exp * initial) == exp * initial
    ensures exp > MAX_INT64 ==> exp * initial > MAX_INT64 && Wrap64(saturated * initial) == saturated
  {
    QuotientBound(exp, initial, maxDur);
    DoubledQuotient(exp, q, initial, maxDur);
    ProductAtLeast(exp, initial);
    if exp > MAX_INT64 {
      InitialIsOne(q, initial, maxDur);
    }
  }

  lemma ProductAtLeast(x: nat, y: nat)
    requires y >= 1
    ensures x * y >= x
  {
  }

  lemma DoubledQuotient(exp: nat, q: nat, initial: nat, maxDur: nat)
    requires initial > 0 && q == maxDur / initial && exp <= 2 * q && maxDur <= MAX_INT64
    ensures exp * initial < TWO64
  {
    assert q * initial <= maxDur by { QuotientBound(q, initial, maxDur); }
    assert exp * initial <= (2 * q) * initial;
    assert (2 * q) * initial == 2 * (q * initial);
  }

  lemma InitialIsOne(q: nat, initial: nat, maxDur: nat)
    requires 0 < initial && q == maxDur / initial && maxDur <= MAX_INT64 && 2 * q > MAX_INT64
    ensures initial == 1
  {
    QuotientBound(q, initial, maxDur);
    assert initial >= 2 ==> q * initial >= q * 2;
  }

  /** For every quotient below 2^53 the float is exact and nothing overflows. */
  lemma NoOverflowBelow53Bits(attempt: int, initial: int, maxDur: int)
    requires attempt >= 1 && 0 < initial <= MAX_INT64 && 0 <= maxDur <= MAX_INT64
    requires maxDur / initial < 0x20_0000_0000_0000
    ensures !Overflows(attempt, initial, maxDur)
  {
    var q := maxDur / initial;
    assert Float64(q) == q;
    QuotientBound(Pow2(attempt - 1), initial, maxDur);
  }

  /** The bound is needed: this call returns the least int64 instead of its maximum. */
  lemma OverflowExample(saturated: int)
    ensures BackoffDuration(55, 512, MAX_INT64, saturated) == -MAX_INT64 - 1
  {
    Pow2Constants();
    Pow2Sum(54, 9);
    assert Pow2(9) == 512;
    var q := MAX_INT64 / 512;
    assert Ulp(q / 2) == 1;
    assert Ulp(q) == 2;
    assert Float64(q) == q + 1;
  }

  // ----- what the reconnect loop relies on

  lemma DelayMonotone(attempt: int, initial: int, maxDur: int)
    requires attempt >= 1 && initial > 0
    ensures Delay(attempt, initial, maxDur) <= Delay(attempt + 1, initial, maxDur) <= maxDur
  {
    assert Pow2(attempt) * initial == 2 * (Pow2(attempt - 1) * initial);
  }

  /** So is the program's own delay, as long as the quotient is below 2^53: it never shrinks, nor passes the cap. */
  lemma BackoffMonotone(attempt: int, initial: int, maxDur: int, saturated: int)
    requires attempt >= 1 && 0 < initial <= MAX_INT64 && 0 <= maxDur <= MAX_INT64
    requires -MAX_INT64 - 1 <= saturated <= MAX_INT64
    requires maxDur / initial < 0x20_0000_0000_0000
    ensures BackoffDuration(attempt, initial, maxDur, saturated)
         <= BackoffDuration(attempt + 1, initial, maxDur, saturated) <= maxDur
  {
    NoOverflowBelow53Bits(attempt, initial, maxDur);
    NoOverflowBelow53Bits(attempt + 1, initial, maxDur);
    BackoffExact(attempt, initial, maxDur, saturated);
    BackoffExact(attempt + 1, initial, maxDur, saturated);
    DelayMonotone(attempt, initial, maxDur);
  }

  /** The scheduled waiting time of the first n retries. */
  function TotalDelay(n: nat, initial: int, maxDur: int): int {
    if n == 0 then 0 else TotalDelay(n - 1, initial, maxDur) + Delay(n, initial, maxDur)
  }

  /** k doublings fit under the cap; from then on every wait is the cap. */
  lemma {:induction false} TotalDelayClosed(n: nat, k: nat, initial: int, maxDur: int)
    requires initial > 0
    requires k == 0 || Pow2(k - 1) * initial <= maxDur
    requires maxDur <= Pow2(k) * initial
    ensures TotalDelay(n, initial, maxDur)
         == if n <= k then (Pow2(n) - 1) * initial else (Pow2(k) - 1) * initial + (n - k) * maxDur
  {
    if n > 0 {
      TotalDelayClosed(n - 1, k, initial, maxDur);
      if n <= k {
        Pow2Monotone(n - 1, k - 1);
        Scale(Pow2(n - 1), Pow2(k - 1), initial);
        Doubled(Pow2(n - 1), initial);
      } else {
        Pow2Monotone(k, n - 1);
        Scale(Pow2(k), Pow2(n - 1), initial);
        OneMore(n - 1 - k, maxDur);
      }
    }
  }

  lemma Doubled(a: int, c: int)
    ensures (2 * a - 1) * c == (a - 1) * c + a * c
  {
  }

  const SECOND := 1_000_000_000
  const RECONNECT_INITIAL := 2 * SECOND
  const RECONNECT_MAX := 15 * SECOND

  /** The delays of the program: 2 s, 4 s, 8 s and then 15 s for ever. */
  lemma DefaultTotal(n: nat)
    ensures TotalDelay(n, RECONNECT_INITIAL, RECONNECT_MAX)
         == (if n <= 3 then (Pow2(n) - 1) * 2 else 14 + (n - 3) * 15) * SECOND
  {
    TotalDelayClosed(n, 3, RECONNECT_INITIAL, RECONNECT_MAX);
    assert Pow2(3) == 8 && Pow2(2) == 4;
  }

  lemma DefaultExact(attempt: int, saturated: int)
    requires attempt >= 1 && -MAX_INT64 - 1 <= saturated <= MAX_INT64
    ensures BackoffDuration(attempt, RECONNECT_INITIAL, RECONNECT_MAX, saturated)
         == Delay(attempt, RECONNECT_INITIAL, RECONNECT_MAX)
  {
    NoOverflowBelow53Bits(attempt, RECONNECT_INITIAL, RECONNECT_MAX);
    BackoffExact(attempt, RECONNECT_INITIAL, RECONNECT_MAX, saturated);
  }
}
