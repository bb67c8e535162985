/**
 Rounding of exact results to IEEE 754 doubles, to nearest with ties to even, as far as the project
 needs it: results in the normal range, and zero. Overflow and gradual underflow are left open.
 */
module Doubles {

  function Pow2(e: int): (r: real)
    ensures r > 0.0
    decreases if e < 0 then -e else e
  {
    if e == 0 then 1.0 else if e > 0 then 2.0 * Pow2(e - 1) else Pow2(e + 1) / 2.0
  }

  /** 2^53; the bounds below are 2^52 and 2^53 as reals. */
  const MAX_EXACT: int := 9007199254740992

  function Abs(x: real): real {
    if x < 0.0 then -x else x
  }

  /** Doubles near `x` are the multiples of `Pow2(e)`. */
  ghost predicate SpacedBy(x: real, e: int) {
    e >= -1074 && 4503599627370496.0 * Pow2(e) <= Abs(x) < 9007199254740992.0 * Pow2(e)
  }

  function Multiple(m: int, e: int): real {
    m as real * Pow2(e)
  }

  /** No multiple of `Pow2(e)` is nearer to `x` than the `m`-th, which is even if two are equally near. */
  predicate IsNearest(x: real, e: int, m: int) {
    var off := 2.0 * Abs(x - Multiple(m, e));
    off < Pow2(e) || (off == Pow2(e) && m % 2 == 0)
  }

  /** `round` is what double arithmetic does to an exact result. */
  ghost predicate IsRounding(round: real -> real) {
    && round(0.0) == 0.0
    && forall x, e, m :: SpacedBy(x, e) && IsNearest(x, e, m) ==> round(x) == Multiple(m, e)
  }

  lemma Positive(e: int)
    ensures Pow2(e) > 0.0
  {
  }

  lemma Pow2Up(e: int)
    ensures Pow2(e + 1) == 2.0 * Pow2(e)
  {
  }

  /** Double arithmetic is exact where the result is a multiple of the spacing. */
  lemma MultipleIsExact(round: real -> real, x: real, e: int, m: int)
    requires IsRounding(round) && SpacedBy(x, e) && x == Multiple(m, e)
    ensures round(x) == x
  {
    Positive(e);
    hide SpacedBy, Pow2, Multiple;
    assert IsNearest(x, e, m);
  }

  // ---- Such a rounding exists ----

  lemma {:induction false} Pow2Grows(e: int, f: int)
    requires e < f
    ensures Pow2(f) >= 2.0 * Pow2(e)
    decreases f - e
  {
    Pow2Up(f - 1);
    if e < f - 1 { Pow2Grows(e, f - 1); }
  }

  lemma SpacingIsUnique(x: real, e: int, f: int)
    requires SpacedBy(x, e) && SpacedBy(x, f)
    ensures e == f
  {
    if e < f { Pow2Grows(e, f); }
    if f < e { Pow2Grows(f, e); }
  }

  lemma Apart(m: int, n: int, e: int)
    requires m < n
    ensures n == m + 1 ==> Multiple(n, e) == Multiple(m, e) + Pow2(e)
    ensures n > m + 1 ==> Multiple(n, e) >= Multiple(m, e) + 2.0 * Pow2(e)
  {
    Positive(e);
    hide Pow2;
    var p := Pow2(e);
    assert n as real * p == m as real * p + (n - m) as real * p;
    if n > m + 1 { assert (n - m - 2) as real * p >= 0.0; }
  }

  lemma NearestIsUnique(x: real, e: int, m: int, n: int)
    requires IsNearest(x, e, m) && IsNearest(x, e, n)
    ensures m == n
  {
    Positive(e);
    hide Pow2, Multiple;
    if m < n { Apart(m, n, e); }
    if n < m { Apart(n, m, e); }
  }

  ghost function Nearest(x: real): real {
    if e, m :| SpacedBy(x, e) && IsNearest(x, e, m) then Multiple(m, e) else 0.0
  }

  lemma NearestAt(x: real, e: int, m: int)
    requires SpacedBy(x, e) && IsNearest(x, e, m)
    ensures Nearest(x) == Multiple(m, e)
  {
    hide SpacedBy, IsNearest, Multiple;
    var f, n :| SpacedBy(x, f) && IsNearest(x, f, n) && Nearest(x) == Multiple(n, f);
    SpacingIsUnique(x, e, f);
    NearestIsUnique(x, e, m, n);
  }

  lemma RoundingExists()
    ensures IsRounding(Nearest)
  {
    assert Nearest(0.0) == 0.0 by {
      forall e ensures !SpacedBy(0.0, e) { Positive(e); }
    }
    hide SpacedBy, IsNearest, Multiple, Nearest;
    forall x, e, m | SpacedBy(x, e) && IsNearest(x, e, m) ensures Nearest(x) == Multiple(m, e) {
      NearestAt(x, e, m);
    }
  }

  // ---- Whole numbers ----

  function Doubled(n: int, k: nat): int {
    if k == 0 then n else 2 * Doubled(n, k - 1)
  }

  lemma {:induction false} DoubledIs(n: int, k: nat)
    ensures n as real == Multiple(Doubled(n, k), 0 - k)
  {
    if k > 0 {
      DoubledIs(n, k - 1);
      Pow2Up(0 - k);
    }
  }

  lemma {:induction false} DoubledSign(n: int, k: nat)
    requires n > 0
    ensures Doubled(n, k) >= Doubled(1, k)
  {
    if k > 0 { DoubledSign(n, k - 1); }
  }

  lemma {:induction false} DoubledSplit(n: int, j: nat, k: nat)
    ensures Doubled(n, j + k) == Doubled(Doubled(n, j), k)
  {
    if k > 0 { DoubledSplit(n, j, k - 1); }
  }

  lemma DoubledBy13(n: int)
    ensures Doubled(n, 13) == 8192 * n
  {
    assert Doubled(n, 1) == 2 * n && Doubled(n, 2) == 4 * n && Doubled(n, 3) == 8 * n;
    assert Doubled(n, 4) == 16 * n && Doubled(n, 5) == 32 * n && Doubled(n, 6) == 64 * n;
    assert Doubled(n, 7) == 128 * n && Doubled(n, 8) == 256 * n && Doubled(n, 9) == 512 * n;
    assert Doubled(n, 10) == 1024 * n && Doubled(n, 11) == 2048 * n && Doubled(n, 12) == 4096 * n;
  }

  lemma DoubledOne()
    ensures Doubled(1, 52) == 4503599627370496
  {
    DoubledBy13(1);
    DoubledBy13(8192);
    DoubledBy13(67108864);
    DoubledBy13(549755813888);
    hide Doubled;
    DoubledSplit(1, 13, 13);
    DoubledSplit(1, 26, 13);
    DoubledSplit(1, 39, 13);
  }

  /** A positive integer below 2^53, doubled until it has full precision. */
  lemma {:induction false} Normalise(n: int, k: nat) returns (j: nat)
    requires 0 < n && k <= 52 && Doubled(n, k) as real < 9007199254740992.0
    ensures j <= 52 && 4503599627370496.0 <= Doubled(n, j) as real < 9007199254740992.0
    decreases 52 - k
  {
    DoubledSign(n, k);
    DoubledOne();
    if Doubled(n, k) as real >= 4503599627370496.0 {
      j := k;
    } else {
      assert Doubled(n, k + 1) == 2 * Doubled(n, k);
      j := Normalise(n, k + 1);
    }
  }

  lemma Scaled(a: real, x: real, b: real, p: real)
    requires a <= x < b && p > 0.0
    ensures a * p <= x * p < b * p
  {
    assert (x - a) * p >= 0.0 && (b - x) * p > 0.0;
  }

  lemma WholeSpacing(n: int) returns (e: int, m: int)
    requires 0 < n <= MAX_EXACT
    ensures e >= -1074 && n as real == Multiple(m, e)
    ensures 4503599627370496.0 * Pow2(e) <= n as real < 9007199254740992.0 * Pow2(e)
  {
    if n == MAX_EXACT {
      e, m := 1, 4503599627370496;
      assert Pow2(1) == 2.0 * Pow2(0) && Pow2(0) == 1.0;
      hide Pow2;
      assert n as real == 4503599627370496.0 * 2.0 && 9007199254740992.0 * 2.0 == 18014398509481984.0;
    } else {
      e, m := SmallSpacing(n);
    }
  }

  lemma SmallSpacing(n: int) returns (e: int, m: int)
    requires 0 < n < MAX_EXACT
    ensures e >= -1074 && n as real == Multiple(m, e)
    ensures 4503599627370496.0 * Pow2(e) <= n as real < 9007199254740992.0 * Pow2(e)
  {
    var j := Normalise(n, 0);
    DoubledIs(n, j);
    var k: int := j;
    e, m := -k, Doubled(n, j);
    hide Doubled, Pow2, Multiple;
    FullPrecision(m, e);
  }

  lemma FullPrecision(m: int, e: int)
    requires 4503599627370496.0 <= m as real < 9007199254740992.0
    ensures 4503599627370496.0 * Pow2(e) <= Multiple(m, e) < 9007199254740992.0 * Pow2(e)
  {
    Positive(e);
    hide Pow2;
    Scaled(4503599627370496.0, m as real, 9007199254740992.0, Pow2(e));
  }

  lemma Negated(m: int, e: int)
    ensures Multiple(-m, e) == -Multiple(m, e)
  {
  }

  /** Whole numbers up to 2^53 in magnitude are doubles. */
  lemma WholeIsExact(round: real -> real, n: int)
    requires IsRounding(round) && -MAX_EXACT <= n <= MAX_EXACT
    ensures round(n as real) == n as real
  {
    if n != 0 {
      var e, m := WholeSpacing(if n > 0 then n else -n);
      Negated(m, e);
      assert SpacedBy(n as real, e);
      hide SpacedBy, Multiple, IsRounding;
      MultipleIsExact(round, n as real, e, if n > 0 then m else -m);
    }
  }
}
