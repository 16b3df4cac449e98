/** Integers passed through a JSON number: `encoding/json` decodes the decimal text to
    the nearest float64, ties to even (IEEE 754-2019, section 4.3.1), and the services
    truncate it back to uint64.  Only non-negative integers are modelled, so the
    exponent range plays no part: a float64 is a 53-bit significand times a power of two. */
module Float64 {

  const LIMIT: nat := 0x20_0000_0000_0000  // two to the 53
  const HALF: nat := 0x10_0000_0000_0000   // two to the 52

  function Power2(k: nat): (p: nat)
    ensures p >= 1
  {
    if k == 0 then 1 else 2 * Power2(k - 1)
  }

  /** The value of significand m with exponent k. */
  function Scaled(m: nat, k: nat): nat {
    m * Power2(k)
  }

  ghost predicate Representable(x: nat) {
    exists m: nat, k: nat :: m < LIMIT && x == Scaled(m, k)
  }

  /** n shifted right by k bits. */
  function Shift(n: nat, k: nat): nat {
    if k == 0 then n else Shift(n / 2, k - 1)
  }

  /** How many bits of n do not fit a 53-bit significand. */
  function Exponent(n: nat): nat {
    if n < LIMIT then 0 else 1 + Exponent(n / 2)
  }

  function Round(n: nat): nat {
    var k := Exponent(n);
    var q := Shift(n, k);
    var low, unit := Scaled(q, k), Power2(k);
    if 2 * (n - low) < unit || (2 * (n - low) == unit && q % 2 == 0) then low else low + unit
  }

  function Distance(a: nat, b: nat): nat {
    if a <= b then b - a else a - b
  }

  // ---------- Arithmetic ----------

  lemma MulMonotone(a: int, b: int, d: nat)
    requires a <= b
    ensures a * d <= b * d
  {
  }

  lemma MulDistribute(a: int, b: int, d: int)
    ensures (a + b) * d == a * d + b * d
  {
  }

  lemma MulAssociative(a: int, b: int, c: int)
    ensures a * (b * c) == (a * b) * c
  {
  }

  lemma ScaledStep(m: nat, k: nat)
    requires k > 0
    ensures Scaled(m, k) == 2 * Scaled(m, k - 1)
  {
    MulAssociative(m, 2, Power2(k - 1));
    MulAssociative(2, m, Power2(k - 1));
  }

  lemma ScaledNext(m: nat, k: nat)
    ensures Scaled(m + 1, k) == Scaled(m, k) + Power2(k)
  {
    MulDistribute(m, 1, Power2(k));
  }

  lemma ScaledMonotone(a: nat, b: nat, k: nat)
    requires a <= b
    ensures Scaled(a, k) <= Scaled(b, k)
  {
    MulMonotone(a, b, Power2(k));
  }

  lemma {:induction false} ShiftBounds(n: nat, k: nat)
    ensures Scaled(Shift(n, k), k) <= n < Scaled(Shift(n, k), k) + Power2(k)
  {
    if k > 0 {
      ShiftBounds(n / 2, k - 1);
      ScaledStep(Shift(n, k), k);
    }
  }

  /** The significand takes exactly 53 bits once n needs rounding at all. */
  lemma {:induction false} ShiftRange(n: nat)
    ensures Shift(n, Exponent(n)) < LIMIT
    ensures Exponent(n) > 0 ==> HALF <= Shift(n, Exponent(n))
  {
    if n >= LIMIT {
      ShiftRange(n / 2);
    }
  }

  /** A significand with a larger exponent is a multiple of the unit of a smaller one. */
  lemma {:induction false} Rescale(m: nat, k: nat, e: nat) returns (j: nat)
    requires e <= k
    ensures Scaled(m, k) == Scaled(j, e)
    decreases k
  {
    if e == k {
      j := m;
    } else {
      j := Rescale(m, k - 1, e);
      ScaledStep(m, k);
      MulAssociative(2, j, Power2(e));
      j := 2 * j;
    }
  }

  /** A representable number with a smaller exponent lies below the binade. */
  lemma {:induction false} BelowBinade(m: nat, k: nat, e: nat)
    requires m < LIMIT && k < e
    ensures Scaled(m, k) < Scaled(HALF, e)
    decreases e
  {
    ScaledStep(HALF, e);
    if k == e - 1 {
      ScaledNext(m, k);
      ScaledMonotone(m + 1, LIMIT, k);
    } else {
      BelowBinade(m, k, e - 1);
    }
  }

  // ---------- Rounding ----------

  lemma RoundRepresentable(n: nat)
    ensures Representable(Round(n))
  {
    var k := Exponent(n);
    var q := Shift(n, k);
    ShiftRange(n);
    ScaledNext(q, k);
    if Round(n) == Scaled(q, k) {
    } else if q + 1 < LIMIT {
      assert Round(n) == Scaled(q + 1, k);
    } else {
      ScaledStep(HALF, k + 1);
      assert Round(n) == Scaled(HALF, k + 1);
    }
  }

  /** No representable number lies strictly between n's two neighbours. */
  lemma NothingBetween(n: nat, x: nat)
    requires Representable(x)
    ensures var k := Exponent(n);
      x <= Scaled(Shift(n, k), k) || Scaled(Shift(n, k), k) + Power2(k) <= x
  {
    var e := Exponent(n);
    var q := Shift(n, e);
    var m: nat, k: nat :| m < LIMIT && x == Scaled(m, k);
    if k < e {
      BelowBinade(m, k, e);
      ShiftRange(n);
      ScaledMonotone(HALF, q, e);
    } else {
      var j := Rescale(m, k, e);
      ScaledNext(q, e);
      if j <= q {
        ScaledMonotone(j, q, e);
      } else {
        ScaledMonotone(q + 1, j, e);
      }
    }
  }

  /** No representable number is closer to n than Round(n). */
  lemma RoundNearest(n: nat, x: nat)
    requires Representable(x)
    ensures Distance(n, Round(n)) <= Distance(n, x)
  {
    ShiftBounds(n, Exponent(n));
    NothingBetween(n, x);
  }

  /** Of two numbers equally near, neither strictly between low and low + unit, one is low. */
  lemma Tie(n: nat, low: nat, unit: nat, even: bool, x: nat, chosen: nat)
    requires low <= n < low + unit && (x <= low || low + unit <= x)
    requires chosen == if 2 * (n - low) < unit || (2 * (n - low) == unit && even) then low else low + unit
    requires x != chosen && Distance(n, x) == Distance(n, chosen)
    ensures chosen == if even then low else low + unit
    ensures x == if even then low + unit else low
  {
  }

  /** If another representable number is just as near, it is the other neighbour, and the
      significand that was chosen is even. */
  lemma TieToEven(n: nat, x: nat) returns (m: nat)
    requires Representable(x) && x != Round(n) && Distance(n, x) == Distance(n, Round(n))
    ensures Round(n) == Scaled(m, Exponent(n)) && m % 2 == 0 && m <= LIMIT
    ensures x == Scaled(m + 1, Exponent(n)) || (m > 0 && x == Scaled(m - 1, Exponent(n)))
  {
    var k := Exponent(n);
    var q := Shift(n, k);
    ShiftBounds(n, k);
    ShiftRange(n);
    ScaledNext(q, k);
    NothingBetween(n, x);
    Tie(n, Scaled(q, k), Power2(k), q % 2 == 0, x, Round(n));
    m := if q % 2 == 0 then q else q + 1;
  }

  /** Exactly the representable integers survive, all of them up to two to the 53 but not
      the next one. */
  lemma Survives(n: nat)
    ensures Round(n) == n <==> Representable(n)
    ensures n <= LIMIT ==> Round(n) == n
    ensures n == LIMIT + 1 ==> Round(n) == LIMIT
  {
    RoundRepresentable(n);
    if Representable(n) {
      RoundNearest(n, n);
    }
    if n < LIMIT {
      assert n == Scaled(n, 0);
    } else if n <= LIMIT + 1 {
      assert Exponent(n / 2) == 0 && Exponent(n) == 1;
      assert Shift(n, 1) == n / 2 == HALF;
      assert Power2(1) == 2 && Scaled(HALF, 1) == LIMIT;
    }
  }
}
