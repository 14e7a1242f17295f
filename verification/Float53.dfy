/** Non-negative binary floating point with a 53-bit significand and an exponent that
    cannot overflow: the precision `big.NewFloat` gives its value, with every operation
    rounded to the nearest representable value, ties to even. */
module Float53 {

  /** 2 to the power 52, the smallest normalized significand. */
  const SIGNIFICAND := 4503599627370496.0

  ghost function Abs(x: real): real {
    if x < 0.0 then -x else x
  }

  lemma DivBounds(a: real, x: real)
    requires a > 0.0 && x > 0.0
    ensures a / x > 0.0
    ensures x < a ==> a / x > 1.0
  {
    assert a == (a / x) * x;
  }

  lemma HalfDivision(a: real, x: real)
    requires x > 0.0
    ensures a / x == 2.0 * (a / (2.0 * x))
  {
    assert (a / (2.0 * x)) * (2.0 * x) == a;
    assert (2.0 * (a / (2.0 * x))) * x == a;
  }

  /** How far x is from the normalized range, counted so that every doubling or halving
      towards it counts down. */
  ghost function Distance(x: real): nat
    requires x > 0.0
  {
    if x < SIGNIFICAND then
      DivBounds(2.0 * SIGNIFICAND, x);
      (2.0 * SIGNIFICAND / x).Floor
    else if x >= 2.0 * SIGNIFICAND then x.Floor
    else 0
  }

  lemma DoublingIsCloser(x: real)
    requires 0.0 < x < SIGNIFICAND
    ensures Distance(2.0 * x) < Distance(x)
  {
    DivBounds(2.0 * SIGNIFICAND, x);
    DivBounds(2.0 * SIGNIFICAND, 2.0 * x);
    HalfDivision(2.0 * SIGNIFICAND, x);
  }

  function RoundHalfEven(y: real): (m: int)
    ensures -0.5 <= m as real - y <= 0.5
  {
    var f := y.Floor;
    var d := y - f as real;
    if d < 0.5 || (d == 0.5 && f % 2 == 0) then f else f + 1
  }

  /** x rounded to 53 bits: scaled by powers of two until its unit in the last place is
      one, rounded to an integer, and scaled back. */
  function Round(x: real): (r: real)
    requires x >= 0.0
    ensures r >= 0.0
    decreases if x == 0.0 then 0 else Distance(x)
  {
    if x == 0.0 then 0.0
    else if x < SIGNIFICAND then
      DoublingIsCloser(x);
      Round(2.0 * x) / 2.0
    else if x >= 2.0 * SIGNIFICAND then
      2.0 * Round(x / 2.0)
    else RoundHalfEven(x) as real
  }

  /** Rounding moves a value by at most one part in 2^53. */
  lemma {:induction false} RoundError(x: real)
    requires x >= 0.0
    ensures Abs(Round(x) - x) * (2.0 * SIGNIFICAND) <= x
    decreases if x == 0.0 then 0 else Distance(x)
  {
    if 0.0 < x < SIGNIFICAND {
      DoublingIsCloser(x);
      RoundError(2.0 * x);
    } else if x >= 2.0 * SIGNIFICAND {
      RoundError(x / 2.0);
    }
  }

  // ----- Rounding is to nearest -----

  /** r times 2 to the power e. */
  ghost function Scale(r: real, e: int): real
    decreases if e < 0 then -e else e
  {
    if e == 0 then r else if e > 0 then 2.0 * Scale(r, e - 1) else Scale(r, e + 1) / 2.0
  }

  /** The values a 53-bit float can hold. */
  ghost predicate Representable(y: real, k: int, e: int) {
    -2.0 * SIGNIFICAND <= k as real <= 2.0 * SIGNIFICAND && y == Scale(k as real, e)
  }

  lemma ScaleStep(r: real, e: int)
    ensures Scale(r, e + 1) == 2.0 * Scale(r, e)
  {
  }

  lemma {:induction false} ScaleUpIsInteger(k: int, e: nat) returns (n: int)
    ensures Scale(k as real, e) == n as real
  {
    if e == 0 {
      n := k;
    } else {
      var h := ScaleUpIsInteger(k, e - 1);
      n := 2 * h;
    }
  }

  lemma {:induction false} ScaleDownIsSmall(k: int, e: int)
    requires e < 0 && k as real <= 2.0 * SIGNIFICAND
    ensures Scale(k as real, e) <= SIGNIFICAND
    decreases -e
  {
    if e < -1 {
      ScaleDownIsSmall(k, e + 1);
    }
  }

  lemma NearestInteger(x: real, m: int, n: int)
    requires -0.5 <= m as real - x <= 0.5
    ensures Abs(m as real - x) <= Abs(n as real - x)
  {
    if n < m {
      assert n as real <= (m - 1) as real;
    } else if m < n {
      assert (m + 1) as real <= n as real;
    }
  }

  lemma RoundIsRepresentable(x: real) returns (k: int, e: int)
    requires x >= 0.0
    ensures Representable(Round(x), k, e)
    decreases if x == 0.0 then 0 else Distance(x)
  {
    if x == 0.0 {
      k, e := 0, 0;
    } else if x < SIGNIFICAND {
      DoublingIsCloser(x);
      k, e := RoundIsRepresentable(2.0 * x);
      e := e - 1;
      ScaleStep(k as real, e);
    } else if x >= 2.0 * SIGNIFICAND {
      k, e := RoundIsRepresentable(x / 2.0);
      ScaleStep(k as real, e);
      e := e + 1;
    } else {
      k, e := RoundHalfEven(x), 0;
      assert k as real <= 9007199254740992 as real;
    }
  }

  /** No representable value is closer to x than Round(x) is. */
  lemma {:induction false} RoundIsNearest(x: real, y: real, k: int, e: int)
    requires x >= 0.0 && Representable(y, k, e)
    ensures Abs(Round(x) - x) <= Abs(y - x)
    decreases if x == 0.0 then 0 else Distance(x)
  {
    if 0.0 < x < SIGNIFICAND {
      DoublingIsCloser(x);
      ScaleStep(k as real, e);
      RoundIsNearest(2.0 * x, 2.0 * y, k, e + 1);
    } else if x >= 2.0 * SIGNIFICAND {
      ScaleStep(k as real, e - 1);
      RoundIsNearest(x / 2.0, y / 2.0, k, e - 1);
    } else if x > 0.0 && e >= 0 {
      var n := ScaleUpIsInteger(k, e);
      NearestInteger(x, RoundHalfEven(x), n);
    } else if x > 0.0 {
      ScaleDownIsSmall(k, e);
      NearestInteger(x, RoundHalfEven(x), 4503599627370496);
    }
  }
}
