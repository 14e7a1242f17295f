/** The fee arithmetic: the basis-point gate on fills, the batch fee cap with its float
    margin, and the relay cap that loosens once a relay has timed out. */
module Fees {
  import opened Basics
  import opened Float53

  const BPS := 10000
  const TWO_63 := 9223372036854775808
  const TWO_64 := 18446744073709551616
  const TWO_51 := 2251799813685248

  // ----- The margin of a batch -----

  /** The product of two non-negative reals. */
  function Times(x: real, y: real): (z: real)
    requires x >= 0.0 && y >= 0.0
    ensures z >= 0.0
  {
    x * y
  }

  lemma MulLe(a: real, b: real, c: real)
    requires a <= b && c >= 0.0
    ensures a * c <= b * c
  {
  }

  lemma MulSub(a: real, b: real, c: real)
    ensures (a - b) * c == a * c - b * c
  {
  }

  function Magnitude(x: int): nat {
    if x < 0 then -x else x
  }

  /** A rate and its product with a value, each rounded to 53 bits. */
  function RoundedProduct(rate: real, value: real): (p: real)
    requires rate >= 0.0 && value >= 0.0
    ensures p >= 0.0
  {
    Round(Times(Round(rate), value))
  }

  /** The basis points are made a float first, which rounds them from 2^53 on. */
  function FloatProduct(bps: nat, value: nat): (p: real)
    ensures p >= 0.0
  {
    RoundedProduct(Round(bps as real) / 10000.0, value as real)
  }

  /** The margin the settler subtracts, truncated towards zero. */
  function FloatMargin(bps: int, value: int): int {
    var m := FloatProduct(Magnitude(bps), Magnitude(value)).Floor;
    if (bps < 0) == (value < 0) then m else -m
  }

  function MaxBatchTxFee(profit: int, value: int, marginBps: int): int {
    profit - FloatMargin(marginBps, value)
  }

  lemma LastRounding(m: real, z: real, p: real)
    requires 0.0 <= m <= 2251799813685248.0
    requires Abs(z - m) * (2.0 * SIGNIFICAND) <= 2.1 * m
    requires Abs(p - z) * (2.0 * SIGNIFICAND) <= z
    ensures m - 1.0 < p < m + 1.0
  {
  }

  lemma ScaleRate(d: real, k: real, e: real, v: real)
    requires d * k <= e && v >= 0.0
    ensures (d * v) * k <= e * v
  {
    MulLe(d * k, e, v);
  }

  lemma RateError(a: real, q: real, v: real, e: real)
    requires v >= 0.0 && Abs(q - a) * (2.0 * SIGNIFICAND) <= e
    ensures Abs(q * v - a * v) * (2.0 * SIGNIFICAND) <= e * v
  {
    MulSub(q, a, v);
    MulSub(a, q, v);
    ScaleRate(q - a, 2.0 * SIGNIFICAND, e, v);
    ScaleRate(a - q, 2.0 * SIGNIFICAND, e, v);
  }

  lemma ExactMargin(bps: nat, value: nat)
    ensures bps as real / 10000.0 * value as real == (bps * value) as real / 10000.0
  {
    assert (bps * value) as real == bps as real * value as real;
  }

  /** The rate after two roundings, of the basis points and of the quotient. */
  lemma RateIsClose(bps: real, b: real, q: real)
    requires bps >= 0.0 && b >= 0.0
    requires Abs(b - bps) * (2.0 * SIGNIFICAND) <= bps
    requires Abs(q - b / 10000.0) * (2.0 * SIGNIFICAND) <= b / 10000.0
    ensures Abs(q - bps / 10000.0) * (2.0 * SIGNIFICAND) <= 2.1 * (bps / 10000.0)
  {
  }

  lemma ProductIsClose(a: real, q: real, v: real, m: real, z: real)
    requires v >= 0.0 && q >= 0.0 && m == a * v && z == Times(q, v)
    requires Abs(q - a) * (2.0 * SIGNIFICAND) <= 2.1 * a
    ensures Abs(z - m) * (2.0 * SIGNIFICAND) <= 2.1 * m
  {
    RateError(a, q, v, 2.1 * a);
  }

  lemma RoundedRate(bps: real)
    requires bps >= 0.0
    ensures Abs(Round(Round(bps) / 10000.0) - bps / 10000.0) * (2.0 * SIGNIFICAND) <= 2.1 * (bps / 10000.0)
  {
    RoundError(bps);
    RoundError(Round(bps) / 10000.0);
    RateIsClose(bps, Round(bps), Round(Round(bps) / 10000.0));
  }

  lemma RoundedMargin(m: real, z: real)
    requires 0.0 <= m <= 2251799813685248.0 && z >= 0.0
    requires Abs(z - m) * (2.0 * SIGNIFICAND) <= 2.1 * m
    ensures m - 1.0 < Round(z) < m + 1.0
  {
    RoundError(z);
    LastRounding(m, z, Round(z));
  }

  lemma FloatIsClose(a: real, rate: real, v: real, m: real)
    requires rate >= 0.0 && v >= 0.0 && m == a * v && 0.0 <= m <= 2251799813685248.0
    requires Abs(Round(rate) - a) * (2.0 * SIGNIFICAND) <= 2.1 * a
    ensures m - 1.0 < RoundedProduct(rate, v) < m + 1.0
  {
    var z := Times(Round(rate), v);
    ProductIsClose(a, Round(rate), v, m, z);
    RoundedMargin(m, z);
  }

  lemma MarginRange(n: int)
    requires 0 <= n <= TWO_51 * BPS
    ensures 0.0 <= n as real / 10000.0 <= 2251799813685248.0
  {
  }

  lemma FloatProductNear(bps: nat, value: nat, a: real, v: real, m: real)
    requires a == bps as real / 10000.0 && v == value as real && m == a * v && 0.0 <= m <= 2251799813685248.0
    ensures m - 1.0 < FloatProduct(bps, value) < m + 1.0
  {
    RoundedRate(bps as real);
    FloatIsClose(a, Round(bps as real) / 10000.0, v, m);
  }

  /** The float margin stays within one unit of the exact one. */
  lemma FloatProductIsClose(bps: nat, value: nat, n: nat)
    requires n == bps * value <= TWO_51 * BPS
    ensures n as real / 10000.0 - 1.0 < FloatProduct(bps, value) < n as real / 10000.0 + 1.0
  {
    ExactMargin(bps, value);
    MarginRange(n);
    FloatProductNear(bps, value, bps as real / 10000.0, value as real, n as real / 10000.0);
  }

  lemma FloorOfTenThousandth(n: nat)
    ensures (n as real / 10000.0).Floor == n / BPS
  {
    var q, r := n / BPS, n % BPS;
    assert n as real == 10000.0 * q as real + r as real;
  }

  /** Truncating the float margin gives the exact whole margin, or one more or less. */
  lemma FloatMarginWithinOne(bps: nat, value: nat)
    requires bps * value <= TWO_51 * BPS
    ensures bps * value / BPS - 1 <= FloatMargin(bps, value) <= bps * value / BPS + 1
  {
    FloatProductIsClose(bps, value, bps * value);
    FloorOfTenThousandth(bps * value);
  }

  /** A profit that covers the exact margin also covers the float margin. */
  lemma CoveredMargin(profit: int, bps: nat, value: nat)
    requires bps * value <= TWO_51 * BPS
    requires profit * BPS >= bps * value
    ensures MaxBatchTxFee(profit, value, bps) >= 0
  {
    FloatProductIsClose(bps, value, bps * value);
    FloorBelow(profit, bps * value, FloatProduct(bps, value));
  }

  lemma FloorBelow(profit: int, n: nat, p: real)
    requires profit * BPS >= n && p < n as real / 10000.0 + 1.0
    ensures p.Floor <= profit
  {
    assert (profit * BPS) as real >= n as real;
  }

  // ----- The gate on fills -----

  /** Two's complement value of the low 64 bits. */
  function Wrap64(x: int): int {
    var low := x % TWO_64;
    if low >= TWO_63 then low - TWO_64 else low
  }

  /** `big.Int.Int64`: the low 64 bits of the magnitude, with the sign put back. */
  function Int64(x: int): int {
    if x < 0 then Wrap64(-Wrap64(-x)) else Wrap64(x)
  }

  /** The whole basis points of the fee, rounded down. */
  function ActualBps(amountIn: int, amountOut: int): int
    requires amountIn != 0
  {
    (amountIn - amountOut) * BPS / amountIn
  }

  datatype GateAnswer = GateAnswer(accepted: bool, bpsDiff: int)

  /** None is the division by zero that an amount in of zero runs into. */
  function IsWithinBpsRange(minFeeBps: int, amountIn: int, amountOut: int): Option<GateAnswer> {
    if amountIn == 0 then None else
    Some(GateAnswer((amountIn - amountOut) * BPS >= minFeeBps * amountIn,
                    Wrap64(minFeeBps - Int64(ActualBps(amountIn, amountOut)))))
  }

  lemma QuotientAtLeast(n: int, d: int, q: int)
    requires d > 0
    ensures n / d >= q <==> n >= q * d
  {
    var f := n / d;
    assert f * d <= n < (f + 1) * d;
    if f >= q {
      assert f * d >= q * d;
    } else {
      assert (f + 1) * d <= q * d;
    }
  }

  lemma WrapIsPeriodic(x: int, k: int)
    ensures Wrap64(x + k * TWO_64) == Wrap64(x)
  {
    var q, r := x / TWO_64, x % TWO_64;
    assert x + k * TWO_64 == (q + k) * TWO_64 + r;
    assert (x + k * TWO_64) % TWO_64 == r;
  }

  lemma WrapShift(x: int) returns (k: int)
    ensures Wrap64(x) == x + k * TWO_64
  {
    k := -(x / TWO_64) - (if x % TWO_64 >= TWO_63 then 1 else 0);
    assert x == x / TWO_64 * TWO_64 + x % TWO_64;
  }

  /** The reported difference is the fee shortfall in basis points, modulo 2^64. */
  lemma ReportIsWrappedShortfall(minFeeBps: int, bps: int)
    ensures Wrap64(minFeeBps - Int64(bps)) == Wrap64(minFeeBps - bps)
  {
    if bps < 0 {
      var i := WrapShift(-bps);
      var j := WrapShift(-Wrap64(-bps));
      assert Int64(bps) == bps + (j - i) * TWO_64;
      WrapIsPeriodic(minFeeBps - bps, i - j);
    } else {
      var i := WrapShift(bps);
      WrapIsPeriodic(minFeeBps - bps, -i);
    }
  }

  /** The low 64 bits of the shortfall read as a number of at most 0. */
  predicate ReadsAsCovered(short: int) {
    short % TWO_64 == 0 || short % TWO_64 >= TWO_63
  }

  /** For a positive amount in, accepting an order and reporting a difference of at most 0
      agree exactly when the shortfall in basis points is of the sign its low 64 bits read
      as; between -2^63 and 2^63 it always is. */
  lemma GateMatchesReport(minFeeBps: int, amountIn: int, amountOut: int)
    requires amountIn > 0
    ensures var a := IsWithinBpsRange(minFeeBps, amountIn, amountOut);
            var short := minFeeBps - ActualBps(amountIn, amountOut);
            && a.Some?
            && ((a.value.accepted <==> a.value.bpsDiff <= 0) <==> (short <= 0 <==> ReadsAsCovered(short)))
            && (-TWO_63 <= short < TWO_63 ==> (a.value.accepted <==> a.value.bpsDiff <= 0))
  {
    var bps := ActualBps(amountIn, amountOut);
    var short := minFeeBps - bps;
    QuotientAtLeast((amountIn - amountOut) * BPS, amountIn, minFeeBps);
    ReportIsWrappedShortfall(minFeeBps, bps);
    WrappedSign(short);
  }

  lemma WrappedSign(short: int)
    ensures Wrap64(short) <= 0 <==> ReadsAsCovered(short)
    ensures -TWO_63 <= short < TWO_63 ==> Wrap64(short) == short
  {
    if -TWO_63 <= short < 0 {
      assert short % TWO_64 == short + TWO_64;
    }
  }

  /** Outside that range the report can call a rejected order acceptable. */
  lemma GateReportCanLie()
    ensures IsWithinBpsRange(10, 1, 922337203685479) == Some(GateAnswer(false, -9223372036854771606))
  {
    assert ActualBps(1, 922337203685479) == -9223372036854780000;
    ReportIsWrappedShortfall(10, -9223372036854780000);
    assert 9223372036854780010 % TWO_64 == 9223372036854780010;
  }

  // ----- Margin of a batch of gated orders -----

  datatype Fill = Fill(amountIn: int, amountOut: int)

  function TotalIn(fills: seq<Fill>): int {
    if fills == [] then 0 else fills[0].amountIn + TotalIn(fills[1..])
  }

  function TotalFee(fills: seq<Fill>): int {
    if fills == [] then 0 else fills[0].amountIn - fills[0].amountOut + TotalFee(fills[1..])
  }

  ghost predicate Accepted(fill: Fill, minFeeBps: int) {
    fill.amountIn >= 0 &&
    IsWithinBpsRange(minFeeBps, fill.amountIn, fill.amountOut).Some? &&
    IsWithinBpsRange(minFeeBps, fill.amountIn, fill.amountOut).value.accepted
  }

  lemma LowerMargin(fee: int, minFeeBps: int, marginBps: int, amountIn: int)
    requires fee >= minFeeBps * amountIn && amountIn >= 0 && minFeeBps >= marginBps
    ensures fee >= marginBps * amountIn
  {
    assert (minFeeBps - marginBps) * amountIn >= 0;
  }

  lemma {:induction false} GatedTotals(fills: seq<Fill>, minFeeBps: int, marginBps: int)
    requires forall i :: 0 <= i < |fills| ==> Accepted(fills[i], minFeeBps)
    requires 0 <= marginBps <= minFeeBps
    ensures TotalFee(fills) * BPS >= marginBps * TotalIn(fills)
    ensures TotalIn(fills) >= 0
  {
    if fills != [] {
      var f := fills[0];
      assert Accepted(f, minFeeBps);
      LowerMargin((f.amountIn - f.amountOut) * BPS, minFeeBps, marginBps, f.amountIn);
      GatedTotals(fills[1..], minFeeBps, marginBps);
      assert marginBps * (f.amountIn + TotalIn(fills[1..])) == marginBps * f.amountIn + marginBps * TotalIn(fills[1..]);
    }
  }

  /** A batch of orders that all passed the gate always leaves a fee cap of at least 0,
      with the rounding of the float margin taken into account. */
  lemma GatedBatchCap(fills: seq<Fill>, minFeeBps: int, marginBps: int)
    requires forall i :: 0 <= i < |fills| ==> Accepted(fills[i], minFeeBps)
    requires 0 <= marginBps <= minFeeBps
    requires marginBps * TotalIn(fills) <= TWO_51 * BPS
    ensures MaxBatchTxFee(TotalFee(fills), TotalIn(fills), marginBps) >= 0
  {
    GatedTotals(fills, minFeeBps, marginBps);
    CoveredMargin(TotalFee(fills), marginBps, TotalIn(fills));
  }

  // ----- The cap on one relay -----

  predicate TimedOut(timeout: Option<int>, createdAt: int, now: int) {
    timeout.Some? && now > createdAt + timeout.value
  }

  function RelayCostCap(relayCap: int, maxFee: Option<int>, timeout: Option<int>, createdAt: int, now: int): int {
    if maxFee.None? then relayCap
    else if TimedOut(timeout, createdAt, now) then
      if maxFee.value > relayCap then maxFee.value else relayCap
    else maxFee.value
  }

  /** The quoted fee must be positive and at most the cap. */
  predicate FeeAllowed(fee: int, cap: int) {
    0 < fee <= cap
  }

  /** The cap of a relay never goes down as time passes. */
  lemma CapNeverDecreases(
    relayCap: int, maxFee: Option<int>, timeout: Option<int>, createdAt: int, now: int, later: int)
    requires now <= later
    ensures RelayCostCap(relayCap, maxFee, timeout, createdAt, now)
         <= RelayCostCap(relayCap, maxFee, timeout, createdAt, later)
  {
  }

  /** A relay counts as timed out from its very start exactly when its timeout is negative:
      -1 does not mean "none". */
  lemma NegativeTimeoutIsExpired(timeout: int, createdAt: int)
    ensures (forall now :: now >= createdAt ==> TimedOut(Some(timeout), createdAt, now)) <==> timeout < 0
  {
    if timeout >= 0 {
      assert !TimedOut(Some(timeout), createdAt, createdAt);
    }
  }
}
