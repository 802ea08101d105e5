/** Tick and nanosecond conversions: recorder/helpers.go and playback/segment.go.

    Go's integer division truncates toward zero, so it is written out here;
    Dafny's own `/` is used on non-negative operands only. */
module Clock {

  /** One second, in nanoseconds (time.Second). */
  const SECOND: int := 1_000_000_000

  /** Go's a / b for a positive divisor. */
  function Quot(a: int, b: int): int
    requires b > 0
  {
    if a >= 0 then a / b else -(-a / b)
  }

  /** Go's a % b for a positive divisor; it has the sign of a. */
  function Rem(a: int, b: int): int
    requires b > 0
  {
    a - Quot(a, b) * b
  }

  /** v*m/d, computed on quotient and remainder apart (multiplyAndDivide). */
  function MulDiv(v: int, m: int, d: int): int
    requires d > 0
  {
    Quot(v, d) * m + Quot(Rem(v, d) * m, d)
  }

  /** Ticks of a clock of the given rate, in nanoseconds
      (timestampToDuration, durationMp4ToGo). */
  function ToNanos(ticks: int, rate: int): int
    requires rate > 0
  {
    MulDiv(ticks, SECOND, rate)
  }

  /** Nanoseconds, in ticks of a clock of the given rate (durationGoToMp4). */
  function ToTicks(nanos: int, rate: int): int {
    MulDiv(nanos, rate, SECOND)
  }

  lemma ProductNonNeg(k: int, d: int)
    requires k >= 0 && d >= 0
    ensures k * d >= 0
  {
  }

  lemma ScaleOrder(x: int, y: int, d: int)
    requires d >= 0
    ensures x <= y ==> x * d <= y * d
    ensures x < y ==> x * d + d <= y * d
  {
    if x < y {
      var k := y - x - 1;
      ProductNonNeg(k, d);
      assert y * d == (x + 1 + k) * d == x * d + d + k * d;
    }
  }

  /** The integers between two consecutive multiples of b have one quotient. */
  lemma QuotUnique(a: int, b: int, q: int)
    requires b > 0
    requires q * b <= a < q * b + b
    ensures a / b == q
  {
    var p := a / b;
    assert p * b <= a < p * b + b;
    ScaleOrder(p, q, b);
    ScaleOrder(q, p, b);
  }

  lemma MulDivExactNonNeg(v: int, m: int, d: int)
    requires v >= 0 && m >= 0 && d > 0
    ensures MulDiv(v, m, d) == v * m / d
  {
    var q, r := v / d, v % d;
    assert v == q * d + r;
    assert r * m >= 0;
    var x := r * m / d;
    assert x * d <= r * m < x * d + d;
    assert v * m == q * m * d + r * m by {
      assert v * m == (q * d + r) * m;
    }
    assert (q * m + x) * d == q * m * d + x * d;
    QuotUnique(v * m, d, q * m + x);
  }

  lemma NegProduct(a: int, b: int)
    ensures -a * b == -(a * b)
  {
  }

  lemma QuotRemOdd(v: int, d: int)
    requires d > 0
    ensures Quot(-v, d) == -Quot(v, d)
    ensures Rem(-v, d) == -Rem(v, d)
  {
    NegProduct(Quot(v, d), d);
  }

  lemma MulDivOdd(v: int, m: int, d: int)
    requires d > 0
    ensures MulDiv(-v, m, d) == -MulDiv(v, m, d)
    ensures Rem(-v, d) * m == -(Rem(v, d) * m)
    ensures Quot(-v, d) * m == -(Quot(v, d) * m)
  {
    hide Quot;
    QuotRemOdd(v, d);
    NegProduct(Quot(v, d), m);
    hide Rem;
    NegProduct(Rem(v, d), m);
    QuotRemOdd(Rem(v, d) * m, d);
  }

  /** The split form computes the exact truncated quotient, for either sign. */
  lemma MulDivExact(v: int, m: int, d: int)
    requires m >= 0 && d > 0
    ensures MulDiv(v, m, d) == Quot(v * m, d)
  {
    if v >= 0 {
      MulDivExactNonNeg(v, m, d);
      assert v * m >= 0;
    } else {
      MulDivOdd(-v, m, d);
      MulDivExactNonNeg(-v, m, d);
      assert -v * m == -(v * m);
      assert -v * m >= 0;
    }
  }

  /** What the splitting is for: with 32-bit factors, one of them within 31 bits as
      SECOND is in every conversion, no intermediate value leaves the signed 64-bit
      range unless the result itself does, although v*m may. */
  lemma MulDivStaysIn64Bits(v: int, m: int, d: int)
    requires 0 <= m < 0x1_0000_0000 && 0 < d < 0x1_0000_0000 && (m < 0x8000_0000 || d < 0x8000_0000)
    ensures -0x8000_0000_0000_0000 < Rem(v, d) * m < 0x8000_0000_0000_0000
    ensures v >= 0 ==> 0 <= Quot(v, d) * m <= MulDiv(v, m, d)
    ensures v <= 0 ==> MulDiv(v, m, d) <= Quot(v, d) * m <= 0
  {
    if v < 0 {
      SplitNonNeg(-v, m, d);
      MulDivOdd(v, m, d);
    } else {
      SplitNonNeg(v, m, d);
    }
  }

  lemma QuotNonNeg(a: int, b: int)
    requires a >= 0 && b > 0
    ensures Quot(a, b) >= 0 && 0 <= Rem(a, b) < b
  {
  }

  lemma SplitNonNeg(v: int, m: int, d: int)
    requires v >= 0 && 0 <= m < 0x1_0000_0000 && 0 < d < 0x1_0000_0000 && (m < 0x8000_0000 || d < 0x8000_0000)
    ensures 0 <= Rem(v, d) * m < 0x8000_0000_0000_0000
    ensures 0 <= Quot(v, d) * m <= MulDiv(v, m, d)
  {
    hide Quot;
    hide Rem;
    QuotNonNeg(v, d);
    var r := Rem(v, d);
    ProductNonNeg(r, m);
    ScaleOrder(r, if d < 0x8000_0000 then 0x8000_0000 else 0x1_0000_0000, m);
    ProductNonNeg(Quot(v, d), m);
    QuotNonNeg(r * m, d);
  }

  lemma DivMonotone(a: int, b: int, d: int)
    requires a <= b && d > 0
    ensures a / d <= b / d
  {
    var p, q := a / d, b / d;
    assert p * d <= a && b < q * d + d;
    ScaleOrder(q + 1, p, d);
    assert (q + 1) * d == q * d + d;
  }

  lemma QuotMonotone(a: int, b: int, d: int)
    requires a <= b && d > 0
    ensures Quot(a, d) <= Quot(b, d)
  {
    if a >= 0 {
      DivMonotone(a, b, d);
    } else if b < 0 {
      DivMonotone(-b, -a, d);
    } else {
      DivMonotone(0, -a, d);
      DivMonotone(0, b, d);
    }
  }

  /** Conversions never reorder two instants. */
  lemma MulDivMonotone(a: int, b: int, m: int, d: int)
    requires a <= b && m >= 0 && d > 0
    ensures MulDiv(a, m, d) <= MulDiv(b, m, d)
  {
    MulDivExact(a, m, d);
    MulDivExact(b, m, d);
    ScaleOrder(a, b, m);
    QuotMonotone(a * m, b * m, d);
  }

  /** A non-negative conversion, as the two inequalities that pin it down. */
  lemma MulDivBounds(v: int, m: int, d: int)
    requires v >= 0 && m >= 0 && d > 0
    ensures 0 <= MulDiv(v, m, d)
    ensures MulDiv(v, m, d) * d <= v * m < MulDiv(v, m, d) * d + d
  {
    MulDivExactNonNeg(v, m, d);
    ScaleOrder(0, v, m);
    DivMonotone(0, v * m, d);
  }

  /** Whole seconds convert exactly. */
  lemma WholeSecond(rate: int)
    requires rate > 0
    ensures ToTicks(SECOND, rate) == rate
    ensures ToNanos(rate, rate) == SECOND
  {
    MulDivExactNonNeg(SECOND, rate, SECOND);
    QuotUnique(SECOND * rate, SECOND, rate);
    MulDivExactNonNeg(rate, SECOND, rate);
    QuotUnique(rate * SECOND, rate, SECOND);
  }

  /** Ticks to nanoseconds and back loses at most one tick. */
  lemma RoundTrip(v: int, rate: int)
    requires 0 < rate <= SECOND && v >= 0
    ensures v - 1 <= ToTicks(ToNanos(v, rate), rate) <= v
  {
    var n := ToNanos(v, rate);
    MulDivBounds(v, SECOND, rate);
    MulDivBounds(n, rate, SECOND);
    var t := ToTicks(n, rate);
    // n*rate lies in (v*SECOND - rate, v*SECOND], and t is its quotient by SECOND
    assert v * SECOND - SECOND <= v * SECOND - rate < n * rate <= v * SECOND;
    assert t * SECOND <= n * rate < t * SECOND + SECOND;
  }

  /** An instant before a tick's own instant converts to an earlier tick:
      the reason a placeholder written before a frame decodes before it. */
  lemma EarlierNanosEarlierTick(nanos: int, ticks: int, rate: int)
    requires rate > 0
    requires 0 <= nanos < ToNanos(ticks, rate)
    ensures ToTicks(nanos, rate) < ticks
  {
    if ticks <= 0 {
      MulDivMonotone(ticks, 0, SECOND, rate);
      assert false;
    } else {
      var n, t := ToNanos(ticks, rate), ToTicks(nanos, rate);
      MulDivBounds(ticks, SECOND, rate);
      MulDivBounds(nanos, rate, SECOND);
      ScaleOrder(nanos, n, rate);
      assert t * SECOND <= nanos * rate < ticks * SECOND;
    }
  }
}
