/**
 * The pulse mapper: the integer constants that fix the pulse scales and the
 * linear conversion between an angle in degrees and a pulse value between
 * the calibrated 0-degree and 180-degree endpoints.
 */
module Pulse {

  type uint16 = x: int | 0 <= x < 0x1_0000

  /** The length of one servo frame in microseconds. */
  const REFRESH_INTERVAL := 20000
  /** The PCA9685 divides one frame into this many units. */
  const PCA9685_UNITS_PER_FRAME := 4096

  const DEFAULT_MICROSECONDS_FOR_0_DEGREE := 544
  const DEFAULT_MICROSECONDS_FOR_180_DEGREE := 2400
  const DEFAULT_PCA9685_UNITS_FOR_0_DEGREE := 111
  const DEFAULT_PCA9685_UNITS_FOR_180_DEGREE := 491

  /** The prescaler that makes the 25 MHz oscillator of the PCA9685 produce 50 frames a second. */
  const PCA9685_PRESCALER_FOR_20_MS := (25000000 / (4096 * 50)) - 1

  function Abs(x: int): nat { if x < 0 then -x else x }
  function Min(x: int, y: int): int { if x <= y then x else y }
  function Max(x: int, y: int): int { if x <= y then y else x }

  /** Integer division rounding toward zero, as C's `/` does for signed operands. */
  function TruncDiv(a: int, b: int): (q: int)
    requires b != 0
    ensures Abs(q) == Abs(a) / Abs(b)
    ensures q < 0 ==> (a < 0) != (b < 0)
    ensures q > 0 ==> (a < 0) == (b < 0)
  {
    QuotientOfNatural(Abs(a), Abs(b));
    if (a < 0) == (b < 0) then Abs(a) / Abs(b) else -(Abs(a) / Abs(b))
  }

  /**
   * Microseconds to PCA9685 units of 20000/4096 microseconds each: the
   * largest whole number of units that is not longer than the pulse.
   */
  function MicrosecondsToPCA9685Units(us: uint16): (units: uint16)
    ensures units * REFRESH_INTERVAL <= us * PCA9685_UNITS_PER_FRAME < (units + 1) * REFRESH_INTERVAL
    ensures us < REFRESH_INTERVAL ==> units < PCA9685_UNITS_PER_FRAME
  {
    (PCA9685_UNITS_PER_FRAME * us) / REFRESH_INTERVAL
  }

  /** Angles outside [0, 180] are clamped to the nearer end. */
  function ClampDegree(degree: int): (d: int)
    ensures 0 <= d <= 180
    ensures 0 <= degree <= 180 ==> d == degree
    ensures degree < 0 ==> d == 0
    ensures degree > 180 ==> d == 180
  {
    if degree < 0 then 0 else if degree > 180 then 180 else degree
  }

  /** The exact position on the line from lo (0 degrees) to hi (180 degrees). */
  function ExactPulse(degree: real, lo: int, hi: int): real
  {
    lo as real + degree * (hi - lo) as real / 180.0
  }

  /**
   * The pulse for an angle: the clamped angle mapped linearly from [0, 180]
   * onto [lo, hi] in integer arithmetic, the quotient truncated toward zero
   * as C's integer division does.
   */
  function DegreeToPulse(degree: int, lo: int, hi: int): (pulse: int)
    ensures ClampDegree(degree) == 0 ==> pulse == lo
    ensures ClampDegree(degree) == 180 ==> pulse == hi
    ensures Min(lo, hi) <= pulse <= Max(lo, hi)
  {
    var a := ClampDegree(degree);
    var e := Abs(hi - lo);
    MulBounds(a, 180, e);
    lo + (if hi >= lo then (a * e) / 180 else -((a * e) / 180))
  }

  /**
   * The angle of a pulse: the inverse linear map, truncated toward zero and
   * clamped to [0, 180]. A calibration whose two endpoints coincide maps
   * every angle to the same pulse, and its angle is taken to be 0.
   */
  function PulseToDegree(pulse: int, lo: int, hi: int): (degree: int)
    ensures 0 <= degree <= 180
    ensures pulse == lo ==> degree == 0
    ensures lo != hi && pulse == hi ==> degree == 180
  {
    if lo == hi then 0
    else
      EndpointQuotients(lo, hi);
      ClampDegree(TruncDiv((pulse - lo) * 180, hi - lo))
  }

  /** The inverse map sends lo to 0 and hi to 180 before clamping. */
  lemma {:induction false} EndpointQuotients(lo: int, hi: int)
    requires lo != hi
    ensures TruncDiv(0, hi - lo) == 0
    ensures TruncDiv((hi - lo) * 180, hi - lo) == 180
  {
    var e := Abs(hi - lo);
    FloorDivUnique(0, e, 0);
    assert Abs((hi - lo) * 180) == 180 * e;
    FloorDivUnique(180 * e, e, 180);
  }

  /** 0 <= a * e <= c * e when 0 <= a <= c and e >= 0. */
  lemma {:induction false} MulBounds(a: int, c: int, e: int)
    requires 0 <= a <= c && e >= 0
    ensures 0 <= a * e <= c * e
  {
  }

  /** A quotient of a natural number by a positive one is natural. */
  lemma {:induction false} QuotientOfNatural(x: int, y: int)
    requires x >= 0 && y > 0
    ensures x / y >= 0
  {
    var q := x / y;
    if q < 0 {
      MulBounds(1, -q, y);
    }
  }

  /** The only multiple of a positive e strictly between -e and e is 0. */
  lemma {:induction false} SmallMultiple(d: int, e: int)
    requires e > 0 && -e < d * e < e
    ensures d == 0
  {
    if d >= 1 {
      MulBounds(1, d, e);
    } else if d <= -1 {
      MulBounds(1, -d, e);
    }
  }

  /** Floor division by a positive e is pinned down by its two bounds. */
  lemma {:induction false} FloorDivUnique(c: int, e: int, x: int)
    requires e > 0 && x * e <= c < x * e + e
    ensures c / e == x
  {
    var q := c / e;
    assert (q - x) * e == q * e - x * e;
    SmallMultiple(q - x, e);
  }

  /** The integer pulse lies within one unit of the exact line, on the side of lo. */
  lemma {:induction false} DegreeToPulseNearExact(a: int, lo: int, hi: int)
    requires 0 <= a <= 180
    ensures var e := ExactPulse(a as real, lo, hi) - lo as real;
            var d := (DegreeToPulse(a, lo, hi) - lo) as real;
            (if hi >= lo then d <= e < d + 1.0 else d - 1.0 < e <= d)
  {
    var e := Abs(hi - lo);
    var m := a * e;
    var k := m / 180;
    assert k * 180 <= m < k * 180 + 180;
    assert (k as real) * 180.0 <= m as real < (k as real) * 180.0 + 180.0;
    assert (a * (hi - lo)) as real == (a as real) * ((hi - lo) as real);
    if hi >= lo {
      assert a * (hi - lo) == m;
      assert DegreeToPulse(a, lo, hi) - lo == k;
    } else {
      assert a * (hi - lo) == -m;
      assert DegreeToPulse(a, lo, hi) - lo == -k;
    }
  }

  /** On the exact line, reversing the endpoints is the same as mirroring the angle. */
  lemma ExactReversal(a: real, lo: int, hi: int)
    ensures ExactPulse(a, hi, lo) == ExactPulse(180.0 - a, lo, hi)
  {
  }

  /**
   * With integer truncation, reversing the endpoints equals mirroring the
   * angle exactly when 180 divides a * (hi - lo); otherwise the two differ
   * by one unit in the direction from lo to hi.
   */
  lemma {:induction false} IntegerReversal(a: int, lo: int, hi: int)
    requires 0 <= a <= 180
    ensures (a * (hi - lo)) % 180 == 0 ==> DegreeToPulse(a, hi, lo) == DegreeToPulse(180 - a, lo, hi)
    ensures (a * (hi - lo)) % 180 != 0 ==>
      DegreeToPulse(a, hi, lo) == DegreeToPulse(180 - a, lo, hi) + (if hi >= lo then 1 else -1)
  {
    var e := Abs(hi - lo);
    var m := a * e;
    assert (180 - a) * e == 180 * e - m;
    ComplementQuotient(m, e);
    SignedRemainder(a, lo, hi);
  }

  /** Splitting 180 * e into m and the rest splits the quotients by 180 the same way, less one unless 180 divides m. */
  lemma {:induction false} ComplementQuotient(m: int, e: int)
    ensures m % 180 == 0 ==> (180 * e - m) / 180 == e - m / 180
    ensures m % 180 != 0 ==> (180 * e - m) / 180 == e - m / 180 - 1
  {
  }

  /** 180 divides a * (hi - lo) exactly when it divides a * |hi - lo|. */
  lemma {:induction false} SignedRemainder(a: int, lo: int, hi: int)
    ensures (a * (hi - lo)) % 180 == 0 <==> (a * Abs(hi - lo)) % 180 == 0
  {
    if hi < lo {
      assert a * (hi - lo) == -(a * Abs(hi - lo));
    }
  }

  /**
   * Reading back the angle of a commanded angle loses at most one degree when
   * the endpoints are at least 180 units apart, and nothing when 180
   * divides a * (hi - lo).
   */
  lemma {:induction false} DegreeRoundTrip(a: int, lo: int, hi: int)
    requires 0 <= a <= 180
    requires Abs(hi - lo) >= 180
    ensures var back := PulseToDegree(DegreeToPulse(a, lo, hi), lo, hi);
            back == a || back == a - 1
    ensures (a * (hi - lo)) % 180 == 0 ==> PulseToDegree(DegreeToPulse(a, lo, hi), lo, hi) == a
  {
    var e := Abs(hi - lo);
    var m := a * e;
    var k := m / 180;
    var c := k * 180;
    var pulse := DegreeToPulse(a, lo, hi);
    assert (pulse - lo) * 180 == if hi >= lo then c else -c;
    QuotientOfNatural(m, 180);
    TruncDivBySign(c, e, hi < lo);
    if m % 180 == 0 {
      FloorDivUnique(c, e, a);
    } else {
      // (a - 1) * e == m - e <= m - 180 < c < m == a * e
      assert (a - 1) * e == m - e;
      FloorDivUnique(c, e, a - 1);
    }
    SignedRemainder(a, lo, hi);
  }

  /** Dividing c by e, or -c by -e, truncates to the floor quotient of the two magnitudes. */
  lemma {:induction false} TruncDivBySign(c: int, e: int, negate: bool)
    requires c >= 0 && e > 0
    ensures TruncDiv(if negate then -c else c, if negate then -e else e) == c / e
  {
    if c == 0 {
      FloorDivUnique(0, e, 0);
    }
  }

  /** A larger angle never gives a pulse further back toward lo. */
  lemma {:induction false} DegreeToPulseMonotone(a: int, b: int, lo: int, hi: int)
    requires 0 <= a <= b <= 180
    ensures hi >= lo ==> DegreeToPulse(a, lo, hi) <= DegreeToPulse(b, lo, hi)
    ensures hi <= lo ==> DegreeToPulse(a, lo, hi) >= DegreeToPulse(b, lo, hi)
  {
    var e := Abs(hi - lo);
    MulBounds(a, b, e);
    assert (a * e) / 180 <= (b * e) / 180;
  }

  /** The default PCA9685 endpoints are the default microsecond endpoints in units. */
  lemma DefaultUnitsMatchMicroseconds()
    ensures MicrosecondsToPCA9685Units(DEFAULT_MICROSECONDS_FOR_0_DEGREE) == DEFAULT_PCA9685_UNITS_FOR_0_DEGREE
    ensures MicrosecondsToPCA9685Units(DEFAULT_MICROSECONDS_FOR_180_DEGREE) == DEFAULT_PCA9685_UNITS_FOR_180_DEGREE
  {
  }

  /** The prescaler is 121 and divides the 25 MHz oscillator down to 50 frames of 4096 units a second. */
  lemma PrescalerGives50Hz()
    ensures PCA9685_PRESCALER_FOR_20_MS == 121
    ensures 25000000 / (PCA9685_UNITS_PER_FRAME * (PCA9685_PRESCALER_FOR_20_MS + 1)) == 50
    ensures 50 * REFRESH_INTERVAL == 1000000
  {
  }
}
