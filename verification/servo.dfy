/**
 * One servo: the move it is executing (start, end, delta, timing, easing),
 * its calibration (0- and 180-degree endpoints, reversal, trim), and the
 * operations that configure a move and advance it by one tick.
 */
module Servo {
  import opened EasingTypes
  import opened CallStyles
  import opened EasingFunctions
  import opened Pulse

  type uint32 = x: int | 0 <= x < 0x1_0000_0000

  const MILLIS_RANGE := 0x1_0000_0000

  /** Milliseconds from `since` to `now` on the 32-bit millisecond clock, which wraps around. */
  function Elapsed(now: uint32, since: uint32): (d: uint32)
    ensures (since + d) % MILLIS_RANGE == now
    ensures now >= since ==> d == now - since
  {
    (now - since) % MILLIS_RANGE
  }

  /** Unsigned subtraction gives the right elapsed time even across a wrap of the clock. */
  lemma ElapsedAcrossWrap(since: uint32, d: uint32)
    ensures Elapsed((since + d) % MILLIS_RANGE, since) == d
  {
    if since + d >= MILLIS_RANGE {
      assert (since + d) % MILLIS_RANGE == since + d - MILLIS_RANGE;
    }
  }

  /** Rounding to the nearest integer, halves upward. */
  function Round(x: real): (n: int)
    ensures x - 0.5 < n as real <= x + 0.5
  {
    (x + 0.5).Floor
  }

  /** The pulse at eased progress `eased` along the way from `start` by `delta`. */
  function Interpolate(start: int, delta: int, eased: real): (pulse: int)
    ensures start as real + delta as real * eased - 0.5 < pulse as real <= start as real + delta as real * eased + 0.5
  {
    start + Round(delta as real * eased)
  }

  /** Progress 0 is the start, progress 1 the end, and progress in between stays in between. */
  lemma {:induction false} InterpolateWithin(start: int, delta: int, eased: real)
    requires 0.0 <= eased <= 1.0
    ensures eased == 0.0 ==> Interpolate(start, delta, eased) == start
    ensures eased == 1.0 ==> Interpolate(start, delta, eased) == start + delta
    ensures Min(start, start + delta) <= Interpolate(start, delta, eased) <= Max(start, start + delta)
  {
    var x := delta as real * eased;
    var n := Round(x);
    if delta >= 0 {
      ProductMonotone(delta as real, delta as real, eased, 1.0);
      assert 0.0 <= x <= delta as real;
      assert 0 <= n <= delta;
    } else {
      ProductMonotone(-delta as real, -delta as real, eased, 1.0);
      assert (-delta as real) * eased == -x;
      assert delta as real <= x <= 0.0;
      assert delta <= n <= 0;
    }
  }

  /** The state of a move, as the fields of a servo hold it. */
  datatype MoveState = MoveState(
    current: int,
    start: int,
    end: int,
    delta: int,
    easingType: bv8,
    moving: bool,
    millisAtStartMove: uint32,
    millisForCompleteMove: nat)

  /** The invariants every move keeps. */
  predicate ValidMove(m: MoveState)
  {
    && m.delta == m.end - m.start
    && Decode(m.easingType).Some?
    && (m.moving ==> m.millisForCompleteMove > 0)
  }

  /** The call style of a valid move. */
  function StyleOf(m: MoveState): CallStyle
    requires ValidMove(m)
  {
    Decode(m.easingType).value.style
  }

  /** Where a finished move leaves the servo: a bouncing move returns to its start point. */
  function FinalPulse(m: MoveState): (pulse: int)
    requires ValidMove(m)
    ensures pulse == m.start || pulse == m.end
  {
    if StyleOf(m) == BouncingOutIn then m.start else m.end
  }

  /** The fraction of the move's time that has passed, below 1 while the move lasts. */
  function Completion(m: MoveState, now: uint32): (p: real)
    requires m.millisForCompleteMove > 0
    requires Elapsed(now, m.millisAtStartMove) < m.millisForCompleteMove
    ensures 0.0 <= p < 1.0
  {
    var e, d := Elapsed(now, m.millisAtStartMove) as real, m.millisForCompleteMove as real;
    QuotientBelowOne(e, d);
    e / d
  }

  lemma QuotientBelowOne(e: real, d: real)
    requires 0.0 <= e < d
    ensures 0.0 <= e / d < 1.0
  {
    var q := e / d;
    assert q * d == e;
    if q >= 1.0 {
      ProductMonotone(1.0, q, d, d);
    }
  }

  /**
   * One tick of a move at clock time `now`: a stopped move stays as it is;
   * a move whose time is up is set to its final pulse and stops; otherwise the
   * pulse is recomputed from the elapsed time alone.
   */
  function Tick(m: MoveState, now: uint32, lib: Library, user: real -> real): (r: MoveState)
    requires ValidMove(m)
    ensures ValidMove(r)
    ensures r == m.(current := r.current, moving := r.moving)
    ensures !m.moving ==> r == m
    ensures r.moving ==> m.moving
  {
    if !m.moving then m
    else if Elapsed(now, m.millisAtStartMove) >= m.millisForCompleteMove then
      m.(current := FinalPulse(m), moving := false)
    else
      var eased := CallEasingFunction(Decode(m.easingType).value, lib, user, Completion(m, now));
      m.(current := Interpolate(m.start, m.delta, eased))
  }

  /**
   * A new move from wherever the servo is now to `target`, lasting
   * `millisForMove` milliseconds from clock time `now`.
   */
  function StartMove(m: MoveState, target: int, millisForMove: nat, now: uint32): (r: MoveState)
    requires ValidMove(m) && millisForMove > 0
    ensures ValidMove(r) && r.moving
    ensures r.start == m.current == r.current && r.end == target
    ensures r.millisAtStartMove == now && r.millisForCompleteMove == millisForMove
    ensures r.easingType == m.easingType
  {
    m.(start := m.current, end := target, delta := target - m.current, moving := true,
       millisAtStartMove := now, millisForCompleteMove := millisForMove)
  }

  /** The duration of a move over `distance` degrees at `degreesPerSecond`, in milliseconds. */
  function MillisForMove(distance: nat, degreesPerSecond: nat): (millis: nat)
    requires degreesPerSecond > 0
    ensures millis * degreesPerSecond <= distance * 1000 < (millis + 1) * degreesPerSecond
  {
    (distance * 1000) / degreesPerSecond
  }

  /** At the same speed a longer way never takes less time. */
  lemma {:induction false} MillisForMoveMonotone(d1: nat, d2: nat, degreesPerSecond: nat)
    requires degreesPerSecond > 0 && d1 <= d2
    ensures MillisForMove(d1, degreesPerSecond) <= MillisForMove(d2, degreesPerSecond)
  {
    var s := degreesPerSecond;
    var q1, q2 := (d1 * 1000) / s, (d2 * 1000) / s;
    if q1 > q2 {
      MulBounds(q2 + 1, q1, s);
    }
  }

  /** Once a move has stopped, further ticks change nothing. */
  lemma TickIdempotentWhenStopped(m: MoveState, t1: uint32, t2: uint32, lib: Library, user: real -> real)
    requires ValidMove(m)
    requires !Tick(m, t1, lib, user).moving
    ensures Tick(Tick(m, t1, lib, user), t2, lib, user) == Tick(m, t1, lib, user)
  {
  }

  /**
   * A running move's pulse depends only on the time, never on the pulse the
   * previous tick left, so no error accumulates from tick to tick.
   */
  lemma TickRecomputesFromTime(m: MoveState, x: int, now: uint32, lib: Library, user: real -> real)
    requires ValidMove(m) && m.moving
    ensures Tick(m.(current := x), now, lib, user) == Tick(m, now, lib, user)
  {
  }

  /** When the time is up the move stops, exactly at its final pulse. */
  lemma TickCompletes(m: MoveState, now: uint32, lib: Library, user: real -> real)
    requires ValidMove(m) && m.moving
    requires Elapsed(now, m.millisAtStartMove) >= m.millisForCompleteMove
    ensures Tick(m, now, lib, user).current == FinalPulse(m)
    ensures !Tick(m, now, lib, user).moving
    ensures StyleOf(m) != BouncingOutIn ==> Tick(m, now, lib, user).current == m.end
  {
  }

  /**
   * The final pulse is exactly where the eased curve ends, when the
   * family's ease-in function runs from 0 to 1: the end for DIRECT, OUT and
   * IN_OUT, the start again for BOUNCING_OUT_IN.
   */
  lemma {:induction false} FinalPulseIsCurveEnd(m: MoveState, lib: Library, user: real -> real)
    requires ValidMove(m)
    requires Normalized(FamilyFunction(Decode(m.easingType).value.family, lib, user))
    ensures FinalPulse(m) == Interpolate(m.start, m.delta, CallEasingFunction(Decode(m.easingType).value, lib, user, 1.0))
  {
    var t := Decode(m.easingType).value;
    var f := FamilyFunction(t.family, lib, user);
    var e := CallEasingFunction(t, lib, user, 1.0);
    match t.style {
      case Direct => DirectAndOutEndpoints(f);
      case Out => DirectAndOutEndpoints(f);
      case InOut => InOutEndpoints(f);
      case BouncingOutIn => BouncingEndpoints(f);
    }
    InterpolateWithin(m.start, m.delta, e);
  }

  /** At the instant a move starts, its pulse is its start pulse. */
  lemma {:induction false} TickAtStartOfMove(m: MoveState, now: uint32, lib: Library, user: real -> real)
    requires ValidMove(m) && m.moving
    requires Elapsed(now, m.millisAtStartMove) == 0
    requires Normalized(FamilyFunction(Decode(m.easingType).value.family, lib, user))
    ensures Tick(m, now, lib, user).current == m.start
    ensures Tick(m, now, lib, user).moving
  {
    var t := Decode(m.easingType).value;
    var f := FamilyFunction(t.family, lib, user);
    assert Completion(m, now) == 0.0;
    match t.style {
      case Direct => DirectAndOutEndpoints(f);
      case Out => DirectAndOutEndpoints(f);
      case InOut => InOutEndpoints(f);
      case BouncingOutIn => BouncingEndpoints(f);
    }
    InterpolateWithin(m.start, m.delta, 0.0);
  }

  /**
   * With an ease-in function that stays in [0, 1] (every family but Back and
   * Elastic), a tick never moves the servo outside the range from the
   * start to the end of the move.
   */
  lemma {:induction false} TickStaysBetween(m: MoveState, now: uint32, lib: Library, user: real -> real)
    requires ValidMove(m) && m.moving
    requires BoundedOnUnit(FamilyFunction(Decode(m.easingType).value.family, lib, user))
    ensures Min(m.start, m.end) <= Tick(m, now, lib, user).current <= Max(m.start, m.end)
  {
    if Elapsed(now, m.millisAtStartMove) < m.millisForCompleteMove {
      var t := Decode(m.easingType).value;
      var p := Completion(m, now);
      StylesStayInUnit(t.style, FamilyFunction(t.family, lib, user), p);
      InterpolateWithin(m.start, m.delta, CallEasingFunction(t, lib, user, p));
    }
  }

  /**
   * A started move begins where the servo stood and arrives at its target
   * when its time is up, whatever the clock read when it started.
   */
  lemma {:induction false} StartedMoveArrives(m: MoveState, target: int, millisForMove: uint32, now: uint32, lib: Library, user: real -> real)
    requires ValidMove(m) && millisForMove > 0
    requires Normalized(FamilyFunction(Decode(m.easingType).value.family, lib, user))
    requires StyleOf(m) != BouncingOutIn
    ensures Tick(StartMove(m, target, millisForMove, now), now, lib, user).current == m.current
    ensures var done := Tick(StartMove(m, target, millisForMove, now), (now + millisForMove) % MILLIS_RANGE, lib, user);
            done.current == target && !done.moving
  {
    var s := StartMove(m, target, millisForMove, now);
    assert Elapsed(now, now) == 0;
    TickAtStartOfMove(s, now, lib, user);
    ElapsedAcrossWrap(now, millisForMove);
    TickCompletes(s, (now + millisForMove) % MILLIS_RANGE, lib, user);
  }

  /** Moves that share a start time and a duration stop on the same tick. */
  lemma SameTimingStopsTogether(m1: MoveState, m2: MoveState, now: uint32, lib: Library, u1: real -> real, u2: real -> real)
    requires ValidMove(m1) && ValidMove(m2) && m1.moving && m2.moving
    requires m1.millisAtStartMove == m2.millisAtStartMove
    requires m1.millisForCompleteMove == m2.millisForCompleteMove
    ensures Tick(m1, now, lib, u1).moving == Tick(m2, now, lib, u2).moving
  {
  }

  /**
   * A linear move from 544 to 2400 microseconds over one second passes 1472
   * at half time, is at 2400 and stopped at the end, and stays there.
   */
  lemma LinearMoveExample(t0: uint32, lib: Library, user: real -> real)
    requires t0 + 1500 < MILLIS_RANGE
    ensures var m := MoveState(544, 544, 2400, 1856, EASE_LINEAR, true, t0, 1000);
            && ValidMove(m)
            && Tick(m, t0, lib, user).current == 544
            && Tick(m, t0 + 500, lib, user).current == 1472
            && Tick(m, t0 + 1000, lib, user).current == 2400
            && !Tick(m, t0 + 1000, lib, user).moving
            && Tick(Tick(m, t0 + 1000, lib, user), t0 + 1500, lib, user) == Tick(m, t0 + 1000, lib, user)
  {
    var m := MoveState(544, 544, 2400, 1856, EASE_LINEAR, true, t0, 1000);
    PolynomialTypesMeaning();
    assert Elapsed(t0 + 500, t0) == 500;
    assert Completion(m, t0 + 500) == 0.5;
    assert CallEasingFunction(Decode(EASE_LINEAR).value, lib, user, 0.5) == 0.5;
    assert Round(1856.0 * 0.5) == 928;
    assert Elapsed(t0, t0) == 0;
    assert Completion(m, t0) == 0.0;
    assert Elapsed(t0 + 1000, t0) == 1000;
  }

  /** The calibration of a servo: what maps angles to pulses and pulses to output. */
  datatype Calibration = Calibration(
    servoPin: int,
    servoIndex: int,
    operateServoReverse: bool,
    trimMicrosecondsOrUnits: int,
    servo0DegreeMicrosecondsOrUnits: int,
    servo180DegreeMicrosecondsOrUnits: int)

  /** The endpoint pair angles are mapped onto: the 0- and 180-degree values swapped when reversed. */
  function MappingEndpoints(c: Calibration): (e: (int, int))
    ensures e.0 == c.servo0DegreeMicrosecondsOrUnits || e.0 == c.servo180DegreeMicrosecondsOrUnits
    ensures e.0 + e.1 == c.servo0DegreeMicrosecondsOrUnits + c.servo180DegreeMicrosecondsOrUnits
  {
    if c.operateServoReverse then (c.servo180DegreeMicrosecondsOrUnits, c.servo0DegreeMicrosecondsOrUnits)
    else (c.servo0DegreeMicrosecondsOrUnits, c.servo180DegreeMicrosecondsOrUnits)
  }

  /**
   * An unreversed servo maps 0 degrees to its 0-degree endpoint; turning
   * reversal on or off swaps the pair the angles are mapped onto.
   */
  lemma ReversalSwapsEndpoints(c: Calibration)
    ensures MappingEndpoints(c.(operateServoReverse := false))
         == (c.servo0DegreeMicrosecondsOrUnits, c.servo180DegreeMicrosecondsOrUnits)
    ensures var flipped := MappingEndpoints(c.(operateServoReverse := !c.operateServoReverse));
            flipped == (MappingEndpoints(c).1, MappingEndpoints(c).0)
  {
  }

  /** The pulse for an angle under a calibration; trim is not part of it. */
  function DegreeToMicrosecondsOrUnits(c: Calibration, degree: int): (pulse: int)
    ensures Min(c.servo0DegreeMicrosecondsOrUnits, c.servo180DegreeMicrosecondsOrUnits) <= pulse
    ensures pulse <= Max(c.servo0DegreeMicrosecondsOrUnits, c.servo180DegreeMicrosecondsOrUnits)
    ensures ClampDegree(degree) == 0 ==>
      pulse == if c.operateServoReverse then c.servo180DegreeMicrosecondsOrUnits else c.servo0DegreeMicrosecondsOrUnits
    ensures ClampDegree(degree) == 180 ==>
      pulse == if c.operateServoReverse then c.servo0DegreeMicrosecondsOrUnits else c.servo180DegreeMicrosecondsOrUnits
  {
    DegreeToPulse(degree, MappingEndpoints(c).0, MappingEndpoints(c).1)
  }

  /** The angle of a pulse under a calibration, in [0, 180]; trim is not part of it. */
  function MicrosecondsOrUnitsToDegree(c: Calibration, pulse: int): (degree: int)
    ensures 0 <= degree <= 180
    ensures pulse == MappingEndpoints(c).0 ==> degree == 0
    ensures MappingEndpoints(c).0 != MappingEndpoints(c).1 && pulse == MappingEndpoints(c).1 ==> degree == 180
  {
    PulseToDegree(pulse, MappingEndpoints(c).0, MappingEndpoints(c).1)
  }

  /**
   * Reversal swaps the endpoints: a reversed servo at angle a stands where
   * an unreversed one stands at 180 - a, exactly when 180 divides
   * a * (hi - lo) and otherwise within one unit of truncation.
   */
  lemma {:induction false} ReversedMapping(c: Calibration, a: int)
    requires 0 <= a <= 180 && c.operateServoReverse
    ensures var lo, hi := c.servo0DegreeMicrosecondsOrUnits, c.servo180DegreeMicrosecondsOrUnits;
            var d := DegreeToMicrosecondsOrUnits(c, a) - DegreeToMicrosecondsOrUnits(c.(operateServoReverse := false), 180 - a);
            ((a * (hi - lo)) % 180 == 0 ==> d == 0) && -1 <= d <= 1
  {
    IntegerReversal(a, c.servo0DegreeMicrosecondsOrUnits, c.servo180DegreeMicrosecondsOrUnits);
  }

  /** The angle a servo stands at, read back from its current pulse without trim. */
  function CurrentAngle(m: MoveState, c: Calibration): (degree: int)
    ensures 0 <= degree <= 180
  {
    MicrosecondsOrUnitsToDegree(c, m.current)
  }

  /** Whether a move to `degree` at `degreesPerSecond` is accepted: not while moving, and not for a zero duration. */
  predicate AcceptsEaseTo(m: MoveState, c: Calibration, degree: int, degreesPerSecond: nat)
  {
    !m.moving && degreesPerSecond > 0
    && MillisForMove(Abs(ClampDegree(degree) - CurrentAngle(m, c)), degreesPerSecond) > 0
  }

  /** The move after a request to go to `degree` at `degreesPerSecond`: the new move if accepted, the old one otherwise. */
  function EaseToOutcome(m: MoveState, c: Calibration, degree: int, degreesPerSecond: nat, now: uint32): (r: MoveState)
    requires ValidMove(m)
    ensures ValidMove(r)
    ensures !AcceptsEaseTo(m, c, degree, degreesPerSecond) ==> r == m
    ensures AcceptsEaseTo(m, c, degree, degreesPerSecond) ==>
      r.moving && r.start == m.current == r.current && r.end == DegreeToMicrosecondsOrUnits(c, degree)
      && r.millisAtStartMove == now && r.easingType == m.easingType
      && r.millisForCompleteMove == MillisForMove(Abs(ClampDegree(degree) - CurrentAngle(m, c)), degreesPerSecond)
  {
    if AcceptsEaseTo(m, c, degree, degreesPerSecond) then
      StartMove(m, DegreeToMicrosecondsOrUnits(c, degree),
                MillisForMove(Abs(ClampDegree(degree) - CurrentAngle(m, c)), degreesPerSecond), now)
    else m
  }

  /** A servo that is moving refuses a new move and keeps the one it has. */
  lemma EaseToRefusedWhileMoving(m: MoveState, c: Calibration, degree: int, degreesPerSecond: nat, now: uint32)
    requires ValidMove(m) && m.moving
    ensures !AcceptsEaseTo(m, c, degree, degreesPerSecond)
    ensures EaseToOutcome(m, c, degree, degreesPerSecond, now) == m
  {
  }

  /** The value handed to `write`: an angle in degrees, or a pulse in the servo's own unit. */
  datatype WriteValue = AngleValue(degree: int) | PulseValue(pulse: int)

  /**
   * A servo driven by ServoEasing. Pulses are microseconds, or PCA9685 units
   * of 20000/4096 microseconds when the servo sits on a PCA9685 expander.
   */
  class ServoEasing {
    const usesPCA9685Units: bool

    var currentMicrosecondsOrUnits: int
    var startMicrosecondsOrUnits: int
    var endMicrosecondsOrUnits: int
    var deltaMicrosecondsOrUnits: int
    var easingType: bv8
    var servoMoves: bool
    var servoPin: int
    var servoIndex: int
    var userEaseInFunction: real -> real
    var millisAtStartMove: uint32
    var millisForCompleteMove: nat
    var operateServoReverse: bool
    var trimMicrosecondsOrUnits: int
    var servo0DegreeMicrosecondsOrUnits: int
    var servo180DegreeMicrosecondsOrUnits: int

    /** The move this servo is executing. */
    function State(): MoveState
      reads this
    {
      MoveState(currentMicrosecondsOrUnits, startMicrosecondsOrUnits, endMicrosecondsOrUnits,
        deltaMicrosecondsOrUnits, easingType, servoMoves, millisAtStartMove, millisForCompleteMove)
    }

    /** Everything about this servo that a move does not change. */
    function Setup(): Calibration
      reads this
    {
      Calibration(servoPin, servoIndex, operateServoReverse, trimMicrosecondsOrUnits,
        servo0DegreeMicrosecondsOrUnits, servo180DegreeMicrosecondsOrUnits)
    }

    ghost predicate Valid()
      reads this
    {
      ValidMove(State())
    }

    /** A servo that is not yet attached: linear easing, not moving, no trim, not reversed. */
    constructor (usesPCA9685Units: bool)
      ensures Valid() && !servoMoves && easingType == EASE_LINEAR
      ensures this.usesPCA9685Units == usesPCA9685Units
      ensures !operateServoReverse && trimMicrosecondsOrUnits == 0
      ensures servo0DegreeMicrosecondsOrUnits ==
        if usesPCA9685Units then DEFAULT_PCA9685_UNITS_FOR_0_DEGREE else DEFAULT_MICROSECONDS_FOR_0_DEGREE
      ensures servo180DegreeMicrosecondsOrUnits ==
        if usesPCA9685Units then DEFAULT_PCA9685_UNITS_FOR_180_DEGREE else DEFAULT_MICROSECONDS_FOR_180_DEGREE
    {
      this.usesPCA9685Units := usesPCA9685Units;
      currentMicrosecondsOrUnits, startMicrosecondsOrUnits, endMicrosecondsOrUnits := 0, 0, 0;
      deltaMicrosecondsOrUnits := 0;
      easingType := EASE_LINEAR;
      servoMoves := false;
      servoPin, servoIndex := 0, 0;
      userEaseInFunction := p => p;
      millisAtStartMove, millisForCompleteMove := 0, 0;
      operateServoReverse := false;
      trimMicrosecondsOrUnits := 0;
      if usesPCA9685Units {
        servo0DegreeMicrosecondsOrUnits := DEFAULT_PCA9685_UNITS_FOR_0_DEGREE;
        servo180DegreeMicrosecondsOrUnits := DEFAULT_PCA9685_UNITS_FOR_180_DEGREE;
      } else {
        servo0DegreeMicrosecondsOrUnits := DEFAULT_MICROSECONDS_FOR_0_DEGREE;
        servo180DegreeMicrosecondsOrUnits := DEFAULT_MICROSECONDS_FOR_180_DEGREE;
      }
      PolynomialTypesMeaning();
    }

    /**
     * The servo's own part of attaching: its pin, its slot in the registry and
     * its endpoints, converted to PCA9685 units when it sits on an expander.
     */
    method SetPinAndEndpoints(pin: int, index: int, microsecondsFor0Degree: uint16, microsecondsFor180Degree: uint16)
      requires Valid()
      modifies this
      ensures Valid() && State() == old(State())
      ensures Setup() == old(Setup()).(servoPin := pin, servoIndex := index,
        servo0DegreeMicrosecondsOrUnits :=
          if usesPCA9685Units then MicrosecondsToPCA9685Units(microsecondsFor0Degree) else microsecondsFor0Degree,
        servo180DegreeMicrosecondsOrUnits :=
          if usesPCA9685Units then MicrosecondsToPCA9685Units(microsecondsFor180Degree) else microsecondsFor180Degree)
      ensures userEaseInFunction == old(userEaseInFunction)
    {
      servoPin, servoIndex := pin, index;
      if usesPCA9685Units {
        servo0DegreeMicrosecondsOrUnits := MicrosecondsToPCA9685Units(microsecondsFor0Degree);
        servo180DegreeMicrosecondsOrUnits := MicrosecondsToPCA9685Units(microsecondsFor180Degree);
      } else {
        servo0DegreeMicrosecondsOrUnits := microsecondsFor0Degree;
        servo180DegreeMicrosecondsOrUnits := microsecondsFor180Degree;
      }
    }

    /** The angle the servo stands at, read back from its current pulse without trim. */
    function GetCurrentAngle(): (degree: int)
      reads this
      ensures 0 <= degree <= 180
    {
      CurrentAngle(State(), Setup())
    }

    /** The value handed to the output: the current pulse plus the trim. */
    function OutputValue(): int
      reads this
    {
      currentMicrosecondsOrUnits + trimMicrosecondsOrUnits
    }

    method SetReverseOperation(operateServoReverse: bool)
      requires Valid()
      modifies this
      ensures Valid() && State() == old(State())
      ensures Setup() == old(Setup()).(operateServoReverse := operateServoReverse)
      ensures userEaseInFunction == old(userEaseInFunction)
    {
      this.operateServoReverse := operateServoReverse;
    }

    /** Trim moves only the output; the move and the angle read back stay as they were. */
    method SetTrimMicrosecondsOrUnits(trim: int)
      requires Valid()
      modifies this
      ensures Valid() && State() == old(State())
      ensures Setup() == old(Setup()).(trimMicrosecondsOrUnits := trim)
      ensures GetCurrentAngle() == old(GetCurrentAngle())
      ensures OutputValue() == currentMicrosecondsOrUnits + trim
      ensures userEaseInFunction == old(userEaseInFunction)
    {
      trimMicrosecondsOrUnits := trim;
    }

    method SetEasingType(easingType: bv8)
      requires Valid() && Decode(easingType).Some?
      modifies this
      ensures Valid() && State() == old(State()).(easingType := easingType)
      ensures Setup() == old(Setup()) && userEaseInFunction == old(userEaseInFunction)
    {
      this.easingType := easingType;
    }

    method GetEasingType() returns (t: bv8)
      requires Valid()
      ensures t == easingType && Decode(t).Some?
    {
      t := easingType;
    }

    method RegisterUserEaseInFunction(f: real -> real)
      requires Valid()
      modifies this
      ensures Valid() && State() == old(State()) && Setup() == old(Setup())
      ensures userEaseInFunction == f
    {
      userEaseInFunction := f;
    }

    /** Sets the current pulse and hands it, plus trim, to the output. */
    method WriteMicrosecondsOrUnits(value: int) returns (output: int)
      requires Valid()
      modifies this
      ensures Valid() && State() == old(State()).(current := value)
      ensures Setup() == old(Setup()) && userEaseInFunction == old(userEaseInFunction)
      ensures output == value + trimMicrosecondsOrUnits == OutputValue()
    {
      currentMicrosecondsOrUnits := value;
      output := value + trimMicrosecondsOrUnits;
    }

    /**
     * Moves straight to an angle or to a pulse, ending any move in progress;
     * an angle goes through the calibration first.
     */
    method Write(value: WriteValue) returns (output: int)
      requires Valid()
      modifies this
      ensures Valid()
      ensures value.AngleValue? ==>
        State() == old(State()).(current := DegreeToMicrosecondsOrUnits(old(Setup()), value.degree), moving := false)
      ensures value.PulseValue? ==> State() == old(State()).(current := value.pulse, moving := false)
      ensures Setup() == old(Setup()) && userEaseInFunction == old(userEaseInFunction)
      ensures output == OutputValue()
    {
      servoMoves := false;
      var pulse := if value.AngleValue? then DegreeToMicrosecondsOrUnits(Setup(), value.degree) else value.pulse;
      output := WriteMicrosecondsOrUnits(pulse);
    }

    /**
     * Starts a move to an angle that lasts `millisForMove` milliseconds from
     * clock time `now`. Refused while a move is running or for a zero duration.
     */
    method StartEaseToD(degree: int, millisForMove: uint16, now: uint32) returns (ok: bool)
      requires Valid()
      modifies this
      ensures Valid()
      ensures ok == (!old(servoMoves) && millisForMove > 0)
      ensures ok ==> State() == StartMove(old(State()), DegreeToMicrosecondsOrUnits(old(Setup()), degree), millisForMove, now)
      ensures !ok ==> State() == old(State())
      ensures Setup() == old(Setup()) && userEaseInFunction == old(userEaseInFunction)
    {
      if servoMoves || millisForMove == 0 {
        return false;
      }
      var target := DegreeToMicrosecondsOrUnits(Setup(), degree);
      startMicrosecondsOrUnits := currentMicrosecondsOrUnits;
      endMicrosecondsOrUnits := target;
      deltaMicrosecondsOrUnits := endMicrosecondsOrUnits - startMicrosecondsOrUnits;
      millisForCompleteMove := millisForMove;
      millisAtStartMove := now;
      servoMoves := true;
      ok := true;
    }

    /**
     * Starts a move to an angle at `degreesPerSecond`: its duration is the
     * angular distance from the current angle divided by the speed. Refused
     * while a move is running, for speed 0 and when the duration comes to 0.
     */
    method StartEaseTo(degree: int, degreesPerSecond: nat, now: uint32) returns (ok: bool)
      requires Valid()
      modifies this
      ensures Valid()
      ensures ok == AcceptsEaseTo(old(State()), old(Setup()), degree, degreesPerSecond)
      ensures State() == EaseToOutcome(old(State()), old(Setup()), degree, degreesPerSecond, now)
      ensures Setup() == old(Setup()) && userEaseInFunction == old(userEaseInFunction)
    {
      if servoMoves || degreesPerSecond == 0 {
        return false;
      }
      var millisForMove := MillisForMove(Abs(ClampDegree(degree) - GetCurrentAngle()), degreesPerSecond);
      if millisForMove == 0 {
        return false;
      }
      ghost var m := State();
      var target := DegreeToMicrosecondsOrUnits(Setup(), degree);
      startMicrosecondsOrUnits := currentMicrosecondsOrUnits;
      endMicrosecondsOrUnits := target;
      deltaMicrosecondsOrUnits := endMicrosecondsOrUnits - startMicrosecondsOrUnits;
      millisForCompleteMove := millisForMove;
      millisAtStartMove := now;
      servoMoves := true;
      ok := true;
      assert State() == StartMove(m, target, millisForMove, now);
    }

    /** Advances the move to clock time `now`; answers whether the servo has stopped. */
    method Update(now: uint32, lib: Library) returns (finished: bool)
      requires Valid()
      modifies this
      ensures Valid()
      ensures State() == Tick(old(State()), now, lib, userEaseInFunction)
      ensures Setup() == old(Setup()) && userEaseInFunction == old(userEaseInFunction)
      ensures finished == !servoMoves
    {
      if !servoMoves {
        return true;
      }
      if Elapsed(now, millisAtStartMove) >= millisForCompleteMove {
        currentMicrosecondsOrUnits := FinalPulse(State());
        servoMoves := false;
        return true;
      }
      var p := Completion(State(), now);
      var eased := CallEasingFunction(Decode(easingType).value, lib, userEaseInFunction, p);
      currentMicrosecondsOrUnits := Interpolate(startMicrosecondsOrUnits, deltaMicrosecondsOrUnits, eased);
      finished := false;
    }
  }
}
