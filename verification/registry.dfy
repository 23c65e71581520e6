/**
 * The list of all servos, kept so that they can be moved in step: a
 * fixed-capacity array filled in the order the servos are attached, a
 * counter, and the next-position array the group moves read their targets
 * from. The group operations are specified by functions on the sequence of
 * the servos' moves.
 */
module Registry {
  import opened EasingTypes
  import opened EasingFunctions
  import opened Pulse
  import opened Servo

  /** Whether every move in the sequence keeps the move invariants. */
  predicate AllValid(ms: seq<MoveState>)
  {
    forall k :: 0 <= k < |ms| ==> ValidMove(ms[k])
  }

  /** Whether any of the moves is running. */
  predicate AnyMoving(ms: seq<MoveState>)
  {
    exists k :: 0 <= k < |ms| && ms[k].moving
  }

  /** One tick of every move, each with its own user ease-in function. */
  function TickAll(ms: seq<MoveState>, now: uint32, lib: Library, users: seq<real -> real>): (r: seq<MoveState>)
    requires |users| == |ms| && AllValid(ms)
    ensures |r| == |ms| && AllValid(r)
    ensures forall k :: 0 <= k < |ms| ==> r[k] == Tick(ms[k], now, lib, users[k])
  {
    seq(|ms|, k requires 0 <= k < |ms| => Tick(ms[k], now, lib, users[k]))
  }

  /** Every move stopped where it stands. */
  function StopAll(ms: seq<MoveState>): (r: seq<MoveState>)
    ensures |r| == |ms|
    ensures forall k :: 0 <= k < |ms| ==> r[k] == ms[k].(moving := false)
  {
    seq(|ms|, k requires 0 <= k < |ms| => ms[k].(moving := false))
  }

  /** Every move given the easing type `t`. */
  function WithEasingType(ms: seq<MoveState>, t: bv8): (r: seq<MoveState>)
    ensures |r| == |ms|
    ensures forall k :: 0 <= k < |ms| ==> r[k] == ms[k].(easingType := t)
  {
    seq(|ms|, k requires 0 <= k < |ms| => ms[k].(easingType := t))
  }

  /** The outcome of asking every servo to move to its target at `degreesPerSecond`. */
  function EaseAllTo(ms: seq<MoveState>, cs: seq<Calibration>, targets: seq<int>, degreesPerSecond: nat, now: uint32)
    : (r: seq<MoveState>)
    requires |cs| == |ms| && |targets| == |ms| && AllValid(ms)
    ensures |r| == |ms| && AllValid(r)
    ensures forall k :: 0 <= k < |ms| ==> r[k] == EaseToOutcome(ms[k], cs[k], targets[k], degreesPerSecond, now)
  {
    seq(|ms|, k requires 0 <= k < |ms| => EaseToOutcome(ms[k], cs[k], targets[k], degreesPerSecond, now))
  }

  /** Whether any servo accepts the move to its target. */
  predicate AnyAccepts(ms: seq<MoveState>, cs: seq<Calibration>, targets: seq<int>, degreesPerSecond: nat)
    requires |cs| == |ms| && |targets| == |ms|
  {
    exists k :: 0 <= k < |ms| && AcceptsEaseTo(ms[k], cs[k], targets[k], degreesPerSecond)
  }

  /** The longest duration among the moves that are running, 0 when none is. */
  function MaxMillisForCompleteMove(ms: seq<MoveState>): (r: nat)
    ensures forall i :: 0 <= i < |ms| && ms[i].moving ==> ms[i].millisForCompleteMove <= r
    ensures r == 0 || exists i :: 0 <= i < |ms| && ms[i].moving && ms[i].millisForCompleteMove == r
  {
    if ms == [] then 0
    else
      var rest := MaxMillisForCompleteMove(ms[..|ms| - 1]);
      var last := ms[|ms| - 1];
      if last.moving && last.millisForCompleteMove > rest then last.millisForCompleteMove else rest
  }

  /** A running move stretched to `millisForMove`, restarted at `now`; a stopped one is left alone. */
  function Synchronized(m: MoveState, millisForMove: nat, now: uint32): (r: MoveState)
    ensures r.current == m.current && r.start == m.start && r.end == m.end && r.moving == m.moving
    ensures m.moving ==> r.millisForCompleteMove == millisForMove && r.millisAtStartMove == now
    ensures !m.moving ==> r == m
  {
    if m.moving then m.(millisForCompleteMove := millisForMove, millisAtStartMove := now) else m
  }

  /** Every running move given the duration `max` and the start time `now`. */
  function RetimeAll(ms: seq<MoveState>, max: nat, now: uint32): (r: seq<MoveState>)
    requires AllValid(ms)
    requires forall k :: 0 <= k < |ms| && ms[k].moving ==> ms[k].millisForCompleteMove <= max
    ensures |r| == |ms| && AllValid(r)
    ensures forall k :: 0 <= k < |ms| ==> r[k] == Synchronized(ms[k], max, now)
  {
    seq(|ms|, k requires 0 <= k < |ms| => Synchronized(ms[k], max, now))
  }

  /** Every running move stretched to the longest running duration and restarted at `now`. */
  function SynchronizeAll(ms: seq<MoveState>, now: uint32): (r: seq<MoveState>)
    requires AllValid(ms)
    ensures |r| == |ms| && AllValid(r)
    ensures forall k :: 0 <= k < |ms| ==> r[k] == Synchronized(ms[k], MaxMillisForCompleteMove(ms), now)
  {
    RetimeAll(ms, MaxMillisForCompleteMove(ms), now)
  }

  /**
   * After synchronizing, no running move is shorter than it was, any two
   * running moves last equally long and start together, and on every tick
   * they either both go on or both stop.
   */
  lemma {:induction false} SynchronizedStopTogether(ms: seq<MoveState>, now: uint32, t: uint32, lib: Library,
                                                    users: seq<real -> real>, i: nat, j: nat)
    requires AllValid(ms) && |users| == |ms|
    requires i < |ms| && j < |ms| && ms[i].moving && ms[j].moving
    ensures var r := SynchronizeAll(ms, now);
            && r[i].millisForCompleteMove >= ms[i].millisForCompleteMove
            && r[i].millisForCompleteMove == r[j].millisForCompleteMove == MaxMillisForCompleteMove(ms)
            && r[i].millisAtStartMove == r[j].millisAtStartMove == now
            && TickAll(r, t, lib, users)[i].moving == TickAll(r, t, lib, users)[j].moving
  {
    var r := SynchronizeAll(ms, now);
    SameTimingStopsTogether(r[i], r[j], t, lib, users[i], users[j]);
  }

  /** Stopping every servo leaves none moving, and further ticks change nothing. */
  lemma {:induction false} StopAllIsFinal(ms: seq<MoveState>, now: uint32, lib: Library, users: seq<real -> real>)
    requires AllValid(ms) && |users| == |ms|
    ensures AllValid(StopAll(ms))
    ensures !AnyMoving(StopAll(ms))
    ensures TickAll(StopAll(ms), now, lib, users) == StopAll(ms)
  {
    var r := StopAll(ms);
    assert forall k :: 0 <= k < |r| ==> ValidMove(r[k]) && !r[k].moving;
  }

  /** A tick never starts a move: if some servo is moving after a tick, it was moving before. */
  lemma {:induction false} TickAllNeverStarts(ms: seq<MoveState>, now: uint32, lib: Library, users: seq<real -> real>)
    requires AllValid(ms) && |users| == |ms|
    ensures AnyMoving(TickAll(ms, now, lib, users)) ==> AnyMoving(ms)
    ensures !AnyMoving(ms) ==> TickAll(ms, now, lib, users) == ms
  {
    var r := TickAll(ms, now, lib, users);
    if AnyMoving(r) {
      var k :| 0 <= k < |r| && r[k].moving;
      assert ms[k].moving;
    }
    if !AnyMoving(ms) {
      assert forall k :: 0 <= k < |ms| ==> r[k] == ms[k];
    }
  }

  /** A servo that is already moving keeps its move when all are asked to move. */
  lemma {:induction false} EaseAllToKeepsRunningMoves(ms: seq<MoveState>, cs: seq<Calibration>, targets: seq<int>,
                                                      degreesPerSecond: nat, now: uint32, k: nat)
    requires |cs| == |ms| && |targets| == |ms| && AllValid(ms)
    requires k < |ms| && ms[k].moving
    ensures EaseAllTo(ms, cs, targets, degreesPerSecond, now)[k] == ms[k]
  {
    EaseToRefusedWhileMoving(ms[k], cs[k], targets[k], degreesPerSecond, now);
  }

  class ServoRegistry {
    const maxServos: nat
    var servoArray: array<ServoEasing?>
    var servoNextPositionArray: array<int>
    var servoCounter: nat
    /** The attached servos, in the order they were attached. */
    ghost var Servos: seq<ServoEasing>

    ghost predicate Valid()
      reads this, servoArray, Servos
    {
      && servoArray.Length == maxServos
      && servoNextPositionArray.Length == maxServos
      && servoCounter == |Servos| <= maxServos
      && (forall i :: 0 <= i < |Servos| ==> servoArray[i] == Servos[i])
      && (forall i :: 0 <= i < |Servos| ==> Servos[i].servoIndex == i && Servos[i].Valid())
    }

    /** The moves of all attached servos, in order. */
    ghost function States(): (ss: seq<MoveState>)
      reads this, Servos
      ensures |ss| == |Servos|
      ensures forall i :: 0 <= i < |Servos| ==> ss[i] == Servos[i].State()
    {
      seq(|Servos|, i reads this, Servos requires 0 <= i < |Servos| => Servos[i].State())
    }

    /** The calibrations of all attached servos, in order. */
    ghost function Setups(): (cs: seq<Calibration>)
      reads this, Servos
      ensures |cs| == |Servos|
      ensures forall i :: 0 <= i < |Servos| ==> cs[i] == Servos[i].Setup()
    {
      seq(|Servos|, i reads this, Servos requires 0 <= i < |Servos| => Servos[i].Setup())
    }

    /** The user ease-in functions of all attached servos, in order. */
    ghost function Users(): (us: seq<real -> real>)
      reads this, Servos
      ensures |us| == |Servos|
      ensures forall i :: 0 <= i < |Servos| ==> us[i] == Servos[i].userEaseInFunction
    {
      seq(|Servos|, i reads this, Servos requires 0 <= i < |Servos| => Servos[i].userEaseInFunction)
    }

    /** The next positions of the attached servos, in order. */
    ghost function NextPositions(): (ps: seq<int>)
      reads this, servoArray, servoNextPositionArray, Servos
      requires Valid()
      ensures |ps| == |Servos|
    {
      servoNextPositionArray[..servoCounter]
    }

    constructor (maxServos: nat)
      ensures Valid() && Servos == [] && this.maxServos == maxServos
      ensures fresh(servoArray) && fresh(servoNextPositionArray)
    {
      this.maxServos := maxServos;
      servoArray := new ServoEasing?[maxServos](_ => null);
      servoNextPositionArray := new int[maxServos](_ => 0);
      servoCounter := 0;
      Servos := [];
    }

    /**
     * Attaches a servo to `pin` with the pulse lengths for 0 and 180 degrees
     * in microseconds: it takes the next slot, or is refused when all slots
     * are taken.
     */
    method Attach(s: ServoEasing, pin: int, microsecondsFor0Degree: uint16, microsecondsFor180Degree: uint16)
      returns (slot: Option<nat>)
      requires Valid() && s.Valid() && s !in Servos
      modifies this, servoArray, s
      ensures Valid() && servoArray == old(servoArray) && servoNextPositionArray == old(servoNextPositionArray)
      ensures |Servos| <= maxServos
      ensures old(|Servos|) < maxServos ==>
        && slot == Some(old(|Servos|))
        && Servos == old(Servos) + [s]
        && States() == old(States()) + [old(s.State())]
        && Setups() == old(Setups()) + [s.Setup()]
        && Users() == old(Users()) + [old(s.userEaseInFunction)]
        && s.Setup() == old(s.Setup()).(servoPin := pin, servoIndex := old(|Servos|),
             servo0DegreeMicrosecondsOrUnits :=
               if s.usesPCA9685Units then MicrosecondsToPCA9685Units(microsecondsFor0Degree) else microsecondsFor0Degree,
             servo180DegreeMicrosecondsOrUnits :=
               if s.usesPCA9685Units then MicrosecondsToPCA9685Units(microsecondsFor180Degree) else microsecondsFor180Degree)
      ensures old(|Servos|) >= maxServos ==> slot == None && Servos == old(Servos) && unchanged(s)
    {
      if servoCounter >= servoArray.Length {
        return None;
      }
      s.SetPinAndEndpoints(pin, servoCounter, microsecondsFor0Degree, microsecondsFor180Degree);
      servoArray[servoCounter] := s;
      slot := Some(servoCounter);
      servoCounter := servoCounter + 1;
      Servos := Servos + [s];
    }

    /** Attaches a servo with the default endpoints of 544 and 2400 microseconds. */
    method AttachDefault(s: ServoEasing, pin: int) returns (slot: Option<nat>)
      requires Valid() && s.Valid() && s !in Servos
      modifies this, servoArray, s
      ensures Valid() && servoArray == old(servoArray) && servoNextPositionArray == old(servoNextPositionArray)
      ensures |Servos| <= maxServos
      ensures old(|Servos|) < maxServos ==>
        && slot == Some(old(|Servos|))
        && Servos == old(Servos) + [s]
        && States() == old(States()) + [old(s.State())]
        && Setups() == old(Setups()) + [s.Setup()]
        && Users() == old(Users()) + [old(s.userEaseInFunction)]
        && s.Setup() == old(s.Setup()).(servoPin := pin, servoIndex := old(|Servos|),
             servo0DegreeMicrosecondsOrUnits :=
               if s.usesPCA9685Units then DEFAULT_PCA9685_UNITS_FOR_0_DEGREE else DEFAULT_MICROSECONDS_FOR_0_DEGREE,
             servo180DegreeMicrosecondsOrUnits :=
               if s.usesPCA9685Units then DEFAULT_PCA9685_UNITS_FOR_180_DEGREE else DEFAULT_MICROSECONDS_FOR_180_DEGREE)
      ensures old(|Servos|) >= maxServos ==> slot == None && Servos == old(Servos) && unchanged(s)
    {
      DefaultUnitsMatchMicroseconds();
      slot := Attach(s, pin, DEFAULT_MICROSECONDS_FOR_0_DEGREE, DEFAULT_MICROSECONDS_FOR_180_DEGREE);
    }

    /** Sets the angle the next group move takes the servo in `slot` to. */
    method SetNextPosition(slot: nat, degree: int)
      requires Valid() && slot < servoCounter
      modifies servoNextPositionArray
      ensures Valid() && States() == old(States())
      ensures NextPositions() == old(NextPositions())[slot := degree]
    {
      servoNextPositionArray[slot] := degree;
    }

    /** Answers whether any attached servo is moving. */
    method IsOneServoMoving() returns (moving: bool)
      requires Valid()
      ensures moving == AnyMoving(States())
    {
      var i := 0;
      while i < servoCounter
        invariant 0 <= i <= servoCounter
        invariant forall k :: 0 <= k < i ==> !Servos[k].servoMoves
      {
        if servoArray[i].servoMoves {
          assert States()[i].moving;
          return true;
        }
        i := i + 1;
      }
      return false;
    }

    /** Stops the servo in `slot` where it stands. */
    method StopServo(slot: nat)
      requires Valid() && slot < |Servos|
      modifies Servos[slot]
      ensures Valid()
      ensures States() == old(States())[slot := old(States())[slot].(moving := false)]
      ensures Setups() == old(Setups()) && Users() == old(Users())
    {
      servoArray[slot].servoMoves := false;
    }

    /** Stops every attached servo where it stands. */
    method StopAllServos()
      requires Valid()
      modifies Servos
      ensures Valid()
      ensures States() == StopAll(old(States()))
      ensures Setups() == old(Setups()) && Users() == old(Users())
    {
      ghost var before := States();
      ghost var after := StopAll(before);
      var i := 0;
      while i < servoCounter
        invariant 0 <= i <= servoCounter
        invariant Valid()
        invariant |States()| == |before|
        invariant forall k :: 0 <= k < i ==> States()[k] == after[k]
        invariant forall k :: i <= k < |before| ==> States()[k] == before[k]
        invariant Setups() == old(Setups()) && Users() == old(Users())
      {
        StopServo(i);
        i := i + 1;
      }
    }

    /** Gives the servo in `slot` the easing type `t`. */
    method SetEasingTypeOfServo(slot: nat, t: bv8)
      requires Valid() && slot < |Servos| && Decode(t).Some?
      modifies Servos[slot]
      ensures Valid()
      ensures States() == old(States())[slot := old(States())[slot].(easingType := t)]
      ensures Setups() == old(Setups()) && Users() == old(Users())
    {
      servoArray[slot].SetEasingType(t);
    }

    /** Gives every attached servo the same easing type. */
    method SetEasingTypeForAllServos(easingType: bv8)
      requires Valid() && Decode(easingType).Some?
      modifies Servos
      ensures Valid()
      ensures States() == WithEasingType(old(States()), easingType)
      ensures Setups() == old(Setups()) && Users() == old(Users())
    {
      ghost var before := States();
      ghost var after := WithEasingType(before, easingType);
      var i := 0;
      while i < servoCounter
        invariant 0 <= i <= servoCounter
        invariant Valid()
        invariant |States()| == |before|
        invariant forall k :: 0 <= k < i ==> States()[k] == after[k]
        invariant forall k :: i <= k < |before| ==> States()[k] == before[k]
        invariant Setups() == old(Setups()) && Users() == old(Users())
      {
        SetEasingTypeOfServo(i, easingType);
        i := i + 1;
      }
    }

    /** Ticks the servo in `slot` once at clock time `now`; answers whether it has stopped. */
    method UpdateServo(slot: nat, now: uint32, lib: Library) returns (finished: bool)
      requires Valid() && slot < |Servos|
      modifies Servos[slot]
      ensures Valid()
      ensures States() == old(States())[slot := Tick(old(States())[slot], now, lib, Users()[slot])]
      ensures Setups() == old(Setups()) && Users() == old(Users())
      ensures finished == !States()[slot].moving
    {
      finished := servoArray[slot].Update(now, lib);
    }

    /** Ticks every attached servo once at clock time `now`; answers whether any is still moving. */
    method UpdateAllServos(now: uint32, lib: Library) returns (anyMoving: bool)
      requires Valid()
      modifies Servos
      ensures Valid()
      ensures AllValid(old(States())) && States() == TickAll(old(States()), now, lib, Users())
      ensures Setups() == old(Setups()) && Users() == old(Users())
      ensures anyMoving == AnyMoving(States())
    {
      ghost var before := States();
      ghost var after := TickAll(before, now, lib, Users());
      anyMoving := false;
      var i := 0;
      while i < servoCounter
        invariant 0 <= i <= servoCounter
        invariant Valid()
        invariant |States()| == |before|
        invariant forall k :: 0 <= k < i ==> States()[k] == after[k]
        invariant forall k :: i <= k < |before| ==> States()[k] == before[k]
        invariant Setups() == old(Setups()) && Users() == old(Users())
        invariant anyMoving <==> exists k :: 0 <= k < i && after[k].moving
      {
        var finished := UpdateServo(i, now, lib);
        anyMoving := anyMoving || !finished;
        i := i + 1;
      }
    }

    /** Gives the servo in `slot`, if it is moving, the duration `maxMillis` and the start time `now`. */
    method RetimeServo(slot: nat, maxMillis: nat, now: uint32)
      requires Valid() && slot < |Servos|
      requires Servos[slot].servoMoves ==> Servos[slot].millisForCompleteMove <= maxMillis
      modifies Servos[slot]
      ensures Valid()
      ensures States() == old(States())[slot := Synchronized(old(States())[slot], maxMillis, now)]
      ensures Setups() == old(Setups()) && Users() == old(Users())
    {
      var s := servoArray[slot];
      if s.servoMoves {
        s.millisForCompleteMove := maxMillis;
        s.millisAtStartMove := now;
      }
    }

    /** Gives every moving servo the duration `maxMillis` and the start time `now`. */
    method RetimeMovingServos(maxMillis: nat, now: uint32)
      requires Valid()
      requires forall k :: 0 <= k < |Servos| && Servos[k].servoMoves ==> Servos[k].millisForCompleteMove <= maxMillis
      modifies Servos
      ensures Valid()
      ensures AllValid(old(States())) && States() == RetimeAll(old(States()), maxMillis, now)
      ensures Setups() == old(Setups()) && Users() == old(Users())
    {
      ghost var before := States();
      ghost var after := RetimeAll(before, maxMillis, now);
      var i := 0;
      while i < servoCounter
        invariant 0 <= i <= servoCounter
        invariant Valid()
        invariant |States()| == |before|
        invariant forall k :: 0 <= k < i ==> States()[k] == after[k]
        invariant forall k :: i <= k < |before| ==> States()[k] == before[k]
        invariant Setups() == old(Setups()) && Users() == old(Users())
      {
        assert States()[i] == before[i];
        RetimeServo(i, maxMillis, now);
        i := i + 1;
      }
    }

    /**
     * Stretches every running move to the longest running duration and
     * restarts them all at clock time `now`, so that they finish together.
     */
    method SynchronizeAllServos(now: uint32)
      requires Valid()
      modifies Servos
      ensures Valid()
      ensures AllValid(old(States())) && States() == SynchronizeAll(old(States()), now)
      ensures Setups() == old(Setups()) && Users() == old(Users())
    {
      ghost var before := States();
      var maxMillis := 0;
      var i := 0;
      while i < servoCounter
        invariant 0 <= i <= servoCounter
        invariant maxMillis == MaxMillisForCompleteMove(before[..i])
      {
        assert before[..i + 1][..i] == before[..i];
        var s := servoArray[i];
        if s.servoMoves && s.millisForCompleteMove > maxMillis {
          maxMillis := s.millisForCompleteMove;
        }
        i := i + 1;
      }
      assert before[..servoCounter] == before;
      RetimeMovingServos(maxMillis, now);
    }

    /** Asks the servo in `slot` to move to its next position at `degreesPerSecond`; answers whether it accepted. */
    method EaseServoToNextPosition(slot: nat, degreesPerSecond: nat, now: uint32) returns (ok: bool)
      requires Valid() && slot < |Servos|
      modifies Servos[slot]
      ensures Valid()
      ensures ok == AcceptsEaseTo(old(States())[slot], old(Setups())[slot], old(NextPositions())[slot], degreesPerSecond)
      ensures |States()| == |old(States())|
      ensures States()[slot] == EaseToOutcome(old(States())[slot], old(Setups())[slot],
                                              old(NextPositions())[slot], degreesPerSecond, now)
      ensures forall k :: 0 <= k < |Servos| && k != slot ==> States()[k] == old(States())[k]
      ensures Setups() == old(Setups()) && Users() == old(Users()) && NextPositions() == old(NextPositions())
    {
      ok := servoArray[slot].StartEaseTo(servoNextPositionArray[slot], degreesPerSecond, now);
    }

    /**
     * Starts, on every attached servo, a move at `degreesPerSecond` to its
     * next position; answers whether at least one servo accepted its move.
     */
    method SetEaseToForAllServos(degreesPerSecond: nat, now: uint32) returns (anyStarted: bool)
      requires Valid()
      modifies Servos
      ensures Valid()
      ensures AllValid(old(States()))
      ensures States() == EaseAllTo(old(States()), Setups(), NextPositions(), degreesPerSecond, now)
      ensures anyStarted == AnyAccepts(old(States()), Setups(), NextPositions(), degreesPerSecond)
      ensures Setups() == old(Setups()) && Users() == old(Users()) && NextPositions() == old(NextPositions())
    {
      ghost var before, cs, ps := States(), Setups(), NextPositions();
      ghost var after := EaseAllTo(before, cs, ps, degreesPerSecond, now);
      anyStarted := false;
      var i := 0;
      while i < servoCounter
        invariant 0 <= i <= servoCounter
        invariant Valid()
        invariant |States()| == |before|
        invariant forall k :: 0 <= k < i ==> States()[k] == after[k]
        invariant forall k :: i <= k < |before| ==> States()[k] == before[k]
        invariant Setups() == cs && Users() == old(Users()) && NextPositions() == ps
        invariant anyStarted <==> exists k :: 0 <= k < i && AcceptsEaseTo(before[k], cs[k], ps[k], degreesPerSecond)
      {
        var ok := EaseServoToNextPosition(i, degreesPerSecond, now);
        anyStarted := anyStarted || ok;
        i := i + 1;
      }
    }

    /**
     * Starts every servo toward its next position at `degreesPerSecond`, then
     * stretches the moves that were started so that all finish together.
     */
    method SynchronizeAndEaseToArrayPositions(degreesPerSecond: nat, now: uint32)
      requires Valid()
      modifies Servos
      ensures Valid()
      ensures AllValid(old(States()))
      ensures States() == SynchronizeAll(EaseAllTo(old(States()), Setups(), NextPositions(), degreesPerSecond, now), now)
      ensures Setups() == old(Setups()) && Users() == old(Users()) && NextPositions() == old(NextPositions())
    {
      var _ := SetEaseToForAllServos(degreesPerSecond, now);
      SynchronizeAllServos(now);
    }
  }
}
