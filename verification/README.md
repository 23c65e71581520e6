# ServoEasing in Dafny

A model of the core of ServoEasing, an Arduino library that moves hobby
servos along eased trajectories. Every move has a start pulse, an end pulse
and a duration. On every tick the servo's pulse is recomputed from the
fraction of the duration that has passed. That fraction goes through an
easing function before the start and end pulses are interpolated.

The model has six modules:

- `EasingTypes` (`easing_type.dfy`): the easing-type byte. The upper three
  bits hold the call style (DIRECT, OUT, IN_OUT, BOUNCING_OUT_IN). The lower
  four bits hold the family (linear, quadratic, cubic, quartic, sine,
  circular, back, elastic, bounce, user). Includes the byte codec and every
  named constant.
- `CallStyles` (`call_style.dfy`): the call-style transformer. One "ease-in"
  function `f` from completion to progress is reused for the OUT, IN_OUT
  and BOUNCING_OUT_IN variants by converting the argument it is called with
  and the result it gives.
- `EasingFunctions` (`easing_functions.dfy`): the polynomial ease-in
  functions, and the dispatch from an easing type to the progress it gives.
  The functions built on sin, cos, sqrt and pow are parameters (a
  `Library` value).
- `Pulse` (`pulse.dfy`): the pulse constants (microsecond and PCA9685 unit
  endpoints, the PCA9685 prescaler). Also the linear conversion between an
  angle and a pulse between calibrated endpoints, in C integer arithmetic.
- `Servo` (`servo.dfy`): one servo. `MoveState` is the move in progress and
  `Calibration` holds pin, index, reversal, trim and endpoints. `Tick`,
  `StartMove` and `EaseToOutcome` are the transitions of a move, and the
  class `ServoEasing` holds the fields the library's class updates in place.
  Each of its methods is proved against those functions through the views
  `State()` and `Setup()`.
- `Registry` (`registry.dfy`): the list of all servos, used to move them
  together. The class `ServoRegistry` holds a fixed-capacity array filled in
  attach order, a counter and the next-position array. Each group operation
  is proved against a function on the sequence of the servos' moves
  (`TickAll`, `StopAll`, `WithEasingType`, `EaseAllTo`, `SynchronizeAll`).

Only the header `src/ServoEasing.h` is modelled. The bodies of the
library's functions are in `src/ServoEasing.cpp`, which is not part of this
model. Where the header fixes behaviour (constants, call-style rules, field
meanings, signatures), the model follows it. Where only a body could, the
behaviour is the model's own choice:

- `startEaseTo` and `startEaseToD` refuse a move while the servo is moving,
  at speed 0, and when the duration comes to 0.
- `write` ends a move in progress, and its caller says whether the value is
  an angle or a pulse.
- Angles outside [0, 180] are clamped to the nearer end.
- A tick rounds the interpolated pulse to the nearest integer, halves upward.
- A calibration whose two endpoints coincide reads every pulse back as 0
  degrees.
- Synchronizing retimes only the moves that are running: the common
  duration is the longest running one, and stopped servos are left as they
  are.
- `update` answers true once the servo has stopped, while `updateAllServos`
  answers true as long as any servo is still moving. The header declares
  both as returning `bool` without saying what the answer means.
- `setEaseToForAllServosSynchronizeAndStartInterrupt` and
  `synchronizeServosAndStartInterrupt` are only declared; their effects on
  the moves are taken to be those of `SynchronizeAndEaseToArrayPositions`
  and `SynchronizeAllServos`.

Two further choices settle points where the header can be read two ways:

- **Where a finished bouncing move ends.** The header says that the end
  pulse is "used once as last value" when a move finishes
  (src/ServoEasing.h:255). It also says that BOUNCING_OUT_IN returns to the
  start point (src/ServoEasing.h:117-119), and its curve is back at 0 at
  completion 1. The model takes the second reading for that style:
  `FinalPulse` is the start for BOUNCING_OUT_IN and the end for every other
  style. With the end pulse, a bouncing move that is back near its start
  would jump to its end on the last tick.
- **What reversal does.** The header implements reversal by swapping the
  stored 0- and 180-degree endpoints (src/ServoEasing.h:275). The model keeps
  reversal as a flag instead and swaps the pair only when it maps an angle
  (`MappingEndpoints`); the stored endpoints never change. On the real line
  mapping through the swapped pair is the same as mapping 180 - a instead of
  a (`ExactReversal`). In integer
  arithmetic with truncation, the two agree when 180 divides a * (hi - lo)
  and otherwise differ by one unit. `IntegerReversal` and `ReversedMapping`
  prove exactly this.

## Model

| member | source | states |
|---|---|---|
| EasingTypes.StyleCode | src/ServoEasing.h:121-125 | each call-style code lies inside the style mask and has no family bits |
| EasingTypes.FamilyCode | src/ServoEasing.h:131-179 | each family code lies inside the family mask and has no style bits |
| EasingTypes.DecodeStyle | src/ServoEasing.h:121-125 | a byte has a call style exactly when its masked upper bits are one of the four style codes, and that style's code is those bits |
| EasingTypes.DecodeFamily | src/ServoEasing.h:131-179 | a byte has no family exactly when its lower four bits are 4-7, 13 or 14; otherwise the family's code is those bits |
| EasingTypes.Encode | src/ServoEasing.h:127-131 | the style mask of the byte gives the style code, the family mask gives the family code, and bit 4 is clear |
| EasingTypes.Decode | src/ServoEasing.h:121-179 | a byte decodes exactly when both halves decode, and re-encoding gives the byte's two masked parts |
| EasingTypes.MasksDisjoint | src/ServoEasing.h:125-131 | the two masks are disjoint, and a byte equals the OR of its masked parts exactly when bit 4 is clear |
| EasingTypes.StyleCodesDistinct | src/ServoEasing.h:121-125 | the four style codes are pairwise distinct and survive the style mask |
| EasingTypes.DecodeEncode | src/ServoEasing.h:121-179 | every (style, family) pair round-trips through its byte |
| EasingTypes.EncodeDecode | src/ServoEasing.h:121-179 | a byte that decodes re-encodes to itself with bit 4 cleared |
| EasingTypes.DecodeIgnoresBit4 | src/ServoEasing.h:125-131 | decoding reads only the bits the two masks select |
| EasingTypes.NamedTypesSplit | src/ServoEasing.h:133-179 | every named easing constant is the OR of its two masked parts, decodes, and is re-encoded exactly |
| EasingTypes.PolynomialTypesMeaning | src/ServoEasing.h:133-148 | the linear, quadratic, cubic and quartic constants decode to the style and family their names give |
| EasingTypes.LibraryTypesMeaning | src/ServoEasing.h:150-169 | the sine, circular, back and elastic constants decode to the style and family their names give |
| EasingTypes.BounceAndUserTypesMeaning | src/ServoEasing.h:171-179 | EASE_BOUNCE_IN is OUT and EASE_BOUNCE_OUT is DIRECT of the bounce primitive, and the user constants decode to their styles |
| CallStyles.EaseInArgument | src/ServoEasing.h:111-120 | on completion in [0, 1] every style calls f inside [0, 1]; DIRECT passes p and OUT passes 1 - p |
| CallStyles.ConvertResult | src/ServoEasing.h:111-120 | the result of f becomes the progress: unchanged for DIRECT, 1 minus it for OUT and BOUNCING_OUT_IN, and a result in [0, 1] gives progress in [0, 1]; the IN_OUT halves are in InOutHalves |
| CallStyles.Apply | src/ServoEasing.h:111-120 | DIRECT gives f(p), OUT gives 1 - f(1 - p), and progress is in [0, 1] whenever f's result is; the IN_OUT and bouncing rules are carried by InOutEndpoints, InOutHalves, BouncingIsOutTwiceAsFast, StylesStayInUnit and StylesPreserveMonotone |
| CallStyles.OutOf | src/ServoEasing.h:113 | the OUT form of f is the OUT call style applied to f at every point |
| CallStyles.DirectAndOutEndpoints | src/ServoEasing.h:112-113 | when f runs from 0 to 1, DIRECT and OUT run from 0 to 1 |
| CallStyles.InOutEndpoints | src/ServoEasing.h:114-116 | IN_OUT runs from 0 to 1, and at completion 0.5 both halves give 0.5 * f(1) |
| CallStyles.BouncingEndpoints | src/ServoEasing.h:117-119 | BOUNCING_OUT_IN is 0 at the start, 1 at half time and 0 again at the end |
| CallStyles.InOutHalves | src/ServoEasing.h:114-116 | each half of IN_OUT is DIRECT or OUT at twice the speed and half the height |
| CallStyles.BouncingIsOutTwiceAsFast | src/ServoEasing.h:117-119 | BOUNCING_OUT_IN is the OUT curve at twice the speed, forwards and then backwards |
| CallStyles.BouncingMirrored | src/ServoEasing.h:117-119 | BOUNCING_OUT_IN is symmetric about half time |
| CallStyles.InOutPointSymmetric | src/ServoEasing.h:114-116 | IN_OUT is point-symmetric about the middle when f(1) = 1 |
| CallStyles.OutInvolution | src/ServoEasing.h:113 | applying the OUT conversion twice gives back f |
| CallStyles.LinearUnchanged | src/ServoEasing.h:111-116 | DIRECT, OUT and IN_OUT leave the linear function unchanged |
| CallStyles.StylesStayInUnit | src/ServoEasing.h:111-120 | if f maps [0, 1] into [0, 1], so does every call style |
| CallStyles.StylesPreserveMonotone | src/ServoEasing.h:111-116 | a normalized non-decreasing f gives non-decreasing DIRECT, OUT and IN_OUT curves |
| CallStyles.BouncingRisesThenFalls | src/ServoEasing.h:117-119 | with such an f, BOUNCING_OUT_IN rises until half time and falls after |
| EasingFunctions.PowersMonotone | src/ServoEasing.h:135-148 | the quadratic, cubic and quartic powers grow with x on [0, 1] and stay in [0, 1] |
| EasingFunctions.QuadraticEaseIn | src/ServoEasing.h:314 | on [0, 1] the squared curve stays in [0, 1] and never runs ahead of linear |
| EasingFunctions.CubicEaseIn | src/ServoEasing.h:315 | on [0, 1] the cubed curve stays in [0, 1] and never runs ahead of the squared one |
| EasingFunctions.QuarticEaseIn | src/ServoEasing.h:316 | on [0, 1] the fourth-power curve stays in [0, 1] and never runs ahead of the cubed one |
| EasingFunctions.FamilyFunction | src/ServoEasing.h:270 | the user family calls the servo's registered function, the bounce family the bounce primitive, and every polynomial family runs from 0 to 1; the table of the other families (src/ServoEasing.h:326) is the `Library` value |
| EasingFunctions.CallEasingFunction | src/ServoEasing.h:234 | an easing type's progress at completion p: a linear type gives progress p in DIRECT, OUT and IN_OUT, and 1 minus the bouncing argument in BOUNCING_OUT_IN; its range is PolynomialProgressInUnit and its endpoints PolynomialProgressEndpoints |
| EasingFunctions.PolynomialsWellBehaved | src/ServoEasing.h:133-148 | the linear and polynomial ease-in functions are normalized, bounded and monotone on [0, 1] |
| EasingFunctions.PolynomialProgressEndpoints | src/ServoEasing.h:111-148 | a polynomial easing type starts at progress 0 and ends at 1; a bouncing one is at 1 at half time and 0 at the end |
| EasingFunctions.LinearIsIdentity | src/ServoEasing.h:133 | EASE_LINEAR gives progress equal to completion |
| EasingFunctions.BounceInAndOut | src/ServoEasing.h:171-173 | EASE_BOUNCE_OUT calls the bounce primitive directly and EASE_BOUNCE_IN gives 1 - EaseOutBounce(1 - p) |
| EasingFunctions.PolynomialProgressInUnit | src/ServoEasing.h:111-148 | a polynomial easing type keeps progress in [0, 1] under every call style |
| Pulse.TruncDiv | src/ServoEasing.h:240-241 | signed integer division rounds toward zero: its magnitude is the quotient of the magnitudes, and it is negative only when the signs differ and positive only when they agree |
| Pulse.MicrosecondsToPCA9685Units | src/ServoEasing.h:206-207 | the unit count is the largest one whose length (20000/4096 us each) does not exceed the pulse |
| Pulse.ClampDegree | src/ServoEasing.h:241 | the angle used is in [0, 180]: the given angle when in range, otherwise the nearer end |
| Pulse.DegreeToPulse | src/ServoEasing.h:241 | 0 degrees maps to the 0-degree endpoint, 180 to the 180-degree endpoint, and every angle between the endpoints |
| Pulse.PulseToDegree | src/ServoEasing.h:240 | the angle read back is in [0, 180], 0 at the 0-degree endpoint and 180 at the 180-degree endpoint when the two differ |
| Pulse.DegreeToPulseNearExact | src/ServoEasing.h:241 | the integer pulse is within one unit of the exact linear map, on the side of the 0-degree endpoint |
| Pulse.DegreeToPulseMonotone | src/ServoEasing.h:241 | a larger angle moves the pulse no less far from the 0-degree endpoint |
| Pulse.DegreeRoundTrip | src/ServoEasing.h:240-241 | with endpoints at least 180 apart, reading back a commanded angle loses at most one degree, and none when 180 divides a * (hi - lo) |
| Pulse.ExactReversal | src/ServoEasing.h:275 | on the real line, swapping the endpoints equals mirroring the angle |
| Pulse.IntegerReversal | src/ServoEasing.h:275 | in integers, swapping the endpoints equals mirroring the angle exactly when 180 divides a * (hi - lo), and is one unit further toward hi otherwise |
| Pulse.DefaultUnitsMatchMicroseconds | src/ServoEasing.h:103-107 | 111 = floor(544 * 4096 / 20000) and 491 = floor(2400 * 4096 / 20000) |
| Pulse.PrescalerGives50Hz | src/ServoEasing.h:192 | the prescaler is 121 and divides 25 MHz down to 50 frames of 4096 units a second |
| Servo.ElapsedAcrossWrap | src/ServoEasing.h:272 | elapsed time on the 32-bit millisecond clock is right across a wrap of the clock |
| Servo.Elapsed | src/ServoEasing.h:272 | the elapsed time d is the 32-bit value for which the start time plus d wraps to the current time, and is the plain difference when the clock has not wrapped |
| Servo.Round | src/ServoEasing.h:253-254 | the rounded pulse is within one half of the real value |
| Servo.Interpolate | src/ServoEasing.h:253-256 | the pulse is within half a unit of start + delta * eased; InterpolateWithin gives its endpoints and its range |
| Servo.ValidMove | src/ServoEasing.h:256 | no contract of its own: the move invariants (delta == end - start, a decodable easing type, a positive duration while moving), kept by Tick, StartMove and EaseToOutcome in their ensures |
| Servo.InterpolateWithin | src/ServoEasing.h:253-256 | progress 0 gives the start, 1 gives start + delta, and progress in [0, 1] stays between them |
| Servo.FinalPulse | src/ServoEasing.h:117-119 | a finished move stands at its start or its end |
| Servo.Completion | src/ServoEasing.h:272-273 | while the move lasts, the fraction of its time that has passed is in [0, 1) |
| Servo.Tick | src/ServoEasing.h:233 | a tick changes only the current pulse and the moving flag, keeps delta == end - start, leaves a stopped move alone and never starts one |
| Servo.StartMove | src/ServoEasing.h:229-232 | a started move begins at the current pulse, ends at the target, is timed from now, keeps the easing type and is running |
| Servo.MillisForMoveMonotone | src/ServoEasing.h:229-230 | at the same speed a longer way never takes less time |
| Servo.MillisForMove | src/ServoEasing.h:229-230 | the duration is distance * 1000 / speed rounded down: the largest whole number of milliseconds at most that quotient |
| Servo.AcceptsEaseTo | src/ServoEasing.h:229-230 | no contract of its own: the refusal rule (moving, speed 0, or a zero duration), which StartEaseTo returns as its answer and EaseToOutcome and EaseToRefusedWhileMoving state |
| Servo.TickIdempotentWhenStopped | src/ServoEasing.h:233 | once a tick has stopped the move, further ticks change nothing |
| Servo.TickRecomputesFromTime | src/ServoEasing.h:253-254 | a running move's pulse depends only on the time, not on the previous pulse |
| Servo.TickCompletes | src/ServoEasing.h:255 | when the time is up the move stops at its final pulse, which is the end unless it bounces |
| Servo.FinalPulseIsCurveEnd | src/ServoEasing.h:117-120 | the final pulse is where the eased curve is at completion 1 |
| Servo.TickAtStartOfMove | src/ServoEasing.h:253-254 | at the instant a move starts its pulse is the start pulse and it is running |
| Servo.TickStaysBetween | src/ServoEasing.h:253-256 | with an ease-in function bounded on [0, 1], no tick leaves the range from start to end |
| Servo.StartedMoveArrives | src/ServoEasing.h:229-233 | a started non-bouncing move begins where the servo stood and stops exactly at its target when its time is up, even across a clock wrap |
| Servo.SameTimingStopsTogether | src/ServoEasing.h:243 | moves with the same start time and duration stop on the same tick |
| Servo.LinearMoveExample | src/ServoEasing.h:103-104 | a linear move from 544 to 2400 over 1000 ms is at 544, 1472 and 2400 at 0, 500 and 1000 ms, and then stays stopped |
| Servo.MappingEndpoints | src/ServoEasing.h:275 | the pair angles are mapped onto is the two calibrated endpoints in some order |
| Servo.ReversalSwapsEndpoints | src/ServoEasing.h:275 | an unreversed servo maps onto (0-degree, 180-degree) endpoint, and flipping the reversal flag swaps the pair |
| Servo.DegreeToMicrosecondsOrUnits | src/ServoEasing.h:241 | the pulse lies between the endpoints, 0 and 180 degrees map to the (possibly swapped) endpoints, and trim is not added |
| Servo.MicrosecondsOrUnitsToDegree | src/ServoEasing.h:240 | the angle is in [0, 180], 0 at the first mapped endpoint and 180 at the second when the two differ |
| Servo.ReversedMapping | src/ServoEasing.h:214 | a reversed servo at angle a stands where an unreversed one stands at 180 - a when 180 divides a * (hi - lo), and within one unit of it always |
| Servo.CurrentAngle | src/ServoEasing.h:236 | the angle read back is in [0, 180] |
| Servo.EaseToOutcome | src/ServoEasing.h:229-230 | a refused request leaves the move as it was; an accepted one runs from the current pulse to the target's pulse for distance * 1000 / speed ms |
| Servo.EaseToRefusedWhileMoving | src/ServoEasing.h:230 | a moving servo refuses a new move and keeps the one it has |
| Servo.ServoEasing.constructor | src/ServoEasing.h:209 | a new servo is stopped, linear, untrimmed and unreversed, with the default endpoints in its own unit |
| Servo.ServoEasing.SetPinAndEndpoints | src/ServoEasing.h:213 | attaching sets pin, index and endpoints, converting microseconds to PCA9685 units when needed, and leaves the move alone |
| Servo.ServoEasing.SetReverseOperation | src/ServoEasing.h:214 | only the reversal flag changes |
| Servo.ServoEasing.SetTrimMicrosecondsOrUnits | src/ServoEasing.h:217 | only the trim changes; the move and the angle read back stay as they were, and the output is the pulse plus the new trim |
| Servo.ServoEasing.GetCurrentAngle | src/ServoEasing.h:236 | the angle read back from the current pulse is in [0, 180] |
| Servo.ServoEasing.OutputValue | src/ServoEasing.h:276 | no contract of its own: the value handed to the output, the current pulse plus trim, which SetTrimMicrosecondsOrUnits, WriteMicrosecondsOrUnits and Write state |
| Servo.ServoEasing.SetEasingType | src/ServoEasing.h:218 | only the easing type changes, to a valid one |
| Servo.ServoEasing.GetEasingType | src/ServoEasing.h:219 | the easing type returned is the servo's and decodes |
| Servo.ServoEasing.RegisterUserEaseInFunction | src/ServoEasing.h:221 | only the user function changes |
| Servo.ServoEasing.WriteMicrosecondsOrUnits | src/ServoEasing.h:224 | the current pulse becomes the value and the output is the value plus trim |
| Servo.ServoEasing.Write | src/ServoEasing.h:223 | the current pulse becomes the given pulse, or the given angle's pulse; any move ends, and the output adds trim |
| Servo.ServoEasing.StartEaseToD | src/ServoEasing.h:231-232 | refused while moving or for duration 0; otherwise the move is StartMove to the angle's pulse |
| Servo.ServoEasing.StartEaseTo | src/ServoEasing.h:229-230 | the answer is whether the request is accepted and the new move is EaseToOutcome |
| Servo.ServoEasing.Update | src/ServoEasing.h:233-234 | the new move is one Tick of the old at the given time, and the answer is whether the servo has stopped |
| Registry.TickAll | src/ServoEasing.h:300 | every servo's move is ticked with its own user function, and all stay valid |
| Registry.AnyMoving | src/ServoEasing.h:298 | no contract of its own: whether any move runs, which IsOneServoMoving and UpdateAllServos return and TickAllNeverStarts and StopAllIsFinal use |
| Registry.StopAll | src/ServoEasing.h:299 | every move is stopped where it stands |
| Registry.WithEasingType | src/ServoEasing.h:297 | every move gets the same easing type and nothing else changes |
| Registry.EaseAllTo | src/ServoEasing.h:293 | each servo's move is the outcome of its own request to go to its next position |
| Registry.MaxMillisForCompleteMove | src/ServoEasing.h:301 | the common duration is at least every running move's duration and is one of them, or 0 when none runs |
| Registry.Synchronized | src/ServoEasing.h:243 | a running move gets the common duration and start time; a stopped one is untouched |
| Registry.RetimeAll | src/ServoEasing.h:301 | every move is retimed by Synchronized and stays valid |
| Registry.SynchronizeAll | src/ServoEasing.h:301 | every running move gets the longest running duration and starts now |
| Registry.SynchronizedStopTogether | src/ServoEasing.h:301 | after synchronizing no running move is shorter, all running moves share duration and start, and they stop on the same tick |
| Registry.StopAllIsFinal | src/ServoEasing.h:299 | after stopping all, none is moving and ticks change nothing |
| Registry.TickAllNeverStarts | src/ServoEasing.h:298-300 | a tick of all servos never starts a move, and changes nothing when none is moving |
| Registry.EaseAllToKeepsRunningMoves | src/ServoEasing.h:293 | a servo already moving keeps its move when all are asked to move |
| Registry.ServoRegistry.constructor | src/ServoEasing.h:286-288 | the registry starts empty with its fixed capacity |
| Registry.ServoRegistry.Attach | src/ServoEasing.h:282-288 | when there is room the servo takes the next slot in attach order; only its pin, index and endpoints change, and the servos already attached keep their moves, setups and user functions. Otherwise it is refused and nothing changes. The count never exceeds the capacity |
| Registry.ServoRegistry.AttachDefault | src/ServoEasing.h:211 | as Attach, with the endpoints 544 and 2400 us, or 111 and 491 PCA9685 units |
| Registry.ServoRegistry.SetNextPosition | src/ServoEasing.h:288 | only the slot's next position changes |
| Registry.ServoRegistry.IsOneServoMoving | src/ServoEasing.h:298 | the answer is whether any attached servo is moving |
| Registry.ServoRegistry.StopServo | src/ServoEasing.h:299 | only that servo's move is stopped |
| Registry.ServoRegistry.StopAllServos | src/ServoEasing.h:299 | the moves become StopAll of the old moves |
| Registry.ServoRegistry.SetEasingTypeOfServo | src/ServoEasing.h:297 | only that servo's easing type changes |
| Registry.ServoRegistry.SetEasingTypeForAllServos | src/ServoEasing.h:297 | the moves become WithEasingType of the old moves |
| Registry.ServoRegistry.UpdateServo | src/ServoEasing.h:300 | only that servo is ticked |
| Registry.ServoRegistry.UpdateAllServos | src/ServoEasing.h:300 | the moves become TickAll of the old moves, and the answer is whether any is still moving |
| Registry.ServoRegistry.RetimeServo | src/ServoEasing.h:243 | only that servo is retimed by Synchronized |
| Registry.ServoRegistry.RetimeMovingServos | src/ServoEasing.h:301 | the moves become RetimeAll of the old moves |
| Registry.ServoRegistry.SynchronizeAllServos | src/ServoEasing.h:301 | the moves become SynchronizeAll of the old moves |
| Registry.ServoRegistry.EaseServoToNextPosition | src/ServoEasing.h:288 | only that servo's move changes, to EaseToOutcome toward its next position |
| Registry.ServoRegistry.SetEaseToForAllServos | src/ServoEasing.h:293 | the moves become EaseAllTo of the old moves, and the answer is whether any servo accepted |
| Registry.ServoRegistry.SynchronizeAndEaseToArrayPositions | src/ServoEasing.h:295 | the start of the blocking group move: the moves become SynchronizeAll of EaseAllTo of the old moves (the wait that follows is under Left out) |

## Left out

- The PCA9685 I2C plumbing (`PCA9685Init`, `I2CWriteByte`, `setPWM`, the register constants) and the Servo and Lightweight backends are left out. Nothing is written to hardware: `Write` and `WriteMicrosecondsOrUnits` return the output value (pulse plus trim) as a number, and after `Update` the value that would be written is `OutputValue()`, which `Update` does not return.
- Interrupts are left out: `enableServoEasingInterrupt`, `disableServoEasingInterrupt`, the interrupt flag of `startEaseTo`, `startEaseToD` and `synchronizeAllServosAndStartInterrupt`, and the `volatile` qualifiers. Every operation runs to completion on a single thread.
- `setEaseTo` and `setEaseToD` are left out. They are `startEaseTo` and `startEaseToD` without starting the interrupt, which is not modelled.
- `setEaseToForAllServosSynchronizeAndStartInterrupt` is left out: it starts every servo toward its next position, synchronizes them and hands the ticks to the interrupt. The header only declares it (src/ServoEasing.h:294); taking its effect on the moves to be that of `SynchronizeAndEaseToArrayPositions` is the model's own choice, and the interrupt is not modelled.
- Registry.ServoRegistry.SynchronizeAndEaseToArrayPositions: the final wait until all servos have stopped is not modelled. The blocking form of `synchronizeAndEaseToArrayPositions` polls `updateAllServos` until no servo moves; the model stops once the moves are started and synchronized. What the ticks then do is `UpdateAllServos`, `TickAll` and `SynchronizedStopTogether`.
- `ServoEasing::synchronizeServosAndStartInterrupt` is left out: the header only declares it (src/ServoEasing.h:243). Taking its effect on the group to be that of `SynchronizeAllServos` is the model's own choice.
- The blocking `easeTo`, `easeToD`, `updateAndWaitForAllServosToStop` and `synchronizeAllServosStartAndWaitForAllServosToStop` are left out. They poll the clock in a loop.
- `print`, `printDynamic`, `printStatic` and `printArrayPositions` are left out; they only produce text.
- `setTrim` in degrees is left out: its degree-to-unit conversion lives in the library's source file. `setTrimMicrosecondsOrUnits` is modelled.
- `isMoving` and `getMillisForCompleteMove` are not separate members: they read `servoMoves` and `millisForCompleteMove`.
- The formulas of the sine, circular, back, elastic and bounce functions (sin, cos, sqrt, pow) are parameters of the model, fields of `EasingFunctions.Library`. Single-precision float rounding is not modelled: progress is a real number.
- The user ease-in function is a parameter (`real -> real`), not a function pointer; an unregistered one is the identity.
- Servo.ServoEasing.StartEaseTo: the 8-bit angle and 16-bit speed and duration widths are not modelled. Angles are integers clamped to [0, 180], and durations are natural numbers.
- Servo.Tick: the 16-bit pulse fields are not modelled with wrap-around. Pulses are integers, which no tick takes outside the range of the move when the ease-in function stays in [0, 1].
- Servo.Tick: a finished BOUNCING_OUT_IN move is left at its start pulse, not at its end pulse. This is the model's choice between src/ServoEasing.h:255 and src/ServoEasing.h:117-119; see above.
- Servo.ServoEasing.Write: the rule by which the library tells an angle from a pulse in the single `int` argument of `write` is in its source file. In the model the caller says which it is, through `WriteValue`.
- Pulse.PulseToDegree: when the two endpoints coincide, the inverse map would divide by zero. The model returns 0 degrees there; what the library does in that case is not modelled.
- Registry.ServoRegistry.Attach: requires that the servo is not already attached, so that each servo has one slot and its index is that slot. Attaching the same servo twice is not modelled. Pin validity is not checked, since valid pins depend on the board.
- Registry.ServoRegistry.constructor: the capacity is a parameter. The build option that picks MAX_SERVOS is not modelled; the header gives 16 with a PCA9685 expander, 2 with the lightweight library and 12 otherwise (src/ServoEasing.h:57-70).
- The bodies of the library's functions are in `src/ServoEasing.cpp`, which is not part of this model. The refusal conditions, the clamping of angles, the rounding of the interpolated pulse, the end pulse of a bouncing move, the angle of a degenerate calibration, the retiming of running moves only, the senses of the answers of `update` and `updateAllServos`, and the group effects of `synchronizeServosAndStartInterrupt` and `setEaseToForAllServosSynchronizeAndStartInterrupt` are the model's own choices.
- Servo.ServoEasing.SetReverseOperation: reversal is kept as a flag and applied in `MappingEndpoints` each time an angle is mapped; the stored endpoint fields are never swapped, as the library's fields are (src/ServoEasing.h:275). Whether the library swaps them in `attach` or in `setReverseOperation`, and so whether reversing an attached servo takes effect, is in its source file, which is not part of this model.
- Servo.ServoEasing.SetEasingType: bytes that do not decode (family codes 4-7, 13 and 14, and the style codes reserved for future extensions) are excluded by the precondition; the library's handling of them is not modelled. `Registry.ServoRegistry.SetEasingTypeOfServo` and `Registry.ServoRegistry.SetEasingTypeForAllServos` have the same precondition.
