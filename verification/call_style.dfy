/**
 * The call-style transformer: one "ease-in" function f, mapping the fraction
 * of the move's time that has passed to the fraction of its way travelled,
 * is reused for the OUT, IN_OUT and BOUNCING_OUT_IN variants by converting
 * the argument it is called with and the result it gives.
 */
module CallStyles {
  import opened EasingTypes

  /** The argument the ease-in function is called with at completion p. */
  function EaseInArgument(style: CallStyle, p: real): (x: real)
    ensures 0.0 <= p <= 1.0 ==> 0.0 <= x <= 1.0
    ensures style == Direct ==> x == p
    ensures style == Out ==> x + p == 1.0
  {
    match style
    case Direct => p
    case Out => 1.0 - p
    case InOut => if p < 0.5 then 2.0 * p else 2.0 - 2.0 * p
    case BouncingOutIn => if p < 0.5 then 1.0 - 2.0 * p else 2.0 * p - 1.0
  }

  /** How the ease-in function's result y becomes the progress at completion p. */
  function ConvertResult(style: CallStyle, p: real, y: real): (r: real)
    ensures 0.0 <= y <= 1.0 ==> 0.0 <= r <= 1.0
    ensures style == Direct ==> r == y
    ensures style == Out || style == BouncingOutIn ==> r + y == 1.0
  {
    match style
    case Direct => y
    case Out => 1.0 - y
    case InOut => if p < 0.5 then 0.5 * y else 1.0 - 0.5 * y
    case BouncingOutIn => 1.0 - y
  }

  /** The progress the style produces from ease-in function f at completion p. */
  function Apply(style: CallStyle, f: real -> real, p: real): (r: real)
    ensures 0.0 <= f(EaseInArgument(style, p)) <= 1.0 ==> 0.0 <= r <= 1.0
    ensures style == Direct ==> r == f(p)
    ensures style == Out ==> r == 1.0 - f(1.0 - p)
  {
    ConvertResult(style, p, f(EaseInArgument(style, p)))
  }

  /** The OUT form of f as a function of its own. */
  function OutOf(f: real -> real): (g: real -> real)
    ensures forall p :: g(p) == Apply(Out, f, p)
  {
    p => 1.0 - f(1.0 - p)
  }

  /** f starts at 0 and ends at 1. */
  predicate Normalized(f: real -> real)
  {
    f(0.0) == 0.0 && f(1.0) == 1.0
  }

  /** f does not decrease on [0, 1]. */
  ghost predicate MonotoneOnUnit(f: real -> real)
  {
    forall x, y :: 0.0 <= x <= y <= 1.0 ==> f(x) <= f(y)
  }

  /** f maps [0, 1] into [0, 1] (not true of the overshooting Back and Elastic families). */
  ghost predicate BoundedOnUnit(f: real -> real)
  {
    forall x :: 0.0 <= x <= 1.0 ==> 0.0 <= f(x) <= 1.0
  }

  /** DIRECT and OUT run from 0 to 1 when f does. */
  lemma DirectAndOutEndpoints(f: real -> real)
    requires Normalized(f)
    ensures Apply(Direct, f, 0.0) == 0.0 && Apply(Direct, f, 1.0) == 1.0
    ensures Apply(Out, f, 0.0) == 0.0 && Apply(Out, f, 1.0) == 1.0
  {
  }

  /** IN_OUT runs from 0 to 1, and both halves meet at 0.5 * f(1) in the middle. */
  lemma InOutEndpoints(f: real -> real)
    requires Normalized(f)
    ensures Apply(InOut, f, 0.0) == 0.0 && Apply(InOut, f, 1.0) == 1.0
    ensures Apply(InOut, f, 0.5) == 0.5 * f(1.0) == ConvertResult(InOut, 0.0, f(2.0 * 0.5))
  {
  }

  /** BOUNCING_OUT_IN starts at 0, reaches 1 in the middle and returns to 0. */
  lemma BouncingEndpoints(f: real -> real)
    requires Normalized(f)
    ensures Apply(BouncingOutIn, f, 0.0) == 0.0
    ensures Apply(BouncingOutIn, f, 0.5) == 1.0
    ensures Apply(BouncingOutIn, f, 1.0) == 0.0
  {
  }

  /** The two halves of IN_OUT are DIRECT and OUT, each squeezed into half the time and half the way. */
  lemma InOutHalves(f: real -> real, p: real)
    ensures p < 0.5 ==> Apply(InOut, f, p) == 0.5 * Apply(Direct, f, 2.0 * p)
    ensures p >= 0.5 ==> Apply(InOut, f, p) == 0.5 + 0.5 * Apply(Out, f, 2.0 * p - 1.0)
  {
  }

  /** BOUNCING_OUT_IN is the OUT curve run twice as fast, forwards and then backwards. */
  lemma BouncingIsOutTwiceAsFast(f: real -> real, p: real)
    ensures p < 0.5 ==> Apply(BouncingOutIn, f, p) == Apply(Out, f, 2.0 * p)
    ensures p >= 0.5 ==> Apply(BouncingOutIn, f, p) == Apply(Out, f, 2.0 - 2.0 * p)
  {
  }

  /** BOUNCING_OUT_IN is mirrored about the middle of the move. */
  lemma BouncingMirrored(f: real -> real, p: real)
    ensures Apply(BouncingOutIn, f, 1.0 - p) == Apply(BouncingOutIn, f, p)
  {
  }

  /** IN_OUT is point-symmetric about the middle when f ends at 1. */
  lemma InOutPointSymmetric(f: real -> real, p: real)
    requires f(1.0) == 1.0
    ensures Apply(InOut, f, 1.0 - p) == 1.0 - Apply(InOut, f, p)
  {
  }

  /** Taking the OUT form twice gives back the function. */
  lemma OutInvolution(f: real -> real, p: real)
    ensures OutOf(OutOf(f))(p) == f(p)
  {
  }

  /** The linear function is left unchanged by DIRECT, OUT and IN_OUT. */
  lemma LinearUnchanged(style: CallStyle, p: real)
    requires style != BouncingOutIn
    ensures Apply(style, x => x, p) == p
  {
  }

  /** When f stays in [0, 1] on [0, 1], so does every call style. */
  lemma {:induction false} StylesStayInUnit(style: CallStyle, f: real -> real, p: real)
    requires BoundedOnUnit(f)
    requires 0.0 <= p <= 1.0
    ensures 0.0 <= Apply(style, f, p) <= 1.0
  {
    var x := EaseInArgument(style, p);
    assert 0.0 <= f(x) <= 1.0;
  }

  /** A non-decreasing, normalized f gives non-decreasing DIRECT, OUT and IN_OUT curves. */
  lemma StylesPreserveMonotone(style: CallStyle, f: real -> real, p: real, q: real)
    requires Normalized(f) && MonotoneOnUnit(f)
    requires style != BouncingOutIn
    requires 0.0 <= p <= q <= 1.0
    ensures Apply(style, f, p) <= Apply(style, f, q)
  {
    match style {
      case Direct =>
        assert f(p) <= f(q);
      case Out =>
        assert f(1.0 - q) <= f(1.0 - p);
      case InOut =>
        if q < 0.5 {
          assert f(2.0 * p) <= f(2.0 * q);
        } else if p >= 0.5 {
          assert f(2.0 - 2.0 * q) <= f(2.0 - 2.0 * p);
        } else {
          assert f(2.0 * p) <= f(1.0);
          assert f(2.0 - 2.0 * q) <= f(1.0);
        }
    }
  }

  /** A non-decreasing, normalized f gives a BOUNCING_OUT_IN curve that rises to the middle and falls after. */
  lemma BouncingRisesThenFalls(f: real -> real, p: real, q: real)
    requires Normalized(f) && MonotoneOnUnit(f)
    requires 0.0 <= p <= q <= 1.0
    ensures q <= 0.5 ==> Apply(BouncingOutIn, f, p) <= Apply(BouncingOutIn, f, q)
    ensures 0.5 <= p ==> Apply(BouncingOutIn, f, p) >= Apply(BouncingOutIn, f, q)
  {
    if q <= 0.5 {
      if q < 0.5 {
        assert f(1.0 - 2.0 * q) <= f(1.0 - 2.0 * p);
      } else {
        assert f(1.0 - 2.0 * p) >= f(0.0);
      }
    }
    if 0.5 <= p {
      assert f(2.0 * p - 1.0) <= f(2.0 * q - 1.0);
    }
  }
}
