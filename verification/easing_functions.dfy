/**
 * The included ease-in functions and the dispatch from an easing type to
 * the curve it produces.
 */
module EasingFunctions {
  import opened EasingTypes
  import opened CallStyles

  /** The squared curve: on [0, 1] it stays in [0, 1] and lags behind linear. */
  function QuadraticEaseIn(p: real): (r: real)
    ensures 0.0 <= p <= 1.0 ==> 0.0 <= r <= p
  {
    if 0.0 <= p <= 1.0 then ProductMonotone(p, p, p, 1.0); assert p * p <= p * 1.0 == p; p * p else p * p
  }

  /** The cubed curve: on [0, 1] it stays in [0, 1] and lags behind the squared one. */
  function CubicEaseIn(p: real): (r: real)
    ensures 0.0 <= p <= 1.0 ==> 0.0 <= r <= QuadraticEaseIn(p)
  {
    if 0.0 <= p <= 1.0 then ProductMonotone(p * p, p * p, p, 1.0); p * p * p else p * p * p
  }

  /** The fourth-power curve: on [0, 1] it stays in [0, 1] and lags behind the cubed one. */
  function QuarticEaseIn(p: real): (r: real)
    ensures 0.0 <= p <= 1.0 ==> 0.0 <= r <= CubicEaseIn(p)
  {
    if 0.0 <= p <= 1.0 then ProductMonotone(p * p * p, p * p * p, p, 1.0); p * p * p * p else p * p * p * p
  }

  /**
   * The library functions whose formulas rest on sin, cos, sqrt and pow.
   * They are parameters of the model; `easeOutBounce` is an OUT function.
   */
  datatype Library = Library(
    sineEaseIn: real -> real,
    circularEaseIn: real -> real,
    backEaseIn: real -> real,
    elasticEaseIn: real -> real,
    easeOutBounce: real -> real)

  /** The function a family calls; the user family calls the servo's registered function. */
  function FamilyFunction(family: Family, lib: Library, user: real -> real): (g: real -> real)
    ensures IsPolynomial(family) ==> Normalized(g)
    ensures family == User ==> g == user
    ensures family == Bounce ==> g == lib.easeOutBounce
  {
    match family
    case Linear => p => p
    case Quadratic => QuadraticEaseIn
    case Cubic => CubicEaseIn
    case Quartic => QuarticEaseIn
    case Sine => lib.sineEaseIn
    case Circular => lib.circularEaseIn
    case Back => lib.backEaseIn
    case Elastic => lib.elasticEaseIn
    case Bounce => lib.easeOutBounce
    case User => user
  }

  /** The progress an easing type gives at completion p. */
  function CallEasingFunction(t: EasingType, lib: Library, user: real -> real, p: real): (r: real)
    ensures t.family == Linear && t.style != BouncingOutIn ==> r == p
    ensures t.family == Linear && t.style == BouncingOutIn ==> r == 1.0 - EaseInArgument(BouncingOutIn, p)
  {
    Apply(t.style, FamilyFunction(t.family, lib, user), p)
  }

  /** The polynomial families, including linear, have a closed form in this model. */
  predicate IsPolynomial(family: Family)
  {
    family in {Linear, Quadratic, Cubic, Quartic}
  }

  lemma ProductMonotone(a: real, b: real, c: real, d: real)
    requires 0.0 <= a <= b && 0.0 <= c <= d
    ensures 0.0 <= a * c <= b * d
  {
    assert a * c <= b * c;
    assert b * c <= b * d;
  }

  lemma ProductInUnit(a: real, b: real)
    requires 0.0 <= a <= 1.0 && 0.0 <= b <= 1.0
    ensures 0.0 <= a * b <= 1.0
  {
    ProductMonotone(a, 1.0, b, 1.0);
  }

  /** Squares, cubes and fourth powers grow with x on [0, 1] and stay in [0, 1]. */
  lemma PowersMonotone(x: real, y: real)
    requires 0.0 <= x <= y <= 1.0
    ensures 0.0 <= x * x <= y * y <= 1.0
    ensures 0.0 <= x * x * x <= y * y * y <= 1.0
    ensures 0.0 <= x * x * x * x <= y * y * y * y <= 1.0
  {
    ProductMonotone(x, y, x, y);
    ProductInUnit(y, y);
    ProductMonotone(x * x, y * y, x, y);
    ProductInUnit(y * y, y);
    ProductMonotone(x * x * x, y * y * y, x, y);
    ProductInUnit(y * y * y, y);
  }

  /** Each polynomial family runs from 0 to 1, stays in [0, 1] and does not decrease on [0, 1]. */
  lemma {:induction false} PolynomialsWellBehaved(family: Family, lib: Library, user: real -> real)
    requires IsPolynomial(family)
    ensures Normalized(FamilyFunction(family, lib, user))
    ensures BoundedOnUnit(FamilyFunction(family, lib, user))
    ensures MonotoneOnUnit(FamilyFunction(family, lib, user))
  {
    var f := FamilyFunction(family, lib, user);
    forall x, y | 0.0 <= x <= y <= 1.0
      ensures 0.0 <= f(x) <= f(y) <= 1.0
    {
      PowersMonotone(x, y);
    }
    forall x | 0.0 <= x <= 1.0
      ensures 0.0 <= f(x) <= 1.0
    {
      PowersMonotone(x, x);
    }
  }

  /**
   * A move with a polynomial family starts at progress 0, and ends at 1
   * unless it bounces, in which case it is back at 0 at the end and at 1 in
   * the middle.
   */
  lemma PolynomialProgressEndpoints(t: EasingType, lib: Library, user: real -> real)
    requires IsPolynomial(t.family)
    ensures CallEasingFunction(t, lib, user, 0.0) == 0.0
    ensures t.style != BouncingOutIn ==> CallEasingFunction(t, lib, user, 1.0) == 1.0
    ensures t.style == BouncingOutIn ==>
      CallEasingFunction(t, lib, user, 0.5) == 1.0 && CallEasingFunction(t, lib, user, 1.0) == 0.0
  {
    var f := FamilyFunction(t.family, lib, user);
    PolynomialsWellBehaved(t.family, lib, user);
    match t.style {
      case Direct => DirectAndOutEndpoints(f);
      case Out => DirectAndOutEndpoints(f);
      case InOut => InOutEndpoints(f);
      case BouncingOutIn => BouncingEndpoints(f);
    }
  }

  /** The linear easing type gives progress equal to completion. */
  lemma LinearIsIdentity(lib: Library, user: real -> real, p: real)
    ensures Decode(EASE_LINEAR) == Some(EasingType(Direct, Linear))
    ensures CallEasingFunction(Decode(EASE_LINEAR).value, lib, user, p) == p
  {
  }

  /**
   * EASE_BOUNCE_OUT calls the bounce primitive directly, and EASE_BOUNCE_IN
   * calls it through the OUT rule, as 1 - EaseOutBounce(1 - p).
   */
  lemma BounceInAndOut(lib: Library, user: real -> real, p: real)
    ensures Decode(EASE_BOUNCE_OUT).Some? && Decode(EASE_BOUNCE_IN).Some?
    ensures CallEasingFunction(Decode(EASE_BOUNCE_OUT).value, lib, user, p) == lib.easeOutBounce(p)
    ensures CallEasingFunction(Decode(EASE_BOUNCE_IN).value, lib, user, p) == 1.0 - lib.easeOutBounce(1.0 - p)
    ensures CallEasingFunction(Decode(EASE_BOUNCE_IN).value, lib, user, p) == OutOf(lib.easeOutBounce)(p)
  {
    BounceAndUserTypesMeaning();
  }

  /** The progress of every call style stays in [0, 1] for a polynomial family. */
  lemma PolynomialProgressInUnit(t: EasingType, lib: Library, user: real -> real, p: real)
    requires IsPolynomial(t.family)
    requires 0.0 <= p <= 1.0
    ensures 0.0 <= CallEasingFunction(t, lib, user, p) <= 1.0
  {
    PolynomialsWellBehaved(t.family, lib, user);
    StylesStayInUnit(t.style, FamilyFunction(t.family, lib, user), p);
  }
}
