/**
 * The easing-type byte of ServoEasing: one unsigned byte that packs a call
 * style into its upper three bits and an easing family into its lower four.
 */
module EasingTypes {

  datatype Option<T> = None | Some(value: T)

  /** How an ease-in function is called and how its result is converted. */
  datatype CallStyle = Direct | Out | InOut | BouncingOutIn

  /** The easing families that have a code in the lower four bits. */
  datatype Family =
    | Linear | Quadratic | Cubic | Quartic
    | Sine | Circular | Back | Elastic | Bounce
    | User

  /** A decoded easing type: a call style together with a family. */
  datatype EasingType = EasingType(style: CallStyle, family: Family)

  const CALL_STYLE_DIRECT: bv8 := 0x00
  const CALL_STYLE_OUT: bv8 := 0x20
  const CALL_STYLE_IN_OUT: bv8 := 0x40
  const CALL_STYLE_BOUNCING_OUT_IN: bv8 := 0x60
  const CALL_STYLE_MASK: bv8 := 0xE0

  const EASE_TYPE_MASK: bv8 := 0x0F

  const EASE_LINEAR: bv8 := 0x00

  const EASE_QUADRATIC_IN: bv8 := 0x01
  const EASE_QUADRATIC_OUT: bv8 := 0x21
  const EASE_QUADRATIC_IN_OUT: bv8 := 0x41
  const EASE_QUADRATIC_BOUNCING: bv8 := 0x61

  const EASE_CUBIC_IN: bv8 := 0x02
  const EASE_CUBIC_OUT: bv8 := 0x22
  const EASE_CUBIC_IN_OUT: bv8 := 0x42
  const EASE_CUBIC_BOUNCING: bv8 := 0x62

  const EASE_QUARTIC_IN: bv8 := 0x03
  const EASE_QUARTIC_OUT: bv8 := 0x23
  const EASE_QUARTIC_IN_OUT: bv8 := 0x43
  const EASE_QUARTIC_BOUNCING: bv8 := 0x63

  const EASE_SINE_IN: bv8 := 0x08
  const EASE_SINE_OUT: bv8 := 0x28
  const EASE_SINE_IN_OUT: bv8 := 0x48
  const EASE_SINE_BOUNCING: bv8 := 0x68

  const EASE_CIRCULAR_IN: bv8 := 0x09
  const EASE_CIRCULAR_OUT: bv8 := 0x29
  const EASE_CIRCULAR_IN_OUT: bv8 := 0x49
  const EASE_CIRCULAR_BOUNCING: bv8 := 0x69

  const EASE_BACK_IN: bv8 := 0x0A
  const EASE_BACK_OUT: bv8 := 0x2A
  const EASE_BACK_IN_OUT: bv8 := 0x4A
  const EASE_BACK_BOUNCING: bv8 := 0x6A

  const EASE_ELASTIC_IN: bv8 := 0x0B
  const EASE_ELASTIC_OUT: bv8 := 0x2B
  const EASE_ELASTIC_IN_OUT: bv8 := 0x4B
  const EASE_ELASTIC_BOUNCING: bv8 := 0x6B

  // The bounce primitive is itself an OUT function.
  const EASE_BOUNCE_IN: bv8 := 0x2C
  const EASE_BOUNCE_OUT: bv8 := 0x0C

  const EASE_USER_DIRECT: bv8 := 0x0F
  const EASE_USER_OUT: bv8 := 0x2F
  const EASE_USER_IN_OUT: bv8 := 0x4F
  const EASE_USER_BOUNCING: bv8 := 0x6F

  /** Every easing type the library names. */
  const NamedEasingTypes: set<bv8> := {
    EASE_LINEAR,
    EASE_QUADRATIC_IN, EASE_QUADRATIC_OUT, EASE_QUADRATIC_IN_OUT, EASE_QUADRATIC_BOUNCING,
    EASE_CUBIC_IN, EASE_CUBIC_OUT, EASE_CUBIC_IN_OUT, EASE_CUBIC_BOUNCING,
    EASE_QUARTIC_IN, EASE_QUARTIC_OUT, EASE_QUARTIC_IN_OUT, EASE_QUARTIC_BOUNCING,
    EASE_SINE_IN, EASE_SINE_OUT, EASE_SINE_IN_OUT, EASE_SINE_BOUNCING,
    EASE_CIRCULAR_IN, EASE_CIRCULAR_OUT, EASE_CIRCULAR_IN_OUT, EASE_CIRCULAR_BOUNCING,
    EASE_BACK_IN, EASE_BACK_OUT, EASE_BACK_IN_OUT, EASE_BACK_BOUNCING,
    EASE_ELASTIC_IN, EASE_ELASTIC_OUT, EASE_ELASTIC_IN_OUT, EASE_ELASTIC_BOUNCING,
    EASE_BOUNCE_IN, EASE_BOUNCE_OUT,
    EASE_USER_DIRECT, EASE_USER_OUT, EASE_USER_IN_OUT, EASE_USER_BOUNCING
  }

  /** The upper-three-bit code of a call style. */
  function StyleCode(s: CallStyle): (c: bv8)
    ensures c & CALL_STYLE_MASK == c
    ensures c & EASE_TYPE_MASK == 0
  {
    match s
    case Direct => CALL_STYLE_DIRECT
    case Out => CALL_STYLE_OUT
    case InOut => CALL_STYLE_IN_OUT
    case BouncingOutIn => CALL_STYLE_BOUNCING_OUT_IN
  }

  /** The lower-four-bit code of a family. */
  function FamilyCode(f: Family): (c: bv8)
    ensures c & EASE_TYPE_MASK == c
    ensures c & CALL_STYLE_MASK == 0
  {
    match f
    case Linear => 0x00
    case Quadratic => 0x01
    case Cubic => 0x02
    case Quartic => 0x03
    case Sine => 0x08
    case Circular => 0x09
    case Back => 0x0A
    case Elastic => 0x0B
    case Bounce => 0x0C
    case User => 0x0F
  }

  /** The call style held in the upper three bits; the codes 0x80..0xE0 are reserved. */
  function DecodeStyle(b: bv8): (r: Option<CallStyle>)
    ensures r.Some? <==> b & CALL_STYLE_MASK in {CALL_STYLE_DIRECT, CALL_STYLE_OUT, CALL_STYLE_IN_OUT, CALL_STYLE_BOUNCING_OUT_IN}
    ensures r.Some? ==> StyleCode(r.value) == b & CALL_STYLE_MASK
  {
    var s := b & CALL_STYLE_MASK;
    if s == CALL_STYLE_DIRECT then Some(Direct)
    else if s == CALL_STYLE_OUT then Some(Out)
    else if s == CALL_STYLE_IN_OUT then Some(InOut)
    else if s == CALL_STYLE_BOUNCING_OUT_IN then Some(BouncingOutIn)
    else None
  }

  /** The family held in the lower four bits; codes 4..7, 13 and 14 name no family. */
  function DecodeFamily(b: bv8): (r: Option<Family>)
    ensures r.Some? ==> FamilyCode(r.value) == b & EASE_TYPE_MASK
    ensures r.None? <==> b & EASE_TYPE_MASK in {4, 5, 6, 7, 13, 14}
  {
    var f := b & EASE_TYPE_MASK;
    if f == 0x00 then Some(Linear)
    else if f == 0x01 then Some(Quadratic)
    else if f == 0x02 then Some(Cubic)
    else if f == 0x03 then Some(Quartic)
    else if f == 0x08 then Some(Sine)
    else if f == 0x09 then Some(Circular)
    else if f == 0x0A then Some(Back)
    else if f == 0x0B then Some(Elastic)
    else if f == 0x0C then Some(Bounce)
    else if f == 0x0F then Some(User)
    else None
  }

  /** Packs a call style and a family into one byte. */
  function Encode(t: EasingType): (b: bv8)
    ensures b & CALL_STYLE_MASK == StyleCode(t.style)
    ensures b & EASE_TYPE_MASK == FamilyCode(t.family)
    ensures b & 0x10 == 0
  {
    StyleCode(t.style) | FamilyCode(t.family)
  }

  /**
   * Unpacks a byte by its two masks. Bit 4 belongs to neither mask and is
   * not looked at; a reserved style or an unnamed family is invalid.
   */
  function Decode(b: bv8): (r: Option<EasingType>)
    ensures r.Some? <==> DecodeStyle(b).Some? && DecodeFamily(b).Some?
    ensures r.Some? ==> Encode(r.value) == (b & CALL_STYLE_MASK) | (b & EASE_TYPE_MASK)
  {
    match (DecodeStyle(b), DecodeFamily(b))
    case (Some(s), Some(f)) => Some(EasingType(s, f))
    case _ => None
  }

  /** The two masks select disjoint bits, so a style never disturbs a family. */
  lemma MasksDisjoint(b: bv8)
    ensures CALL_STYLE_MASK & EASE_TYPE_MASK == 0
    ensures (b & CALL_STYLE_MASK) & EASE_TYPE_MASK == 0
    ensures b & 0x10 == 0 <==> b == (b & CALL_STYLE_MASK) | (b & EASE_TYPE_MASK)
  {
  }

  /** The four call styles are distinct and each survives the style mask. */
  lemma StyleCodesDistinct(s1: CallStyle, s2: CallStyle)
    ensures StyleCode(s1) == StyleCode(s2) <==> s1 == s2
    ensures StyleCode(s1) & CALL_STYLE_MASK == StyleCode(s1)
  {
  }

  /** Every easing type round-trips through its byte. */
  lemma DecodeEncode(t: EasingType)
    ensures Decode(Encode(t)) == Some(t)
  {
    var b := Encode(t);
    assert b & CALL_STYLE_MASK == StyleCode(t.style);
    assert b & EASE_TYPE_MASK == FamilyCode(t.family);
    match t.style {
      case Direct =>
      case Out =>
      case InOut =>
      case BouncingOutIn =>
    }
  }

  /** A byte that decodes is the encoding of what it decodes to, up to the unused bit 4. */
  lemma EncodeDecode(b: bv8)
    requires Decode(b).Some?
    ensures Encode(Decode(b).value) == b & 0xEF
    ensures b & 0x10 == 0 ==> Encode(Decode(b).value) == b
  {
  }

  /** Decoding only looks at the bits the two masks select. */
  lemma DecodeIgnoresBit4(b: bv8)
    ensures Decode(b) == Decode(b & (CALL_STYLE_MASK | EASE_TYPE_MASK))
  {
    assert (b & (CALL_STYLE_MASK | EASE_TYPE_MASK)) & CALL_STYLE_MASK == b & CALL_STYLE_MASK;
    assert (b & (CALL_STYLE_MASK | EASE_TYPE_MASK)) & EASE_TYPE_MASK == b & EASE_TYPE_MASK;
  }

  /**
   * Each named constant is the sum of its two masked parts and decodes to
   * exactly one call style and one family.
   */
  lemma NamedTypesSplit(t: bv8)
    requires t in NamedEasingTypes
    ensures t == (t & CALL_STYLE_MASK) | (t & EASE_TYPE_MASK)
    ensures Decode(t).Some?
    ensures Encode(Decode(t).value) == t
  {
  }

  /** The linear and polynomial constants decode to the style and family their names give. */
  lemma PolynomialTypesMeaning()
    ensures Decode(EASE_LINEAR) == Some(EasingType(Direct, Linear))
    ensures Decode(EASE_QUADRATIC_IN) == Some(EasingType(Direct, Quadratic))
    ensures Decode(EASE_QUADRATIC_OUT) == Some(EasingType(Out, Quadratic))
    ensures Decode(EASE_QUADRATIC_IN_OUT) == Some(EasingType(InOut, Quadratic))
    ensures Decode(EASE_QUADRATIC_BOUNCING) == Some(EasingType(BouncingOutIn, Quadratic))
    ensures Decode(EASE_CUBIC_IN) == Some(EasingType(Direct, Cubic))
    ensures Decode(EASE_CUBIC_OUT) == Some(EasingType(Out, Cubic))
    ensures Decode(EASE_CUBIC_IN_OUT) == Some(EasingType(InOut, Cubic))
    ensures Decode(EASE_CUBIC_BOUNCING) == Some(EasingType(BouncingOutIn, Cubic))
    ensures Decode(EASE_QUARTIC_IN) == Some(EasingType(Direct, Quartic))
    ensures Decode(EASE_QUARTIC_OUT) == Some(EasingType(Out, Quartic))
    ensures Decode(EASE_QUARTIC_IN_OUT) == Some(EasingType(InOut, Quartic))
    ensures Decode(EASE_QUARTIC_BOUNCING) == Some(EasingType(BouncingOutIn, Quartic))
  {
  }

  /** The sine, circular, back and elastic constants decode to the style and family their names give. */
  lemma LibraryTypesMeaning()
    ensures Decode(EASE_SINE_IN) == Some(EasingType(Direct, Sine))
    ensures Decode(EASE_SINE_OUT) == Some(EasingType(Out, Sine))
    ensures Decode(EASE_SINE_IN_OUT) == Some(EasingType(InOut, Sine))
    ensures Decode(EASE_SINE_BOUNCING) == Some(EasingType(BouncingOutIn, Sine))
    ensures Decode(EASE_CIRCULAR_IN) == Some(EasingType(Direct, Circular))
    ensures Decode(EASE_CIRCULAR_OUT) == Some(EasingType(Out, Circular))
    ensures Decode(EASE_CIRCULAR_IN_OUT) == Some(EasingType(InOut, Circular))
    ensures Decode(EASE_CIRCULAR_BOUNCING) == Some(EasingType(BouncingOutIn, Circular))
    ensures Decode(EASE_BACK_IN) == Some(EasingType(Direct, Back))
    ensures Decode(EASE_BACK_OUT) == Some(EasingType(Out, Back))
    ensures Decode(EASE_BACK_IN_OUT) == Some(EasingType(InOut, Back))
    ensures Decode(EASE_BACK_BOUNCING) == Some(EasingType(BouncingOutIn, Back))
    ensures Decode(EASE_ELASTIC_IN) == Some(EasingType(Direct, Elastic))
    ensures Decode(EASE_ELASTIC_OUT) == Some(EasingType(Out, Elastic))
    ensures Decode(EASE_ELASTIC_IN_OUT) == Some(EasingType(InOut, Elastic))
    ensures Decode(EASE_ELASTIC_BOUNCING) == Some(EasingType(BouncingOutIn, Elastic))
  {
  }

  /** The bounce and user constants decode to the style and family their names give. */
  lemma BounceAndUserTypesMeaning()
    ensures Decode(EASE_BOUNCE_IN) == Some(EasingType(Out, Bounce))
    ensures Decode(EASE_BOUNCE_OUT) == Some(EasingType(Direct, Bounce))
    ensures Decode(EASE_USER_DIRECT) == Some(EasingType(Direct, User))
    ensures Decode(EASE_USER_OUT) == Some(EasingType(Out, User))
    ensures Decode(EASE_USER_IN_OUT) == Some(EasingType(InOut, User))
    ensures Decode(EASE_USER_BOUNCING) == Some(EasingType(BouncingOutIn, User))
  {
  }
}
