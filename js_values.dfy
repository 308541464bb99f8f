/**
 * JavaScript values as the bridge's command handlers see them after
 * `JSON.parse`: the parameters of a command, the coordinate tests of
 * `validCoords`, JavaScript truthiness (`v || default`) and the numeric
 * coercion that `Math.min` and the global `isFinite` apply.
 */
module JsValues {

  datatype Option<+T> = None | Some(value: T)

  /** A JavaScript number as far as the bridge tells numbers apart. */
  datatype JsNum = Finite(r: real) | NaN | PosInf | NegInf

  /** A JavaScript value reachable from a parsed JSON command. */
  datatype JsValue =
    | Undefined
    | Null
    | Bool(b: bool)
    | Num(n: JsNum)
    | Str(s: string)
    | Obj(fields: map<string, JsValue>)

  /** A number literal, for the constants of the handlers. */
  function Int(i: int): JsValue {
    Num(Finite(i as real))
  }

  /** JavaScript truthiness, as used by `if (v)`, `v || d` and `v ? a : b`. */
  predicate Truthy(v: JsValue) {
    match v
    case Undefined => false
    case Null => false
    case Bool(b) => b
    case Num(n) => n != NaN && n != Finite(0.0)
    case Str(s) => s != ""
    case Obj(_) => true
  }

  /** `v || d`: the value itself when truthy, else the default. */
  function OrElse(v: JsValue, d: JsValue): (r: JsValue)
    ensures Truthy(v) ==> r == v
    ensures !Truthy(v) ==> r == d
  {
    if Truthy(v) then v else d
  }

  /** Property access `o.name` on a parsed value: absent properties read as undefined. */
  function Field(o: JsValue, name: string): (r: JsValue)
    ensures o.Obj? && name in o.fields ==> r == o.fields[name]
    ensures !(o.Obj? && name in o.fields) ==> r == Undefined
  {
    if o.Obj? && name in o.fields then o.fields[name] else Undefined
  }

  // ---------------------------------------------------------------------
  // Decimal digit strings (used by ToNumber on strings and by the texts of
  // outbound messages)
  // ---------------------------------------------------------------------

  predicate IsDigit(c: char) {
    '0' <= c <= '9'
  }

  predicate AllDigits(s: string) {
    forall i :: 0 <= i < |s| ==> IsDigit(s[i])
  }

  /** The value of a string of decimal digits, most significant first. */
  function DigitsValue(s: string): nat
    requires AllDigits(s)
  {
    if s == [] then 0
    else DigitsValue(s[..|s| - 1]) * 10 + ((s[|s| - 1] as int) - ('0' as int))
  }

  function DigitChar(d: nat): (c: char)
    requires d < 10
    ensures IsDigit(c) && (c as int) - ('0' as int) == d
  {
    "0123456789"[d]
  }

  /** The decimal text of a natural number, as a template literal renders it. */
  function NatText(n: nat): (s: string)
    ensures |s| >= 1 && AllDigits(s)
    ensures s[0] == '0' ==> n == 0
  {
    if n < 10 then [DigitChar(n)] else NatText(n / 10) + [DigitChar(n % 10)]
  }

  /** Reading back the text of a number gives the number. */
  lemma {:induction false} NatTextRoundTrip(n: nat)
    ensures DigitsValue(NatText(n)) == n
  {
    if n >= 10 {
      var s := NatText(n);
      assert s[..|s| - 1] == NatText(n / 10);
      NatTextRoundTrip(n / 10);
    }
  }

  /**
   * `Number(s)` for the string shapes a controller sends: the empty string,
   * a decimal integer with an optional sign, or "Infinity" with an optional
   * sign; any other string is NaN here (decimals, exponents, hex and
   * surrounding whitespace are not modelled).
   */
  function StringToNumber(s: string): (n: JsNum)
    ensures s == "" ==> n == Finite(0.0)
    ensures s != "" && AllDigits(s) ==> n == Finite(DigitsValue(s) as real)
    ensures |s| > 1 && s[0] == '+' && AllDigits(s[1..]) ==> n == Finite(DigitsValue(s[1..]) as real)
    ensures |s| > 1 && s[0] == '-' && AllDigits(s[1..]) ==> n == Finite(-(DigitsValue(s[1..]) as real))
    ensures n == PosInf <==> s == "Infinity" || s == "+Infinity"
    ensures n == NegInf <==> s == "-Infinity"
  {
    if s == "" then Finite(0.0)
    else if AllDigits(s) then Finite(DigitsValue(s) as real)
    else if |s| > 1 && s[0] == '-' && AllDigits(s[1..]) then Finite(-(DigitsValue(s[1..]) as real))
    else if |s| > 1 && s[0] == '+' && AllDigits(s[1..]) then Finite(DigitsValue(s[1..]) as real)
    else if s == "Infinity" || s == "+Infinity" then PosInf
    else if s == "-Infinity" then NegInf
    else NaN
  }

  /** The numeric coercion `ToNumber` applied by `Math.min` and the global `isFinite`. */
  function ToNumber(v: JsValue): (n: JsNum)
    ensures v.Num? ==> n == v.n
    ensures v == Undefined ==> n == NaN
    ensures v == Null ==> n == Finite(0.0)
  {
    match v
    case Undefined => NaN
    case Null => Finite(0.0)
    case Bool(b) => Finite(if b then 1.0 else 0.0)
    case Num(n) => n
    case Str(s) => StringToNumber(s)
    case Obj(_) => NaN
  }

  /** The text of a number read back as a number is that number. */
  lemma NatTextToNumber(n: nat)
    ensures ToNumber(Str(NatText(n))) == Finite(n as real)
  {
    NatTextRoundTrip(n);
  }

  /** The order of non-NaN numbers. */
  predicate NumLessEq(a: JsNum, b: JsNum)
    requires a != NaN && b != NaN
  {
    a == NegInf || b == PosInf || (a.Finite? && b.Finite? && a.r <= b.r)
  }

  /** `Math.min(a, b)` on numbers that are already coerced. */
  function JsMin(a: JsNum, b: JsNum): (m: JsNum)
    ensures m == NaN <==> (a == NaN || b == NaN)
    ensures m != NaN ==> (m == a || m == b) && NumLessEq(m, a) && NumLessEq(m, b)
  {
    if a == NaN || b == NaN then NaN
    else if NumLessEq(a, b) then a
    else b
  }

  // ---------------------------------------------------------------------
  // Coordinate validation
  // ---------------------------------------------------------------------

  /** `typeof v === 'number' && isFinite(v)`. */
  predicate IsFiniteNumber(v: JsValue) {
    v.Num? && v.n.Finite?
  }

  /**
   * `validCoords` of the modular bridge: each coordinate must be of type
   * number and finite, so null, undefined, strings, NaN and the infinities
   * are refused wherever they occur.
   */
  function ValidCoords(x: JsValue, y: JsValue, z: JsValue): (ok: bool)
    ensures ok <==> forall v :: v in [x, y, z] ==> v.Num? && ToNumber(v).Finite?
  {
    assert x == [x, y, z][0] && y == [x, y, z][1] && z == [x, y, z][2];
    IsFiniteNumber(x) && IsFiniteNumber(y) && IsFiniteNumber(z)
  }

  /**
   * `validCoords` of the monolithic bridge: only the global `isFinite` on
   * each argument, which coerces it to a number first.
   */
  function LegacyValidCoords(x: JsValue, y: JsValue, z: JsValue): (ok: bool)
    ensures ok <==> forall v :: v in [x, y, z] ==> ToNumber(v).Finite?
  {
    assert x == [x, y, z][0] && y == [x, y, z][1] && z == [x, y, z][2];
    ToNumber(x).Finite? && ToNumber(y).Finite? && ToNumber(z).Finite?
  }

  /** Whatever the strict test admits, the legacy test admits too. */
  lemma StrictCoordsAdmittedByLegacy(x: JsValue, y: JsValue, z: JsValue)
    ensures ValidCoords(x, y, z) ==> LegacyValidCoords(x, y, z)
  {
  }

  /** The legacy test is strictly weaker: it lets null, booleans and digit strings through. */
  lemma LegacyCoordsAcceptNonNumbers()
    ensures LegacyValidCoords(Null, Int(64), Int(0)) && !ValidCoords(Null, Int(64), Int(0))
    ensures LegacyValidCoords(Bool(true), Str("12"), Int(0)) && !ValidCoords(Bool(true), Str("12"), Int(0))
    ensures !LegacyValidCoords(Undefined, Int(64), Int(0))
  {
  }

  /**
   * The coordinate a validated value stands for. `new Vec3(x, y, z)` keeps
   * the values as given; the game library's arithmetic on the position
   * coerces them to numbers, and the model reads them as those numbers.
   */
  function CoordValue(v: JsValue): (r: real)
    requires ToNumber(v).Finite?
    ensures v.Num? ==> r == v.n.r
  {
    ToNumber(v).r
  }

  /**
   * JavaScript `a + k` for a validated coordinate `a` and a loop offset
   * `k`: a string is joined with the offset's digits as text; every other
   * value is added as the number it coerces to.
   */
  function PlusOffset(a: JsValue, k: nat): (r: JsValue)
    requires ToNumber(a).Finite?
    ensures a.Str? ==> r == Str(a.s + NatText(k))
    ensures !a.Str? ==> r == Num(Finite(ToNumber(a).r + k as real))
  {
    if a.Str? then Str(a.s + NatText(k)) else Num(Finite(ToNumber(a).r + k as real))
  }
}
