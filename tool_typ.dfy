/**
 * Lenient deserialisation helpers (src/tool/typ.rs).
 *
 * A JSON scalar reaches the visitors of `MyI64` as one of the shapes below;
 * every value a visitor does not implement is rejected with the visitor's
 * "expecting" text. Decimals are exact, so a `Decimal` is a `real` here, and
 * parsing decimal text is a parameter. `Global<T>` of this file is
 * `SpiderMod.Global`, which has the same body.
 */
module ToolTyp {
  import opened Wrappers
  import opened Num

  /** What the deserializer hands to a visitor. */
  datatype Scalar =
    | I64Val(i: I64)
    | U64Val(u: U64)
    | I32Val(i32: I32)
    | U32Val(u32: U32)
    | StrVal(s: string)
    | OtherVal

  datatype DeError =
    | InvalidType(expected: string)   // a shape the visitor does not accept
    | Custom(msg: string)             // `serde::de::Error::custom`

  /** The text of `MyValueVisitor::expecting`. */
  const Expecting: string := "an integer or a string"
  /** The text `MyDecimal` fails with on unparseable input. */
  const DecimalParseError: string := "Parse error"

  /** `value as i64` on a `u64`: the two's-complement reading of the same 64 bits. */
  function U64AsI64(u: U64): (r: I64)
    ensures (r - u) % U64Modulus == 0
    ensures u <= I64Max ==> r == u
    ensures u > I64Max ==> r < 0
  {
    if u <= I64Max then u else u - U64Modulus
  }

  /** Only one i64 shares the bits of `u`, so `U64AsI64` is the reinterpretation and not some other mapping. */
  lemma U64AsI64Unique(u: U64, y: I64)
    requires (y - u) % U64Modulus == 0
    ensures y == U64AsI64(u)
  {
    var r := U64AsI64(u);
    var d := y - r;
    assert d % U64Modulus == 0 by {
      assert y - u == d + (r - u);
    }
    assert -U64Modulus < d < U64Modulus;
  }

  /** `MyI64::deserialize`: which visitor runs and what it builds. */
  function MyI64From(v: Scalar): (r: Result<I64, DeError>)
    ensures r.Err? <==> v.OtherVal?
    ensures r.Err? ==> r.error == InvalidType(Expecting)
    ensures v.I64Val? ==> r == Ok(v.i)
    ensures v.U64Val? ==> r == Ok(U64AsI64(v.u))
    ensures v.U64Val? && v.u <= I64Max ==> r == Ok(v.u)
    ensures v.I32Val? ==> r == Ok(v.i32)
    ensures v.U32Val? ==> r == Ok(v.u32)
    ensures v.StrVal? ==> r == Ok(ParseI64(v.s).GetOr(0))
    ensures v.StrVal? && ParseI64(v.s).Some? ==> r == Ok(ParseI64(v.s).value)
  {
    match v
    case I64Val(i) => Ok(i)
    case U64Val(u) => Ok(U64AsI64(u))
    case I32Val(i) => Ok(i)
    case U32Val(u) => Ok(u)
    case StrVal(s) => Ok(ParseI64(s).GetOr(0))
    case OtherVal => Err(InvalidType(Expecting))
  }

  /** A u64 above i64's range comes out negative, 2^64 below the input. */
  lemma MyI64FromLargeU64(u: U64)
    requires u > I64Max
    ensures MyI64From(U64Val(u)) == Ok(u - U64Modulus)
    ensures MyI64From(U64Val(u)).value < 0
  {
  }

  /** A string that writes an i64 in decimal reads back as that number. */
  lemma MyI64FromShownInt(i: I64)
    ensures MyI64From(StrVal(ShowInt(i))) == Ok(i)
  {
    ParseShowInt(i);
  }

  /** Text `parse` accepts in other spellings, such as "+5" or "007", decodes to its value too. */
  lemma MyI64FromSignedOrPadded(d: string)
    requires |d| > 0 && AllDigits(d) && DigitsValue(d) <= I64Max
    ensures MyI64From(StrVal(d)) == Ok(DigitsValue(d))
    ensures MyI64From(StrVal("+" + d)) == Ok(DigitsValue(d))
    ensures MyI64From(StrVal("0" + d)) == Ok(DigitsValue(d))
  {
    ParseI64Accepts(d);
  }

  /** A string that is not an i64 (the empty string, a lone sign, a non-digit, an overflow) gives 0 and no error. */
  lemma MyI64FromBadString(s: string)
    requires ParseI64(s).None?
    ensures MyI64From(StrVal(s)) == Ok(0)
  {
  }

  /** The empty string in particular. */
  lemma MyI64FromEmptyString()
    ensures MyI64From(StrVal("")) == Ok(0)
  {
    MyI64FromBadString("");
  }

  /**
   * `MyDecimal::deserialize`: anything but a string is rejected; the empty
   * string is 0; other text goes through `parse`, and a failure there is the
   * error "Parse error".
   */
  function MyDecimalFrom(v: Scalar, parse: string -> Option<real>): (r: Result<real, DeError>)
    ensures !v.StrVal? ==> r.Err? && r.error.InvalidType?
    ensures v.StrVal? && |v.s| == 0 ==> r == Ok(0.0)
    ensures v.StrVal? && |v.s| > 0 && parse(v.s).Some? ==> r == Ok(parse(v.s).value)
    ensures v.StrVal? && |v.s| > 0 && parse(v.s).None? ==> r == Err(Custom(DecimalParseError))
  {
    match v
    case StrVal(s) =>
      if |s| == 0 then Ok(0.0)
      else (match parse(s)
            case Some(d) => Ok(d)
            case None => Err(Custom(DecimalParseError)))
    case _ => Err(InvalidType("a string"))
  }

  /** A decimal with its fractional digits dropped, toward zero. */
  function Trunc(d: real): (t: int)
    ensures d >= 0.0 ==> 0.0 <= d - t as real < 1.0
    ensures d < 0.0 ==> -1.0 < d - t as real <= 0.0
  {
    if d >= 0.0 then d.Floor else -((-d).Floor)
  }

  /** `Decimal::to_i64`: the truncated value when it fits in an i64. */
  function DecimalToI64(d: real): (r: Option<I64>)
    ensures r.Some? <==> I64Min <= Trunc(d) <= I64Max
  {
    var t := Trunc(d);
    if I64Min <= t <= I64Max then Some(t) else None
  }

  /** `serialize_decimal_toi64`: the number written is the truncated decimal, or 0 when it does not fit. */
  function SerializeDecimalToI64(d: real): (r: I64)
    ensures I64Min <= Trunc(d) <= I64Max ==> r == Trunc(d)
    ensures !(I64Min <= Trunc(d) <= I64Max) ==> r == 0
  {
    DecimalToI64(d).GetOr(0)
  }

  /** The written integer never lies farther from zero than the decimal, and has its sign. */
  lemma SerializeDecimalToI64Bounded(d: real)
    ensures d >= 0.0 ==> 0 <= SerializeDecimalToI64(d) && SerializeDecimalToI64(d) as real <= d
    ensures d < 0.0 ==> SerializeDecimalToI64(d) <= 0 && d <= SerializeDecimalToI64(d) as real
  {
  }

  /** `serialize_decimal_tof64`: the converted float, or 0 when `toF64` has none. */
  function SerializeDecimalToF64(d: real, toF64: real -> Option<real>): (r: real)
    ensures toF64(d).None? ==> r == 0.0
    ensures toF64(d).Some? ==> r == toF64(d).value
  {
    toF64(d).GetOr(0.0)
  }
}
