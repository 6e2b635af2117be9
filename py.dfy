// Python value semantics shared by every module: optional floats, NaN,
// truthiness, guarded comparisons and `float(...)` conversion.

module Py {
  import opened Strings

  datatype Option<T> = None | Some(value: T)

  /** A Python float. NaN is kept apart because it is truthy and compares false. */
  datatype Float = NaN | Fin(r: real)

  /** A raw cell read from a provider frame or a JSON payload. */
  datatype Cell = CNone | CNum(f: Float) | CStr(s: string)

  /** Python truthiness of an optional float: None and 0.0 are falsy, NaN is truthy. */
  predicate Truthy(x: Option<Float>)
  {
    x.Some? && (x.value.NaN? || x.value.r != 0.0)
  }

  /** Python truthiness of a cell: None, 0, 0.0 and "" are falsy, NaN is truthy. */
  predicate CellTruthy(c: Cell)
  {
    match c
    case CNone => false
    case CNum(f) => f.NaN? || f.r != 0.0
    case CStr(s) => s != ""
  }

  /** `a > b` on floats; any comparison involving NaN is false. */
  predicate Gt(a: Float, b: Float)
  {
    a.Fin? && b.Fin? && a.r > b.r
  }

  /** `a is not None and b is not None and a > b` */
  predicate SomeGt(a: Option<Float>, b: Option<Float>)
  {
    a.Some? && b.Some? && Gt(a.value, b.value)
  }

  /** A value that is neither None nor NaN (pandas `notna`). */
  predicate Present(x: Option<Float>)
  {
    x.Some? && x.value.Fin?
  }

  /** Multiplication of a float by a constant; NaN propagates. */
  function Scale(x: Float, k: real): (y: Float)
    ensures y.NaN? <==> x.NaN?
    ensures x.Fin? ==> y.r == x.r * k
  {
    if x.NaN? then NaN else Fin(x.r * k)
  }

  /** A numpy float result that may also be infinite, as a division by zero gives. */
  datatype Extended = ENaN | Inf(positive: bool) | Num(r: real)

  /** numpy float division: by zero it gives inf with the sign of the numerator, or NaN for 0/0. */
  function FloatDiv(a: Float, b: Float): (r: Extended)
    ensures r.ENaN? <==> a.NaN? || b.NaN? || (b.r == 0.0 && a.r == 0.0)
    ensures r.Num? ==> b.r != 0.0 && r.r * b.r == a.r
    ensures r.Inf? ==> b.r == 0.0 && (r.positive <==> a.r > 0.0)
  {
    if a.NaN? || b.NaN? then ENaN
    else if b.r == 0.0 then (if a.r > 0.0 then Inf(true) else if a.r < 0.0 then Inf(false) else ENaN)
    else Num(a.r / b.r)
  }

  lemma NaNComparesFalse(x: Float)
    ensures !Gt(NaN, x) && !Gt(x, NaN)
  {
  }

  lemma DefinedGtNeedsBoth(a: Option<Float>, b: Option<Float>)
    ensures SomeGt(a, b) ==> Present(a) && Present(b)
  {
  }

  /** Value of a non-empty run of decimal digits. */
  function DigitsValue(s: string): nat
    requires AllDigits(s)
  {
    if |s| == 0 then 0 else DigitsValue(s[..|s| - 1]) * 10 + DigitValue(s[|s| - 1])
  }

  function Pow10(n: nat): (p: nat)
    ensures p >= 1
  {
    if n == 0 then 1 else 10 * Pow10(n - 1)
  }

  /** Value of the digits after a decimal point. */
  function FractionValue(fp: string): real
    requires AllDigits(fp)
  {
    DigitsValue(fp) as real / Pow10(|fp|) as real
  }

  /** An unsigned decimal `digits[.digits]`, `.digits` or `digits.`, with at least one digit. */
  function ParseUnsigned(s: string): Option<real>
  {
    var i := IndexOf(s, '.');
    if i == |s| then
      if |s| > 0 && AllDigits(s) then Some(DigitsValue(s) as real) else None
    else
      var ip := s[..i];
      var fp := s[i + 1..];
      if AllDigits(ip) && AllDigits(fp) && |ip| + |fp| > 0 then
        Some(DigitsValue(ip) as real + FractionValue(fp))
      else
        None
  }

  /**
   * Python `float(s)` on a string: surrounding whitespace is ignored, an optional
   * sign is accepted, "nan" in any case gives NaN. None stands for a ValueError.
   */
  function ParseFloat(s: string): Option<Float>
  {
    var t := Strip(s);
    var neg := |t| > 0 && t[0] == '-';
    var body := if |t| > 0 && (t[0] == '-' || t[0] == '+') then t[1..] else t;
    if Lower(body) == "nan" then Some(NaN)
    else
      match ParseUnsigned(body)
      case None => None
      case Some(v) => Some(Fin(if neg then -v else v))
  }

  /** Python `float(x)` on a cell; None stands for a raised TypeError or ValueError. */
  function ToFloat(c: Cell): Option<Float>
  {
    match c
    case CNone => None
    case CNum(f) => Some(f)
    case CStr(s) => ParseFloat(s)
  }

  /** `pd.to_numeric(errors='coerce')` on one text: its value, or NaN when it does not parse. */
  function ToNumeric(s: string): (f: Float)
    ensures ParseFloat(s).Some? ==> f == ParseFloat(s).value
    ensures ParseFloat(s).None? ==> f == NaN
  {
    match ParseFloat(s)
    case None => NaN
    case Some(x) => x
  }

  /** `pd.to_numeric(x, errors='coerce')` on one cell: None becomes NaN. */
  function CellToNumeric(c: Cell): Float
  {
    match c
    case CNone => NaN
    case CNum(x) => x
    case CStr(s) => ToNumeric(s)
  }

  /** `float(x) if x else None` on a string cell of a provider row. */
  function FloatIfNonEmpty(s: string): Option<Option<Float>>
  {
    if s == "" then Some(None)
    else match ParseFloat(s)
      case None => None
      case Some(f) => Some(Some(f))
  }

  lemma DigitsValueOfNat(n: nat)
    ensures AllDigits(NatToString(n)) && DigitsValue(NatToString(n)) == n
  {
    NatToStringDigits(n);
    if n >= 10 {
      DigitsValueOfNat(n / 10);
      var s := NatToString(n);
      assert s == NatToString(n / 10) + [DigitChar(n % 10)];
      assert s[..|s| - 1] == NatToString(n / 10);
    }
  }

  lemma ParseUnsignedDigits(s: string)
    requires AllDigits(s) && |s| > 0
    ensures ParseUnsigned(s) == Some(DigitsValue(s) as real)
  {
    IndexOfAbsent(s, '.');
  }

  lemma NotNaN(s: string)
    requires AllDigits(s) && |s| > 0
    ensures Lower(s) != "nan"
  {
    LowerDigits(s);
    assert "nan"[0] == 'n';
  }

  /** Formatting a whole number and parsing it back gives the number again. */
  lemma ParseFloatOfNat(n: nat)
    ensures ParseFloat(NatToString(n)) == Some(Fin(n as real))
  {
    NatToStringDigits(n);
    DigitsValueOfNat(n);
    ParseFloatDigits(NatToString(n));
  }

  /** A non-empty run of digits parses to its value. */
  lemma ParseFloatDigits(s: string)
    requires AllDigits(s) && |s| > 0
    ensures ParseFloat(s) == Some(Fin(DigitsValue(s) as real))
  {
    StripDigits(s);
    assert s[0] != '-' && s[0] != '+';
    NotNaN(s);
    ParseUnsignedDigits(s);
    var t := Strip(s);
    assert t == s;
    assert !(|t| > 0 && t[0] == '-') && !(|t| > 0 && (t[0] == '-' || t[0] == '+'));
  }

  /** The same for a negative whole number written with a leading minus sign. */
  lemma ParseFloatOfNegative(n: nat)
    ensures ParseFloat("-" + NatToString(n)) == Some(Fin(-(n as real)))
  {
    var s := NatToString(n);
    var t := "-" + s;
    DigitsValueOfNat(n);
    StripSigned(s);
    assert t[1..] == s;
    NotNaN(s);
    ParseUnsignedDigits(s);
  }
}
