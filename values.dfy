/**
 A cell of a table, or a scalar of a quote message: text, an exact number,
 or missing (JSON null, SQL NULL, pandas NaN). Also the numeric coercions
 the workflows apply to cells.
 */
module Values {
  import opened Wrappers

  datatype Value = Text(text: string) | Number(x: real) | Missing

  predicate IsDigit(c: char) { '0' <= c <= '9' }

  predicate AllDigits(s: string) { forall i :: 0 <= i < |s| ==> IsDigit(s[i]) }

  function DigitValue(c: char): nat
    requires IsDigit(c)
  {
    c as int - '0' as int
  }

  /** The number a string of decimal digits denotes (the empty string denotes 0). */
  function DigitsValue(s: string): nat
    requires AllDigits(s)
  {
    if s == [] then 0 else DigitsValue(s[..|s| - 1]) * 10 + DigitValue(s[|s| - 1])
  }

  function Pow10(n: nat): (r: nat)
    ensures r > 0
  {
    if n == 0 then 1 else 10 * Pow10(n - 1)
  }

  /** The index of the first '.' in s, or |s| when s has none. */
  function DotIndex(s: string): (i: nat)
    ensures i <= |s|
    ensures i < |s| ==> s[i] == '.'
    ensures forall j :: 0 <= j < i ==> s[j] != '.'
  {
    if s == [] then 0 else if s[0] == '.' then 0 else 1 + DotIndex(s[1..])
  }

  /** An unsigned decimal: digits, optionally a '.' and more digits, at least one digit in all. */
  function ParseUnsigned(s: string): Option<real>
  {
    var d := DotIndex(s);
    var whole := s[..d];
    var frac := if d < |s| then s[d + 1..] else [];
    if AllDigits(whole) && AllDigits(frac) && |whole| + |frac| > 0 then
      Some(DigitsValue(whole) as real + DigitsValue(frac) as real / Pow10(|frac|) as real)
    else
      None
  }

  /**
   A decimal with an optional sign: '+' or '-', digits, optionally '.' and more
   digits. This is the plain-decimal part of what float() and to_numeric accept;
   exponents, surrounding whitespace and the words for infinity and NaN are not read.
   */
  function ParseDecimal(s: string): Option<real>
  {
    if |s| > 0 && s[0] == '-' then
      match ParseUnsigned(s[1..])
      case Some(x) => Some(-x)
      case None => None
    else if |s| > 0 && s[0] == '+' then ParseUnsigned(s[1..])
    else ParseUnsigned(s)
  }

  /**
   pandas.to_numeric(..., errors='coerce') on one cell: numbers stay, text that
   reads as a number becomes that number, everything else becomes missing.
   */
  function ToNumeric(v: Value): (r: Value)
    ensures !r.Text?
    ensures v.Number? ==> r == v
    ensures v.Missing? ==> r.Missing?
    ensures v.Text? ==> (r.Number? <==> ParseDecimal(v.text).Some?)
  {
    match v
    case Number(_) => v
    case Missing => Missing
    case Text(s) =>
      match ParseDecimal(s)
      case Some(x) => Number(x)
      case None => Missing
  }

  /** The number a cell holds after coercion; NaN and missing read as None. */
  function NumberOf(v: Value): Option<real>
  {
    if v.Number? then Some(v.x) else None
  }

  /** Python's float() of a cell: a number, NaN for missing, the parsed text for text. */
  function FloatOf(v: Value): Option<real>
  {
    match v
    case Number(x) => Some(x)
    case Missing => None
    case Text(s) => ParseDecimal(s)
  }

  /** The decimal digits of n, most significant first, as str(n) writes them. */
  function NatText(n: nat): (s: string)
    ensures |s| > 0 && AllDigits(s)
  {
    var c := ('0' as int + n % 10) as char;
    if n < 10 then [c] else NatText(n / 10) + [c]
  }

  lemma {:induction false} NatTextValue(n: nat)
    ensures DigitsValue(NatText(n)) == n
  {
    var s := NatText(n);
    var c := ('0' as int + n % 10) as char;
    if n >= 10 {
      NatTextValue(n / 10);
      assert s[..|s| - 1] == NatText(n / 10);
      assert s[|s| - 1] == c;
    }
  }

  /** Coercing the text a whole number is written as gives back that number. */
  lemma ToNumericOfNatText(n: nat)
    ensures ToNumeric(Text(NatText(n))) == Number(n as real)
  {
    var s := NatText(n);
    NatTextValue(n);
    assert forall i :: 0 <= i < |s| ==> s[i] != '.' by {
      forall i | 0 <= i < |s| ensures s[i] != '.' { assert IsDigit(s[i]); }
    }
    assert s[..|s|] == s;
    assert !(s[0] == '-' || s[0] == '+') by { assert IsDigit(s[0]); }
  }

  /** Coercion is idempotent: coercing an already coerced column changes nothing. */
  lemma ToNumericIdempotent(v: Value)
    ensures ToNumeric(ToNumeric(v)) == ToNumeric(v)
  {
  }
}
