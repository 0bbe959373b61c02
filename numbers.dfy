/**
 * The numeric input path of the calculator screen: `parseNumber` in main.js,
 * which swaps the first decimal comma for a period and hands the text to
 * JavaScript's `Number(...)`.
 *
 * `Number(...)` itself is modelled by a plain decimal grammar: an optional sign,
 * decimal digits with at most one '.', and at least one digit. Exponents, hex
 * prefixes, surrounding white space and "Infinity" are not part of it.
 * Values are exact reals; NaN is a constructor of its own.
 */
module Numbers {

  /** A JavaScript number as far as the calculator uses it: NaN or a finite value. */
  datatype JsNumber = NaN | Finite(value: real)

  /** The rejection test of the validation gate: `isNaN(x) || x <= 0`. */
  predicate IsBadQuantity(n: JsNumber) {
    n.NaN? || n.value <= 0.0
  }

  predicate IsDigit(c: char) {
    '0' <= c <= '9'
  }

  predicate AllDigits(s: string) {
    forall i :: 0 <= i < |s| ==> IsDigit(s[i])
  }

  function Pow10(n: nat): (p: nat)
    ensures p >= 1
    ensures n > 0 ==> p >= 10
  {
    if n == 0 then 1 else 10 * Pow10(n - 1)
  }

  /** The value of a string of decimal digits, most significant first. */
  function DigitsValue(ds: string): (v: nat)
    requires AllDigits(ds)
    ensures v < Pow10(|ds|)
  {
    if ds == [] then 0
    else DigitsValue(ds[..|ds| - 1]) * 10 + ((ds[|ds| - 1] as int) - ('0' as int))
  }

  /** Index of the first occurrence of `c` in `s`. */
  function FirstIndexOf(s: string, c: char): (k: nat)
    requires c in s
    ensures k < |s| && s[k] == c
    ensures c !in s[..k]
  {
    if s[0] == c then 0
    else
      var k' := FirstIndexOf(s[1..], c);
      assert s[..k' + 1] == [s[0]] + s[1..][..k'];
      1 + k'
  }

  /**
   * `s.replace(pat, rep)` with a one-character string pattern: only the first
   * occurrence of `pat` is replaced.
   */
  function ReplaceFirst(s: string, pat: char, rep: char): (r: string)
    ensures |r| == |s|
    ensures pat !in s ==> r == s
    ensures pat in s ==> r == s[FirstIndexOf(s, pat) := rep]
  {
    if s == [] then []
    else if s[0] == pat then [rep] + s[1..]
    else
      var r' := ReplaceFirst(s[1..], pat, rep);
      assert pat in s ==> pat in s[1..] && FirstIndexOf(s, pat) == 1 + FirstIndexOf(s[1..], pat);
      [s[0]] + r'
  }

  /** An unsigned decimal literal: digits, optionally one '.', at least one digit. */
  function UnsignedDecimal(s: string): (n: JsNumber)
    ensures n.Finite? ==> n.value >= 0.0
  {
    if '.' in s then
      var k := FirstIndexOf(s, '.');
      var whole, frac := s[..k], s[k + 1..];
      if AllDigits(whole) && AllDigits(frac) && |whole| + |frac| > 0 then
        Finite(DigitsValue(whole) as real + DigitsValue(frac) as real / Pow10(|frac|) as real)
      else NaN
    else if AllDigits(s) && |s| > 0 then Finite(DigitsValue(s) as real)
    else NaN
  }

  function Negate(n: JsNumber): JsNumber {
    match n
    case NaN => NaN
    case Finite(x) => Finite(-x)
  }

  /** JavaScript's `Number(str)`, restricted to a plain decimal grammar. The empty string gives 0. */
  function ToNumber(s: string): (n: JsNumber)
    ensures s == [] ==> n == Finite(0.0)
    ensures |s| > 0 && s[0] == '-' && n.Finite? ==> n.value <= 0.0
    ensures |s| > 0 && s[0] != '-' && n.Finite? ==> n.value >= 0.0
  {
    if s == [] then Finite(0.0)
    else if s[0] == '-' then Negate(UnsignedDecimal(s[1..]))
    else if s[0] == '+' then UnsignedDecimal(s[1..])
    else UnsignedDecimal(s)
  }

  /** main.js `parseNumber`: empty text is NaN; otherwise the first ',' becomes '.' before conversion. */
  function ParseNumber(s: string): (n: JsNumber)
    ensures s == "" ==> n == NaN
    ensures s != "" && ',' !in s ==> n == ToNumber(s)
  {
    if s == "" then NaN
    else ToNumber(ReplaceFirst(s, ',', '.'))
  }

  /** Every character of an accepted unsigned literal is a digit or a period. */
  lemma UnsignedDecimalChars(s: string, j: nat)
    requires UnsignedDecimal(s).Finite?
    requires j < |s|
    ensures IsDigit(s[j]) || s[j] == '.'
  {
    if '.' in s {
      var k := FirstIndexOf(s, '.');
      if j < k {
        assert s[..k][j] == s[j];
      } else if j > k {
        assert s[k + 1..][j - k - 1] == s[j];
      }
    }
  }

  /** An accepted unsigned literal holds at most one period. */
  lemma UnsignedDecimalOnePeriod(s: string, i: nat, j: nat)
    requires UnsignedDecimal(s).Finite?
    requires i < j < |s| && s[i] == '.'
    ensures s[j] != '.'
  {
    var k := FirstIndexOf(s, '.');
    assert s[k + 1..][j - k - 1] == s[j];
  }

  /** `Number` gives NaN for any text holding a comma. */
  lemma ToNumberRejectsComma(s: string, j: nat)
    requires j < |s| && s[j] == ','
    ensures ToNumber(s) == NaN
  {
    if s[0] == '-' || s[0] == '+' {
      if UnsignedDecimal(s[1..]).Finite? {
        UnsignedDecimalChars(s[1..], j - 1);
      }
    } else if UnsignedDecimal(s).Finite? {
      UnsignedDecimalChars(s, j);
    }
  }

  /** `Number` gives NaN for any text holding two periods. */
  lemma ToNumberRejectsTwoPeriods(s: string, i: nat, j: nat)
    requires i < j < |s| && s[i] == '.' && s[j] == '.'
    ensures ToNumber(s) == NaN
  {
    if s[0] != '-' && s[0] != '+' && UnsignedDecimal(s).Finite? {
      UnsignedDecimalOnePeriod(s, i, j);
    }
  }

  /** A comma after the first one survives the replacement, so the text is rejected. */
  lemma {:induction false} ParseNumberRejectsSecondComma(s: string, i: nat, j: nat)
    requires i < j < |s| && s[i] == ',' && s[j] == ','
    ensures ParseNumber(s) == NaN
  {
    var r := ReplaceFirst(s, ',', '.');
    assert r[j] == ',';
    ToNumberRejectsComma(r, j);
  }

  /** Text mixing a comma and a period (a thousands separator) becomes two periods and is rejected. */
  lemma {:induction false} ParseNumberRejectsCommaAndPeriod(s: string, i: nat, j: nat)
    requires i < |s| && j < |s| && s[i] == ',' && s[j] == '.'
    ensures ParseNumber(s) == NaN
  {
    var k := FirstIndexOf(s, ',');
    var r := ReplaceFirst(s, ',', '.');
    assert r[k] == '.' && r[j] == '.';
    if k < j {
      ToNumberRejectsTwoPeriods(r, k, j);
    } else {
      ToNumberRejectsTwoPeriods(r, j, k);
    }
  }

  /** The value of `whole` "." `frac`, both decimal digit strings. */
  function DecimalValue(whole: string, frac: string): (x: real)
    requires AllDigits(whole) && AllDigits(frac)
    ensures x >= DigitsValue(whole) as real
    ensures x < DigitsValue(whole) as real + 1.0
  {
    var d, p := DigitsValue(frac) as real, Pow10(|frac|) as real;
    FractionBelowOne(d, p);
    DigitsValue(whole) as real + d / p
  }

  lemma FractionBelowOne(d: real, p: real)
    requires 0.0 <= d < p
    ensures 0.0 <= d / p < 1.0
  {
    assert (d / p) * p == d;
  }

  /** The first `c` in `a` + [c] + `b` is the one after `a` when `a` holds none. */
  lemma FirstIndexAfter(a: string, c: char, b: string)
    requires c !in a
    ensures c in a + [c] + b && FirstIndexOf(a + [c] + b, c) == |a|
  {
    var s := a + [c] + b;
    assert s[|a|] == c;
  }

  /** The value of an unsigned literal `whole` "." `frac`. */
  lemma UnsignedDecimalValue(whole: string, frac: string)
    requires AllDigits(whole) && AllDigits(frac) && |whole| + |frac| > 0
    ensures UnsignedDecimal(whole + "." + frac) == Finite(DecimalValue(whole, frac))
  {
    var p := whole + "." + frac;
    FirstIndexAfter(whole, '.', frac);
    assert p[..|whole|] == whole && p[|whole| + 1..] == frac;
  }

  /** A decimal comma and a decimal period read the same: "0,05" and "0.05" are both 0.05. */
  lemma {:induction false} ParseNumberDecimalComma(whole: string, frac: string)
    requires AllDigits(whole) && AllDigits(frac) && |whole| + |frac| > 0
    ensures ParseNumber(whole + "," + frac) == Finite(DecimalValue(whole, frac))
    ensures ParseNumber(whole + "." + frac) == Finite(DecimalValue(whole, frac))
  {
    var c, p := whole + "," + frac, whole + "." + frac;
    FirstIndexAfter(whole, ',', frac);
    assert ReplaceFirst(c, ',', '.') == p;
    assert p[0] != '-' && p[0] != '+' by {
      if |whole| > 0 { assert p[0] == whole[0]; }
    }
    UnsignedDecimalValue(whole, frac);
  }

  /** A leading minus sign never yields a positive value. */
  lemma {:induction false} ParseNumberMinusSign(s: string)
    requires |s| > 0 && s[0] == '-'
    ensures IsBadQuantity(ParseNumber(s))
  {
    var r := ReplaceFirst(s, ',', '.');
    if ',' in s {
      var k := FirstIndexOf(s, ',');
      assert k != 0;
    }
    assert r[0] == '-';
  }
}
