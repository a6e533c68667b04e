/** Python's `float()` on text, restricted to plain decimal numerals: optional
    surrounding whitespace, an optional sign, digits with at most one decimal
    point, at least one digit. The value is the exact rational number written. */
module Decimal {
  import opened Wrappers
  import Text

  predicate IsDigit(c: char)
  {
    '0' <= c <= '9'
  }

  predicate AllDigits(s: string)
  {
    forall i :: 0 <= i < |s| ==> IsDigit(s[i])
  }

  /** The number a run of decimal digits denotes. */
  function DigitsValue(s: string): nat
    requires AllDigits(s)
    decreases |s|
  {
    if s == [] then 0 else DigitsValue(s[..|s| - 1]) * 10 + (s[|s| - 1] as int - '0' as int)
  }

  /** `x` shifted `n` places to the right of the decimal point: `x / 10^n`. */
  function Shifted(x: real, n: nat): real
  {
    if n == 0 then x else Shifted(x, n - 1) / 10.0
  }

  /** Position of the first `c` in `s`. */
  function IndexOf(s: string, c: char): (k: nat)
    requires c in s
    ensures k < |s| && s[k] == c && c !in s[..k]
  {
    if s[0] == c then 0 else 1 + IndexOf(s[1..], c)
  }

  /** The value of `whole.frac` when both parts are digit runs, not both empty. */
  function PointValue(whole: string, frac: string): Option<real>
  {
    if |whole| + |frac| > 0 && AllDigits(whole) && AllDigits(frac)
    then Some(DigitsValue(whole) as real + Shifted(DigitsValue(frac) as real, |frac|))
    else None
  }

  /** `digits [ "." digits ]` with at least one digit in all. */
  function ParseUnsigned(s: string): Option<real>
  {
    if '.' in s then
      var k := IndexOf(s, '.');
      PointValue(s[..k], s[k + 1..])
    else if s != [] && AllDigits(s) then Some(DigitsValue(s) as real)
    else None
  }

  /** What `float()` removes from both ends of its argument: the ASCII spaces
      `\t \n \v \f \r` and ' ', and the non-ASCII characters `str.isspace`
      accepts, which `float()` first turns into ' '. The control characters
      U+001C to U+001F count for `str.isspace` but are not removed here. */
  const FloatWhitespace: set<char> := Text.Whitespace - {'\U{1C}', '\U{1D}', '\U{1E}', '\U{1F}'}

  /** `float(s)`, with `None` where Python raises `ValueError`. */
  function ParseFloat(s: string): Option<real>
  {
    var t := Text.Strip(s, FloatWhitespace);
    if t != [] && t[0] == '-' then
      match ParseUnsigned(t[1..])
      case Some(x) => Some(-x)
      case None => None
    else if t != [] && t[0] == '+' then ParseUnsigned(t[1..])
    else ParseUnsigned(t)
  }

  /** Characters that may appear in a text `ParseFloat` accepts, besides whitespace. */
  predicate NumeralChar(c: char)
  {
    IsDigit(c) || c == '.' || c == '+' || c == '-'
  }

  lemma UnsignedAlphabet(s: string, c: char)
    requires ParseUnsigned(s).Some? && c in s
    ensures IsDigit(c) || c == '.'
  {
    var i :| 0 <= i < |s| && s[i] == c;
    if '.' in s {
      var k := IndexOf(s, '.');
      if i < k {
        assert s[..k][i] == c;
      } else if i > k {
        assert s[k + 1..][i - k - 1] == c;
      }
    }
  }

  /** A text holding any character that is not a digit, a point, a sign or
      whitespace is rejected: `float("1.2K")` and `float("~100")` raise. */
  lemma RejectsForeignChar(s: string, c: char)
    requires c in s && !NumeralChar(c) && c !in FloatWhitespace
    ensures ParseFloat(s) == None
  {
    var t := Text.Strip(s, FloatWhitespace);
    Text.StripKeepsOthers(s, FloatWhitespace, c);
    assert c != t[0] ==> c in t[1..] by {
      var i :| 0 <= i < |t| && t[i] == c;
      if i > 0 { assert t[1..][i - 1] == c; }
    }
    if ParseFloat(s).Some? {
      if t[0] == '-' || t[0] == '+' {
        UnsignedAlphabet(t[1..], c);
      } else {
        UnsignedAlphabet(t, c);
      }
    }
  }

  function DigitChar(d: nat): (c: char)
    requires d < 10
    ensures IsDigit(c)
  {
    ('0' as int + d) as char
  }

  /** The decimal numeral of `n`, without sign or leading zeros: Python's `str(n)`. */
  function DecimalDigits(n: nat): (s: string)
    ensures s != [] && AllDigits(s)
    decreases n
  {
    if n < 10 then [DigitChar(n)] else DecimalDigits(n / 10) + [DigitChar(n % 10)]
  }

  lemma {:induction false} DigitsRoundTrip(n: nat)
    ensures DigitsValue(DecimalDigits(n)) == n
    decreases n
  {
    var s := DecimalDigits(n);
    if n >= 10 {
      DigitsRoundTrip(n / 10);
      assert s[..|s| - 1] == DecimalDigits(n / 10);
    }
  }

  lemma IndexOfFirst(s: string, c: char, k: nat)
    requires k < |s| && s[k] == c && c !in s[..k]
    ensures IndexOf(s, c) == k
  {
    var j := IndexOf(s, c);
  }

  lemma DigitsNotWhitespace(s: string)
    requires AllDigits(s)
    ensures forall i :: 0 <= i < |s| ==> s[i] !in FloatWhitespace
  {
  }

  /** A non-empty run of digits needs no stripping and reads as its digits' value. */
  lemma ParseFloatOfDigitRun(s: string)
    requires s != [] && AllDigits(s)
    ensures ParseFloat(s) == Some(DigitsValue(s) as real)
  {
    DigitsNotWhitespace(s);
    Text.StripUnchanged(s, FloatWhitespace);
    UnsignedStart(s);
  }

  /** `float(str(n)) == n` for every natural number `n`. */
  lemma ParseFloatOfDigits(n: nat)
    ensures ParseFloat(DecimalDigits(n)) == Some(n as real)
  {
    ParseFloatOfDigitRun(DecimalDigits(n));
    DigitsRoundTrip(n);
  }

  lemma PointedUnstripped(d: string, frac: string)
    requires d != [] && AllDigits(d) && AllDigits(frac)
    ensures Text.Strip(d + "." + frac, FloatWhitespace) == d + "." + frac
  {
    var s := d + "." + frac;
    DigitsNotWhitespace(d);
    DigitsNotWhitespace(frac);
    assert s[0] == d[0];
    assert s[|s| - 1] !in FloatWhitespace by {
      if frac != [] { assert s[|s| - 1] == frac[|frac| - 1]; } else { assert s[|s| - 1] == '.'; }
    }
    Text.StripUnchanged(s, FloatWhitespace);
  }

  lemma PointedUnsigned(d: string, frac: string)
    requires d != [] && AllDigits(d) && AllDigits(frac)
    ensures ParseUnsigned(d + "." + frac) == PointValue(d, frac)
  {
    var s := d + "." + frac;
    assert s[|d|] == '.';
    assert s[..|d|] == d;
    assert '.' !in d by {
      forall i | 0 <= i < |d| ensures d[i] != '.' {
        assert IsDigit(d[i]);
      }
    }
    IndexOfFirst(s, '.', |d|);
    var k := IndexOf(s, '.');
    assert s[k + 1..] == frac;
    assert ParseUnsigned(s) == PointValue(d, frac);
  }

  /** A text that needs no stripping and starts with a digit is parsed unsigned. */
  lemma UnsignedStart(s: string)
    requires s != [] && IsDigit(s[0]) && Text.Strip(s, FloatWhitespace) == s
    ensures ParseFloat(s) == ParseUnsigned(s)
  {
    var t := Text.Strip(s, FloatWhitespace);
    assert t[0] != '-' && t[0] != '+';
  }

  /** `float("<d>.<frac>")` for digit runs `d` (non-empty) and `frac`: the whole
      part plus the fraction the digits of `frac` denote (see `PointValue`). */
  lemma ParseFloatOfPointed(d: string, frac: string)
    requires d != [] && AllDigits(d) && AllDigits(frac)
    ensures ParseFloat(d + "." + frac) == PointValue(d, frac)
  {
    var s := d + "." + frac;
    assert ParseUnsigned(s) == PointValue(d, frac) by {
      PointedUnsigned(d, frac);
    }
    assert ParseFloat(s) == ParseUnsigned(s) by {
      PointedUnstripped(d, frac);
      assert s[0] == d[0];
      UnsignedStart(s);
    }
  }

  /** `float("<a>.<b>")` for single digits `a` and `b`: a whole number of tenths. */
  lemma ParseFloatOfTenths(a: nat, b: nat)
    requires a < 10 && b < 10
    ensures ParseFloat([DigitChar(a), '.', DigitChar(b)]) == Some(a as real + b as real / 10.0)
  {
    var d, f := [DigitChar(a)], [DigitChar(b)];
    var s := [DigitChar(a), '.', DigitChar(b)];
    assert ParseFloat(s) == PointValue(d, f) by {
      assert d + "." + f == s;
      ParseFloatOfPointed(d, f);
    }
    assert PointValue(d, f) == Some(a as real + b as real / 10.0) by {
      assert DigitsValue(d) == a && DigitsValue(f) == b;
      assert Shifted(b as real, 1) == b as real / 10.0;
    }
  }
}
