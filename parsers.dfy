/** The two field parsers every script applies to its spreadsheet columns
    (`parse_followers` and `parse_engagement_rate`), defined once. */
module Parsers {
  import opened Wrappers
  import Text
  import Seqs
  import opened Decimal

  /** A spreadsheet cell as pandas hands it to `apply`: text, a number, or missing (NaN). */
  datatype Cell = Str(text: string) | Num(value: real) | NaN

  function ToCell(x: Option<real>): Cell
  {
    match x
    case Some(v) => Num(v)
    case None => NaN
  }

  function Scale(x: Option<real>, factor: real): Option<real>
  {
    match x
    case Some(v) => Some(v * factor)
    case None => None
  }

  /** The follower text after `strip("~+")`, `upper()`, removing every `,` and `strip()`. */
  function NormalizeFollowers(s: string): string
  {
    Text.StripWhitespace(Text.RemoveAll(Text.Upper(Text.Strip(s, {'~', '+'})), ','))
  }

  /** `parse_followers` on text: an `M` anywhere means millions, else a `K` anywhere
      means thousands (every marker is removed before `float()`), else a plain number;
      `None` wherever `float()` raises. */
  function ParseFollowersText(s: string): Option<real>
  {
    var t := NormalizeFollowers(s);
    if 'M' in t then Scale(ParseFloat(Text.RemoveAll(t, 'M')), 1000000.0)
    else if 'K' in t then Scale(ParseFloat(Text.RemoveAll(t, 'K')), 1000.0)
    else ParseFloat(t)
  }

  /** `parse_followers`: text is parsed, anything else is returned unchanged. */
  function ParseFollowers(v: Cell): (r: Cell)
    ensures !r.Str?
    ensures !v.Str? ==> r == v
    ensures v.Str? ==> (r.Num? <==> ParseFollowersText(v.text).Some?)
    ensures v.Str? && r.Num? ==> ParseFollowersText(v.text) == Some(r.value)
  {
    match v
    case Str(s) => ToCell(ParseFollowersText(s))
    case _ => v
  }

  /** `parse_engagement_rate` on text: `strip("~%")`, then `strip()`, then `float()`. */
  function ParseEngagementText(s: string): Option<real>
  {
    ParseFloat(Text.StripWhitespace(Text.Strip(s, {'~', '%'})))
  }

  /** `parse_engagement_rate`: text is parsed, anything else is returned unchanged. */
  function ParseEngagementRate(v: Cell): (r: Cell)
    ensures !r.Str?
    ensures !v.Str? ==> r == v
    ensures v.Str? ==> (r.Num? <==> ParseEngagementText(v.text).Some?)
    ensures v.Str? && r.Num? ==> ParseEngagementText(v.text) == Some(r.value)
  {
    match v
    case Str(s) => ToCell(ParseEngagementText(s))
    case _ => v
  }

  // ---------------------------------------------------------------------------
  // Normalisation of the follower text

  /** Digits with decimal points, starting and ending with a digit: "750", "1.2". */
  predicate Numeral(u: string)
  {
    u != [] && IsDigit(u[0]) && IsDigit(u[|u| - 1])
    && forall i :: 0 <= i < |u| ==> IsDigit(u[i]) || u[i] == '.'
  }

  lemma NumeralChars(u: string)
    requires Numeral(u)
    ensures forall i :: 0 <= i < |u| ==>
      u[i] !in Text.Whitespace && u[i] !in {'~', '+', '%', ',', 'M', 'K'} && Text.UpperChar(u[i]) == u[i]
  {
  }

  lemma UpperOfNumeral(u: string)
    requires Numeral(u)
    ensures Text.Upper(u) == u
  {
    NumeralChars(u);
  }

  lemma RemoveAbsent(s: string, c: char)
    requires c !in s
    ensures Text.RemoveAll(s, c) == s
  {
    Seqs.FilterKeepsAll(s, (d: char) => d != c);
  }

  lemma RemoveLast(u: string, c: char)
    requires c !in u
    ensures Text.RemoveAll(u + [c], c) == u
  {
    Seqs.FilterAppend(u, [c], (d: char) => d != c);
    RemoveAbsent(u, c);
  }

  /** A bare numeral is untouched by the normalisation. */
  lemma NormalizeNumeral(u: string)
    requires Numeral(u)
    ensures NormalizeFollowers(u) == u
  {
    NumeralChars(u);
    Text.StripUnchanged(u, {'~', '+'});
    UpperOfNumeral(u);
    RemoveAbsent(u, ',');
    Text.StripUnchanged(u, Text.Whitespace);
  }

  lemma UpperMarked(u: string, m: char)
    requires Numeral(u)
    ensures Text.Upper(u + [m]) == u + [Text.UpperChar(m)]
  {
    NumeralChars(u);
  }

  /** A numeral followed by a marker letter normalises to the numeral and the
      upper-case marker. */
  lemma NormalizeMarked(u: string, m: char)
    requires Numeral(u) && m in {'M', 'm', 'K', 'k'}
    ensures NormalizeFollowers(u + [m]) == u + [Text.UpperChar(m)]
  {
    NumeralChars(u);
    var s := u + [m];
    assert s[0] == u[0] && s[|s| - 1] == m;
    Text.StripUnchanged(s, {'~', '+'});
    var up := u + [Text.UpperChar(m)];
    UpperMarked(u, m);
    assert ',' !in up;
    RemoveAbsent(up, ',');
    assert up[0] == u[0] && up[|up| - 1] == Text.UpperChar(m);
    Text.PrintableNotWhitespace(up[0]);
    Text.PrintableNotWhitespace(up[|up| - 1]);
    Text.StripUnchanged(up, Text.Whitespace);
  }

  /** `~` in front and `+` behind are stripped before anything else. */
  lemma NormalizeApprox(u: string)
    requires Numeral(u)
    ensures NormalizeFollowers("~" + u + "+") == u
  {
    NumeralChars(u);
    var s := "~" + u + "+";
    assert s[1..] == u + "+";
    assert Text.TrimLeft(s, {'~', '+'}) == u + "+";
    assert (u + "+")[..|u|] == u;
    assert Text.TrimRight(u + "+", {'~', '+'}) == u;
    NormalizeNumeral(u);
  }

  // ---------------------------------------------------------------------------
  // Properties of parse_followers

  /** A plain numeral reads as `float()` reads it: "1200" is 1200. */
  lemma {:induction false} FollowersPlain(u: string)
    requires Numeral(u)
    ensures ParseFollowersText(u) == ParseFloat(u)
  {
    NumeralChars(u);
    NormalizeNumeral(u);
  }

  /** A numeral with an `M` (or `m`) is that many millions, with a `K` (or `k`)
      that many thousands: "1.2M" is 1,200,000 and "750k" is 750,000. */
  lemma {:induction false} FollowersMarked(u: string, m: char)
    requires Numeral(u) && m in {'M', 'm', 'K', 'k'}
    ensures ParseFollowersText(u + [m])
         == Scale(ParseFloat(u), if m in {'M', 'm'} then 1000000.0 else 1000.0)
  {
    NumeralChars(u);
    NormalizeMarked(u, m);
    var t := u + [Text.UpperChar(m)];
    if m in {'M', 'm'} {
      assert 'M' in t;
      RemoveLast(u, 'M');
    } else {
      assert 'M' !in t && 'K' in t;
      RemoveLast(u, 'K');
    }
  }

  /** "~10000+" is 10,000: an approximate marker in front and a plus behind are ignored. */
  lemma {:induction false} FollowersApprox(u: string)
    requires Numeral(u)
    ensures ParseFollowersText("~" + u + "+") == ParseFloat(u)
  {
    NumeralChars(u);
    NormalizeApprox(u);
  }

  /** The `M` test comes first and removes only `M`s, so a text holding both
      markers keeps its `K`, which `float()` rejects: the value is missing. */
  lemma {:induction false} BothMarkersMissing(s: string)
    requires 'M' in NormalizeFollowers(s) && 'K' in NormalizeFollowers(s)
    ensures ParseFollowersText(s) == None
  {
    var t := NormalizeFollowers(s);
    RejectsForeignChar(Text.RemoveAll(t, 'M'), 'K');
  }

  /** A `~` that survives normalisation makes the value missing: the `~` strip
      runs before the whitespace trim, so " ~100" is missing. */
  lemma {:induction false} TildeInsideMissing(s: string)
    requires '~' in NormalizeFollowers(s)
    ensures ParseFollowersText(s) == None
  {
    var t := NormalizeFollowers(s);
    if 'M' in t {
      RejectsForeignChar(Text.RemoveAll(t, 'M'), '~');
    } else if 'K' in t {
      RejectsForeignChar(Text.RemoveAll(t, 'K'), '~');
    } else {
      RejectsForeignChar(t, '~');
    }
  }

  /** The control characters U+001C to U+001F count as whitespace for `strip()`
      but not for `float()`. */
  predicate ControlSpace(x: char)
  {
    '\U{1C}' <= x <= '\U{1F}'
  }

  /** Upper-casing a numeral, such a character and a marker changes only the
      marker. */
  lemma UpperControl(u: string, x: char, m: char)
    requires Numeral(u) && ControlSpace(x)
    ensures Text.Upper(u + [x, m]) == u + [x, Text.UpperChar(m)]
  {
    NumeralChars(u);
    var s := u + [x, m];
    var up := u + [x, Text.UpperChar(m)];
    forall i | 0 <= i < |s| ensures Text.UpperChar(s[i]) == up[i] {
      if i < |u| {
        assert s[i] == u[i] && up[i] == u[i];
      }
    }
  }

  /** Normalisation keeps such a character that sits between a numeral and its
      marker. */
  lemma NormalizeControl(u: string, x: char, m: char)
    requires Numeral(u) && ControlSpace(x) && m in {'M', 'm', 'K', 'k'}
    ensures NormalizeFollowers(u + [x, m]) == u + [x, Text.UpperChar(m)]
  {
    var s := u + [x, m];
    var up := u + [x, Text.UpperChar(m)];
    assert Text.Strip(s, {'~', '+'}) == s by {
      NumeralChars(u);
      assert s[0] == u[0] && s[|s| - 1] == m;
      Text.StripUnchanged(s, {'~', '+'});
    }
    assert Text.RemoveAll(up, ',') == up by {
      NumeralChars(u);
      assert ',' !in up;
      RemoveAbsent(up, ',');
    }
    assert Text.Strip(up, Text.Whitespace) == up by {
      NumeralChars(u);
      assert up[0] == u[0] && up[|up| - 1] == Text.UpperChar(m);
      Text.PrintableNotWhitespace(up[0]);
      Text.PrintableNotWhitespace(up[|up| - 1]);
      Text.StripUnchanged(up, Text.Whitespace);
    }
    UpperControl(u, x, m);
  }

  /** `float()` rejects a numeral followed by such a character. */
  lemma ControlTailMissing(u: string, x: char)
    requires ControlSpace(x)
    ensures ParseFloat(u + [x]) == None
  {
    var v := u + [x];
    assert v[|u|] == x;
    Decimal.RejectsForeignChar(v, x);
  }

  /** Between a numeral and its marker such a character survives `strip()`, since
      the marker is last; removing the marker leaves it at the end, `float()` does
      not strip it, and the value is missing. */
  lemma {:induction false} ControlBeforeMarkerMissing(u: string, x: char, m: char)
    requires Numeral(u) && ControlSpace(x) && m in {'M', 'm', 'K', 'k'}
    ensures ParseFollowersText(u + [x, m]) == None
  {
    var v := u + [x];
    var t := v + [Text.UpperChar(m)];
    assert NormalizeFollowers(u + [x, m]) == t by {
      NormalizeControl(u, x, m);
      assert u + [x, Text.UpperChar(m)] == t;
    }
    assert 'M' !in v && 'K' !in v by {
      NumeralChars(u);
    }
    ControlTailMissing(u, x);
    if m in {'M', 'm'} {
      assert 'M' in t;
      RemoveLast(v, 'M');
    } else {
      assert 'M' !in t && 'K' in t;
      RemoveLast(v, 'K');
    }
  }

  lemma UnitSeparatorExample()
    ensures ParseFollowersText("5\U{1F}K") == None
  {
    assert "5" + ['\U{1F}', 'K'] == "5\U{1F}K";
    ControlBeforeMarkerMissing("5", '\U{1F}', 'K');
  }

  /** Whitespace in front of the `~` shields it from `strip("~+")`. */
  lemma {:induction false} SpaceBeforeTilde(u: string)
    requires Numeral(u)
    ensures ParseFollowersText(" ~" + u) == None
  {
    NumeralChars(u);
    var s := " ~" + u;
    Text.StripUnchanged(s, {'~', '+'});
    var up := Text.Upper(s);
    assert up == " ~" + u;
    assert ',' !in up;
    RemoveAbsent(up, ',');
    assert '~' in up;
    Text.PrintableNotWhitespace('~');
    Text.StripKeepsOthers(up, Text.Whitespace, '~');
    TildeInsideMissing(s);
  }

  lemma GroupedNormal(a: string, b: string)
    requires a != [] && b != [] && AllDigits(a) && AllDigits(b)
    ensures Text.Upper(Text.Strip(a + "," + b, {'~', '+'})) == a + "," + b
  {
    var s := a + "," + b;
    assert s[0] == a[0] && s[|s| - 1] == b[|b| - 1];
    Text.StripUnchanged(s, {'~', '+'});
    forall i | 0 <= i < |s| ensures Text.UpperChar(s[i]) == s[i] {
      assert s[i] == ',' || IsDigit(s[i]);
    }
  }

  lemma GroupedRemoval(a: string, b: string)
    requires AllDigits(a) && AllDigits(b)
    ensures Text.RemoveAll(a + "," + b, ',') == a + b
  {
    assert ',' !in a && ',' !in b by {
      assert forall i :: 0 <= i < |a| ==> IsDigit(a[i]);
      assert forall i :: 0 <= i < |b| ==> IsDigit(b[i]);
    }
    Seqs.FilterAppend(a + ",", b, (d: char) => d != ',');
    RemoveLast(a, ',');
    RemoveAbsent(b, ',');
  }

  /** Thousands separators are dropped: "1,200" reads as "1200". */
  lemma {:induction false} FollowersGrouped(a: string, b: string)
    requires a != [] && b != [] && AllDigits(a) && AllDigits(b)
    ensures ParseFollowersText(a + "," + b) == ParseFloat(a + b)
  {
    assert Numeral(a + b) by {
      assert (a + b)[0] == a[0] && (a + b)[|a + b| - 1] == b[|b| - 1];
    }
    GroupedNormal(a, b);
    GroupedRemoval(a, b);
    NormalizeNumeral(a + b);
    NumeralChars(a + b);
  }

  // ---------------------------------------------------------------------------
  // Properties of parse_engagement_rate

  lemma StripRate(u: string, pre: string, post: string)
    requires Numeral(u) && pre in {"", "~"} && post in {"", "%"}
    ensures Text.Strip(pre + u + post, {'~', '%'}) == u
  {
    NumeralChars(u);
    var s := pre + u + post;
    Text.TrimLeftSpec(s, {'~', '%'});
    if pre == "~" {
      assert s[1..] == u + post;
    } else {
      assert s == u + post;
    }
    var l := u + post;
    assert Text.TrimLeft(s, {'~', '%'}) == l;
    if post == "%" {
      assert l[..|u|] == u;
    } else {
      assert l == u;
    }
    assert Text.TrimRight(l, {'~', '%'}) == u;
  }

  /** A leading `~` and a trailing `%` are stripped: "~4.5%" and "4.5%" read as 4.5. */
  lemma {:induction false} RateDecorated(u: string)
    requires Numeral(u)
    ensures ParseEngagementText("~" + u + "%") == ParseFloat(u)
    ensures ParseEngagementText(u + "%") == ParseFloat(u)
    ensures ParseEngagementText(u) == ParseFloat(u)
  {
    NumeralChars(u);
    Text.StripUnchanged(u, Text.Whitespace);
    StripRate(u, "~", "%");
    StripRate(u, "", "%");
    assert "" + u + "%" == u + "%";
    StripRate(u, "", "");
    assert "" + u + "" == u;
  }

  /** Whitespace before the `%` is left by `strip("~%")` and removed by `strip()`:
      "4.5 %" reads as 4.5. */
  lemma {:induction false} RateSpacedPercent(u: string)
    requires Numeral(u)
    ensures ParseEngagementText(u + " %") == ParseFloat(u)
  {
    NumeralChars(u);
    var s := u + " %";
    assert s[0] == u[0];
    Text.TrimLeftSpec(s, {'~', '%'});
    assert Text.TrimLeft(s, {'~', '%'}) == s;
    assert s[..|s| - 1] == u + " ";
    assert Text.TrimRight(s, {'~', '%'}) == u + " ";
    var t := u + " ";
    assert t[0] == u[0];
    Text.TrimLeftSpec(t, Text.Whitespace);
    assert Text.TrimLeft(t, Text.Whitespace) == t;
    assert t[..|t| - 1] == u;
    assert Text.TrimRight(t, Text.Whitespace) == u;
  }

  /** Any character that is not part of a number, not whitespace and not one of
      the stripped decorations makes the rate missing: "abc" is missing. */
  lemma {:induction false} RateForeignMissing(s: string, c: char)
    requires c in s && !NumeralChar(c) && c !in Text.Whitespace && c !in {'~', '%'}
    ensures ParseEngagementText(s) == None
  {
    Text.StripKeepsOthers(s, {'~', '%'}, c);
    var t := Text.Strip(s, {'~', '%'});
    Text.StripKeepsOthers(t, Text.Whitespace, c);
    RejectsForeignChar(Text.StripWhitespace(t), c);
  }

  // ---------------------------------------------------------------------------
  // Worked examples

  lemma OnePointTwo()
    ensures ParseFloat("1.2") == Some(1.2)
  {
    assert [DigitChar(1), '.', DigitChar(2)] == "1.2";
    ParseFloatOfTenths(1, 2);
  }

  lemma FourPointFive()
    ensures ParseFloat("4.5") == Some(4.5)
  {
    assert [DigitChar(4), '.', DigitChar(5)] == "4.5";
    ParseFloatOfTenths(4, 5);
  }

  lemma NatExample(n: nat, u: string)
    requires DecimalDigits(n) == u
    ensures ParseFloat(u) == Some(n as real)
  {
    ParseFloatOfDigits(n);
  }

  lemma MillionsExample()
    ensures ParseFollowersText("1.2M") == Some(1200000.0)
  {
    var u := "1.2";
    assert u + ['M'] == "1.2M";
    assert ParseFollowersText(u + ['M']) == Scale(ParseFloat(u), 1000000.0) by {
      FollowersMarked(u, 'M');
    }
    OnePointTwo();
  }

  lemma ThousandsExample()
    ensures ParseFollowersText("750k") == Some(750000.0)
    ensures ParseFollowersText("750K") == Some(750000.0)
  {
    var u := "750";
    assert u + ['k'] == "750k" && u + ['K'] == "750K";
    NatExample(750, u);
    FollowersMarked(u, 'k');
    FollowersMarked(u, 'K');
  }

  lemma GroupedExample()
    ensures ParseFollowersText("1,200") == Some(1200.0)
  {
    var a, b := "1", "200";
    assert a + "," + b == "1,200";
    assert a + b == "1200";
    NatExample(1200, "1200");
    FollowersGrouped(a, b);
  }

  lemma ApproxExample()
    ensures ParseFollowersText("~10000+") == Some(10000.0)
  {
    var u := "10000";
    assert "~" + u + "+" == "~10000+";
    NatExample(10000, u);
    FollowersApprox(u);
  }

  lemma ShieldedTildeExample()
    ensures ParseFollowersText(" ~100") == None
  {
    var u := "100";
    assert " ~" + u == " ~100";
    SpaceBeforeTilde(u);
  }

  /** The follower counts of the documented examples. */
  lemma FollowersExamples()
    ensures ParseFollowersText("1.2M") == Some(1200000.0)
    ensures ParseFollowersText("750k") == Some(750000.0)
    ensures ParseFollowersText("750K") == Some(750000.0)
    ensures ParseFollowersText("1,200") == Some(1200.0)
    ensures ParseFollowersText("~10000+") == Some(10000.0)
    ensures ParseFollowersText(" ~100") == None
  {
    MillionsExample();
    ThousandsExample();
    GroupedExample();
    ApproxExample();
    ShieldedTildeExample();
  }

  lemma DecoratedRateExample()
    ensures ParseEngagementText("~4.5%") == Some(4.5)
  {
    var u := "4.5";
    assert "~" + u + "%" == "~4.5%";
    assert ParseEngagementText("~" + u + "%") == ParseFloat(u) by {
      RateDecorated(u);
    }
    FourPointFive();
  }

  lemma SpacedRateExample()
    ensures ParseEngagementText("4.5 %") == Some(4.5)
  {
    var u := "4.5";
    assert u + " %" == "4.5 %";
    FourPointFive();
    RateSpacedPercent(u);
  }

  lemma WordRateExample()
    ensures ParseEngagementText("abc") == None
  {
    Text.PrintableNotWhitespace('a');
    RateForeignMissing("abc", 'a');
  }

  /** The engagement rates of the documented examples. */
  lemma RateExamples()
    ensures ParseEngagementText("~4.5%") == Some(4.5)
    ensures ParseEngagementText("4.5 %") == Some(4.5)
    ensures ParseEngagementText("abc") == None
  {
    DecoratedRateExample();
    SpacedRateExample();
    WordRateExample();
  }
}
