/** The Python string operations the cleaning code relies on, over `seq<char>`. */
module Text {
  import Seqs

  /** The characters Python's `str.isspace` accepts: what `str.strip()` with no
      argument removes from both ends. */
  const Whitespace: set<char> := {
    ' ', '\t', '\n', '\r', '\U{B}', '\U{C}', '\U{1C}', '\U{1D}', '\U{1E}', '\U{1F}',
    '\U{85}', '\U{A0}', '\U{1680}', '\U{2000}', '\U{2001}', '\U{2002}', '\U{2003}',
    '\U{2004}', '\U{2005}', '\U{2006}', '\U{2007}', '\U{2008}', '\U{2009}', '\U{200A}',
    '\U{2028}', '\U{2029}', '\U{202F}', '\U{205F}', '\U{3000}'
  }

  /** Printable ASCII characters other than the space are not whitespace. */
  lemma PrintableNotWhitespace(c: char)
    requires '!' <= c <= '~'
    ensures c !in Whitespace
  {
  }

  /** Drops the leading run of characters drawn from `cs`. */
  function TrimLeft(s: string, cs: set<char>): string
    decreases |s|
  {
    if s != [] && s[0] in cs then TrimLeft(s[1..], cs) else s
  }

  /** Drops the trailing run of characters drawn from `cs`. */
  function TrimRight(s: string, cs: set<char>): string
    decreases |s|
  {
    if s != [] && s[|s| - 1] in cs then TrimRight(s[..|s| - 1], cs) else s
  }

  /** What `TrimLeft` leaves is a suffix of the input that does not start with a
      character of `cs`, and all it removed was drawn from `cs`. */
  lemma {:induction false} TrimLeftSpec(s: string, cs: set<char>)
    ensures var r := TrimLeft(s, cs);
      |r| <= |s| && r == s[|s| - |r|..]
      && (r == [] || r[0] !in cs)
      && forall i :: 0 <= i < |s| - |r| ==> s[i] in cs
    decreases |s|
  {
    if s != [] && s[0] in cs {
      TrimLeftSpec(s[1..], cs);
    }
  }

  /** What `TrimRight` leaves is a prefix of the input that does not end with a
      character of `cs`, and all it removed was drawn from `cs`. */
  lemma {:induction false} TrimRightSpec(s: string, cs: set<char>)
    ensures var r := TrimRight(s, cs);
      |r| <= |s| && r == s[..|r|]
      && (r == [] || r[|r| - 1] !in cs)
      && forall i :: |r| <= i < |s| ==> s[i] in cs
    decreases |s|
  {
    if s != [] && s[|s| - 1] in cs {
      TrimRightSpec(s[..|s| - 1], cs);
    }
  }

  /** Python's `s.strip(chars)`: every leading and trailing character that is in
      `cs` is removed, however many there are and in whatever order. */
  function Strip(s: string, cs: set<char>): string
  {
    TrimRight(TrimLeft(s, cs), cs)
  }

  /** Python's `s.strip()`. */
  function StripWhitespace(s: string): string
  {
    Strip(s, Whitespace)
  }

  /** Stripping only ever removes characters of `cs`: any other character survives. */
  lemma StripKeepsOthers(s: string, cs: set<char>, c: char)
    requires c in s && c !in cs
    ensures c in Strip(s, cs)
  {
    var i :| 0 <= i < |s| && s[i] == c;
    var l := TrimLeft(s, cs);
    TrimLeftSpec(s, cs);
    TrimRightSpec(l, cs);
    var k := i - (|s| - |l|);
    assert 0 <= k < |l| && l[k] == c;
    var r := TrimRight(l, cs);
    assert k < |r|;
    assert r[k] == c;
  }

  /** The result of stripping starts and ends outside `cs`, and holds only
      characters of the input. */
  lemma StripBounds(s: string, cs: set<char>)
    ensures var r := Strip(s, cs);
      (r == [] || (r[0] !in cs && r[|r| - 1] !in cs))
      && forall c :: c in r ==> c in s
  {
    var l := TrimLeft(s, cs);
    var r := TrimRight(l, cs);
    TrimLeftSpec(s, cs);
    TrimRightSpec(l, cs);
    forall c | c in r ensures c in s {
      var k :| 0 <= k < |r| && r[k] == c;
      assert l[k] == c;
      assert s[|s| - |l| + k] == c;
    }
  }

  /** A string that already starts and ends outside `cs` is left alone. */
  lemma StripUnchanged(s: string, cs: set<char>)
    requires s == [] || (s[0] !in cs && s[|s| - 1] !in cs)
    ensures Strip(s, cs) == s
  {
  }

  function UpperChar(c: char): char
  {
    if 'a' <= c <= 'z' then (c as int - 32) as char else c
  }

  function LowerChar(c: char): char
  {
    if 'A' <= c <= 'Z' then (c as int + 32) as char else c
  }

  /** Python's `s.upper()` on ASCII letters. */
  function Upper(s: string): string
  {
    seq(|s|, i requires 0 <= i < |s| => UpperChar(s[i]))
  }

  /** Python's `s.lower()` on ASCII letters. */
  function Lower(s: string): string
  {
    seq(|s|, i requires 0 <= i < |s| => LowerChar(s[i]))
  }

  /** Python's `s.replace(c, "")`: every occurrence of `c` is removed. */
  function RemoveAll(s: string, c: char): (r: string)
    ensures c !in r
    ensures forall d :: d != c ==> (d in r <==> d in s)
  {
    Seqs.Filter(s, (d: char) => d != c)
  }

  /** Removal works piece by piece: what is left of `a + b` is what is left of `a`
      followed by what is left of `b`. */
  lemma RemoveAllAppend(a: string, b: string, c: char)
    ensures RemoveAll(a + b, c) == RemoveAll(a, c) + RemoveAll(b, c)
  {
    Seqs.FilterAppend(a, b, (d: char) => d != c);
  }

  /** One character is dropped if it is `c` and kept otherwise. With
      `RemoveAllAppend` this fixes the result on every text: the other characters
      stay, in their order and number. */
  lemma RemoveAllSingle(d: char, c: char)
    ensures RemoveAll([d], c) == if d == c then [] else [d]
  {
    assert [d][1..] == [];
  }

  /** `pat` sits in `s` starting at index `i`. */
  predicate OccursAt(pat: string, s: string, i: int)
  {
    0 <= i <= |s| - |pat| && s[i..i + |pat|] == pat
  }

  /** Python's `pat in s` on strings: `pat` occurs in `s` as a contiguous piece. */
  function Occurs(pat: string, s: string): (b: bool)
    ensures b <==> exists i :: OccursAt(pat, s, i)
    decreases |s|
  {
    if |pat| > |s| then false
    else if s[..|pat|] == pat then
      assert OccursAt(pat, s, 0);
      true
    else
      var b := Occurs(pat, s[1..]);
      assert b ==> exists i :: OccursAt(pat, s, i) by {
        if b {
          var j :| OccursAt(pat, s[1..], j);
          assert s[1..][j..j + |pat|] == s[j + 1..j + 1 + |pat|];
          assert OccursAt(pat, s, j + 1);
        }
      }
      assert (exists i :: OccursAt(pat, s, i)) ==> b by {
        if exists i :: OccursAt(pat, s, i) {
          var i :| OccursAt(pat, s, i);
          assert i != 0;
          assert s[1..][i - 1..i - 1 + |pat|] == s[i..i + |pat|];
          assert OccursAt(pat, s[1..], i - 1);
        }
      }
      b
  }

  /** `pat.lower() in s.lower()`, and pandas' `str.contains(pat, case=False)` for a
      pattern without regular-expression metacharacters. */
  function ContainsIgnoreCase(s: string, pat: string): bool
  {
    Occurs(Lower(pat), Lower(s))
  }

  /** Python's `<` on strings: code point by code point, a proper prefix first. */
  function LexLess(a: string, b: string): bool
    decreases |a|
  {
    if a == [] then b != []
    else if b == [] then false
    else if a[0] != b[0] then a[0] < b[0]
    else LexLess(a[1..], b[1..])
  }

  /** A text that starts with `pat` contains it, whatever the case of either. */
  lemma ContainsPrefix(s: string, pat: string)
    requires |pat| <= |s| && s[..|pat|] == pat
    ensures ContainsIgnoreCase(s, pat)
  {
    var ls, lp := Lower(s), Lower(pat);
    assert ls[0..0 + |lp|] == lp;
    assert OccursAt(lp, ls, 0);
  }
}
