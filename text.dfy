/**
 * String helpers with the semantics of the Python and JavaScript built-ins
 * the application relies on.  Strings are sequences of UTF-16 code units /
 * code points (`char`); case mapping is ASCII-only.
 */
module Text {

  // ---------------------------------------------------------------- characters

  predicate IsDigit(c: char) { '0' <= c <= '9' }

  predicate IsAtSign(c: char) { c == '@' }

  predicate IsDot(c: char) { c == '.' }

  function DigitValue(c: char): (d: nat)
    requires IsDigit(c)
    ensures d < 10
  {
    (c as int) - ('0' as int)
  }

  /** Python `str.isspace()`: the characters `str.strip()` removes. */
  predicate IsPyWhitespace(c: char) {
    c == ' ' || ('\t' <= c <= '\r') || ('\U{1c}' <= c <= '\U{1f}') ||
    c == '\U{85}' || c == '\U{a0}' || c == '\U{1680}' || ('\U{2000}' <= c <= '\U{200a}') ||
    c == '\U{2028}' || c == '\U{2029}' || c == '\U{202f}' || c == '\U{205f}' || c == '\U{3000}'
  }

  /** ECMAScript WhiteSpace and LineTerminator: what `trim()` removes and `\s` matches. */
  predicate IsJsWhitespace(c: char) {
    c == ' ' || ('\t' <= c <= '\r') || c == '\U{a0}' || c == '\U{1680}' ||
    ('\U{2000}' <= c <= '\U{200a}') || c == '\U{2028}' || c == '\U{2029}' || c == '\U{202f}' ||
    c == '\U{205f}' || c == '\U{3000}' || c == '\U{feff}'
  }

  function UpperChar(c: char): char {
    if 'a' <= c <= 'z' then (c as int - 32) as char else c
  }

  function LowerChar(c: char): char {
    if 'A' <= c <= 'Z' then (c as int + 32) as char else c
  }

  /** `str.upper()` / `toUpperCase()` restricted to ASCII letters. */
  function Upper(s: string): (r: string)
    ensures |r| == |s|
    ensures forall i :: 0 <= i < |s| ==> r[i] == UpperChar(s[i])
  {
    if s == [] then [] else [UpperChar(s[0])] + Upper(s[1..])
  }

  /** `str.lower()` / `toLowerCase()` restricted to ASCII letters. */
  function Lower(s: string): (r: string)
    ensures |r| == |s|
    ensures forall i :: 0 <= i < |s| ==> r[i] == LowerChar(s[i])
  {
    if s == [] then [] else [LowerChar(s[0])] + Lower(s[1..])
  }

  /** Lower-casing twice is lower-casing once. */
  lemma {:induction false} LowerIdempotent(s: string)
    ensures Lower(Lower(s)) == Lower(s)
  {
    forall i | 0 <= i < |s| ensures Lower(Lower(s))[i] == Lower(s)[i] {
      var c := s[i];
      assert Lower(s)[i] == LowerChar(c);
    }
  }

  /** Upper-casing twice is upper-casing once. */
  lemma {:induction false} UpperIdempotent(s: string)
    ensures Upper(Upper(s)) == Upper(s)
  {
    forall i | 0 <= i < |s| ensures Upper(Upper(s))[i] == Upper(s)[i] {
      assert Upper(s)[i] == UpperChar(s[i]);
    }
  }

  /** Lower-casing forgets an earlier upper-casing. */
  lemma {:induction false} LowerOfUpper(s: string)
    ensures Lower(Upper(s)) == Lower(s)
  {
    forall i | 0 <= i < |s| ensures Lower(Upper(s))[i] == Lower(s)[i] {
      assert Upper(s)[i] == UpperChar(s[i]);
    }
  }

  /** Lower-casing never turns whitespace into anything else, nor anything else into whitespace. */
  lemma LowerKeepsWhitespace(s: string)
    ensures AllJsWhitespace(Lower(s)) <==> AllJsWhitespace(s)
  {
    forall i | 0 <= i < |s| ensures IsJsWhitespace(Lower(s)[i]) <==> IsJsWhitespace(s[i]) {
      assert Lower(s)[i] == LowerChar(s[i]);
    }
  }

  // ---------------------------------------------------------------- trimming

  function TrimStart(s: string, ws: char -> bool): (r: string)
    ensures |r| <= |s| && r == s[|s| - |r|..]
    ensures forall i :: 0 <= i < |s| - |r| ==> ws(s[i])
    ensures r != [] ==> !ws(r[0])
  {
    if s != [] && ws(s[0]) then TrimStart(s[1..], ws) else s
  }

  function TrimEnd(s: string, ws: char -> bool): (r: string)
    ensures |r| <= |s| && r == s[..|r|]
    ensures forall i :: |r| <= i < |s| ==> ws(s[i])
    ensures r != [] ==> !ws(r[|r| - 1])
  {
    if s != [] && ws(s[|s| - 1]) then TrimEnd(s[..|s| - 1], ws) else s
  }

  function Trim(s: string, ws: char -> bool): (r: string)
    ensures r != [] ==> !ws(r[0]) && !ws(r[|r| - 1])
    ensures |r| <= |s|
  {
    TrimEnd(TrimStart(s, ws), ws)
  }

  /** A text that starts and ends with a kept character is its own trim. */
  lemma TrimKeeps(s: string, ws: char -> bool)
    requires s != [] && !ws(s[0]) && !ws(s[|s| - 1])
    ensures Trim(s, ws) == s
  {
    assert TrimStart(s, ws) == s;
    assert TrimEnd(s, ws) == s;
  }

  /** Python `str.strip()` with no argument. */
  function PyStrip(s: string): string { Trim(s, IsPyWhitespace) }

  /** JavaScript `String.prototype.trim()`. */
  function JsTrim(s: string): string { Trim(s, IsJsWhitespace) }

  predicate AllJsWhitespace(s: string) { forall i :: 0 <= i < |s| ==> IsJsWhitespace(s[i]) }

  lemma {:induction false} JsTrimEmptyIff(s: string)
    ensures JsTrim(s) == [] <==> AllJsWhitespace(s)
  {
    var t := TrimStart(s, IsJsWhitespace);
    if AllJsWhitespace(s) {
      assert t == [];
      assert TrimEnd(t, IsJsWhitespace) == [];
    } else {
      var k :| 0 <= k < |s| && !IsJsWhitespace(s[k]);
      assert k >= |s| - |t|;
      assert t != [];
      assert !IsJsWhitespace(t[0]);
    }
  }

  /** A text that starts and ends with a non-blank character is its own trim. */
  lemma JsTrimKeeps(s: string)
    requires s != [] && !IsJsWhitespace(s[0]) && !IsJsWhitespace(s[|s| - 1])
    ensures JsTrim(s) == s
  {
    TrimKeeps(s, IsJsWhitespace);
  }

  // ---------------------------------------------------------------- searching

  /** `sub` occurs in `s` (Python `in`, JavaScript `includes`). */
  ghost predicate OccursIn(sub: string, s: string) {
    exists i :: 0 <= i <= |s| && sub <= s[i..]
  }

  /** Text written around an occurrence keeps it. */
  lemma OccursInAppend(sub: string, s: string, t: string)
    requires OccursIn(sub, s)
    ensures OccursIn(sub, s + t) && OccursIn(sub, t + s)
  {
    var i :| 0 <= i <= |s| && sub <= s[i..];
    assert s[i..] <= (s + t)[i..];
    assert (t + s)[|t| + i..] == s[i..];
  }

  function Contains(s: string, sub: string): bool
    decreases |s|
  {
    if sub <= s then true
    else if s == [] then false
    else Contains(s[1..], sub)
  }

  /** `Contains` decides whether `sub` occurs somewhere in `s`. */
  lemma {:induction false} ContainsIff(s: string, sub: string)
    ensures Contains(s, sub) <==> OccursIn(sub, s)
    decreases |s|
  {
    if sub <= s {
      assert sub <= s[0..];
    } else if s != [] {
      ContainsIff(s[1..], sub);
      if Contains(s[1..], sub) {
        var i :| 0 <= i <= |s[1..]| && sub <= s[1..][i..];
        assert s[1..][i..] == s[i + 1..];
      } else {
        forall i | 0 <= i <= |s| ensures !(sub <= s[i..]) {
          if i > 0 { assert s[i..] == s[1..][i - 1..]; }
        }
      }
    }
  }

  /** `text.toLowerCase().includes(query.toLowerCase())`: a search box's test. */
  predicate Mentions(text: string, query: string) {
    Contains(Lower(text), Lower(query))
  }

  /** An empty query is found in every text. */
  lemma MentionsEmpty(text: string)
    ensures Mentions(text, "")
  {
    assert Lower("") == "";
  }

  /** A text is found by its own words, whatever their case. */
  lemma MentionsItself(text: string)
    ensures Mentions(text, text)
  {
  }

  /** Python `str.replace(old, new)`: left-to-right, non-overlapping. */
  function Replace(s: string, pat: string, rep: string): string
    requires pat != []
    decreases |s|
  {
    if s == [] then []
    else if pat <= s then rep + Replace(s[|pat|..], pat, rep)
    else [s[0]] + Replace(s[1..], pat, rep)
  }

  /** A string in which the pattern's first character never occurs is left as it is. */
  lemma {:induction false} ReplaceAbsent(s: string, pat: string, rep: string)
    requires pat != [] && forall i :: 0 <= i < |s| ==> s[i] != pat[0]
    ensures Replace(s, pat, rep) == s
    decreases |s|
  {
    if s != [] {
      assert s[0] != pat[0];
      assert !(pat <= s);
      assert forall i :: 0 <= i < |s[1..]| ==> s[1..][i] == s[i + 1];
      ReplaceAbsent(s[1..], pat, rep);
      assert [s[0]] + s[1..] == s;
    }
  }

  // ---------------------------------------------------------------- splitting

  /** `str.split(sep)` (Python) / `split(sep)` (JavaScript) for a one-character separator. */
  function Split(s: string, sep: char): (r: seq<string>)
    ensures |r| >= 1
    ensures forall k :: 0 <= k < |r| ==> sep !in r[k]
    ensures Join(r, sep) == s
    decreases |s|
  {
    if s == [] then [[]]
    else
      var rest := Split(s[1..], sep);
      if s[0] == sep then [[]] + rest
      else [[s[0]] + rest[0]] + rest[1..]
  }

  function Join(parts: seq<string>, sep: char): string
    requires |parts| >= 1
  {
    if |parts| == 1 then parts[0] else parts[0] + [sep] + Join(parts[1..], sep)
  }

  /** The number of pieces `Split` produces is one more than the separators in `s`. */
  lemma {:induction false} SplitCount(s: string, sep: char)
    ensures |Split(s, sep)| == 1 + multiset(s)[sep]
    decreases |s|
  {
    if s != [] {
      SplitCount(s[1..], sep);
      var rest := Split(s[1..], sep);
      assert multiset(s)[sep] == multiset([s[0]])[sep] + multiset(s[1..])[sep] by {
        assert s == [s[0]] + s[1..];
      }
      if s[0] == sep {
        assert |Split(s, sep)| == 1 + |rest|;
      } else {
        assert |Split(s, sep)| == |rest|;
      }
    }
  }

  // ---------------------------------------------------------------- numbers

  predicate AllDigits(s: string) { forall i :: 0 <= i < |s| ==> IsDigit(s[i]) }

  /** The value of a string of decimal digits. */
  function DigitsValue(s: string): (n: nat)
    requires AllDigits(s)
    decreases |s|
  {
    if s == [] then 0 else DigitsValue(s[..|s| - 1]) * 10 + DigitValue(s[|s| - 1])
  }

  /** JavaScript's `${n}` / Python's `str(n)` for a whole number. */
  function NatToString(n: nat): (r: string)
    ensures r != [] && AllDigits(r)
    ensures DigitsValue(r) == n
    ensures |r| > 1 ==> r[0] != '0'
    decreases n
  {
    var d := ['0' + (n % 10) as char];
    assert DigitValue(d[0]) == n % 10;
    if n < 10 then d
    else
      var h := NatToString(n / 10);
      var r := h + d;
      assert r[..|r| - 1] == h;
      r
  }

  /** A single digit is shown as itself. */
  lemma DigitToString(n: nat)
    requires n < 10
    ensures NatToString(n) == ['0' + n as char]
  {
  }

  /** Two digits are shown as themselves. */
  lemma TwoDigitsToString(n: nat)
    requires 10 <= n < 100
    ensures NatToString(n) == ['0' + (n / 10) as char, '0' + (n % 10) as char]
  {
    DigitToString(n / 10);
  }

  function IntToString(i: int): (r: string)
    ensures r != []
    ensures i >= 0 ==> r == NatToString(i)
    ensures i < 0 ==> r == "-" + NatToString(-i)
  {
    if i >= 0 then NatToString(i) else "-" + NatToString(-i)
  }
}

module PyInt {
  import opened Wrappers
  import opened Text

  /** Digits with single underscores between them: the body `int()` accepts. */
  predicate IsDigitGroups(s: string) {
    |s| > 0 && IsDigit(s[0]) && IsDigit(s[|s| - 1]) &&
    (forall i :: 0 <= i < |s| ==> IsDigit(s[i]) || s[i] == '_') &&
    (forall i :: 0 <= i < |s| - 1 ==> !(s[i] == '_' && s[i + 1] == '_'))
  }

  function DropUnderscores(s: string): (r: string)
    ensures (forall i :: 0 <= i < |s| ==> IsDigit(s[i]) || s[i] == '_') ==> AllDigits(r)
    ensures AllDigits(s) ==> r == s
    decreases |s|
  {
    if s == [] then []
    else if s[0] == '_' then DropUnderscores(s[1..])
    else [s[0]] + DropUnderscores(s[1..])
  }

  /**
   * Python's `int(s)` on a string: surrounding whitespace is ignored, one
   * optional sign, then decimal digits possibly grouped by single
   * underscores; anything else raises (here: `None`).
   */
  function Parse(s: string): (r: Option<int>)
    ensures s != [] && AllDigits(s) ==> r == Some(DigitsValue(s))
  {
    var t := PyStrip(s);
    if s != [] && AllDigits(s) then
      TrimKeeps(s, IsPyWhitespace);
      assert IsDigitGroups(s);
      ParseStripped(t)
    else
      ParseStripped(t)
  }

  function ParseStripped(t: string): (r: Option<int>)
    ensures IsDigitGroups(t) ==> r == Some(DigitsValue(DropUnderscores(t)))
  {
    if |t| > 0 && (t[0] == '+' || t[0] == '-') then
      var body := t[1..];
      if IsDigitGroups(body) then
        var v: int := DigitsValue(DropUnderscores(body));
        Some(if t[0] == '-' then -v else v)
      else None
    else if IsDigitGroups(t) then Some(DigitsValue(DropUnderscores(t)))
    else None
  }

  /** `int(str(i)) == i`: parsing inverts the decimal rendering of every integer. */
  lemma ParseIntToString(i: int)
    ensures Parse(IntToString(i)) == Some(i)
  {
    if i < 0 {
      var d := NatToString(-i);
      var s := IntToString(i);
      assert s == "-" + d;
      assert s[1..] == d;
      StripSigned(d);
      assert PyStrip(s) == s;
      assert IsDigitGroups(d);
      assert DropUnderscores(d) == d;
      assert DigitsValue(d) == -i;
      assert ParseStripped(s) == Some(i);
      assert Parse(s) == ParseStripped(PyStrip(s));
    } else {
      assert IntToString(i) == NatToString(i);
    }
  }

  lemma StripSigned(d: string)
    requires d != [] && AllDigits(d)
    ensures PyStrip("-" + d) == "-" + d
  {
    var s := "-" + d;
    assert !IsPyWhitespace(s[0]);
    assert s[|s| - 1] == d[|d| - 1];
    assert !IsPyWhitespace(s[|s| - 1]);
    assert TrimStart(s, IsPyWhitespace) == s;
    assert TrimEnd(s, IsPyWhitespace) == s;
  }
}
