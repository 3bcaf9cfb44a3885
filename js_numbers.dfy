/** How the pages read numbers out of text, as JavaScript's `parseInt` does. */
module JsNumbers {
  import opened Wrappers
  import opened Text

  predicate IsHexDigit(c: char) { IsDigit(c) || 'a' <= c <= 'f' || 'A' <= c <= 'F' }

  function HexDigitValue(c: char): (d: nat)
    requires IsHexDigit(c)
    ensures d < 16
  {
    if IsDigit(c) then DigitValue(c)
    else if 'a' <= c <= 'f' then (c - 'a') as int + 10
    else (c - 'A') as int + 10
  }

  function HexValue(s: string): nat
    requires forall i :: 0 <= i < |s| ==> IsHexDigit(s[i])
    decreases |s|
  {
    if s == [] then 0 else HexValue(s[..|s| - 1]) * 16 + HexDigitValue(s[|s| - 1])
  }

  /** The longest prefix of `s` whose characters satisfy `p`. */
  function Leading(s: string, p: char -> bool): (r: string)
    ensures |r| <= |s| && r == s[..|r|]
    ensures forall i :: 0 <= i < |r| ==> p(r[i])
    ensures |r| < |s| ==> !p(s[|r|])
    decreases |s|
  {
    if s != [] && p(s[0]) then [s[0]] + Leading(s[1..], p) else []
  }

  /**
   * `parseInt(s)` with no radix: leading whitespace skipped, an optional
   * sign, then a `0x` prefix for hexadecimal or decimal otherwise, read for
   * as many digits as there are; `None` is `NaN`.
   */
  function ParseInt(s: string): (r: Option<int>)
  {
    var t := TrimStart(s, IsJsWhitespace);
    var sign := if t != [] && t[0] == '-' then -1 else 1;
    var u := if t != [] && (t[0] == '-' || t[0] == '+') then t[1..] else t;
    if |u| >= 2 && u[0] == '0' && (u[1] == 'x' || u[1] == 'X') then
      var d := Leading(u[2..], IsHexDigit);
      if d == [] then None else Some(sign * HexValue(d))
    else
      var d := Leading(u, IsDigit);
      if d == [] then None else Some(sign * DigitsValue(d))
  }

  /** `parseInt` reads a plain decimal number, and stops at the first character that is not a digit. */
  lemma ParseIntDecimal(digits: string, tail: string)
    requires digits != [] && AllDigits(digits) && digits[0] != '0'
    requires tail == [] || !IsDigit(tail[0])
    ensures ParseInt(digits + tail) == Some(DigitsValue(digits))
  {
    var s := digits + tail;
    assert s[0] == digits[0] && IsDigit(s[0]);
    assert TrimStart(s, IsJsWhitespace) == s;
    assert s[0] != '-' && s[0] != '+' && s[0] != '0';
    LeadingOf(digits, tail);
  }

  lemma {:induction false} LeadingOf(digits: string, tail: string)
    requires AllDigits(digits) && (tail == [] || !IsDigit(tail[0]))
    ensures Leading(digits + tail, IsDigit) == digits
    decreases |digits|
  {
    if digits != [] {
      LeadingOf(digits[1..], tail);
      assert (digits + tail)[1..] == digits[1..] + tail;
    } else {
      assert digits + tail == tail;
    }
  }

  /** `parseInt(s) || fallback`: the number read, unless it is `NaN` or 0. */
  function ParseIntOr(s: string, fallback: int): (r: int)
    ensures r == 0 ==> fallback == 0
    ensures (ParseInt(s).Some? && ParseInt(s).value != 0) ==> r == ParseInt(s).value
    ensures (ParseInt(s).None? || ParseInt(s).value == 0) ==> r == fallback
  {
    match ParseInt(s)
    case Some(n) => if n != 0 then n else fallback
    case None => fallback
  }
}
