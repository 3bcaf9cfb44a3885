/**
 * The back end's input validators: the e-mail pattern, the password
 * length, and the roll-number formats of students, teachers and admins.
 *
 * Each pattern is anchored with `re.match` and `$`, so besides the text
 * the pattern describes it also accepts that text followed by a single
 * newline.
 */
module Validators {
  import opened Wrappers
  import opened Text
  import Seqs

  /** `re.match(pattern + '$', s)` for a pattern `p` with no newline in it: `$` also matches before one final newline. */
  predicate MatchesToEnd(s: string, p: string -> bool) {
    p(s) || (|s| > 0 && s[|s| - 1] == '\n' && p(s[..|s| - 1]))
  }

  predicate IsAsciiLetterOrDigit(c: char) { 'a' <= c <= 'z' || 'A' <= c <= 'Z' || '0' <= c <= '9' }

  /** `[a-zA-Z0-9_.+-]` */
  predicate IsLocalChar(c: char) { IsAsciiLetterOrDigit(c) || c == '_' || c == '.' || c == '+' || c == '-' }
  /** `[a-zA-Z0-9-]` */
  predicate IsDomainChar(c: char) { IsAsciiLetterOrDigit(c) || c == '-' }
  /** `[a-zA-Z0-9-.]` */
  predicate IsSuffixChar(c: char) { IsAsciiLetterOrDigit(c) || c == '-' || c == '.' }

  predicate AllOf(s: string, p: char -> bool) { forall i :: 0 <= i < |s| ==> p(s[i]) }

  /** The text `[a-zA-Z0-9_.+-]+@[a-zA-Z0-9-]+\.[a-zA-Z0-9-.]+` describes, split at its `@` and its first dot after it. */
  predicate EmailAt(s: string, at: nat, dot: nat) {
    0 < at < dot < |s| - 1 && at + 1 < dot &&
    AllOf(s[..at], IsLocalChar) && s[at] == '@' &&
    AllOf(s[at + 1..dot], IsDomainChar) && s[dot] == '.' &&
    AllOf(s[dot + 1..], IsSuffixChar)
  }

  ghost predicate IsEmailShape(s: string) { exists at: nat, dot: nat :: EmailAt(s, at, dot) }

  /** The matcher: the first `@`, then the first dot after it, then the three character classes. */
  function EmailSplit(s: string): Option<(nat, nat)> {
    match Seqs.FirstIndex(s, IsAtSign)
    case None => None
    case Some(at) =>
      match Seqs.FirstIndex(s[at + 1..], IsDot)
      case None => None
      case Some(d) => if EmailAt(s, at, at + 1 + d) then Some((at, at + 1 + d)) else None
  }

  /** A split the matcher finds is a witness of the e-mail shape. */
  lemma EmailSplitSound(s: string)
    requires EmailSplit(s).Some?
    ensures IsEmailShape(s)
  {
    var (at, dot) := EmailSplit(s).value;
    assert EmailAt(s, at, dot);
  }

  /** Every text of the e-mail shape has exactly one split, and the matcher finds it. */
  lemma EmailSplitComplete(s: string, at: nat, dot: nat)
    requires EmailAt(s, at, dot)
    ensures EmailSplit(s) == Some((at, dot))
  {
    FirstAtSign(s, at, dot);
    FirstDotAfter(s, at, dot);
    assert at + 1 + (dot - at - 1) == dot;
  }

  /** In the e-mail shape the `@` is the first one. */
  lemma FirstAtSign(s: string, at: nat, dot: nat)
    requires EmailAt(s, at, dot)
    ensures Seqs.FirstIndex(s, IsAtSign) == Some(at)
  {
    forall j | 0 <= j < at ensures !IsAtSign(s[j]) {
      assert s[..at][j] == s[j];
    }
    Seqs.FirstIndexIs(s, IsAtSign, at);
  }

  /** In the e-mail shape the dot is the first one after the `@`. */
  lemma FirstDotAfter(s: string, at: nat, dot: nat)
    requires EmailAt(s, at, dot)
    ensures Seqs.FirstIndex(s[at + 1..], IsDot) == Some(dot - at - 1)
  {
    var rest := s[at + 1..];
    var d := dot - at - 1;
    forall j | 0 <= j < d ensures !IsDot(rest[j]) {
      assert rest[j] == s[at + 1..dot][j];
    }
    assert rest[d] == '.';
    Seqs.FirstIndexIs(rest, IsDot, d);
  }

  /** The matcher finds a split exactly when the text has the e-mail shape. */
  lemma EmailSplitIff(s: string)
    ensures EmailSplit(s).Some? <==> IsEmailShape(s)
  {
    if EmailSplit(s).Some? {
      EmailSplitSound(s);
    } else if IsEmailShape(s) {
      var at: nat, dot: nat :| EmailAt(s, at, dot);
      EmailSplitComplete(s, at, dot);
    }
  }

  predicate EmailBody(s: string) { EmailSplit(s).Some? }

  /** `validate_email` */
  predicate ValidateEmail(email: string) { MatchesToEnd(email, EmailBody) }

  /** `validate_email` accepts exactly the e-mail shape, optionally followed by one newline. */
  lemma ValidateEmailIff(email: string)
    ensures ValidateEmail(email) <==>
      IsEmailShape(email) || (|email| > 0 && email[|email| - 1] == '\n' && IsEmailShape(email[..|email| - 1]))
  {
    EmailSplitIff(email);
    if |email| > 0 { EmailSplitIff(email[..|email| - 1]); }
  }

  /** A plain address is accepted, and so is the same address followed by a newline. */
  lemma EmailExamples()
    ensures ValidateEmail("a@b.c")
    ensures ValidateEmail("a@b.c\n")
  {
    assert EmailAt("a@b.c", 1, 3);
    EmailSplitComplete("a@b.c", 1, 3);
    assert "a@b.c\n"[..5] == "a@b.c";
  }

  /** A missing dot after the `@` is refused. */
  lemma EmailWithoutDotRefused()
    ensures !ValidateEmail("a@bc")
  {
    assert "a@bc"[2..] == "bc";
  }

  /** `validate_password`: at least eight characters. */
  predicate ValidatePassword(password: string) { |password| >= 8 }

  /** `prefix` followed by exactly seven decimal digits (`\d{7}`, ASCII digits here). */
  predicate PrefixedId(prefix: string, s: string) {
    |s| == |prefix| + 7 && s[..|prefix|] == prefix && AllDigits(s[|prefix|..])
  }

  function PrefixedIdOf(prefix: string): string -> bool { (s: string) => PrefixedId(prefix, s) }

  /** `validate_student_id`: `^ST\d{7}$` */
  predicate ValidateStudentId(s: string) { MatchesToEnd(s, PrefixedIdOf("ST")) }

  /** `validate_teacher_id`: `^TCH\d{7}$` */
  predicate ValidateTeacherId(s: string) { MatchesToEnd(s, PrefixedIdOf("TCH")) }

  /** `validate_admin_id`: `^ADM\d{7}$` */
  predicate ValidateAdminId(s: string) { MatchesToEnd(s, PrefixedIdOf("ADM")) }

  /** Seven digits of a number below ten million, zero-padded. */
  function Digits7(n: nat): (r: string)
    requires n < 10000000
    ensures |r| == 7 && AllDigits(r) && DigitsValue(r) == n
  {
    Padded(n, 7)
  }

  function Padded(n: nat, width: nat): (r: string)
    requires n < Pow10(width)
    ensures |r| == width && AllDigits(r) && DigitsValue(r) == n
    decreases width
  {
    if width == 0 then ""
    else
      var h := Padded(n / 10, width - 1);
      var r := h + ['0' + (n % 10) as char];
      assert r[..|r| - 1] == h;
      assert DigitValue(r[|r| - 1]) == n % 10;
      r
  }

  function Pow10(k: nat): (p: nat)
    ensures p >= 1
  {
    if k == 0 then 1 else 10 * Pow10(k - 1)
  }

  /**
   * Every number below ten million, zero-padded to seven digits after its
   * prefix, is a valid roll number of that kind, and the digits read back
   * as the number; a text of another length is refused.
   */
  lemma RollNumbers(n: nat, s: string)
    requires n < 10000000
    ensures ValidateStudentId("ST" + Digits7(n)) && DigitsValue(("ST" + Digits7(n))[2..]) == n
    ensures ValidateTeacherId("TCH" + Digits7(n)) && DigitsValue(("TCH" + Digits7(n))[3..]) == n
    ensures ValidateAdminId("ADM" + Digits7(n)) && DigitsValue(("ADM" + Digits7(n))[3..]) == n
    ensures |s| != 9 && |s| != 10 ==> !ValidateStudentId(s)
  {
    assert ("ST" + Digits7(n))[..2] == "ST" && ("ST" + Digits7(n))[2..] == Digits7(n);
    assert ("TCH" + Digits7(n))[..3] == "TCH" && ("TCH" + Digits7(n))[3..] == Digits7(n);
    assert ("ADM" + Digits7(n))[..3] == "ADM" && ("ADM" + Digits7(n))[3..] == Digits7(n);
  }

  /** A student roll number the back end accepts starts with `S`. */
  lemma StudentIdStartsWithS(s: string)
    requires ValidateStudentId(s)
    ensures s != [] && s[0] == 'S'
  {
    if PrefixedId("ST", s) {
      assert s[..2][0] == s[0];
    } else {
      var t := s[..|s| - 1];
      assert PrefixedId("ST", t);
      assert t[..2][0] == t[0] == s[0];
    }
  }

  /** The three kinds of roll number never overlap. */
  lemma RollNumberKindsDisjoint(s: string)
    ensures !(ValidateStudentId(s) && ValidateTeacherId(s))
    ensures !(ValidateStudentId(s) && ValidateAdminId(s))
    ensures !(ValidateTeacherId(s) && ValidateAdminId(s))
  {
    if |s| > 3 {
      var t := s[..|s| - 1];
      assert s[..2][1] == s[1] && s[..3][1] == s[1] && s[..3][0] == s[0];
      assert t[..2][1] == t[1] && t[..3][1] == t[1] && t[..3][0] == t[0];
    }
  }
}
