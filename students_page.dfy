/**
 * The administrator's student form: the single-field validators, the
 * expected roll-number prefix derived from batch and department, and the
 * create and update checks that collect the fields' error messages.
 */
module StudentsPage {
  import opened Wrappers
  import opened Text
  import Seqs
  import Validators
  import opened FormErrors
  import opened JsNumbers

  // ---------------------------------------------------------------- e-mail

  /** `[^\s@]`: neither JavaScript whitespace nor `@`. */
  predicate Plain(c: char) { !IsJsWhitespace(c) && c != '@' }

  predicate AllPlain(s: string) { forall i :: 0 <= i < |s| ==> Plain(s[i]) }

  /** The text `^[^\s@]+@[^\s@]+\.[^\s@]+$` matches, split at its `@` and at the dot the pattern's `\.` takes. */
  predicate FormEmailAt(s: string, at: nat, dot: nat) {
    0 < at && at + 1 < dot < |s| - 1 && s[at] == '@' && s[dot] == '.' &&
    AllPlain(s[..at]) && AllPlain(s[at + 1..dot]) && AllPlain(s[dot + 1..])
  }

  ghost predicate FormEmailShape(s: string) { exists at: nat, dot: nat :: FormEmailAt(s, at, dot) }

  /** The matcher: the first `@` with text before it, no whitespace or second `@` anywhere, and a dot with text on both sides after it. */
  predicate FormEmailMatches(s: string) {
    match Seqs.FirstIndex(s, IsAtSign)
    case None => false
    case Some(at) =>
      0 < at && at + 2 < |s| && AllPlain(s[..at]) && AllPlain(s[at + 1..]) && '.' in s[at + 2..|s| - 1]
  }

  /** A match of the matcher splits the text at its first `@` and at a dot after it. */
  lemma MatchGivesShape(s: string)
    requires FormEmailMatches(s)
    ensures FormEmailShape(s)
  {
    var isAt := IsAtSign;
    var at := Seqs.FirstIndex(s, isAt).value;
    var rest := s[at + 1..];
    var mid := s[at + 2..|s| - 1];
    var j :| 0 <= j < |mid| && mid[j] == '.';
    var dot := at + 2 + j;
    assert s[dot] == mid[j];
    var local, domain, suffix := s[..at], s[at + 1..dot], s[dot + 1..];
    forall i | 0 <= i < |domain| ensures Plain(domain[i]) {
      assert domain[i] == rest[i];
    }
    forall i | 0 <= i < |suffix| ensures Plain(suffix[i]) {
      assert suffix[i] == rest[i + dot - at];
    }
    assert FormEmailAt(s, at, dot);
  }

  /** A text of the pattern's shape has its first `@` where the shape puts it, and the matcher accepts it. */
  lemma ShapeGivesMatch(s: string, at: nat, dot: nat)
    requires FormEmailAt(s, at, dot)
    ensures FormEmailMatches(s)
  {
    var isAt := IsAtSign;
    var local, domain, suffix, rest := s[..at], s[at + 1..dot], s[dot + 1..], s[at + 1..];
    forall i | 0 <= i < at ensures !isAt(s[i]) {
      assert local[i] == s[i];
    }
    Seqs.FirstIndexIs(s, isAt, at);
    forall i | 0 <= i < |rest| ensures Plain(rest[i]) {
      if i < |domain| {
        assert rest[i] == domain[i];
      } else if i > |domain| {
        assert rest[i] == suffix[i - (dot - at)];
      }
    }
    var mid := s[at + 2..|s| - 1];
    assert mid[dot - at - 2] == '.';
  }

  lemma FormEmailMatchesIff(s: string)
    ensures FormEmailMatches(s) <==> FormEmailShape(s)
  {
    if FormEmailMatches(s) {
      MatchGivesShape(s);
    } else if FormEmailShape(s) {
      var at: nat, dot: nat :| FormEmailAt(s, at, dot);
      ShapeGivesMatch(s, at, dot);
    }
  }

  /** `validateEmail(email)` */
  function ValidateEmail(email: string): (r: Option<string>)
    ensures AllJsWhitespace(email) ==> r == Some("Email is required")
    ensures !AllJsWhitespace(email) && !FormEmailMatches(email) ==> r == Some("Please enter a valid email address")
    ensures r.None? <==> FormEmailMatches(email)
  {
    JsTrimEmptyIff(email);
    FormEmailMatchesIff(email);
    if JsTrim(email) == "" then Some("Email is required")
    else if !FormEmailMatches(email) then Some("Please enter a valid email address")
    else
      assert !AllJsWhitespace(email);
      None
  }

  /** The form accepts every address the back end's validator accepts, a trailing newline aside. */
  lemma BackendEmailPassesForm(email: string)
    requires Validators.IsEmailShape(email)
    ensures ValidateEmail(email).None?
  {
    var at: nat, dot: nat :| Validators.EmailAt(email, at, dot);
    var local, domain, suffix := email[..at], email[at + 1..dot], email[dot + 1..];
    assert FormEmailAt(email, at, dot) by {
      forall i | 0 <= i < |local| ensures Plain(local[i]) {
        assert Validators.IsLocalChar(local[i]);
      }
      forall i | 0 <= i < |domain| ensures Plain(domain[i]) {
        assert Validators.IsDomainChar(domain[i]);
      }
      forall i | 0 <= i < |suffix| ensures Plain(suffix[i]) {
        assert Validators.IsSuffixChar(suffix[i]);
      }
    }
    ShapeGivesMatch(email, at, dot);
  }

  // ---------------------------------------------------------------- other fields

  /** `validatePassword(password)` */
  function ValidatePassword(password: string): (r: Option<string>)
    ensures password == "" ==> r == Some("Password is required")
    ensures 0 < |password| < 6 ==> r == Some("Password must be at least 6 characters")
    ensures r.None? <==> |password| >= 6
  {
    if password == "" then Some("Password is required")
    else if |password| < 6 then Some("Password must be at least 6 characters")
    else None
  }

  /** The form asks for six characters, the back end's validator for eight: six or seven pass one and not the other. */
  lemma PasswordRulesDiffer(password: string)
    ensures Validators.ValidatePassword(password) ==> ValidatePassword(password).None?
    ensures ValidatePassword(password).None? && !Validators.ValidatePassword(password) <==> 6 <= |password| < 8
  {
  }

  /** `validateName(name)` */
  function ValidateName(name: string): (r: Option<string>)
    ensures AllJsWhitespace(name) ==> r == Some("Name is required")
    ensures r.None? <==> |JsTrim(name)| >= 2
  {
    JsTrimEmptyIff(name);
    if JsTrim(name) == "" then Some("Name is required")
    else if |JsTrim(name)| < 2 then Some("Name must be at least 2 characters")
    else None
  }

  /** `validateDepartment(department)` */
  function ValidateDepartment(department: string): (r: Option<string>)
    ensures r.None? <==> department != ""
  {
    if department == "" then Some("Department is required") else None
  }

  // ---------------------------------------------------------------- batch and semester

  /** `validateBatch(batch)`, given the current year. */
  function ValidateBatch(batch: string, currentYear: int): (r: Option<string>)
    ensures AllJsWhitespace(batch) ==> r == Some("Batch is required")
    ensures r.None? <==> (!AllJsWhitespace(batch) && ParseInt(batch).Some? &&
      1900 <= ParseInt(batch).value <= currentYear + 10)
  {
    JsTrimEmptyIff(batch);
    if JsTrim(batch) == "" then Some("Batch is required")
    else
      var year := ParseInt(batch);
      if year.None? || year.value < 1900 || year.value > currentYear + 10 then Some("Please enter a valid year (e.g., 2023)")
      else None
  }

  /** `validateSemester(semester)`; the form passes 0 for an unset or unreadable semester. */
  function ValidateSemester(semester: real): (r: Option<string>)
    ensures r.None? <==> 1.0 <= semester <= 8.0
  {
    if semester == 0.0 || semester < 1.0 || semester > 8.0 then Some("Semester must be between 1 and 8") else None
  }

  /** The range check is not a whole-number check: semester 2.5 passes. */
  lemma FractionalSemesterPasses()
    ensures ValidateSemester(2.5).None?
  {
  }

  /** The index of the first `.` of `s`, if it has one. */
  function PointAt(s: string): (r: Option<nat>)
    ensures r.Some? ==> r.value < |s| && s[r.value] == '.' && forall i :: 0 <= i < r.value ==> s[i] != '.'
    ensures r.None? ==> forall i :: 0 <= i < |s| ==> s[i] != '.'
    decreases |s|
  {
    if s == [] then None
    else if s[0] == '.' then Some(0)
    else
      match PointAt(s[1..])
      case None => None
      case Some(k) => Some(k + 1)
  }

  /**
   * The number a decimal literal denotes, exactly: `digits / 10^scale`.
   * Literals of at most two characters denote whole numbers or tenths,
   * which a double holds without rounding.
   */
  datatype Decimal = Decimal(digits: int, scale: nat)

  /**
   * The value of an unsigned decimal literal without an exponent: digits,
   * then optionally a point and more digits, with at least one digit in all
   * (`5`, `5.`, `.5`, `5.25`).
   */
  function DecimalValue(b: string): (r: Option<Decimal>)
    ensures r.Some? ==> r.value.digits >= 0
  {
    match PointAt(b)
    case None => if b != [] && AllDigits(b) then Some(Decimal(DigitsValue(b), 0)) else None
    case Some(k) =>
      var ip, fp := b[..k], b[k + 1..];
      if AllDigits(ip) && AllDigits(fp) && (ip != [] || fp != []) then
        Some(Decimal(DigitsValue(ip) * Validators.Pow10(|fp|) + DigitsValue(fp), |fp|))
      else None
  }

  /**
   * `Number(s)` on decimal text: surrounding whitespace ignored, empty is
   * 0, an optional sign and a decimal literal give its value; `None` is
   * `NaN`.  Exponents, `0x`/`0b`/`0o` prefixes and `Infinity` are not
   * read: each needs at least three characters, and the page applies
   * `Number` to at most two.
   */
  function Number(s: string): (r: Option<Decimal>)
    ensures AllDigits(s) && s != [] ==> r == Some(Decimal(DigitsValue(s), 0))
  {
    DigitsUntrimmed(s);
    var t := JsTrim(s);
    if t == "" then Some(Decimal(0, 0))
    else
      var body := if t[0] == '+' || t[0] == '-' then t[1..] else t;
      match DecimalValue(body)
      case None => None
      case Some(v) => Some(if t[0] == '-' then v.(digits := -v.digits) else v)
  }

  /** `x - 4`. */
  function Minus4(x: Decimal): Decimal {
    Decimal(x.digits - 4 * Validators.Pow10(x.scale), x.scale)
  }

  /** `s` with zeros in front up to width `w`. */
  function ZeroPad(s: string, w: nat): (r: string)
    ensures |r| == if |s| < w then w else |s|
    decreases w - |s|
  {
    if |s| >= w then s else ZeroPad("0" + s, w)
  }

  /**
   * `String(x)`: the integer when `x` is whole, otherwise the digits with
   * the point before the last `scale` of them (and a zero before the
   * point when there is no integer part), trailing zero decimals dropped.
   */
  function ShowDecimal(x: Decimal): (r: string)
    ensures r != []
    decreases x.scale
  {
    if x.scale == 0 then IntToString(x.digits)
    else if x.digits % 10 == 0 then ShowDecimal(Decimal(x.digits / 10, x.scale - 1))
    else
      var a: nat := if x.digits < 0 then -x.digits else x.digits;
      var t := ZeroPad(NatToString(a), x.scale + 1);
      (if x.digits < 0 then "-" else "") + t[..|t| - x.scale] + "." + t[|t| - x.scale..]
  }

  /** A whole number `n` gives the code `n - 4`. */
  lemma CodeOfWhole(n: int)
    ensures CodeText(Some(Decimal(n, 0))) == IntToString(n - 4)
  {
    assert Validators.Pow10(0) == 1;
  }

  lemma DigitsUntrimmed(s: string)
    ensures AllDigits(s) && s != [] ==> JsTrim(s) == s
  {
    if AllDigits(s) && s != [] {
      assert IsDigit(s[0]) && IsDigit(s[|s| - 1]);
      JsTrimKeeps(s);
    }
  }

  /** `batch.slice(-2)`: the last two characters, or the whole of a shorter string. */
  function LastTwo(s: string): (r: string)
    ensures |r| == if |s| < 2 then |s| else 2
    ensures r == s[|s| - |r|..]
  {
    if |s| < 2 then s else s[|s| - 2..]
  }

  /** `${Number(batch.slice(-2)) - 4}` */
  function BatchCode(batch: string): string {
    CodeText(Number(LastTwo(batch)))
  }

  /** `String(n - 4)`, where `NaN` stays `NaN`. */
  function CodeText(n: Option<Decimal>): string {
    if n.None? then "NaN" else ShowDecimal(Minus4(n.value))
  }

  /** The prefix a student ID must start with: `1RV${val}${department}`. */
  function ExpectedPrefix(department: string, batch: string): (p: string)
    ensures |p| > 3 && p[0] == '1'
  {
    "1RV" + BatchCode(batch) + department
  }

  predicate StartsWith(s: string, prefix: string) { |prefix| <= |s| && s[..|prefix|] == prefix }

  /** `validateStudentId(studentId, department, batch)` */
  function ValidateStudentId(studentId: string, department: string, batch: string): (r: Option<string>)
    ensures AllJsWhitespace(studentId) ==> r == Some("Student ID is required")
    ensures r.None? <==> !AllJsWhitespace(studentId) && StartsWith(studentId, ExpectedPrefix(department, batch))
    ensures r.Some? && !AllJsWhitespace(studentId) ==>
      r == Some("Student ID must start with " + ExpectedPrefix(department, batch))
  {
    JsTrimEmptyIff(studentId);
    if JsTrim(studentId) == "" then Some("Student ID is required")
    else
      var prefix := ExpectedPrefix(department, batch);
      if !StartsWith(studentId, prefix) then Some("Student ID must start with " + prefix)
      else None
  }

  lemma TwoDigitsValue(a: char, b: char)
    requires IsDigit(a) && IsDigit(b)
    ensures AllDigits([a, b]) && DigitsValue([a, b]) == DigitValue(a) * 10 + DigitValue(b)
  {
    assert [a, b][..1] == [a] && [a][..0] == [];
    assert DigitsValue([a]) == DigitValue(a);
    assert DigitsValue([a, b]) == DigitsValue([a]) * 10 + DigitValue(b);
  }

  /** A batch ending in two digits gives those two digits' value less four. */
  lemma CodeOfBatch(batch: string)
    requires |batch| >= 2 && IsDigit(batch[|batch| - 2]) && IsDigit(batch[|batch| - 1])
    ensures BatchCode(batch) == IntToString(DigitValue(batch[|batch| - 2]) * 10 + DigitValue(batch[|batch| - 1]) - 4)
  {
    var a, b := batch[|batch| - 2], batch[|batch| - 1];
    assert LastTwo(batch) == [a, b];
    TwoDigitsValue(a, b);
    var v := DigitValue(a) * 10 + DigitValue(b);
    assert Number(LastTwo(batch)) == Some(Decimal(v, 0));
    CodeOfWhole(v);
  }

  /**
   * A batch ending in a digit and a point reads that digit: `Number("5.")`
   * is 5, so "2025." gives the code 1.
   */
  lemma CodeOfTrailingPoint(batch: string)
    requires |batch| >= 2 && IsDigit(batch[|batch| - 2]) && batch[|batch| - 1] == '.'
    ensures BatchCode(batch) == IntToString(DigitValue(batch[|batch| - 2]) - 4)
  {
    var d := batch[|batch| - 2];
    assert LastTwo(batch) == [d, '.'];
    NumberOfDigitPoint(d);
    CodeOfWhole(DigitValue(d));
  }

  /** Text that starts without a sign and is not blank at either end is read by `DecimalValue`. */
  lemma NumberUnsigned(t: string)
    requires t != [] && !IsJsWhitespace(t[0]) && !IsJsWhitespace(t[|t| - 1]) && t[0] != '+' && t[0] != '-'
    ensures Number(t) == DecimalValue(t)
  {
    JsTrimKeeps(t);
  }

  /** `Number` of a digit and a point is that digit. */
  lemma NumberOfDigitPoint(d: char)
    requires IsDigit(d)
    ensures Number([d, '.']) == Some(Decimal(DigitValue(d), 0))
  {
    var t := [d, '.'];
    NumberUnsigned(t);
    assert PointAt(t) == Some(1) by {
      assert PointAt(t[1..]) == Some(0);
    }
    assert t[..1] == [d] && t[2..] == [];
    assert DigitsValue([d]) == DigitValue(d) by {
      assert [d][..0] == [];
    }
    assert DigitsValue([]) == 0;
    assert Validators.Pow10(0) == 1;
  }

  /** `Number` of a point and a digit is that digit's tenth. */
  lemma NumberOfPointDigit(d: char)
    requires IsDigit(d)
    ensures Number(['.', d]) == Some(Decimal(DigitValue(d), 1))
  {
    var t := ['.', d];
    NumberUnsigned(t);
    assert PointAt(t) == Some(0);
    assert t[..0] == [] && t[1..] == [d];
    assert DigitsValue([d]) == DigitValue(d) by {
      assert [d][..0] == [];
    }
    assert Validators.Pow10(1) == 10;
  }

  /**
   * A batch ending in a point and a digit reads a tenth: `Number(".5")`
   * is 0.5, so "2025.5" gives the code -3.5 and "2025.0" the code -4.
   */
  lemma CodeOfLeadingPoint(batch: string)
    requires |batch| >= 2 && batch[|batch| - 2] == '.' && IsDigit(batch[|batch| - 1])
    ensures BatchCode(batch) == ShowDecimal(Decimal(DigitValue(batch[|batch| - 1]) - 40, 1))
  {
    var d := batch[|batch| - 1];
    assert LastTwo(batch) == ['.', d];
    NumberOfPointDigit(d);
    assert Minus4(Decimal(DigitValue(d), 1)) == Decimal(DigitValue(d) - 40, 1) by {
      assert Validators.Pow10(1) == 10;
    }
  }

  /** What that code reads: `-4` for a zero, else `-3.` and the digit's complement to ten. */
  lemma LeadingPointCode(batch: string, v: nat)
    requires |batch| >= 2 && batch[|batch| - 2] == '.' && IsDigit(batch[|batch| - 1])
    requires v == DigitValue(batch[|batch| - 1])
    ensures v == 0 ==> BatchCode(batch) == "-4"
    ensures v != 0 ==> BatchCode(batch) == "-3." + ['0' + (10 - v) as char]
  {
    CodeOfLeadingPoint(batch);
    TenthsBelowMinusThree(v);
  }

  lemma TenthsBelowMinusThree(v: nat)
    requires v < 10
    ensures v == 0 ==> ShowDecimal(Decimal(v - 40, 1)) == "-4"
    ensures v != 0 ==> ShowDecimal(Decimal(v - 40, 1)) == "-3." + ['0' + (10 - v) as char]
  {
    if v == 0 {
      assert (v - 40) % 10 == 0 && (v - 40) / 10 == -4;
      DigitToString(4);
    } else {
      var a: nat := 40 - v;
      assert a / 10 == 3 && a % 10 == 10 - v;
      TwoDigitsToString(a);
      var t := NatToString(a);
      assert ZeroPad(t, 2) == t;
    }
  }

  /** A trailing point does not stop the batch check: `parseInt` reads the year before it. */
  lemma TrailingPointBatch(year: string, currentYear: int)
    requires year != [] && AllDigits(year) && year[0] != '0'
    requires 1900 <= DigitsValue(year) <= currentYear + 10
    ensures ValidateBatch(year + ".", currentYear).None?
  {
    var batch := year + ".";
    assert batch[0] == year[0];
    assert !IsJsWhitespace(batch[0]);
    ParseIntDecimal(year, ".");
  }

  lemma PrefixFor1CS()
    ensures "1RV" + "1" + "CS" == "1RV1CS"
  {
    assert ("1RV" + "1" + "CS")[..6] == "1RV1CS";
  }

  /** A year ending in 5 followed by a point has the code 1, so the prefix for department "CS" is "1RV1CS". */
  lemma TrailingPointPrefix(year: string)
    requires year != [] && IsDigit(year[|year| - 1]) && DigitValue(year[|year| - 1]) == 5
    ensures ExpectedPrefix("CS", year + ".") == "1RV1CS"
  {
    var batch := year + ".";
    assert batch[|batch| - 2] == year[|year| - 1];
    CodeOfTrailingPoint(batch);
    DigitToString(1);
    PrefixFor1CS();
  }

  /** And then an ID such as "1RV1CS001" passes. */
  lemma TrailingPointIdAccepted(year: string, rest: string)
    requires year != [] && IsDigit(year[|year| - 1]) && DigitValue(year[|year| - 1]) == 5
    ensures ValidateStudentId("1RV1CS" + rest, "CS", year + ".").None?
  {
    TrailingPointPrefix(year);
    IdWithPrefix("1RV1CS", rest);
  }

  /** An ID that starts with a prefix whose first character is not blank starts with it and is not blank. */
  lemma IdWithPrefix(prefix: string, rest: string)
    requires prefix != [] && !IsJsWhitespace(prefix[0])
    ensures StartsWith(prefix + rest, prefix) && !AllJsWhitespace(prefix + rest)
  {
    assert (prefix + rest)[..|prefix|] == prefix;
    assert (prefix + rest)[0] == prefix[0];
  }

  lemma Year2025()
    ensures AllDigits("2025") && "2025"[0] != '0' && DigitsValue("2025") == 2025
    ensures DigitValue("2025"[3]) == 5
  {
    assert "2025"[..3] == "202" && "202"[..2] == "20" && "20"[..1] == "2" && "2"[..0] == [];
  }

  /**
   * So the batch "2025." passes the batch check, its code is 1, and for
   * department "CS" the form accepts the ID "1RV1CS001".
   */
  lemma Batch2025Accepted(currentYear: int)
    requires currentYear >= 2015
    ensures ValidateBatch("2025" + ".", currentYear).None?
    ensures ExpectedPrefix("CS", "2025" + ".") == "1RV1CS"
    ensures ValidateStudentId("1RV1CS" + "001", "CS", "2025" + ".").None?
  {
    Year2025();
    TrailingPointBatch("2025", currentYear);
    TrailingPointPrefix("2025");
    TrailingPointIdAccepted("2025", "001");
  }

  predicate IsLowerLetter(c: char) { 'a' <= c <= 'z' }

  /** `Number` of a text that starts with a letter and ends in a non-blank is `NaN`. */
  lemma LetterStartIsNaN(s: string)
    requires s != [] && IsLowerLetter(s[0]) && !IsJsWhitespace(s[|s| - 1])
    ensures Number(s) == None
  {
    JsTrimKeeps(s);
    assert !IsDigit(s[0]);
  }

  /**
   * A batch the form accepts can still end in letters, since `parseInt`
   * stops at the first non-digit; the ID prefix then spells out `NaN`.
   */
  lemma BatchWithLetterTail(year: string, tail: string, currentYear: int)
    requires year != [] && AllDigits(year) && year[0] != '0'
    requires 1900 <= DigitsValue(year) <= currentYear + 10
    requires |tail| == 2 && IsLowerLetter(tail[0]) && IsLowerLetter(tail[1])
    ensures ValidateBatch(year + tail, currentYear).None?
    ensures BatchCode(year + tail) == "NaN"
  {
    var batch := year + tail;
    assert batch[0] == year[0];
    assert !IsJsWhitespace(batch[0]);
    assert LastTwo(batch) == tail;
    LetterStartIsNaN(tail);
    ParseIntDecimal(year, tail);
  }

  /** An ID the form accepts never passes the back end's `ST` roll-number check: one starts with `1`, the other with `S`. */
  lemma FormAndBackendIdsDisjoint(studentId: string, department: string, batch: string)
    requires ValidateStudentId(studentId, department, batch).None?
    ensures !Validators.ValidateStudentId(studentId)
  {
    var p := ExpectedPrefix(department, batch);
    assert studentId[..|p|] == p;
    assert studentId[0] == p[0] == '1';
    if Validators.ValidateStudentId(studentId) {
      Validators.StudentIdStartsWithS(studentId);
    }
  }

  // ---------------------------------------------------------------- whole forms

  /** The form fields as the checks read them, with `|| ""` and `|| 0` already applied. */
  datatype StudentForm = StudentForm(
    name: string, email: string, password: string, department: string, batch: string,
    semester: real, studentId: string, phoneNumber: string)

  /** The student ID check of the create form: the format when department and batch are valid, presence otherwise. */
  function CreateStudentIdError(f: StudentForm, currentYear: int): (r: Option<string>)
    ensures ValidateDepartment(f.department).None? && ValidateBatch(f.batch, currentYear).None? ==>
      r == ValidateStudentId(f.studentId, f.department, f.batch)
    ensures !(ValidateDepartment(f.department).None? && ValidateBatch(f.batch, currentYear).None?) ==>
      (r.None? <==> !AllJsWhitespace(f.studentId))
  {
    JsTrimEmptyIff(f.studentId);
    if ValidateDepartment(f.department).None? && ValidateBatch(f.batch, currentYear).None? then
      ValidateStudentId(f.studentId, f.department, f.batch)
    else if JsTrim(f.studentId) == "" then Some("Student ID is required")
    else None
  }

  /** The keys of the form's error table. */
  datatype FormField = Name | Email | Password | Department | Batch | Semester | StudentId | PhoneNumber

  /** `newErrors`: each field's message, `None` where the check passed or did not run. */
  datatype NewErrors = NewErrors(
    name: Option<string>, email: Option<string>, password: Option<string>, department: Option<string>,
    batch: Option<string>, semester: Option<string>, studentId: Option<string>, phoneNumber: Option<string>)

  function Entry(e: NewErrors, k: FormField): Option<string> {
    match k
    case Name => e.name
    case Email => e.email
    case Password => e.password
    case Department => e.department
    case Batch => e.batch
    case Semester => e.semester
    case StudentId => e.studentId
    case PhoneNumber => e.phoneNumber
  }

  /** The create form's checks; the phone number is not checked. */
  function CreateErrors(f: StudentForm, currentYear: int): NewErrors {
    NewErrors(
      ValidateName(f.name), ValidateEmail(f.email), ValidatePassword(f.password), ValidateDepartment(f.department),
      ValidateBatch(f.batch, currentYear), ValidateSemester(f.semester), CreateStudentIdError(f, currentYear), None)
  }

  /** The update form's checks: an empty name is not checked, nor are e-mail, password and ID. */
  function UpdateErrors(f: StudentForm, currentYear: int): NewErrors {
    NewErrors(
      if f.name == "" then None else ValidateName(f.name), None, None, ValidateDepartment(f.department),
      ValidateBatch(f.batch, currentYear), ValidateSemester(f.semester), None, PhoneError(f.phoneNumber))
  }

  /** `newErrors` with every check passed. */
  const NoErrors := NewErrors(None, None, None, None, None, None, None, None)

  /** The keys in the order the form's checks fill them in. */
  const AllFields: seq<FormField> := [Name, Email, Password, Department, Batch, Semester, StudentId, PhoneNumber]

  lemma AllFieldsListed(k: FormField)
    ensures k in AllFields
  {
  }

  /** All checks passed exactly when no field holds a message. */
  lemma NoErrorsIff(e: NewErrors)
    ensures (forall i :: 0 <= i < |AllFields| ==> Entry(e, AllFields[i]).None?) <==> e == NoErrors
  {
    if forall i :: 0 <= i < |AllFields| ==> Entry(e, AllFields[i]).None? {
      assert Entry(e, AllFields[0]).None? && Entry(e, AllFields[1]).None? && Entry(e, AllFields[2]).None?;
      assert Entry(e, AllFields[3]).None? && Entry(e, AllFields[4]).None? && Entry(e, AllFields[5]).None?;
      assert Entry(e, AllFields[6]).None? && Entry(e, AllFields[7]).None?;
    }
  }

  /** The error table of a form whose checks gave `e`. */
  method Collect(e: NewErrors) returns (errors: map<FormField, string>)
    ensures forall k :: Field(errors, k) == Entry(e, k)
    ensures errors == map[] <==> e == NoErrors
  {
    errors := KeepMessages(AllFields, k => Entry(e, k));
    forall k ensures Field(errors, k) == Entry(e, k) {
      AllFieldsListed(k);
    }
    NoErrorsIff(e);
  }

  /** `validateCreateForm()`: the message of every failing check, and whether there is none. */
  method ValidateCreateForm(f: StudentForm, currentYear: int) returns (errors: map<FormField, string>, valid: bool)
    ensures forall k :: Field(errors, k) == Entry(CreateErrors(f, currentYear), k)
    ensures valid <==> errors == map[]
    ensures valid <==> CreateErrors(f, currentYear) == NoErrors
  {
    errors := Collect(CreateErrors(f, currentYear));
    valid := |errors| == 0;
  }

  /** Every create-form check passes exactly when every field is valid, the ID's format included. */
  lemma CreateFormValidIff(f: StudentForm, currentYear: int)
    ensures CreateErrors(f, currentYear) == NoErrors <==>
      ValidateName(f.name).None? && ValidateEmail(f.email).None? && ValidatePassword(f.password).None? &&
      ValidateDepartment(f.department).None? && ValidateBatch(f.batch, currentYear).None? &&
      ValidateSemester(f.semester).None? && ValidateStudentId(f.studentId, f.department, f.batch).None?
  {
  }

  /** `^\d{10}$` */
  predicate TenDigits(s: string) { |s| == 10 && AllDigits(s) }

  /** The phone check of the update form: only a non-blank number is checked, and it must be ten digits. */
  function PhoneError(phone: string): (r: Option<string>)
    ensures r.None? <==> AllJsWhitespace(phone) || TenDigits(phone)
  {
    JsTrimEmptyIff(phone);
    if phone != "" && JsTrim(phone) != "" && !TenDigits(phone) then Some("Phone number must be 10 digits") else None
  }

  /** `validateUpdateForm()`: the message of every failing check, and whether there is none. */
  method ValidateUpdateForm(f: StudentForm, currentYear: int) returns (errors: map<FormField, string>, valid: bool)
    ensures forall k :: Field(errors, k) == Entry(UpdateErrors(f, currentYear), k)
    ensures valid <==> errors == map[]
    ensures valid <==> UpdateErrors(f, currentYear) == NoErrors
  {
    errors := Collect(UpdateErrors(f, currentYear));
    valid := |errors| == 0;
  }

  /** Every update-form check passes exactly when the fields it looks at are valid or left out. */
  lemma UpdateFormValidIff(f: StudentForm, currentYear: int)
    ensures UpdateErrors(f, currentYear) == NoErrors <==>
      (f.name == "" || ValidateName(f.name).None?) && ValidateDepartment(f.department).None? &&
      ValidateBatch(f.batch, currentYear).None? && ValidateSemester(f.semester).None? &&
      (AllJsWhitespace(f.phoneNumber) || TenDigits(f.phoneNumber))
  {
  }
}
