/**
 * The student's attendance page: each enrolled course with the counts of
 * the student's records for it, its percentage and level, the totals over
 * all courses, and the low-attendance warning shown on a course card.
 */
module StudentAttendancePage {
  import opened Wrappers
  import Seqs
  import opened AttendanceStats
  import ContextTools

  datatype Enrollment = Enrollment(id: string, studentId: string, courseId: string, status: string)

  /** A record as the page reads it: its own course id and its session's, either of which may be missing. */
  datatype PageRecord = PageRecord(courseId: Option<string>, sessionCourseId: Option<string>, status: string)

  datatype CourseWithAttendance = CourseWithAttendance(
    enrollment: Enrollment, totalSessions: nat, attendedSessions: nat, absentSessions: nat, lateCount: nat,
    attendancePercentage: real, status: Level)

  /** `record.courseId === enrollment.courseId || record.session?.courseId === enrollment.courseId` */
  function BelongsTo(courseId: string): PageRecord -> bool {
    (r: PageRecord) => r.courseId == Some(courseId) || r.sessionCourseId == Some(courseId)
  }

  function Is(s: string): PageRecord -> bool { (r: PageRecord) => r.status == s }
  function Attended(): PageRecord -> bool { (r: PageRecord) => r.status == "PRESENT" || r.status == "LATE" }

  /** One enrollment's card. */
  function CourseStats(e: Enrollment, records: seq<PageRecord>): (c: CourseWithAttendance)
    ensures c.enrollment == e
    ensures c.totalSessions == Seqs.Count(records, BelongsTo(e.courseId))
    ensures c.attendedSessions + c.absentSessions <= c.totalSessions && c.lateCount <= c.attendedSessions
    ensures c.attendancePercentage == Percent(c.attendedSessions, c.totalSessions)
    ensures c.status == LevelOf(c.attendancePercentage)
  {
    var mine := Seqs.Filter(records, BelongsTo(e.courseId));
    var attended := Seqs.Count(mine, Attended());
    var absent := Seqs.Count(mine, Is("ABSENT"));
    var late := Seqs.Count(mine, Is("LATE"));
    Seqs.CountDisjoint(mine, Attended(), Is("ABSENT"));
    LateAmongAttended(mine);
    var p := Percent(attended, |mine|);
    CourseWithAttendance(e, |mine|, attended, absent, late, p, LevelOf(p))
  }

  lemma {:induction false} LateAmongAttended(rs: seq<PageRecord>)
    ensures Seqs.Count(rs, Is("LATE")) <= Seqs.Count(rs, Attended())
    decreases |rs|
  {
    if rs != [] { LateAmongAttended(rs[1..]); }
  }

  /** The cards: one per enrollment, in enrollment order. */
  function CoursesWithStats(es: seq<Enrollment>, records: seq<PageRecord>): (r: seq<CourseWithAttendance>)
    ensures |r| == |es| && forall i :: 0 <= i < |es| ==> r[i] == CourseStats(es[i], records)
  {
    seq(|es|, i requires 0 <= i < |es| => CourseStats(es[i], records))
  }

  datatype Overall = Overall(totalSessions: nat, attended: nat, percentage: real)

  function TotalOf(): CourseWithAttendance -> int { (c: CourseWithAttendance) => c.totalSessions }
  function AttendedOf(): CourseWithAttendance -> int { (c: CourseWithAttendance) => c.attendedSessions }

  /** The overall figures: sums over the cards, and their percentage. */
  function OverallOf(cs: seq<CourseWithAttendance>): (o: Overall)
    ensures o.totalSessions == Seqs.Sum(cs, TotalOf()) && o.attended == Seqs.Sum(cs, AttendedOf())
    ensures o.percentage == Percent(o.attended, o.totalSessions)
  {
    Seqs.SumNat(cs, TotalOf());
    Seqs.SumNat(cs, AttendedOf());
    var total: nat := Seqs.Sum(cs, TotalOf());
    var attended: nat := Seqs.Sum(cs, AttendedOf());
    Overall(total, attended, Percent(attended, total))
  }

  /** Over the cards, attended sessions never exceed sessions, so the overall percentage lies between 0 and 100. */
  lemma {:induction false} OverallBounded(cs: seq<CourseWithAttendance>)
    requires forall i :: 0 <= i < |cs| ==> cs[i].attendedSessions <= cs[i].totalSessions
    ensures OverallOf(cs).attended <= OverallOf(cs).totalSessions
    ensures 0.0 <= OverallOf(cs).percentage <= 100.0
    decreases |cs|
  {
    if cs != [] { OverallBounded(cs[1..]); }
  }

  /** What the page ends up showing after its fetch. */
  datatype PageState = NotSignedIn | LoadFailed(message: string) | Loaded(courses: seq<CourseWithAttendance>, overall: Overall)

  const DefaultError := "Failed to load attendance data. Please try again."

  /** A failed request, with the message it carries if any. */
  type Failure = Option<string>

  /** `err?.message || DefaultError`: the failure's message, unless it is missing or empty. */
  function ErrorShown(e: Failure): (m: string)
    ensures m != []
    ensures e.Some? && e.value != [] ==> m == e.value
    ensures e.None? || e.value == [] ==> m == DefaultError
  {
    if e.Some? && e.value != [] then e.value else DefaultError
  }

  /**
   * `fetchAttendanceData`: with no signed-in user nothing is fetched;
   * otherwise the student profile, its enrollments and its records are
   * fetched in turn, and any failure shows its message or the default one.
   */
  function FetchAttendanceData(
    userId: Option<string>,
    studentByUser: string -> Result<string, Failure>,
    enrolled: string -> Result<seq<Enrollment>, Failure>,
    attendance: string -> Result<seq<PageRecord>, Failure>): (s: PageState)
    ensures userId.None? || userId == Some("") <==> s == NotSignedIn
    ensures s.Loaded? <==> (userId.Some? && userId.value != "" && studentByUser(userId.value).Ok? &&
                            enrolled(studentByUser(userId.value).value).Ok? && attendance(studentByUser(userId.value).value).Ok?)
    ensures s.Loaded? ==> s.courses == CoursesWithStats(enrolled(studentByUser(userId.value).value).value,
                                                      attendance(studentByUser(userId.value).value).value)
    ensures s.Loaded? ==> s.overall == OverallOf(s.courses)
    ensures userId.Some? && userId.value != "" && studentByUser(userId.value).Err? ==>
      s == LoadFailed(ErrorShown(studentByUser(userId.value).error))
    ensures userId.Some? && userId.value != "" && studentByUser(userId.value).Ok? &&
            enrolled(studentByUser(userId.value).value).Err? ==>
      s == LoadFailed(ErrorShown(enrolled(studentByUser(userId.value).value).error))
    ensures userId.Some? && userId.value != "" && studentByUser(userId.value).Ok? &&
            enrolled(studentByUser(userId.value).value).Ok? && attendance(studentByUser(userId.value).value).Err? ==>
      s == LoadFailed(ErrorShown(attendance(studentByUser(userId.value).value).error))
  {
    if userId.None? || userId.value == "" then NotSignedIn
    else
      match studentByUser(userId.value)
      case Err(e) => LoadFailed(ErrorShown(e))
      case Ok(profileId) =>
        match enrolled(profileId)
        case Err(e) => LoadFailed(ErrorShown(e))
        case Ok(es) =>
          match attendance(profileId)
          case Err(e) => LoadFailed(ErrorShown(e))
          case Ok(records) =>
            var cs := CoursesWithStats(es, records);
            Loaded(cs, OverallOf(cs))
  }

  /** The warning on a course card, if any. */
  function WarningText(p: real): (w: Option<string>)
    ensures w.Some? <==> p < 75.0
  {
    if p < 75.0 then Some(if p < 60.0 then "Critical! Attendance below 60%" else "Warning! Attendance below 75%")
    else None
  }

  /** A card warns exactly when its level is WARNING or CRITICAL, and speaks of a critical state exactly when the level is CRITICAL. */
  lemma WarningFollowsLevel(p: real)
    ensures WarningText(p).Some? <==> LevelOf(p) in {Warning, Critical}
    ensures WarningText(p) == Some("Critical! Attendance below 60%") <==> LevelOf(p) == Critical
  {
    assert |"Critical! Attendance below 60%"| != |"Warning! Attendance below 75%"|;
  }

  /**
   * The page and the back end's own attendance tool count attendance
   * differently: given records with the same statuses, the page's attended
   * count exceeds the tool's by exactly the LATE records.
   */
  lemma {:induction false} PageCountsLateAsAttended(rs: seq<PageRecord>, bs: seq<ContextTools.AttendanceRecord>)
    requires |rs| == |bs| && forall i :: 0 <= i < |rs| ==> rs[i].status == bs[i].status
    ensures Seqs.Count(rs, Attended()) == Seqs.Count(bs, ContextTools.IsPresent) + Seqs.Count(rs, Is("LATE"))
    decreases |rs|
  {
    if rs != [] {
      PageCountsLateAsAttended(rs[1..], bs[1..]);
    }
  }
}
