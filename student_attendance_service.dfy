/**
 * The student attendance service of the front end: the per-group tally of
 * a student's attendance records, the statistics over the resulting course
 * summaries, and the colour and badge chosen for a percentage or a level.
 */
module StudentAttendanceService {
  import opened Wrappers
  import Seqs
  import opened AttendanceStats

  datatype AttendanceRecord = AttendanceRecord(id: string, studentId: string, sessionId: string, courseId: string, status: string)

  datatype Counters = Counters(total: nat, attended: nat, absent: nat, late: nat, excused: nat)

  const Zero := Counters(0, 0, 0, 0, 0)

  /** One record's effect on its group: every record is counted, and LATE counts as attended as well. */
  function Step(c: Counters, status: string): Counters {
    var c := c.(total := c.total + 1);
    match status
    case "PRESENT" => c.(attended := c.attended + 1)
    case "ABSENT" => c.(absent := c.absent + 1)
    case "LATE" => c.(late := c.late + 1, attended := c.attended + 1)
    case "EXCUSED" => c.(excused := c.excused + 1)
    case _ => c
  }

  /** The counters of a group after its records, taken in order. */
  function Tally(rs: seq<AttendanceRecord>): Counters
    decreases |rs|
  {
    if rs == [] then Zero else Step(Tally(rs[..|rs| - 1]), rs[|rs| - 1].status)
  }

  function HasStatus(s: string): AttendanceRecord -> bool { (r: AttendanceRecord) => r.status == s }
  function Attends(): AttendanceRecord -> bool { (r: AttendanceRecord) => r.status == "PRESENT" || r.status == "LATE" }

  /** The tally counts every record, PRESENT and LATE as attended, and LATE, ABSENT and EXCUSED separately. */
  lemma {:induction false} TallyCounts(rs: seq<AttendanceRecord>)
    ensures Tally(rs) == Counters(|rs|, Seqs.Count(rs, Attends()), Seqs.Count(rs, HasStatus("ABSENT")),
      Seqs.Count(rs, HasStatus("LATE")), Seqs.Count(rs, HasStatus("EXCUSED")))
    decreases |rs|
  {
    if rs != [] {
      var init, last := rs[..|rs| - 1], rs[|rs| - 1];
      assert rs == init + [last];
      TallyCounts(init);
      Seqs.CountSnoc(init, last, Attends());
      Seqs.CountSnoc(init, last, HasStatus("ABSENT"));
      Seqs.CountSnoc(init, last, HasStatus("LATE"));
      Seqs.CountSnoc(init, last, HasStatus("EXCUSED"));
    }
  }

  predicate Consistent(c: Counters) { c.attended + c.absent + c.excused <= c.total && c.late <= c.attended }

  /** In every group, attended, absent and excused never exceed the total, and late never exceeds attended. */
  lemma {:induction false} TallyConsistent(rs: seq<AttendanceRecord>)
    ensures Consistent(Tally(rs))
    decreases |rs|
  {
    if rs != [] { TallyConsistent(rs[..|rs| - 1]); }
  }

  // ------------------------------------------------------------ grouping

  type Key = AttendanceRecord -> string

  /** The grouping key as written: the record's session. */
  function SessionKey(): Key { (r: AttendanceRecord) => r.sessionId }
  /** The grouping key the summary's comments and field names call for: the record's course. */
  function CourseKey(): Key { (r: AttendanceRecord) => r.courseId }

  function KeyIs(key: Key, k: string): AttendanceRecord -> bool { (r: AttendanceRecord) => key(r) == k }

  function Keys(rs: seq<AttendanceRecord>, key: Key): (r: seq<string>)
    ensures |r| == |rs| && forall i :: 0 <= i < |rs| ==> r[i] == key(rs[i])
  {
    seq(|rs|, i requires 0 <= i < |rs| => key(rs[i]))
  }

  /** The map the loop builds: each record's key, created at zero on first sight, then stepped by the record. */
  function Groups(rs: seq<AttendanceRecord>, key: Key): map<string, Counters>
    decreases |rs|
  {
    if rs == [] then map[]
    else
      var g := Groups(rs[..|rs| - 1], key);
      var k := key(rs[|rs| - 1]);
      g[k := Step(if k in g then g[k] else Zero, rs[|rs| - 1].status)]
  }

  /** One more record changes only the tally of its own key. */
  lemma TallySnoc(rs: seq<AttendanceRecord>, r: AttendanceRecord, key: Key, j: string)
    ensures Tally(Seqs.Filter(rs + [r], KeyIs(key, j))) ==
      if key(r) == j then Step(Tally(Seqs.Filter(rs, KeyIs(key, j))), r.status)
      else Tally(Seqs.Filter(rs, KeyIs(key, j)))
  {
    var fOld := Seqs.Filter(rs, KeyIs(key, j));
    Seqs.FilterAppend(rs, [r], KeyIs(key, j));
    if key(r) == j {
      assert Seqs.Filter([r], KeyIs(key, j)) == [r];
      var fNew := fOld + [r];
      assert fNew[..|fNew| - 1] == fOld;
    } else {
      assert Seqs.Filter([r], KeyIs(key, j)) == [];
      assert fOld + [] == fOld;
    }
  }

  /** A key no record carries selects no record. */
  lemma AbsentKeyEmpty(rs: seq<AttendanceRecord>, key: Key, j: string)
    requires j !in Keys(rs, key)
    ensures Seqs.Filter(rs, KeyIs(key, j)) == []
  {
  }

  /** The groups are keyed by exactly the records' keys, and each holds the tally of the records with that key. */
  lemma {:induction false} GroupsMeaning(rs: seq<AttendanceRecord>, key: Key)
    ensures forall k :: k in Groups(rs, key) <==> k in Keys(rs, key)
    ensures forall k :: k in Groups(rs, key) ==> Groups(rs, key)[k] == Tally(Seqs.Filter(rs, KeyIs(key, k)))
    decreases |rs|
  {
    if rs != [] {
      var init, last := rs[..|rs| - 1], rs[|rs| - 1];
      assert rs == init + [last];
      GroupsMeaning(init, key);
      assert Keys(rs, key) == Keys(init, key) + [key(last)];
      forall k | k in Groups(rs, key) ensures Groups(rs, key)[k] == Tally(Seqs.Filter(rs, KeyIs(key, k))) {
        TallySnoc(init, last, key, k);
        if k == key(last) && k !in Groups(init, key) {
          AbsentKeyEmpty(init, key, k);
        }
      }
    }
  }

  lemma OrderStep(rs: seq<AttendanceRecord>, key: Key, i: nat)
    requires i < |rs|
    ensures Keys(rs[..i + 1], key) == Keys(rs[..i], key) + [key(rs[i])]
    ensures rs[..i + 1][..i] == rs[..i]
  {
  }

  /** `getStudentAttendanceSummary`'s loop: the groups and their order of first appearance. */
  method GroupRecords(rs: seq<AttendanceRecord>, key: Key) returns (order: seq<string>, groups: map<string, Counters>)
    ensures order == Seqs.Firsts(Keys(rs, key)) && groups == Groups(rs, key)
  {
    order, groups := [], map[];
    for i := 0 to |rs|
      invariant order == Seqs.Firsts(Keys(rs[..i], key)) && groups == Groups(rs[..i], key)
    {
      var k := key(rs[i]);
      OrderStep(rs, key, i);
      GroupsMeaning(rs[..i], key);
      if k !in groups {
        order := order + [k];
      }
      var c := if k in groups then groups[k] else Zero;
      groups := groups[k := Step(c, rs[i].status)];
    }
    assert rs[..|rs|] == rs;
  }

  // ------------------------------------------------------------ summaries

  datatype CourseSummary = CourseSummary(
    courseId: string, courseCode: string, courseName: string, credits: nat, semester: nat,
    counts: Counters, attendancePercentage: real, status: Level)

  function Summary(id: string, c: Counters): (s: CourseSummary)
    ensures s.attendancePercentage == Percent(c.attended, c.total) && s.status == LevelOf(s.attendancePercentage)
  {
    var p := Percent(c.attended, c.total);
    CourseSummary(id, "N/A", "N/A", 0, 0, c, p, LevelOf(p))
  }

  function Summaries(order: seq<string>, groups: map<string, Counters>): seq<CourseSummary>
    requires forall k :: k in order ==> k in groups
  {
    seq(|order|, i requires 0 <= i < |order| => Summary(order[i], groups[order[i]]))
  }

  function SummaryBy(rs: seq<AttendanceRecord>, key: Key): seq<CourseSummary> {
    GroupsMeaning(rs, key);
    Summaries(Seqs.Firsts(Keys(rs, key)), Groups(rs, key))
  }

  /** The summary as written, keyed by session. */
  function AsWrittenSummary(rs: seq<AttendanceRecord>): seq<CourseSummary> { SummaryBy(rs, SessionKey()) }

  /**
   * As written, two records of one course taken in two sessions give two
   * summaries, and each carries a session id in its `courseId` field.
   */
  lemma AsWrittenSplitsCourse(a: AttendanceRecord, b: AttendanceRecord)
    requires a.courseId == b.courseId && a.sessionId != b.sessionId
    ensures |AsWrittenSummary([a, b])| == 2
    ensures AsWrittenSummary([a, b])[0].courseId == a.sessionId && AsWrittenSummary([a, b])[1].courseId == b.sessionId
  {
    var ks := Keys([a, b], SessionKey());
    assert ks == [a.sessionId, b.sessionId];
    assert ks[..1] == [a.sessionId];
    assert Seqs.Firsts(ks[..1]) == [a.sessionId] by { assert ks[..1][..0] == []; }
  }

  /** The summary keyed by course, as the service intends. */
  function IntendedSummary(rs: seq<AttendanceRecord>): seq<CourseSummary> { SummaryBy(rs, CourseKey()) }

  /**
   * Keyed by course, there is one summary per course of the records, in
   * order of first appearance, and each counts exactly that course's records.
   */
  lemma IntendedSummaryPerCourse(rs: seq<AttendanceRecord>)
    ensures forall c :: ((exists i :: 0 <= i < |IntendedSummary(rs)| && IntendedSummary(rs)[i].courseId == c)
      <==> c in Keys(rs, CourseKey()))
    ensures forall i, j :: 0 <= i < j < |IntendedSummary(rs)| ==> IntendedSummary(rs)[i].courseId != IntendedSummary(rs)[j].courseId
    ensures forall i :: 0 <= i < |IntendedSummary(rs)| ==>
      (IntendedSummary(rs)[i].counts == Tally(Seqs.Filter(rs, KeyIs(CourseKey(), IntendedSummary(rs)[i].courseId))))
  {
    var order := Seqs.Firsts(Keys(rs, CourseKey()));
    GroupsMeaning(rs, CourseKey());
    forall c | c in Keys(rs, CourseKey())
      ensures exists i :: 0 <= i < |IntendedSummary(rs)| && IntendedSummary(rs)[i].courseId == c
    {
      var i :| 0 <= i < |order| && order[i] == c;
      assert IntendedSummary(rs)[i].courseId == c;
    }
  }

  /**
   * `getStudentAttendanceSummary(studentId)`, with the grouping corrected
   * to the course key (IntendedSummary): a failed fetch gives no
   * summaries.  The grouping as written, by session, is AsWrittenSummary.
   */
  method GetStudentAttendanceSummary(fetched: Option<seq<AttendanceRecord>>) returns (r: seq<CourseSummary>)
    ensures fetched.None? ==> r == []
    ensures fetched.Some? ==> r == IntendedSummary(fetched.value)
  {
    if fetched.None? {
      return [];
    }
    var order, groups := GroupRecords(fetched.value, CourseKey());
    GroupsMeaning(fetched.value, CourseKey());
    r := Summaries(order, groups);
  }

  // ------------------------------------------------------------ statistics

  datatype Statistics = Statistics(
    totalCourses: nat, totalSessions: nat, totalAttended: nat, totalAbsent: nat, overallPercentage: real,
    excellentCourses: nat, goodCourses: nat, warningCourses: nat, criticalCourses: nat)

  function Sessions(): CourseSummary -> int { (c: CourseSummary) => c.counts.total }
  function AttendedOf(): CourseSummary -> int { (c: CourseSummary) => c.counts.attended }
  function AbsentOf(): CourseSummary -> int { (c: CourseSummary) => c.counts.absent }
  function AtLevel(l: Level): CourseSummary -> bool { (c: CourseSummary) => LevelOf(c.attendancePercentage) == l }

  function NatSum(cs: seq<CourseSummary>, f: CourseSummary -> int): (n: nat)
    requires forall c :: f(c) >= 0
  {
    Seqs.SumNat(cs, f);
    Seqs.Sum(cs, f)
  }

  /** What `calculateStatistics` reports: totals summed over the courses, each course in the bucket of its percentage. */
  function StatisticsOf(cs: seq<CourseSummary>): Statistics {
    var sessions := NatSum(cs, Sessions());
    var attended := NatSum(cs, AttendedOf());
    Statistics(|cs|, sessions, attended, NatSum(cs, AbsentOf()), Percent(attended, sessions),
      Seqs.Count(cs, AtLevel(Excellent)), Seqs.Count(cs, AtLevel(Good)),
      Seqs.Count(cs, AtLevel(Warning)), Seqs.Count(cs, AtLevel(Critical)))
  }

  /** `calculateStatistics(courses)` */
  method CalculateStatistics(cs: seq<CourseSummary>) returns (s: Statistics)
    ensures s == StatisticsOf(cs)
  {
    s := Statistics(|cs|, 0, 0, 0, 0.0, 0, 0, 0, 0);
    for i := 0 to |cs|
      invariant s.totalCourses == |cs| && s.overallPercentage == 0.0
      invariant s.totalSessions == NatSum(cs[..i], Sessions())
      invariant s.totalAttended == NatSum(cs[..i], AttendedOf())
      invariant s.totalAbsent == NatSum(cs[..i], AbsentOf())
      invariant s.excellentCourses == Seqs.Count(cs[..i], AtLevel(Excellent))
      invariant s.goodCourses == Seqs.Count(cs[..i], AtLevel(Good))
      invariant s.warningCourses == Seqs.Count(cs[..i], AtLevel(Warning))
      invariant s.criticalCourses == Seqs.Count(cs[..i], AtLevel(Critical))
    {
      var c := cs[i];
      StatisticsStep(cs, i);
      s := s.(totalSessions := s.totalSessions + c.counts.total,
              totalAttended := s.totalAttended + c.counts.attended,
              totalAbsent := s.totalAbsent + c.counts.absent);
      var p := c.attendancePercentage;
      if p >= 90.0 { s := s.(excellentCourses := s.excellentCourses + 1); }
      else if p >= 75.0 { s := s.(goodCourses := s.goodCourses + 1); }
      else if p >= 60.0 { s := s.(warningCourses := s.warningCourses + 1); }
      else { s := s.(criticalCourses := s.criticalCourses + 1); }
    }
    assert cs[..|cs|] == cs;
    s := s.(overallPercentage := if s.totalSessions > 0 then (s.totalAttended as real / s.totalSessions as real) * 100.0 else 0.0);
  }

  lemma StatisticsStep(cs: seq<CourseSummary>, i: nat)
    requires i < |cs|
    ensures NatSum(cs[..i + 1], Sessions()) == NatSum(cs[..i], Sessions()) + cs[i].counts.total
    ensures NatSum(cs[..i + 1], AttendedOf()) == NatSum(cs[..i], AttendedOf()) + cs[i].counts.attended
    ensures NatSum(cs[..i + 1], AbsentOf()) == NatSum(cs[..i], AbsentOf()) + cs[i].counts.absent
    ensures forall l :: Seqs.Count(cs[..i + 1], AtLevel(l)) == Seqs.Count(cs[..i], AtLevel(l)) + (if LevelOf(cs[i].attendancePercentage) == l then 1 else 0)
  {
    assert cs[..i + 1] == cs[..i] + [cs[i]];
    Seqs.SumSnoc(cs[..i], cs[i], Sessions());
    Seqs.SumSnoc(cs[..i], cs[i], AttendedOf());
    Seqs.SumSnoc(cs[..i], cs[i], AbsentOf());
    forall l
      ensures Seqs.Count(cs[..i + 1], AtLevel(l)) == Seqs.Count(cs[..i], AtLevel(l)) + (if LevelOf(cs[i].attendancePercentage) == l then 1 else 0)
    {
      Seqs.CountSnoc(cs[..i], cs[i], AtLevel(l));
    }
  }

  /** Every course falls in exactly one of the four buckets. */
  lemma {:induction false} BucketsPartition(cs: seq<CourseSummary>)
    ensures StatisticsOf(cs).excellentCourses + StatisticsOf(cs).goodCourses
      + StatisticsOf(cs).warningCourses + StatisticsOf(cs).criticalCourses == StatisticsOf(cs).totalCourses
    decreases |cs|
  {
    if cs != [] {
      var init, last := cs[..|cs| - 1], cs[|cs| - 1];
      assert cs == init + [last];
      BucketsPartition(init);
      Seqs.CountSnoc(init, last, AtLevel(Excellent));
      Seqs.CountSnoc(init, last, AtLevel(Good));
      Seqs.CountSnoc(init, last, AtLevel(Warning));
      Seqs.CountSnoc(init, last, AtLevel(Critical));
    }
  }

  // ------------------------------------------------------------ display

  /** `getStatusColor(percentage)` */
  function StatusColor(p: real): string {
    if p >= 90.0 then "green" else if p >= 75.0 then "blue" else if p >= 60.0 then "yellow" else "red"
  }

  /** `getStatusVariant(status)`: unknown statuses share WARNING's outline. */
  function StatusVariant(status: string): string {
    match status
    case "EXCELLENT" => "default"
    case "GOOD" => "secondary"
    case "WARNING" => "outline"
    case "CRITICAL" => "destructive"
    case _ => "outline"
  }

  function LevelColor(l: Level): string {
    match l
    case Excellent => "green"
    case Good => "blue"
    case Warning => "yellow"
    case Critical => "red"
  }

  /** The colour follows the same four levels as the summary's status, and the badge of a summary's level is destructive exactly when the level is critical. */
  lemma ColorAndVariantFollowLevel(p: real)
    ensures StatusColor(p) == LevelColor(LevelOf(p))
    ensures StatusVariant(LevelName(LevelOf(p))) == "destructive" <==> p < 60.0
    ensures StatusVariant(LevelName(LevelOf(p))) == "outline" <==> 60.0 <= p < 75.0
  {
  }

  /** Any status outside the four levels is shown as an outline, like WARNING. */
  lemma UnknownStatusOutline(status: string)
    requires status !in {"EXCELLENT", "GOOD", "WARNING", "CRITICAL"}
    ensures StatusVariant(status) == StatusVariant("WARNING")
  {
  }
}
