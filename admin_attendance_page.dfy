/**
 * The administrator's attendance page: the searchable lists of students
 * and teachers with their per-course attendance, the three-level badge of
 * a percentage, a student's overall percentage and a teacher's totals.
 */
module AdminAttendancePage {
  import opened Text
  import Seqs
  import opened AttendanceStats

  datatype CourseAttendance = CourseAttendance(
    courseId: string, courseCode: string, courseName: string,
    totalClasses: nat, attendedClasses: nat, attendancePercentage: real, status: string)

  datatype StudentAttendance = StudentAttendance(
    studentId: string, studentName: string, studentIdNumber: string, department: string,
    semester: int, courses: seq<CourseAttendance>)

  datatype TeacherCourseAttendance = TeacherCourseAttendance(
    courseId: string, courseCode: string, courseName: string,
    totalClassesConducted: nat, totalStudentsEnrolled: nat, averageAttendancePercentage: real)

  datatype TeacherAttendance = TeacherAttendance(
    teacherId: string, teacherName: string, teacherIdNumber: string, department: string,
    courses: seq<TeacherCourseAttendance>)

  // ---------------------------------------------------------------- search

  /** Some of the three searched fields, lower-cased, contains the (already lower-cased) query. */
  predicate FieldsMatch(fields: (string, string, string), query: string) {
    Contains(Lower(fields.0), query) || Contains(Lower(fields.1), query) || Contains(Lower(fields.2), query)
  }

  function Matching<T>(fields: T -> (string, string, string), query: string): T -> bool {
    (x: T) => FieldsMatch(fields(x), query)
  }

  /**
   * The search effect of both tabs: a query that trims to nothing shows
   * the whole list; any other query keeps, in order, the entries one of
   * whose fields contains the lower-cased query.
   */
  function Search<T>(items: seq<T>, query: string, fields: T -> (string, string, string)): (r: seq<T>)
    ensures AllJsWhitespace(query) ==> r == items
    ensures !AllJsWhitespace(query) ==> r == Seqs.Filter(items, Matching(fields, Lower(query)))
    ensures forall i :: 0 <= i < |items| ==>
      (items[i] in r <==> AllJsWhitespace(query) || FieldsMatch(fields(items[i]), Lower(query)))
    ensures forall x :: x in r ==> x in items
  {
    JsTrimEmptyIff(query);
    if JsTrim(query) == "" then items
    else
      var r := Seqs.Filter(items, Matching(fields, Lower(query)));
      assert forall x :: x in r ==> FieldsMatch(fields(x), Lower(query)) by {
        forall x | x in r ensures FieldsMatch(fields(x), Lower(query)) {
          var k :| 0 <= k < |r| && r[k] == x;
        }
      }
      r
  }

  /** The case of the query never matters. */
  lemma SearchIgnoresCase<T>(items: seq<T>, query: string, fields: T -> (string, string, string))
    ensures Search(items, query, fields) == Search(items, Lower(query), fields)
  {
    LowerKeepsWhitespace(query);
    LowerIdempotent(query);
  }

  function StudentFields(): StudentAttendance -> (string, string, string) {
    (s: StudentAttendance) => (s.studentName, s.studentIdNumber, s.department)
  }

  function TeacherFields(): TeacherAttendance -> (string, string, string) {
    (t: TeacherAttendance) => (t.teacherName, t.teacherIdNumber, t.department)
  }

  /** `filteredStudents`: by name, roll number or department. */
  function SearchStudents(students: seq<StudentAttendance>, query: string): (r: seq<StudentAttendance>)
    ensures AllJsWhitespace(query) ==> r == students
    ensures forall i :: 0 <= i < |students| ==>
      (students[i] in r <==> (AllJsWhitespace(query) ||
        Contains(Lower(students[i].studentName), Lower(query)) ||
        Contains(Lower(students[i].studentIdNumber), Lower(query)) ||
        Contains(Lower(students[i].department), Lower(query))))
  {
    Search(students, query, StudentFields())
  }

  /** `filteredTeachers`: by name, employee number or department. */
  function SearchTeachers(teachers: seq<TeacherAttendance>, query: string): (r: seq<TeacherAttendance>)
    ensures AllJsWhitespace(query) ==> r == teachers
    ensures forall i :: 0 <= i < |teachers| ==>
      (teachers[i] in r <==> (AllJsWhitespace(query) ||
        Contains(Lower(teachers[i].teacherName), Lower(query)) ||
        Contains(Lower(teachers[i].teacherIdNumber), Lower(query)) ||
        Contains(Lower(teachers[i].department), Lower(query))))
  {
    Search(teachers, query, TeacherFields())
  }

  // ---------------------------------------------------------------- badge

  datatype StatusBadge = StatusBadge(text: string, variant: string)

  /** `getAttendanceStatus(percentage)`: three levels at 75 and 60. */
  function AttendanceStatus(p: real): (b: StatusBadge)
    ensures b == StatusBadge("Good", "default") <==> p >= 75.0
    ensures b == StatusBadge("Warning", "secondary") <==> 60.0 <= p < 75.0
    ensures b == StatusBadge("Critical", "destructive") <==> p < 60.0
  {
    if p >= 75.0 then StatusBadge("Good", "default")
    else if p >= 60.0 then StatusBadge("Warning", "secondary")
    else StatusBadge("Critical", "destructive")
  }

  /**
   * The page's badge is the shared four-level classification with its two
   * upper levels merged: EXCELLENT and GOOD both show "Good".
   */
  lemma BadgeMergesUpperLevels(p: real)
    ensures AttendanceStatus(p).text == "Good" <==> LevelOf(p) in {Excellent, Good}
    ensures AttendanceStatus(p).text == "Warning" <==> LevelOf(p) == Warning
    ensures AttendanceStatus(p).text == "Critical" <==> LevelOf(p) == Critical
  {
    assert "Good"[0] != "Warning"[0] && "Good"[0] != "Critical"[0] && "Warning"[0] != "Critical"[0];
  }

  // ---------------------------------------------------------------- student overall

  function TotalClasses(): CourseAttendance -> int { (c: CourseAttendance) => c.totalClasses }
  function AttendedClasses(): CourseAttendance -> int { (c: CourseAttendance) => c.attendedClasses }

  function ClassesOf(courses: seq<CourseAttendance>): nat {
    Seqs.SumNat(courses, TotalClasses());
    Seqs.Sum(courses, TotalClasses())
  }

  function AttendedOf(courses: seq<CourseAttendance>): nat {
    Seqs.SumNat(courses, AttendedClasses());
    Seqs.Sum(courses, AttendedClasses())
  }

  /** `calculateOverallAttendance(courses)`: the rounded percentage of all attended classes, 0 without classes. */
  function OverallAttendance(courses: seq<CourseAttendance>): (r: int)
    ensures ClassesOf(courses) == 0 ==> r == 0
    ensures ClassesOf(courses) > 0 ==> r == Round(Percent(AttendedOf(courses), ClassesOf(courses)))
  {
    if |courses| == 0 then 0
    else
      var total := ClassesOf(courses);
      var attended := AttendedOf(courses);
      if total > 0 then Round(Percent(attended, total)) else 0
  }

  /** The floor of a real `x` with `x·d == n` is the integer quotient of `n` by `d`. */
  lemma FloorOfRatio(x: real, n: int, d: nat)
    requires d > 0 && x * (d as real) == n as real
    ensures x.Floor == n / d
  {
    var q, r := n / d, n % d;
    assert (n as real) == (q as real) * (d as real) + (r as real);
    var y := x - q as real;
    assert y * (d as real) == r as real;
  }

  /** `Math.round(attended / total * 100)` in whole numbers: `(200·attended + total) div (2·total)`. */
  lemma RoundedPercent(part: nat, total: nat)
    requires total > 0
    ensures Round(Percent(part, total)) == (200 * part + total) / (2 * total)
  {
    var p := Percent(part, total);
    var t := total as real;
    assert p * t == 100.0 * (part as real);
    assert (p + 0.5) * (2.0 * t) == 2.0 * (p * t) + t;
    assert (p + 0.5) * ((2 * total) as real) == (200 * part + total) as real;
    FloorOfRatio(p + 0.5, 200 * part + total, 2 * total);
  }

  /** When no course records more attended classes than classes, the overall figure lies between 0 and 100. */
  lemma {:induction false} OverallAttendanceBounded(courses: seq<CourseAttendance>)
    requires forall i :: 0 <= i < |courses| ==> courses[i].attendedClasses <= courses[i].totalClasses
    ensures 0 <= OverallAttendance(courses) <= 100
  {
    AttendedBelowTotal(courses);
  }

  lemma {:induction false} AttendedBelowTotal(courses: seq<CourseAttendance>)
    requires forall i :: 0 <= i < |courses| ==> courses[i].attendedClasses <= courses[i].totalClasses
    ensures Seqs.Sum(courses, AttendedClasses()) <= Seqs.Sum(courses, TotalClasses())
    decreases |courses|
  {
    if courses != [] { AttendedBelowTotal(courses[1..]); }
  }

  // ---------------------------------------------------------------- teacher totals

  function ClassesConducted(): TeacherCourseAttendance -> int {
    (c: TeacherCourseAttendance) => c.totalClassesConducted
  }

  /** `calculateTotalClassesConducted(courses)`: the classes of every course together. */
  function TotalClassesConducted(courses: seq<TeacherCourseAttendance>): (r: nat)
    ensures r == Seqs.Sum(courses, ClassesConducted())
    ensures forall i :: 0 <= i < |courses| ==> courses[i].totalClassesConducted <= r
  {
    Seqs.SumNat(courses, ClassesConducted());
    forall i | 0 <= i < |courses| ensures courses[i].totalClassesConducted <= Seqs.Sum(courses, ClassesConducted()) {
      Seqs.SumAtLeastEach(courses, ClassesConducted(), i);
    }
    Seqs.Sum(courses, ClassesConducted())
  }

  /** Splitting a teacher's courses splits the total. */
  lemma TotalClassesConductedAppend(a: seq<TeacherCourseAttendance>, b: seq<TeacherCourseAttendance>)
    ensures TotalClassesConducted(a + b) == TotalClassesConducted(a) + TotalClassesConducted(b)
  {
    Seqs.SumAppend(a, b, ClassesConducted());
  }

  function PercentSum(courses: seq<TeacherCourseAttendance>): real
    decreases |courses|
  {
    if courses == [] then 0.0 else courses[0].averageAttendancePercentage + PercentSum(courses[1..])
  }

  /** `calculateAverageAttendance(courses)`: the rounded mean of the course percentages, each course weighing the same. */
  function AverageAttendance(courses: seq<TeacherCourseAttendance>): (r: int)
    ensures courses == [] ==> r == 0
    ensures courses != [] ==> r == Round(PercentSum(courses) / (|courses| as real))
  {
    if |courses| == 0 then 0 else Round(PercentSum(courses) / (|courses| as real))
  }

  lemma {:induction false} PercentSumBounded(courses: seq<TeacherCourseAttendance>)
    requires forall i :: 0 <= i < |courses| ==> 0.0 <= courses[i].averageAttendancePercentage <= 100.0
    ensures 0.0 <= PercentSum(courses) <= 100.0 * (|courses| as real)
    decreases |courses|
  {
    if courses != [] { PercentSumBounded(courses[1..]); }
  }

  /** With every course percentage between 0 and 100, so is the average. */
  lemma AverageAttendanceBounded(courses: seq<TeacherCourseAttendance>)
    requires forall i :: 0 <= i < |courses| ==> 0.0 <= courses[i].averageAttendancePercentage <= 100.0
    ensures 0 <= AverageAttendance(courses) <= 100
  {
    if courses != [] {
      PercentSumBounded(courses);
      var n := |courses| as real;
      var m := PercentSum(courses) / n;
      assert m * n == PercentSum(courses);
      assert 0.0 <= m <= 100.0;
    }
  }

  lemma {:induction false} PercentSumConstant(courses: seq<TeacherCourseAttendance>, k: int)
    requires forall i :: 0 <= i < |courses| ==> courses[i].averageAttendancePercentage == k as real
    ensures PercentSum(courses) == (|courses| * k) as real
    decreases |courses|
  {
    if courses != [] { PercentSumConstant(courses[1..], k); }
  }

  /** Courses that all show the same whole percentage average to that percentage. */
  lemma AverageOfEqualCourses(courses: seq<TeacherCourseAttendance>, k: int)
    requires courses != []
    requires forall i :: 0 <= i < |courses| ==> courses[i].averageAttendancePercentage == k as real
    ensures AverageAttendance(courses) == k
  {
    PercentSumConstant(courses, k);
    var n := |courses| as real;
    assert (|courses| * k) as real == n * (k as real);
    assert PercentSum(courses) / n == k as real;
    RoundWhole(k);
  }
}
