/**
 * The administrator's enrollment page: the status, grade and grade-point
 * checks of its forms, the grade-point table, what picking a grade fills
 * in, the payloads it sends, its badges and its filtered list.
 */
module EnrollmentsPage {
  import opened Wrappers
  import opened Text
  import Seqs
  import opened FormErrors

  // ---------------------------------------------------------------- grades

  const EnrollmentStatuses: seq<string> := ["ACTIVE", "COMPLETED", "DROPPED", "WITHDRAWN"]
  const Grades: seq<string> := ["A+", "A", "A-", "B+", "B", "B-", "C+", "C", "C-", "D", "F"]
  /** `GRADE_POINTS_MAP` */
  const GradePointsMap: map<string, real> := map[
    "A+" := 4.0, "A" := 4.0, "A-" := 3.7, "B+" := 3.3, "B" := 3.0, "B-" := 2.7,
    "C+" := 2.3, "C" := 2.0, "C-" := 1.7, "D" := 1.0, "F" := 0.0]

  /** `GRADE_POINTS_MAP[grade]`: defined for the listed grades only. */
  function GradePointsOf(grade: string): (r: Option<real>)
    ensures r.Some? <==> grade in Grades
    ensures r.Some? ==> 0.0 <= r.value <= 4.0
  {
    if grade in GradePointsMap then Some(GradePointsMap[grade]) else None
  }

  /** The grades offered, in order, and the points the table gives each. */
  const GradePointsList: seq<real> := [4.0, 4.0, 3.7, 3.3, 3.0, 2.7, 2.3, 2.0, 1.7, 1.0, 0.0]

  /** The table gives each listed grade the points written beside it. */
  lemma GradePointsOfListed(i: nat)
    requires i < |Grades|
    ensures GradePointsOf(Grades[i]) == Some(GradePointsList[i])
  {
  }

  /** Down the list of grades the points never rise. */
  lemma GradePointsNonIncreasing(i: nat, j: nat)
    requires i <= j < |Grades|
    ensures GradePointsOf(Grades[i]).value >= GradePointsOf(Grades[j]).value
  {
    GradePointsOfListed(i);
    GradePointsOfListed(j);
  }

  // ---------------------------------------------------------------- field checks

  /** `validateStudent(studentId)` */
  function ValidateStudent(studentId: string): (r: Option<string>)
    ensures r.None? <==> studentId != ""
  {
    if studentId == "" then Some("Student is required") else None
  }

  /** `validateCourse(courseId)` */
  function ValidateCourse(courseId: string): (r: Option<string>)
    ensures r.None? <==> courseId != ""
  {
    if courseId == "" then Some("Course is required") else None
  }

  /** `validateStatus(status)`: an unset or empty status passes. */
  function ValidateStatus(status: Option<string>): (r: Option<string>)
    ensures r.None? <==> status.None? || status.value == "" || status.value in EnrollmentStatuses
  {
    if status.Some? && status.value != "" && status.value !in EnrollmentStatuses then Some("Invalid status") else None
  }

  /** `validateGrade(grade)`: an unset or empty grade passes. */
  function ValidateGrade(grade: Option<string>): (r: Option<string>)
    ensures r.None? <==> grade.None? || grade.value == "" || grade.value in Grades
  {
    if grade.Some? && grade.value != "" && grade.value !in Grades then Some("Invalid grade") else None
  }

  /** `validateGradePoints(gradePoints)`: unset points pass. */
  function ValidateGradePoints(gradePoints: Option<real>): (r: Option<string>)
    ensures r.None? <==> gradePoints.None? || 0.0 <= gradePoints.value <= 4.0
  {
    if gradePoints.Some? && (gradePoints.value < 0.0 || gradePoints.value > 4.0) then
      Some("Grade points must be between 0 and 4")
    else None
  }

  /** Points from the table always pass the grade-point check. */
  lemma TablePointsPass(grade: string)
    ensures ValidateGradePoints(GradePointsOf(grade)).None?
  {
  }

  // ---------------------------------------------------------------- forms

  datatype EnrollmentForm = EnrollmentForm(
    studentId: string, courseId: string, status: Option<string>, grade: Option<string>, gradePoints: Option<real>)

  /** The form after `resetForm()`. */
  const EmptyForm := EnrollmentForm("", "", Some("ACTIVE"), Some(""), None)

  datatype FormField = StudentId | CourseId | Status | Grade | GradePoints

  /** What each check of the create form gives. */
  function CreateCheck(f: EnrollmentForm, k: FormField): Option<string> {
    match k
    case StudentId => ValidateStudent(f.studentId)
    case CourseId => ValidateCourse(f.courseId)
    case _ => None
  }

  /** What each check of the update form gives. */
  function UpdateCheck(f: EnrollmentForm, k: FormField): Option<string> {
    match k
    case Status => ValidateStatus(f.status)
    case Grade => ValidateGrade(f.grade)
    case GradePoints => ValidateGradePoints(f.gradePoints)
    case _ => None
  }

  /** `validateCreateForm()`: the messages of the failing checks; valid exactly when student and course are chosen. */
  method ValidateCreateForm(f: EnrollmentForm) returns (errors: map<FormField, string>, valid: bool)
    ensures forall k :: Field(errors, k) == CreateCheck(f, k)
    ensures valid <==> errors == map[]
    ensures valid <==> f.studentId != "" && f.courseId != ""
  {
    var keys := [StudentId, CourseId];
    errors := KeepMessages(keys, k => CreateCheck(f, k));
    assert keys[0] == StudentId && keys[1] == CourseId;
    valid := |errors| == 0;
  }

  /** `validateUpdateForm()`: valid exactly when status, grade and points each pass. */
  method ValidateUpdateForm(f: EnrollmentForm) returns (errors: map<FormField, string>, valid: bool)
    ensures forall k :: Field(errors, k) == UpdateCheck(f, k)
    ensures valid <==> errors == map[]
    ensures valid <==>
      ValidateStatus(f.status).None? && ValidateGrade(f.grade).None? && ValidateGradePoints(f.gradePoints).None?
  {
    var keys := [Status, Grade, GradePoints];
    errors := KeepMessages(keys, k => UpdateCheck(f, k));
    assert keys[0] == Status && keys[1] == Grade && keys[2] == GradePoints;
    valid := |errors| == 0;
  }

  /** `clearError(field)`: the field's message goes, the others stay. */
  function ClearError(errors: map<FormField, string>, k: FormField): (r: map<FormField, string>)
    ensures k !in r && forall j :: j != k ==> Field(r, j) == Field(errors, j)
  {
    errors - {k}
  }

  // ---------------------------------------------------------------- picking a grade

  /** `handleGradeChange(grade)` as written: the points are `GRADE_POINTS_MAP[grade] || undefined`. */
  function GradeChangeAsWritten(f: EnrollmentForm, grade: string): (r: EnrollmentForm)
    ensures r.grade == Some(grade)
    ensures r.gradePoints.Some? <==> GradePointsOf(grade).Some? && GradePointsOf(grade).value != 0.0
    ensures r.gradePoints.Some? ==> r.gradePoints == GradePointsOf(grade)
    ensures r.studentId == f.studentId && r.courseId == f.courseId && r.status == f.status
  {
    var p := GradePointsOf(grade);
    f.(grade := Some(grade), gradePoints := if p.Some? && p.value != 0.0 then p else None)
  }

  /** Picking `F` leaves the points unset, although the table gives `F` 0 points, and updating sends no points. */
  lemma FailingGradeLosesPoints(f: EnrollmentForm)
    ensures GradePointsOf("F") == Some(0.0)
    ensures GradeChangeAsWritten(f, "F").gradePoints == None
    ensures UpdatePayload(GradeChangeAsWritten(f, "F")).gradePoints == None
  {
    GradePointsOfListed(10);
  }

  /** The as-written change differs from the table's points for `F` and for no other grade. */
  lemma AsWrittenDiffersOnlyOnF(f: EnrollmentForm, grade: string)
    ensures GradeChangeAsWritten(f, grade).gradePoints != GradePointsOf(grade) <==> grade == "F"
  {
    if grade == "F" {
      GradePointsOfListed(10);
    } else if grade in Grades {
      var i :| 0 <= i < |Grades| && Grades[i] == grade;
      GradePointsOfListed(i);
      assert i != 10;
    }
  }

  /** `handleGradeChange(grade)` with the points taken from the table as they are. */
  function GradeChange(f: EnrollmentForm, grade: string): (r: EnrollmentForm)
    ensures r.grade == Some(grade) && r.gradePoints == GradePointsOf(grade)
    ensures r.studentId == f.studentId && r.courseId == f.courseId && r.status == f.status
  {
    f.(grade := Some(grade), gradePoints := GradePointsOf(grade))
  }

  /** After picking a listed grade, grade and points both pass the update checks and the points are the table's. */
  lemma GradeChangePasses(f: EnrollmentForm, i: nat)
    requires i < |Grades|
    ensures GradeChange(f, Grades[i]).gradePoints == Some(GradePointsList[i])
    ensures ValidateGrade(GradeChange(f, Grades[i]).grade).None?
    ensures ValidateGradePoints(GradeChange(f, Grades[i]).gradePoints).None?
  {
    GradePointsOfListed(i);
    TablePointsPass(Grades[i]);
  }

  // ---------------------------------------------------------------- payloads

  datatype Enrollment = Enrollment(
    id: string, studentId: string, courseId: string, status: Option<string>, grade: Option<string>,
    gradePoints: Option<real>, studentSemester: Option<int>)

  datatype EnrollmentCreate = EnrollmentCreate(studentId: string, courseId: string)
  datatype EnrollmentUpdate = EnrollmentUpdate(status: Option<string>, grade: Option<string>, gradePoints: Option<real>)

  /** An unset value or the empty string: what JavaScript's `||` passes over. */
  predicate Blank(s: Option<string>) { s.None? || s.value == "" }

  /** The data `handleCreate` sends: the two ids and nothing else. */
  function CreatePayload(f: EnrollmentForm): (p: EnrollmentCreate)
    ensures p.studentId == f.studentId && p.courseId == f.courseId
  {
    EnrollmentCreate(f.studentId, f.courseId)
  }

  /** The data `handleUpdate` sends: an empty grade goes as unset. */
  function UpdatePayload(f: EnrollmentForm): (p: EnrollmentUpdate)
    ensures p.status == f.status && p.gradePoints == f.gradePoints
    ensures p.grade == if Blank(f.grade) then None else f.grade
  {
    EnrollmentUpdate(f.status, if Blank(f.grade) then None else f.grade, f.gradePoints)
  }

  /** `handleEdit(enrollment)`: the form filled from the enrollment, status `ACTIVE` and grade `""` by default. */
  function Edit(e: Enrollment): (f: EnrollmentForm)
    ensures f.studentId == e.studentId && f.courseId == e.courseId && f.gradePoints == e.gradePoints
    ensures f.status == Some(if Blank(e.status) then "ACTIVE" else e.status.value)
    ensures f.grade == Some(if Blank(e.grade) then "" else e.grade.value)
  {
    EnrollmentForm(
      e.studentId, e.courseId, Some(if Blank(e.status) then "ACTIVE" else e.status.value),
      Some(if Blank(e.grade) then "" else e.grade.value), e.gradePoints)
  }

  /**
   * Saving an edit without changes sends the enrollment back as it was,
   * except that a missing status goes as `ACTIVE` and an empty grade as unset.
   */
  lemma UnchangedEditSendsEnrollment(e: Enrollment)
    ensures UpdatePayload(Edit(e)).status == if Blank(e.status) then Some("ACTIVE") else e.status
    ensures UpdatePayload(Edit(e)).grade == if Blank(e.grade) then None else e.grade
    ensures UpdatePayload(Edit(e)).gradePoints == e.gradePoints
  {
  }

  // ---------------------------------------------------------------- badges

  /** `getStatusBadge(status)`: its text. */
  function StatusBadge(status: Option<string>): (text: string)
    ensures text != "Unknown" <==> status.Some? && status.value in EnrollmentStatuses
  {
    if status == Some("ACTIVE") then "Active"
    else if status == Some("COMPLETED") then "Completed"
    else if status == Some("DROPPED") then "Dropped"
    else if status == Some("WITHDRAWN") then "Withdrawn"
    else "Unknown"
  }

  /** A status that shows a known badge always passes the status check, and a set status that passes shows one. */
  lemma StatusBadgeAgreesWithCheck(status: Option<string>)
    ensures StatusBadge(status) != "Unknown" ==> ValidateStatus(status).None?
    ensures !Blank(status) && ValidateStatus(status).None? ==> StatusBadge(status) != "Unknown"
  {
  }

  datatype Colour = Green | Blue | Yellow | Orange | Red

  /** `getGradeBadge(grade)`: `None` is the "Not Graded" badge, otherwise the colour the first letter picks. */
  function GradeBadge(grade: Option<string>): (c: Option<Colour>)
    ensures c.None? <==> Blank(grade)
  {
    if Blank(grade) then None
    else
      var g := grade.value;
      Some(if g[0] == 'A' then Green else if g[0] == 'B' then Blue else if g[0] == 'C' then Yellow
        else if g[0] == 'D' then Orange else Red)
  }

  /** For the listed grades the colour tracks the points band. */
  lemma GradeBadgeFollowsPoints(i: nat)
    requires i < |Grades|
    ensures GradeBadge(Some(Grades[i])) == Some(Green) <==> GradePointsList[i] >= 3.7
    ensures GradeBadge(Some(Grades[i])) == Some(Blue) <==> 2.7 <= GradePointsList[i] < 3.7
    ensures GradeBadge(Some(Grades[i])) == Some(Yellow) <==> 1.7 <= GradePointsList[i] < 2.7
    ensures GradeBadge(Some(Grades[i])) == Some(Orange) <==> GradePointsList[i] == 1.0
    ensures GradeBadge(Some(Grades[i])) == Some(Red) <==> GradePointsList[i] == 0.0
  {
  }

  // ---------------------------------------------------------------- the list

  datatype Student = Student(id: string, name: string, userName: Option<string>, studentId: string)
  datatype Course = Course(id: string, courseName: string, courseCode: string)

  /** `a || b`: the first of the two strings that is set and not empty. */
  function Or(a: Option<string>, b: string): (r: string)
    ensures !Blank(a) ==> r == a.value
    ensures Blank(a) ==> r == b
  {
    if Blank(a) then b else a.value
  }

  function FindStudent(students: seq<Student>, id: string): Option<Student> {
    Seqs.FirstWhere(students, (s: Student) => s.id == id)
  }

  function FindCourse(courses: seq<Course>, id: string): Option<Course> {
    Seqs.FirstWhere(courses, (c: Course) => c.id == id)
  }

  /** `getStudentName(studentId)` */
  function StudentName(students: seq<Student>, id: string): (r: string)
    ensures FindStudent(students, id).None? ==> r == "Unknown Student"
    ensures FindStudent(students, id).Some? ==>
      r == Or(FindStudent(students, id).value.userName, Or(Some(FindStudent(students, id).value.name), "Unknown Student"))
  {
    match FindStudent(students, id)
    case None => "Unknown Student"
    case Some(s) => Or(s.userName, Or(Some(s.name), "Unknown Student"))
  }

  /** `getStudentId(studentId)`: the roll number, or `N/A`. */
  function StudentRollNumber(students: seq<Student>, id: string): (r: string)
    ensures FindStudent(students, id).None? ==> r == "N/A"
    ensures FindStudent(students, id).Some? ==>
      r == if FindStudent(students, id).value.studentId == "" then "N/A" else FindStudent(students, id).value.studentId
  {
    match FindStudent(students, id)
    case None => "N/A"
    case Some(s) => Or(Some(s.studentId), "N/A")
  }

  /** `getCourseName(courseId)` */
  function CourseName(courses: seq<Course>, id: string): (r: string)
    ensures FindCourse(courses, id).None? ==> r == "Unknown Course"
    ensures FindCourse(courses, id).Some? ==>
      r == if FindCourse(courses, id).value.courseName == "" then "Unknown Course" else FindCourse(courses, id).value.courseName
  {
    match FindCourse(courses, id)
    case None => "Unknown Course"
    case Some(c) => Or(Some(c.courseName), "Unknown Course")
  }

  /** `getCourseCode(courseId)` */
  function CourseCode(courses: seq<Course>, id: string): (r: string)
    ensures FindCourse(courses, id).None? ==> r == "N/A"
    ensures FindCourse(courses, id).Some? ==>
      r == if FindCourse(courses, id).value.courseCode == "" then "N/A" else FindCourse(courses, id).value.courseCode
  {
    match FindCourse(courses, id)
    case None => "N/A"
    case Some(c) => Or(Some(c.courseCode), "N/A")
  }

  /** The three conditions of the list filter. */
  predicate MatchesSearch(e: Enrollment, students: seq<Student>, courses: seq<Course>, query: string) {
    Mentions(StudentName(students, e.studentId), query) || Mentions(CourseName(courses, e.courseId), query) ||
    Mentions(StudentRollNumber(students, e.studentId), query) || Mentions(CourseCode(courses, e.courseId), query)
  }

  predicate MatchesStatus(e: Enrollment, statusFilter: string) {
    statusFilter == "all" || e.status == Some(statusFilter)
  }

  /** A semester of 0 or none never matches a chosen semester. */
  predicate MatchesSemester(e: Enrollment, semesterFilter: string) {
    semesterFilter == "all" ||
    (e.studentSemester.Some? && e.studentSemester.value != 0 && IntToString(e.studentSemester.value) == semesterFilter)
  }

  function Shown(students: seq<Student>, courses: seq<Course>, query: string, statusFilter: string, semesterFilter: string): Enrollment -> bool {
    (e: Enrollment) =>
      MatchesSearch(e, students, courses, query) && MatchesStatus(e, statusFilter) && MatchesSemester(e, semesterFilter)
  }

  /** `filteredEnrollments`: the enrollments meeting all three conditions, in their order. */
  function FilteredEnrollments(
    enrollments: seq<Enrollment>, students: seq<Student>, courses: seq<Course>,
    query: string, statusFilter: string, semesterFilter: string): (r: seq<Enrollment>)
    ensures forall i :: 0 <= i < |r| ==> r[i] in enrollments
    ensures forall e :: e in r <==> (e in enrollments &&
      MatchesSearch(e, students, courses, query) && MatchesStatus(e, statusFilter) && MatchesSemester(e, semesterFilter))
  {
    Seqs.Filter(enrollments, Shown(students, courses, query, statusFilter, semesterFilter))
  }

  /** With an empty query and both filters on "all", every enrollment is listed. */
  lemma NoFilterShowsAll(enrollments: seq<Enrollment>, students: seq<Student>, courses: seq<Course>)
    ensures FilteredEnrollments(enrollments, students, courses, "", "all", "all") == enrollments
  {
    forall i | 0 <= i < |enrollments|
      ensures Shown(students, courses, "", "all", "all")(enrollments[i])
    {
      MentionsEmpty(StudentName(students, enrollments[i].studentId));
    }
    Seqs.FilterAll(enrollments, Shown(students, courses, "", "all", "all"));
  }
}
