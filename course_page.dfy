/**
 * The administrator's course page: the create guard, the edit form's
 * defaults, the number inputs' fallbacks, the name lookups and the
 * filtered course list.
 */
module CoursePage {
  import opened Wrappers
  import opened Text
  import Seqs
  import opened JsNumbers

  datatype Course = Course(
    id: string, courseCode: string, courseName: string, credits: int, departmentId: string, semester: int,
    description: Option<string>, syllabus: Option<string>, maxStudents: Option<int>, teacherId: Option<string>,
    isActive: bool)

  datatype CourseForm = CourseForm(
    courseCode: string, courseName: string, credits: int, departmentId: string, semester: int,
    description: string, syllabus: string, maxStudents: int, teacherId: string, isActive: bool)

  datatype Department = Department(id: string, name: string, code: string)
  /** A teacher as the page sees it; `userName` is `teacher.user?.name`. */
  datatype Teacher = Teacher(id: string, userName: Option<string>)

  /** The form as first shown and after `resetForm()`. */
  const EmptyForm := CourseForm("", "", 3, "", 1, "", "", 60, "", true)

  /** An unset value or the empty string: what JavaScript's `||` passes over. */
  predicate Blank(s: Option<string>) { s.None? || s.value == "" }

  // ---------------------------------------------------------------- create, update, delete

  /** `handleCreate()`: the form is sent as it is, unless code, name or department is missing. */
  function CreateRequest(f: CourseForm): (r: Option<CourseForm>)
    ensures r.Some? <==> f.courseCode != "" && f.courseName != "" && f.departmentId != ""
    ensures r.Some? ==> r.value == f
  {
    if f.courseCode == "" || f.courseName == "" || f.departmentId == "" then None else Some(f)
  }

  /** A freshly reset form is refused: it has no code, name or department yet. */
  lemma EmptyFormRefused()
    ensures CreateRequest(EmptyForm).None?
  {
  }

  /** `handleEdit(course)`: the form filled from the course, with its defaults for what is unset. */
  function Edit(c: Course): (f: CourseForm)
    ensures f.courseCode == c.courseCode && f.courseName == c.courseName && f.credits == c.credits
    ensures f.departmentId == c.departmentId && f.semester == c.semester && f.isActive == c.isActive
    ensures f.description == (if Blank(c.description) then "" else c.description.value)
    ensures f.syllabus == (if Blank(c.syllabus) then "" else c.syllabus.value)
    ensures f.maxStudents == (if c.maxStudents.None? || c.maxStudents.value == 0 then 60 else c.maxStudents.value)
    ensures f.teacherId == (if Blank(c.teacherId) then "" else c.teacherId.value)
  {
    CourseForm(
      c.courseCode, c.courseName, c.credits, c.departmentId, c.semester,
      if Blank(c.description) then "" else c.description.value,
      if Blank(c.syllabus) then "" else c.syllabus.value,
      if c.maxStudents.None? || c.maxStudents.value == 0 then 60 else c.maxStudents.value,
      if Blank(c.teacherId) then "" else c.teacherId.value,
      c.isActive)
  }

  /** Editing a stored course and saving it unchanged passes the create guard again. */
  lemma EditOfStoredCourseIsComplete(c: Course)
    requires c.courseCode != "" && c.courseName != "" && c.departmentId != ""
    ensures CreateRequest(Edit(c)) == Some(Edit(c))
  {
  }

  /** `handleUpdate()` and `handleDelete()`: nothing is sent without a selection. */
  function ActOnSelection<T>(selection: Option<string>, payload: T): (r: Option<(string, T)>)
    ensures r.Some? <==> !Blank(selection)
    ensures r.Some? ==> r.value == (selection.value, payload)
  {
    if Blank(selection) then None else Some((selection.value, payload))
  }

  /** The credits input: `parseInt(value) || 3`. */
  function CreditsInput(value: string): (credits: int)
    ensures credits != 0
    ensures ParseInt(value).None? ==> credits == 3
  {
    ParseIntOr(value, 3)
  }

  /** The capacity input: `parseInt(value) || 60`. */
  function MaxStudentsInput(value: string): (maxStudents: int)
    ensures maxStudents != 0
    ensures ParseInt(value).None? ==> maxStudents == 60
  {
    ParseIntOr(value, 60)
  }

  /** A typed number without a leading zero is taken as it reads. */
  lemma CreditsInputReadsDigits(digits: string)
    requires digits != [] && AllDigits(digits) && digits[0] != '0'
    ensures CreditsInput(digits) == DigitsValue(digits)
  {
    ParseIntDecimal(digits, "");
    assert digits + "" == digits;
    DigitsValuePositive(digits);
  }

  /** A digit string that does not start with 0 stands for a positive number. */
  lemma DigitsValuePositive(digits: string)
    requires digits != [] && AllDigits(digits) && digits[0] != '0'
    ensures DigitsValue(digits) > 0
  {
    DigitsValueAtLeastFirst(digits);
  }

  lemma {:induction false} DigitsValueAtLeastFirst(digits: string)
    requires digits != [] && AllDigits(digits)
    ensures DigitsValue(digits) >= DigitValue(digits[0])
    decreases |digits|
  {
    if |digits| > 1 {
      DigitsValueAtLeastFirst(digits[..|digits| - 1]);
      assert digits[..|digits| - 1][0] == digits[0];
    }
  }

  /** The status switch flips the flag and nothing else; two flips restore the form. */
  function Toggle(f: CourseForm): (r: CourseForm)
    ensures r.isActive == !f.isActive && r.(isActive := f.isActive) == f
  {
    f.(isActive := !f.isActive)
  }

  lemma ToggleTwice(f: CourseForm)
    ensures Toggle(Toggle(f)) == f
  {
  }

  // ---------------------------------------------------------------- lookups

  /** `getDepartmentName(departmentId)` */
  function DepartmentName(departments: seq<Department>, id: string): (r: string)
    ensures (forall i :: 0 <= i < |departments| ==> departments[i].id != id) ==> r == "Unknown"
    ensures (exists i :: 0 <= i < |departments| && departments[i].id == id) ==>
      exists i :: 0 <= i < |departments| && departments[i].id == id && r == departments[i].name
  {
    match Seqs.FirstWhere(departments, (d: Department) => d.id == id)
    case None => "Unknown"
    case Some(d) => d.name
  }

  /** `getTeacherName(teacherId)`; `None` is the `undefined` a teacher without a user gives. */
  function TeacherName(teachers: seq<Teacher>, id: Option<string>): (r: Option<string>)
    ensures Blank(id) ==> r == Some("Not Assigned")
    ensures !Blank(id) && (forall i :: 0 <= i < |teachers| ==> teachers[i].id != id.value) ==> r == Some("Unknown")
    ensures !Blank(id) && (exists i :: 0 <= i < |teachers| && teachers[i].id == id.value) ==>
      exists i :: 0 <= i < |teachers| && teachers[i].id == id.value && r == teachers[i].userName
  {
    if Blank(id) then Some("Not Assigned")
    else
      match Seqs.FirstWhere(teachers, (t: Teacher) => t.id == id.value)
      case None => Some("Unknown")
      case Some(t) => t.userName
  }

  // ---------------------------------------------------------------- the list

  /** Code, name or description holds the query; a course without a description is not found by it. */
  predicate MatchesSearch(c: Course, query: string) {
    Mentions(c.courseCode, query) || Mentions(c.courseName, query) ||
    (c.description.Some? && Mentions(c.description.value, query))
  }

  predicate MatchesDepartment(c: Course, departmentFilter: string) {
    departmentFilter == "all" || c.departmentId == departmentFilter
  }

  predicate MatchesSemester(c: Course, semesterFilter: string) {
    semesterFilter == "all" || IntToString(c.semester) == semesterFilter
  }

  /** `all`, `active` or `inactive`; any other choice matches no course. */
  predicate MatchesStatus(c: Course, statusFilter: string) {
    statusFilter == "all" || (statusFilter == "active" && c.isActive) || (statusFilter == "inactive" && !c.isActive)
  }

  predicate Shown(c: Course, query: string, departmentFilter: string, semesterFilter: string, statusFilter: string) {
    MatchesSearch(c, query) && MatchesDepartment(c, departmentFilter) &&
    MatchesSemester(c, semesterFilter) && MatchesStatus(c, statusFilter)
  }

  /** `filteredCourses`: the courses meeting all four conditions, in their order. */
  function FilteredCourses(
    courses: seq<Course>, query: string, departmentFilter: string, semesterFilter: string, statusFilter: string): (r: seq<Course>)
    ensures forall c :: c in r <==> c in courses && Shown(c, query, departmentFilter, semesterFilter, statusFilter)
  {
    Seqs.Filter(courses, c => Shown(c, query, departmentFilter, semesterFilter, statusFilter))
  }

  /** With an empty query and every filter on "all", each course is listed. */
  lemma NoFilterShowsAll(courses: seq<Course>)
    ensures FilteredCourses(courses, "", "all", "all", "all") == courses
  {
    forall i | 0 <= i < |courses| ensures Shown(courses[i], "", "all", "all", "all") {
      MentionsEmpty(courses[i].courseCode);
    }
    Seqs.FilterAll(courses, c => Shown(c, "", "all", "all", "all"));
  }

  /** A status choice other than the three offered empties the list. */
  lemma UnknownStatusShowsNothing(courses: seq<Course>, query: string, departmentFilter: string, semesterFilter: string, statusFilter: string)
    requires statusFilter != "all" && statusFilter != "active" && statusFilter != "inactive"
    ensures FilteredCourses(courses, query, departmentFilter, semesterFilter, statusFilter) == []
  {
    Seqs.FilterNone(courses, c => Shown(c, query, departmentFilter, semesterFilter, statusFilter));
  }

  /** The active and the inactive lists together hold as many courses as the "all" list. */
  lemma ActiveAndInactiveSplitAll(courses: seq<Course>, query: string, departmentFilter: string, semesterFilter: string)
    ensures |FilteredCourses(courses, query, departmentFilter, semesterFilter, "active")| +
            |FilteredCourses(courses, query, departmentFilter, semesterFilter, "inactive")| ==
            |FilteredCourses(courses, query, departmentFilter, semesterFilter, "all")|
  {
    Seqs.CountSplit(courses,
      c => Shown(c, query, departmentFilter, semesterFilter, "all"),
      c => Shown(c, query, departmentFilter, semesterFilter, "active"),
      c => Shown(c, query, departmentFilter, semesterFilter, "inactive"));
  }
}
