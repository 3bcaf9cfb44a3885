/**
 * The course tools of the agent: the course list, and looking up,
 * updating and deleting one course named by its id, its code or (part of)
 * its name.  The teacher and department blocks of an answer exist only
 * where the query that read the course loaded those relations.
 *
 * The course service's own update is not part of this model: the change
 * it makes to the found row is a parameter `patch`.  `fault` is the text of
 * an exception the service raises once the course is found, if it raises one.
 */
module CourseTool {
  import opened Wrappers
  import opened Text
  import opened Records
  import Seqs

  // ------------------------------------------------------------ list_all_courses

  /**
   * Whether the query that read a course loaded its relations (an
   * `include` of the teacher with its user, and of the department).
   * Without one, Prisma leaves `course.teacher` and `course.department`
   * as `None`, so no block is built from them.
   */
  datatype Relations = Included | NotIncluded

  datatype TeacherBlock = TeacherBlock(id: string, teacherId: string, name: string, email: string, designation: string)
  datatype DepartmentBlock = DepartmentBlock(id: string, code: string, name: string)

  /** One entry of the course list: the course's own fields, and a teacher and a department block where they were loaded. */
  datatype CourseEntry = CourseEntry(course: Course, teacher: Option<TeacherBlock>, department: Option<DepartmentBlock>)

  /** `course.teacher` and its user, when they were loaded and both exist. */
  function TeacherAndUser(db: Db, rel: Relations, c: Course): Option<(Teacher, User)> {
    if rel.NotIncluded? || c.teacherId.None? then None
    else
      match TeacherById(db, c.teacherId.value)
      case None => None
      case Some(t) =>
        match UserById(db, t.userId)
        case None => None
        case Some(u) => Some((t, u))
  }

  /** `course.department`, when it was loaded and exists. */
  function DepartmentOf(db: Db, rel: Relations, c: Course): Option<Department> {
    if rel.NotIncluded? then None else DepartmentById(db, c.departmentId)
  }

  function Entry(db: Db, rel: Relations, c: Course): CourseEntry {
    var teacher := match TeacherAndUser(db, rel, c)
      case Some((t, u)) => Some(TeacherBlock(t.id, t.teacherId, u.name, u.email, t.designation))
      case None => None;
    var department := match DepartmentOf(db, rel, c)
      case Some(d) => Some(DepartmentBlock(d.id, d.code, d.name))
      case None => None;
    CourseEntry(c, teacher, department)
  }

  /** The course list, in table order. */
  function Entries(db: Db, rel: Relations, cs: seq<Course>): (r: seq<CourseEntry>)
    ensures |r| == |cs|
  {
    seq(|cs|, i requires 0 <= i < |cs| => Entry(db, rel, cs[i]))
  }

  /** `list_all_courses`: the courses of `get_all_courses`, a `find_many()` without `include`. */
  method ListAllCourses(db: Db) returns (result: seq<CourseEntry>)
    ensures result == Entries(db, NotIncluded, db.courses)
  {
    result := [];
    for i := 0 to |db.courses|
      invariant result == Entries(db, NotIncluded, db.courses[..i])
    {
      result := result + [Entry(db, NotIncluded, db.courses[i])];
    }
    assert db.courses[..|db.courses|] == db.courses;
  }

  /** So every course is listed once, in order, with its own fields and neither block. */
  lemma ListShape(db: Db, i: nat)
    requires i < |db.courses|
    ensures Entries(db, NotIncluded, db.courses)[i] == CourseEntry(db.courses[i], None, None)
  {
  }

  /** The teacher of a course, with that teacher's user, exists in the store. */
  predicate HasTeacherRows(db: Db, c: Course) {
    c.teacherId.Some? && TeacherById(db, c.teacherId.value).Some? &&
    UserById(db, TeacherById(db, c.teacherId.value).value.userId).Some?
  }

  /**
   * The list as the tool's description promises it, with the relations
   * loaded: a teacher block exactly when the course's teacher and the
   * teacher's user both exist, carrying the user's name and email, and a
   * department block exactly when its department exists.
   */
  lemma EntriesShape(db: Db, i: nat)
    requires i < |db.courses|
    ensures var e := Entries(db, Included, db.courses)[i];
      e.course == db.courses[i] &&
      (e.teacher.Some? <==> HasTeacherRows(db, db.courses[i])) &&
      (e.teacher.Some? ==> e.teacher.value.name == TeacherUserName(db, db.courses[i].teacherId).value) &&
      (e.department.Some? <==> DepartmentById(db, db.courses[i].departmentId).Some?)
  {
  }

  /**
   * A course whose teacher, teacher's user and department all exist is
   * listed without any block, where the described list has both.
   */
  lemma ListDropsRelations(db: Db, i: nat)
    requires i < |db.courses| && HasTeacherRows(db, db.courses[i])
    requires DepartmentById(db, db.courses[i].departmentId).Some?
    ensures ListEntryBlocks(Entries(db, NotIncluded, db.courses)[i]) == (false, false)
    ensures ListEntryBlocks(Entries(db, Included, db.courses)[i]) == (true, true)
  {
    EntriesShape(db, i);
  }

  /** Whether an entry has a teacher block and a department block. */
  function ListEntryBlocks(e: CourseEntry): (bool, bool) {
    (e.teacher.Some?, e.department.Some?)
  }

  // ------------------------------------------------------------ the lookup

  /** The three optional ways of naming a course. */
  datatype CourseKey = CourseKey(courseId: Option<string>, courseCode: Option<string>, courseName: Option<string>)

  /** The lookup the tools run: by id if given, else by code, else by name. */
  datatype Lookup = ById(id: string) | ByCode(code: string) | ByName(name: string) | NoKey

  function LookupOf(k: CourseKey): (l: Lookup)
    ensures l.NoKey? <==> !Truthy(k.courseId) && !Truthy(k.courseCode) && !Truthy(k.courseName)
    ensures l.ById? <==> Truthy(k.courseId)
    ensures l.ByCode? <==> !Truthy(k.courseId) && Truthy(k.courseCode)
    ensures l.ById? ==> l.id == k.courseId.value
    ensures l.ByCode? ==> l.code == k.courseCode.value
    ensures l.ByName? ==> l.name == k.courseName.value
  {
    if Truthy(k.courseId) then ById(k.courseId.value)
    else if Truthy(k.courseCode) then ByCode(k.courseCode.value)
    else if Truthy(k.courseName) then ByName(k.courseName.value)
    else NoKey
  }

  /** Whether a course answers a lookup: the id, the code case-insensitively, or part of the name case-insensitively. */
  predicate Answers(l: Lookup, c: Course) {
    match l
    case ById(id) => c.id == id
    case ByCode(code) => EqualsInsensitive(c.courseCode, code)
    case ByName(name) => ContainsInsensitive(c.courseName, name)
    case NoKey => false
  }

  datatype LookupError = NoKeyGiven | NotFoundWith(searchParam: string)

  function LookupErrorText(e: LookupError): string {
    match e
    case NoKeyGiven => "Please provide either course_id, course_code, or course_name"
    case NotFoundWith(p) => "Course not found with: " + p
  }

  /** `course_code or course_name or course_id`, as an f-string shows it. */
  function SearchParam(k: CourseKey): string {
    match OrElse(k.courseCode, OrElse(k.courseName, k.courseId))
    case Some(s) => s
    case None => "None"
  }

  /** The first course answering the lookup. */
  function FindCourse(db: Db, k: CourseKey): (r: Result<Course, LookupError>)
    ensures LookupOf(k).NoKey? <==> r == Err(NoKeyGiven)
    ensures r.Ok? ==> r.value in db.courses && Answers(LookupOf(k), r.value)
    ensures r.Ok? ==> exists i :: 0 <= i < |db.courses| && db.courses[i] == r.value &&
                                  forall j :: 0 <= j < i ==> !Answers(LookupOf(k), db.courses[j])
    ensures r.Err? && !LookupOf(k).NoKey? ==>
      r.error == NotFoundWith(SearchParam(k)) && forall c :: c in db.courses ==> !Answers(LookupOf(k), c)
  {
    var l := LookupOf(k);
    if l.NoKey? then Err(NoKeyGiven)
    else
      match Seqs.FirstWhere(db.courses, (c: Course) => Answers(l, c))
      case Some(c) => Ok(c)
      case None => Err(NotFoundWith(SearchParam(k)))
  }

  /**
   * The id wins over the code and the name, and the code over the name;
   * a failed lookup's message names the code if one is given, else the
   * name, else the id, even when the lookup used the id.
   */
  lemma LookupPrecedence(db: Db, k: CourseKey)
    ensures Truthy(k.courseId) ==> FindCourse(db, k).Ok? ==> FindCourse(db, k).value.id == k.courseId.value
    ensures Truthy(k.courseId) && FindCourse(db, k).Err? && Truthy(k.courseCode) ==>
      FindCourse(db, k).error == NotFoundWith(k.courseCode.value)
    ensures !Truthy(k.courseId) && Truthy(k.courseCode) && FindCourse(db, k).Ok? ==>
      EqualsInsensitive(FindCourse(db, k).value.courseCode, k.courseCode.value)
    ensures FindCourse(db, k).Err? && FindCourse(db, k).error.NotFoundWith? && Truthy(k.courseCode) ==>
      FindCourse(db, k).error.searchParam == k.courseCode.value
  {
  }

  // ------------------------------------------------------------ get_course_by_id

  datatype TeacherDetail = TeacherDetail(id: string, teacherId: string, name: string, email: string, designation: string,
                                         officeRoom: Option<string>, officeHours: Option<string>)
  datatype DepartmentDetail = DepartmentDetail(id: string, code: string, name: string, description: Option<string>)

  /** The answer of `get_course_by_id`: the list entry's blocks with the teacher's office and the department's description. */
  datatype CourseDetail = CourseDetail(course: Course, teacher: Option<TeacherDetail>, department: Option<DepartmentDetail>)

  function Detail(db: Db, rel: Relations, c: Course): (d: CourseDetail)
    ensures d.course == c
    ensures d.teacher.Some? <==> Entry(db, rel, c).teacher.Some?
    ensures d.teacher.Some? ==> d.teacher.value.name == Entry(db, rel, c).teacher.value.name &&
                                d.teacher.value.email == Entry(db, rel, c).teacher.value.email
    ensures d.department.Some? <==> Entry(db, rel, c).department.Some?
  {
    var teacher := match TeacherAndUser(db, rel, c)
      case Some((t, u)) => Some(TeacherDetail(t.id, t.teacherId, u.name, u.email, t.designation, t.officeRoom, t.officeHours))
      case None => None;
    var department := match DepartmentOf(db, rel, c)
      case Some(d) => Some(DepartmentDetail(d.id, d.code, d.name, d.description))
      case None => None;
    CourseDetail(c, teacher, department)
  }

  /**
   * The detail with the relations loaded: a teacher block exactly when
   * the teacher and its user exist, with the user's name and email and the
   * teacher's office, and a department block exactly when the department
   * exists, with its description.
   */
  lemma DetailShape(db: Db, c: Course)
    ensures var d := Detail(db, Included, c);
      (d.teacher.Some? <==> HasTeacherRows(db, c)) &&
      (d.teacher.Some? ==> var t := TeacherById(db, c.teacherId.value).value;
         d.teacher.value.name == UserById(db, t.userId).value.name && d.teacher.value.officeRoom == t.officeRoom &&
         d.teacher.value.officeHours == t.officeHours) &&
      (d.department.Some? <==> DepartmentById(db, c.departmentId).Some?) &&
      (d.department.Some? ==> d.department.value.description == DepartmentById(db, c.departmentId).value.description)
  {
  }

  /** The code and name lookups `include` the relations; the lookup by id, `service.get_course_by_id`, does not. */
  function RelationsOf(l: Lookup): (rel: Relations)
    ensures rel.NotIncluded? <==> l.ById?
  {
    if l.ById? then NotIncluded else Included
  }

  /** `get_course_by_id` */
  function GetCourse(db: Db, k: CourseKey): (r: Result<CourseDetail, LookupError>)
    ensures r.Ok? <==> FindCourse(db, k).Ok?
    ensures r.Ok? ==> r.value == Detail(db, RelationsOf(LookupOf(k)), FindCourse(db, k).value)
    ensures r.Err? ==> r.error == FindCourse(db, k).error
  {
    match FindCourse(db, k)
    case Ok(c) => Ok(Detail(db, RelationsOf(LookupOf(k)), c))
    case Err(e) => Err(e)
  }

  /** A course found by its id is shown without either block, whatever rows exist. */
  lemma GetByIdDropsRelations(db: Db, k: CourseKey)
    requires Truthy(k.courseId) && GetCourse(db, k).Ok?
    ensures GetCourse(db, k).value.teacher.None? && GetCourse(db, k).value.department.None?
  {
  }

  /** A course found by its code or its name is shown with the blocks of DetailShape. */
  lemma GetByCodeOrNameShowsRelations(db: Db, k: CourseKey)
    requires !Truthy(k.courseId) && GetCourse(db, k).Ok?
    ensures GetCourse(db, k).value == Detail(db, Included, FindCourse(db, k).value)
  {
  }

  // ------------------------------------------------------------ update_existing_course

  /** The errors of the update and delete tools: the lookup's, or what the service raised after it (the `except` answer). */
  datatype ChangeError = LookupFailed(lookup: LookupError) | ServiceRaised(verb: string, message: string)

  function ChangeErrorText(e: ChangeError): string {
    match e
    case LookupFailed(l) => LookupErrorText(l)
    case ServiceRaised(verb, message) => "Course not found or could not be " + verb + ": " + message
  }

  /**
   * The row `service.update_course` writes: `patch` is the change to the
   * fields a `CourseUpdate` carries, and the id is not one of them.
   */
  function Patched(c: Course, patch: Course -> Course): (r: Course)
    ensures r.id == c.id
  {
    patch(c).(id := c.id)
  }

  /** `service.update_course(id, update)` on the row with that id; other rows are untouched. */
  function UpdateRows(cs: seq<Course>, id: string, patch: Course -> Course): (r: seq<Course>)
    ensures |r| == |cs|
    ensures forall i :: 0 <= i < |cs| ==> r[i] == if cs[i].id == id then Patched(cs[i], patch) else cs[i]
  {
    seq(|cs|, i requires 0 <= i < |cs| => if cs[i].id == id then Patched(cs[i], patch) else cs[i])
  }

  /** After the update a row with the target's id is still there for the read-back to find. */
  lemma UpdatedRowFound(cs: seq<Course>, target: Course, patch: Course -> Course)
    requires target in cs
    ensures Seqs.FirstWhere(UpdateRows(cs, target.id, patch), (c: Course) => c.id == target.id).Some?
  {
    var i :| 0 <= i < |cs| && cs[i] == target;
    assert UpdateRows(cs, target.id, patch)[i].id == target.id;
  }

  /**
   * `update_existing_course`: the found course is updated by its id, then
   * read back with `service.get_course_by_id`, a `find_unique` without
   * `include`; the answer is that row's own fields.
   */
  function UpdateCourse(db: Db, k: CourseKey, patch: Course -> Course, fault: Option<string>)
    : (Result<Course, ChangeError>, Db)
  {
    match FindCourse(db, k)
    case Err(e) => (Err(LookupFailed(e)), db)
    case Ok(target) =>
      if fault.Some? then (Err(ServiceRaised("updated", fault.value)), db)
      else
        var db' := db.(courses := UpdateRows(db.courses, target.id, patch));
        UpdatedRowFound(db.courses, target, patch);
        (Ok(CourseById(db', target.id).value), db')
  }

  /**
   * A failed update changes nothing: a failed lookup answers with its
   * error, and an exception of the service after a successful one with
   * "... could not be updated: ...".  Otherwise the update succeeds: it
   * changes exactly the rows with the found course's id, and answers with
   * the first row that now has that id, read back without its relations.
   */
  lemma UpdateEffect(db: Db, k: CourseKey, patch: Course -> Course, fault: Option<string>)
    ensures var (r, db') := UpdateCourse(db, k, patch, fault);
      (r.Err? ==> db' == db) &&
      (FindCourse(db, k).Err? ==> r == Err(LookupFailed(FindCourse(db, k).error))) &&
      (FindCourse(db, k).Ok? && fault.Some? ==> r == Err(ServiceRaised("updated", fault.value))) &&
      (r.Ok? <==> FindCourse(db, k).Ok? && fault.None?) &&
      (r.Ok? ==> (
         var target := FindCourse(db, k).value;
         CourseById(db', target.id) == Some(r.value) &&
         |db'.courses| == |db.courses| &&
         (forall i :: 0 <= i < |db.courses| && db.courses[i].id != target.id ==> db'.courses[i] == db.courses[i]) &&
         (forall i :: 0 <= i < |db.courses| && db.courses[i].id == target.id ==> db'.courses[i] == Patched(db.courses[i], patch)) &&
         db' == db.(courses := db'.courses)))
  {
  }

  /** With unique course ids, the answer of a successful update is the found course, patched. */
  lemma UpdateAnswersPatched(db: Db, k: CourseKey, patch: Course -> Course)
    requires forall i, j :: 0 <= i < j < |db.courses| ==> db.courses[i].id != db.courses[j].id
    requires FindCourse(db, k).Ok?
    ensures UpdateCourse(db, k, patch, None).0 == Ok(Patched(FindCourse(db, k).value, patch))
  {
    var target := FindCourse(db, k).value;
    var cs' := UpdateRows(db.courses, target.id, patch);
    var i :| 0 <= i < |db.courses| && db.courses[i] == target;
    var found := CourseById(db.(courses := cs'), target.id).value;
    var j :| 0 <= j < |cs'| && cs'[j] == found;
    assert cs'[j].id == target.id;
    assert db.courses[j].id == db.courses[i].id;
    assert j == i;
  }

  // ------------------------------------------------------------ delete_existing_course

  datatype Deleted = Deleted(message: string, courseId: string, courseCode: string, courseName: string)

  /** `delete_existing_course`: the row with the found course's id is removed. */
  function DeleteCourse(db: Db, k: CourseKey, fault: Option<string>): (Result<Deleted, ChangeError>, Db) {
    match FindCourse(db, k)
    case Err(e) => (Err(LookupFailed(e)), db)
    case Ok(target) =>
      if fault.Some? then (Err(ServiceRaised("deleted", fault.value)), db)
      else
        var deleted := CourseById(db, target.id).value;
        (Ok(Deleted("Course deleted successfully", target.id, deleted.courseCode, deleted.courseName)),
         db.(courses := Seqs.Filter(db.courses, (c: Course) => c.id != target.id)))
  }

  /**
   * A failed delete changes nothing: a failed lookup answers with its
   * error, and an exception of the service after a successful one with
   * "... could not be deleted: ...".  A successful one removes every row
   * with the found course's id, keeps the others in order, and names the
   * target's id with the deleted row's code and name.
   */
  lemma DeleteEffect(db: Db, k: CourseKey, fault: Option<string>)
    ensures var (r, db') := DeleteCourse(db, k, fault);
      (r.Err? ==> db' == db) &&
      (FindCourse(db, k).Err? ==> r == Err(LookupFailed(FindCourse(db, k).error))) &&
      (FindCourse(db, k).Ok? && fault.Some? ==> r == Err(ServiceRaised("deleted", fault.value))) &&
      (r.Ok? ==> (fault.None? && FindCourse(db, k).Ok? &&
         var target := FindCourse(db, k).value;
         r.value.courseId == target.id &&
         db'.courses == Seqs.Filter(db.courses, (c: Course) => c.id != target.id) &&
         (forall c :: c in db'.courses ==> c.id != target.id) &&
         (forall c :: c in db.courses && c.id != target.id ==> c in db'.courses) &&
         (forall c :: c in db'.courses ==> c in db.courses) &&
         db' == db.(courses := db'.courses)))
  {
  }

  /** With unique course ids, the deleted row is the course that was found. */
  lemma DeleteNamesTarget(db: Db, k: CourseKey)
    requires forall i, j :: 0 <= i < j < |db.courses| ==> db.courses[i].id != db.courses[j].id
    requires DeleteCourse(db, k, None).0.Ok?
    ensures DeleteCourse(db, k, None).0.value.courseCode == FindCourse(db, k).value.courseCode
    ensures DeleteCourse(db, k, None).0.value.courseName == FindCourse(db, k).value.courseName
  {
    var target := FindCourse(db, k).value;
    var deleted := CourseById(db, target.id).value;
    var i :| 0 <= i < |db.courses| && db.courses[i] == target;
    var j :| 0 <= j < |db.courses| && db.courses[j] == deleted;
    assert db.courses[i].id == db.courses[j].id;
  }
}
