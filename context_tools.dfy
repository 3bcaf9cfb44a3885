/**
 * The self-service tools the role-based agent gives every role, which
 * answer for the calling user: `get_my_schedule`, `get_my_attendance`,
 * `get_my_courses` and `get_my_profile`.
 *
 * Each answer is `Ok` of its success dictionary or `Err` of the text of
 * its `{"error": ...}` dictionary.  `fault` is the text of an exception
 * the database raises, if it raises one; attendance records come from
 * the attendance service, a parameter returning the records or the text
 * of the exception it raises.
 */
module ContextTools {
  import opened Wrappers
  import opened Text
  import opened Records
  import Seqs
  import ScheduleService

  /** The branch every tool takes on the caller's role: a teacher, a student, or anybody else. */
  datatype Branch = TeacherBranch | StudentBranch | OtherBranch

  function BranchOf(userRole: string): (b: Branch)
    ensures b == TeacherBranch <==> userRole == "TEACHER"
    ensures b == StudentBranch <==> userRole == "STUDENT"
  {
    if userRole == "TEACHER" then TeacherBranch else if userRole == "STUDENT" then StudentBranch else OtherBranch
  }

  /** The `{"error": ...}` answers of the four tools. */
  datatype ToolError =
    | NotForAdmins(what: string)     // the caller's role has no such data
    | ProfileNotFound(branch: Branch) // the caller has no teacher or student row
    | UserNotFound
    | Failed(action: string, message: string) // the tool caught an exception

  function ErrorText(e: ToolError): string {
    match e
    case NotForAdmins(what) => what + " not available for admin users"
    case ProfileNotFound(b) => (if b == TeacherBranch then "Teacher" else "Student") + " profile not found"
    case UserNotFound => "User not found"
    case Failed(action, message) => "Failed to get " + action + ": " + message
  }

  // ------------------------------------------------------------ get_my_schedule

  datatype MySchedule = MySchedule(role: string, profileId: string, timetable: ScheduleService.WeekGrid, message: string)

  /** What `get_teacher_timetable_grid` returns or raises. */
  function TeacherWeek(db: Db, teacherId: string): Result<ScheduleService.WeekGrid, string> {
    ScheduleService.WeekOf(ScheduleService.Timetable(db), ScheduleService.TeacherSchedules(db, teacherId))
  }

  /** What `get_student_timetable_grid` returns or raises. */
  function StudentWeek(db: Db, studentId: string): Result<ScheduleService.WeekGrid, string> {
    ScheduleService.WeekOf(ScheduleService.Timetable(db), ScheduleService.StudentSchedules(db, studentId))
  }

  /** `get_my_schedule` */
  function GetMySchedule(db: Db, userId: string, userRole: string, fault: Option<string>): (r: Result<MySchedule, ToolError>)
    ensures BranchOf(userRole) == OtherBranch ==> r == Err(NotForAdmins("Schedule"))
    ensures BranchOf(userRole) != OtherBranch && fault.Some? ==> r == Err(Failed("schedule", fault.value))
    ensures BranchOf(userRole) == TeacherBranch && fault.None? ==> (r == Err(ProfileNotFound(TeacherBranch)) <==> TeacherOfUser(db, userId).None?)
    ensures BranchOf(userRole) == StudentBranch && fault.None? ==> (r == Err(ProfileNotFound(StudentBranch)) <==> StudentOfUser(db, userId).None?)
    ensures r.Ok? ==> r.value.role == userRole
    ensures BranchOf(userRole) == TeacherBranch && fault.None? && TeacherOfUser(db, userId).Some? &&
            TeacherWeek(db, TeacherOfUser(db, userId).value.id).Err? ==>
      r == Err(Failed("schedule", TeacherWeek(db, TeacherOfUser(db, userId).value.id).error))
    ensures BranchOf(userRole) == StudentBranch && fault.None? && StudentOfUser(db, userId).Some? &&
            StudentWeek(db, StudentOfUser(db, userId).value.id).Err? ==>
      r == Err(Failed("schedule", StudentWeek(db, StudentOfUser(db, userId).value.id).error))
    ensures r.Ok? && BranchOf(userRole) == TeacherBranch ==>
      TeacherOfUser(db, userId).Some? && r.value.profileId == TeacherOfUser(db, userId).value.id &&
      TeacherWeek(db, r.value.profileId) == Ok(r.value.timetable) &&
      r.value.message == "Here is your teaching schedule for the week"
    ensures r.Ok? && BranchOf(userRole) == StudentBranch ==>
      StudentOfUser(db, userId).Some? && r.value.profileId == StudentOfUser(db, userId).value.id &&
      StudentWeek(db, r.value.profileId) == Ok(r.value.timetable) &&
      r.value.message == "Here is your class schedule for the week"
  {
    match BranchOf(userRole)
    case TeacherBranch =>
      (if fault.Some? then Err(Failed("schedule", fault.value))
       else
         match TeacherOfUser(db, userId)
         case None => Err(ProfileNotFound(TeacherBranch))
         case Some(t) =>
           match TeacherWeek(db, t.id)
           case Err(e) => Err(Failed("schedule", e))
           case Ok(grid) => Ok(MySchedule("TEACHER", t.id, grid, "Here is your teaching schedule for the week")))
    case StudentBranch =>
      (if fault.Some? then Err(Failed("schedule", fault.value))
       else
         match StudentOfUser(db, userId)
         case None => Err(ProfileNotFound(StudentBranch))
         case Some(s) =>
           match StudentWeek(db, s.id)
           case Err(e) => Err(Failed("schedule", e))
           case Ok(grid) => Ok(MySchedule("STUDENT", s.id, grid, "Here is your class schedule for the week")))
    case OtherBranch => Err(NotForAdmins("Schedule"))
  }

  // ------------------------------------------------------------ get_my_attendance

  /** One attendance record as the attendance service returns it. */
  datatype AttendanceRecord = AttendanceRecord(id: string, courseId: string, date: DateTime, status: string)

  /** The service's record query for a profile id and an optional course: the records, or the text of what it raises. */
  type RecordSource = (string, Option<string>) -> Result<seq<AttendanceRecord>, string>

  datatype MyAttendance =
    | TeacherAttendance(role: string, teacherId: string, records: seq<AttendanceRecord>, totalSessions: nat, message: string)
    | StudentAttendanceSummary(role: string, studentId: string, records: seq<AttendanceRecord>, totalClasses: nat,
                               attended: nat, percentage: real, message: string)

  /** The `Format` of one-decimal fixed-point rendering (`f"{x:.1f}"`), a parameter of the model. */
  type Fixed1 = real -> string

  /** `f"Found {len(records)} attendance records"` */
  function TeacherAttendanceMessage(count: nat): string {
    "Found " + NatToString(count) + " attendance records"
  }

  /** `f"Your attendance: {present}/{total} classes ({percentage:.1f}%)"` */
  function StudentAttendanceMessage(present: nat, total: nat, percentage: real, fixed1: Fixed1): string {
    "Your attendance: " + NatToString(present) + "/" + NatToString(total) + " classes (" + fixed1(percentage) + "%)"
  }

  function IsPresent(r: AttendanceRecord): bool { r.status == "PRESENT" }

  /** `present / total * 100 if total > 0 else 0`, exactly (the answer rounds it to two decimals). */
  function AttendancePercentage(present: nat, total: nat): (p: real)
    requires present <= total
    ensures 0.0 <= p <= 100.0
    ensures total == 0 ==> p == 0.0
    ensures total > 0 ==> (p == 100.0 <==> present == total)
    ensures total > 0 ==> p * (total as real) == 100.0 * (present as real)
  {
    if total > 0 then
      var x := (present as real) / (total as real) * 100.0;
      assert x * (total as real) == 100.0 * (present as real);
      x
    else 0.0
  }

  /** `get_my_attendance` */
  function GetMyAttendance(db: Db, userId: string, userRole: string, courseId: Option<string>, fault: Option<string>,
                           teacherRecords: RecordSource, studentRecords: RecordSource, fixed1: Fixed1)
    : (r: Result<MyAttendance, ToolError>)
    ensures BranchOf(userRole) == OtherBranch ==> r == Err(NotForAdmins("Attendance"))
    ensures BranchOf(userRole) != OtherBranch && fault.Some? ==> r == Err(Failed("attendance", fault.value))
    ensures BranchOf(userRole) == TeacherBranch && fault.None? && TeacherOfUser(db, userId).None? ==> r == Err(ProfileNotFound(TeacherBranch))
    ensures BranchOf(userRole) == StudentBranch && fault.None? && StudentOfUser(db, userId).None? ==> r == Err(ProfileNotFound(StudentBranch))
    ensures r.Ok? && BranchOf(userRole) == TeacherBranch ==>
      r.value.TeacherAttendance? && r.value.role == "TEACHER" &&
      TeacherOfUser(db, userId).Some? && TeacherOfUser(db, userId).value.id == r.value.teacherId &&
      teacherRecords(r.value.teacherId, courseId) == Ok(r.value.records) && r.value.totalSessions == |r.value.records| &&
      r.value.message == TeacherAttendanceMessage(r.value.totalSessions)
    ensures r.Ok? && BranchOf(userRole) == StudentBranch ==>
      r.value.StudentAttendanceSummary? && r.value.role == "STUDENT" &&
      StudentOfUser(db, userId).Some? && StudentOfUser(db, userId).value.id == r.value.studentId &&
      studentRecords(r.value.studentId, courseId) == Ok(r.value.records) &&
      r.value.totalClasses == |r.value.records| && r.value.attended == Seqs.Count(r.value.records, IsPresent) &&
      r.value.attended <= r.value.totalClasses &&
      r.value.percentage == AttendancePercentage(r.value.attended, r.value.totalClasses) &&
      r.value.message == StudentAttendanceMessage(r.value.attended, r.value.totalClasses, r.value.percentage, fixed1)
    ensures BranchOf(userRole) == TeacherBranch && fault.None? && TeacherOfUser(db, userId).Some? &&
            teacherRecords(TeacherOfUser(db, userId).value.id, courseId).Err? ==>
      r == Err(Failed("attendance", teacherRecords(TeacherOfUser(db, userId).value.id, courseId).error))
    ensures BranchOf(userRole) == StudentBranch && fault.None? && StudentOfUser(db, userId).Some? &&
            studentRecords(StudentOfUser(db, userId).value.id, courseId).Err? ==>
      r == Err(Failed("attendance", studentRecords(StudentOfUser(db, userId).value.id, courseId).error))
  {
    match BranchOf(userRole)
    case TeacherBranch =>
      (if fault.Some? then Err(Failed("attendance", fault.value))
       else
         match TeacherOfUser(db, userId)
         case None => Err(ProfileNotFound(TeacherBranch))
         case Some(t) =>
           match teacherRecords(t.id, courseId)
           case Err(e) => Err(Failed("attendance", e))
           case Ok(records) => Ok(TeacherAttendance("TEACHER", t.id, records, |records|, TeacherAttendanceMessage(|records|))))
    case StudentBranch =>
      (if fault.Some? then Err(Failed("attendance", fault.value))
       else
         match StudentOfUser(db, userId)
         case None => Err(ProfileNotFound(StudentBranch))
         case Some(s) =>
           match studentRecords(s.id, courseId)
           case Err(e) => Err(Failed("attendance", e))
           case Ok(records) =>
             var present := Seqs.Count(records, IsPresent);
             var percentage := AttendancePercentage(present, |records|);
             Ok(StudentAttendanceSummary("STUDENT", s.id, records, |records|, present, percentage,
                                         StudentAttendanceMessage(present, |records|, percentage, fixed1))))
    case OtherBranch => Err(NotForAdmins("Attendance"))
  }

  /**
   * The teacher branch as written calls a service method the attendance
   * service does not define, so Python raises on the attribute lookup.
   */
  const MissingTeacherAttendance := "type object 'AttendanceService' has no attribute 'get_teacher_attendance'"

  /** What the teacher branch actually reaches: the lookup of the missing method raises. */
  function AsWrittenTeacherRecords(teacherId: string, courseId: Option<string>): Result<seq<AttendanceRecord>, string> {
    Err(MissingTeacherAttendance)
  }

  /** As written, a teacher never gets attendance back: every call with a teacher role ends in the caught exception or an error. */
  lemma TeacherAttendanceAsWrittenFails(db: Db, userId: string, userRole: string, courseId: Option<string>,
                                        fault: Option<string>, studentRecords: RecordSource, fixed1: Fixed1)
    requires BranchOf(userRole) == TeacherBranch
    ensures GetMyAttendance(db, userId, userRole, courseId, fault, AsWrittenTeacherRecords, studentRecords, fixed1).Err?
    ensures fault.None? && TeacherOfUser(db, userId).Some? ==>
      GetMyAttendance(db, userId, userRole, courseId, fault, AsWrittenTeacherRecords, studentRecords, fixed1)
        == Err(Failed("attendance", MissingTeacherAttendance))
  {
  }

  /** With a service that answers the teacher's query, the teacher gets the records and their count. */
  lemma TeacherAttendanceWhenServiceAnswers(db: Db, userId: string, userRole: string, courseId: Option<string>,
                                            teacherRecords: RecordSource, studentRecords: RecordSource, fixed1: Fixed1,
                                            records: seq<AttendanceRecord>)
    requires BranchOf(userRole) == TeacherBranch && TeacherOfUser(db, userId).Some?
    requires teacherRecords(TeacherOfUser(db, userId).value.id, courseId) == Ok(records)
    ensures GetMyAttendance(db, userId, userRole, courseId, None, teacherRecords, studentRecords, fixed1)
            == Ok(TeacherAttendance("TEACHER", TeacherOfUser(db, userId).value.id, records, |records|,
                                    "Found " + NatToString(|records|) + " attendance records"))
  {
  }

  /** Only PRESENT counts as attended: a LATE record counts in the total but not in the attended classes. */
  lemma LateIsNotAttended(records: seq<AttendanceRecord>, r: AttendanceRecord)
    requires r.status == "LATE"
    ensures Seqs.Count(records + [r], IsPresent) == Seqs.Count(records, IsPresent)
    ensures |records + [r]| == |records| + 1
  {
    Seqs.CountSnoc(records, r, IsPresent);
  }

  // ------------------------------------------------------------ get_my_courses

  /** One course in the teacher's answer. */
  datatype TaughtCourse = TaughtCourse(id: string, courseCode: string, courseName: string, credits: int, semester: int,
                                       department: Option<string>)

  /** One enrollment in the student's answer. */
  datatype EnrolledCourse = EnrolledCourse(courseCode: string, courseName: string, credits: int, semester: int,
                                           teacher: string, department: Option<string>, status: string, grade: Option<string>)

  datatype MyCourses =
    | TeacherCourses(teacherName: string, courses: seq<TaughtCourse>, totalCourses: nat, message: string)
    | StudentCourses(studentName: string, enrollments: seq<EnrolledCourse>, totalCourses: nat, message: string)

  /** `c.department.name if c.department else None` */
  function DepartmentName(db: Db, departmentId: string): Option<string> {
    match DepartmentById(db, departmentId)
    case Some(d) => Some(d.name)
    case None => None
  }

  /** `course.find_many(where={'teacherId': teacher.id})` */
  function CoursesOf(db: Db, teacherId: string): seq<Course> {
    Seqs.Filter(db.courses, (c: Course) => c.teacherId == Some(teacherId))
  }

  function Taught(db: Db, c: Course): TaughtCourse {
    TaughtCourse(c.id, c.courseCode, c.courseName, c.credits, c.semester, DepartmentName(db, c.departmentId))
  }

  /** The teacher's course list, in table order. */
  function TaughtList(db: Db, cs: seq<Course>): (r: seq<TaughtCourse>)
    ensures |r| == |cs|
    ensures forall i :: 0 <= i < |cs| ==> r[i] == Taught(db, cs[i])
  {
    seq(|cs|, i requires 0 <= i < |cs| => Taught(db, cs[i]))
  }

  /** `enrollment.find_many(where={'studentId': student.id})` */
  function EnrollmentsOf(db: Db, studentId: string): seq<Enrollment> {
    Seqs.Filter(db.enrollments, (e: Enrollment) => e.studentId == studentId)
  }

  /**
   * The student's enrollment list in table order, with the course's
   * teacher's name or "TBA"; `None` when an enrollment's course is missing
   * (reading `e.course.courseCode` raises `MissingCourseCode`).
   */
  function EnrolledList(db: Db, es: seq<Enrollment>): (r: Option<seq<EnrolledCourse>>)
    ensures r.Some? <==> forall i :: 0 <= i < |es| ==> CourseById(db, es[i].courseId).Some?
    ensures r.Some? ==> |r.value| == |es|
    ensures r.Some? ==> forall i :: 0 <= i < |es| ==> r.value[i] == Enrolled(db, es[i], CourseById(db, es[i].courseId).value)
  {
    if forall i :: 0 <= i < |es| ==> CourseById(db, es[i].courseId).Some? then
      Some(seq(|es|, i requires 0 <= i < |es| => Enrolled(db, es[i], CourseById(db, es[i].courseId).value)))
    else None
  }

  /** One entry of the student's answer: the enrollment's course, its teacher's name or "TBA", and the enrollment's status and grade. */
  function Enrolled(db: Db, e: Enrollment, c: Course): EnrolledCourse {
    EnrolledCourse(c.courseCode, c.courseName, c.credits, c.semester,
                   TeacherUserName(db, c.teacherId).GetOr("TBA"), DepartmentName(db, c.departmentId), e.status, e.grade)
  }

  /** The text Python gives reading `.name` of a missing related row (the user of a teacher or student). */
  const MissingRelation := "'NoneType' object has no attribute 'name'"

  /** The text Python gives reading `e.course.courseCode` of an enrollment whose course is missing. */
  const MissingCourseCode := "'NoneType' object has no attribute 'courseCode'"

  /** `get_my_courses` */
  function GetMyCourses(db: Db, userId: string, userRole: string, fault: Option<string>): (r: Result<MyCourses, ToolError>)
    ensures BranchOf(userRole) == OtherBranch ==> r == Err(NotForAdmins("Course information"))
    ensures BranchOf(userRole) != OtherBranch && fault.Some? ==> r == Err(Failed("courses", fault.value))
    ensures BranchOf(userRole) == TeacherBranch && fault.None? && TeacherOfUser(db, userId).None? ==> r == Err(ProfileNotFound(TeacherBranch))
    ensures BranchOf(userRole) == StudentBranch && fault.None? && StudentOfUser(db, userId).None? ==> r == Err(ProfileNotFound(StudentBranch))
    ensures r.Ok? && BranchOf(userRole) == TeacherBranch ==>
      r.value.TeacherCourses? && TeacherOfUser(db, userId).Some? &&
      r.value.courses == TaughtList(db, CoursesOf(db, TeacherOfUser(db, userId).value.id)) &&
      r.value.totalCourses == |r.value.courses| &&
      r.value.message == "You are teaching " + NatToString(r.value.totalCourses) + " course(s)"
    ensures r.Ok? && BranchOf(userRole) == StudentBranch ==>
      r.value.StudentCourses? && StudentOfUser(db, userId).Some? &&
      Some(r.value.enrollments) == EnrolledList(db, EnrollmentsOf(db, StudentOfUser(db, userId).value.id)) &&
      r.value.totalCourses == |EnrollmentsOf(db, StudentOfUser(db, userId).value.id)| &&
      r.value.message == "You are enrolled in " + NatToString(r.value.totalCourses) + " course(s)"
    ensures BranchOf(userRole) == TeacherBranch && fault.None? && TeacherOfUser(db, userId).Some? &&
            UserById(db, TeacherOfUser(db, userId).value.userId).None?
            ==> r == Err(Failed("courses", MissingRelation))
    ensures BranchOf(userRole) == StudentBranch && fault.None? && StudentOfUser(db, userId).Some? &&
            UserById(db, StudentOfUser(db, userId).value.userId).None?
            ==> r == Err(Failed("courses", MissingRelation))
    ensures BranchOf(userRole) == StudentBranch && fault.None? && StudentOfUser(db, userId).Some? &&
            UserById(db, StudentOfUser(db, userId).value.userId).Some? &&
            EnrolledList(db, EnrollmentsOf(db, StudentOfUser(db, userId).value.id)).None? ==>
      r == Err(Failed("courses", MissingCourseCode))
  {
    match BranchOf(userRole)
    case TeacherBranch =>
      (if fault.Some? then Err(Failed("courses", fault.value))
       else
         match TeacherOfUser(db, userId)
         case None => Err(ProfileNotFound(TeacherBranch))
         case Some(t) =>
           match UserById(db, t.userId)
           case None => Err(Failed("courses", MissingRelation))
           case Some(u) =>
             var cs := TaughtList(db, CoursesOf(db, t.id));
             Ok(TeacherCourses(u.name, cs, |cs|, "You are teaching " + NatToString(|cs|) + " course(s)")))
    case StudentBranch =>
      (if fault.Some? then Err(Failed("courses", fault.value))
       else
         match StudentOfUser(db, userId)
         case None => Err(ProfileNotFound(StudentBranch))
         case Some(s) =>
           match UserById(db, s.userId)
           case None => Err(Failed("courses", MissingRelation))
           case Some(u) =>
             var es := EnrollmentsOf(db, s.id);
             match EnrolledList(db, es)
             case None => Err(Failed("courses", MissingCourseCode))
             case Some(list) => Ok(StudentCourses(u.name, list, |es|, "You are enrolled in " + NatToString(|es|) + " course(s)")))
    case OtherBranch => Err(NotForAdmins("Course information"))
  }

  // ------------------------------------------------------------ get_my_profile

  /** A JSON value of the profile dictionary. */
  datatype Value = Str(s: string) | Int(i: int) | Null

  function OptStr(s: Option<string>): Value {
    match s
    case Some(x) => Str(x)
    case None => Null
  }

  type Profile = map<string, Value>

  const BaseKeys: set<string> := {"user_id", "name", "email", "role"}
  const TeacherKeys: set<string> := {"teacher_id", "designation", "department", "specialization", "office_room", "office_hours", "phone"}
  const StudentKeys: set<string> := {"student_id", "department", "semester", "batch", "phone", "address", "date_of_birth"}

  /** No role profile field overwrites one of the user's own. */
  lemma BaseKeysApart()
    ensures BaseKeys !! TeacherKeys && BaseKeys !! StudentKeys
  {
    assert BaseKeys !! TeacherKeys;
  }

  function BaseProfile(u: User): (p: Profile)
    ensures p.Keys == BaseKeys
  {
    map["user_id" := Str(u.id), "name" := Str(u.name), "email" := Str(u.email), "role" := Str(u.role)]
  }

  function TeacherFields(t: Teacher): (p: Profile)
    ensures p.Keys == TeacherKeys
  {
    map["teacher_id" := Str(t.teacherId), "designation" := Str(t.designation), "department" := Str(t.department),
        "specialization" := OptStr(t.specialization), "office_room" := OptStr(t.officeRoom),
        "office_hours" := OptStr(t.officeHours), "phone" := OptStr(t.phoneNumber)]
  }

  function DepartmentValue(db: Db, departmentId: Option<string>): Value {
    if departmentId.None? then Null
    else match DepartmentById(db, departmentId.value) case Some(d) => Str(d.name) case None => Null
  }

  /** `isoformat` of a date is the date library's; it is a parameter here. */
  function StudentFields(db: Db, s: Student, isoformat: Date -> string): (p: Profile)
    ensures p.Keys == StudentKeys
    ensures p["student_id"] == Str(s.studentId)
  {
    map["student_id" := Str(s.studentId), "department" := DepartmentValue(db, s.departmentId), "semester" := Int(s.semester),
        "batch" := Str(s.batch), "phone" := OptStr(s.phoneNumber), "address" := OptStr(s.address),
        "date_of_birth" := match s.dateOfBirth case Some(d) => Str(isoformat(d)) case None => Null]
  }

  /** The fields the role profile adds, if the role argument names a role whose profile exists. */
  function RoleFields(db: Db, userId: string, userRole: string, isoformat: Date -> string): (p: Profile)
    ensures BranchOf(userRole) == TeacherBranch && TeacherOfUser(db, userId).Some? ==> p.Keys == TeacherKeys
    ensures BranchOf(userRole) == StudentBranch && StudentOfUser(db, userId).Some? ==> p.Keys == StudentKeys
    ensures BranchOf(userRole) == TeacherBranch && TeacherOfUser(db, userId).None? ==> p == map[]
    ensures BranchOf(userRole) == StudentBranch && StudentOfUser(db, userId).None? ==> p == map[]
    ensures BranchOf(userRole) == OtherBranch ==> p == map[]
  {
    match BranchOf(userRole)
    case TeacherBranch =>
      ((match TeacherOfUser(db, userId)
        case Some(t) => TeacherFields(t)
        case None => map[]))
    case StudentBranch =>
      ((match StudentOfUser(db, userId)
        case Some(s) => StudentFields(db, s, isoformat)
        case None => map[]))
    case OtherBranch => map[]
  }

  /** `f"{v}"` of a profile value: the string, the decimal integer, or "None". */
  function Show(v: Value): string {
    match v
    case Str(x) => x
    case Int(i) => IntToString(i)
    case Null => "None"
  }

  /** Python truthiness of a profile value. */
  predicate TruthyValue(v: Value) {
    match v
    case Str(x) => x != []
    case Int(i) => i != 0
    case Null => false
  }

  /** A line with `profile.get(key, 'N/A')`. */
  function GetLine(p: Profile, caption: string, key: string): (line: string)
    ensures key !in p ==> line == caption + "N/A\n"
    ensures key in p ==> line == caption + Show(p[key]) + "\n"
  {
    caption + (if key in p then Show(p[key]) else "N/A") + "\n"
  }

  /** A line written only `if profile.get(key)`. */
  function IfLine(p: Profile, caption: string, key: string): (line: string)
    ensures line == [] <==> !(key in p && TruthyValue(p[key]))
    ensures line != [] ==> line == caption + Show(p[key]) + "\n"
  {
    if key in p && TruthyValue(p[key]) then caption + Show(p[key]) + "\n" else ""
  }

  /** The heading and the user's own lines of the display message. */
  function DisplayHead(name: string, p: Profile): string
    requires "email" in p && "role" in p
  {
    "**Profile Information for " + name + "**\n\n" +
    "\U{1F4E7} Email: " + Show(p["email"]) + "\n" +
    "\U{1F464} Role: " + Show(p["role"]) + "\n\n"
  }

  /** The teacher section of the display message. */
  function TeacherDetails(p: Profile): string {
    "**Teacher Details:**\n" +
    GetLine(p, "\U{1F194} Teacher ID: ", "teacher_id") +
    GetLine(p, "\U{1F3E2} Department: ", "department") +
    GetLine(p, "\U{1F4BC} Designation: ", "designation") +
    IfLine(p, "\U{1F4DA} Specialization: ", "specialization") +
    IfLine(p, "\U{1F6AA} Office Room: ", "office_room") +
    IfLine(p, "\U{1F552} Office Hours: ", "office_hours") +
    IfLine(p, "\U{1F4DE} Phone: ", "phone")
  }

  /** The student section of the display message. */
  function StudentDetails(p: Profile): string {
    "**Student Details:**\n" +
    GetLine(p, "\U{1F194} Student ID: ", "student_id") +
    GetLine(p, "\U{1F3E2} Department: ", "department") +
    GetLine(p, "\U{1F4D6} Semester: ", "semester") +
    GetLine(p, "\U{1F393} Batch: ", "batch") +
    IfLine(p, "\U{1F4DE} Phone: ", "phone") +
    IfLine(p, "\U{1F3E0} Address: ", "address") +
    IfLine(p, "\U{1F382} Date of Birth: ", "date_of_birth")
  }

  /** `display_message`: the heading, then the section of the role argument's branch, if any. */
  function DisplayMessage(name: string, p: Profile, userRole: string): (m: string)
    requires "email" in p && "role" in p
    ensures DisplayHead(name, p) <= m
    ensures BranchOf(userRole) == OtherBranch ==> m == DisplayHead(name, p)
  {
    var head := DisplayHead(name, p);
    match BranchOf(userRole)
    case TeacherBranch => head + TeacherDetails(p)
    case StudentBranch => head + StudentDetails(p)
    case OtherBranch => head
  }

  /** The answer of `get_my_profile`: the profile dictionary and its display message. */
  datatype MyProfile = MyProfile(profile: Profile, message: string)

  /**
   * `get_my_profile`: the user's own fields, and the role profile's fields
   * merged in (`profile.update`) when the role argument names a role whose
   * profile exists; the display message is built from that dictionary.
   */
  function GetMyProfile(db: Db, userId: string, userRole: string, fault: Option<string>, isoformat: Date -> string)
    : (r: Result<MyProfile, ToolError>)
    ensures fault.Some? ==> r == Err(Failed("profile", fault.value))
    ensures fault.None? ==> (r == Err(UserNotFound) <==> UserById(db, userId).None?)
    ensures r.Ok? ==> UserById(db, userId).Some?
    ensures r.Ok? ==> forall k :: k in BaseKeys ==> k in r.value.profile && r.value.profile[k] == BaseProfile(UserById(db, userId).value)[k]
    ensures r.Ok? ==> r.value.profile.Keys == BaseKeys + RoleFields(db, userId, userRole, isoformat).Keys
    ensures r.Ok? ==> forall k :: k in RoleFields(db, userId, userRole, isoformat) ==>
                                   r.value.profile[k] == RoleFields(db, userId, userRole, isoformat)[k]
    ensures r.Ok? ==> r.value.message == DisplayMessage(UserById(db, userId).value.name, r.value.profile, userRole)
  {
    if fault.Some? then Err(Failed("profile", fault.value))
    else
      match UserById(db, userId)
      case None => Err(UserNotFound)
      case Some(u) =>
        var extra := RoleFields(db, userId, userRole, isoformat);
        BaseKeysApart();
        var profile := BaseProfile(u) + extra;
        Ok(MyProfile(profile, DisplayMessage(u.name, profile, userRole)))
  }

  /** The teacher section of a dictionary without teacher fields: three "N/A" lines and no optional line. */
  lemma TeacherDetailsWithoutFields(p: Profile)
    requires p.Keys !! TeacherKeys
    ensures TeacherDetails(p) ==
      "**Teacher Details:**\n" + "\U{1F194} Teacher ID: N/A\n" + "\U{1F3E2} Department: N/A\n" + "\U{1F4BC} Designation: N/A\n"
  {
    assert "teacher_id" in TeacherKeys && "department" in TeacherKeys && "designation" in TeacherKeys;
    assert "specialization" in TeacherKeys && "office_room" in TeacherKeys;
    assert "office_hours" in TeacherKeys && "phone" in TeacherKeys;
  }

  /**
   * A teacher without a teacher row still gets the teacher section, with
   * "N/A" for the id, the department and the designation and no other line.
   */
  lemma TeacherWithoutProfileShowsNA(db: Db, userId: string, userRole: string, fault: Option<string>, isoformat: Date -> string)
    requires BranchOf(userRole) == TeacherBranch
    requires GetMyProfile(db, userId, userRole, fault, isoformat).Ok? && TeacherOfUser(db, userId).None?
    ensures var r := GetMyProfile(db, userId, userRole, fault, isoformat).value;
      r.message == DisplayHead(UserById(db, userId).value.name, r.profile) +
      "**Teacher Details:**\n" + "\U{1F194} Teacher ID: N/A\n" + "\U{1F3E2} Department: N/A\n" + "\U{1F4BC} Designation: N/A\n"
  {
    var r := GetMyProfile(db, userId, userRole, fault, isoformat).value;
    var name := UserById(db, userId).value.name;
    assert r.profile.Keys == BaseKeys && r.message == DisplayMessage(name, r.profile, userRole) by {
      assert RoleFields(db, userId, userRole, isoformat) == map[];
    }
    assert r.message == DisplayHead(name, r.profile) + TeacherDetails(r.profile);
    BaseKeysApart();
    TeacherDetailsWithoutFields(r.profile);
  }

  /** The id line of a dictionary holding a student's fields shows the student id. */
  lemma StudentIdLine(p: Profile, extra: Profile, studentId: string)
    requires extra.Keys <= p.Keys && forall k :: k in extra ==> p[k] == extra[k]
    requires "student_id" in extra && extra["student_id"] == Str(studentId)
    ensures GetLine(p, "\U{1F194} Student ID: ", "student_id") == "\U{1F194} Student ID: " + studentId + "\n"
  {
  }

  /** A student whose profile exists gets the student section, whose id line shows that profile's student id. */
  lemma StudentProfileShowsId(db: Db, userId: string, userRole: string, fault: Option<string>, isoformat: Date -> string)
    requires BranchOf(userRole) == StudentBranch
    requires GetMyProfile(db, userId, userRole, fault, isoformat).Ok? && StudentOfUser(db, userId).Some?
    ensures var r := GetMyProfile(db, userId, userRole, fault, isoformat).value;
      r.message == DisplayHead(UserById(db, userId).value.name, r.profile) + StudentDetails(r.profile) &&
      GetLine(r.profile, "\U{1F194} Student ID: ", "student_id") ==
        "\U{1F194} Student ID: " + StudentOfUser(db, userId).value.studentId + "\n"
  {
    var r := GetMyProfile(db, userId, userRole, fault, isoformat).value;
    var st := StudentOfUser(db, userId).value;
    var extra := RoleFields(db, userId, userRole, isoformat);
    assert extra == StudentFields(db, st, isoformat) && extra["student_id"] == Str(st.studentId);
    assert extra.Keys <= r.profile.Keys && forall k :: k in extra ==> r.profile[k] == extra[k];
    StudentIdLine(r.profile, extra, st.studentId);
  }

  /**
   * Anybody who is neither a teacher nor a student (an admin, or a role
   * spelt differently) gets an error from the schedule, attendance and
   * course tools, and only the user's own fields from the profile tool.
   */
  lemma AdminGetsErrors(db: Db, userId: string, userRole: string, courseId: Option<string>, fault: Option<string>,
                        teacherRecords: RecordSource, studentRecords: RecordSource, fixed1: Fixed1, isoformat: Date -> string)
    requires BranchOf(userRole) == OtherBranch
    ensures GetMySchedule(db, userId, userRole, fault).Err?
    ensures GetMyAttendance(db, userId, userRole, courseId, fault, teacherRecords, studentRecords, fixed1).Err?
    ensures GetMyCourses(db, userId, userRole, fault).Err?
    ensures GetMyProfile(db, userId, userRole, fault, isoformat).Ok? ==>
      GetMyProfile(db, userId, userRole, fault, isoformat).value.profile.Keys == BaseKeys &&
      GetMyProfile(db, userId, userRole, fault, isoformat).value.message ==
        DisplayHead(UserById(db, userId).value.name, GetMyProfile(db, userId, userRole, fault, isoformat).value.profile)
  {
  }
}
