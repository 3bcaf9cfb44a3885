/**
 * The persistent entities the back end reads through its ORM, as plain
 * values, and the in-memory database that stands for the ORM client.
 * A table is a sequence in storage order; `find_first` is the first match
 * in that order and `find_many` the order-preserving selection.
 */
module Records {
  import opened Wrappers
  import opened Text
  import Seqs

  datatype User = User(id: string, name: string, email: string, role: string)

  datatype Teacher = Teacher(
    id: string, userId: string, teacherId: string, department: string, designation: string,
    specialization: Option<string>, phoneNumber: Option<string>,
    officeRoom: Option<string>, officeHours: Option<string>)

  datatype Department = Department(id: string, code: string, name: string, description: Option<string>)

  datatype Date = Date(year: nat, month: nat, day: nat)

  /** A point in time: the calendar date and the time of day in microseconds. */
  datatype DateTime = DateTime(date: Date, micros: nat)

  datatype Student = Student(
    id: string, userId: string, studentId: string, departmentId: Option<string>,
    semester: int, batch: string, phoneNumber: Option<string>, address: Option<string>,
    dateOfBirth: Option<Date>)

  datatype Course = Course(
    id: string, courseCode: string, courseName: string, credits: int, departmentId: string,
    semester: int, description: Option<string>, syllabus: Option<string>, maxStudents: Option<int>,
    isActive: bool, teacherId: Option<string>)

  datatype Enrollment = Enrollment(id: string, studentId: string, courseId: string, status: string, grade: Option<string>)

  datatype Schedule = Schedule(
    id: string, courseId: string, teacherId: Option<string>, dayOfWeek: string,
    startTime: string, endTime: string, room: Option<string>, building: Option<string>,
    kind: string, isActive: bool)

  datatype ClassSession = ClassSession(
    id: string, courseId: string, teacherId: Option<string>, date: DateTime,
    startTime: string, endTime: string, status: string, topic: Option<string>)

  datatype StudentAttendance = StudentAttendance(
    id: string, sessionId: string, studentId: string, status: string,
    remarks: Option<string>, markedById: Option<string>)

  /**
   * The database.  `serial` counts the rows created so far; a created row's
   * id is the database's id generator applied to it (a parameter of the
   * operations that create rows).
   */
  datatype Db = Db(
    users: seq<User>, teachers: seq<Teacher>, students: seq<Student>,
    departments: seq<Department>, courses: seq<Course>, enrollments: seq<Enrollment>,
    schedules: seq<Schedule>, sessions: seq<ClassSession>,
    attendance: seq<StudentAttendance>, serial: nat)

  /** Python truthiness of an optional string: present and non-empty. */
  predicate Truthy(s: Option<string>) { s.Some? && s.value != [] }

  /** `a or b` on optional strings. */
  function OrElse(a: Option<string>, b: Option<string>): (r: Option<string>)
    ensures Truthy(a) ==> r == a
    ensures !Truthy(a) ==> r == b
  {
    if Truthy(a) then a else b
  }

  /** The case-insensitive equality of the ORM's `mode: insensitive` filters. */
  predicate EqualsInsensitive(a: string, b: string) { Lower(a) == Lower(b) }

  /** The case-insensitive substring filter (`contains` with `mode: insensitive`). */
  predicate ContainsInsensitive(s: string, sub: string) { Contains(Lower(s), Lower(sub)) }

  function UserById(db: Db, id: string): Option<User> {
    Seqs.FirstWhere(db.users, (u: User) => u.id == id)
  }

  function TeacherById(db: Db, id: string): Option<Teacher> {
    Seqs.FirstWhere(db.teachers, (t: Teacher) => t.id == id)
  }

  /** `teacher.find_first(where={'userId': ...})` */
  function TeacherOfUser(db: Db, userId: string): Option<Teacher> {
    Seqs.FirstWhere(db.teachers, (t: Teacher) => t.userId == userId)
  }

  /** `student.find_first(where={'userId': ...})` */
  function StudentOfUser(db: Db, userId: string): Option<Student> {
    Seqs.FirstWhere(db.students, (s: Student) => s.userId == userId)
  }

  function CourseById(db: Db, id: string): Option<Course> {
    Seqs.FirstWhere(db.courses, (c: Course) => c.id == id)
  }

  function DepartmentById(db: Db, id: string): Option<Department> {
    Seqs.FirstWhere(db.departments, (d: Department) => d.id == id)
  }

  /** `course.find_first(where={'courseCode': {'equals': code, 'mode': 'insensitive'}})` */
  function CourseByCode(db: Db, code: string): Option<Course> {
    Seqs.FirstWhere(db.courses, (c: Course) => EqualsInsensitive(c.courseCode, code))
  }

  /** `student.find_first(where={'studentId': {'equals': id, 'mode': 'insensitive'}})` */
  function StudentByCode(db: Db, studentId: string): Option<Student> {
    Seqs.FirstWhere(db.students, (s: Student) => EqualsInsensitive(s.studentId, studentId))
  }

  /** The name of the user behind a teacher id (`s.teacher.user.name if s.teacher and s.teacher.user`). */
  function TeacherUserName(db: Db, teacherId: Option<string>): Option<string> {
    if teacherId.None? then None
    else
      match TeacherById(db, teacherId.value)
      case None => None
      case Some(t) =>
        match UserById(db, t.userId)
        case None => None
        case Some(u) => Some(u.name)
  }
}
