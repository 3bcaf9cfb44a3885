/**
 * The attendance tools of the agent: marking one student, marking a list
 * of students at once, and reading a student's records.
 *
 * Marking finds the class session of the course on the class's date, or
 * creates one, then adds the attendance rows.  Students are named by their
 * roll number (`studentId`, matched case-insensitively) and stored by
 * their internal id.  The clock (`now`), date parsing (`fromIso`) and the
 * database's id generator (`newId`) are parameters.
 */
module AttendanceTool {
  import opened Wrappers
  import opened Text
  import opened Records
  import Seqs

  /** The `{"error": ...}` answers of the attendance tools. */
  datatype ToolError =
    | CourseNotFound(code: string)
    | StudentNotFound(studentId: string)
    | Failed(action: string, message: string) // the tool caught an exception

  function ErrorText(e: ToolError): string {
    match e
    case CourseNotFound(code) => "Course not found with code: " + code
    case StudentNotFound(id) => "Student not found with ID: " + id
    case Failed(action, message) => "Failed to " + action + ": " + message
  }

  // ------------------------------------------------------------ dates

  function Pad2(n: nat): string {
    if n < 10 then "0" + NatToString(n) else NatToString(n)
  }

  /** `strftime('%Y-%m-%d')` */
  function IsoDate(d: Date): string {
    NatToString(d.year) + "-" + Pad2(d.month) + "-" + Pad2(d.day)
  }

  /**
   * The class's date: `datetime.fromisoformat(date) if date else
   * datetime.now()`.  A text `fromisoformat` rejects raises, and the tool
   * reports it.
   */
  function ClassDate(date: Option<string>, now: DateTime, fromIso: string -> Option<DateTime>): Result<DateTime, string> {
    if !Truthy(date) then Ok(now)
    else
      match fromIso(date.value)
      case Some(d) => Ok(d)
      case None => Err("Invalid isoformat string: '" + date.value + "'")
  }

  // ------------------------------------------------------------ find-or-create session

  /** A session of the course on the same calendar day. */
  function OnDay(courseId: string, date: DateTime): ClassSession -> bool {
    (s: ClassSession) => s.courseId == courseId && s.date.date == date.date
  }

  /** The service's `get_course_sessions(course.id, date)`: the course's sessions on that day, in table order. */
  function CourseSessions(db: Db, courseId: string, date: DateTime): seq<ClassSession> {
    Seqs.Filter(db.sessions, OnDay(courseId, date))
  }

  /** The session the tools create: 09:00 AM to 10:00 AM, CONDUCTED, taught by the course's teacher or the marker. */
  function NewSession(c: Course, date: DateTime, markedById: Option<string>, id: string): ClassSession {
    ClassSession(id, c.id, OrElse(c.teacherId, markedById), date, "09:00 AM", "10:00 AM", "CONDUCTED",
                 Some(c.courseName + " - " + IsoDate(date.date)))
  }

  /** The session found first, or the one created, and the database after it. */
  function SessionFor(db: Db, c: Course, date: DateTime, markedById: Option<string>, newId: nat -> string): (ClassSession, Db) {
    var existing := CourseSessions(db, c.id, date);
    if existing != [] then (existing[0], db)
    else
      var s := NewSession(c, date, markedById, newId(db.serial));
      (s, db.(sessions := db.sessions + [s], serial := db.serial + 1))
  }

  method FindOrCreateSession(db: Db, c: Course, date: DateTime, markedById: Option<string>, newId: nat -> string)
    returns (session: ClassSession, db': Db)
    ensures (session, db') == SessionFor(db, c, date, markedById, newId)
  {
    var existing := CourseSessions(db, c.id, date);
    if existing != [] {
      session, db' := existing[0], db;
    } else {
      session := NewSession(c, date, markedById, newId(db.serial));
      db' := db.(sessions := db.sessions + [session], serial := db.serial + 1);
    }
  }

  /** Only the session table and the serial change. */
  predicate SameButSessions(db: Db, db': Db) {
    db'.users == db.users && db'.teachers == db.teachers && db'.students == db.students &&
    db'.departments == db.departments && db'.courses == db.courses && db'.enrollments == db.enrollments &&
    db'.schedules == db.schedules && db'.attendance == db.attendance
  }

  /**
   * The session is the course's on the class's day and is stored; the
   * first existing one is reused, and one is created, with the default
   * hours and the course's teacher or else the marker, only when none
   * exists.
   */
  lemma SessionForFacts(db: Db, c: Course, date: DateTime, markedById: Option<string>, newId: nat -> string)
    ensures var (s, db') := SessionFor(db, c, date, markedById, newId);
      s.courseId == c.id && s.date.date == date.date && s in db'.sessions && SameButSessions(db, db') &&
      (CourseSessions(db, c.id, date) != [] ==> db' == db && s.id == CourseSessions(db, c.id, date)[0].id) &&
      (CourseSessions(db, c.id, date) == [] ==>
         db'.sessions == db.sessions + [s] && db'.serial == db.serial + 1 && s.id == newId(db.serial) &&
         s.teacherId == OrElse(c.teacherId, markedById) && s.startTime == "09:00 AM" && s.endTime == "10:00 AM" &&
         s.status == "CONDUCTED")
  {
    var existing := CourseSessions(db, c.id, date);
    if existing != [] {
      assert existing[0] in db.sessions && OnDay(c.id, date)(existing[0]);
    }
  }

  /** Marking the same course and day again finds the session the first mark used and creates none. */
  lemma {:induction false} SessionForIdempotent(db: Db, c: Course, date: DateTime, markedById: Option<string>,
                                                later: Option<string>, newId: nat -> string)
    ensures var (s, db') := SessionFor(db, c, date, markedById, newId);
      SessionFor(db', c, date, later, newId) == (s, db')
  {
    var (s, db') := SessionFor(db, c, date, markedById, newId);
    if CourseSessions(db, c.id, date) == [] {
      Seqs.FilterAppend(db.sessions, [s], OnDay(c.id, date));
      assert CourseSessions(db', c.id, date) == [s];
    }
  }

  // ------------------------------------------------------------ mark_student_attendance

  /** The rule `marked_by_id or session.teacherId`. */
  function MarkedBy(markedById: Option<string>, session: ClassSession): Option<string> {
    OrElse(markedById, session.teacherId)
  }

  /** The service's `mark_attendance`: one new attendance row, appended. */
  function AddRecord(db: Db, sessionId: string, studentId: string, status: string, remarks: Option<string>,
                     markedBy: Option<string>, newId: nat -> string): (StudentAttendance, Db) {
    var rec := StudentAttendance(newId(db.serial), sessionId, studentId, status, remarks, markedBy);
    (rec, db.(attendance := db.attendance + [rec], serial := db.serial + 1))
  }

  /** What `mark_student_attendance` answers and leaves in the database. */
  function Mark(db: Db, courseCode: string, studentId: string, status: string, date: Option<string>,
                remarks: Option<string>, markedById: Option<string>,
                now: DateTime, fromIso: string -> Option<DateTime>, newId: nat -> string): (Result<StudentAttendance, ToolError>, Db) {
    match CourseByCode(db, courseCode)
    case None => (Err(CourseNotFound(courseCode)), db)
    case Some(c) =>
      match StudentByCode(db, studentId)
      case None => (Err(StudentNotFound(studentId)), db)
      case Some(st) =>
        match ClassDate(date, now, fromIso)
        case Err(e) => (Err(Failed("mark attendance", e)), db)
        case Ok(d) =>
          var (session, db1) := SessionFor(db, c, d, markedById, newId);
          var (rec, db2) := AddRecord(db1, session.id, st.id, status, remarks, MarkedBy(markedById, session), newId);
          (Ok(rec), db2)
  }

  /** `mark_student_attendance` */
  method MarkStudentAttendance(db: Db, courseCode: string, studentId: string, status: string, date: Option<string>,
                               remarks: Option<string>, markedById: Option<string>,
                               now: DateTime, fromIso: string -> Option<DateTime>, newId: nat -> string)
    returns (r: Result<StudentAttendance, ToolError>, db': Db)
    ensures (r, db') == Mark(db, courseCode, studentId, status, date, remarks, markedById, now, fromIso, newId)
  {
    var course := CourseByCode(db, courseCode);
    if course.None? {
      return Err(CourseNotFound(courseCode)), db;
    }
    var student := StudentByCode(db, studentId);
    if student.None? {
      return Err(StudentNotFound(studentId)), db;
    }
    var d := ClassDate(date, now, fromIso);
    if d.Err? {
      return Err(Failed("mark attendance", d.error)), db;
    }
    var session, db1 := FindOrCreateSession(db, course.value, d.value, markedById, newId);
    var added := AddRecord(db1, session.id, student.value.id, status, remarks, MarkedBy(markedById, session), newId);
    r, db' := Ok(added.0), added.1;
  }

  /**
   * A failed mark changes nothing: the course is looked up first, then
   * the student, then the date is read, and no session is created before
   * all three succeed.
   */
  lemma MarkErrors(db: Db, courseCode: string, studentId: string, status: string, date: Option<string>,
                   remarks: Option<string>, markedById: Option<string>,
                   now: DateTime, fromIso: string -> Option<DateTime>, newId: nat -> string)
    ensures var (r, db') := Mark(db, courseCode, studentId, status, date, remarks, markedById, now, fromIso, newId);
      (r.Err? ==> db' == db) &&
      (CourseByCode(db, courseCode).None? ==> r == Err(CourseNotFound(courseCode))) &&
      (CourseByCode(db, courseCode).Some? && StudentByCode(db, studentId).None? ==> r == Err(StudentNotFound(studentId))) &&
      (CourseByCode(db, courseCode).Some? && StudentByCode(db, studentId).Some? && ClassDate(date, now, fromIso).Err? ==>
         r == Err(Failed("mark attendance", ClassDate(date, now, fromIso).error)))
  {
  }

  /**
   * A successful mark appends one row for the student's internal id with
   * the given status and remarks, in a stored session of the course on the
   * class's day, marked by the marker or else the session's teacher; at
   * most one session is added and no other table changes.
   */
  lemma MarkSuccess(db: Db, courseCode: string, studentId: string, status: string, date: Option<string>,
                    remarks: Option<string>, markedById: Option<string>,
                    now: DateTime, fromIso: string -> Option<DateTime>, newId: nat -> string)
    requires Mark(db, courseCode, studentId, status, date, remarks, markedById, now, fromIso, newId).0.Ok?
    ensures var (r, db') := Mark(db, courseCode, studentId, status, date, remarks, markedById, now, fromIso, newId);
      CourseByCode(db, courseCode).Some? && StudentByCode(db, studentId).Some? && ClassDate(date, now, fromIso).Ok? &&
      db'.attendance == db.attendance + [r.value] &&
      r.value.studentId == StudentByCode(db, studentId).value.id && r.value.status == status && r.value.remarks == remarks &&
      (exists s :: s in db'.sessions && s.id == r.value.sessionId &&
                   s.courseId == CourseByCode(db, courseCode).value.id &&
                   s.date.date == ClassDate(date, now, fromIso).value.date &&
                   r.value.markedById == MarkedBy(markedById, s)) &&
      (db'.sessions == db.sessions || (exists s :: db'.sessions == db.sessions + [s])) &&
      db'.serial <= db.serial + 2 &&
      db'.users == db.users && db'.students == db.students && db'.courses == db.courses && db'.enrollments == db.enrollments
  {
    var c := CourseByCode(db, courseCode).value;
    var d := ClassDate(date, now, fromIso).value;
    SessionForFacts(db, c, d, markedById, newId);
    var (session, db1) := SessionFor(db, c, d, markedById, newId);
    assert session in db1.sessions;
  }

  // ------------------------------------------------------------ bulk: student id resolution

  /** One entry of `student_attendance_list`. */
  datatype MarkItem = MarkItem(studentId: string, status: string, remarks: Option<string>)

  /**
   * The cache `student_id_map` after the items: an id already in the cache
   * is not looked up; an unknown id is skipped.  `find` is the lookup of an
   * internal id by roll number.
   */
  function Cache(find: string -> Option<string>, items: seq<MarkItem>): map<string, string>
    decreases |items|
  {
    if items == [] then map[]
    else
      var m := Cache(find, items[..|items| - 1]);
      var k := items[|items| - 1].studentId;
      if k in m then m
      else match find(k) case Some(id) => m[k := id] case None => m
  }

  /** The roll numbers the resolution loop looks up, in order. */
  function Queried(find: string -> Option<string>, items: seq<MarkItem>): seq<string>
    decreases |items|
  {
    if items == [] then []
    else
      var k := items[|items| - 1].studentId;
      Queried(find, items[..|items| - 1]) + if k in Cache(find, items[..|items| - 1]) then [] else [k]
  }

  /** The resolution loop of `bulk_mark_student_attendance`. */
  method ResolveIds(find: string -> Option<string>, items: seq<MarkItem>) returns (cache: map<string, string>, queried: seq<string>)
    ensures cache == Cache(find, items) && queried == Queried(find, items)
  {
    cache, queried := map[], [];
    for i := 0 to |items|
      invariant cache == Cache(find, items[..i]) && queried == Queried(find, items[..i])
    {
      assert items[..i + 1][..i] == items[..i];
      var k := items[i].studentId;
      if k !in cache {
        queried := queried + [k];
        var id := find(k);
        if id.None? {
          continue;
        }
        cache := cache[k := id.value];
      }
    }
    assert items[..|items|] == items;
  }

  /** The cache holds exactly the ids that occur and resolve, each with the id the lookup gives. */
  lemma {:induction false} CacheContents(find: string -> Option<string>, items: seq<MarkItem>, k: string)
    ensures k in Cache(find, items) <==> (exists i :: 0 <= i < |items| && items[i].studentId == k) && find(k).Some?
    ensures k in Cache(find, items) ==> Cache(find, items)[k] == find(k).value
    decreases |items|
  {
    if items != [] {
      var pre := items[..|items| - 1];
      CacheContents(find, pre, k);
      forall i | 0 <= i < |pre| ensures pre[i] == items[i] { }
      if k in Cache(find, items) && k !in Cache(find, pre) {
        assert items[|items| - 1].studentId == k;
      }
      if (exists i :: 0 <= i < |items| && items[i].studentId == k) && find(k).Some? && k !in Cache(find, pre) {
        var i :| 0 <= i < |items| && items[i].studentId == k;
        if i < |pre| { assert pre[i].studentId == k; }
      }
    }
  }

  function Is(k: string): string -> bool { (x: string) => x == k }

  function HasId(k: string): MarkItem -> bool { (it: MarkItem) => it.studentId == k }

  /** How often the loop looks an id up, by what the cache holds at the end. */
  lemma {:induction false} QueriedCount(find: string -> Option<string>, items: seq<MarkItem>, k: string)
    ensures Seqs.Count(Queried(find, items), Is(k)) ==
            if k in Cache(find, items) then 1 else if find(k).None? then Seqs.Count(items, HasId(k)) else 0
    decreases |items|
  {
    if items == [] {
      assert Seqs.Filter([], Is(k)) == [];
      assert Seqs.Filter([], HasId(k)) == [];
    } else {
      var pre := items[..|items| - 1];
      var last := items[|items| - 1];
      var m := Cache(find, pre);
      QueriedCount(find, pre, k);
      QueriedStep(find, items, k);
      assert items == pre + [last];
      Seqs.CountSnoc(pre, last, HasId(k));
      if last.studentId in m {
        assert Cache(find, items) == m;
      } else if last.studentId != k {
        assert k in Cache(find, items) <==> k in m;
      }
    }
  }

  /** The last item adds a lookup of `k` exactly when it is `k` and the cache does not hold it yet. */
  lemma QueriedStep(find: string -> Option<string>, items: seq<MarkItem>, k: string)
    requires items != []
    ensures var pre, last := items[..|items| - 1], items[|items| - 1];
      Seqs.Count(Queried(find, items), Is(k)) ==
      Seqs.Count(Queried(find, pre), Is(k)) + if last.studentId !in Cache(find, pre) && last.studentId == k then 1 else 0
  {
    var pre, last := items[..|items| - 1], items[|items| - 1];
    var added := if last.studentId in Cache(find, pre) then [] else [last.studentId];
    assert Queried(find, items) == Queried(find, pre) + added;
    Seqs.FilterAppend(Queried(find, pre), added, Is(k));
    if added == [] || last.studentId != k {
      assert Seqs.Filter(added, Is(k)) == [];
    } else {
      assert Seqs.Filter(added, Is(k)) == [k];
    }
  }

  /**
   * A resolved id is looked up once however often it occurs, and an
   * unknown id is looked up every time it occurs.
   */
  lemma QueriedCounts(find: string -> Option<string>, items: seq<MarkItem>, k: string)
    ensures find(k).Some? && (exists i :: 0 <= i < |items| && items[i].studentId == k) ==> Seqs.Count(Queried(find, items), Is(k)) == 1
    ensures find(k).Some? && (forall i :: 0 <= i < |items| ==> items[i].studentId != k) ==> Seqs.Count(Queried(find, items), Is(k)) == 0
    ensures find(k).None? ==> Seqs.Count(Queried(find, items), Is(k)) == Seqs.Count(items, HasId(k))
  {
    QueriedCount(find, items, k);
    CacheContents(find, items, k);
  }

  // ------------------------------------------------------------ bulk: the attendance list

  /** `StudentAttendanceCreate(sessionId, studentId, status, remarks)` */
  datatype AttendanceCreate = AttendanceCreate(sessionId: string, studentId: string, status: string, remarks: Option<string>)

  function Resolved(cache: map<string, string>): MarkItem -> bool { (it: MarkItem) => it.studentId in cache }

  function Create(cache: map<string, string>, sessionId: string, it: MarkItem): AttendanceCreate
    requires it.studentId in cache
  {
    AttendanceCreate(sessionId, cache[it.studentId], it.status, it.remarks)
  }

  /** The rows to mark: every item whose id resolved, duplicates included, in input order. */
  function Entries(cache: map<string, string>, sessionId: string, items: seq<MarkItem>): (r: seq<AttendanceCreate>)
    ensures var kept := Seqs.Filter(items, Resolved(cache));
      |r| == |kept| && forall j :: 0 <= j < |kept| ==> r[j] == Create(cache, sessionId, kept[j])
  {
    var kept := Seqs.Filter(items, Resolved(cache));
    seq(|kept|, j requires 0 <= j < |kept| => Create(cache, sessionId, kept[j]))
  }

  /** Visiting one more item appends its row exactly when its id resolved. */
  lemma EntriesSnoc(cache: map<string, string>, sessionId: string, items: seq<MarkItem>, i: nat)
    requires i < |items|
    ensures Entries(cache, sessionId, items[..i + 1]) ==
      Entries(cache, sessionId, items[..i]) +
      (if items[i].studentId in cache then [Create(cache, sessionId, items[i])] else [])
  {
    Seqs.FilterSnoc(items, i, Resolved(cache));
    var a := Entries(cache, sessionId, items[..i + 1]);
    var b := Entries(cache, sessionId, items[..i]) +
      (if items[i].studentId in cache then [Create(cache, sessionId, items[i])] else []);
    assert |a| == |b|;
    forall j | 0 <= j < |a| ensures a[j] == b[j] { }
  }

  /** The list-building loop of `bulk_mark_student_attendance`. */
  method BuildEntries(cache: map<string, string>, sessionId: string, items: seq<MarkItem>) returns (list: seq<AttendanceCreate>)
    ensures list == Entries(cache, sessionId, items)
  {
    list := [];
    for i := 0 to |items|
      invariant list == Entries(cache, sessionId, items[..i])
    {
      EntriesSnoc(cache, sessionId, items, i);
      if items[i].studentId in cache {
        list := list + [Create(cache, sessionId, items[i])];
      }
    }
    assert items[..|items|] == items;
  }

  /** The service's `bulk_mark_attendance`: one `mark_attendance` per entry, in order. */
  function AddRecords(db: Db, list: seq<AttendanceCreate>, markedBy: Option<string>, newId: nat -> string)
    : (r: (seq<StudentAttendance>, Db))
    ensures |r.0| == |list|
    ensures r.1.attendance == db.attendance + r.0 && r.1.serial == db.serial + |list|
    ensures r.1 == db.(attendance := r.1.attendance, serial := r.1.serial)
    ensures forall j :: 0 <= j < |list| ==>
      r.0[j] == StudentAttendance(newId(db.serial + j), list[j].sessionId, list[j].studentId, list[j].status, list[j].remarks, markedBy)
    decreases |list|
  {
    if list == [] then ([], db)
    else
      var (rec, db1) := AddRecord(db, list[0].sessionId, list[0].studentId, list[0].status, list[0].remarks, markedBy, newId);
      var (recs, db2) := AddRecords(db1, list[1..], markedBy, newId);
      ([rec] + recs, db2)
  }

  // ------------------------------------------------------------ bulk_mark_student_attendance

  datatype BulkAnswer = BulkAnswer(message: string, sessionId: string, records: seq<StudentAttendance>)

  /** The lookup of a student's internal id by roll number. */
  function InternalId(db: Db): string -> Option<string> {
    (k: string) => match StudentByCode(db, k) case Some(s) => Some(s.id) case None => None
  }

  /** What `bulk_mark_student_attendance` answers and leaves in the database. */
  function Bulk(db: Db, courseCode: string, items: seq<MarkItem>, date: Option<string>, markedById: Option<string>,
                now: DateTime, fromIso: string -> Option<DateTime>, newId: nat -> string): (Result<BulkAnswer, ToolError>, Db) {
    match CourseByCode(db, courseCode)
    case None => (Err(CourseNotFound(courseCode)), db)
    case Some(c) =>
      match ClassDate(date, now, fromIso)
      case Err(e) => (Err(Failed("bulk mark attendance", e)), db)
      case Ok(d) =>
        var (session, db1) := SessionFor(db, c, d, markedById, newId);
        var list := Entries(Cache(InternalId(db), items), session.id, items);
        var (recs, db2) := AddRecords(db1, list, MarkedBy(markedById, session), newId);
        (Ok(BulkAnswer("Successfully marked attendance for " + NatToString(|recs|) + " students", session.id, recs)), db2)
  }

  /** `bulk_mark_student_attendance` */
  method BulkMarkStudentAttendance(db: Db, courseCode: string, items: seq<MarkItem>, date: Option<string>,
                                   markedById: Option<string>, now: DateTime, fromIso: string -> Option<DateTime>,
                                   newId: nat -> string)
    returns (r: Result<BulkAnswer, ToolError>, db': Db)
    ensures (r, db') == Bulk(db, courseCode, items, date, markedById, now, fromIso, newId)
  {
    var course := CourseByCode(db, courseCode);
    if course.None? {
      return Err(CourseNotFound(courseCode)), db;
    }
    var d := ClassDate(date, now, fromIso);
    if d.Err? {
      return Err(Failed("bulk mark attendance", d.error)), db;
    }
    var session, db1 := FindOrCreateSession(db, course.value, d.value, markedById, newId);
    var cache, _ := ResolveIds(InternalId(db), items);
    var list := BuildEntries(cache, session.id, items);
    var added := AddRecords(db1, list, MarkedBy(markedById, session), newId);
    var recs := added.0;
    db' := added.1;
    r := Ok(BulkAnswer("Successfully marked attendance for " + NatToString(|recs|) + " students", session.id, recs));
  }

  function Found(find: string -> Option<string>): MarkItem -> bool { (it: MarkItem) => find(it.studentId).Some? }

  /** The rows built from the cache: one per item whose id resolves, in order, with the id the lookup gives. */
  lemma EntriesOfCache(find: string -> Option<string>, sessionId: string, items: seq<MarkItem>)
    ensures var kept := Seqs.Filter(items, Found(find));
      var list := Entries(Cache(find, items), sessionId, items);
      |list| == |kept| &&
      forall j :: 0 <= j < |kept| ==> list[j] == AttendanceCreate(sessionId, find(kept[j].studentId).value, kept[j].status, kept[j].remarks)
  {
    var cache := Cache(find, items);
    forall i | 0 <= i < |items| ensures Resolved(cache)(items[i]) == Found(find)(items[i]) {
      CacheContents(find, items, items[i].studentId);
    }
    Seqs.FilterAgree(items, Resolved(cache), Found(find));
    var kept := Seqs.Filter(items, Found(find));
    forall j | 0 <= j < |kept| ensures cache[kept[j].studentId] == find(kept[j].studentId).value {
      var i :| 0 <= i < |items| && items[i] == kept[j];
      CacheContents(find, items, kept[j].studentId);
    }
  }

  /** The items whose roll number names a student. */
  function Known(db: Db): MarkItem -> bool { (it: MarkItem) => StudentByCode(db, it.studentId).Some? }

  /**
   * A successful bulk mark stores one row per item whose roll number
   * resolves, in input order and duplicates included, each with the
   * student's internal id and the item's status and remarks; items that
   * do not resolve are skipped without error, and the count reported is
   * the number of rows returned.
   */
  lemma BulkSuccess(db: Db, courseCode: string, items: seq<MarkItem>, date: Option<string>, markedById: Option<string>,
                    now: DateTime, fromIso: string -> Option<DateTime>, newId: nat -> string)
    requires Bulk(db, courseCode, items, date, markedById, now, fromIso, newId).0.Ok?
    ensures var (r, db') := Bulk(db, courseCode, items, date, markedById, now, fromIso, newId);
      var kept := Seqs.Filter(items, Known(db));
      |r.value.records| == |kept| &&
      r.value.message == "Successfully marked attendance for " + NatToString(|kept|) + " students" &&
      (forall j :: 0 <= j < |kept| ==>
         r.value.records[j].studentId == StudentByCode(db, kept[j].studentId).value.id &&
         r.value.records[j].status == kept[j].status && r.value.records[j].remarks == kept[j].remarks &&
         r.value.records[j].sessionId == r.value.sessionId) &&
      db'.attendance == db.attendance + r.value.records
  {
    var c := CourseByCode(db, courseCode).value;
    var d := ClassDate(date, now, fromIso).value;
    var (session, db1) := SessionFor(db, c, d, markedById, newId);
    var list := Entries(Cache(InternalId(db), items), session.id, items);
    var (recs, db2) := AddRecords(db1, list, MarkedBy(markedById, session), newId);
    assert Bulk(db, courseCode, items, date, markedById, now, fromIso, newId) ==
      (Ok(BulkAnswer("Successfully marked attendance for " + NatToString(|recs|) + " students", session.id, recs)), db2);
    assert db1.attendance == db.attendance;
    EntriesOfCache(InternalId(db), session.id, items);
    forall i | 0 <= i < |items| ensures Found(InternalId(db))(items[i]) == Known(db)(items[i]) { }
    Seqs.FilterAgree(items, Found(InternalId(db)), Known(db));
  }

  /** A bulk mark that fails changes nothing. */
  lemma BulkErrors(db: Db, courseCode: string, items: seq<MarkItem>, date: Option<string>, markedById: Option<string>,
                   now: DateTime, fromIso: string -> Option<DateTime>, newId: nat -> string)
    ensures var (r, db') := Bulk(db, courseCode, items, date, markedById, now, fromIso, newId);
      (r.Err? ==> db' == db) &&
      (CourseByCode(db, courseCode).None? ==> r == Err(CourseNotFound(courseCode))) &&
      (CourseByCode(db, courseCode).Some? && ClassDate(date, now, fromIso).Err? ==>
         r == Err(Failed("bulk mark attendance", ClassDate(date, now, fromIso).error)))
  {
  }

  // ------------------------------------------------------------ get_student_attendance_records

  /** The service's `get_student_attendance(student.id, course id)`: the rows, or the text of what it raises. */
  type AttendanceQuery = (string, Option<string>) -> Result<seq<StudentAttendance>, string>

  /** The internal id of the course filter, when a course code is given and names a course. */
  function CourseFilter(db: Db, courseCode: Option<string>): Option<string> {
    if Truthy(courseCode) && CourseByCode(db, courseCode.value).Some? then Some(CourseByCode(db, courseCode.value).value.id) else None
  }

  /** `get_student_attendance_records` */
  function GetStudentAttendanceRecords(db: Db, studentId: string, courseCode: Option<string>, fetch: AttendanceQuery)
    : (r: Result<seq<StudentAttendance>, ToolError>)
    ensures StudentByCode(db, studentId).None? ==> r == Err(StudentNotFound(studentId))
    ensures StudentByCode(db, studentId).Some? && Truthy(courseCode) && CourseByCode(db, courseCode.value).None? ==>
      r == Err(CourseNotFound(courseCode.value))
    ensures r.Ok? ==> StudentByCode(db, studentId).Some?
    ensures r.Ok? ==> fetch(StudentByCode(db, studentId).value.id, CourseFilter(db, courseCode)) == Ok(r.value)
    ensures r.Err? && r.error.Failed? ==> r.error.action == "get student attendance"
    ensures r.Err? && r.error.Failed? ==> StudentByCode(db, studentId).Some? && (!Truthy(courseCode) || CourseByCode(db, courseCode.value).Some?)
  {
    match StudentByCode(db, studentId)
    case None => Err(StudentNotFound(studentId))
    case Some(s) =>
      if Truthy(courseCode) && CourseByCode(db, courseCode.value).None? then Err(CourseNotFound(courseCode.value))
      else
        match fetch(s.id, CourseFilter(db, courseCode))
        case Ok(records) => Ok(records)
        case Err(e) => Err(Failed("get student attendance", e))
  }
}
