/**
 * The teacher's attendance page: the roster of the selected course with a
 * present/absent mark per student, saving a day's marks as a class session
 * with one attendance record per student, and the attendance history
 * grouped by day and course.
 */
module TeacherAttendancePage {
  import opened Wrappers
  import Seqs
  import opened AttendanceStats

  datatype Student = Student(id: string, name: string)

  function Ids(students: seq<Student>): set<string> {
    set i | 0 <= i < |students| :: students[i].id
  }

  predicate DistinctIds(students: seq<Student>) {
    forall i, j :: 0 <= i < j < |students| ==> students[i].id != students[j].id
  }

  lemma IdsSnoc(students: seq<Student>, i: nat)
    requires i < |students|
    ensures Ids(students[..i + 1]) == Ids(students[..i]) + {students[i].id}
  {
    var a, b := students[..i + 1], students[..i];
    forall id | id in Ids(a) ensures id in Ids(b) + {students[i].id} {
      var k :| 0 <= k < |a| && a[k].id == id;
      if k < i { assert b[k] == a[k]; }
    }
    forall id | id in Ids(b) ensures id in Ids(a) {
      var k :| 0 <= k < |b| && b[k].id == id;
      assert a[k] == b[k];
    }
    assert a[i] == students[i];
  }

  // ---------------------------------------------------------------- marks

  /** The marks after the roster loads: every loaded student present. */
  method InitialAttendance(students: seq<Student>) returns (m: map<string, bool>)
    ensures m.Keys == Ids(students)
    ensures forall id :: id in m ==> m[id]
  {
    m := map[];
    for i := 0 to |students|
      invariant m.Keys == Ids(students[..i])
      invariant forall id :: id in m ==> m[id]
    {
      IdsSnoc(students, i);
      m := m[students[i].id := true];
    }
    assert students[..|students|] == students;
  }

  /** A student is marked present when the marks hold `true` for them; a missing mark reads as absent. */
  predicate Checked(m: map<string, bool>, id: string) { id in m && m[id] }

  /** `toggleAttendance(studentId)` */
  function Toggle(m: map<string, bool>, id: string): (r: map<string, bool>)
    ensures r.Keys == m.Keys + {id}
    ensures Checked(r, id) <==> !Checked(m, id)
    ensures forall k :: k != id ==> (Checked(r, k) <==> Checked(m, k))
  {
    m[id := !Checked(m, id)]
  }

  /** Toggling a marked student twice restores the marks. */
  lemma ToggleTwice(m: map<string, bool>, id: string)
    requires id in m
    ensures Toggle(Toggle(m, id), id) == m
  {
  }

  /** Object.values(attendance).filter(Boolean).length */
  function PresentCount(m: map<string, bool>): nat {
    |set k | k in m && m[k]|
  }

  // ---------------------------------------------------------------- payload

  datatype Entry = Entry(sessionId: string, studentId: string, status: string)

  /** The bulk payload: one entry per roster student, in roster order. */
  function Payload(students: seq<Student>, m: map<string, bool>, sessionId: string): (p: seq<Entry>)
    ensures |p| == |students|
    ensures forall i :: 0 <= i < |students| ==>
      p[i].sessionId == sessionId && p[i].studentId == students[i].id && p[i].status in {"PRESENT", "ABSENT"}
    ensures forall i :: 0 <= i < |students| ==> (p[i].status == "PRESENT" <==> Checked(m, students[i].id))
  {
    seq(|students|, i requires 0 <= i < |students| =>
      Entry(sessionId, students[i].id, if Checked(m, students[i].id) then "PRESENT" else "ABSENT"))
  }

  function IsPresentEntry(): Entry -> bool { (e: Entry) => e.status == "PRESENT" }

  function CheckedIds(students: seq<Student>, m: map<string, bool>): set<string> {
    set i | 0 <= i < |students| && Checked(m, students[i].id) :: students[i].id
  }

  lemma CheckedIdsCons(students: seq<Student>, m: map<string, bool>)
    requires students != [] && DistinctIds(students)
    ensures CheckedIds(students, m) ==
      (if Checked(m, students[0].id) then {students[0].id} else {}) + CheckedIds(students[1..], m)
    ensures students[0].id !in CheckedIds(students[1..], m)
  {
    var rest := students[1..];
    forall id | id in CheckedIds(students, m)
      ensures id in (if Checked(m, students[0].id) then {students[0].id} else {}) + CheckedIds(rest, m)
    {
      var k :| 0 <= k < |students| && Checked(m, students[k].id) && students[k].id == id;
      if k > 0 { assert rest[k - 1] == students[k]; }
    }
    forall id | id in CheckedIds(rest, m) ensures id in CheckedIds(students, m) {
      var k :| 0 <= k < |rest| && Checked(m, rest[k].id) && rest[k].id == id;
      assert students[k + 1] == rest[k];
    }
    forall k | 0 <= k < |rest| ensures rest[k].id != students[0].id {
      assert rest[k] == students[k + 1];
    }
  }

  lemma {:induction false} CheckedIdsCount(students: seq<Student>, m: map<string, bool>, sessionId: string)
    requires DistinctIds(students)
    ensures |CheckedIds(students, m)| == Seqs.Count(Payload(students, m, sessionId), IsPresentEntry())
    decreases |students|
  {
    if students != [] {
      var rest := students[1..];
      CheckedIdsCount(rest, m, sessionId);
      var p := Payload(students, m, sessionId);
      assert p[1..] == Payload(rest, m, sessionId);
      assert IsPresentEntry()(p[0]) <==> Checked(m, students[0].id);
      assert Seqs.Count(p, IsPresentEntry()) ==
        (if IsPresentEntry()(p[0]) then 1 else 0) + Seqs.Count(p[1..], IsPresentEntry());
      CheckedIdsCons(students, m);
    }
  }

  /**
   * With marks for exactly the roster's students, all different, the
   * count shown after saving is the number of PRESENT entries sent, so the
   * absent figure `students.length - presentCount` is never negative.
   */
  lemma PresentCountMatchesPayload(students: seq<Student>, m: map<string, bool>, sessionId: string)
    requires DistinctIds(students) && m.Keys == Ids(students)
    ensures PresentCount(m) == Seqs.Count(Payload(students, m, sessionId), IsPresentEntry())
    ensures PresentCount(m) <= |students|
  {
    assert (set k | k in m && m[k]) == CheckedIds(students, m);
    CheckedIdsCount(students, m, sessionId);
  }

  /** A roster nobody has unticked is sent all PRESENT. */
  lemma FreshRosterAllPresent(students: seq<Student>, m: map<string, bool>, sessionId: string)
    requires m.Keys == Ids(students) && forall id :: id in m ==> m[id]
    ensures forall i :: 0 <= i < |students| ==> Payload(students, m, sessionId)[i].status == "PRESENT"
  {
    forall i | 0 <= i < |students| ensures Checked(m, students[i].id) {
      assert students[i].id in Ids(students);
    }
  }

  // ---------------------------------------------------------------- saving

  const DayNames := ["SUNDAY", "MONDAY", "TUESDAY", "WEDNESDAY", "THURSDAY", "FRIDAY", "SATURDAY"]

  datatype Schedule = Schedule(id: string, dayOfWeek: string, startTime: string, endTime: string, room: string, isActive: bool)
  datatype Course = Course(id: string, courseName: string)

  datatype SessionData = SessionData(
    courseId: string, teacherId: string, scheduleId: string, date: string,
    startTime: string, endTime: string, room: string, status: string, topic: string)

  /** A failed request: the `detail` of its response, if it had one. */
  type Failure = Option<string>

  /** The three requests saving needs; a `None` is an operation the attendance service does not have. */
  datatype AttendanceApi = AttendanceApi(
    getCourseSchedules: Option<string -> Result<seq<Schedule>, Failure>>,
    createClassSession: Option<SessionData -> Result<string, Failure>>,
    markBulkAttendance: Option<seq<Entry> -> Result<(), Failure>>)

  /** The page state saving reads and resets. */
  datatype Form = Form(selectedCourse: string, students: seq<Student>, attendance: map<string, bool>)

  datatype SaveOutcome =
    | Refused(message: string)
    | NoClassToday(day: string)
    | Failed(description: string)
    | Saved(schedule: Schedule, session: SessionData, payload: seq<Entry>, presentCount: nat)

  const RefusedMessage := "Please select a course and ensure students are loaded"
  const DefaultFailure := "Please try again later"

  function Description(e: Failure): string {
    if e.Some? && e.value != "" then e.value else DefaultFailure
  }

  function TodaysSchedule(schedules: seq<Schedule>, day: string): (r: Option<Schedule>)
    ensures r.Some? ==> r.value in schedules && r.value.dayOfWeek == day && r.value.isActive
    ensures r.None? <==> forall s :: s in schedules ==> !(s.dayOfWeek == day && s.isActive)
  {
    Seqs.FirstWhere(schedules, (s: Schedule) => s.dayOfWeek == day && s.isActive)
  }

  function Topic(courses: seq<Course>, courseId: string): string {
    var c := Seqs.FirstWhere(courses, (c: Course) => c.id == courseId);
    if c.Some? && c.value.courseName != "" then c.value.courseName else "Class Session"
  }

  function NewSession(courseId: string, teacherId: string, s: Schedule, today: string, now: string, topic: string): SessionData {
    SessionData(courseId, teacherId, s.id, now, today + "T" + s.startTime, today + "T" + s.endTime, s.room, "CONDUCTED", topic)
  }

  /**
   * `handleSaveAttendance`, given the weekday `getDay()`, today's date
   * `YYYY-MM-DD` and the current instant: the outcome and the page state
   * after it.
   */
  function SaveAttendance(form: Form, teacherId: string, weekday: nat, today: string, now: string,
                          courses: seq<Course>, api: AttendanceApi): (r: (SaveOutcome, Form))
    requires weekday < 7
    ensures r.0.Refused? <==> form.selectedCourse == "" || teacherId == "" || form.students == []
    ensures r.0.Refused? ==> r.0.message == RefusedMessage
    ensures r.0.NoClassToday? ==> r.0.day == DayNames[weekday]
    ensures !r.0.Refused? && api.getCourseSchedules.None? ==> r.0 == Failed(DefaultFailure)
    ensures r.0.Saved? ==>
      r.0.schedule.dayOfWeek == DayNames[weekday] && r.0.schedule.isActive &&
      r.0.session == NewSession(form.selectedCourse, teacherId, r.0.schedule, today, now,
        Topic(courses, form.selectedCourse)) &&
      |r.0.payload| == |form.students| &&
      (forall i :: 0 <= i < |form.students| ==>
        (r.0.payload[i].studentId == form.students[i].id &&
         (r.0.payload[i].status == "PRESENT" <==> Checked(form.attendance, form.students[i].id)))) &&
      r.0.presentCount == PresentCount(form.attendance)
    ensures r.0.Saved? ==> r.1 == Form("", [], map[])
    ensures !r.0.Saved? ==> r.1 == form
  {
    if form.selectedCourse == "" || teacherId == "" || form.students == [] then (Refused(RefusedMessage), form)
    else if api.getCourseSchedules.None? then (Failed(DefaultFailure), form)
    else
      match api.getCourseSchedules.value(form.selectedCourse)
      case Err(e) => (Failed(Description(e)), form)
      case Ok(schedules) =>
        var day := DayNames[weekday];
        match TodaysSchedule(schedules, day)
        case None => (NoClassToday(day), form)
        case Some(s) =>
          var data := NewSession(form.selectedCourse, teacherId, s, today, now, Topic(courses, form.selectedCourse));
          if api.createClassSession.None? then (Failed(DefaultFailure), form)
          else
            match api.createClassSession.value(data)
            case Err(e) => (Failed(Description(e)), form)
            case Ok(sessionId) =>
              var payload := Payload(form.students, form.attendance, sessionId);
              if api.markBulkAttendance.None? then (Failed(DefaultFailure), form)
              else
                match api.markBulkAttendance.value(payload)
                case Err(e) => (Failed(Description(e)), form)
                case Ok(_) => (Saved(s, data, payload, PresentCount(form.attendance)), Form("", [], map[]))
  }

  /** When no active schedule falls on today's weekday, nothing is created and the page keeps its state. */
  lemma NoScheduleNoSession(form: Form, teacherId: string, weekday: nat, today: string, now: string,
                            courses: seq<Course>, api: AttendanceApi, schedules: seq<Schedule>)
    requires weekday < 7
    requires form.selectedCourse != "" && teacherId != "" && form.students != []
    requires api.getCourseSchedules.Some? && api.getCourseSchedules.value(form.selectedCourse) == Ok(schedules)
    requires forall s :: s in schedules ==> !(s.dayOfWeek == DayNames[weekday] && s.isActive)
    ensures SaveAttendance(form, teacherId, weekday, today, now, courses, api) == (NoClassToday(DayNames[weekday]), form)
  {
  }

  /** The attendance service the page ships with: it has none of the three requests saving makes. */
  const ShippedApi := AttendanceApi(None, None, None)

  /** With the shipped service, saving is refused or fails with the default message: no session is ever created. */
  lemma SaveWithShippedServiceFails(form: Form, teacherId: string, weekday: nat, today: string, now: string, courses: seq<Course>)
    requires weekday < 7
    ensures var r := SaveAttendance(form, teacherId, weekday, today, now, courses, ShippedApi);
      r.0 == Refused(RefusedMessage) || r.0 == Failed(DefaultFailure)
  {
  }

  /**
   * With a service that answers all three requests, a filled form and an
   * active class today, saving records today's class and sends every
   * roster student's mark.
   */
  lemma SaveWithCompleteServiceSaves(form: Form, teacherId: string, weekday: nat, today: string, now: string,
                                     courses: seq<Course>, api: AttendanceApi, schedules: seq<Schedule>, sessionId: string)
    requires weekday < 7
    requires form.selectedCourse != "" && teacherId != "" && form.students != []
    requires api.getCourseSchedules.Some? && api.getCourseSchedules.value(form.selectedCourse) == Ok(schedules)
    requires exists s :: s in schedules && s.dayOfWeek == DayNames[weekday] && s.isActive
    requires api.createClassSession.Some? && forall d :: api.createClassSession.value(d) == Ok(sessionId)
    requires api.markBulkAttendance.Some? && forall p :: api.markBulkAttendance.value(p) == Ok(())
    ensures var r := SaveAttendance(form, teacherId, weekday, today, now, courses, api);
      r.0.Saved? && r.0.payload == Payload(form.students, form.attendance, sessionId) && r.1 == Form("", [], map[])
  {
    var s :| s in schedules && s.dayOfWeek == DayNames[weekday] && s.isActive;
    assert TodaysSchedule(schedules, DayNames[weekday]).Some?;
  }

  // ---------------------------------------------------------------- history

  /** A record as the history reads it: the date of its session, if known, and its marking time. */
  datatype HistoryRecord = HistoryRecord(
    sessionDate: Option<string>, markedAt: string, courseId: string, courseName: Option<string>, status: string)

  /** `new Date(s).toISOString().split("T")[0]`: the calendar day of a timestamp. */
  type DayOf = string -> string

  function Day(r: HistoryRecord, day: DayOf): string {
    day(if r.sessionDate.Some? && r.sessionDate.value != "" then r.sessionDate.value else r.markedAt)
  }

  /** The history's grouping key, `${sessionDate}-${courseId}`. */
  function Key(r: HistoryRecord, day: DayOf): string { Day(r, day) + "-" + r.courseId }

  /** Days written at one length (as `YYYY-MM-DD` always is) make the key tell apart every day and course. */
  lemma KeySeparatesDayAndCourse(a: HistoryRecord, b: HistoryRecord, day: DayOf)
    requires |Day(a, day)| == |Day(b, day)|
    ensures Key(a, day) == Key(b, day) <==> Day(a, day) == Day(b, day) && a.courseId == b.courseId
  {
    var n := |Day(a, day)|;
    if Key(a, day) == Key(b, day) {
      assert Key(a, day)[..n] == Day(a, day) && Key(b, day)[..n] == Day(b, day);
      assert Key(a, day)[n + 1..] == a.courseId && Key(b, day)[n + 1..] == b.courseId;
    }
  }

  function KeyIs(day: DayOf, k: string): HistoryRecord -> bool { (r: HistoryRecord) => Key(r, day) == k }
  function HasStatus(s: string): HistoryRecord -> bool { (r: HistoryRecord) => r.status == s }

  function Keys(rs: seq<HistoryRecord>, day: DayOf): (r: seq<string>)
    ensures |r| == |rs| && forall i :: 0 <= i < |rs| ==> r[i] == Key(rs[i], day)
  {
    seq(|rs|, i requires 0 <= i < |rs| => Key(rs[i], day))
  }

  datatype SessionStats = SessionStats(
    date: string, courseId: string, courseName: string, present: nat, absent: nat, late: nat, total: nat)

  /** The entry a key's first record creates. */
  function Fresh(r: HistoryRecord, day: DayOf): SessionStats {
    SessionStats(Day(r, day), r.courseId,
      if r.courseName.Some? && r.courseName.value != "" then r.courseName.value else "Unknown", 0, 0, 0, 0)
  }

  /** One record's effect on its entry: always counted, and PRESENT, ABSENT or LATE counted as such. */
  function Bump(s: SessionStats, status: string): SessionStats {
    var s := s.(total := s.total + 1);
    if status == "PRESENT" then s.(present := s.present + 1)
    else if status == "ABSENT" then s.(absent := s.absent + 1)
    else if status == "LATE" then s.(late := s.late + 1)
    else s
  }

  /** An entry after the given records, taken in order. */
  function Bumps(s: SessionStats, rs: seq<HistoryRecord>): SessionStats
    decreases |rs|
  {
    if rs == [] then s else Bump(Bumps(s, rs[..|rs| - 1]), rs[|rs| - 1].status)
  }

  /** The map the `forEach` fills. */
  function History(rs: seq<HistoryRecord>, day: DayOf): map<string, SessionStats>
    decreases |rs|
  {
    if rs == [] then map[]
    else
      var g := History(rs[..|rs| - 1], day);
      var last := rs[|rs| - 1];
      var k := Key(last, day);
      g[k := Bump(if k in g then g[k] else Fresh(last, day), last.status)]
  }

  lemma FilterSnocKey(rs: seq<HistoryRecord>, r: HistoryRecord, day: DayOf, k: string)
    ensures Seqs.Filter(rs + [r], KeyIs(day, k)) ==
      if Key(r, day) == k then Seqs.Filter(rs, KeyIs(day, k)) + [r] else Seqs.Filter(rs, KeyIs(day, k))
  {
    Seqs.FilterAppend(rs, [r], KeyIs(day, k));
    if Key(r, day) == k {
      assert Seqs.Filter([r], KeyIs(day, k)) == [r];
    } else {
      assert Seqs.Filter([r], KeyIs(day, k)) == [];
      assert Seqs.Filter(rs, KeyIs(day, k)) + [] == Seqs.Filter(rs, KeyIs(day, k));
    }
  }

  lemma BumpsSnoc(s: SessionStats, rs: seq<HistoryRecord>, r: HistoryRecord)
    ensures Bumps(s, rs + [r]) == Bump(Bumps(s, rs), r.status)
  {
    assert (rs + [r])[..|rs|] == rs;
  }

  /** The history is keyed by exactly the records' keys. */
  lemma {:induction false} HistoryKeys(rs: seq<HistoryRecord>, day: DayOf)
    ensures forall k :: k in History(rs, day) <==> k in Keys(rs, day)
    decreases |rs|
  {
    if rs != [] {
      HistoryKeys(rs[..|rs| - 1], day);
      assert Keys(rs, day) == Keys(rs[..|rs| - 1], day) + [Key(rs[|rs| - 1], day)];
    }
  }

  /** The history's entries: one per key, created from the key's first record and counting all of the key's records. */
  ghost predicate HistoryHolds(rs: seq<HistoryRecord>, day: DayOf) {
    var h := History(rs, day);
    (forall k :: k in h <==> k in Keys(rs, day)) &&
    (forall k :: k in h ==>
      var f := Seqs.Filter(rs, KeyIs(day, k));
      f != [] && h[k] == Bumps(Fresh(f[0], day), f))
  }

  lemma {:induction false} HistoryMeaning(rs: seq<HistoryRecord>, day: DayOf)
    ensures HistoryHolds(rs, day)
    decreases |rs|
  {
    if rs != [] {
      var init, last := rs[..|rs| - 1], rs[|rs| - 1];
      assert rs == init + [last];
      HistoryMeaning(init, day);
      assert Keys(rs, day) == Keys(init, day) + [Key(last, day)];
      var h := History(rs, day);
      forall k | k in h
        ensures var f := Seqs.Filter(rs, KeyIs(day, k)); f != [] && h[k] == Bumps(Fresh(f[0], day), f)
      {
        FilterSnocKey(init, last, day, k);
        var f0 := Seqs.Filter(init, KeyIs(day, k));
        if k == Key(last, day) {
          BumpsSnoc(Fresh((f0 + [last])[0], day), f0, last);
          if k !in History(init, day) {
            assert f0 == [];
            assert Bumps(Fresh(last, day), []) == Fresh(last, day);
          }
        }
      }
    }
  }

  function IsPresent(): HistoryRecord -> bool { HasStatus("PRESENT") }

  /** An entry's counts, in terms of its records. */
  lemma {:induction false} BumpsCounts(s: SessionStats, rs: seq<HistoryRecord>)
    ensures Bumps(s, rs) == s.(
      present := s.present + Seqs.Count(rs, HasStatus("PRESENT")),
      absent := s.absent + Seqs.Count(rs, HasStatus("ABSENT")),
      late := s.late + Seqs.Count(rs, HasStatus("LATE")),
      total := s.total + |rs|)
    decreases |rs|
  {
    if rs != [] {
      var init, last := rs[..|rs| - 1], rs[|rs| - 1];
      assert rs == init + [last];
      BumpsCounts(s, init);
      Seqs.CountSnoc(init, last, HasStatus("PRESENT"));
      Seqs.CountSnoc(init, last, HasStatus("ABSENT"));
      Seqs.CountSnoc(init, last, HasStatus("LATE"));
    }
  }

  lemma {:induction false} StatusesWithinTotal(s: SessionStats, rs: seq<HistoryRecord>)
    ensures Bumps(s, rs).present + Bumps(s, rs).absent + Bumps(s, rs).late - (s.present + s.absent + s.late)
      <= Bumps(s, rs).total - s.total
    decreases |rs|
  {
    if rs != [] { StatusesWithinTotal(s, rs[..|rs| - 1]); }
  }

  /**
   * Every history row belongs to one day and course and carries its first
   * record's course, counts every record of that day and course, at least
   * one, and never more PRESENT, ABSENT and LATE together than records.
   */
  lemma HistoryRows(rs: seq<HistoryRecord>, day: DayOf, k: string)
    requires k in History(rs, day)
    ensures var s := History(rs, day)[k];
      var f := Seqs.Filter(rs, KeyIs(day, k));
      k == s.date + "-" + s.courseId &&
      s.total == |f| >= 1 &&
      s.present == Seqs.Count(f, HasStatus("PRESENT")) &&
      s.absent == Seqs.Count(f, HasStatus("ABSENT")) &&
      s.late == Seqs.Count(f, HasStatus("LATE")) &&
      s.present + s.absent + s.late <= s.total
  {
    HistoryMeaning(rs, day);
    var f := Seqs.Filter(rs, KeyIs(day, k));
    BumpsCounts(Fresh(f[0], day), f);
    StatusesWithinTotal(Fresh(f[0], day), f);
    assert KeyIs(day, k)(f[0]);
  }

  lemma HistoryStep(rs: seq<HistoryRecord>, day: DayOf, i: nat)
    requires i < |rs|
    ensures Keys(rs[..i + 1], day) == Keys(rs[..i], day) + [Key(rs[i], day)]
    ensures rs[..i + 1][..i] == rs[..i]
  {
  }

  /** The history loop: the entries and the order in which the `Map` first saw their keys. */
  method GroupHistory(rs: seq<HistoryRecord>, day: DayOf) returns (order: seq<string>, stats: map<string, SessionStats>)
    ensures order == Seqs.Firsts(Keys(rs, day)) && stats == History(rs, day)
  {
    order, stats := [], map[];
    for i := 0 to |rs|
      invariant order == Seqs.Firsts(Keys(rs[..i], day)) && stats == History(rs[..i], day)
    {
      var k := Key(rs[i], day);
      HistoryStep(rs, day, i);
      HistoryKeys(rs[..i], day);
      if k !in stats {
        order := order + [k];
      }
      var s := if k in stats then stats[k] else Fresh(rs[i], day);
      stats := stats[k := Bump(s, rs[i].status)];
    }
    assert rs[..|rs|] == rs;
  }

  // ---------------------------------------------------------------- rows

  datatype HistoryRow = HistoryRow(stats: SessionStats, percentage: real)

  /** A row's percentage: PRESENT and LATE over all records, 0 without records. */
  function Row(s: SessionStats): (r: HistoryRow)
    ensures r.stats == s && r.percentage == Percent(s.present + s.late, s.total)
  {
    HistoryRow(s, if s.total > 0 then Percent(s.present + s.late, s.total) else 0.0)
  }

  /** `new Date(date).getTime()` */
  type TimeOf = string -> int

  /** Each row is no earlier than the next. */
  predicate SortedDesc(rows: seq<HistoryRow>, time: TimeOf) {
    forall i :: 0 <= i < |rows| - 1 ==> time(rows[i].stats.date) >= time(rows[i + 1].stats.date)
  }

  /** Insert a row before the first row that is not later than it. */
  function Insert(x: HistoryRow, rows: seq<HistoryRow>, time: TimeOf): (r: seq<HistoryRow>)
    requires SortedDesc(rows, time)
    ensures SortedDesc(r, time)
    ensures multiset(r) == multiset(rows) + multiset{x}
    ensures r[0] == x || (rows != [] && r[0] == rows[0])
    decreases |rows|
  {
    if rows == [] then [x]
    else if time(rows[0].stats.date) <= time(x.stats.date) then SortedCons(x, rows, time); [x] + rows
    else
      SortedTail(rows, time);
      var rest := Insert(x, rows[1..], time);
      assert rows == [rows[0]] + rows[1..];
      assert rows[1..] != [] ==> time(rows[0].stats.date) >= time(rows[1..][0].stats.date);
      SortedCons(rows[0], rest, time);
      assert multiset([rows[0]] + rest) == multiset{rows[0]} + multiset(rest);
      [rows[0]] + rest
  }

  /** The tail of a sorted list is sorted. */
  lemma SortedTail(rows: seq<HistoryRow>, time: TimeOf)
    requires rows != [] && SortedDesc(rows, time)
    ensures SortedDesc(rows[1..], time)
  {
    forall i | 0 <= i < |rows| - 2 ensures time(rows[1..][i].stats.date) >= time(rows[1..][i + 1].stats.date) {
      assert rows[1..][i] == rows[i + 1] && rows[1..][i + 1] == rows[i + 2];
    }
  }

  /** A row no earlier than the head of a sorted list can go in front of it. */
  lemma SortedCons(h: HistoryRow, t: seq<HistoryRow>, time: TimeOf)
    requires SortedDesc(t, time) && (t == [] || time(h.stats.date) >= time(t[0].stats.date))
    ensures SortedDesc([h] + t, time)
  {
    var r := [h] + t;
    forall i | 0 <= i < |r| - 1 ensures time(r[i].stats.date) >= time(r[i + 1].stats.date) {
      if i > 0 { assert r[i] == t[i - 1] && r[i + 1] == t[i]; }
    }
  }

  /** `historyData.sort(...)`: the rows by date, latest first. */
  function SortByDateDesc(rows: seq<HistoryRow>, time: TimeOf): (r: seq<HistoryRow>)
    ensures SortedDesc(r, time)
    ensures multiset(r) == multiset(rows)
    decreases |rows|
  {
    if rows == [] then []
    else
      assert rows == [rows[0]] + rows[1..];
      Insert(rows[0], SortByDateDesc(rows[1..], time), time)
  }

  /** One row per history entry, in the order the `Map` first saw the keys. */
  function TableRows(rs: seq<HistoryRecord>, day: DayOf): (r: seq<HistoryRow>)
    ensures |r| == |Seqs.Firsts(Keys(rs, day))|
    ensures forall i :: 0 <= i < |r| ==>
      Seqs.Firsts(Keys(rs, day))[i] in History(rs, day) && r[i] == Row(History(rs, day)[Seqs.Firsts(Keys(rs, day))[i]])
  {
    var order := Seqs.Firsts(Keys(rs, day));
    HistoryKeys(rs, day);
    seq(|order|, i requires 0 <= i < |order| => Row(History(rs, day)[order[i]]))
  }

  /** The table the history tab shows: the rows of the grouped records, latest first. */
  function HistoryTable(rs: seq<HistoryRecord>, day: DayOf, time: TimeOf): (r: seq<HistoryRow>)
    ensures SortedDesc(r, time)
    ensures multiset(r) == multiset(TableRows(rs, day))
  {
    SortByDateDesc(TableRows(rs, day), time)
  }

  /** The table has one row per day and course. */
  lemma HistoryTableSize(rs: seq<HistoryRecord>, day: DayOf, time: TimeOf)
    ensures |HistoryTable(rs, day, time)| == |History(rs, day)|
  {
    var rows := TableRows(rs, day);
    var r := HistoryTable(rs, day, time);
    assert |multiset(r)| == |multiset(rows)|;
    HistoryKeys(rs, day);
    DistinctCard(Seqs.Firsts(Keys(rs, day)), History(rs, day));
  }

  /** Every row of the table is the row of one history entry. */
  lemma HistoryTableRows(rs: seq<HistoryRecord>, day: DayOf, time: TimeOf, row: HistoryRow)
    requires row in HistoryTable(rs, day, time)
    ensures exists k :: k in History(rs, day) && row == Row(History(rs, day)[k])
  {
    var rows := TableRows(rs, day);
    assert row in multiset(HistoryTable(rs, day, time));
    assert row in multiset(rows);
    var i :| 0 <= i < |rows| && rows[i] == row;
  }

  /** A list of distinct keys holding exactly a map's keys is as long as the map. */
  lemma DistinctCard(order: seq<string>, h: map<string, SessionStats>)
    requires forall k :: k in order <==> k in h
    requires forall i, j :: 0 <= i < j < |order| ==> order[i] != order[j]
    ensures |order| == |h|
  {
    var ks := set i | 0 <= i < |order| :: order[i];
    assert ks == h.Keys;
    DistinctSetSize(order);
  }

  lemma {:induction false} DistinctSetSize(s: seq<string>)
    requires forall i, j :: 0 <= i < j < |s| ==> s[i] != s[j]
    ensures |set i | 0 <= i < |s| :: s[i]| == |s|
    decreases |s|
  {
    if s != [] {
      var rest := s[1..];
      DistinctSetSize(rest);
      var a := set i | 0 <= i < |s| :: s[i];
      var b := set i | 0 <= i < |rest| :: rest[i];
      assert a == {s[0]} + b by {
        forall x | x in a ensures x in {s[0]} + b {
          var i :| 0 <= i < |s| && s[i] == x;
          if i > 0 { assert rest[i - 1] == s[i]; }
        }
        forall x | x in b ensures x in a {
          var i :| 0 <= i < |rest| && rest[i] == x;
          assert s[i + 1] == rest[i];
        }
      }
      assert s[0] !in b by {
        forall i | 0 <= i < |rest| ensures rest[i] != s[0] { assert rest[i] == s[i + 1]; }
      }
    }
  }
}
