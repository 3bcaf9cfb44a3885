/**
 * The timetable views and the timetable save of the schedule service: the
 * weekly grid of a teacher or a student (5 days by 8 periods), the full
 * grid of every semester (8 semesters by 2 sections by 5 days by 8
 * periods), the per-subject details, and the save of one semester's grid
 * back into the schedule table.
 *
 * The fill loops are written once, over a `Layout` that says how a
 * schedule's day, period and cell are read; `Timetable(db)` is the layout
 * the service uses.
 */
module ScheduleService {
  import opened Wrappers
  import opened Text
  import opened Records
  import Seqs
  import ScheduleTime

  /** One grid cell: [teacher name, course code, room]. */
  type Cell = seq<string>

  type DayIdx = d: nat | d < 5
  type PeriodIdx = p: nat | p < 8
  type SemesterIdx = k: nat | k < 8

  const DayNames: seq<string> := ["MONDAY", "TUESDAY", "WEDNESDAY", "THURSDAY", "FRIDAY"]

  /** The `DAY_INDEX` table: the weekdays Monday to Friday and nothing else. */
  function DayIndex(day: string): (r: Option<DayIdx>)
    ensures r.Some? ==> DayNames[r.value] == day
    ensures r.None? ==> forall i :: 0 <= i < 5 ==> DayNames[i] != day
  {
    if day == "MONDAY" then Some(0)
    else if day == "TUESDAY" then Some(1)
    else if day == "WEDNESDAY" then Some(2)
    else if day == "THURSDAY" then Some(3)
    else if day == "FRIDAY" then Some(4)
    else None
  }

  /** `_parse_time_to_period` as a grid row index. */
  function PeriodIndex(t: string): Option<PeriodIdx> {
    var p := ScheduleTime.ParseTimeToPeriod(t);
    if p.Some? then Some(p.value) else None
  }

  /** `s.room or "TBA"` */
  function RoomOrTba(room: Option<string>): (r: string)
    ensures r != []
    ensures Truthy(room) ==> r == room.value
  {
    if Truthy(room) then room.value else "TBA"
  }

  /**
   * The cell a schedule writes: its teacher's user name or "Unknown", its
   * course code, its room or "TBA".  A schedule whose course is missing
   * never gets a cell: reading its code raises (`CourseRaises`).
   */
  function CellOf(db: Db, s: Schedule): Cell {
    var code := match CourseById(db, s.courseId) case Some(c) => c.courseCode case None => "";
    [TeacherUserName(db, s.teacherId).GetOr("Unknown"), code, RoomOrTba(s.room)]
  }

  /** The text Python gives reading `s.course.courseCode` when the schedule's course is missing. */
  const MissingCourse := "'NoneType' object has no attribute 'courseCode'"

  /** The exception reading a schedule's course raises, if it raises one. */
  function CourseRaises(db: Db, s: Schedule): (e: Option<string>)
    ensures e.Some? <==> CourseById(db, s.courseId).None?
    ensures e.Some? ==> e.value == MissingCourse
  {
    if CourseById(db, s.courseId).None? then Some(MissingCourse) else None
  }

  /**
   * How the fill loops read a schedule: its day row, its period column, the
   * cell it writes, and the exception that building the cell raises.
   */
  datatype Layout = Layout(day: string -> Option<DayIdx>, period: string -> Option<PeriodIdx>, cell: Schedule -> Cell,
                           raises: Schedule -> Option<string>)

  /** The layout of the service: `DAY_INDEX`, `_parse_time_to_period`, `CellOf` and `CourseRaises`. */
  function Timetable(db: Db): Layout {
    Layout(DayIndex, PeriodIndex, s => CellOf(db, s), s => CourseRaises(db, s))
  }

  /** The (day, period) a schedule occupies, or `None` when either does not map. */
  function SlotOf(L: Layout, s: Schedule): Option<(DayIdx, PeriodIdx)> {
    var d := L.day(s.dayOfWeek);
    var p := L.period(s.startTime);
    if d.None? || p.None? then None else Some((d.value, p.value))
  }

  /** The schedules that fall on day `d` in period `p`. */
  function At(L: Layout, d: nat, p: nat): Schedule -> bool {
    s => SlotOf(L, s) == Some((d, p))
  }

  /**
   * With the service's layout, a schedule falls on day `d` in period `p`
   * exactly when its day is the `d`-th weekday name and its start time
   * parses to period `p`.
   */
  lemma AtTimetableIff(db: Db, d: nat, p: nat, s: Schedule)
    ensures At(Timetable(db), d, p)(s) <==>
      d < 5 && s.dayOfWeek == DayNames[d] && ScheduleTime.ParseTimeToPeriod(s.startTime) == Some(p)
  {
    if d < 5 && s.dayOfWeek == DayNames[d] {
      assert DayIndex(s.dayOfWeek) == Some(d);
    }
  }

  /**
   * What the fill loops leave in one cell after visiting `ss` in order:
   * the cell of the last schedule satisfying `at`, or `None` if there is none.
   */
  function LastCell(L: Layout, ss: seq<Schedule>, at: Schedule -> bool): Option<Cell> {
    match Seqs.LastIndex(ss, at)
    case None => None
    case Some(i) => Some(L.cell(ss[i]))
  }

  type WeekGrid = seq<seq<Option<Cell>>>

  predicate IsWeekShape(g: WeekGrid) {
    |g| == 5 && forall d :: 0 <= d < 5 ==> |g[d]| == 8
  }

  /** `timetable[d][p] = c` */
  function SetCell(g: WeekGrid, d: DayIdx, p: PeriodIdx, c: Option<Cell>): (r: WeekGrid)
    requires IsWeekShape(g)
    ensures IsWeekShape(r)
  {
    g[d := g[d][p := c]]
  }

  /** `[[None for _ in range(PERIODS)] for _ in range(DAYS)]` */
  function EmptyWeek(): (g: WeekGrid)
    ensures IsWeekShape(g) && forall d, p :: 0 <= d < 5 && 0 <= p < 8 ==> g[d][p] == None
  {
    seq(5, _ => seq(8, _ => None))
  }

  /** What one pass of the loop body does to the grid. */
  function Place(L: Layout, g: WeekGrid, s: Schedule): (r: WeekGrid)
    requires IsWeekShape(g)
    ensures IsWeekShape(r)
  {
    match SlotOf(L, s)
    case None => g
    case Some(dp) => SetCell(g, dp.0, dp.1, Some(L.cell(s)))
  }

  /** The grid after placing the schedules of `ss` in order into an empty grid. */
  function GridOf(L: Layout, ss: seq<Schedule>): (g: WeekGrid)
    ensures IsWeekShape(g)
    decreases |ss|
  {
    if ss == [] then EmptyWeek() else Place(L, GridOf(L, ss[..|ss| - 1]), ss[|ss| - 1])
  }

  /** Every cell of `g` holds what the fill loop leaves there after visiting `ss`. */
  predicate WeekFilled(L: Layout, g: WeekGrid, ss: seq<Schedule>) {
    IsWeekShape(g) && forall d, p :: 0 <= d < 5 && 0 <= p < 8 ==> g[d][p] == LastCell(L, ss, At(L, d, p))
  }

  /**
   * Each cell of the filled grid holds the cell of the last schedule on
   * that day and period, and is empty when there is none: a later schedule
   * overwrites an earlier one, and a skipped schedule leaves no trace.
   */
  lemma {:induction false} GridOfCells(L: Layout, ss: seq<Schedule>)
    ensures WeekFilled(L, GridOf(L, ss), ss)
    decreases |ss|
  {
    if ss != [] {
      var n := |ss| - 1;
      GridOfCells(L, ss[..n]);
      forall d, p | 0 <= d < 5 && 0 <= p < 8
        ensures GridOf(L, ss)[d][p] == LastCell(L, ss, At(L, d, p))
      {
        Seqs.LastIndexSnoc(ss, n, At(L, d, p));
        assert ss[..n + 1] == ss;
      }
    }
  }

  /**
   * The exception the fill loop stops on after visiting `ss` in order: that
   * of the first schedule whose day and period map and whose cell raises.
   */
  function FirstRaise(L: Layout, ss: seq<Schedule>): Option<string>
    decreases |ss|
  {
    if ss == [] then None
    else
      var s := ss[|ss| - 1];
      match FirstRaise(L, ss[..|ss| - 1])
      case Some(e) => Some(e)
      case None => if SlotOf(L, s).Some? then L.raises(s) else None
  }

  /** What the fill loop returns: the grid, or the exception it stops on. */
  function WeekOf(L: Layout, ss: seq<Schedule>): Result<WeekGrid, string> {
    match FirstRaise(L, ss)
    case Some(e) => Err(e)
    case None => Ok(GridOf(L, ss))
  }

  /** The loop raises exactly when some visited schedule in a mapped slot raises, and then with that schedule's exception. */
  lemma {:induction false} FirstRaiseIff(L: Layout, ss: seq<Schedule>)
    ensures FirstRaise(L, ss).None? <==> forall i :: 0 <= i < |ss| ==> SlotOf(L, ss[i]).None? || L.raises(ss[i]).None?
    ensures FirstRaise(L, ss).Some? ==>
      exists i :: 0 <= i < |ss| && SlotOf(L, ss[i]).Some? && L.raises(ss[i]) == FirstRaise(L, ss)
    decreases |ss|
  {
    if ss != [] {
      var n := |ss| - 1;
      FirstRaiseIff(L, ss[..n]);
      assert forall i :: 0 <= i < n ==> ss[..n][i] == ss[i];
    }
  }

  /** Once a prefix raises, the whole visit raises with the same exception. */
  lemma {:induction false} FirstRaisePrefix(L: Layout, ss: seq<Schedule>, n: nat)
    requires n <= |ss| && FirstRaise(L, ss[..n]).Some?
    ensures FirstRaise(L, ss) == FirstRaise(L, ss[..n])
    decreases |ss| - n
  {
    if n < |ss| {
      assert ss[..n + 1][..n] == ss[..n];
      assert FirstRaise(L, ss[..n + 1]) == FirstRaise(L, ss[..n]);
      FirstRaisePrefix(L, ss, n + 1);
    } else {
      assert ss[..n] == ss;
    }
  }

  /**
   * The fill loop shared by the teacher and the student grid: start from
   * an empty 5 by 8 grid and, for each schedule in order, skip it when its
   * day or period does not map and otherwise overwrite its cell; building
   * the cell may raise, which ends the loop.
   */
  method FillWeek(L: Layout, ss: seq<Schedule>) returns (r: Result<WeekGrid, string>)
    ensures r == WeekOf(L, ss)
  {
    var grid := EmptyWeek();
    var i := 0;
    while i < |ss|
      invariant 0 <= i <= |ss|
      invariant FirstRaise(L, ss[..i]) == None
      invariant grid == GridOf(L, ss[..i])
    {
      var s := ss[i];
      assert ss[..i + 1][..i] == ss[..i];
      var day := L.day(s.dayOfWeek);
      var period := L.period(s.startTime);
      if day.Some? && period.Some? {
        var e := L.raises(s);
        if e.Some? {
          assert FirstRaise(L, ss[..i + 1]) == e;
          FirstRaisePrefix(L, ss, i + 1);
          return Err(e.value);
        }
        grid := SetCell(grid, day.value, period.value, Some(L.cell(s)));
      }
      i := i + 1;
    }
    assert ss[..i] == ss;
    r := Ok(grid);
  }

  /**
   * With the service's layout the grid is refused exactly when a schedule
   * in a mapped slot has no course, and then with the `courseCode` error.
   */
  lemma TimetableRaises(db: Db, ss: seq<Schedule>)
    ensures WeekOf(Timetable(db), ss).Err? <==>
      exists s :: s in ss && SlotOf(Timetable(db), s).Some? && CourseById(db, s.courseId).None?
    ensures WeekOf(Timetable(db), ss).Err? ==> WeekOf(Timetable(db), ss).error == MissingCourse
  {
    FirstRaiseIff(Timetable(db), ss);
    if FirstRaise(Timetable(db), ss).Some? {
      var i :| 0 <= i < |ss| && SlotOf(Timetable(db), ss[i]).Some? && Timetable(db).raises(ss[i]) == FirstRaise(Timetable(db), ss);
      assert ss[i] in ss;
    }
  }

  /** `find_many(where={'teacherId': teacher_id})` */
  function TeacherSchedules(db: Db, teacherId: string): seq<Schedule> {
    Seqs.Filter(db.schedules, (s: Schedule) => s.teacherId == Some(teacherId))
  }

  /** `get_teacher_timetable_grid` */
  method TeacherTimetableGrid(db: Db, teacherId: string) returns (r: Result<WeekGrid, string>)
    ensures r == WeekOf(Timetable(db), TeacherSchedules(db, teacherId))
  {
    r := FillWeek(Timetable(db), TeacherSchedules(db, teacherId));
  }

  /** A filled cell holds the cell of some visited schedule that falls into it. */
  lemma LastCellOrigin(L: Layout, ss: seq<Schedule>, at: Schedule -> bool)
    requires LastCell(L, ss, at).Some?
    ensures exists s :: s in ss && at(s) && LastCell(L, ss, at) == Some(L.cell(s))
  {
    var i := Seqs.LastIndex(ss, at).value;
    assert ss[i] in ss;
  }

  /** The schedules of a teacher's grid are that teacher's. */
  lemma TeacherGridSchedules(db: Db, teacherId: string, s: Schedule)
    requires s in TeacherSchedules(db, teacherId)
    ensures s in db.schedules && s.teacherId == Some(teacherId)
  {
  }

  /** `[e.courseId for e in enrollments]` over the student's enrollments. */
  function EnrolledCourseIds(es: seq<Enrollment>, studentId: string): (r: seq<string>)
    ensures forall c :: c in r <==> exists i :: 0 <= i < |es| && es[i].studentId == studentId && es[i].courseId == c
    decreases |es|
  {
    if es == [] then []
    else
      var rest := EnrolledCourseIds(es[1..], studentId);
      assert forall i :: 1 <= i < |es| ==> es[i] == es[1..][i - 1];
      if es[0].studentId == studentId then [es[0].courseId] + rest else rest
  }

  /** `find_many(where={'courseId': {'in': courses_list}})` */
  function StudentSchedules(db: Db, studentId: string): seq<Schedule> {
    var courses := EnrolledCourseIds(db.enrollments, studentId);
    Seqs.Filter(db.schedules, (s: Schedule) => s.courseId in courses)
  }

  /** `get_student_timetable_grid` */
  method StudentTimetableGrid(db: Db, studentId: string) returns (r: Result<WeekGrid, string>)
    ensures r == WeekOf(Timetable(db), StudentSchedules(db, studentId))
  {
    r := FillWeek(Timetable(db), StudentSchedules(db, studentId));
  }

  /**
   * A cell of a student's grid (picked by `at`) is filled exactly when
   * some schedule of a course the student is enrolled in falls into it.
   */
  lemma StudentCellFilledIff(db: Db, studentId: string, at: Schedule -> bool)
    ensures LastCell(Timetable(db), StudentSchedules(db, studentId), at).Some? <==>
      exists s :: s in db.schedules && at(s) &&
                  exists e :: e in db.enrollments && e.studentId == studentId && e.courseId == s.courseId
  {
    var ss := StudentSchedules(db, studentId);
    var courses := EnrolledCourseIds(db.enrollments, studentId);
    if Seqs.LastIndex(ss, at).Some? {
      var i := Seqs.LastIndex(ss, at).value;
      assert ss[i] in db.schedules && ss[i].courseId in courses;
      var k :| 0 <= k < |db.enrollments| && db.enrollments[k].studentId == studentId && db.enrollments[k].courseId == ss[i].courseId;
      assert db.enrollments[k] in db.enrollments;
    }
  }

  // ------------------------------------------------------------ full grid

  /**
   * `s.course.semester - 1` when it is a valid semester row (0..7); `None`
   * otherwise.  A schedule without a course never reaches it:
   * `FullTimetable` raises on such a schedule before filling.
   */
  function SemesterIndex(db: Db, s: Schedule): Option<SemesterIdx> {
    match CourseById(db, s.courseId)
    case None => None
    case Some(c) => if 0 <= c.semester - 1 < 8 then Some(c.semester - 1) else None
  }

  predicate InDepartment(db: Db, s: Schedule, departmentId: string) {
    match CourseById(db, s.courseId)
    case None => false
    case Some(c) => c.departmentId == departmentId
  }

  /** `find_many(where={'course': {'departmentId': ...}})` when a department is given, else every schedule. */
  function DepartmentSchedules(db: Db, departmentId: Option<string>): seq<Schedule> {
    if Truthy(departmentId) then Seqs.Filter(db.schedules, (s: Schedule) => InDepartment(db, s, departmentId.value))
    else db.schedules
  }

  /** The schedules whose semester row, as read by `sem`, is `k`. */
  function InRow(sem: Schedule -> Option<SemesterIdx>, k: nat): Schedule -> bool {
    s => sem(s) == Some(k)
  }

  type FullGrid = seq<seq<WeekGrid>>

  /** Every semester row holds, in section 0, the weekly grid of its own schedules, and section 1 stays empty. */
  predicate FullFilled(L: Layout, sem: Schedule -> Option<SemesterIdx>, g: FullGrid, ss: seq<Schedule>) {
    |g| == 8 && forall k :: 0 <= k < 8 ==> RowFilled(L, sem, g, ss, k)
  }

  /** Semester row `k` holds, in section 0, the weekly grid of its own schedules, and section 1 is empty. */
  predicate RowFilled(L: Layout, sem: Schedule -> Option<SemesterIdx>, g: FullGrid, ss: seq<Schedule>, k: nat) {
    k < |g| && |g[k]| == 2 && g[k][0] == GridOf(L, Seqs.Filter(ss, InRow(sem, k))) && g[k][1] == EmptyWeek()
  }

  /** Placing one more schedule at the end of the visited sequence. */
  lemma GridOfSnoc(L: Layout, f: seq<Schedule>, x: Schedule)
    ensures GridOf(L, f + [x]) == Place(L, GridOf(L, f), x)
  {
    assert (f + [x])[..|f|] == f;
  }

  /** Visiting one more schedule changes the grid of a selection only if the selection takes it. */
  lemma GridOfFilterSnoc(L: Layout, ss: seq<Schedule>, i: nat, q: Schedule -> bool)
    requires i < |ss|
    ensures GridOf(L, Seqs.Filter(ss[..i + 1], q)) ==
      if q(ss[i]) then Place(L, GridOf(L, Seqs.Filter(ss[..i], q)), ss[i])
      else GridOf(L, Seqs.Filter(ss[..i], q))
  {
    Seqs.FilterSnoc(ss, i, q);
    var f := Seqs.Filter(ss[..i], q);
    if q(ss[i]) {
      GridOfSnoc(L, f, ss[i]);
    } else {
      assert f + [] == f;
    }
  }

  /** One step of the full-grid loop: only the schedule's own semester row changes. */
  lemma FullStep(L: Layout, sem: Schedule -> Option<SemesterIdx>, ss: seq<Schedule>, i: nat, g: FullGrid, g': FullGrid)
    requires i < |ss| && FullFilled(L, sem, g, ss[..i])
    requires sem(ss[i]).None? ==> g' == g
    requires sem(ss[i]).Some? ==>
      var k := sem(ss[i]).value;
      |g[k]| == 2 && IsWeekShape(g[k][0]) && g' == g[k := g[k][0 := Place(L, g[k][0], ss[i])]]
    ensures FullFilled(L, sem, g', ss[..i + 1])
  {
    var visited := ss[..i + 1];
    forall k | 0 <= k < 8
      ensures RowFilled(L, sem, g', visited, k)
    {
      assert RowFilled(L, sem, g, ss[..i], k);
      GridOfFilterSnoc(L, ss, i, InRow(sem, k));
    }
  }

  /** A filled grid has two sections per row, the first of week shape. */
  lemma FullRowShape(L: Layout, sem: Schedule -> Option<SemesterIdx>, g: FullGrid, ss: seq<Schedule>, k: nat)
    requires FullFilled(L, sem, g, ss) && k < 8
    ensures |g| == 8 && |g[k]| == 2 && IsWeekShape(g[k][0])
  {
    assert RowFilled(L, sem, g, ss, k);
  }

  /** Placing a schedule writes its cell exactly when both its day and its start time map. */
  lemma PlaceIs(L: Layout, g: WeekGrid, s: Schedule)
    requires IsWeekShape(g)
    ensures Place(L, g, s) ==
      if L.day(s.dayOfWeek).Some? && L.period(s.startTime).Some?
      then SetCell(g, L.day(s.dayOfWeek).value, L.period(s.startTime).value, Some(L.cell(s)))
      else g
  {
  }

  /** Eight semester rows of two empty sections each. */
  function EmptyFull(): (g: FullGrid)
    ensures |g| == 8 && forall k :: 0 <= k < 8 ==> g[k] == [EmptyWeek(), EmptyWeek()]
  {
    seq(8, _ => [EmptyWeek(), EmptyWeek()])
  }

  /** Before any schedule is visited the empty grid is the filled one. */
  lemma FullFilledEmpty(L: Layout, sem: Schedule -> Option<SemesterIdx>, ss: seq<Schedule>)
    ensures FullFilled(L, sem, EmptyFull(), ss[..0])
  {
    forall k | 0 <= k < 8 ensures RowFilled(L, sem, EmptyFull(), ss[..0], k) {
      assert ss[..0] == [];
      assert Seqs.Filter(ss[..0], InRow(sem, k)) == [];
    }
  }

  /**
   * The full-grid loop: an 8 by 2 by 5 by 8 grid, all empty at first; each
   * schedule is skipped when its semester row does not map, its day is not
   * a weekday or its start time does not map, and otherwise overwrites its
   * cell in section 0 of its semester.
   */
  method FillFull(L: Layout, sem: Schedule -> Option<SemesterIdx>, ss: seq<Schedule>) returns (grid: FullGrid)
    ensures FullFilled(L, sem, grid, ss)
  {
    grid := EmptyFull();
    FullFilledEmpty(L, sem, ss);
    var i := 0;
    while i < |ss|
      invariant 0 <= i <= |ss|
      invariant FullFilled(L, sem, grid, ss[..i])
    {
      var s := ss[i];
      var g0 := grid;
      var semester := sem(s);
      if semester.Some? {
        var k := semester.value;
        FullRowShape(L, sem, grid, ss[..i], k);
        var week := grid[k][0];
        var day := L.day(s.dayOfWeek);
        var period := L.period(s.startTime);
        if day.Some? && period.Some? {
          week := SetCell(week, day.value, period.value, Some(L.cell(s)));
        }
        PlaceIs(L, grid[k][0], s);
        grid := grid[k := grid[k][0 := week]];
      }
      FullStep(L, sem, ss, i, g0, grid);
      i := i + 1;
    }
    assert ss[..i] == ss;
  }

  /** The semester reader of the service. */
  function Semesters(db: Db): Schedule -> Option<SemesterIdx> {
    s => SemesterIndex(db, s)
  }

  /**
   * `get_full_timetable`, for one department or (with none given) for all.
   * Its first loop reads every fetched schedule's course code, so one
   * schedule without a course raises before anything is filled.
   */
  method FullTimetable(db: Db, departmentId: Option<string>) returns (r: Result<FullGrid, string>)
    ensures r.Err? <==> exists s :: s in DepartmentSchedules(db, departmentId) && CourseById(db, s.courseId).None?
    ensures r.Err? ==> r.error == MissingCourse
    ensures r.Ok? ==> FullFilled(Timetable(db), Semesters(db), r.value, DepartmentSchedules(db, departmentId))
  {
    var ss := DepartmentSchedules(db, departmentId);
    var i := 0;
    while i < |ss|
      invariant 0 <= i <= |ss|
      invariant forall j :: 0 <= j < i ==> CourseById(db, ss[j].courseId).Some?
    {
      if CourseById(db, ss[i].courseId).None? {
        assert ss[i] in ss;
        return Err(MissingCourse);
      }
      i := i + 1;
    }
    var grid := FillFull(Timetable(db), Semesters(db), ss);
    r := Ok(grid);
  }

  /**
   * The schedules of semester row `k` (whose filled cells they are, by
   * `LastCellOrigin`) belong to courses in semester k + 1, of the
   * requested department when one is given.
   */
  lemma FullRowSchedules(db: Db, departmentId: Option<string>, k: nat, s: Schedule)
    requires s in Seqs.Filter(DepartmentSchedules(db, departmentId), InRow(Semesters(db), k))
    ensures s in db.schedules
    ensures exists c :: c in db.courses && c.id == s.courseId && c.semester == k + 1
    ensures Truthy(departmentId) ==> InDepartment(db, s, departmentId.value)
  {
    assert s in DepartmentSchedules(db, departmentId);
    assert SemesterIndex(db, s) == Some(k);
    var c := CourseById(db, s.courseId).value;
    assert c in db.courses && c.id == s.courseId && c.semester == k + 1;
  }

  // ------------------------------------------------------------ subject details

  /** The entry `get_subjects_details` keeps for one course code. */
  datatype SubjectDetail = SubjectDetail(subjectName: string, teacherName: string, roomCodes: set<string>, color: Option<string>)

  /** `set([s.room for s in schedules if s.room])` over the schedules of one course. */
  function CourseRooms(db: Db, courseId: string): set<string> {
    set s | s in db.schedules && s.courseId == courseId && Truthy(s.room) :: s.room.value
  }

  /** The details of one course: its name, its teacher's name or "Unassigned", its rooms or just "TBA". */
  function DetailOf(db: Db, c: Course): SubjectDetail {
    var rooms := CourseRooms(db, c.id);
    SubjectDetail(c.courseName, TeacherUserName(db, c.teacherId).GetOr("Unassigned"), if rooms != {} then rooms else {"TBA"}, None)
  }

  /**
   * The teacher shown is the name of the user behind the course's
   * teacher, and "Unassigned" when the course has none (or it has no
   * user).
   */
  lemma DetailTeacher(db: Db, c: Course)
    ensures DetailOf(db, c).subjectName == c.courseName && DetailOf(db, c).color == None
    ensures DetailOf(db, c).teacherName == "Unassigned" ||
      exists t, u :: t in db.teachers && u in db.users && Some(t.id) == c.teacherId && u.id == t.userId &&
                     DetailOf(db, c).teacherName == u.name
    ensures c.teacherId.None? ==> DetailOf(db, c).teacherName == "Unassigned"
  {
    var name := TeacherUserName(db, c.teacherId);
    if name.Some? {
      var t := TeacherById(db, c.teacherId.value).value;
      var u := UserById(db, t.userId).value;
      assert t in db.teachers && u in db.users && Some(t.id) == c.teacherId && u.id == t.userId && name.value == u.name;
    }
  }

  /**
   * The room codes are the distinct non-empty rooms of the course's
   * schedules, and exactly ["TBA"] when it has none.
   */
  lemma DetailRooms(db: Db, c: Course)
    ensures forall s :: s in db.schedules && s.courseId == c.id && Truthy(s.room) ==> s.room.value in DetailOf(db, c).roomCodes
    ensures (forall s :: s in db.schedules && s.courseId == c.id ==> !Truthy(s.room)) <==>
      (DetailOf(db, c).roomCodes == {"TBA"} && forall s :: s in db.schedules && s.courseId == c.id ==> s.room != Some("TBA"))
    ensures (exists s :: s in db.schedules && s.courseId == c.id && Truthy(s.room)) ==>
      forall x :: x in DetailOf(db, c).roomCodes ==> x != [] && exists s :: s in db.schedules && s.courseId == c.id && s.room == Some(x)
  {
    var rooms := CourseRooms(db, c.id);
    forall s | s in db.schedules && s.courseId == c.id && Truthy(s.room) ensures s.room.value in rooms {
    }
  }

  /** The map after visiting the courses of `cs` in order; a later course with the same code replaces an earlier one. */
  function DetailsOf(db: Db, cs: seq<Course>): map<string, SubjectDetail>
    decreases |cs|
  {
    if cs == [] then map[]
    else DetailsOf(db, cs[..|cs| - 1])[cs[|cs| - 1].courseCode := DetailOf(db, cs[|cs| - 1])]
  }

  function HasCode(code: string): Course -> bool {
    (c: Course) => c.courseCode == code
  }

  /**
   * The details map is keyed by exactly the course codes, and each code
   * holds the details of the last course with that code.
   */
  lemma {:induction false} DetailsOfLast(db: Db, cs: seq<Course>)
    ensures DetailsOf(db, cs).Keys == set c | c in cs :: c.courseCode
    ensures forall k :: k in DetailsOf(db, cs) ==>
      Seqs.LastIndex(cs, HasCode(k)).Some? && DetailsOf(db, cs)[k] == DetailOf(db, cs[Seqs.LastIndex(cs, HasCode(k)).value])
    decreases |cs|
  {
    if cs != [] {
      var n := |cs| - 1;
      DetailsOfLast(db, cs[..n]);
      assert cs == cs[..n] + [cs[n]];
      forall k | k in DetailsOf(db, cs)
        ensures Seqs.LastIndex(cs, HasCode(k)).Some? && DetailsOf(db, cs)[k] == DetailOf(db, cs[Seqs.LastIndex(cs, HasCode(k)).value])
      {
        Seqs.LastIndexSnoc(cs, n, HasCode(k));
        assert cs[..n + 1] == cs;
      }
    }
  }

  /** `get_subjects_details`: one entry per course code, filled course by course. */
  method SubjectsDetails(db: Db) returns (m: map<string, SubjectDetail>)
    ensures m == DetailsOf(db, db.courses)
  {
    m := map[];
    var i := 0;
    while i < |db.courses|
      invariant 0 <= i <= |db.courses|
      invariant m == DetailsOf(db, db.courses[..i])
    {
      var course := db.courses[i];
      assert db.courses[..i + 1][..i] == db.courses[..i];
      var teacherName := "Unassigned";
      var name := TeacherUserName(db, course.teacherId);
      if name.Some? {
        teacherName := name.value;
      }
      var rooms := CourseRooms(db, course.id);
      m := m[course.courseCode := SubjectDetail(course.courseName, teacherName, if rooms != {} then rooms else {"TBA"}, None)];
      i := i + 1;
    }
    assert db.courses[..i] == db.courses;
  }
}
