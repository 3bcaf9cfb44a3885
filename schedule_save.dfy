/**
 * `save_timetable` of the schedule service: one semester's 5 by 8 grid
 * of `[teacher, course code, room]` cells is written back into the
 * schedule table, one upsert per usable cell, keyed by course, day and
 * start time.
 */
module ScheduleSave {
  import opened Wrappers
  import opened Text
  import opened Records
  import Seqs
  import ScheduleTime
  import ScheduleService

  /** The request body: `timetable[day][period]` is a cell or `None`. */
  type TimetableInput = seq<seq<Option<seq<string>>>>

  /** `BREAK_PERIODS` */
  predicate IsBreak(p: nat) { p == 2 || p == 5 }

  /** The fields `schedule_data` writes for one cell. */
  datatype Planned = Planned(courseId: string, teacherId: Option<string>, day: string, start: string, end: string, room: string)

  /** The row a saved cell becomes: building "Main", type "LECTURE", active. */
  function RowOf(id: string, pl: Planned): Schedule {
    Schedule(id, pl.courseId, pl.teacherId, pl.day, pl.start, pl.end, Some(pl.room), Some("Main"), "LECTURE", true)
  }

  /** The upsert key: `{'courseId', 'dayOfWeek', 'startTime'}`. */
  function SameKey(pl: Planned): Schedule -> bool {
    (s: Schedule) => s.courseId == pl.courseId && s.dayOfWeek == pl.day && s.startTime == pl.start
  }

  /** `course.find_first(where={'courseCode': code, 'semester': semester})` */
  function CourseFor(db: Db, code: string, semester: int): Option<Course> {
    Seqs.FirstWhere(db.courses, (c: Course) => c.courseCode == code && c.semester == semester)
  }

  /** `user.find_first(where={'name': name, 'role': 'TEACHER'})` */
  function TeacherUserNamed(db: Db, name: string): Option<User> {
    Seqs.FirstWhere(db.users, (u: User) => u.name == name && u.role == "TEACHER")
  }

  /** A teacher cell that names nobody. */
  predicate IsPlaceholder(name: string) { name == [] || name == "Unknown" || name == "TBA" }

  /**
   * `teacher.id if teacher else course.teacherId`, where `teacher` is the
   * profile of the first TEACHER user whose name is the first of the
   * `+`-separated names, stripped.
   */
  function TeacherFor(db: Db, name: string, course: Course): (r: Option<string>)
    ensures IsPlaceholder(name) ==> r == course.teacherId
    ensures r == course.teacherId ||
      exists t, u :: t in db.teachers && u in db.users && r == Some(t.id) && t.userId == u.id &&
                     u.role == "TEACHER" && u.name == PyStrip(Split(name, '+')[0])
  {
    if IsPlaceholder(name) then course.teacherId
    else
      var first := PyStrip(Split(name, '+')[0]);
      match TeacherUserNamed(db, first)
      case None => course.teacherId
      case Some(u) =>
        match TeacherOfUser(db, u.id)
        case None => course.teacherId
        case Some(t) => Some(t.id)
  }

  /**
   * What the save does with the cell of day `d` (already known to be a
   * weekday) and period `p`: nothing (`None`) when the cell is skipped, and
   * otherwise the schedule fields it writes.
   */
  function CellPlan(db: Db, semester: int, departmentId: Option<string>, d: ScheduleService.DayIdx, p: nat, cell: Option<seq<string>>): Option<Planned> {
    if cell.None? || cell.value == [] || p >= 8 then None
    else if IsBreak(p) then None
    else if |cell.value| < 3 then None
    else
      var teacherName, courseCode, room := cell.value[0], cell.value[1], cell.value[2];
      if courseCode == [] || PyStrip(courseCode) == [] then None
      else
        match CourseFor(db, courseCode, semester)
        case None => None
        case Some(course) =>
          if Truthy(departmentId) && course.departmentId != departmentId.value then None
          else Some(Planned(course.id, TeacherFor(db, teacherName, course), ScheduleService.DayNames[d],
                            ScheduleTime.PeriodStarts[p], ScheduleTime.PeriodEnds[p], if room != [] then room else "TBA"))
  }

  /**
   * A cell is written exactly when it has at least three entries, lies in
   * a teaching period (0..7 except the breaks 2 and 5), names a non-blank
   * course code, the first course with that code in the semester exists
   * and, with a department given, belongs to it.
   */
  lemma CellPlanIff(db: Db, semester: int, departmentId: Option<string>, d: ScheduleService.DayIdx, p: nat, cell: Option<seq<string>>)
    ensures CellPlan(db, semester, departmentId, d, p, cell).Some? <==>
      cell.Some? && |cell.value| >= 3 && p < 8 && !IsBreak(p) && PyStrip(cell.value[1]) != [] &&
      CourseFor(db, cell.value[1], semester).Some? &&
      (Truthy(departmentId) ==> CourseFor(db, cell.value[1], semester).value.departmentId == departmentId.value)
  {
  }

  /**
   * A written cell stores the first matching course, the weekday name and
   * the `PERIOD_TIMES` entry of its position, and its room or "TBA".
   */
  lemma CellPlanFields(db: Db, semester: int, departmentId: Option<string>, d: ScheduleService.DayIdx, p: nat, cell: Option<seq<string>>)
    requires CellPlan(db, semester, departmentId, d, p, cell).Some?
    ensures var pl := CellPlan(db, semester, departmentId, d, p, cell).value;
      p < 8 && pl.day == ScheduleService.DayNames[d] && pl.start == ScheduleTime.PeriodStarts[p] && pl.end == ScheduleTime.PeriodEnds[p] &&
      (exists c :: c in db.courses && c.id == pl.courseId && c.courseCode == cell.value[1] && c.semester == semester) &&
      pl.room != [] && (cell.value[2] != [] ==> pl.room == cell.value[2])
  {
    var c := CourseFor(db, cell.value[1], semester).value;
    assert c in db.courses;
  }

  // ------------------------------------------------------------ upsert

  /**
   * `find_first` on the key, then `update` of that row (keeping its id)
   * or `create` of a new row with the next id.
   */
  function Upsert(db: Db, pl: Planned, newId: nat -> string): Db {
    match Seqs.FirstIndex(db.schedules, SameKey(pl))
    case Some(i) => db.(schedules := db.schedules[i := RowOf(db.schedules[i].id, pl)])
    case None => db.(schedules := db.schedules + [RowOf(newId(db.serial), pl)], serial := db.serial + 1)
  }

  /** The row the key lookup finds holds the planned fields. */
  predicate StoredAt(db: Db, pl: Planned) {
    var j := Seqs.FirstIndex(db.schedules, SameKey(pl));
    j.Some? && db.schedules[j.value] == RowOf(db.schedules[j.value].id, pl)
  }

  /** Only the schedule table and the id counter change. */
  predicate SameOutside(db: Db, db': Db) {
    db' == db.(schedules := db'.schedules, serial := db'.serial) && db.serial <= db'.serial
  }

  /** No two schedules share course, day and start time. */
  predicate UniqueKeys(db: Db) {
    forall i, j :: 0 <= i < j < |db.schedules| ==>
      !(db.schedules[i].courseId == db.schedules[j].courseId && db.schedules[i].dayOfWeek == db.schedules[j].dayOfWeek &&
        db.schedules[i].startTime == db.schedules[j].startTime)
  }

  /**
   * An upsert stores the planned row where the key lookup finds it, keeps
   * every row with another key and every id, grows the table by one row
   * exactly when no row had the key, and touches nothing else.
   */
  lemma UpsertEffect(db: Db, pl: Planned, newId: nat -> string)
    ensures var r := Upsert(db, pl, newId);
      SameOutside(db, r) && StoredAt(r, pl) &&
      |db.schedules| <= |r.schedules| &&
      (forall i :: 0 <= i < |db.schedules| ==> r.schedules[i].id == db.schedules[i].id) &&
      (forall i :: 0 <= i < |db.schedules| && !SameKey(pl)(db.schedules[i]) ==> r.schedules[i] == db.schedules[i]) &&
      (|r.schedules| == |db.schedules| + 1 <==> forall i :: 0 <= i < |db.schedules| ==> !SameKey(pl)(db.schedules[i])) &&
      (|r.schedules| > |db.schedules| ==> |r.schedules| == |db.schedules| + 1 && r.schedules[|db.schedules|] == RowOf(newId(db.serial), pl))
  {
    UpsertStores(db, pl, newId);
    UpsertKeepsRows(db, pl, newId);
  }

  /** After an upsert the key lookup finds a row holding the plan. */
  lemma UpsertStores(db: Db, pl: Planned, newId: nat -> string)
    ensures StoredAt(Upsert(db, pl, newId), pl)
  {
    var r := Upsert(db, pl, newId);
    match Seqs.FirstIndex(db.schedules, SameKey(pl))
    case Some(i) =>
      Seqs.FirstIndexIs(r.schedules, SameKey(pl), i);
    case None =>
      Seqs.FirstIndexIs(r.schedules, SameKey(pl), |db.schedules|);
  }

  /** An upsert keeps every id and every row of another key, and appends only when no row has the key. */
  lemma UpsertKeepsRows(db: Db, pl: Planned, newId: nat -> string)
    ensures var r := Upsert(db, pl, newId);
      |db.schedules| <= |r.schedules| &&
      (forall i :: 0 <= i < |db.schedules| ==> r.schedules[i].id == db.schedules[i].id) &&
      (forall i :: 0 <= i < |db.schedules| && !SameKey(pl)(db.schedules[i]) ==> r.schedules[i] == db.schedules[i])
  {
  }

  /** An upsert keeps the keys unique. */
  lemma UpsertUnique(db: Db, pl: Planned, newId: nat -> string)
    requires UniqueKeys(db)
    ensures UniqueKeys(Upsert(db, pl, newId))
  {
    var r := Upsert(db, pl, newId);
    match Seqs.FirstIndex(db.schedules, SameKey(pl))
    case Some(k) =>
      forall i, j | 0 <= i < j < |r.schedules|
        ensures !(r.schedules[i].courseId == r.schedules[j].courseId && r.schedules[i].dayOfWeek == r.schedules[j].dayOfWeek &&
                  r.schedules[i].startTime == r.schedules[j].startTime)
      {
        assert SameKey(pl)(r.schedules[k]);
      }
    case None =>
      forall i, j | 0 <= i < j < |r.schedules|
        ensures !(r.schedules[i].courseId == r.schedules[j].courseId && r.schedules[i].dayOfWeek == r.schedules[j].dayOfWeek &&
                  r.schedules[i].startTime == r.schedules[j].startTime)
      {
        if j == |db.schedules| {
          assert !SameKey(pl)(db.schedules[i]);
        }
      }
  }

  /** An upsert under another key leaves a stored plan stored. */
  lemma UpsertKeepsStored(db: Db, pl: Planned, q: Planned, newId: nat -> string)
    requires StoredAt(db, pl)
    requires pl.courseId != q.courseId || pl.day != q.day || pl.start != q.start
    ensures StoredAt(Upsert(db, q, newId), pl)
  {
    var r := Upsert(db, q, newId);
    var j := Seqs.FirstIndex(db.schedules, SameKey(pl)).value;
    UpsertKeepsRows(db, q, newId);
    assert !SameKey(q)(db.schedules[j]);
    Seqs.FirstIndexIs(r.schedules, SameKey(pl), j);
  }

  // ------------------------------------------------------------ the save loop

  /** How the save decides what a cell at (day, period) writes. */
  type PlanFn = (ScheduleService.DayIdx, nat, Option<seq<string>>) -> Option<Planned>

  /** The decision of the service, for one semester and department filter. */
  function Planner(db: Db, semester: int, departmentId: Option<string>): PlanFn {
    (d: ScheduleService.DayIdx, p: nat, cell: Option<seq<string>>) => CellPlan(db, semester, departmentId, d, p, cell)
  }

  /**
   * The people and courses the save reads are those of the original
   * store, so each decision taken on the store as it is being updated is
   * the one taken on the original.
   */
  lemma PlannerFrame(db: Db, cur: Db, semester: int, departmentId: Option<string>, d: ScheduleService.DayIdx, p: nat,
                     cell: Option<seq<string>>)
    requires SameOutside(db, cur)
    ensures CellPlan(cur, semester, departmentId, d, p, cell) == Planner(db, semester, departmentId)(d, p, cell)
  {
    assert cur.courses == db.courses && cur.users == db.users && cur.teachers == db.teachers;
    if cell.Some? && |cell.value| >= 3 {
      assert CourseFor(cur, cell.value[1], semester) == CourseFor(db, cell.value[1], semester);
      assert TeacherUserNamed(cur, PyStrip(Split(cell.value[0], '+')[0])) == TeacherUserNamed(db, PyStrip(Split(cell.value[0], '+')[0]));
      forall c: Course ensures TeacherFor(cur, cell.value[0], c) == TeacherFor(db, cell.value[0], c) {
        if !IsPlaceholder(cell.value[0]) {
          var u := TeacherUserNamed(db, PyStrip(Split(cell.value[0], '+')[0]));
          if u.Some? {
            assert TeacherOfUser(cur, u.value.id) == TeacherOfUser(db, u.value.id);
          }
        }
      }
    }
  }

  /** The written cells of one day row, in period order. */
  function DayPlans(plan: PlanFn, d: ScheduleService.DayIdx, row: seq<Option<seq<string>>>): seq<Planned>
    decreases |row|
  {
    if row == [] then []
    else
      var n := |row| - 1;
      DayPlans(plan, d, row[..n]) + match plan(d, n, row[n]) case Some(pl) => [pl] case None => []
  }

  /** The written cells of the whole request, day by day; empty rows and rows past Friday are skipped. */
  function WeekPlans(plan: PlanFn, timetable: TimetableInput): seq<Planned>
    decreases |timetable|
  {
    if timetable == [] then []
    else
      var n := |timetable| - 1;
      WeekPlans(plan, timetable[..n]) + if timetable[n] == [] || n >= 5 then [] else DayPlans(plan, n, timetable[n])
  }

  /** The upserts of `pls`, in order. */
  function UpsertAll(db: Db, pls: seq<Planned>, newId: nat -> string): Db
    decreases |pls|
  {
    if pls == [] then db else Upsert(UpsertAll(db, pls[..|pls| - 1], newId), pls[|pls| - 1], newId)
  }

  lemma UpsertAllSnoc(db: Db, pls: seq<Planned>, pl: Planned, newId: nat -> string)
    ensures UpsertAll(db, pls + [pl], newId) == Upsert(UpsertAll(db, pls, newId), pl, newId)
  {
    assert (pls + [pl])[..|pls|] == pls;
  }

  /** The upserts change the schedule table and the id counter only. */
  lemma {:induction false} UpsertAllOutside(db: Db, pls: seq<Planned>, newId: nat -> string)
    ensures SameOutside(db, UpsertAll(db, pls, newId))
    decreases |pls|
  {
    if pls != [] {
      UpsertAllOutside(db, pls[..|pls| - 1], newId);
      UpsertEffect(UpsertAll(db, pls[..|pls| - 1], newId), pls[|pls| - 1], newId);
    }
  }

  /** One pass of the period loop: the cell's upsert, if it is written, extends the upserts so far. */
  lemma DayStep(db: Db, plan: PlanFn, d: ScheduleService.DayIdx, row: seq<Option<seq<string>>>,
                p: nat, before: seq<Planned>, newId: nat -> string)
    requires p < |row|
    ensures UpsertAll(db, before + DayPlans(plan, d, row[..p + 1]), newId) ==
      var cur := UpsertAll(db, before + DayPlans(plan, d, row[..p]), newId);
      if plan(d, p, row[p]).Some? then Upsert(cur, plan(d, p, row[p]).value, newId) else cur
  {
    var done := before + DayPlans(plan, d, row[..p]);
    assert row[..p + 1][..p] == row[..p];
    match plan(d, p, row[p])
    case Some(pl) =>
      assert before + DayPlans(plan, d, row[..p + 1]) == done + [pl];
      UpsertAllSnoc(db, done, pl, newId);
    case None =>
      assert before + DayPlans(plan, d, row[..p + 1]) == done;
  }

  /** The period loop over one weekday row. */
  method SaveDay(db: Db, plan: PlanFn, d: ScheduleService.DayIdx, daySchedule: seq<Option<seq<string>>>,
                 before: seq<Planned>, cur: Db, newId: nat -> string)
    returns (db': Db)
    requires cur == UpsertAll(db, before, newId)
    ensures db' == UpsertAll(db, before + DayPlans(plan, d, daySchedule), newId)
  {
    db' := cur;
    assert before + [] == before;
    var p := 0;
    while p < |daySchedule|
      invariant 0 <= p <= |daySchedule|
      invariant db' == UpsertAll(db, before + DayPlans(plan, d, daySchedule[..p]), newId)
    {
      DayStep(db, plan, d, daySchedule, p, before, newId);
      var written := plan(d, p, daySchedule[p]);
      if written.Some? {
        db' := Upsert(db', written.value, newId);
      }
      p := p + 1;
    }
    assert daySchedule[..p] == daySchedule;
  }

  /** The day loop, for any decision of what a cell writes. */
  method SaveWeek(db: Db, plan: PlanFn, timetable: TimetableInput, newId: nat -> string) returns (db': Db)
    ensures db' == UpsertAll(db, WeekPlans(plan, timetable), newId)
  {
    db' := db;
    var d := 0;
    while d < |timetable|
      invariant 0 <= d <= |timetable|
      invariant db' == UpsertAll(db, WeekPlans(plan, timetable[..d]), newId)
    {
      assert timetable[..d + 1][..d] == timetable[..d];
      var daySchedule := timetable[d];
      var before := WeekPlans(plan, timetable[..d]);
      if daySchedule != [] && d < 5 {
        db' := SaveDay(db, plan, d, daySchedule, before, db', newId);
      } else {
        assert before + [] == before;
      }
      d := d + 1;
    }
    assert timetable[..d] == timetable;
  }

  /**
   * `save_timetable`: visit the days in order, skipping an empty row or a
   * row past Friday, and in each the periods in order, upserting each cell
   * that `CellPlan` does not skip; the answer is `True`.
   */
  method SaveTimetable(db: Db, semester: int, section: int, timetable: TimetableInput, departmentId: Option<string>,
                       newId: nat -> string)
    returns (ok: bool, db': Db)
    ensures ok
    ensures db' == UpsertAll(db, WeekPlans(Planner(db, semester, departmentId), timetable), newId)
  {
    db' := SaveWeek(db, Planner(db, semester, departmentId), timetable, newId);
    ok := true;
  }

  // ------------------------------------------------------------ what the save leaves

  /** No two written cells share a day and a start time. */
  predicate SlotsDistinct(pls: seq<Planned>) {
    forall i, j :: 0 <= i < j < |pls| ==> pls[i].day != pls[j].day || pls[i].start != pls[j].start
  }

  /** A decision that writes the weekday name and the start time of the cell's own position. */
  ghost predicate WellPlaced(plan: PlanFn) {
    forall d: ScheduleService.DayIdx, p: nat, cell: Option<seq<string>> :: plan(d, p, cell).Some? ==>
      p < 8 && plan(d, p, cell).value.day == ScheduleService.DayNames[d] && plan(d, p, cell).value.start == ScheduleTime.PeriodStarts[p]
  }

  lemma PlannerWellPlaced(db: Db, semester: int, departmentId: Option<string>)
    ensures WellPlaced(Planner(db, semester, departmentId))
  {
    forall d: ScheduleService.DayIdx, p: nat, cell: Option<seq<string>> | Planner(db, semester, departmentId)(d, p, cell).Some?
      ensures p < 8 && Planner(db, semester, departmentId)(d, p, cell).value.day == ScheduleService.DayNames[d] &&
              Planner(db, semester, departmentId)(d, p, cell).value.start == ScheduleTime.PeriodStarts[p]
    {
      CellPlanFields(db, semester, departmentId, d, p, cell);
    }
  }

  /** The start time of period `p` for some period before `n`. */
  ghost predicate StartBefore(start: string, n: nat) {
    exists p: nat :: p < n && p < 8 && start == ScheduleTime.PeriodStarts[p]
  }

  /** The cells of one day row lie on that day, in distinct periods of the row. */
  lemma {:induction false} DayPlansSlots(plan: PlanFn, d: ScheduleService.DayIdx, row: seq<Option<seq<string>>>)
    requires WellPlaced(plan)
    ensures forall i :: 0 <= i < |DayPlans(plan, d, row)| ==>
      DayPlans(plan, d, row)[i].day == ScheduleService.DayNames[d] && StartBefore(DayPlans(plan, d, row)[i].start, |row|)
    ensures SlotsDistinct(DayPlans(plan, d, row))
    decreases |row|
  {
    if row != [] {
      var n := |row| - 1;
      var prev := DayPlans(plan, d, row[..n]);
      DayPlansSlots(plan, d, row[..n]);
      if plan(d, n, row[n]).Some? {
        var pl := plan(d, n, row[n]).value;
        assert DayPlans(plan, d, row) == prev + [pl];
        forall i | 0 <= i < |prev| ensures prev[i].start != pl.start {
          var q: nat :| q < n && q < 8 && prev[i].start == ScheduleTime.PeriodStarts[q];
          ScheduleTime.PeriodStartsDistinct(q, n);
        }
      } else {
        assert DayPlans(plan, d, row) == prev + [];
      }
    }
  }

  /** The weekday names are distinct. */
  lemma DayNamesDistinct(d: nat, e: nat)
    requires d < 5 && e < 5 && d != e
    ensures ScheduleService.DayNames[d] != ScheduleService.DayNames[e]
  {
    var names := ScheduleService.DayNames;
    assert names[0][0] == 'M' && names[1][0] == 'T' && names[2][0] == 'W' && names[3][0] == 'T' && names[4][0] == 'F';
    assert names[1][1] == 'U' && names[3][1] == 'H';
  }

  /** The cells of the request lie on distinct (day, start time) pairs. */
  lemma {:induction false} WeekPlansSlots(plan: PlanFn, timetable: TimetableInput)
    requires WellPlaced(plan)
    ensures forall i :: 0 <= i < |WeekPlans(plan, timetable)| ==>
      exists d: nat :: d < |timetable| && d < 5 && WeekPlans(plan, timetable)[i].day == ScheduleService.DayNames[d]
    ensures SlotsDistinct(WeekPlans(plan, timetable))
    decreases |timetable|
  {
    if timetable != [] {
      var n := |timetable| - 1;
      var prev := WeekPlans(plan, timetable[..n]);
      WeekPlansSlots(plan, timetable[..n]);
      if timetable[n] == [] || n >= 5 {
        assert WeekPlans(plan, timetable) == prev + [] == prev;
        forall i | 0 <= i < |prev|
          ensures exists e: nat :: e < |timetable| && e < 5 && prev[i].day == ScheduleService.DayNames[e]
        {
          var e: nat :| e < n && e < 5 && prev[i].day == ScheduleService.DayNames[e];
        }
      } else {
        var day := DayPlans(plan, n, timetable[n]);
        DayPlansSlots(plan, n, timetable[n]);
        assert WeekPlans(plan, timetable) == prev + day;
        forall i | 0 <= i < |prev| + |day|
          ensures exists e: nat :: e < |timetable| && e < 5 && (prev + day)[i].day == ScheduleService.DayNames[e]
        {
          if i >= |prev| {
            assert (prev + day)[i] == day[i - |prev|];
            assert day[i - |prev|].day == ScheduleService.DayNames[n];
          } else {
            var e: nat :| e < n && e < 5 && prev[i].day == ScheduleService.DayNames[e];
            assert (prev + day)[i] == prev[i];
          }
        }
        forall i, j | 0 <= i < |prev| && 0 <= j < |day| ensures prev[i].day != day[j].day {
          var e: nat :| e < n && e < 5 && prev[i].day == ScheduleService.DayNames[e];
          DayNamesDistinct(e, n);
        }
        SlotsDistinctAppend(prev, day);
      }
    } else {
      assert WeekPlans(plan, timetable) == [];
    }
  }

  /** Two slot-distinct runs whose days never meet make a slot-distinct run. */
  lemma SlotsDistinctAppend(a: seq<Planned>, b: seq<Planned>)
    requires SlotsDistinct(a) && SlotsDistinct(b)
    requires forall i, j :: 0 <= i < |a| && 0 <= j < |b| ==> a[i].day != b[j].day
    ensures SlotsDistinct(a + b)
  {
    forall i, j | 0 <= i < j < |a + b| ensures (a + b)[i].day != (a + b)[j].day || (a + b)[i].start != (a + b)[j].start {
      if j < |a| {
        assert (a + b)[i] == a[i] && (a + b)[j] == a[j];
      } else if i >= |a| {
        assert (a + b)[i] == b[i - |a|] && (a + b)[j] == b[j - |a|];
      } else {
        assert (a + b)[i] == a[i] && (a + b)[j] == b[j - |a|];
      }
    }
  }

  /** Upserting plans on distinct slots leaves every one of them stored. */
  lemma {:induction false} UpsertAllStores(db: Db, pls: seq<Planned>, newId: nat -> string)
    requires SlotsDistinct(pls)
    ensures forall i :: 0 <= i < |pls| ==> StoredAt(UpsertAll(db, pls, newId), pls[i])
    decreases |pls|
  {
    if pls != [] {
      var n := |pls| - 1;
      var cur := UpsertAll(db, pls[..n], newId);
      UpsertAllStores(db, pls[..n], newId);
      UpsertStores(cur, pls[n], newId);
      forall i | 0 <= i < n ensures StoredAt(UpsertAll(db, pls, newId), pls[i]) {
        assert pls[..n][i] == pls[i];
        UpsertKeepsStored(cur, pls[i], pls[n], newId);
      }
    }
  }

  /**
   * Upserts keep every id and the contents of every row whose key no plan
   * names, and only append rows.
   */
  lemma {:induction false} UpsertAllKeeps(db: Db, pls: seq<Planned>, newId: nat -> string)
    ensures |db.schedules| <= |UpsertAll(db, pls, newId).schedules|
    ensures forall i :: 0 <= i < |db.schedules| ==> UpsertAll(db, pls, newId).schedules[i].id == db.schedules[i].id
    ensures forall i :: 0 <= i < |db.schedules| && (forall k :: 0 <= k < |pls| ==> !SameKey(pls[k])(db.schedules[i])) ==>
      UpsertAll(db, pls, newId).schedules[i] == db.schedules[i]
    decreases |pls|
  {
    if pls != [] {
      var n := |pls| - 1;
      UpsertAllKeeps(db, pls[..n], newId);
      UpsertKeepsRows(UpsertAll(db, pls[..n], newId), pls[n], newId);
      forall i | 0 <= i < |db.schedules| && (forall k :: 0 <= k < |pls| ==> !SameKey(pls[k])(db.schedules[i]))
        ensures UpsertAll(db, pls, newId).schedules[i] == db.schedules[i]
      {
        assert forall k :: 0 <= k < n ==> pls[..n][k] == pls[k];
        assert !SameKey(pls[n])(db.schedules[i]);
      }
    }
  }

  /** Upserts keep the schedule keys unique. */
  lemma {:induction false} UpsertAllUnique(db: Db, pls: seq<Planned>, newId: nat -> string)
    requires UniqueKeys(db)
    ensures UniqueKeys(UpsertAll(db, pls, newId))
    decreases |pls|
  {
    if pls != [] {
      UpsertAllUnique(db, pls[..|pls| - 1], newId);
      UpsertUnique(UpsertAll(db, pls[..|pls| - 1], newId), pls[|pls| - 1], newId);
    }
  }

  /**
   * What the save leaves, for written cells `pls`: every written cell is
   * found by its key lookup with the fields it wrote, every row whose key
   * no written cell names is unchanged, no id changes, nothing outside
   * the schedule table changes, and unique keys stay unique.
   */
  ghost predicate SavedWell(db: Db, pls: seq<Planned>, db': Db) {
    SameOutside(db, db') &&
    (forall i :: 0 <= i < |pls| ==> StoredAt(db', pls[i])) &&
    |db.schedules| <= |db'.schedules| &&
    (forall i :: 0 <= i < |db.schedules| ==> db'.schedules[i].id == db.schedules[i].id) &&
    (forall i :: 0 <= i < |db.schedules| && (forall k :: 0 <= k < |pls| ==> !SameKey(pls[k])(db.schedules[i])) ==>
       db'.schedules[i] == db.schedules[i]) &&
    (UniqueKeys(db) ==> UniqueKeys(db'))
  }

  /** The day loop, for any well-placed decision, saves well. */
  lemma SaveWeekEffect(db: Db, plan: PlanFn, timetable: TimetableInput, newId: nat -> string)
    requires WellPlaced(plan)
    ensures SavedWell(db, WeekPlans(plan, timetable), UpsertAll(db, WeekPlans(plan, timetable), newId))
  {
    var pls := WeekPlans(plan, timetable);
    WeekPlansSlots(plan, timetable);
    UpsertAllStores(db, pls, newId);
    UpsertAllKeeps(db, pls, newId);
    UpsertAllOutside(db, pls, newId);
    if UniqueKeys(db) {
      UpsertAllUnique(db, pls, newId);
    }
  }

  /** `save_timetable` saves well. */
  lemma SaveTimetableEffect(db: Db, semester: int, timetable: TimetableInput, departmentId: Option<string>, newId: nat -> string)
    ensures SavedWell(db, WeekPlans(Planner(db, semester, departmentId), timetable),
                      UpsertAll(db, WeekPlans(Planner(db, semester, departmentId), timetable), newId))
  {
    PlannerWellPlaced(db, semester, departmentId);
    SaveWeekEffect(db, Planner(db, semester, departmentId), timetable, newId);
  }

  /**
   * A saved cell reads back where it was written: the row it becomes
   * falls on day `d` in period `p` of the weekly grid, and shows the
   * cell's course code and its room (or "TBA").
   */
  lemma SavedCellReadsBack(db: Db, semester: int, departmentId: Option<string>, d: ScheduleService.DayIdx, p: nat,
                           cell: Option<seq<string>>, id: string)
    requires CellPlan(db, semester, departmentId, d, p, cell).Some?
    requires forall i, j :: 0 <= i < j < |db.courses| ==> db.courses[i].id != db.courses[j].id
    ensures var row := RowOf(id, CellPlan(db, semester, departmentId, d, p, cell).value);
      ScheduleService.At(ScheduleService.Timetable(db), d, p)(row) &&
      ScheduleService.CellOf(db, row)[1] == cell.value[1] &&
      ScheduleService.CellOf(db, row)[2] == (if cell.value[2] != [] then cell.value[2] else "TBA")
  {
    var pl := CellPlan(db, semester, departmentId, d, p, cell).value;
    var row := RowOf(id, pl);
    CellPlanFields(db, semester, departmentId, d, p, cell);
    ScheduleTime.PeriodStartsRoundTrip(p);
    ScheduleService.AtTimetableIff(db, d, p, row);
    var c := CourseFor(db, cell.value[1], semester).value;
    var k :| 0 <= k < |db.courses| && db.courses[k] == c;
    Seqs.FirstIndexIs(db.courses, (x: Course) => x.id == pl.courseId, k);
  }
}
