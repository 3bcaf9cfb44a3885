/**
 * The teacher's weekly timetable: the break columns, the class count shown
 * in the header, and the grid actually rendered (5 days by 8 periods).
 */
module TeacherTimetablePage {
  import opened Wrappers
  import TeacherView
  import ScheduleSave

  /** A grid cell: [teacher, subject, room], or `None` for a free period. */
  type Cell = seq<string>
  type Timetable = seq<seq<Option<Cell>>>

  /** `BREAK_PERIODS` */
  const BreakPeriods: seq<nat> := [2, 5]

  /** `isBreak(periodIndex)` */
  predicate IsBreak(periodIndex: nat) { periodIndex in BreakPeriods }

  /** The page shows as breaks exactly the periods the schedule service skips when saving. */
  lemma BreaksAgreeWithService(p: nat)
    ensures IsBreak(p) <==> ScheduleSave.IsBreak(p)
  {
    assert IsBreak(p) <==> p == 2 || p == 5;
  }

  /** The filled cells of one day at the periods `keep` lets through. */
  function RowCount(row: seq<Option<Cell>>, keep: nat -> bool): (n: nat)
    ensures n <= |row|
    decreases |row|
  {
    if row == [] then 0
    else RowCount(row[..|row| - 1], keep) + if row[|row| - 1].Some? && keep(|row| - 1) then 1 else 0
  }

  function Any(p: nat): bool { true }

  /** `getClassCount()`: the filled cells of every day, break columns included. */
  function ClassCount(t: Timetable): (n: nat)
    ensures t == [] ==> n == 0
    decreases |t|
  {
    if t == [] then 0 else ClassCount(t[..|t| - 1]) + RowCount(t[|t| - 1], Any)
  }

  /** The grid renders a class at day `d` and period `p` only inside 5 by 8 and off the break columns. */
  predicate Rendered(p: nat) { p < 8 && !IsBreak(p) }

  /** The classes the grid shows: the first five days' filled cells at rendered periods. */
  function ShownCount(t: Timetable): nat
    decreases |t|
  {
    if t == [] then 0
    else ShownCount(t[..|t| - 1]) + if |t| - 1 < 5 then RowCount(t[|t| - 1], Rendered) else 0
  }

  /** A filled cell the row holds at a kept period counts. */
  lemma {:induction false} RowCountHas(row: seq<Option<Cell>>, keep: nat -> bool, p: nat)
    requires p < |row| && row[p].Some? && keep(p)
    ensures RowCount(row, keep) >= 1
    decreases |row|
  {
    if p < |row| - 1 {
      RowCountHas(row[..|row| - 1], keep, p);
    }
  }

  /** Keeping fewer periods counts no more cells, and one cell fewer when a filled cell is dropped. */
  lemma {:induction false} RowCountMono(row: seq<Option<Cell>>, keep: nat -> bool, more: nat -> bool, dropped: Option<nat>)
    requires forall i :: 0 <= i < |row| && keep(i) ==> more(i)
    requires dropped.Some? ==> dropped.value < |row| && row[dropped.value].Some? && more(dropped.value) && !keep(dropped.value)
    ensures RowCount(row, keep) + (if dropped.Some? then 1 else 0) <= RowCount(row, more)
    decreases |row|
  {
    if row != [] {
      var last := |row| - 1;
      var front := row[..last];
      assert forall i :: 0 <= i < |front| ==> front[i] == row[i];
      if dropped.Some? && dropped.value == last {
        RowCountMono(front, keep, more, None);
      } else {
        RowCountMono(front, keep, more, dropped);
      }
    }
  }

  /** A timetable has no classes exactly when every cell is free. */
  lemma {:induction false} ClassCountZero(t: Timetable)
    ensures ClassCount(t) == 0 <==> forall d, p :: 0 <= d < |t| && 0 <= p < |t[d]| ==> t[d][p].None?
    decreases |t|
  {
    if t != [] {
      var last := |t| - 1;
      ClassCountZero(t[..last]);
      assert forall d :: 0 <= d < last ==> t[..last][d] == t[d];
      if ClassCount(t) == 0 {
        forall p | 0 <= p < |t[last]| ensures t[last][p].None? {
          if t[last][p].Some? { RowCountHas(t[last], Any, p); }
        }
      } else if RowCount(t[last], Any) > 0 {
        RowCountSomeFilled(t[last], Any);
      }
    }
  }

  lemma {:induction false} RowCountSomeFilled(row: seq<Option<Cell>>, keep: nat -> bool)
    requires RowCount(row, keep) > 0
    ensures exists p :: 0 <= p < |row| && row[p].Some?
    decreases |row|
  {
    var last := |row| - 1;
    if !(row[last].Some? && keep(last)) {
      RowCountSomeFilled(row[..last], keep);
      var p :| 0 <= p < |row[..last]| && row[..last][p].Some?;
      assert row[p] == row[..last][p];
    }
  }

  /** The header never counts fewer classes than the grid shows. */
  lemma {:induction false} ShownAtMostCount(t: Timetable)
    ensures ShownCount(t) <= ClassCount(t)
    decreases |t|
  {
    if t != [] {
      ShownAtMostCount(t[..|t| - 1]);
      RowCountMono(t[|t| - 1], Rendered, Any, None);
    }
  }

  /** A class stored in a break column is counted in the header but drawn as a break. */
  lemma {:induction false} BreakClassCountedNotShown(t: Timetable, d: nat, p: nat)
    requires d < |t| && p < |t[d]| && t[d][p].Some? && IsBreak(p)
    ensures ShownCount(t) < ClassCount(t)
    decreases |t|
  {
    var last := |t| - 1;
    if d == last {
      ShownAtMostCount(t[..last]);
      RowCountMono(t[last], Rendered, Any, Some(p));
    } else {
      assert t[..last][d] == t[d];
      BreakClassCountedNotShown(t[..last], d, p);
      RowCountMono(t[last], Rendered, Any, None);
    }
  }

  const TimetableFailure := "Failed to load timetable"

  /** Opening the page (with the lookup's loading fix): the grid is drawn only from the timetable fetched. */
  function Open(userId: Option<string>, teachers: Option<seq<TeacherView.Teacher>>, result: Option<Timetable>): (v: TeacherView.View<Timetable>)
    ensures TeacherView.Render(v) == TeacherView.Content ==> result.Some? && v.data == result.value
  {
    TeacherView.ContentOnlyWithData([], userId, teachers, result, TimetableFailure);
    TeacherView.Open([], userId, teachers, result, TimetableFailure)
  }
}
