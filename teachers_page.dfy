/**
 * The administrator's teacher list: the search and department filters,
 * and the delete confirmation.
 */
module TeachersPage {
  import opened Wrappers
  import opened Text
  import Seqs

  /** `user` is the teacher's account, when the record carries it. */
  datatype User = User(name: string, email: string)
  datatype Teacher = Teacher(id: string, teacherId: string, department: string, designation: string, user: Option<User>)

  /** Name, e-mail, staff number or designation holds the query; name and e-mail only when the account is there. */
  predicate MatchesSearch(t: Teacher, query: string) {
    (t.user.Some? && Mentions(t.user.value.name, query)) ||
    (t.user.Some? && Mentions(t.user.value.email, query)) ||
    Mentions(t.teacherId, query) || Mentions(t.designation, query)
  }

  predicate MatchesDepartment(t: Teacher, departmentFilter: string) {
    departmentFilter == "all" || t.department == departmentFilter
  }

  /** `filteredTeachers`: the teachers meeting both conditions, in their order. */
  function FilteredTeachers(teachers: seq<Teacher>, query: string, departmentFilter: string): (r: seq<Teacher>)
    ensures forall t :: t in r <==> t in teachers && MatchesSearch(t, query) && MatchesDepartment(t, departmentFilter)
  {
    Seqs.Filter(teachers, t => MatchesSearch(t, query) && MatchesDepartment(t, departmentFilter))
  }

  /** With an empty query and "all" departments, every teacher is listed. */
  lemma NoFilterShowsAll(teachers: seq<Teacher>)
    ensures FilteredTeachers(teachers, "", "all") == teachers
  {
    forall i | 0 <= i < |teachers| ensures MatchesSearch(teachers[i], "") {
      MentionsEmpty(teachers[i].teacherId);
    }
    Seqs.FilterAll(teachers, t => MatchesSearch(t, "") && MatchesDepartment(t, "all"));
  }

  /** With an empty query, the list is exactly the chosen department's teachers. */
  lemma EmptyQueryFiltersDepartment(teachers: seq<Teacher>, departmentFilter: string)
    ensures FilteredTeachers(teachers, "", departmentFilter) == Seqs.Filter(teachers, t => MatchesDepartment(t, departmentFilter))
  {
    forall i | 0 <= i < |teachers| ensures MatchesSearch(teachers[i], "") {
      MentionsEmpty(teachers[i].teacherId);
    }
    Seqs.FilterAgree(teachers,
      t => MatchesSearch(t, "") && MatchesDepartment(t, departmentFilter),
      t => MatchesDepartment(t, departmentFilter));
  }

  /** A teacher's own staff number, in any case, finds them under their department. */
  lemma SearchByStaffNumberFinds(teachers: seq<Teacher>, t: Teacher, typed: string)
    requires t in teachers && Lower(typed) == Lower(t.teacherId)
    ensures t in FilteredTeachers(teachers, typed, t.department)
  {
    MentionsItself(t.teacherId);
  }

  // ---------------------------------------------------------------- delete

  /** The delete confirmation: whether the dialog is open and which teacher it asks about. */
  datatype DeleteDialog = DeleteDialog(open: bool, toDelete: Option<string>)

  /** `handleDeleteTeacher()`: the id sent for deletion; nothing without a chosen teacher. */
  function DeleteRequest(d: DeleteDialog): (r: Option<string>)
    ensures r.Some? <==> d.toDelete.Some? && d.toDelete.value != ""
    ensures r.Some? ==> r == d.toDelete
  {
    if d.toDelete.Some? && d.toDelete.value != "" then d.toDelete else None
  }

  /**
   * The dialog once the request has been answered (`deleted` is whether it
   * succeeded): closed with nothing chosen after a success, as it was after
   * a failure or when nothing was sent.
   */
  function AfterDelete(d: DeleteDialog, deleted: bool): (r: DeleteDialog)
    ensures DeleteRequest(d).Some? && deleted ==> r == DeleteDialog(false, None)
    ensures DeleteRequest(d).None? || !deleted ==> r == d
  {
    if DeleteRequest(d).Some? && deleted then DeleteDialog(false, None) else d
  }

  /** After a successful delete the dialog cannot send a second request. */
  lemma NoSecondDelete(d: DeleteDialog)
    requires DeleteRequest(d).Some?
    ensures DeleteRequest(AfterDelete(d, true)).None?
  {
  }
}
