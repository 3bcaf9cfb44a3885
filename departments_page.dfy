/**
 * The administrator's department page: the create guard and payload, the
 * code field's upper-casing, the edit round trip and the searched list.
 */
module DepartmentsPage {
  import opened Wrappers
  import opened Text
  import Seqs

  datatype Department = Department(id: string, name: string, code: string, description: Option<string>)
  datatype DepartmentForm = DepartmentForm(name: string, code: string)
  /** The body of a create or an update request: name and code only. */
  datatype DepartmentData = DepartmentData(name: string, code: string)

  /** The form as first shown and after `resetForm()`. */
  const EmptyForm := DepartmentForm("", "")

  /** `handleCreate()`: name and code are sent, and only when both are filled in. */
  function CreateRequest(f: DepartmentForm): (r: Option<DepartmentData>)
    ensures r.Some? <==> f.name != "" && f.code != ""
    ensures r.Some? ==> r.value.name == f.name && r.value.code == f.code
  {
    if f.name == "" || f.code == "" then None else Some(DepartmentData(f.name, f.code))
  }

  lemma EmptyFormRefused()
    ensures CreateRequest(EmptyForm).None?
  {
  }

  /** The code input of both dialogs: whatever is typed is stored upper-cased. */
  function CodeInput(f: DepartmentForm, typed: string): (r: DepartmentForm)
    ensures r.name == f.name && r.code == Upper(typed)
    ensures forall i :: 0 <= i < |r.code| ==> !('a' <= r.code[i] <= 'z')
  {
    f.(code := Upper(typed))
  }

  /** Re-typing the stored code changes nothing, and the search still finds what was typed. */
  lemma CodeInputStable(f: DepartmentForm, typed: string)
    ensures CodeInput(CodeInput(f, typed), CodeInput(f, typed).code) == CodeInput(f, typed)
    ensures forall query :: Mentions(CodeInput(f, typed).code, query) <==> Mentions(typed, query)
  {
    UpperIdempotent(typed);
    LowerOfUpper(typed);
  }

  /** `handleEdit(department)`: the form takes the department's name and code. */
  function Edit(d: Department): (f: DepartmentForm)
    ensures f.name == d.name && f.code == d.code
  {
    DepartmentForm(d.name, d.code)
  }

  /** `handleUpdate()`: the selected department's id with the form's name and code; nothing without a selection. */
  function UpdateRequest(selected: Option<Department>, f: DepartmentForm): (r: Option<(string, DepartmentData)>)
    ensures r.Some? <==> selected.Some?
    ensures r.Some? ==> r.value.0 == selected.value.id && r.value.1 == DepartmentData(f.name, f.code)
  {
    match selected
    case None => None
    case Some(d) => Some((d.id, DepartmentData(f.name, f.code)))
  }

  /** Saving an edit unchanged sends the department's own name and code back. */
  lemma UnchangedEditSendsDepartment(d: Department)
    ensures UpdateRequest(Some(d), Edit(d)) == Some((d.id, DepartmentData(d.name, d.code)))
  {
  }

  /** `handleDelete()`: the id to delete, if one was chosen. */
  function DeleteRequest(toDelete: Option<string>): (r: Option<string>)
    ensures r.Some? <==> toDelete.Some? && toDelete.value != ""
    ensures r.Some? ==> r == toDelete
  {
    if toDelete.Some? && toDelete.value != "" then toDelete else None
  }

  /** Name, code or description holds the query; one without a description is not found by it. */
  predicate MatchesSearch(d: Department, query: string) {
    Mentions(d.name, query) || Mentions(d.code, query) || (d.description.Some? && Mentions(d.description.value, query))
  }

  /** `filteredDepartments`: the departments matching the query, in their order. */
  function FilteredDepartments(departments: seq<Department>, query: string): (r: seq<Department>)
    ensures forall d :: d in r <==> d in departments && MatchesSearch(d, query)
  {
    Seqs.Filter(departments, d => MatchesSearch(d, query))
  }

  /** An empty search lists every department. */
  lemma EmptySearchShowsAll(departments: seq<Department>)
    ensures FilteredDepartments(departments, "") == departments
  {
    forall i | 0 <= i < |departments| ensures MatchesSearch(departments[i], "") {
      MentionsEmpty(departments[i].name);
    }
    Seqs.FilterAll(departments, d => MatchesSearch(d, ""));
  }

  /** Searching for a department's code, in any case, finds it. */
  lemma SearchByCodeFinds(departments: seq<Department>, d: Department, typed: string)
    requires d in departments && Lower(typed) == Lower(d.code)
    ensures d in FilteredDepartments(departments, typed)
  {
    MentionsItself(d.code);
  }
}
