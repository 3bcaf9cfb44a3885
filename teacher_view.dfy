/**
 * The state both teacher pages (timetable and students) go through: look
 * up the signed-in user's teacher profile, then fetch that teacher's data,
 * then render a skeleton, an error card or the content.
 */
module TeacherView {
  import opened Wrappers

  datatype Teacher = Teacher(id: string, userId: string)

  /** The page's state: still loading, the error shown, the teacher found and the data fetched. */
  datatype View<D> = View(loading: bool, error: Option<string>, teacherId: Option<string>, data: D)

  /** The state on first render: loading, with nothing found yet. */
  function Initial<D>(empty: D): (v: View<D>)
    ensures v.loading && v.error.None? && v.teacherId.None? && v.data == empty
  {
    View(true, None, None, empty)
  }

  /** `teachers.find((t) => t.userId === user.id)`: the first matching teacher's id, or the error shown. */
  function FindTeacher(teachers: seq<Teacher>, userId: string): (r: Result<string, string>)
    ensures r.Err? <==> forall i :: 0 <= i < |teachers| ==> teachers[i].userId != userId
    ensures r.Err? ==> r.error == "Teacher profile not found"
    ensures r.Ok? ==> exists i :: (0 <= i < |teachers| && teachers[i].userId == userId && teachers[i].id == r.value &&
      forall j :: 0 <= j < i ==> teachers[j].userId != userId)
  {
    if teachers == [] then Err("Teacher profile not found")
    else if teachers[0].userId == userId then Ok(teachers[0].id)
    else
      var r := FindTeacher(teachers[1..], userId);
      assert forall i :: 0 < i < |teachers| ==> teachers[1..][i - 1] == teachers[i];
      r
  }

  predicate Blank(s: Option<string>) { s.None? || s.value == "" }

  /**
   * The profile effect as written; `teachers` is the teacher list fetched,
   * `None` when the request failed.  Neither failure clears `loading`.
   */
  function ProfileLoadedAsWritten<D>(v: View<D>, userId: Option<string>, teachers: Option<seq<Teacher>>): (r: View<D>)
    ensures r.loading == v.loading && r.data == v.data
    ensures Blank(userId) ==> r == v
  {
    if Blank(userId) then v
    else if teachers.None? then v.(error := Some("Failed to load teacher profile"))
    else
      match FindTeacher(teachers.value, userId.value)
      case Ok(id) => v.(teacherId := Some(id))
      case Err(m) => v.(error := Some(m))
  }

  /** The profile effect with `loading` cleared when the lookup fails, so its error can be seen. */
  function ProfileLoaded<D>(v: View<D>, userId: Option<string>, teachers: Option<seq<Teacher>>): (r: View<D>)
    ensures r.data == v.data
    ensures Blank(userId) ==> r == v
    ensures !Blank(userId) && teachers.None? ==> !r.loading && r.error == Some("Failed to load teacher profile")
    ensures !Blank(userId) && teachers.Some? && FindTeacher(teachers.value, userId.value).Err? ==>
      !r.loading && r.error == Some("Teacher profile not found")
    ensures !Blank(userId) && teachers.Some? && FindTeacher(teachers.value, userId.value).Ok? ==>
      r == v.(teacherId := Some(FindTeacher(teachers.value, userId.value).value))
  {
    if Blank(userId) then v
    else if teachers.None? then v.(loading := false, error := Some("Failed to load teacher profile"))
    else
      match FindTeacher(teachers.value, userId.value)
      case Ok(id) => v.(teacherId := Some(id))
      case Err(m) => v.(loading := false, error := Some(m))
  }

  /** The correction touches `loading` and nothing else. */
  lemma ProfileLoadedOnlyEndsLoading<D>(v: View<D>, userId: Option<string>, teachers: Option<seq<Teacher>>)
    ensures ProfileLoaded(v, userId, teachers) ==
      ProfileLoadedAsWritten(v, userId, teachers).(loading := ProfileLoaded(v, userId, teachers).loading)
  {
  }

  /** The data effect's guard: the id to fetch for, only once a teacher has been found. */
  function FetchRequest<D>(v: View<D>): (r: Option<string>)
    ensures r.Some? <==> !Blank(v.teacherId)
    ensures r.Some? ==> r == v.teacherId
  {
    if Blank(v.teacherId) then None else v.teacherId
  }

  /**
   * The data effect once the fetch has answered (`result` is `None` when it
   * failed): loading ends, and a success stores the data and clears any
   * earlier error.
   */
  function DataLoaded<D>(v: View<D>, result: Option<D>, failure: string): (r: View<D>)
    ensures FetchRequest(v).None? ==> r == v
    ensures FetchRequest(v).Some? && result.Some? ==> r == v.(loading := false, error := None, data := result.value)
    ensures FetchRequest(v).Some? && result.None? ==> r == v.(loading := false, error := Some(failure))
  {
    if FetchRequest(v).None? then v
    else match result
      case Some(d) => v.(loading := false, error := None, data := d)
      case None => v.(loading := false, error := Some(failure))
  }

  datatype Screen = Skeleton | ErrorCard(message: string) | Content

  /** What is rendered: the skeleton while loading, then the error if there is one, else the content. */
  function Render<D>(v: View<D>): (s: Screen)
    ensures s == Skeleton <==> v.loading
    ensures s.ErrorCard? ==> Some(s.message) == v.error
  {
    if v.loading then Skeleton
    else if !Blank(v.error) then ErrorCard(v.error.value)
    else Content
  }

  /** Opening the page: the profile effect, then the data effect if it found a teacher. */
  function OpenWith<D>(profile: (View<D>, Option<string>, Option<seq<Teacher>>) -> View<D>,
    empty: D, userId: Option<string>, teachers: Option<seq<Teacher>>, result: Option<D>, failure: string): View<D>
  {
    var v := profile(Initial(empty), userId, teachers);
    DataLoaded(v, result, failure)
  }

  function OpenAsWritten<D>(empty: D, userId: Option<string>, teachers: Option<seq<Teacher>>, result: Option<D>, failure: string): View<D> {
    OpenWith(ProfileLoadedAsWritten, empty, userId, teachers, result, failure)
  }

  function Open<D>(empty: D, userId: Option<string>, teachers: Option<seq<Teacher>>, result: Option<D>, failure: string): View<D> {
    OpenWith(ProfileLoaded, empty, userId, teachers, result, failure)
  }

  /** As written, a user without a teacher profile sees the skeleton for good, never the error set for them. */
  lemma ProfileMissingAsWrittenStaysLoading<D>(empty: D, userId: string, teachers: seq<Teacher>, result: Option<D>, failure: string)
    requires userId != "" && forall i :: 0 <= i < |teachers| ==> teachers[i].userId != userId
    ensures OpenAsWritten(empty, Some(userId), Some(teachers), result, failure).error == Some("Teacher profile not found")
    ensures Render(OpenAsWritten(empty, Some(userId), Some(teachers), result, failure)) == Skeleton
  {
  }

  /** With loading cleared on failure, the same user is shown the error. */
  lemma ProfileMissingShowsError<D>(empty: D, userId: string, teachers: seq<Teacher>, result: Option<D>, failure: string)
    requires userId != "" && forall i :: 0 <= i < |teachers| ==> teachers[i].userId != userId
    ensures Render(Open(empty, Some(userId), Some(teachers), result, failure)) == ErrorCard("Teacher profile not found")
  {
  }

  /** When the profile is found and the fetch succeeds, the content is shown with the data fetched. */
  lemma FoundAndFetchedShowsContent<D>(empty: D, userId: string, teachers: seq<Teacher>, d: D, failure: string)
    requires userId != ""
    requires FindTeacher(teachers, userId).Ok? && FindTeacher(teachers, userId).value != ""
    ensures Open(empty, Some(userId), Some(teachers), Some(d), failure).data == d
    ensures Render(Open(empty, Some(userId), Some(teachers), Some(d), failure)) == Content
  {
  }

  /** When a found teacher's fetch fails, its failure message is shown. */
  lemma FetchFailureShown<D>(empty: D, userId: string, teachers: seq<Teacher>, failure: string)
    requires userId != "" && failure != ""
    requires FindTeacher(teachers, userId).Ok? && FindTeacher(teachers, userId).value != ""
    ensures Render(Open(empty, Some(userId), Some(teachers), None, failure)) == ErrorCard(failure)
  {
  }

  /** The content is rendered only after a successful fetch, and then with what was fetched. */
  lemma ContentOnlyWithData<D>(empty: D, userId: Option<string>, teachers: Option<seq<Teacher>>, result: Option<D>, failure: string)
    requires failure != ""
    ensures Render(Open(empty, userId, teachers, result, failure)) == Content ==>
      result.Some? && Open(empty, userId, teachers, result, failure).data == result.value
  {
  }
}
