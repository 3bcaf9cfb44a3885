/**
 * The teacher's student list: the courses with their enrollments, and the
 * total shown in the header.
 */
module TeacherStudentsPage {
  import opened Wrappers
  import Seqs
  import TeacherView

  datatype Enrollment = Enrollment(id: string, studentId: string, courseId: string, status: string)
  datatype CourseWithStudents = CourseWithStudents(id: string, courseCode: string, courseName: string, enrollments: seq<Enrollment>)

  function Enrolled(c: CourseWithStudents): int { |c.enrollments| }

  /** `getTotalStudents()`: the enrollments of every course together. */
  function TotalStudents(courses: seq<CourseWithStudents>): (total: nat)
    ensures courses == [] ==> total == 0
    ensures forall i :: 0 <= i < |courses| ==> |courses[i].enrollments| <= total
  {
    Seqs.SumNat(courses, Enrolled);
    forall i | 0 <= i < |courses| ensures |courses[i].enrollments| <= Seqs.Sum(courses, Enrolled) {
      Seqs.SumAtLeastEach(courses, Enrolled, i);
    }
    Seqs.Sum(courses, Enrolled)
  }

  /** One more course adds its enrollments to the total. */
  lemma TotalWithCourse(courses: seq<CourseWithStudents>, c: CourseWithStudents)
    ensures TotalStudents(courses + [c]) == TotalStudents(courses) + |c.enrollments|
  {
    Seqs.SumSnoc(courses, c, Enrolled);
  }

  /** Two lists of courses shown one after the other have the two totals together. */
  lemma TotalOfBoth(a: seq<CourseWithStudents>, b: seq<CourseWithStudents>)
    ensures TotalStudents(a + b) == TotalStudents(a) + TotalStudents(b)
  {
    Seqs.SumAppend(a, b, Enrolled);
  }

  const CoursesFailure := "Failed to load courses and students"

  /** Opening the page (with the lookup's loading fix): the list and its total come only from the courses fetched. */
  function Open(userId: Option<string>, teachers: Option<seq<TeacherView.Teacher>>, result: Option<seq<CourseWithStudents>>): (v: TeacherView.View<seq<CourseWithStudents>>)
    ensures TeacherView.Render(v) == TeacherView.Content ==> result.Some? && v.data == result.value
  {
    TeacherView.ContentOnlyWithData([], userId, teachers, result, CoursesFailure);
    TeacherView.Open([], userId, teachers, result, CoursesFailure)
  }

  /** A successful fetch clears an error left by an earlier failed one. */
  lemma SuccessClearsError(v: TeacherView.View<seq<CourseWithStudents>>, courses: seq<CourseWithStudents>)
    requires TeacherView.FetchRequest(v).Some? && v.error == Some(CoursesFailure)
    ensures TeacherView.DataLoaded(v, Some(courses), CoursesFailure).error.None?
    ensures TeacherView.Render(TeacherView.DataLoaded(v, Some(courses), CoursesFailure)) == TeacherView.Content
  {
  }
}
