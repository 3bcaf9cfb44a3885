/**
 * The sidebar configuration of each role on the front end, and the lookup
 * from a user's role to it. Icons are left out; every other field of the
 * three configurations is kept.
 */
module RolesConfig {
  import opened Wrappers
  import opened Text

  datatype Badge = BadgeText(text: string) | BadgeNumber(n: int)
  datatype SubItem = SubItem(title: string, url: string)
  datatype NavItem = NavItem(title: string, url: string, badge: Option<Badge>, items: seq<SubItem>)
  datatype DocLink = DocLink(name: string, url: string)
  datatype RoleConfig = RoleConfig(
    companyName: string,
    navMain: seq<NavItem>,
    navSecondary: seq<NavItem>,
    navDocuments: Option<seq<DocLink>>)

  /** A path under a role's own area, `/<role>/<page>`. */
  function Url(role: string, page: string): string { "/" + role + "/" + page }

  /** A sidebar entry as written, its links given by page within the role's area. */
  datatype NavSpec = NavSpec(title: string, page: string, badge: Option<Badge>, items: seq<(string, string)>)

  function Entry(title: string, page: string): NavSpec { NavSpec(title, page, None, []) }

  function ToItem(role: string, n: NavSpec): NavItem {
    NavItem(n.title, Url(role, n.page), n.badge,
      seq(|n.items|, j requires 0 <= j < |n.items| => SubItem(n.items[j].0, Url(role, n.items[j].1))))
  }

  function Nav(role: string, specs: seq<NavSpec>): seq<NavItem> {
    seq(|specs|, i requires 0 <= i < |specs| => ToItem(role, specs[i]))
  }

  function Docs(role: string, docs: seq<(string, string)>): seq<DocLink> {
    seq(|docs|, i requires 0 <= i < |docs| => DocLink(docs[i].0, Url(role, docs[i].1)))
  }

  const AdminMain := [
    Entry("Chat", "chat"),
    NavSpec("Departments", "departments", None,
      [("All Departments", "departments"), ("Add Department", "departments/add")]),
    NavSpec("Students", "students", None,
      [("All Students", "students"), ("Add Student", "students/add"), ("Enrollments", "students/enrollments")]),
    NavSpec("Teachers", "teachers", None,
      [("All Teachers", "teachers"), ("Add Teacher", "teachers/add"), ("Assignments", "teachers/assignments")]),
    NavSpec("Courses", "courses", None,
      [("All Courses", "courses"), ("Add Course", "courses/add"), ("Course Materials", "courses/materials")]),
    Entry("Enrollment", "enrollments"),
    Entry("Timetable", "timetable"),
    Entry("Attendance", "attendance")]
  const AdminSecondary := [Entry("Profile", "profile"), Entry("Settings", "settings")]

  const TeacherMain := [
    Entry("Dashboard", "dashboard"),
    NavSpec("My Courses", "courses", Some(BadgeText("6")),
      [("Active Courses", "courses"), ("Course Materials", "courses/materials"), ("Assignments", "courses/assignments")]),
    NavSpec("Students", "students", None,
      [("All Students", "students"), ("Performance", "students/performance")]),
    NavSpec("Attendance", "attendance", None,
      [("Mark Attendance", "attendance/mark"), ("Attendance History", "attendance/history"), ("Reports", "attendance/reports")]),
    NavSpec("Grades", "grades", None,
      [("Grade Book", "grades"), ("Submit Grades", "grades/submit")]),
    Entry("Schedule", "schedule"),
    NavSpec("Messages", "messages", Some(BadgeNumber(3)), [])]
  const TeacherSecondary := [
    Entry("Notifications", "notifications"),
    Entry("Profile", "profile"),
    Entry("Settings", "settings"),
    Entry("Help", "help")]
  const TeacherDocs := [
    ("Grade Reports", "reports/grades"),
    ("Class Materials", "materials"),
    ("Attendance Sheets", "reports/attendance")]

  const StudentMain := [
    Entry("Dashboard", "dashboard"),
    NavSpec("My Courses", "courses", Some(BadgeText("5")),
      [("All Courses", "courses"), ("Course Materials", "courses/materials"), ("Assignments", "courses/assignments")]),
    NavSpec("Schedule", "schedule", None,
      [("My Timetable", "schedule"), ("Upcoming Classes", "schedule/upcoming")]),
    NavSpec("Attendance", "attendance", None,
      [("View Attendance", "attendance"), ("Attendance History", "attendance/history")]),
    NavSpec("Grades", "grades", None,
      [("Current Grades", "grades"), ("Grade History", "grades/history"), ("GPA Calculator", "grades/calculator")]),
    NavSpec("Messages", "messages", Some(BadgeNumber(2)), [])]
  const StudentSecondary := [
    NavSpec("Notifications", "notifications", Some(BadgeNumber(4)), []),
    Entry("Profile", "profiles"),
    Entry("Settings", "settings"),
    Entry("Help", "help")]
  const StudentDocs := [
    ("Course Materials", "materials"),
    ("Transcripts", "transcripts"),
    ("Certificates", "certificates")]

  const AdminConfig := RoleConfig("College Admin", Nav("admin", AdminMain), Nav("admin", AdminSecondary), None)
  const TeacherConfig := RoleConfig("Teacher Portal", Nav("teacher", TeacherMain), Nav("teacher", TeacherSecondary),
    Some(Docs("teacher", TeacherDocs)))
  const StudentConfig := RoleConfig("Student Portal", Nav("student", StudentMain), Nav("student", StudentSecondary),
    Some(Docs("student", StudentDocs)))

  /** The lookup table, keyed by the lower-cased role. */
  const Configs: map<string, RoleConfig> := map[
    "admin" := AdminConfig,
    "teacher" := TeacherConfig,
    "instructor" := TeacherConfig,
    "student" := StudentConfig]

  /** `getRoleConfig(role)`; `None` stands for an undefined role. */
  function GetRoleConfig(role: Option<string>): (r: RoleConfig)
    ensures role.Some? && Lower(role.value) == "admin" ==> r == AdminConfig
    ensures role.Some? && Lower(role.value) in {"teacher", "instructor"} ==> r == TeacherConfig
    ensures role.None? || Lower(role.value) !in {"admin", "teacher", "instructor"} ==> r == StudentConfig
  {
    match role
    case None => StudentConfig
    case Some(s) =>
      var normalized := Lower(s);
      if normalized in Configs then Configs[normalized] else StudentConfig
  }

  /** The three configurations are told apart by their company names. */
  lemma ConfigsDistinct()
    ensures AdminConfig != TeacherConfig && AdminConfig != StudentConfig && TeacherConfig != StudentConfig
  {
    assert |AdminConfig.companyName| != |TeacherConfig.companyName|;
    assert |"Teacher Portal"| == |"Student Portal"| && "Teacher Portal"[0] != "Student Portal"[0];
  }

  /** The admin configuration is chosen exactly for the role `admin`, in any case; the teacher's exactly for `teacher` and `instructor`. */
  lemma RoleConfigIff(role: Option<string>)
    ensures GetRoleConfig(role) == AdminConfig <==> role.Some? && Lower(role.value) == "admin"
    ensures GetRoleConfig(role) == TeacherConfig <==> role.Some? && Lower(role.value) in {"teacher", "instructor"}
  {
    ConfigsDistinct();
  }

  /** The role's case never matters: a role and its lower-cased form get the same configuration. */
  lemma RoleCaseIgnored(s: string)
    ensures GetRoleConfig(Some(s)) == GetRoleConfig(Some(Lower(s)))
  {
    LowerIdempotent(s);
  }

  /** Only the teacher and student portals carry document links. */
  lemma DocumentsByRole()
    ensures AdminConfig.navDocuments.None?
    ensures TeacherConfig.navDocuments.Some? && |TeacherConfig.navDocuments.value| == 3
    ensures StudentConfig.navDocuments.Some? && |StudentConfig.navDocuments.value| == 3
    ensures forall role :: GetRoleConfig(role).navDocuments.None? <==> GetRoleConfig(role) == AdminConfig
  {
    forall role ensures GetRoleConfig(role).navDocuments.None? <==> GetRoleConfig(role) == AdminConfig {
      RoleConfigIff(role);
    }
  }

  predicate Under(url: string, role: string) {
    var p := "/" + role + "/";
    |p| <= |url| && url[..|p|] == p
  }

  /** Every link a configuration shows, at any level. */
  predicate AllUnder(c: RoleConfig, role: string) {
    (forall i :: 0 <= i < |c.navMain| ==> ItemUnder(c.navMain[i], role)) &&
    (forall i :: 0 <= i < |c.navSecondary| ==> ItemUnder(c.navSecondary[i], role)) &&
    (c.navDocuments.Some? ==> forall i :: 0 <= i < |c.navDocuments.value| ==> Under(c.navDocuments.value[i].url, role))
  }

  predicate ItemUnder(n: NavItem, role: string) {
    Under(n.url, role) && forall j :: 0 <= j < |n.items| ==> Under(n.items[j].url, role)
  }

  lemma UrlUnder(role: string, rest: string)
    ensures Under(Url(role, rest), role)
  {
    assert Url(role, rest) == ("/" + role + "/") + rest;
  }

  /** Every link built for a role, at any level, leads into that role's own area. */
  lemma NavUnder(role: string, main: seq<NavSpec>, secondary: seq<NavSpec>, docs: Option<seq<(string, string)>>, name: string)
    ensures AllUnder(RoleConfig(name, Nav(role, main), Nav(role, secondary),
      if docs.Some? then Some(Docs(role, docs.value)) else None), role)
  {
    forall page ensures Under(Url(role, page), role) { UrlUnder(role, page); }
  }

  /** The three sidebars link only into their own role's area. */
  lemma LinksStayInRole()
    ensures AllUnder(AdminConfig, "admin")
    ensures AllUnder(TeacherConfig, "teacher")
    ensures AllUnder(StudentConfig, "student")
  {
    NavUnder("admin", AdminMain, AdminSecondary, None, "College Admin");
    NavUnder("teacher", TeacherMain, TeacherSecondary, Some(TeacherDocs), "Teacher Portal");
    NavUnder("student", StudentMain, StudentSecondary, Some(StudentDocs), "Student Portal");
  }

  /** The dashboard configuration: the role's configuration and the signed-in user. */
  datatype DashboardUser = DashboardUser(name: string, email: string, avatar: string)
  datatype DashboardConfig = DashboardConfig(config: RoleConfig, user: DashboardUser)

  /** `getDashboardConfig(role, user)` */
  function GetDashboardConfig(role: Option<string>, user: DashboardUser): (r: DashboardConfig)
    ensures r.user == user
    ensures r.config.companyName == GetRoleConfig(role).companyName
    ensures r.config.navMain == GetRoleConfig(role).navMain && r.config.navSecondary == GetRoleConfig(role).navSecondary
    ensures r.config.navDocuments == GetRoleConfig(role).navDocuments
  {
    DashboardConfig(GetRoleConfig(role), user)
  }
}
