/**
 * The front end's route tables per role, the default dashboard of each
 * role and the prefix-based access check. The lazily loaded page
 * components are left out; each route keeps its path and title.
 */
module RoutesConfig {
  import opened RolesConfig

  datatype Route = Route(path: string, title: string)

  const AdminRoutes := [
    Route(Url("admin", "dashboard"), "Dashboard"),
    Route(Url("admin", "departments"), "Departments"),
    Route(Url("admin", "students"), "Students"),
    Route(Url("admin", "analytics"), "Analytics")]

  const TeacherRoutes := [
    Route(Url("teacher", "dashboard"), "Dashboard"),
    Route(Url("teacher", "courses"), "My Courses"),
    Route(Url("teacher", "attendance"), "Attendance")]

  const StudentRoutes := [
    Route(Url("student", "dashboard"), "Dashboard"),
    Route(Url("student", "courses"), "My Courses"),
    Route(Url("student", "grades"), "Grades")]

  /** `allRoutes`: the three tables one after another. */
  const AllRoutes := AdminRoutes + TeacherRoutes + StudentRoutes

  predicate KnownRole(role: string) { role == "admin" || role == "teacher" || role == "student" }

  /** `getRoutesByRole(role)`: the role's own table, and none for any other role. */
  function GetRoutesByRole(role: string): (r: seq<Route>)
    ensures !KnownRole(role) <==> r == []
    ensures forall i :: 0 <= i < |r| ==> r[i] in AllRoutes
  {
    match role
    case "admin" => AdminRoutes
    case "teacher" => TeacherRoutes
    case "student" => StudentRoutes
    case _ => []
  }

  /** `getDefaultDashboard(role)` */
  function GetDefaultDashboard(role: string): (r: string)
    ensures !KnownRole(role) ==> r == "/"
  {
    match role
    case "admin" => Url("admin", "dashboard")
    case "teacher" => Url("teacher", "dashboard")
    case "student" => Url("student", "dashboard")
    case _ => "/"
  }

  predicate StartsWith(s: string, prefix: string) { |prefix| <= |s| && s[..|prefix|] == prefix }

  /** `hasRouteAccess(route, role)`: some path of the role is a prefix of the route, character by character. */
  predicate HasRouteAccess(route: string, role: string) {
    var rs := GetRoutesByRole(role);
    exists i :: 0 <= i < |rs| && StartsWith(route, rs[i].path)
  }

  /** Every path in a role's table lies in that role's own area. */
  lemma RoutesStayInRole(role: string)
    ensures forall i :: 0 <= i < |GetRoutesByRole(role)| ==> Under(GetRoutesByRole(role)[i].path, role)
  {
    forall page ensures Under(Url(role, page), role) { UrlUnder(role, page); }
  }

  /** A known role's default dashboard is the first route of its table, so the role may open it; an unknown role gets `/` and no route at all. */
  lemma DefaultDashboardAccessible(role: string, route: string)
    ensures KnownRole(role) ==> GetDefaultDashboard(role) == GetRoutesByRole(role)[0].path
    ensures KnownRole(role) ==> HasRouteAccess(GetDefaultDashboard(role), role)
    ensures !KnownRole(role) ==> !HasRouteAccess(route, role)
  {
    if KnownRole(role) {
      var p := GetRoutesByRole(role)[0].path;
      assert p == Url(role, "dashboard");
      assert p[..|p|] == p;
    }
  }

  /** Access is by string prefix, not by path segment: anything appended to a role's path is still granted. */
  lemma AccessNotSegmentAware(role: string, i: nat, suffix: string)
    requires i < |GetRoutesByRole(role)|
    ensures HasRouteAccess(GetRoutesByRole(role)[i].path + suffix, role)
  {
    var p := GetRoutesByRole(role)[i].path;
    assert (p + suffix)[..|p|] == p;
  }

  /** A path in one role's area is never granted to another role. */
  lemma RoleIsolation(route: string, owner: string, other: string)
    requires KnownRole(owner) && KnownRole(other) && owner != other
    requires Under(route, owner)
    ensures !HasRouteAccess(route, other)
  {
    var rs := GetRoutesByRole(other);
    RoutesStayInRole(other);
    forall i | 0 <= i < |rs| ensures !StartsWith(route, rs[i].path) {
      assert route[1] == ("/" + owner + "/")[1];
      assert rs[i].path[1] == ("/" + other + "/")[1];
    }
  }

  /** A route is in `allRoutes` exactly when it is in one of the three tables. */
  lemma AllRoutesIsUnion(r: Route)
    ensures r in AllRoutes <==> r in GetRoutesByRole("admin") || r in GetRoutesByRole("teacher") || r in GetRoutesByRole("student")
    ensures |AllRoutes| == 10
  {
  }
}
