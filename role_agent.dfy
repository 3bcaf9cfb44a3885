/**
 * The role-based tool-dispatch agent: a role table selecting a tool catalogue
 * and a system prompt, a model node that puts the system prompt in front of
 * the history, a tool node that injects the caller's identity into the
 * context-aware tools, and the routing agent -> (tools -> agent)* -> END.
 *
 * The language model is an oracle (a function from the messages it is sent
 * to its reply) and each tool is an executor returning Ok(str(result)) or
 * Err(str(exception)).
 */
module RoleAgent {
  import opened Wrappers
  import opened Text
  import opened AgentState

  // ---------------------------------------------------------------- role tables

  /** Every tool the role catalogues can bind. */
  datatype Tool =
    | GetMyProfile
    | GetMySchedule
    | GetMyAttendance
    | GetMyCourses
    | ListAllDepartments
    | GetDepartmentById
    | CreateNewDepartment
    | UpdateExistingDepartment
    | DeleteExistingDepartment
    | ListAllStudents
    | GetStudentById
    | CreateNewStudent
    | UpdateExistingStudent
    | DeleteExistingStudent
    | ListAllTeachers
    | GetTeacherById
    | CreateNewTeacher
    | UpdateExistingTeacher
    | DeleteExistingTeacher
    | GetTeacherCourses
    | GetTeacherCoursesWithStudents
    | GetStudentsInCourse
    | ListAllCourses
    | GetCourseById
    | CreateNewCourse
    | UpdateExistingCourse
    | DeleteExistingCourse
    | ListAllEnrollments
    | GetEnrollmentById
    | GetStudentEnrollmentsWithDetails
    | CreateNewEnrollment
    | UpdateExistingEnrollment
    | DeleteExistingEnrollment
    | ListAllSchedules
    | GetScheduleById
    | GetTeacherSchedule
    | GetCourseSchedule
    | CreateNewSchedule
    | UpdateExistingSchedule
    | DeleteExistingSchedule
    | GetFullTimetable
    | GetSubjectsDetails
    | SaveTimetable
    | GenerateTimetable
    | CreateClassSession
    | GetClassSession
    | GetCourseSessions
    | UpdateClassSession
    | DeleteClassSession
    | MarkStudentAttendance
    | BulkMarkStudentAttendance
    | GetStudentAttendanceRecord
    | GetCourseAttendanceRecords
    | GetStudentAttendanceRecords
    | UpdateStudentAttendance
    | DeleteStudentAttendance
    | GetAllStudentsAttendanceStats
    | MarkTeacherAttendance
    | GetTeacherAttendanceRecord
    | GetTeacherAttendanceRecords
    | UpdateTeacherAttendance
    | DeleteTeacherAttendance
    | GetAllTeachersAttendanceStats
    | GetMyTeacherProfile

  /** The leading word of a tool name. */
  datatype Verb = Get | List | Create | Update | Delete | Mark | Bulk | Save | Generate

  function VerbOf(t: Tool): Verb {
    match t
    case GetMyProfile => Get
    case GetMySchedule => Get
    case GetMyAttendance => Get
    case GetMyCourses => Get
    case ListAllDepartments => List
    case GetDepartmentById => Get
    case CreateNewDepartment => Create
    case UpdateExistingDepartment => Update
    case DeleteExistingDepartment => Delete
    case ListAllStudents => List
    case GetStudentById => Get
    case CreateNewStudent => Create
    case UpdateExistingStudent => Update
    case DeleteExistingStudent => Delete
    case ListAllTeachers => List
    case GetTeacherById => Get
    case CreateNewTeacher => Create
    case UpdateExistingTeacher => Update
    case DeleteExistingTeacher => Delete
    case GetTeacherCourses => Get
    case GetTeacherCoursesWithStudents => Get
    case GetStudentsInCourse => Get
    case ListAllCourses => List
    case GetCourseById => Get
    case CreateNewCourse => Create
    case UpdateExistingCourse => Update
    case DeleteExistingCourse => Delete
    case ListAllEnrollments => List
    case GetEnrollmentById => Get
    case GetStudentEnrollmentsWithDetails => Get
    case CreateNewEnrollment => Create
    case UpdateExistingEnrollment => Update
    case DeleteExistingEnrollment => Delete
    case ListAllSchedules => List
    case GetScheduleById => Get
    case GetTeacherSchedule => Get
    case GetCourseSchedule => Get
    case CreateNewSchedule => Create
    case UpdateExistingSchedule => Update
    case DeleteExistingSchedule => Delete
    case GetFullTimetable => Get
    case GetSubjectsDetails => Get
    case SaveTimetable => Save
    case GenerateTimetable => Generate
    case CreateClassSession => Create
    case GetClassSession => Get
    case GetCourseSessions => Get
    case UpdateClassSession => Update
    case DeleteClassSession => Delete
    case MarkStudentAttendance => Mark
    case BulkMarkStudentAttendance => Bulk
    case GetStudentAttendanceRecord => Get
    case GetCourseAttendanceRecords => Get
    case GetStudentAttendanceRecords => Get
    case UpdateStudentAttendance => Update
    case DeleteStudentAttendance => Delete
    case GetAllStudentsAttendanceStats => Get
    case MarkTeacherAttendance => Mark
    case GetTeacherAttendanceRecord => Get
    case GetTeacherAttendanceRecords => Get
    case UpdateTeacherAttendance => Update
    case DeleteTeacherAttendance => Delete
    case GetAllTeachersAttendanceStats => Get
    case GetMyTeacherProfile => Get
  }

  /** The tool name after its leading word and underscore. */
  function Noun(t: Tool): string {
    match t
    case GetMyProfile => "my_profile"
    case GetMySchedule => "my_schedule"
    case GetMyAttendance => "my_attendance"
    case GetMyCourses => "my_courses"
    case ListAllDepartments => "all_departments"
    case GetDepartmentById => "department_by_id"
    case CreateNewDepartment => "new_department"
    case UpdateExistingDepartment => "existing_department"
    case DeleteExistingDepartment => "existing_department"
    case ListAllStudents => "all_students"
    case GetStudentById => "student_by_id"
    case CreateNewStudent => "new_student"
    case UpdateExistingStudent => "existing_student"
    case DeleteExistingStudent => "existing_student"
    case ListAllTeachers => "all_teachers"
    case GetTeacherById => "teacher_by_id"
    case CreateNewTeacher => "new_teacher"
    case UpdateExistingTeacher => "existing_teacher"
    case DeleteExistingTeacher => "existing_teacher"
    case GetTeacherCourses => "teacher_courses"
    case GetTeacherCoursesWithStudents => "teacher_courses_with_students"
    case GetStudentsInCourse => "students_in_course"
    case ListAllCourses => "all_courses"
    case GetCourseById => "course_by_id"
    case CreateNewCourse => "new_course"
    case UpdateExistingCourse => "existing_course"
    case DeleteExistingCourse => "existing_course"
    case ListAllEnrollments => "all_enrollments"
    case GetEnrollmentById => "enrollment_by_id"
    case GetStudentEnrollmentsWithDetails => "student_enrollments_with_details"
    case CreateNewEnrollment => "new_enrollment"
    case UpdateExistingEnrollment => "existing_enrollment"
    case DeleteExistingEnrollment => "existing_enrollment"
    case ListAllSchedules => "all_schedules"
    case GetScheduleById => "schedule_by_id"
    case GetTeacherSchedule => "teacher_schedule"
    case GetCourseSchedule => "course_schedule"
    case CreateNewSchedule => "new_schedule"
    case UpdateExistingSchedule => "existing_schedule"
    case DeleteExistingSchedule => "existing_schedule"
    case GetFullTimetable => "full_timetable"
    case GetSubjectsDetails => "subjects_details"
    case SaveTimetable => "timetable"
    case GenerateTimetable => "timetable"
    case CreateClassSession => "class_session"
    case GetClassSession => "class_session"
    case GetCourseSessions => "course_sessions"
    case UpdateClassSession => "class_session"
    case DeleteClassSession => "class_session"
    case MarkStudentAttendance => "student_attendance"
    case BulkMarkStudentAttendance => "mark_student_attendance"
    case GetStudentAttendanceRecord => "student_attendance_record"
    case GetCourseAttendanceRecords => "course_attendance_records"
    case GetStudentAttendanceRecords => "student_attendance_records"
    case UpdateStudentAttendance => "student_attendance"
    case DeleteStudentAttendance => "student_attendance"
    case GetAllStudentsAttendanceStats => "all_students_attendance_stats"
    case MarkTeacherAttendance => "teacher_attendance"
    case GetTeacherAttendanceRecord => "teacher_attendance_record"
    case GetTeacherAttendanceRecords => "teacher_attendance_records"
    case UpdateTeacherAttendance => "teacher_attendance"
    case DeleteTeacherAttendance => "teacher_attendance"
    case GetAllTeachersAttendanceStats => "all_teachers_attendance_stats"
    case GetMyTeacherProfile => "my_teacher_profile"
  }

  const AdminSelfService: seq<Tool> := [
    GetMyProfile, GetMySchedule, GetMyAttendance, GetMyCourses
  ]
  const AdminDepartmentManagement: seq<Tool> := [
    ListAllDepartments, GetDepartmentById, CreateNewDepartment, UpdateExistingDepartment,
    DeleteExistingDepartment
  ]
  const AdminStudentManagement: seq<Tool> := [
    ListAllStudents, GetStudentById, CreateNewStudent, UpdateExistingStudent, DeleteExistingStudent
  ]
  const AdminTeacherManagement: seq<Tool> := [
    ListAllTeachers, GetTeacherById, CreateNewTeacher, UpdateExistingTeacher,
    DeleteExistingTeacher, GetTeacherCourses, GetTeacherCoursesWithStudents, GetStudentsInCourse
  ]
  const AdminCourseManagement: seq<Tool> := [
    ListAllCourses, GetCourseById, CreateNewCourse, UpdateExistingCourse, DeleteExistingCourse
  ]
  const AdminEnrollmentManagement: seq<Tool> := [
    ListAllEnrollments, GetEnrollmentById, GetStudentEnrollmentsWithDetails, CreateNewEnrollment,
    UpdateExistingEnrollment, DeleteExistingEnrollment
  ]
  const AdminScheduleManagement: seq<Tool> := [
    ListAllSchedules, GetScheduleById, GetTeacherSchedule, GetCourseSchedule, CreateNewSchedule,
    UpdateExistingSchedule, DeleteExistingSchedule, GetFullTimetable, GetSubjectsDetails,
    SaveTimetable, GenerateTimetable
  ]
  const AdminAttendanceManagement: seq<Tool> := [
    CreateClassSession, GetClassSession, GetCourseSessions, UpdateClassSession, DeleteClassSession,
    MarkStudentAttendance, BulkMarkStudentAttendance, GetStudentAttendanceRecord,
    GetCourseAttendanceRecords, GetStudentAttendanceRecords, UpdateStudentAttendance,
    DeleteStudentAttendance, GetAllStudentsAttendanceStats, MarkTeacherAttendance,
    GetTeacherAttendanceRecord, GetTeacherAttendanceRecords, UpdateTeacherAttendance,
    DeleteTeacherAttendance, GetAllTeachersAttendanceStats
  ]

  /** `ROLE_TOOLS["ADMIN"]`, group by group in source order. */
  const AdminTools: seq<Tool> :=
    AdminSelfService + AdminDepartmentManagement + AdminStudentManagement + AdminTeacherManagement + AdminCourseManagement + AdminEnrollmentManagement + AdminScheduleManagement + AdminAttendanceManagement

  const TeacherSelfService: seq<Tool> := [
    GetMyProfile, GetMySchedule, GetMyAttendance, GetMyCourses, GetMyTeacherProfile
  ]
  const TeacherViewDepartments: seq<Tool> := [
    ListAllDepartments, GetDepartmentById
  ]
  const TeacherViewStudents: seq<Tool> := [
    ListAllStudents, GetStudentById
  ]
  const TeacherViewTeachers: seq<Tool> := [
    ListAllTeachers, GetTeacherById, GetTeacherCourses, GetTeacherCoursesWithStudents,
    GetStudentsInCourse
  ]
  const TeacherViewCourses: seq<Tool> := [
    ListAllCourses, GetCourseById
  ]
  const TeacherViewEnrollments: seq<Tool> := [
    ListAllEnrollments, GetEnrollmentById, GetStudentEnrollmentsWithDetails
  ]
  const TeacherViewAndManageOwnSchedule: seq<Tool> := [
    ListAllSchedules, GetScheduleById, GetTeacherSchedule, GetCourseSchedule, GetFullTimetable,
    GetSubjectsDetails
  ]
  const TeacherAttendanceManagement: seq<Tool> := [
    CreateClassSession, GetClassSession, GetCourseSessions, UpdateClassSession,
    MarkStudentAttendance, BulkMarkStudentAttendance, GetStudentAttendanceRecord,
    GetCourseAttendanceRecords, GetStudentAttendanceRecords, UpdateStudentAttendance,
    GetAllStudentsAttendanceStats, MarkTeacherAttendance, GetTeacherAttendanceRecord,
    GetTeacherAttendanceRecords
  ]

  /** `ROLE_TOOLS["TEACHER"]`, group by group in source order. */
  const TeacherTools: seq<Tool> :=
    TeacherSelfService + TeacherViewDepartments + TeacherViewStudents + TeacherViewTeachers + TeacherViewCourses + TeacherViewEnrollments + TeacherViewAndManageOwnSchedule + TeacherAttendanceManagement

  const StudentSelfService: seq<Tool> := [
    GetMyProfile, GetMySchedule, GetMyAttendance, GetMyCourses
  ]
  const StudentViewDepartments: seq<Tool> := [
    ListAllDepartments, GetDepartmentById
  ]
  const StudentViewTeachers: seq<Tool> := [
    ListAllTeachers, GetTeacherById
  ]
  const StudentViewCourses: seq<Tool> := [
    ListAllCourses, GetCourseById
  ]
  const StudentViewOwnEnrollments: seq<Tool> := [
    GetStudentEnrollmentsWithDetails
  ]
  const StudentViewSchedulesAndTimetable: seq<Tool> := [
    ListAllSchedules, GetScheduleById, GetCourseSchedule, GetFullTimetable, GetSubjectsDetails
  ]
  const StudentViewOwnAttendance: seq<Tool> := [
    GetStudentAttendanceRecords, GetCourseAttendanceRecords
  ]

  /** `ROLE_TOOLS["STUDENT"]`, group by group in source order. */
  const StudentTools: seq<Tool> :=
    StudentSelfService + StudentViewDepartments + StudentViewTeachers + StudentViewCourses + StudentViewOwnEnrollments + StudentViewSchedulesAndTimetable + StudentViewOwnAttendance

  function VerbPrefix(v: Verb): string {
    match v
    case Get => "get_"
    case List => "list_"
    case Create => "create_"
    case Update => "update_"
    case Delete => "delete_"
    case Mark => "mark_"
    case Bulk => "bulk_"
    case Save => "save_"
    case Generate => "generate_"
  }

  /** The tool's `name`, the function name the tool decorator registers. */
  function Name(t: Tool): string { VerbPrefix(VerbOf(t)) + Noun(t) }

  /** `next((t for t in tools if t.name == name), None)` */
  function Lookup(tools: seq<Tool>, name: string): (r: Option<Tool>)
    ensures r.Some? ==> r.value in tools && Name(r.value) == name
    ensures r.None? <==> forall t :: t in tools ==> Name(t) != name
  {
    if tools == [] then None
    else if Name(tools[0]) == name then Some(tools[0])
    else Lookup(tools[1..], name)
  }

  /**
   * The opening sentence of each role's system prompt.  The lists of what
   * the role may and may not do that follow it are not reproduced.
   */
  const AdminPrompt: string := "You are an administrative assistant for a college management system."
  const TeacherPrompt: string := "You are a teaching assistant for a college management system."
  const StudentPrompt: string := "You are a student assistant for a college management system."

  /** `ROLE_TOOLS.get(role, ROLE_TOOLS["STUDENT"])` */
  function ToolsFor(role: string): (r: seq<Tool>)
    ensures role == "ADMIN" ==> r == AdminTools
    ensures role == "TEACHER" ==> r == TeacherTools
    ensures role != "ADMIN" && role != "TEACHER" ==> r == StudentTools
  {
    if role == "ADMIN" then AdminTools
    else if role == "TEACHER" then TeacherTools
    else StudentTools
  }

  /** `ROLE_PROMPTS.get(role, ROLE_PROMPTS["STUDENT"])` */
  function PromptFor(role: string): (r: string)
    ensures role == "ADMIN" ==> r == AdminPrompt
    ensures role == "TEACHER" ==> r == TeacherPrompt
    ensures role != "ADMIN" && role != "TEACHER" ==> r == StudentPrompt
  {
    if role == "ADMIN" then AdminPrompt
    else if role == "TEACHER" then TeacherPrompt
    else StudentPrompt
  }

  /** Python truthiness of the optional `user_id`: present and non-empty. */
  predicate Truthy(userId: Option<string>) { userId.Some? && userId.value != "" }

  const ContextHead: string := "\n\n**Important Context:**\n- Your current user ID: "
  const ContextRole: string := "\n- Your role: "
  const ContextGuide: string :=
    "\n\n**When users ask about THEIR OWN information, use these tools:**" +
    "\n- \"What is my schedule?\" \U{2192} Use get_my_schedule" +
    "\n- \"Show my attendance\" \U{2192} Use get_my_attendance  " +
    "\n- \"What courses do I teach/take?\" \U{2192} Use get_my_courses" +
    "\n- \"Show my profile\" \U{2192} Use get_my_profile" +
    "\n\nThese tools automatically use the current user's ID ("
  const ContextTail: string := "), so you don't need to ask for IDs when users ask about themselves."

  /** The block appended to the prompt when a user id is known; it names the user id and the role. */
  function ContextBlock(userId: string, role: string): (r: string)
    ensures OccursIn(userId, r) && OccursIn(role, r)
  {
    assert userId <= userId[0..] && role <= role[0..];
    OccursInAppend(userId, userId, ContextHead);
    OccursInAppend(userId, ContextHead + userId, ContextRole);
    OccursInAppend(userId, ContextHead + userId + ContextRole, role);
    OccursInAppend(role, role, ContextHead + userId + ContextRole);
    OccursInAppend(userId, ContextHead + userId + ContextRole + role, ContextGuide);
    OccursInAppend(role, ContextHead + userId + ContextRole + role, ContextGuide);
    OccursInAppend(userId, ContextHead + userId + ContextRole + role + ContextGuide, userId);
    OccursInAppend(role, ContextHead + userId + ContextRole + role + ContextGuide, userId);
    OccursInAppend(userId, ContextHead + userId + ContextRole + role + ContextGuide + userId, ContextTail);
    OccursInAppend(role, ContextHead + userId + ContextRole + role + ContextGuide + userId, ContextTail);
    ContextHead + userId + ContextRole + role + ContextGuide + userId + ContextTail
  }

  /** The system prompt of a normalised role: the table prompt, then the context block iff the user id is truthy. */
  function SystemPrompt(role: string, userId: Option<string>): (r: string)
    ensures PromptFor(role) <= r
    ensures !Truthy(userId) ==> r == PromptFor(role)
    ensures Truthy(userId) ==> r[|PromptFor(role)|..] == ContextBlock(userId.value, role)
  {
    if Truthy(userId) then PromptFor(role) + ContextBlock(userId.value, role) else PromptFor(role)
  }

  /** A compiled agent: everything `create_role_based_agent` fixes, plus the oracle and the executors. */
  datatype Agent = Agent(
    role: string,
    tools: seq<Tool>,
    prompt: string,
    userId: Option<string>,
    llm: seq<Message> -> Reply,
    exec: (Tool, map<string, Arg>) -> Result<string, string>)

  /** `create_role_based_agent(user_role, user_id)` */
  function CreateAgent(
    userRole: string, userId: Option<string>,
    llm: seq<Message> -> Reply,
    exec: (Tool, map<string, Arg>) -> Result<string, string>): (a: Agent)
    ensures a.role == Upper(userRole)
    ensures a.tools == ToolsFor(a.role) && a.prompt == SystemPrompt(a.role, userId)
    ensures a.userId == userId && a.llm == llm && a.exec == exec
  {
    var role := Upper(userRole);
    Agent(role, ToolsFor(role), SystemPrompt(role, userId), userId, llm, exec)
  }

  // ---------------------------------------------------------------- model node

  /** `len(messages) > 0 and messages[0].type == 'system'` */
  predicate StartsWithSystem(log: seq<Message>) { |log| > 0 && IsSystem(log[0]) }

  /** The messages `call_model` sends to the model. */
  function ModelInput(log: seq<Message>, prompt: string): (r: seq<Message>)
    ensures StartsWithSystem(r)
    ensures StartsWithSystem(log) ==> r == log
    ensures !StartsWithSystem(log) ==> r == [SystemMsg(Text(prompt))] + log
  {
    if StartsWithSystem(log) then log else [SystemMsg(Text(prompt))] + log
  }

  /** The prompt is never duplicated: a history without system messages is sent with exactly one, first. */
  lemma {:induction false} ModelInputSingleSystem(log: seq<Message>, prompt: string)
    requires CountSystem(log) == 0
    ensures CountSystem(ModelInput(log, prompt)) == 1
    ensures ModelInput(log, prompt)[1..] == log
  {
    var r := ModelInput(log, prompt);
    assert r[1..] == log;
  }

  /** The model node's reply to the current history. */
  function Respond(a: Agent, log: seq<Message>): Message {
    AsMessage(a.llm(ModelInput(log, a.prompt)))
  }

  /** `call_model`: exactly one new message, the oracle's reply to the prefixed history. */
  function CallModel(a: Agent, log: seq<Message>): (r: seq<Message>)
    ensures |r| == 1 && r[0].AiMsg?
    ensures r[0] == AsMessage(a.llm(ModelInput(log, a.prompt)))
  {
    [Respond(a, log)]
  }

  // ---------------------------------------------------------------- tool node

  const ContextAwareTools: seq<string> :=
    ["get_my_schedule", "get_my_attendance", "get_my_courses", "get_my_profile", "get_my_teacher_profile"]

  /**
   * Identity injection on the copied arguments: `user_id` only when absent and
   * the agent's user id is truthy, `user_role` only when absent; values the
   * model supplied are kept, and other tools get their arguments unchanged.
   */
  function InjectIdentity(name: string, args: map<string, Arg>, userId: Option<string>, role: string)
    : (r: map<string, Arg>)
    ensures name !in ContextAwareTools ==> r == args
    ensures forall k :: k in args ==> k in r && r[k] == args[k]
    ensures forall k :: k in r ==> k in args || k == "user_id" || k == "user_role"
    ensures "user_id" in r <==> "user_id" in args || (name in ContextAwareTools && Truthy(userId))
    ensures "user_id" !in args && "user_id" in r ==> r["user_id"] == JStr(userId.value)
    ensures "user_role" in r <==> "user_role" in args || name in ContextAwareTools
    ensures "user_role" !in args && "user_role" in r ==> r["user_role"] == JStr(role)
  {
    if name in ContextAwareTools then
      var a1 := if "user_id" !in args && Truthy(userId) then args["user_id" := JStr(userId.value)] else args;
      if "user_role" !in a1 then a1["user_role" := JStr(role)] else a1
    else args
  }

  /** The content of the tool message answering one call. */
  function ToolOutcome(a: Agent, call: ToolCall): string {
    match Lookup(a.tools, call.name)
    case Some(t) =>
      (match a.exec(t, InjectIdentity(call.name, call.args, a.userId, a.role))
       case Ok(s) => s
       case Err(e) => "Error executing " + call.name + ": " + e)
    case None => "Tool " + call.name + " not found"
  }

  /** The tool calls of the last message, or none. */
  function LastCalls(log: seq<Message>): seq<ToolCall> {
    if |log| > 0 && log[|log| - 1].AiMsg? then log[|log| - 1].toolCalls else []
  }

  /** What `call_tools` returns, one message per call, as a value. */
  function ToolMessages(a: Agent, log: seq<Message>): (r: seq<Message>)
    ensures |r| == |LastCalls(log)|
  {
    var calls := LastCalls(log);
    seq(|calls|, i requires 0 <= i < |calls| => ToolMsg(Text(ToolOutcome(a, calls[i])), calls[i].id))
  }

  /** One iteration of `call_tools`: copy the arguments, inject identity, resolve and run the tool. */
  method RunToolCall(a: Agent, call: ToolCall) returns (m: Message)
    ensures m == ToolMsg(Text(ToolOutcome(a, call)), call.id)
  {
    var args := call.args;
    if call.name in ContextAwareTools {
      if "user_id" !in args && Truthy(a.userId) {
        args := args["user_id" := JStr(a.userId.value)];
      }
      if "user_role" !in args {
        args := args["user_role" := JStr(a.role)];
      }
    }
    assert args == InjectIdentity(call.name, call.args, a.userId, a.role);
    var content: string;
    var found := Lookup(a.tools, call.name);
    if found.Some? {
      var outcome := a.exec(found.value, args);
      match outcome {
        case Ok(s) => content := s;
        case Err(e) => content := "Error executing " + call.name + ": " + e;
      }
    } else {
      content := "Tool " + call.name + " not found";
    }
    m := ToolMsg(Text(content), call.id);
  }

  /** `call_tools`: runs the last message's tool calls in order, one result message per call. */
  method CallTools(a: Agent, log: seq<Message>) returns (msgs: seq<Message>)
    ensures msgs == ToolMessages(a, log)
    ensures |msgs| == |LastCalls(log)|
    ensures forall i :: 0 <= i < |msgs| ==>
      msgs[i].ToolMsg? && msgs[i].toolCallId == LastCalls(log)[i].id
    ensures LastCalls(log) == [] ==> msgs == []
  {
    var calls := LastCalls(log);
    msgs := [];
    if calls == [] {
      return;
    }
    var i := 0;
    while i < |calls|
      invariant 0 <= i <= |calls|
      invariant |msgs| == i
      invariant forall j :: 0 <= j < i ==> msgs[j] == ToolMsg(Text(ToolOutcome(a, calls[j])), calls[j].id)
    {
      var m := RunToolCall(a, calls[i]);
      msgs := msgs + [m];
      i := i + 1;
    }
  }

  /** A name outside the role's catalogue is answered without running anything: the executor is irrelevant. */
  lemma OutOfRoleNotExecuted(a: Agent, call: ToolCall, exec2: (Tool, map<string, Arg>) -> Result<string, string>)
    requires forall t :: t in a.tools ==> Name(t) != call.name
    ensures ToolOutcome(a, call) == "Tool " + call.name + " not found"
    ensures ToolOutcome(a.(exec := exec2), call) == ToolOutcome(a, call)
  {
  }

  // ---------------------------------------------------------------- routing

  datatype Node = AgentNode | ToolsNode | EndNode

  const Entry: Node := AgentNode

  /** `should_continue` */
  function ShouldContinue(log: seq<Message>): (n: Node)
    requires |log| > 0
    ensures n == ToolsNode <==> HasToolCalls(log[|log| - 1])
    ensures n == EndNode <==> !HasToolCalls(log[|log| - 1])
  {
    if HasToolCalls(log[|log| - 1]) then ToolsNode else EndNode
  }

  /** The graph's edges: conditional after the agent, unconditional back from the tools. */
  function Next(n: Node, log: seq<Message>): (m: Node)
    requires |log| > 0
    ensures n == ToolsNode ==> m == AgentNode
    ensures m == EndNode && n != EndNode ==> n == AgentNode
    ensures n == AgentNode ==> m != AgentNode
  {
    match n
    case AgentNode => ShouldContinue(log)
    case ToolsNode => AgentNode
    case EndNode => EndNode
  }

  /**
   * A compiled agent -> (tools -> agent)* -> END graph run from the entry node
   * with at most `fuel` model calls: `respond` is the model node's reply to
   * the history and `tools` the tool node's update.  The graph itself has no
   * cap; `None` means the run has not finished within `fuel` calls.
   */
  function GraphRun(respond: seq<Message> -> Message, tools: seq<Message> -> seq<Message>,
                    log: seq<Message>, fuel: nat): Option<seq<Message>>
    decreases fuel
  {
    if fuel == 0 then None
    else
      var log1 := Merge(log, [respond(log)]);
      if Next(AgentNode, log1) == EndNode then Some(log1)
      else GraphRun(respond, tools, Merge(log1, tools(log1)), fuel - 1)
  }

  /** A finished run extends the initial log and ends with a message that requests no tools. */
  lemma {:induction false} GraphRunAppendOnly(respond: seq<Message> -> Message,
                                              tools: seq<Message> -> seq<Message>,
                                              log: seq<Message>, fuel: nat)
    requires GraphRun(respond, tools, log, fuel).Some?
    ensures log < GraphRun(respond, tools, log, fuel).value
    ensures var r := GraphRun(respond, tools, log, fuel).value; !HasToolCalls(r[|r| - 1])
    decreases fuel
  {
    var log1 := Merge(log, [respond(log)]);
    if Next(AgentNode, log1) != EndNode {
      var log2 := Merge(log1, tools(log1));
      GraphRunAppendOnly(respond, tools, log2, fuel - 1);
      assert log < log1 <= log2;
    }
  }

  /** A finished run ends with the model's reply to the history before it. */
  lemma {:induction false} GraphRunEndsWithReply(respond: seq<Message> -> Message,
                                                 tools: seq<Message> -> seq<Message>,
                                                 log: seq<Message>, fuel: nat)
    requires GraphRun(respond, tools, log, fuel).Some?
    ensures var r := GraphRun(respond, tools, log, fuel).value; |r| > 0 && r[|r| - 1] == respond(r[..|r| - 1])
    decreases fuel
  {
    var log1 := Merge(log, [respond(log)]);
    if Next(AgentNode, log1) != EndNode {
      GraphRunEndsWithReply(respond, tools, Merge(log1, tools(log1)), fuel - 1);
    } else {
      assert log1[..|log1| - 1] == log;
    }
  }

  /** More fuel never changes a finished run: the outcome depends only on the oracle. */
  lemma {:induction false} GraphRunFuelMonotone(respond: seq<Message> -> Message,
                                                tools: seq<Message> -> seq<Message>,
                                                log: seq<Message>, fuel: nat, more: nat)
    requires GraphRun(respond, tools, log, fuel).Some?
    ensures GraphRun(respond, tools, log, fuel + more) == GraphRun(respond, tools, log, fuel)
    decreases fuel
  {
    var log1 := Merge(log, [respond(log)]);
    if Next(AgentNode, log1) != EndNode {
      GraphRunFuelMonotone(respond, tools, Merge(log1, tools(log1)), fuel - 1, more);
    }
  }

  /** A model that always asks for a tool keeps the graph looping: no fuel ever suffices. */
  lemma {:induction false} GraphRunNoCap(respond: seq<Message> -> Message,
                                         tools: seq<Message> -> seq<Message>,
                                         log: seq<Message>, fuel: nat)
    requires forall h :: HasToolCalls(respond(h))
    ensures GraphRun(respond, tools, log, fuel).None?
    decreases fuel
  {
    if fuel > 0 {
      var log1 := Merge(log, [respond(log)]);
      assert log1[|log1| - 1] == respond(log);
      GraphRunNoCap(respond, tools, Merge(log1, tools(log1)), fuel - 1);
    }
  }

  /** The role agent's "agent" node. */
  function ModelNode(a: Agent): seq<Message> -> Message {
    h => Respond(a, h)
  }

  /** The role agent's "tools" node. */
  function ToolNode(a: Agent): seq<Message> -> seq<Message> {
    h => ToolMessages(a, h)
  }

  /** The role agent's compiled graph. */
  function Run(a: Agent, log: seq<Message>, fuel: nat): Option<seq<Message>> {
    GraphRun(ModelNode(a), ToolNode(a), log, fuel)
  }

  /** No iteration cap: an oracle that always requests a tool never lets the role agent finish. */
  lemma NoIterationCap(a: Agent, log: seq<Message>, fuel: nat)
    requires forall h :: |a.llm(h).toolCalls| > 0
    ensures Run(a, log, fuel).None?
  {
    GraphRunNoCap(ModelNode(a), ToolNode(a), log, fuel);
  }

  /** Termination is up to the oracle: once it answers without tool calls the run ends there. */
  lemma OracleAnswersDirectly(a: Agent, log: seq<Message>, fuel: nat)
    requires fuel > 0
    requires a.llm(ModelInput(log, a.prompt)).toolCalls == []
    ensures Run(a, log, fuel) == Some(log + [Respond(a, log)])
  {
  }

  // ---------------------------------------------------------------- catalogue facts

  /** A tool whose name starts with one of the writing verbs. */
  predicate MutatingName(name: string) {
    "create_" <= name || "update_" <= name || "delete_" <= name ||
    "mark_" <= name || "bulk_" <= name || "save_" <= name || "generate_" <= name
  }

  /** The name prefix test agrees with the tool's verb. */
  lemma NameMutatingIffVerb(t: Tool)
    ensures MutatingName(Name(t)) <==> VerbOf(t) !in {Get, List}
  {
    MutatingPrefix(VerbOf(t), Noun(t));
  }

  lemma MutatingPrefix(v: Verb, noun: string)
    ensures MutatingName(VerbPrefix(v) + noun) <==> v !in {Get, List}
  {
    var name := VerbPrefix(v) + noun;
    match v
    case Get => assert name[0] == 'g' && name[2] == 't';
    case List => assert name[0] == 'l';
    case _ => assert VerbPrefix(v) <= name;
  }

  /** The four self-service tools of the STUDENT catalogue are in every role's catalogue. */
  lemma CataloguesHaveSelfServiceTools(t: Tool)
    requires t in StudentSelfService
    ensures t in AdminTools && t in TeacherTools && t in StudentTools
  {
    assert AdminSelfService == StudentSelfService;
    SelfServiceInAdmin(t);
    assert t in TeacherSelfService;
    SelfServiceInTeacher(t);
  }

  lemma SelfServiceInAdmin(t: Tool)
    requires t in AdminSelfService
    ensures t in AdminTools
  {
  }

  lemma SelfServiceInTeacher(t: Tool)
    requires t in TeacherSelfService
    ensures t in TeacherTools
  {
  }

  /** The STUDENT catalogue only reads: no create_/update_/delete_/mark_/bulk_/save_/generate_ tool. */
  lemma StudentCatalogueReadOnly(t: Tool)
    requires t in StudentTools
    ensures !MutatingName(Name(t))
  {
    StudentToolsRead(t);
    NameMutatingIffVerb(t);
  }

  /** Every STUDENT tool has the get or the list verb. */
  lemma StudentToolsRead(t: Tool)
    requires t in StudentTools
    ensures VerbOf(t) == Get || VerbOf(t) == List
  {
    if t in StudentSelfService + StudentViewDepartments {
      StudentSelfServiceRead(t);
    } else if t in StudentViewTeachers + StudentViewCourses {
      StudentViewsRead(t);
    } else {
      StudentOwnRecordsRead(t);
    }
  }

  lemma StudentSelfServiceRead(t: Tool)
    requires t in StudentSelfService + StudentViewDepartments
    ensures VerbOf(t) == Get || VerbOf(t) == List
  {
  }

  lemma StudentViewsRead(t: Tool)
    requires t in StudentViewTeachers + StudentViewCourses
    ensures VerbOf(t) == Get || VerbOf(t) == List
  {
  }

  lemma StudentOwnRecordsRead(t: Tool)
    requires t in StudentViewOwnEnrollments + StudentViewSchedulesAndTimetable + StudentViewOwnAttendance
    ensures VerbOf(t) == Get || VerbOf(t) == List
  {
  }

  /** Only the delete verb gives a name starting with "delete_". */
  lemma DeletePrefixIffVerb(t: Tool)
    ensures "delete_" <= Name(t) <==> VerbOf(t) == Delete
  {
    DeletePrefix(VerbOf(t), Noun(t));
  }

  lemma DeletePrefix(v: Verb, noun: string)
    ensures "delete_" <= VerbPrefix(v) + noun <==> v == Delete
  {
    assert (VerbPrefix(v) + noun)[0] == VerbPrefix(v)[0];
  }

  lemma TeacherCatalogueHasNoDelete(t: Tool)
    requires t in TeacherTools
    ensures !("delete_" <= Name(t))
  {
    TeacherToolsKeep(t);
    DeletePrefixIffVerb(t);
  }

  /** No TEACHER tool has the delete verb. */
  lemma TeacherToolsKeep(t: Tool)
    requires t in TeacherTools
    ensures VerbOf(t) != Delete
  {
    if t in TeacherSelfService + TeacherViewDepartments {
      TeacherSelfServiceKeeps(t);
    } else if t in TeacherViewStudents + TeacherViewTeachers {
      TeacherViewsKeep(t);
    } else if t in TeacherViewCourses + TeacherViewEnrollments + TeacherViewAndManageOwnSchedule {
      TeacherCourseViewsKeep(t);
    } else {
      TeacherAttendanceKeeps(t);
    }
  }

  lemma TeacherSelfServiceKeeps(t: Tool)
    requires t in TeacherSelfService + TeacherViewDepartments
    ensures VerbOf(t) != Delete
  {
  }

  lemma TeacherViewsKeep(t: Tool)
    requires t in TeacherViewStudents + TeacherViewTeachers
    ensures VerbOf(t) != Delete
  {
  }

  lemma TeacherCourseViewsKeep(t: Tool)
    requires t in TeacherViewCourses + TeacherViewEnrollments + TeacherViewAndManageOwnSchedule
    ensures VerbOf(t) != Delete
  {
  }

  lemma TeacherAttendanceKeeps(t: Tool)
    requires t in TeacherAttendanceManagement
    ensures VerbOf(t) != Delete
  {
  }

  lemma OnlyTeacherHasTeacherProfile()
    ensures GetMyTeacherProfile in TeacherTools
    ensures GetMyTeacherProfile !in AdminTools && GetMyTeacherProfile !in StudentTools
  {
    var t := GetMyTeacherProfile;
    assert t in TeacherSelfService;
    assert t !in AdminSelfService && t !in AdminDepartmentManagement && t !in AdminStudentManagement;
    assert t !in AdminTeacherManagement && t !in AdminCourseManagement;
    assert t !in AdminEnrollmentManagement && t !in AdminScheduleManagement;
    assert t !in AdminAttendanceManagement;
    assert t !in StudentSelfService && t !in StudentViewDepartments && t !in StudentViewTeachers;
    assert t !in StudentViewCourses && t !in StudentViewOwnEnrollments;
    assert t !in StudentViewSchedulesAndTimetable && t !in StudentViewOwnAttendance;
  }

  /** Roles are upper-cased first; anything but ADMIN/TEACHER gets the STUDENT catalogue and prompt. */
  lemma UnknownRoleIsStudent(userRole: string, userId: Option<string>,
                              llm: seq<Message> -> Reply,
                              exec: (Tool, map<string, Arg>) -> Result<string, string>)
    requires Upper(userRole) != "ADMIN" && Upper(userRole) != "TEACHER"
    ensures CreateAgent(userRole, userId, llm, exec).tools == StudentTools
    ensures StudentPrompt <= CreateAgent(userRole, userId, llm, exec).prompt
  {
  }
}
