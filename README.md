# Academia in Dafny

A model of the core of Academia, a college-management application. Its
backend is a FastAPI service over a Prisma database with a LangGraph tool
agent; its frontend is a React administration, teacher and student portal.
The model keeps one Dafny module per source file and states what that file
computes.

**The agent.** The role-based agent (`RoleAgent`) has a role table with a
STUDENT fallback and a system prompt built from that table. Its tool node
answers every tool call with one tool message and adds the caller's
identity to the five self-service tools. The graph runs agent → (tools →
agent)* → END. `AgentState` is the append-only message log the graph
merges into. `AdminAgent` and `DepartmentAgent` are the older single-role
agents. `AgentQuery` extracts the answer the query route returns. The
language model is a function from the message log to a reply. Tool
executors are functions returning a result or an error.

**The self-service tools.** `ContextTools` models `get_my_schedule`,
`get_my_attendance`, `get_my_courses` and `get_my_profile`: their role
branches, their not-found errors and their counts.

**The timetable service.** `ScheduleTime` is the time-string parser.
`ScheduleService` builds the teacher, student and full grids, and the
subject details. `ScheduleSave` models `save_timetable`: the nested walk
over the grid, the cells it skips, and the upsert keyed by (course, day,
start time).

**The backend tools and services.**
- `AttendanceTool` models single and bulk attendance marking: finding or
  creating the session, and resolving roll numbers through a cache.
- `CourseTool` models the course list and the course lookup precedence
  shared by get, update and delete, with the relations each query loads.
- `Conversations` models the ownership-checked conversation table, as a
  class over a map.
- `Validators` models the e-mail, password and id validators.
- `AuthMiddleware` models the bearer-header middleware.

**The frontend logic.**
- The role and route tables: `RolesConfig`, `RoutesConfig`.
- The student attendance service and the three attendance pages:
  `StudentAttendanceService`, `AttendanceStats`, `StudentAttendancePage`,
  `AdminAttendancePage`, `TeacherAttendancePage`.
- The administrator's forms and list filters: `StudentsPage`,
  `EnrollmentsPage`, `CoursePage`, `DepartmentsPage`, `TeachersPage`,
  `FormErrors`.
- The profile page: `ProfilePage`.
- The timetable panel and the two teacher pages: `TimetablePanel`,
  `TeacherTimetablePage`, `TeacherStudentsPage`, `TeacherView`.

`Records` holds the database rows as values. `Wrappers`, `Seqs`, `Text`
and `JsNumbers` hold the Option/Result types, the sequence helpers, the
string helpers and JavaScript's `parseInt`.

**How effects are modelled.**
- The database is passed in and returned as a value.
- The clock, today's date, the weekday and generated ids are parameters.
- HTTP requests made by the pages are parameters that answer with data or
  a failure.
- The code that loops or updates state is written as methods with loop
  invariants: the tool node, the grid builders, `save_timetable`, the bulk
  id resolution, the frontend groupings and the form validators. Each
  method is proved against a function that states its result.

### Where the files disagree

Several files of the application contradict one another. The model states
each contradiction as a lemma rather than reconciling them:
- **What counts as attended.** `get_my_attendance` counts only PRESENT
  (`ContextTools.LateIsNotAttended`). The student attendance page counts
  PRESENT and LATE (`StudentAttendancePage.PageCountsLateAsAttended`).
- **Minimum password length.** The backend validator asks for 8
  characters; the student form asks for 6 (`StudentsPage.PasswordRulesDiffer`).
- **Student id formats.** The backend student id is `ST` and seven digits.
  The form's roll number starts `1RV`. No string passes both checks
  (`StudentsPage.FormAndBackendIdsDisjoint`).
- **Attendance thresholds.** The administrator's badge uses 75 and 60. The
  student service and page use 90, 75 and 60, so the admin badge shows
  EXCELLENT and GOOD alike (`AdminAttendancePage.BadgeMergesUpperLevels`).
- **The current password.** The profile page asks for it and never sends
  it (`ProfilePage.CurrentPasswordNotSent`).

## Model

| member | source | states |
|---|---|---|
| AgentState.Merge | backend/src/graph/agent_state.py:5-6 | the merged log is the old log followed by the node's update: its length is the sum of both, the old log is its prefix and the update its suffix |
| AgentState.MergeKeepsPrefix | backend/src/graph/agent_state.py:6 | a merge never removes or reorders a message: the old log is a prefix of the new one, position by position |
| AgentState.MergeEmpty | backend/src/graph/agent_state.py:6 | merging an empty update leaves the log unchanged |
| AgentState.MergeAssociative | backend/src/graph/agent_state.py:6 | two successive merges give the same log as one merge of the two updates concatenated |
| RoleAgent.Lookup | backend/src/agents/role_based_agent.py:467 | the tool found has the requested name and comes from the role's own list; nothing is found exactly when no tool of the list has that name |
| RoleAgent.ToolsFor | backend/src/agents/role_based_agent.py:97-270 | ADMIN and TEACHER get their own catalogues and every other role string gets the STUDENT catalogue |
| RoleAgent.PromptFor | backend/src/agents/role_based_agent.py:273-382 | ADMIN and TEACHER get their own prompts and every other role string gets the STUDENT prompt |
| RoleAgent.ContextBlock | backend/src/agents/role_based_agent.py:405-418 | the appended context block names both the user id and the role |
| RoleAgent.SystemPrompt | backend/src/agents/role_based_agent.py:402-418 | the system prompt starts with the role's table prompt; it is exactly that prompt when the user id is missing or empty, and otherwise the context block follows it |
| RoleAgent.CreateAgent | backend/src/agents/role_based_agent.py:384-421 | the agent's role is the upper-cased role string; its tools and prompt are the ones chosen for that role; the user id, model and executors are kept as given |
| RoleAgent.ModelInput | backend/src/agents/role_based_agent.py:423-433 | what the model is sent always starts with a system message; a history that already starts with one is sent unchanged, and any other history is sent with the prompt prepended |
| RoleAgent.ModelInputSingleSystem | backend/src/agents/role_based_agent.py:426-433 | a history without system messages is sent with exactly one system message, in front of the unchanged history, so the prompt is never duplicated |
| RoleAgent.CallModel | backend/src/agents/role_based_agent.py:423-436 | the model node returns exactly one new message: the model's reply to the history with the system prompt in front |
| RoleAgent.InjectIdentity | backend/src/agents/role_based_agent.py:453-464 | only the five context-aware tools get anything added; user_id is added only when absent and the user id is truthy, and user_role (the normalised role) only when absent; every argument the model supplied is kept with its value |
| RoleAgent.ToolMessages | backend/src/agents/role_based_agent.py:440-493 | the tool node returns one message per tool call of the last message |
| RoleAgent.RunToolCall | backend/src/agents/role_based_agent.py:452-491 | one call is answered with a tool message for its id: str(result) on success, "Error executing {name}: …" when the tool raises, "Tool {name} not found" when the role's list has no tool of that name |
| RoleAgent.CallTools | backend/src/agents/role_based_agent.py:438-493 | the tool node answers the last message's calls in order, one tool message per call carrying that call's id; a message without tool calls yields no messages |
| RoleAgent.OutOfRoleNotExecuted | backend/src/agents/role_based_agent.py:467-491 | a name outside the role's list is answered "Tool {name} not found" whatever the executors would do |
| RoleAgent.ShouldContinue | backend/src/agents/role_based_agent.py:495-499 | routing goes to "tools" exactly when the last message carries a non-empty list of tool calls, and to END otherwise |
| RoleAgent.Next | backend/src/agents/role_based_agent.py:507-515 | "tools" always leads back to "agent", only "agent" can lead to END, and "agent" never leads to itself |
| RoleAgent.GraphRunAppendOnly | backend/src/agents/role_based_agent.py:504-517 | a finished run of the agent/tools loop extends the initial log and ends on a message without tool calls |
| RoleAgent.GraphRunEndsWithReply | backend/src/agents/role_based_agent.py:504-517 | a finished run ends on the model's reply to the history before it |
| RoleAgent.GraphRunFuelMonotone | backend/src/agents/role_based_agent.py:504-517 | a run that finishes within some number of model calls gives the same log when more calls are allowed |
| RoleAgent.GraphRunNoCap | backend/src/agents/role_based_agent.py:509-515 | a model that always requests a tool keeps the loop going: no bound on model calls is ever enough |
| RoleAgent.NoIterationCap | backend/src/agents/role_based_agent.py:502-517 | with a model that always returns tool calls the role agent never reaches END, since the graph has no iteration cap |
| RoleAgent.OracleAnswersDirectly | backend/src/agents/role_based_agent.py:423-499 | when the model's first reply requests no tool the run ends right after it, with that reply appended to the log |
| RoleAgent.NameMutatingIffVerb | backend/src/agents/role_based_agent.py:97-270 | a tool name starts with create_, update_, delete_, mark_, bulk_, save_ or generate_ exactly when its verb is neither get nor list |
| RoleAgent.CataloguesHaveSelfServiceTools | backend/src/agents/role_based_agent.py:98-241 | get_my_profile, get_my_schedule, get_my_attendance and get_my_courses are in every role's list |
| RoleAgent.StudentCatalogueReadOnly | backend/src/agents/role_based_agent.py:236-270 | no STUDENT tool name starts with a writing verb |
| RoleAgent.StudentToolsRead | backend/src/agents/role_based_agent.py:236-270 | every STUDENT tool is a get or a list tool |
| RoleAgent.DeletePrefixIffVerb | backend/src/agents/role_based_agent.py:97-270 | a tool name starts with delete_ exactly when its verb is delete |
| RoleAgent.TeacherCatalogueHasNoDelete | backend/src/agents/role_based_agent.py:179-234 | no TEACHER tool name starts with delete_ |
| RoleAgent.TeacherToolsKeep | backend/src/agents/role_based_agent.py:179-234 | no TEACHER tool has the delete verb |
| RoleAgent.OnlyTeacherHasTeacherProfile | backend/src/agents/role_based_agent.py:98-270 | get_my_teacher_profile is in the TEACHER list and in neither the ADMIN nor the STUDENT list |
| RoleAgent.UnknownRoleIsStudent | backend/src/agents/role_based_agent.py:396-402 | a role that is neither ADMIN nor TEACHER once upper-cased gets exactly the STUDENT tools and a prompt that starts with the STUDENT prompt |
| AdminAgent.FirstTurnInput | backend/src/agents/admin_agent.py:19-25 | the system prompt is put in front exactly when the history holds one message; any other history is sent unchanged |
| AdminAgent.Respond | backend/src/agents/admin_agent.py:18-28 | the model node adds one `ai` message, never a system message |
| AdminAgent.ToolNodeMessages | backend/src/agents/admin_agent.py:39 | the prebuilt tool node answers each call of the last message in order with a tool message for that call's id, runs the call on the arguments exactly as the model wrote them, and adds no system message |
| AdminAgent.CatalogueIsDepartmentsAndStudents | backend/src/agents/admin_agent.py:12-13 | a tool is bound exactly when it is one of the five department tools or one of the five student tools |
| AdminAgent.LaterTurnsCarryNoPrompt | backend/src/agents/admin_agent.py:21-45 | after a model reply and a tool round the history has more than one message, so the model is sent the log unchanged, and a log that had no system message still has none |
| AdminAgent.RunEndsOnReplyWithoutCalls | backend/src/agents/admin_agent.py:30-45 | a finished run of the graph, for any prompt and catalogue, extends its initial log and ends on an `ai` message with no tool calls |
| AdminAgent.SelfServiceUnknownToAdmin | backend/src/agents/admin_agent.py:12-39 | a get_my_* call reaches no bound tool and is answered with the tool node's unknown-tool message |
| AdminAgent.NoSelfServiceAt | backend/src/agents/admin_agent.py:12-13 | no bound tool's name starts with get_my_ |
| DepartmentAgent.CatalogueIsDepartments | backend/src/agents/department_agent.py:14-16 | a tool is bound exactly when it is one of the five department tools, the same ones the admin agent binds |
| DepartmentAgent.FirstTurnPrompt | backend/src/agents/department_agent.py:26-36 | with one message of history the model is sent the department prompt first; with any other history it is sent the log unchanged |
| AgentQuery.ExtractAnswer | backend/src/api/routes/agent_query.py:29-32 | string content is the answer unchanged; list content gives the "text" entry of its first part when that part is a dictionary; an empty list, a first part that is a string, and a dictionary without "text" raise with Python's IndexError, TypeError and KeyError texts |
| AgentQuery.QueryWithAgent | backend/src/api/routes/agent_query.py:14-37 | every failure is HTTP 500 with detail starting "Error processing query: ": a raising run gives its exception text, an empty final log the index error; a success takes the answer from the last message of the final log |
| AgentQuery.FirstCallHasAdminPrompt | backend/src/api/routes/agent_query.py:19-24 | the initial state is one human message, so the first model call is sent the admin system prompt followed by the query |
| AgentQuery.FinishedRunAnswers | backend/src/api/routes/agent_query.py:19-32 | a finished run from the one-message state has more than one message and ends on an `ai` message without tool calls; when its content is a string, the route answers with that string |
| AgentQuery.AnswerOfText | backend/src/api/routes/agent_query.py:27-34 | a final message with string content is answered with that string |
| ContextTools.BranchOf | backend/src/tools/context_aware_tools.py:27-246 | each tool takes the teacher branch exactly for the role string "TEACHER", the student branch exactly for "STUDENT", and the fallback branch for any other string |
| ContextTools.GetMySchedule | backend/src/tools/context_aware_tools.py:12-74 | any other role gets "Schedule not available for admin users"; a missing teacher or student profile gives exactly the "… profile not found" error; a raised exception, the service's own included, gives "Failed to get schedule: …"; a success carries the role, the profile's id, that profile's timetable grid and the role's fixed message |
| ContextTools.AttendancePercentage | backend/src/tools/context_aware_tools.py:127-129 | the percentage is 0 without records, lies between 0 and 100, equals present/total*100, and is 100 exactly when every record is PRESENT |
| ContextTools.GetMyAttendance | backend/src/tools/context_aware_tools.py:77-150 | the role branches, not-found errors and "Failed to get attendance: …" errors as above, including a failing record query; the teacher gets role TEACHER, the records, total_sessions their number and "Found n attendance records"; the student gets role STUDENT, the records, total_classes their number, attended the PRESENT ones, the percentage of those two and "Your attendance: a/t classes (p%)" |
| ContextTools.TeacherAttendanceAsWrittenFails | backend/src/tools/context_aware_tools.py:102-150 | with the service as shipped, a teacher always gets an error: the call of the missing get_teacher_attendance raises and is caught |
| ContextTools.TeacherAttendanceWhenServiceAnswers | backend/src/tools/context_aware_tools.py:92-111 | with a service that answers the teacher's query, the teacher gets the records and their count |
| ContextTools.LateIsNotAttended | backend/src/tools/context_aware_tools.py:127-128 | a LATE record adds one to the total but nothing to the attended count |
| ContextTools.TaughtList | backend/src/tools/context_aware_tools.py:191-198 | the teacher's course list has one entry per course, in table order, each with the course's fields and its department name or None |
| ContextTools.EnrolledList | backend/src/tools/context_aware_tools.py:233-242 | the student's list exists exactly when every enrollment's course exists; it then has one entry per enrollment, in table order, with the teacher's name or "TBA" |
| ContextTools.GetMyCourses | backend/src/tools/context_aware_tools.py:153-254 | the role branches and not-found errors as above; a profile whose user is missing fails on reading its name, an enrollment whose course is missing fails on reading its code; otherwise the teacher's total_courses is the number of courses taught and the student's the number of enrollments, each message quoting that number |
| ContextTools.BaseKeysApart | backend/src/tools/context_aware_tools.py:277-319 | no role profile field has the name of one of the user's own fields, so the merge never overwrites them |
| ContextTools.BaseProfile | backend/src/tools/context_aware_tools.py:277-282 | the base profile has exactly the keys user_id, name, email and role |
| ContextTools.TeacherFields | backend/src/tools/context_aware_tools.py:291-299 | the teacher's fields are exactly the seven teacher keys |
| ContextTools.StudentFields | backend/src/tools/context_aware_tools.py:311-319 | the student's fields are exactly the seven student keys |
| ContextTools.RoleFields | backend/src/tools/context_aware_tools.py:284-321 | a teacher or student role with an existing profile adds that profile's keys; a missing profile or any other role adds nothing |
| ContextTools.GetMyProfile | backend/src/tools/context_aware_tools.py:257-367 | an unknown user gives "User not found" for every role; otherwise the profile always holds the user's user_id, name, email and role, plus exactly the role profile's fields when that profile exists, and the message is the display message of that profile; a raised exception gives "Failed to get profile: …" |
| ContextTools.GetLine | backend/src/tools/context_aware_tools.py:332-349 | a line shows the profile's value under its key, or "N/A" when the key is absent |
| ContextTools.IfLine | backend/src/tools/context_aware_tools.py:335-355 | an optional line is written exactly when the key is present with a truthy value, and then shows that value |
| ContextTools.DisplayMessage | backend/src/tools/context_aware_tools.py:325-356 | the message always starts with the heading, e-mail and role lines, and is exactly those for a role argument other than TEACHER or STUDENT |
| ContextTools.TeacherWithoutProfileShowsNA | backend/src/tools/context_aware_tools.py:284-356 | a teacher without a teacher row gets the teacher section with "N/A" for the id, department and designation and no optional line |
| ContextTools.StudentProfileShowsId | backend/src/tools/context_aware_tools.py:301-356 | a student whose row exists gets the heading and the student section, whose id line shows that row's student id |
| ContextTools.AdminGetsErrors | backend/src/tools/context_aware_tools.py:66-321 | a role other than TEACHER or STUDENT gets an error from the schedule, attendance and course tools, and from the profile tool only the user's own four fields with the heading lines as its message |
| ScheduleTime.PeriodOf | backend/src/services/schedule_service.py:220-238 | a period is found only for the start time of its own slot |
| ScheduleTime.PeriodOfIff | backend/src/services/schedule_service.py:220-238 | exactly 9:00, 10:00, 11:00, 11:30, 12:30, 13:30, 14:30 and 15:30 map to a period, each to its own index 0–7; every other time gives none |
| ScheduleTime.NoPeriodAtMidnight | backend/src/services/schedule_service.py:200-238 | no period starts in hour 0, where 12 AM lands |
| ScheduleTime.NoonPeriod | backend/src/services/schedule_service.py:228-229 | in hour 12 only half past starts a period, period 4 |
| ScheduleTime.ParseTimeToPeriod | backend/src/services/schedule_service.py:180-244 | a parsed period is one of the eight indices 0–7 |
| ScheduleTime.Pieces | backend/src/services/schedule_service.py:192-204 | splitting on ':' always gives at least one piece |
| ScheduleTime.NormalizeTwelveHour | backend/src/services/schedule_service.py:185-189 | "HH:MM AM" and "HH:MM PM" are left unchanged by stripping, upper-casing, the AM/PM spacing and the double-space collapse |
| ScheduleTime.ClockOfTwelveHour | backend/src/services/schedule_service.py:192-201 | "HH:MM AM/PM" is read as hour and minute with PM adding 12 unless the hour is 12 and 12 AM becoming hour 0 |
| ScheduleTime.ClockOfTwentyFourHour | backend/src/services/schedule_service.py:202-206 | "HH:MM" without a marker is read on the 24-hour clock |
| ScheduleTime.PeriodOfTwelveHour | backend/src/services/schedule_service.py:180-238 | a twelve-hour start time parses to the period of its 24-hour clock reading |
| ScheduleTime.TwentyFourHourPeriod | backend/src/services/schedule_service.py:202-238 | a 24-hour "HH:MM" parses to the period of that clock reading, so "14:30" is period 6 like "02:30 PM" |
| ScheduleTime.TwelveOClock | backend/src/services/schedule_service.py:198-238 | "12:MM AM" has no period; "12:MM PM" is period 4 when MM is 30 and has no period otherwise |
| ScheduleTime.UnreadableClockHasNoPeriod | backend/src/services/schedule_service.py:195-244 | a time whose hour or minute int() refuses gives no period instead of raising |
| ScheduleTime.EmptyTimeHasNoPeriod | backend/src/services/schedule_service.py:204-244 | an empty start time gives no period |
| ScheduleTime.PeriodStartsRoundTrip | backend/src/services/schedule_service.py:180-406 | for every period p, parsing the start time the save path stores for p gives p back |
| ScheduleTime.PeriodStartsDistinct | backend/src/services/schedule_service.py:397-406 | distinct periods store distinct start times |
| PyInt.Parse | backend/src/services/schedule_service.py:195-206 | `int()` reads a string of decimal digits as its decimal value |
| PyInt.ParseIntToString | backend/src/services/schedule_service.py:195-196 | `int()` inverts the decimal rendering of every integer |
| ScheduleService.DayIndex | backend/src/services/schedule_service.py:77-103 | MONDAY to FRIDAY map to rows 0–4 and every other day name maps to nothing |
| ScheduleService.RoomOrTba | backend/src/services/schedule_service.py:112 | a cell's room is the schedule's room when it is non-empty and "TBA" otherwise |
| ScheduleService.CourseRaises | backend/src/services/schedule_service.py:109-113 | filling a cell raises exactly when the schedule's course is missing, with Python's message for reading `courseCode` of `None` |
| ScheduleService.AtTimetableIff | backend/src/services/schedule_service.py:100-107 | a schedule falls on day d in period p exactly when its day is the d-th weekday name and its start time parses to p |
| ScheduleService.SetCell | backend/src/services/schedule_service.py:109 | writing one cell keeps the grid 5×8 |
| ScheduleService.EmptyWeek | backend/src/services/schedule_service.py:73-86 | the weekly grid starts 5×8 with every cell empty |
| ScheduleService.Place | backend/src/services/schedule_service.py:100-113 | one pass of the loop body keeps the grid 5×8 |
| ScheduleService.PlaceIs | backend/src/services/schedule_service.py:100-113 | a schedule writes its cell exactly when both its day and its start time map, and otherwise leaves the grid as it was |
| ScheduleService.GridOf | backend/src/services/schedule_service.py:86-113 | the grid after any number of schedules is 5×8 |
| ScheduleService.GridOfCells | backend/src/services/schedule_service.py:100-113 | each cell of the filled grid holds the cell of the last schedule on that day and period and is empty when there is none, so a later schedule overwrites an earlier one |
| ScheduleService.FillWeek | backend/src/services/schedule_service.py:85-115 | the loop that starts from the empty grid and places the schedules in order computes WeekOf: it raises the first placed schedule's error when one has a missing course, and otherwise returns GridOf |
| ScheduleService.FirstRaiseIff | backend/src/services/schedule_service.py:100-113 | the fill raises nothing exactly when every schedule either skips (its day or time does not map) or has its course; when it raises, the error is that of a schedule that was placed |
| ScheduleService.TimetableRaises | backend/src/services/schedule_service.py:100-113 | the weekly grid fails exactly when some schedule whose day and time map has no course, and then the error is the `courseCode` message |
| ScheduleService.TeacherTimetableGrid | backend/src/services/schedule_service.py:67-115 | the teacher's answer is WeekOf the schedules whose teacherId is that teacher's: their grid, or the error of a placed schedule without a course |
| ScheduleService.LastCellOrigin | backend/src/services/schedule_service.py:100-113 | a filled cell holds the cell of some visited schedule that falls into it |
| ScheduleService.TeacherGridSchedules | backend/src/services/schedule_service.py:89-90 | the schedules of a teacher's grid are rows of the table with that teacherId |
| ScheduleService.EnrolledCourseIds | backend/src/services/schedule_service.py:138-145 | the course list holds exactly the courses of the student's enrollments |
| ScheduleService.StudentTimetableGrid | backend/src/services/schedule_service.py:117-175 | the student's answer is WeekOf the schedules of the courses the student is enrolled in |
| ScheduleService.StudentCellFilledIff | backend/src/services/schedule_service.py:138-173 | a cell of the student's grid is filled exactly when a schedule of one of the student's enrolled courses falls into it |
| ScheduleService.EmptyFull | backend/src/services/schedule_service.py:253-274 | the full grid starts with 8 semester rows of two empty 5×8 sections |
| ScheduleService.FullFilledEmpty | backend/src/services/schedule_service.py:267-274 | before any schedule is visited, the empty full grid is the filled one |
| ScheduleService.FullStep | backend/src/services/schedule_service.py:305-334 | one step of the full-grid loop changes only the schedule's own semester row, section 0 |
| ScheduleService.FullRowShape | backend/src/services/schedule_service.py:268-274 | every semester row of a filled grid has two sections, the first 5×8 |
| ScheduleService.FillFull | backend/src/services/schedule_service.py:267-337 | after the loop each semester row holds in section 0 the weekly grid of that semester's schedules, and section 1 stays empty; schedules with an invalid semester, day or time are skipped |
| ScheduleService.FullTimetable | backend/src/services/schedule_service.py:246-337 | the answer fails exactly when one of the fetched schedules has no course, since the first loop reads every schedule's course code, and then the error is the `courseCode` message; otherwise it is the full grid filled from the department's schedules when a department is given, and from every schedule otherwise |
| ScheduleService.FullRowSchedules | backend/src/services/schedule_service.py:277-313 | the schedules of semester row k belong to courses of semester k + 1, and of the requested department when one is given |
| ScheduleService.DetailTeacher | backend/src/services/schedule_service.py:357-375 | a subject shows its course's name and no colour; its teacher is the name of the user behind the course's teacher, or "Unassigned" when there is none |
| ScheduleService.DetailRooms | backend/src/services/schedule_service.py:363-373 | the room codes are the distinct non-empty rooms of the course's schedules, and exactly "TBA" when it has none |
| ScheduleService.DetailsOfLast | backend/src/services/schedule_service.py:355-376 | the details are keyed by exactly the course codes, and each code holds the details of the last course with that code |
| ScheduleService.SubjectsDetails | backend/src/services/schedule_service.py:339-378 | the loop over the courses builds the details map course by course |
| ScheduleSave.TeacherFor | backend/src/services/schedule_service.py:467-497 | a blank, "Unknown" or "TBA" teacher cell falls back to the course's teacher; otherwise the teacher is the course's or the profile of a TEACHER user whose name is the first `+`-separated name, stripped |
| ScheduleSave.CellPlanIff | backend/src/services/schedule_service.py:419-465 | a cell is written exactly when it has three entries, lies in a teaching period 0–7 other than the breaks 2 and 5, names a non-blank course code, a course with that code exists in the semester and, when a department is given, belongs to it |
| ScheduleSave.CellPlanFields | backend/src/services/schedule_service.py:441-505 | a written cell stores a course with the cell's code and semester, the weekday name, the `PERIOD_TIMES` pair of its period and the cell's room, or "TBA" when it is empty |
| ScheduleSave.UpsertEffect | backend/src/services/schedule_service.py:487-519 | an upsert stores the planned row where the key lookup finds it, keeps every id and every row of another key, adds exactly one row carrying the next id exactly when no row had the key, and changes nothing outside the schedule table |
| ScheduleSave.UpsertStores | backend/src/services/schedule_service.py:487-519 | after an upsert the lookup on course, day and start time finds a row holding the planned fields |
| ScheduleSave.UpsertKeepsRows | backend/src/services/schedule_service.py:509-519 | an upsert keeps every id and every row of another key and appends only when no row has the key |
| ScheduleSave.UpsertUnique | backend/src/services/schedule_service.py:487-519 | an upsert keeps course, day and start time unique across schedules |
| ScheduleSave.UpsertKeepsStored | backend/src/services/schedule_service.py:487-519 | a later upsert under another key leaves an earlier upsert's row found and unchanged |
| ScheduleSave.PlannerFrame | backend/src/services/schedule_service.py:441-481 | since the save writes only schedules, each cell's decision taken mid-save equals the one taken on the original store |
| ScheduleSave.UpsertAllOutside | backend/src/services/schedule_service.py:411-522 | the upserts of a save change only the schedule table and its id counter |
| ScheduleSave.SaveDay | backend/src/services/schedule_service.py:419-519 | the period loop performs, in period order, the upserts of the written cells of its day row |
| ScheduleSave.SaveWeek | backend/src/services/schedule_service.py:413-519 | the day loop performs the upserts of every written cell, skipping empty rows and rows past Friday |
| ScheduleSave.SaveTimetable | backend/src/services/schedule_service.py:380-526 | the save answers `True`, and the new store is the original one after the upserts of every written cell in day and period order |
| ScheduleSave.PlannerWellPlaced | backend/src/services/schedule_service.py:417-500 | every written cell carries the weekday name and the start time of its own position |
| ScheduleSave.DayPlansSlots | backend/src/services/schedule_service.py:419-505 | the written cells of one day row lie on that day in pairwise distinct periods |
| ScheduleSave.DayNamesDistinct | backend/src/services/schedule_service.py:394 | the five weekday names differ from one another |
| ScheduleSave.WeekPlansSlots | backend/src/services/schedule_service.py:413-505 | the written cells of the whole request lie on pairwise distinct day and start-time slots |
| ScheduleSave.UpsertAllStores | backend/src/services/schedule_service.py:487-519 | upserting cells on distinct slots leaves every one of them found with its fields |
| ScheduleSave.UpsertAllKeeps | backend/src/services/schedule_service.py:509-519 | the upserts keep every id and every row whose key no written cell names, and only append rows |
| ScheduleSave.UpsertAllUnique | backend/src/services/schedule_service.py:487-519 | the upserts keep schedule keys unique |
| ScheduleSave.SaveWeekEffect | backend/src/services/schedule_service.py:413-519 | the day loop leaves every written cell stored and every other row and id as it was, changes nothing else and keeps keys unique |
| ScheduleSave.SaveTimetableEffect | backend/src/services/schedule_service.py:380-526 | the whole save leaves every written cell stored, every other row and id as it was, nothing else changed and keys unique |
| ScheduleSave.SavedCellReadsBack | backend/src/services/schedule_service.py:484-505 | the row a saved cell becomes falls on the same day and period of the weekly grid and shows the cell's course code and its room or "TBA" |
| AttendanceTool.FindOrCreateSession | backend/src/tools/attendance_tool.py:181-201 | the step computes the session found or created and the store after it, as SessionFor defines them |
| AttendanceTool.SessionForFacts | backend/src/tools/attendance_tool.py:181-282 | the session is the course's, on the class's day, and stored; the first existing one is reused and the store is unchanged, and otherwise exactly one session is appended with the next id, 09:00 AM–10:00 AM, CONDUCTED, taught by the course's teacher or else the marker |
| AttendanceTool.SessionForIdempotent | backend/src/tools/attendance_tool.py:181-201 | marking the same course and day again reuses the session the first mark found or created and creates none |
| AttendanceTool.MarkStudentAttendance | backend/src/tools/attendance_tool.py:134-222 | the tool's answer and the store it leaves are those Mark defines |
| AttendanceTool.MarkErrors | backend/src/tools/attendance_tool.py:158-222 | a failed mark changes nothing: an unknown course code is reported first, then an unknown roll number, then a date that does not parse, and no session is created before all three succeed |
| AttendanceTool.MarkSuccess | backend/src/tools/attendance_tool.py:169-217 | a successful mark appends one row for the student's internal id with the given status and remarks, in a stored session of the course on the class's day, marked by the marker or else the session's teacher; at most one session is added and no other table changes |
| AttendanceTool.ResolveIds | backend/src/tools/attendance_tool.py:286-297 | the resolution loop builds the cache and the sequence of lookups that Cache and Queried define |
| AttendanceTool.CacheContents | backend/src/tools/attendance_tool.py:286-297 | the cache holds exactly the roll numbers that occur in the list and name a student, each mapped to that student's internal id |
| AttendanceTool.QueriedCount | backend/src/tools/attendance_tool.py:286-297 | the number of lookups of one roll number is fixed by whether the final cache holds it |
| AttendanceTool.QueriedCounts | backend/src/tools/attendance_tool.py:286-297 | a roll number that resolves is looked up once however often it occurs, and one that does not is looked up every time it occurs |
| AttendanceTool.Entries | backend/src/tools/attendance_tool.py:300-311 | the rows to mark are one per item whose roll number is in the cache, duplicates included, in input order, with the cached internal id, the item's status and remarks and the session's id |
| AttendanceTool.BuildEntries | backend/src/tools/attendance_tool.py:300-311 | the list-building loop computes Entries |
| AttendanceTool.AddRecords | backend/src/tools/attendance_tool.py:313-318 | the bulk insert appends exactly one row per entry, in order, with that entry's fields and the marker, and changes only the attendance table and its id counter |
| AttendanceTool.BulkMarkStudentAttendance | backend/src/tools/attendance_tool.py:226-330 | the tool's answer and the store it leaves are those Bulk defines |
| AttendanceTool.EntriesOfCache | backend/src/tools/attendance_tool.py:286-311 | the rows built from the cache are one per item whose roll number resolves, in order, with the internal id the lookup gives |
| AttendanceTool.BulkSuccess | backend/src/tools/attendance_tool.py:286-325 | a successful bulk mark stores one row per item whose roll number names a student, in input order and duplicates included, with its internal id, status and remarks; the reported count is the number of rows returned |
| AttendanceTool.BulkErrors | backend/src/tools/attendance_tool.py:249-330 | a failed bulk mark changes nothing: an unknown course code is reported, and a date that does not parse is reported as a failure |
| AttendanceTool.GetStudentAttendanceRecords | backend/src/tools/attendance_tool.py:378-413 | an unknown roll number and an unknown course filter are reported; otherwise the answer is the service's rows for the student's internal id and the course's id, or its failure reported as "get student attendance" |
| CourseTool.Entries | backend/src/tools/course_tool.py:17-56 | the course list has one entry per course |
| CourseTool.ListAllCourses | backend/src/tools/course_tool.py:12-58 | the loop over the courses of an include-less `find_many` builds Entries of the course table without relations, in table order |
| CourseTool.ListShape | backend/src/tools/course_tool.py:20-53 | so every course is listed once, in order, with its own fields and with neither a teacher nor a department block |
| CourseTool.EntriesShape | backend/src/tools/course_tool.py:13-53 | with the relations loaded, as the tool's description promises, a course has a teacher block exactly when its teacher and the teacher's user both exist, with the user's name, and a department block exactly when its department exists |
| CourseTool.ListDropsRelations | backend/src/tools/course_tool.py:17-53 | a course whose teacher, teacher's user and department all exist is listed with no block, where the described list has both |
| CourseTool.LookupOf | backend/src/tools/course_tool.py:81-102 | the lookup is by id when one is given, else by code when one is given, else by name, and there is no lookup when none of the three is given |
| CourseTool.FindCourse | backend/src/tools/course_tool.py:81-106 | with no key the answer is the "Please provide either …" error; a found course is the first in table order answering the lookup (id equality, case-insensitive code equality, case-insensitive name containment); otherwise the error names the search parameter |
| CourseTool.LookupPrecedence | backend/src/tools/course_tool.py:81-106 | the id wins over the code and the name, the code over the name, and a failed lookup's message names the code if given, else the name, else the id, even when the id was used |
| CourseTool.Detail | backend/src/tools/course_tool.py:108-146 | the detail shows the course, and a teacher block and a department block exactly when the list entry read the same way has them, with the same name and email |
| CourseTool.DetailShape | backend/src/tools/course_tool.py:124-143 | with the relations loaded the detail has a teacher block exactly when the teacher and its user exist, with the user's name and the teacher's office room and hours, and a department block exactly when the department exists, with its description |
| CourseTool.RelationsOf | backend/src/tools/course_tool.py:81-100 | the code and name lookups load the relations and the id lookup does not |
| CourseTool.GetCourse | backend/src/tools/course_tool.py:61-146 | the answer succeeds exactly when the lookup does, with the found course's detail read with the relations of that lookup, and otherwise carries the lookup's error |
| CourseTool.GetByIdDropsRelations | backend/src/tools/course_tool.py:81-82 | a course found by its id is shown with neither block |
| CourseTool.GetByCodeOrNameShowsRelations | backend/src/tools/course_tool.py:83-100 | a course found by code or name is shown with its relations loaded |
| CourseTool.Patched | backend/src/tools/course_tool.py:225 | the update keeps the row's id, which a `CourseUpdate` does not carry |
| CourseTool.UpdateRows | backend/src/tools/course_tool.py:225 | the update patches exactly the rows with the target id and leaves the others as they were |
| CourseTool.UpdatedRowFound | backend/src/tools/course_tool.py:225-230 | after the update a row with the target's id exists for the read-back |
| CourseTool.UpdateEffect | backend/src/tools/course_tool.py:178-233 | a failed update changes nothing; a failed lookup answers with the lookup's error, and a service that raises after the lookup answers "Course not found or could not be updated: …"; the update succeeds exactly when the lookup does and nothing raises, changes exactly the rows with the found course's id, by the patch, and answers with the first row that then has that id, read back without relations |
| CourseTool.UpdateAnswersPatched | backend/src/tools/course_tool.py:225-231 | with unique course ids that answer is the found course, patched |
| CourseTool.DeleteEffect | backend/src/tools/course_tool.py:237-286 | a failed delete changes nothing; a failed lookup answers with the lookup's error, and a service that raises after the lookup answers "Course not found or could not be deleted: …"; a successful delete leaves exactly the other rows, in their order, and answers with the target id and the deleted row's code and name |
| CourseTool.DeleteNamesTarget | backend/src/tools/course_tool.py:275-283 | with unique course ids the deleted code and name are those of the course that was found |
| Conversations.Patch | backend/src/services/conversation_service.py:53-64 | the updated row sets the messages (as their JSON text), the thread id and the title exactly when each is given, keeps id, owner and creation time, and takes the update time |
| Conversations.PatchNothing | backend/src/services/conversation_service.py:53-64 | an update with nothing given changes only the update time |
| Conversations.InsertionPoint | backend/src/services/conversation_service.py:25 | the insertion point in a most-recent-first list lies after every row at least as recent and before the first older one |
| Conversations.InsertKeepsOrder | backend/src/services/conversation_service.py:25 | inserting at the insertion point keeps the list ordered by update time, most recent first |
| Conversations.InsertedAt | backend/src/services/conversation_service.py:25 | after an insertion the earlier rows keep their places, the new row sits at the insertion point and the later rows move up one |
| Conversations.CollectStep | backend/src/services/conversation_service.py:21-27 | visiting one more stored id keeps the collected rows sorted, the user's own, complete for the visited ids and free of repeats |
| Conversations.InsertedRows | backend/src/services/conversation_service.py:24 | after an insertion every listed row is a stored row of the user's |
| Conversations.InsertedComplete | backend/src/services/conversation_service.py:24 | after an insertion every visited row of the user's is listed |
| Conversations.InsertedDistinct | backend/src/services/conversation_service.py:21-27 | after an insertion no id is listed twice |
| Conversations.ConversationService.constructor | backend/src/services/conversation_service.py:6-8 | the service starts over an empty conversation table |
| Conversations.ConversationService.ConversationById | backend/src/services/conversation_service.py:29-37 | a conversation comes back exactly when a row has that id and belongs to the user, and it is that row |
| Conversations.ConversationService.CreateConversation | backend/src/services/conversation_service.py:10-19 | the new row gets a fresh id, the user, the title given or "New Conversation", messages "[]" and no thread, and is the only row added |
| Conversations.ConversationService.GetUserConversations | backend/src/services/conversation_service.py:21-27 | the answer holds exactly the user's stored rows, each once, most recently updated first |
| Conversations.ConversationService.UpdateConversation | backend/src/services/conversation_service.py:39-65 | for a non-owner the answer is `None` and nothing changes; the owner's row is replaced by its patch, which is the answer, and no other row changes |
| Conversations.ConversationService.DeleteConversation | backend/src/services/conversation_service.py:67-76 | the answer is true exactly when the user owns the conversation, and then exactly that row is removed; otherwise nothing changes |
| Validators.EmailSplitSound | backend/src/utils/validators.py:3-5 | a split the matcher finds is a local part, an `@`, a domain label, a dot and a suffix of the allowed characters |
| Validators.EmailSplitComplete | backend/src/utils/validators.py:3-5 | every text of that shape has exactly one split, and the matcher finds it |
| Validators.FirstAtSign | backend/src/utils/validators.py:4 | in a matching text the `@` is the first one, since the local part has none |
| Validators.FirstDotAfter | backend/src/utils/validators.py:4 | in a matching text the dot is the first one after the `@`, since the domain label has none |
| Validators.EmailSplitIff | backend/src/utils/validators.py:3-5 | the matcher finds a split exactly when the text has the e-mail shape |
| Validators.ValidateEmailIff | backend/src/utils/validators.py:3-5 | `validate_email` accepts exactly the texts of the e-mail shape, optionally followed by one newline that `$` lets through |
| Validators.EmailExamples | backend/src/utils/validators.py:3-5 | "a@b.c" is accepted, and so is "a@b.c" followed by a newline |
| Validators.EmailWithoutDotRefused | backend/src/utils/validators.py:4 | an address with no dot after the `@` is refused |
| Validators.Digits7 | backend/src/utils/validators.py:11-17 | a number below ten million has a zero-padded seven-digit form that reads back as the number |
| Validators.Padded | backend/src/utils/validators.py:11-17 | a number below 10^width has a zero-padded form of that width that reads back as the number |
| Validators.RollNumbers | backend/src/utils/validators.py:10-17 | "ST", "TCH" or "ADM" followed by any seven-digit number is accepted by its validator and the digits read back as the number; a text that is not nine or ten characters long is never a student roll number |
| Validators.StudentIdStartsWithS | backend/src/utils/validators.py:10-11 | every student roll number the back end accepts starts with `S` |
| Validators.RollNumberKindsDisjoint | backend/src/utils/validators.py:10-17 | no text is accepted as two kinds of roll number |
| AuthMiddleware.HeaderGet | backend/src/middleware/auth_middleware.py:8 | a header value comes back exactly when some header has that name, compared without case, and it is the value of such a header |
| AuthMiddleware.SplitWhole | backend/src/middleware/auth_middleware.py:17 | splitting a text at a separator it does not contain gives the whole text |
| AuthMiddleware.SplitAfterWord | backend/src/middleware/auth_middleware.py:17 | a word free of the separator, followed by the separator, is the first piece of the split |
| AuthMiddleware.SplitNoSpace | backend/src/middleware/auth_middleware.py:14-17 | after `Bearer ` the split has a second piece, the first piece of what follows |
| AuthMiddleware.BearerTokenIs | backend/src/middleware/auth_middleware.py:14-17 | the token is the text after `Bearer ` up to its first space, and the whole remainder when it has no space |
| AuthMiddleware.Authenticate | backend/src/middleware/auth_middleware.py:6-23 | a missing or empty header is refused as missing, one not starting with `Bearer ` as invalid, and a success means the token passed `verify_token` and the user is what `get_current_user` answers for it |
| AuthMiddleware.AsWrittenIgnoresAuthorization | backend/src/middleware/auth_middleware.py:8-11 | reading the `Authentication` header, a request whose only header is a well-formed `Authorization: Bearer` one is refused as missing its header |
| AuthMiddleware.SoleHeaderOfOtherLength | backend/src/middleware/auth_middleware.py:8-11 | a request whose only header has a name of another length than the one read is refused as missing its header |
| AuthMiddleware.NoHeaderOfOtherLength | backend/src/middleware/auth_middleware.py:8 | header names of another length never match, whatever their case |
| AuthMiddleware.IntendedAcceptsBearer | backend/src/middleware/auth_middleware.py:8-21 | reading `Authorization`, a `Bearer` header whose token has no space hands exactly that token to `verify_token` and `get_current_user` |
| AuthMiddleware.Request.constructor | backend/src/middleware/auth_middleware.py:6 | a request arrives with its headers and no user |
| AuthMiddleware.RunAuthMiddleware | backend/src/middleware/auth_middleware.py:6-23 | the middleware, reading `Authorization`, stores the authenticated user on the request, and on a refusal raises the refusal and leaves the request's user as it was |
| RolesConfig.GetRoleConfig | frontend/src/config/roles.config.ts:353-365 | the role is lower-cased; "admin" gets the admin sidebar, "teacher" and "instructor" the teacher's, and any other role or none the student's |
| RolesConfig.ConfigsDistinct | frontend/src/config/roles.config.ts:59-346 | the three sidebars differ, their portal names told apart |
| RolesConfig.RoleConfigIff | frontend/src/config/roles.config.ts:353-365 | the admin sidebar is chosen exactly for "admin" in any case, and the teacher's exactly for "teacher" and "instructor" in any case |
| RolesConfig.RoleCaseIgnored | frontend/src/config/roles.config.ts:355 | a role and its lower-cased form get the same sidebar |
| RolesConfig.DocumentsByRole | frontend/src/config/roles.config.ts:59-346 | only the teacher and student sidebars carry document links, three each, and a sidebar has none exactly when it is the admin's |
| RolesConfig.UrlUnder | frontend/src/config/roles.config.ts:59-346 | a link built as `/<role>/<page>` lies under that role's area |
| RolesConfig.NavUnder | frontend/src/config/roles.config.ts:59-346 | every link of a sidebar built for a role, at any level, lies under that role's area |
| RolesConfig.LinksStayInRole | frontend/src/config/roles.config.ts:59-346 | the admin, teacher and student sidebars link only into `/admin/`, `/teacher/` and `/student/` |
| RolesConfig.GetDashboardConfig | frontend/src/config/roles.config.ts:378-386 | the dashboard configuration is the role's sidebar with the signed-in user attached |
| RoutesConfig.GetRoutesByRole | frontend/src/routes/routes.config.ts:150-161 | a role gets no routes exactly when it is not admin, teacher or student, and every route it gets is in `allRoutes` |
| RoutesConfig.GetDefaultDashboard | frontend/src/routes/routes.config.ts:166-177 | a role other than admin, teacher or student gets "/" |
| RoutesConfig.RoutesStayInRole | frontend/src/routes/routes.config.ts:150-161 | every route of a role's table lies under that role's own area |
| RoutesConfig.DefaultDashboardAccessible | frontend/src/routes/routes.config.ts:150-188 | a known role's default dashboard is the first route of its table and the role may open it; an unknown role may open no route at all |
| RoutesConfig.AccessNotSegmentAware | frontend/src/routes/routes.config.ts:182-188 | access is a string-prefix test: any text appended to one of the role's paths is still granted |
| RoutesConfig.RoleIsolation | frontend/src/routes/routes.config.ts:150-188 | a route under one role's area is never granted to another role |
| RoutesConfig.AllRoutesIsUnion | frontend/src/routes/routes.config.ts:143 | a route is in `allRoutes` exactly when it is in one of the three tables, and there are ten |
| StudentAttendanceService.TallyCounts | frontend/src/services/studentAttendanceService.ts:117-146 | a group's counters count every record, PRESENT and LATE records as attended, and ABSENT, LATE and EXCUSED records each separately |
| StudentAttendanceService.TallyConsistent | frontend/src/services/studentAttendanceService.ts:117-146 | in every group attended, absent and excused together never exceed the total, and late never exceeds attended |
| StudentAttendanceService.Keys | frontend/src/services/studentAttendanceService.ts:117-120 | each record contributes its grouping key, in record order |
| StudentAttendanceService.TallySnoc | frontend/src/services/studentAttendanceService.ts:117-146 | one more record changes only the counters of its own key |
| StudentAttendanceService.AbsentKeyEmpty | frontend/src/services/studentAttendanceService.ts:117-129 | a key no record carries selects no record |
| StudentAttendanceService.GroupsMeaning | frontend/src/services/studentAttendanceService.ts:115-147 | the map is keyed by exactly the records' keys, and each key holds the counters of exactly the records with that key |
| StudentAttendanceService.OrderStep | frontend/src/services/studentAttendanceService.ts:117-120 | one more record adds its key at the end of the keys seen |
| StudentAttendanceService.GroupRecords | frontend/src/services/studentAttendanceService.ts:115-150 | the loop builds the grouped counters and the keys in order of first appearance, as the map's insertion order gives them |
| StudentAttendanceService.Summary | frontend/src/services/studentAttendanceService.ts:150-172 | a summary's percentage is attended over total times 100 (0 for no sessions) and its status is that percentage's level |
| StudentAttendanceService.AsWrittenSplitsCourse | frontend/src/services/studentAttendanceService.ts:117-157 | as written, two records of one course in two sessions give two summaries, each carrying a session id as its course id |
| StudentAttendanceService.IntendedSummaryPerCourse | frontend/src/services/studentAttendanceService.ts:104-173 | keyed by course, there is exactly one summary per course of the records and each counts exactly that course's records |
| StudentAttendanceService.GetStudentAttendanceSummary | frontend/src/services/studentAttendanceService.ts:107-178 | the corrected method: a failed fetch gives no summaries, and otherwise the answer is the summary grouped by course (IntendedSummary), where the source groups by `sessionId`, which AsWrittenSummary models |
| StudentAttendanceService.CalculateStatistics | frontend/src/services/studentAttendanceService.ts:205-237 | the loop computes the totals summed over the courses, each course counted in the bucket of its percentage, and the overall percentage of the totals |
| StudentAttendanceService.StatisticsStep | frontend/src/services/studentAttendanceService.ts:220-229 | one more course adds its sessions, attended and absent counts to the totals and one to its own level's bucket |
| StudentAttendanceService.BucketsPartition | frontend/src/services/studentAttendanceService.ts:209-228 | the four buckets together count every course exactly once |
| StudentAttendanceService.ColorAndVariantFollowLevel | frontend/src/services/studentAttendanceService.ts:242-267 | the colour follows the same 90/75/60 levels as the status, and a level's badge is destructive exactly below 60 and outline exactly from 60 up to 75 |
| StudentAttendanceService.UnknownStatusOutline | frontend/src/services/studentAttendanceService.ts:255-266 | any status outside the four levels gets WARNING's outline badge |
| AttendanceStats.Percent | frontend/src/services/studentAttendanceService.ts:151-154 | the percentage is 0 for no sessions and otherwise times the total equals 100 times the attended count; it is never negative and at most 100 when attended does not exceed the total |
| AttendanceStats.PercentScaled | frontend/src/services/studentAttendanceService.ts:153 | `(part / total) * 100` times the total is 100 times the part, and lies in 0–100 when the part does not exceed the total |
| AttendanceStats.PercentAtLeast | frontend/src/services/studentAttendanceService.ts:165-171 | comparing a percentage with a threshold is comparing the counts cross-multiplied |
| AttendanceStats.Round | frontend/src/features/admin/AttendancePage.tsx:159 | `Math.round` gives the whole number within half of its argument, halves rounded up |
| AttendanceStats.RoundWhole | frontend/src/features/admin/AttendancePage.tsx:458 | a whole number rounds to itself |
| AttendanceStats.LevelOf | frontend/src/services/studentAttendanceService.ts:164-171 | the level is EXCELLENT exactly from 90, GOOD exactly from 75 below 90, WARNING exactly from 60 below 75, and CRITICAL exactly below 60 |
| AttendanceStats.LevelOfCounts | frontend/src/services/studentAttendanceService.ts:151-171 | on the counts: no sessions is CRITICAL, EXCELLENT is nine in ten attended, at least GOOD is three in four and CRITICAL is fewer than three in five |
| StudentAttendancePage.CourseStats | frontend/src/features/student/StudentAttendancePage.tsx:77-118 | an enrollment's card counts the records whose own or session's course is the enrollment's; attended and absent never exceed the total, late never exceeds attended, and the percentage and status follow the counts |
| StudentAttendancePage.LateAmongAttended | frontend/src/features/student/StudentAttendancePage.tsx:86-94 | the LATE records are among the attended ones |
| StudentAttendancePage.CoursesWithStats | frontend/src/features/student/StudentAttendancePage.tsx:76-120 | there is one card per enrollment, in enrollment order |
| StudentAttendancePage.OverallOf | frontend/src/features/student/StudentAttendancePage.tsx:124-137 | the overall figures are the sums of the cards' sessions and attended counts, and their percentage |
| StudentAttendancePage.OverallBounded | frontend/src/features/student/StudentAttendancePage.tsx:124-137 | overall attended never exceeds overall sessions, so the overall percentage lies between 0 and 100 |
| StudentAttendancePage.ErrorShown | frontend/src/features/student/StudentAttendancePage.tsx:138-142 | the error shown is the failure's message when it has a non-empty one, and "Failed to load attendance data. Please try again." otherwise |
| StudentAttendancePage.FetchAttendanceData | frontend/src/features/student/StudentAttendancePage.tsx:50-149 | with no signed-in user nothing is fetched; the page loads exactly when the profile, enrollment and record fetches all succeed, and then shows one card per enrollment over the fetched records with the overall figures of those cards; the first failing fetch shows its error text |
| StudentAttendancePage.WarningText | frontend/src/features/student/StudentAttendancePage.tsx:336-343 | a card carries a warning exactly when its percentage is below 75 |
| StudentAttendancePage.WarningFollowsLevel | frontend/src/features/student/StudentAttendancePage.tsx:336-343 | a card warns exactly when its level is WARNING or CRITICAL, and warns of a critical state exactly when the level is CRITICAL |
| StudentAttendancePage.PageCountsLateAsAttended | frontend/src/features/student/StudentAttendancePage.tsx:86-88 | for records of the same statuses, the page's attended count exceeds the count of the back end's attendance tool by exactly the LATE records |
| AdminAttendancePage.Search | frontend/src/features/admin/AttendancePage.tsx:109-123 | a query that trims to nothing shows the whole list; any other query keeps, in order, exactly the entries one of whose three fields, lower-cased, contains the lower-cased query |
| AdminAttendancePage.SearchIgnoresCase | frontend/src/features/admin/AttendancePage.tsx:113 | a query and its lower-cased form filter alike |
| AdminAttendancePage.SearchStudents | frontend/src/features/admin/AttendancePage.tsx:109-123 | with a non-blank query a student is kept exactly when the name, roll number or department contains the query without regard to case, and a blank query keeps all |
| AdminAttendancePage.SearchTeachers | frontend/src/features/admin/AttendancePage.tsx:407-421 | with a non-blank query a teacher is kept exactly when the name, employee number or department contains the query without regard to case, and a blank query keeps all |
| AdminAttendancePage.AttendanceStatus | frontend/src/features/admin/AttendancePage.tsx:145-150 | the badge is "Good" exactly from 75, "Warning" exactly from 60 below 75, and "Critical" exactly below 60 |
| AdminAttendancePage.BadgeMergesUpperLevels | frontend/src/features/admin/AttendancePage.tsx:145-150 | the page's badge is the shared four-level classification with EXCELLENT and GOOD merged into "Good" |
| AdminAttendancePage.OverallAttendance | frontend/src/features/admin/AttendancePage.tsx:152-160 | the overall figure is 0 without classes and otherwise the rounded percentage of all attended classes over all classes |
| AdminAttendancePage.FloorOfRatio | frontend/src/features/admin/AttendancePage.tsx:159 | the floor of a real whose product with d is n is the integer quotient of n by d |
| AdminAttendancePage.RoundedPercent | frontend/src/features/admin/AttendancePage.tsx:159 | `Math.round(attended / total * 100)` is (200·attended + total) div (2·total) |
| AdminAttendancePage.OverallAttendanceBounded | frontend/src/features/admin/AttendancePage.tsx:152-160 | when no course records more attended classes than classes, the overall figure lies between 0 and 100 |
| AdminAttendancePage.AttendedBelowTotal | frontend/src/features/admin/AttendancePage.tsx:154-158 | summed over such courses, attended classes never exceed classes |
| AdminAttendancePage.TotalClassesConducted | frontend/src/features/admin/AttendancePage.tsx:443-450 | the total is the sum of the courses' classes, and no course has more classes than the total |
| AdminAttendancePage.TotalClassesConductedAppend | frontend/src/features/admin/AttendancePage.tsx:443-450 | splitting a teacher's courses splits the total |
| AdminAttendancePage.AverageAttendance | frontend/src/features/admin/AttendancePage.tsx:452-459 | the average is 0 without courses and otherwise the rounded mean of the course percentages, each course weighing the same whatever its number of classes |
| AdminAttendancePage.PercentSumBounded | frontend/src/features/admin/AttendancePage.tsx:454-457 | the sum of percentages in 0–100 lies between 0 and 100 per course |
| AdminAttendancePage.AverageAttendanceBounded | frontend/src/features/admin/AttendancePage.tsx:452-459 | with every course percentage between 0 and 100, the average lies between 0 and 100 |
| AdminAttendancePage.PercentSumConstant | frontend/src/features/admin/AttendancePage.tsx:454-457 | courses that all show percentage k sum to k per course |
| AdminAttendancePage.AverageOfEqualCourses | frontend/src/features/admin/AttendancePage.tsx:452-459 | courses that all show the same whole percentage average to that percentage |
| TeacherAttendancePage.IdsSnoc | frontend/src/features/teacher/AttendancePage.tsx:136-139 | one more roster student adds exactly that student's id to the ids seen |
| TeacherAttendancePage.InitialAttendance | frontend/src/features/teacher/AttendancePage.tsx:135-140 | after the roster loads, the marks hold exactly the roster's ids, every one present |
| TeacherAttendancePage.Toggle | frontend/src/features/teacher/AttendancePage.tsx:374-378 | toggling flips exactly that student's mark, a missing mark read as absent, and adds the student to the marks |
| TeacherAttendancePage.ToggleTwice | frontend/src/features/teacher/AttendancePage.tsx:374-378 | toggling a marked student twice restores the marks |
| TeacherAttendancePage.Payload | frontend/src/features/teacher/AttendancePage.tsx:293-299 | the bulk payload has one entry per roster student, in roster order, for the new session, PRESENT exactly when the student is marked present and ABSENT otherwise |
| TeacherAttendancePage.CheckedIdsCons | frontend/src/features/teacher/AttendancePage.tsx:293-304 | for distinct ids, the present students of a roster are its first student when present plus the present students of the rest, which do not include the first |
| TeacherAttendancePage.CheckedIdsCount | frontend/src/features/teacher/AttendancePage.tsx:293-304 | for distinct ids, the number of students marked present is the number of PRESENT entries sent |
| TeacherAttendancePage.PresentCountMatchesPayload | frontend/src/features/teacher/AttendancePage.tsx:293-309 | with marks for exactly the roster's distinct students, the present count shown after saving is the number of PRESENT entries sent, and never more than the roster, so the absent figure is never negative |
| TeacherAttendancePage.FreshRosterAllPresent | frontend/src/features/teacher/AttendancePage.tsx:135-299 | a roster nobody has unticked is sent all PRESENT |
| TeacherAttendancePage.TodaysSchedule | frontend/src/features/teacher/AttendancePage.tsx:258-260 | today's schedule is an active schedule of the course on today's weekday, and there is none exactly when no such schedule exists |
| TeacherAttendancePage.SaveAttendance | frontend/src/features/teacher/AttendancePage.tsx:230-372 | saving is refused exactly when no course or teacher is chosen or the roster is empty; a missing schedule request fails with the default message; no class today names the weekday; a save creates a session from today's schedule and sends one entry per roster student, then resets the form; anything but a save keeps the page's state |
| TeacherAttendancePage.NoScheduleNoSession | frontend/src/features/teacher/AttendancePage.tsx:258-269 | when no active schedule falls on today's weekday, nothing is created and the page keeps its state |
| TeacherAttendancePage.SaveWithShippedServiceFails | frontend/src/features/teacher/AttendancePage.tsx:240-302 | with the shipped attendance service, which has none of the three requests, saving is refused or fails with the default message and no session is ever created |
| TeacherAttendancePage.SaveWithCompleteServiceSaves | frontend/src/features/teacher/AttendancePage.tsx:236-314 | with a service that answers all three requests, a filled form and an active class today, saving records today's class and sends every roster student's mark |
| TeacherAttendancePage.KeySeparatesDayAndCourse | frontend/src/features/teacher/AttendancePage.tsx:176-180 | for days written at one length, two records share a history key exactly when they share the day and the course |
| TeacherAttendancePage.Keys | frontend/src/features/teacher/AttendancePage.tsx:175-180 | each record contributes its history key, in record order |
| TeacherAttendancePage.FilterSnocKey | frontend/src/features/teacher/AttendancePage.tsx:175-200 | one more record joins only the group of its own key |
| TeacherAttendancePage.BumpsSnoc | frontend/src/features/teacher/AttendancePage.tsx:194-199 | counting one more record steps the counters by that record |
| TeacherAttendancePage.HistoryKeys | frontend/src/features/teacher/AttendancePage.tsx:173-200 | the history is keyed by exactly the records' keys |
| TeacherAttendancePage.HistoryMeaning | frontend/src/features/teacher/AttendancePage.tsx:173-200 | each entry is created from the first record of its key and counts all of that key's records |
| TeacherAttendancePage.BumpsCounts | frontend/src/features/teacher/AttendancePage.tsx:194-199 | an entry's total gains one per record, and its PRESENT, ABSENT and LATE counts gain one per record of that status |
| TeacherAttendancePage.StatusesWithinTotal | frontend/src/features/teacher/AttendancePage.tsx:194-199 | PRESENT, ABSENT and LATE records together never exceed the records counted |
| TeacherAttendancePage.HistoryRows | frontend/src/features/teacher/AttendancePage.tsx:173-200 | every history entry belongs to one day and course, carries its first record's course, counts every record of that day and course, at least one, and never more PRESENT, ABSENT and LATE together than records |
| TeacherAttendancePage.HistoryStep | frontend/src/features/teacher/AttendancePage.tsx:175-180 | one more record adds its key at the end of the keys seen |
| TeacherAttendancePage.GroupHistory | frontend/src/features/teacher/AttendancePage.tsx:173-200 | the loop builds the history entries and the order in which the map first saw their keys |
| TeacherAttendancePage.Row | frontend/src/features/teacher/AttendancePage.tsx:203-212 | a row keeps its entry and shows PRESENT and LATE over all records as a percentage, 0 without records |
| TeacherAttendancePage.Insert | frontend/src/features/teacher/AttendancePage.tsx:213-215 | inserting into a list sorted latest first keeps it sorted and adds exactly the one row |
| TeacherAttendancePage.SortedTail | frontend/src/features/teacher/AttendancePage.tsx:213-215 | the tail of a list sorted latest first is sorted |
| TeacherAttendancePage.SortedCons | frontend/src/features/teacher/AttendancePage.tsx:213-215 | a row no earlier than the head of a sorted list can go in front of it |
| TeacherAttendancePage.SortByDateDesc | frontend/src/features/teacher/AttendancePage.tsx:213-215 | the sort leaves the rows latest first and is a permutation of them |
| TeacherAttendancePage.TableRows | frontend/src/features/teacher/AttendancePage.tsx:203-212 | there is one row per history entry, in the order the map first saw the keys |
| TeacherAttendancePage.HistoryTable | frontend/src/features/teacher/AttendancePage.tsx:202-217 | the history table is the rows of the grouped records, latest first, and a permutation of them |
| TeacherAttendancePage.HistoryTableSize | frontend/src/features/teacher/AttendancePage.tsx:173-217 | the table has exactly one row per day and course |
| TeacherAttendancePage.HistoryTableRows | frontend/src/features/teacher/AttendancePage.tsx:173-217 | every row of the table is the row of one history entry |
| TeacherAttendancePage.DistinctCard | frontend/src/features/teacher/AttendancePage.tsx:203 | a list of distinct keys holding exactly a map's keys is as long as the map |
| TeacherAttendancePage.DistinctSetSize | frontend/src/features/teacher/AttendancePage.tsx:203 | a list of distinct keys has as many elements as its set |
| FormErrors.Field | frontend/src/features/admin/StudentsPage.tsx:212-219 | a field has a message in the table exactly when the table holds its key |
| FormErrors.KeepMessages | frontend/src/features/admin/StudentsPage.tsx:212-249 | walking the checked fields, the table keeps exactly the fields whose check left a message, with that message, and is empty exactly when no check left one |
| StudentsPage.MatchGivesShape | frontend/src/features/admin/StudentsPage.tsx:127-128 | a text the matcher accepts is a non-empty run free of whitespace and `@`, an `@`, and a domain with a dot that has such text on both sides |
| StudentsPage.ShapeGivesMatch | frontend/src/features/admin/StudentsPage.tsx:127-128 | every text of that shape is accepted by the matcher |
| StudentsPage.FormEmailMatchesIff | frontend/src/features/admin/StudentsPage.tsx:127-128 | the matcher accepts exactly the texts of the pattern's shape |
| StudentsPage.ValidateEmail | frontend/src/features/admin/StudentsPage.tsx:125-130 | a blank address is "Email is required", a non-blank one the pattern refuses is "Please enter a valid email address", and there is no message exactly when the pattern accepts |
| StudentsPage.BackendEmailPassesForm | frontend/src/features/admin/StudentsPage.tsx:125-130 | every address the back end's `validate_email` shape accepts also passes the form |
| StudentsPage.ValidatePassword | frontend/src/features/admin/StudentsPage.tsx:132-136 | an empty password is required, a shorter one than six characters is too short, and six or more pass |
| StudentsPage.PasswordRulesDiffer | frontend/src/features/admin/StudentsPage.tsx:132-136 | every password the back end's eight-character rule accepts passes the form, and the form alone accepts exactly those of six or seven characters |
| StudentsPage.ValidateName | frontend/src/features/admin/StudentsPage.tsx:138-142 | a blank name is required, and a name passes exactly when its trimmed form has at least two characters |
| StudentsPage.ValidateDepartment | frontend/src/features/admin/StudentsPage.tsx:144-147 | the department passes exactly when one is chosen |
| StudentsPage.ValidateBatch | frontend/src/features/admin/StudentsPage.tsx:149-156 | a blank batch is required, and a batch passes exactly when `parseInt` reads a year from 1900 to ten years after the current year |
| StudentsPage.ValidateSemester | frontend/src/features/admin/StudentsPage.tsx:158-162 | the semester passes exactly when it lies from 1 to 8 |
| StudentsPage.FractionalSemesterPasses | frontend/src/features/admin/StudentsPage.tsx:158-162 | semester 2.5 passes, since the check is a range and not a whole-number check |
| StudentsPage.Number | frontend/src/features/admin/StudentsPage.tsx:174 | `Number` of a non-empty run of digits is that whole number, exactly |
| StudentsPage.NumberUnsigned | frontend/src/features/admin/StudentsPage.tsx:174 | text that is neither blank nor signed at its ends is read as a plain decimal literal |
| StudentsPage.NumberOfDigitPoint | frontend/src/features/admin/StudentsPage.tsx:174 | `Number` of a digit followed by a point is that digit as a whole number |
| StudentsPage.CodeOfWhole | frontend/src/features/admin/StudentsPage.tsx:174 | a whole number `n` is written as the code `n - 4` |
| StudentsPage.TenthsBelowMinusThree | frontend/src/features/admin/StudentsPage.tsx:174 | `String` of `v/10 - 4` for a digit `v` is `-4` for 0 and `-3.` followed by `10 - v` otherwise |
| StudentsPage.DigitsUntrimmed | frontend/src/features/admin/StudentsPage.tsx:174 | a run of digits is its own trimmed form |
| StudentsPage.LastTwo | frontend/src/features/admin/StudentsPage.tsx:174 | `slice(-2)` gives the last two characters, or the whole of a shorter text |
| StudentsPage.ExpectedPrefix | frontend/src/features/admin/StudentsPage.tsx:172-176 | the expected prefix starts with "1RV" |
| StudentsPage.ValidateStudentId | frontend/src/features/admin/StudentsPage.tsx:165-188 | a blank ID is required, and an ID passes exactly when it starts with `1RV`, then `Number` of the batch's last two characters less four, then the department |
| StudentsPage.TwoDigitsValue | frontend/src/features/admin/StudentsPage.tsx:174 | two digits read as ten times the first plus the second |
| StudentsPage.CodeOfBatch | frontend/src/features/admin/StudentsPage.tsx:174 | a batch ending in two digits contributes the value of those digits less four |
| StudentsPage.NumberOfPointDigit | frontend/src/features/admin/StudentsPage.tsx:174 | `Number` of a point followed by a digit is that digit's tenth |
| StudentsPage.CodeOfTrailingPoint | frontend/src/features/admin/StudentsPage.tsx:174 | a batch ending in a digit and a point contributes that digit less four |
| StudentsPage.CodeOfLeadingPoint | frontend/src/features/admin/StudentsPage.tsx:174 | a batch ending in a point and a digit contributes that many tenths less four |
| StudentsPage.LeadingPointCode | frontend/src/features/admin/StudentsPage.tsx:174 | that code is written `-4` for the digit 0 and `-3.` followed by the digit's complement to ten otherwise, as `String` writes such a number |
| StudentsPage.TrailingPointBatch | frontend/src/features/admin/StudentsPage.tsx:149-156 | a valid year followed by a point passes the batch check, since `parseInt` stops at the point |
| StudentsPage.TrailingPointPrefix | frontend/src/features/admin/StudentsPage.tsx:172-176 | a year ending in 5 followed by a point gives the prefix "1RV1CS" for department "CS" |
| StudentsPage.TrailingPointIdAccepted | frontend/src/features/admin/StudentsPage.tsx:165-188 | for such a batch and department "CS", every ID that starts with "1RV1CS" passes the format check |
| StudentsPage.Batch2025Accepted | frontend/src/features/admin/StudentsPage.tsx:149-188 | the batch "2025." passes the batch check, gives the prefix "1RV1CS" for department "CS", and the ID "1RV1CS001" passes |
| StudentsPage.LetterStartIsNaN | frontend/src/features/admin/StudentsPage.tsx:174 | `Number` of a text that starts with a letter and ends in a non-blank is NaN |
| StudentsPage.BatchWithLetterTail | frontend/src/features/admin/StudentsPage.tsx:149-174 | a batch of a valid year followed by two letters passes the batch check, since `parseInt` stops at the letters, and the ID prefix then spells "NaN" |
| StudentsPage.FormAndBackendIdsDisjoint | frontend/src/features/admin/StudentsPage.tsx:165-188 | an ID the form accepts never passes the back end's `ST` roll-number check |
| StudentsPage.CreateStudentIdError | frontend/src/features/admin/StudentsPage.tsx:200-209 | the ID's format is checked when department and batch both pass, and only its presence otherwise |
| StudentsPage.AllFieldsListed | frontend/src/features/admin/StudentsPage.tsx:190-210 | every field of the error table is one the checks fill in |
| StudentsPage.NoErrorsIff | frontend/src/features/admin/StudentsPage.tsx:212-222 | all checks passed exactly when no field holds a message |
| StudentsPage.Collect | frontend/src/features/admin/StudentsPage.tsx:212-220 | the shown table holds exactly each failing check's message, and is empty exactly when every check passed |
| StudentsPage.ValidateCreateForm | frontend/src/features/admin/StudentsPage.tsx:190-222 | the create form shows the message of every failing check, and is valid exactly when no check failed |
| StudentsPage.CreateFormValidIff | frontend/src/features/admin/StudentsPage.tsx:190-222 | the create form is valid exactly when name, e-mail, password, department, batch, semester and the ID's format are all valid |
| StudentsPage.PhoneError | frontend/src/features/admin/StudentsPage.tsx:234-238 | a blank phone number is not checked, and a non-blank one passes exactly when it is ten digits |
| StudentsPage.ValidateUpdateForm | frontend/src/features/admin/StudentsPage.tsx:224-251 | the update form shows the message of every failing check, and is valid exactly when no check failed |
| StudentsPage.UpdateFormValidIff | frontend/src/features/admin/StudentsPage.tsx:224-251 | the update form is valid exactly when a given name, the department, batch and semester, and a given phone number are valid; e-mail, password and ID are not checked |
| EnrollmentsPage.GradePointsOf | frontend/src/features/admin/EnrollmentsPage.tsx:73-87 | the table gives points exactly to the eleven listed grades, and every such value lies between 0 and 4 |
| EnrollmentsPage.GradePointsOfListed | frontend/src/features/admin/EnrollmentsPage.tsx:75-87 | each listed grade gets exactly the points written beside it (A+ and A 4.0 down to F 0.0) |
| EnrollmentsPage.GradePointsNonIncreasing | frontend/src/features/admin/EnrollmentsPage.tsx:73-87 | going down the list of grades the points never rise |
| EnrollmentsPage.ValidateStudent | frontend/src/features/admin/EnrollmentsPage.tsx:183-186 | the student check passes exactly when a student id was chosen |
| EnrollmentsPage.ValidateCourse | frontend/src/features/admin/EnrollmentsPage.tsx:188-191 | the course check passes exactly when a course id was chosen |
| EnrollmentsPage.ValidateStatus | frontend/src/features/admin/EnrollmentsPage.tsx:193-198 | the status check passes exactly when the status is unset, empty, or one of ACTIVE, COMPLETED, DROPPED, WITHDRAWN |
| EnrollmentsPage.ValidateGrade | frontend/src/features/admin/EnrollmentsPage.tsx:200-205 | the grade check passes exactly when the grade is unset, empty, or one of the listed grades |
| EnrollmentsPage.ValidateGradePoints | frontend/src/features/admin/EnrollmentsPage.tsx:207-212 | the points check passes exactly when the points are unset or lie in 0..4 inclusive |
| EnrollmentsPage.TablePointsPass | frontend/src/features/admin/EnrollmentsPage.tsx:207-212 | whatever the table gives for any grade, including nothing, passes the points check |
| EnrollmentsPage.ValidateCreateForm | frontend/src/features/admin/EnrollmentsPage.tsx:214-231 | the error table holds exactly the messages of the failing student and course checks; the form is valid exactly when the table is empty, exactly when both ids are chosen |
| EnrollmentsPage.ValidateUpdateForm | frontend/src/features/admin/EnrollmentsPage.tsx:233-251 | the error table holds exactly the messages of the failing status, grade and points checks; the form is valid exactly when the table is empty, exactly when all three pass |
| EnrollmentsPage.ClearError | frontend/src/features/admin/EnrollmentsPage.tsx:253-259 | the cleared field has no message afterwards and every other field keeps its message |
| EnrollmentsPage.GradeChangeAsWritten | frontend/src/features/admin/EnrollmentsPage.tsx:353-361 | the picked grade is stored and the student, course and status fields stay; the points are set exactly when the grade's table value exists and is non-zero, and are then that value |
| EnrollmentsPage.FailingGradeLosesPoints | frontend/src/features/admin/EnrollmentsPage.tsx:353-361 | although the table gives F 0 points, picking F leaves the points unset and the update then sends no points |
| EnrollmentsPage.AsWrittenDiffersOnlyOnF | frontend/src/features/admin/EnrollmentsPage.tsx:353-361 | the as-written grade change disagrees with the table's points exactly for grade F |
| EnrollmentsPage.GradeChange | frontend/src/features/admin/EnrollmentsPage.tsx:353-361 | the picked grade is stored with exactly the table's points for it, and the other fields stay |
| EnrollmentsPage.GradeChangePasses | frontend/src/features/admin/EnrollmentsPage.tsx:353-361 | after picking any listed grade the points are the ones written beside it, and grade and points both pass the update checks |
| EnrollmentsPage.CreatePayload | frontend/src/features/admin/EnrollmentsPage.tsx:271-274 | the create request carries exactly the chosen student and course ids |
| EnrollmentsPage.UpdatePayload | frontend/src/features/admin/EnrollmentsPage.tsx:313-317 | the update request carries the form's status and points, and its grade, except that an empty grade goes as unset |
| EnrollmentsPage.Edit | frontend/src/features/admin/EnrollmentsPage.tsx:288-299 | editing fills the form from the enrollment, with ACTIVE for a missing status and an empty grade for a missing one |
| EnrollmentsPage.UnchangedEditSendsEnrollment | frontend/src/features/admin/EnrollmentsPage.tsx:288-317 | saving an edit without changes sends back the enrollment's status (ACTIVE if it had none), its grade (unset if it was empty) and its points |
| EnrollmentsPage.StatusBadge | frontend/src/features/admin/EnrollmentsPage.tsx:383-396 | the badge is a known one exactly when the status is one of the four enrollment statuses |
| EnrollmentsPage.StatusBadgeAgreesWithCheck | frontend/src/features/admin/EnrollmentsPage.tsx:193-198 | a status with a known badge passes the status check, and a set status that passes it has a known badge |
| EnrollmentsPage.GradeBadge | frontend/src/features/admin/EnrollmentsPage.tsx:398-412 | the Not Graded badge appears exactly for an unset or empty grade; otherwise the first letter picks the colour |
| EnrollmentsPage.GradeBadgeFollowsPoints | frontend/src/features/admin/EnrollmentsPage.tsx:398-412 | for the listed grades the badge is green, blue, yellow, orange or red exactly when the grade's points are in the A, B, C, D or F band |
| EnrollmentsPage.Or | frontend/src/features/admin/EnrollmentsPage.tsx:365 | a JavaScript logical or of two strings gives the first operand when it is set and non-empty, else the second |
| EnrollmentsPage.StudentName | frontend/src/features/admin/EnrollmentsPage.tsx:363-366 | an unknown student shows Unknown Student; a known one shows the account name, then the record's name, then Unknown Student |
| EnrollmentsPage.StudentRollNumber | frontend/src/features/admin/EnrollmentsPage.tsx:368-371 | an unknown student shows N/A; a known one its roll number, or N/A when that is empty |
| EnrollmentsPage.CourseName | frontend/src/features/admin/EnrollmentsPage.tsx:373-376 | an unknown course shows Unknown Course; a known one its name, or Unknown Course when that is empty |
| EnrollmentsPage.CourseCode | frontend/src/features/admin/EnrollmentsPage.tsx:378-381 | an unknown course shows N/A; a known one its code, or N/A when that is empty |
| EnrollmentsPage.FilteredEnrollments | frontend/src/features/admin/EnrollmentsPage.tsx:415-439 | an enrollment is listed exactly when it is in the list and matches the search, the status filter and the semester filter |
| EnrollmentsPage.NoFilterShowsAll | frontend/src/features/admin/EnrollmentsPage.tsx:415-439 | with an empty search and both filters on all, every enrollment is listed |
| CoursePage.CreateRequest | frontend/src/features/admin/CoursePage.tsx:166-177 | the form is sent exactly when code, name and department are all filled in, and then it is sent unchanged |
| CoursePage.EmptyFormRefused | frontend/src/features/admin/CoursePage.tsx:151-175 | the freshly reset form is refused by the create guard |
| CoursePage.Edit | frontend/src/features/admin/CoursePage.tsx:189-204 | editing copies code, name, credits, department, semester and status, and takes an empty description, syllabus or teacher and 60 seats for what the course leaves unset |
| CoursePage.EditOfStoredCourseIsComplete | frontend/src/features/admin/CoursePage.tsx:166-204 | a stored course with code, name and department, once loaded into the form, passes the create guard unchanged |
| CoursePage.ActOnSelection | frontend/src/features/admin/CoursePage.tsx:206-227 | update and delete send a request exactly when a course is selected, carrying that course's id and the payload |
| CoursePage.CreditsInput | frontend/src/features/admin/CoursePage.tsx:475-481 | the credits field never holds 0, and falls back to 3 when the text does not parse |
| CoursePage.MaxStudentsInput | frontend/src/features/admin/CoursePage.tsx:575-581 | the capacity field never holds 0, and falls back to 60 when the text does not parse |
| CoursePage.CreditsInputReadsDigits | frontend/src/features/admin/CoursePage.tsx:475-481 | a typed number without a leading zero is taken as the value its digits spell |
| CoursePage.DigitsValuePositive | frontend/src/features/admin/CoursePage.tsx:475-481 | a digit string not starting with 0 spells a positive number, so the fallback does not replace it |
| CoursePage.DigitsValueAtLeastFirst | frontend/src/features/admin/CoursePage.tsx:475-481 | a digit string spells at least the value of its first digit |
| CoursePage.Toggle | frontend/src/features/admin/CoursePage.tsx:614-619 | the status switch flips the active flag and leaves every other field as it was |
| CoursePage.ToggleTwice | frontend/src/features/admin/CoursePage.tsx:614-619 | flipping the switch twice restores the form |
| CoursePage.DepartmentName | frontend/src/features/admin/CoursePage.tsx:244-247 | an unknown department shows Unknown; a known id shows the name of a department with that id |
| CoursePage.TeacherName | frontend/src/features/admin/CoursePage.tsx:249-253 | no teacher id shows Not Assigned, an unknown id shows Unknown, and a known id shows the user name of a teacher with that id (possibly undefined) |
| CoursePage.FilteredCourses | frontend/src/features/admin/CoursePage.tsx:255-275 | a course is listed exactly when it is among the courses and matches the search, department, semester and status filters |
| CoursePage.NoFilterShowsAll | frontend/src/features/admin/CoursePage.tsx:255-275 | with an empty search and every filter on all, the whole list is shown |
| CoursePage.UnknownStatusShowsNothing | frontend/src/features/admin/CoursePage.tsx:267-270 | a status choice other than all, active or inactive empties the list |
| CoursePage.ActiveAndInactiveSplitAll | frontend/src/features/admin/CoursePage.tsx:267-270 | the active and the inactive lists together are as long as the all list under the same other filters |
| DepartmentsPage.CreateRequest | frontend/src/features/admin/DepartmentsPage.tsx:106-118 | a create request goes out exactly when name and code are both filled in, carrying exactly those two |
| DepartmentsPage.EmptyFormRefused | frontend/src/features/admin/DepartmentsPage.tsx:99-111 | the freshly reset form is refused by the create guard |
| DepartmentsPage.CodeInput | frontend/src/features/admin/DepartmentsPage.tsx:332-337 | the code field stores the typed text upper-cased, so it holds no lower-case letter, and the name stays |
| DepartmentsPage.CodeInputStable | frontend/src/features/admin/DepartmentsPage.tsx:332-337 | re-typing the stored code changes nothing, and a search finds the stored code exactly when it finds the typed text |
| DepartmentsPage.Edit | frontend/src/features/admin/DepartmentsPage.tsx:130-137 | editing fills the form with the department's name and code |
| DepartmentsPage.UpdateRequest | frontend/src/features/admin/DepartmentsPage.tsx:139-148 | an update goes out exactly when a department is selected, with its id and the form's name and code |
| DepartmentsPage.UnchangedEditSendsDepartment | frontend/src/features/admin/DepartmentsPage.tsx:130-148 | saving an edit unchanged sends the department's own id, name and code |
| DepartmentsPage.DeleteRequest | frontend/src/features/admin/DepartmentsPage.tsx:161-165 | a delete goes out exactly when a non-empty id was chosen, for that id |
| DepartmentsPage.FilteredDepartments | frontend/src/features/admin/DepartmentsPage.tsx:182-189 | a department is listed exactly when it is among the departments and its name, code or description holds the query, case ignored |
| DepartmentsPage.EmptySearchShowsAll | frontend/src/features/admin/DepartmentsPage.tsx:182-189 | an empty search lists every department, in order |
| DepartmentsPage.SearchByCodeFinds | frontend/src/features/admin/DepartmentsPage.tsx:182-189 | searching for a department's code, in any case, lists that department |
| TeachersPage.FilteredTeachers | frontend/src/features/admin/TeachersPage.tsx:109-119 | a teacher is listed exactly when they are among the teachers, their name, e-mail, staff number or designation holds the query (case ignored), and they are in the chosen department or all are chosen |
| TeachersPage.NoFilterShowsAll | frontend/src/features/admin/TeachersPage.tsx:109-119 | with an empty search and all departments, every teacher is listed, in order |
| TeachersPage.EmptyQueryFiltersDepartment | frontend/src/features/admin/TeachersPage.tsx:109-119 | with an empty search the list is exactly the chosen department's teachers, in order |
| TeachersPage.SearchByStaffNumberFinds | frontend/src/features/admin/TeachersPage.tsx:109-119 | searching for a teacher's own staff number, in any case, lists them under their department |
| TeachersPage.DeleteRequest | frontend/src/features/admin/TeachersPage.tsx:93-97 | a delete goes out exactly when a non-empty teacher id was chosen, for that id |
| TeachersPage.AfterDelete | frontend/src/features/admin/TeachersPage.tsx:96-106 | after a successful delete the dialog is closed with nothing chosen; after a failure or when nothing was sent it stays as it was |
| TeachersPage.NoSecondDelete | frontend/src/features/admin/TeachersPage.tsx:93-101 | once a delete has succeeded the dialog cannot send a second request |
| ProfilePage.Sync | frontend/src/pages/ProfilePage.tsx:31-39 | without a signed-in user the form stays; with one, name and e-mail become the user's (empty when unset) and the password fields stay |
| ProfilePage.ProfileRequest | frontend/src/pages/ProfilePage.tsx:46-54 | the profile request carries exactly the form's name and e-mail and no password |
| ProfilePage.PasswordRequest | frontend/src/pages/ProfilePage.tsx:70-90 | mismatching passwords are refused with their message, otherwise ones shorter than 6 with theirs; a request goes out exactly when both agree and have at least 6 characters, carrying only the new password |
| ProfilePage.CurrentPasswordNotSent | frontend/src/pages/ProfilePage.tsx:70-90 | whatever the current-password field holds, the outcome is the same |
| ProfilePage.MismatchReportedFirst | frontend/src/pages/ProfilePage.tsx:73-81 | a short password typed differently twice is reported as a mismatch, not as too short |
| ProfilePage.AfterPasswordSaved | frontend/src/pages/ProfilePage.tsx:93-98 | after a saved change the three password fields are empty and name and e-mail are kept |
| ProfilePage.ClearedFormRefused | frontend/src/pages/ProfilePage.tsx:78-98 | the cleared form cannot send the change again, its empty password being refused |
| TimetablePanel.DaysOrderDistinct | frontend/src/features/timetable/TimetablePanel.tsx:19-27 | the seven days the panel shows are pairwise distinct |
| TimetablePanel.GroupStep | frontend/src/features/timetable/TimetablePanel.tsx:112-116 | appending the next entry to its day's bucket (created when missing) groups one entry more |
| TimetablePanel.Group | frontend/src/features/timetable/TimetablePanel.tsx:112-116 | each day's bucket holds exactly that day's entries in their original order, and a day has a bucket exactly when some entry is on it |
| TimetablePanel.ShownDays | frontend/src/features/timetable/TimetablePanel.tsx:182-187 | a day heading is shown exactly when the day is one of the seven and its bucket is not empty |
| TimetablePanel.ShownFromHas | frontend/src/features/timetable/TimetablePanel.tsx:182-189 | an entry is rendered exactly when it is in the bucket of one of the listed days |
| TimetablePanel.ShownFromSize | frontend/src/features/timetable/TimetablePanel.tsx:182-189 | the rendered entries are as many as the listed days' buckets hold together |
| TimetablePanel.ShownIffKnownDay | frontend/src/features/timetable/TimetablePanel.tsx:112-189 | after grouping, an entry is rendered exactly when it is one of the entries and its day is one of the seven |
| TimetablePanel.ShownIffListed | frontend/src/features/timetable/TimetablePanel.tsx:112-189 | after grouping, over any list of days, an entry is rendered exactly when its day is listed |
| TimetablePanel.DayCountsSum | frontend/src/features/timetable/TimetablePanel.tsx:112-116 | over distinct days covering every entry's day, the per-day counts add up to the number of entries |
| TimetablePanel.BucketSizesSum | frontend/src/features/timetable/TimetablePanel.tsx:112-116 | the buckets, taken over the days in order of first appearance, hold every entry once |
| TimetablePanel.BucketSizesAreCounts | frontend/src/features/timetable/TimetablePanel.tsx:112-116 | after grouping, each listed day's bucket holds as many entries as that day counts |
| TimetablePanel.AllShownWhenDaysKnown | frontend/src/features/timetable/TimetablePanel.tsx:112-189 | when every entry's day is one of the seven, the panel renders as many entries as there are |
| TimetablePanel.AfterAdd | frontend/src/features/timetable/TimetablePanel.tsx:76-86 | after a successful add every typed field is cleared and the type is back to LECTURE, while the chosen day stays |
| TimetablePanel.AfterAddIdempotent | frontend/src/features/timetable/TimetablePanel.tsx:76-86 | clearing the form after an add a second time changes nothing |
| TimetablePanel.DeleteEntry | frontend/src/features/timetable/TimetablePanel.tsx:97-104 | a delete request goes out exactly when a non-empty id is given, for that id; otherwise the alert says Invalid id |
| TeacherView.Initial | frontend/src/features/teacher/TimeTablePage.tsx:37-40 | the page starts loading, with no error, no teacher and the empty data |
| TeacherView.FindTeacher | frontend/src/features/teacher/TimeTablePage.tsx:48-54 | the lookup fails with Teacher profile not found exactly when no teacher belongs to the user; otherwise it gives the id of the first teacher that does |
| TeacherView.ProfileLoadedAsWritten | frontend/src/features/teacher/TimeTablePage.tsx:43-62 | the profile lookup as written never touches loading or the data, and does nothing without a signed-in user |
| TeacherView.ProfileLoaded | frontend/src/features/teacher/TimeTablePage.tsx:43-62 | with loading ended on failure: a failed request or a missing profile stops loading with its message; a found profile stores the teacher's id and nothing else |
| TeacherView.ProfileLoadedOnlyEndsLoading | frontend/src/features/teacher/TimeTablePage.tsx:43-62 | the corrected lookup differs from the written one in the loading flag alone |
| TeacherView.FetchRequest | frontend/src/features/teacher/TimeTablePage.tsx:65-71 | the data is fetched exactly when a teacher id has been found, for that id |
| TeacherView.DataLoaded | frontend/src/features/teacher/TimeTablePage.tsx:65-83 | without a teacher nothing changes; otherwise loading ends, a success stores the data and clears the error, a failure sets the failure message |
| TeacherView.Render | frontend/src/features/teacher/TimeTablePage.tsx:96-124 | the skeleton shows exactly while loading; an error card shows only the error the page holds |
| TeacherView.ProfileMissingAsWrittenStaysLoading | frontend/src/features/teacher/TimeTablePage.tsx:43-106 | as written, a user without a teacher profile has the error set but sees the skeleton for good |
| TeacherView.ProfileMissingShowsError | frontend/src/features/teacher/TimeTablePage.tsx:43-124 | with loading ended on failure, that user sees the Teacher profile not found card |
| TeacherView.FoundAndFetchedShowsContent | frontend/src/features/teacher/TimeTablePage.tsx:43-124 | a found profile and a successful fetch show the content with the data fetched |
| TeacherView.FetchFailureShown | frontend/src/features/teacher/TimeTablePage.tsx:65-124 | when a found teacher's fetch fails, its failure message is shown |
| TeacherView.ContentOnlyWithData | frontend/src/features/teacher/TimeTablePage.tsx:65-124 | the content is shown only after a successful fetch, and then with what was fetched |
| TeacherTimetablePage.BreaksAgreeWithService | frontend/src/features/teacher/TimeTablePage.tsx:31-87 | the page draws as breaks exactly the periods the schedule service skips when saving |
| TeacherTimetablePage.ClassCount | frontend/src/features/teacher/TimeTablePage.tsx:89-94 | an empty timetable has no classes |
| TeacherTimetablePage.RowCountHas | frontend/src/features/teacher/TimeTablePage.tsx:89-94 | a filled cell at a counted period makes the day's count at least one |
| TeacherTimetablePage.RowCountMono | frontend/src/features/teacher/TimeTablePage.tsx:89-94 | counting fewer periods gives no more cells, and one fewer when a filled cell is dropped |
| TeacherTimetablePage.ClassCountZero | frontend/src/features/teacher/TimeTablePage.tsx:89-94 | the header counts no classes exactly when every cell is free |
| TeacherTimetablePage.RowCountSomeFilled | frontend/src/features/teacher/TimeTablePage.tsx:89-94 | a day that counts a class has a filled cell |
| TeacherTimetablePage.ShownAtMostCount | frontend/src/features/teacher/TimeTablePage.tsx:89-94 | the header never counts fewer classes than the grid draws |
| TeacherTimetablePage.BreakClassCountedNotShown | frontend/src/features/teacher/TimeTablePage.tsx:89-94 | a class stored in a break column is counted in the header but drawn as a break, so the header counts more than the grid shows |
| TeacherTimetablePage.Open | frontend/src/features/teacher/TimeTablePage.tsx:43-124 | with the corrected loading flag (TeacherView.ProfileLoaded), the grid is drawn only from a timetable that was fetched |
| TeacherStudentsPage.TotalStudents | frontend/src/features/teacher/StudentsPage.tsx:118-123 | no courses give a total of 0, and the total is at least each course's enrollment count |
| TeacherStudentsPage.TotalWithCourse | frontend/src/features/teacher/StudentsPage.tsx:118-123 | one more course adds exactly its enrollments to the total |
| TeacherStudentsPage.TotalOfBoth | frontend/src/features/teacher/StudentsPage.tsx:118-123 | two lists of courses together total the sum of their totals |
| TeacherStudentsPage.Open | frontend/src/features/teacher/StudentsPage.tsx:76-116 | with the corrected loading flag (TeacherView.ProfileLoaded), the list and its total are shown only from courses that were fetched |
| TeacherStudentsPage.SuccessClearsError | frontend/src/features/teacher/StudentsPage.tsx:98-112 | a successful fetch clears an earlier fetch failure and shows the content |
| JsNumbers.Leading | frontend/src/features/admin/CoursePage.tsx:479 | the digits parseInt reads are the longest prefix of the text whose characters are all digits |
| JsNumbers.ParseIntDecimal | frontend/src/features/admin/CoursePage.tsx:479 | parseInt reads a decimal number without a leading zero as the value its digits spell, stopping at the first non-digit |
| JsNumbers.ParseIntOr | frontend/src/features/admin/CoursePage.tsx:479 | parseInt(value) or the fallback gives the number read unless it is NaN or 0, in which case the fallback |

## Left out

- The language model and the LangGraph runtime: the model is a function from message log to reply. Graph compilation, `bind_tools` and asynchronous invocation are left out.
- RoleAgent.GraphRun and AdminAgent.Run: the agent loop has no iteration cap, so the model runs it with a `fuel` bound on model calls. A run that needs more calls than `fuel` gives `None`. The lemmas state termination only for a given model. The fuel bound itself is not in the source.
- The imports of `get_my_teacher_profile`, `get_teacher_courses`, `get_teacher_courses_with_students` and `get_students_in_course` from `teacher_tool.py`: that file defines none of them. The model treats them as catalogue names whose executors are parameters.
- Prisma and every database call: the database is a value of `Records.Db`, passed in, and returned updated where the source writes. Transactions, connection errors other than a raised message, and generated ids (passed as parameters) are left out.
- The schemas the tool modules import but `models/schemas.py` does not define: `CourseOut` (imported by `course_tool.py`), and `ClassSessionCreate`, `ClassSessionUpdate`, `ClassSessionOut`, `StudentAttendanceCreate`, `StudentAttendanceUpdate`, `StudentAttendanceRead`, `TeacherAttendanceCreate`, `TeacherAttendanceUpdate` and `TeacherAttendanceRead` (imported by `attendance_tool.py`). As written, importing either module, and so `role_based_agent.py`, raises ImportError. The model assumes the schemas exist and models the tools' bodies.
- CourseTool.UpdateEffect: `CourseOut` is taken to hold the course's own fields, so the update answers with the row read back by `get_course_by_id`, which loads no relations. Any field `CourseOut` might add or rename is not modelled.
- The AttendanceService methods `attendance_tool.py` calls (`get_course_sessions`, `create_class_session` and a StudentAttendance-shaped mark): `attendance_service.py` does not define them. They are modelled by their evident meaning on the store: a course's sessions of one calendar day in table order, a created session, an appended record. They are not a Findings row, unlike `get_teacher_attendance`, because `attendance_tool.py` cannot be imported at all (see the schemas above), so there is no as-written run to contrast. `context_aware_tools.py` imports the service inside its `try`, so there the missing method gives a defined answer, the caught error.
- The clock: `datetime.now()`, `new Date()`, `getDay()` and `toISOString()` become parameters (today, weekday, now).
- HTTP, fetch clients and React state plumbing: a page's requests are parameters answering with data or a failure. JSX, dialogs, toasts, `localStorage` and `console` logging are left out. Only the text a toast or badge would show is modelled, where it carries a decision.
- Floating point: a percentage is the exact `real` quotient `100a/t` (AttendanceStats.Percent), not an IEEE double. `Math.round` is `(x + 0.5).Floor` (AttendanceStats.Round), and the lemma AdminAttendancePage.RoundedPercent proves that on such a percentage it equals the integer `(200a + t) / (2t)`. Grade points and the percentages the administrator's page receives ready-made are also `real`. `toFixed` formatting is left out.
- `Promise.all` on the teacher attendance page is modelled sequentially, since its result is an aggregation.
- Case conversion (`lower()`, `upper()`, `toLowerCase`, `toUpperCase`) and the regex classes `\d` and `\w` are modelled on ASCII only. Non-ASCII case mappings are left out.
- RoleAgent.PromptFor: each role's prompt constant holds only the opening sentence of that role's prompt in `role_based_agent.py`, not the lists of what the role may and may not do that follow it. Written out in full, the three texts of 800 to 1500 characters put every proof that touches the agent's prompt over the solver's resource limit. No property here depends on the wording after the first sentence.
- ContextTools.GetMyAttendance: the student's `attendance_percentage` is the exact quotient, not `round(percentage, 2)`. The `:.1f` figure in the message is the parameter `fixed1`, since decimal formatting of doubles is not modelled.
- StudentsPage.ValidateName, StudentsPage.ValidatePassword and ProfilePage.PasswordRequest: lengths are counted in Unicode code points, while JavaScript's `length` counts UTF-16 code units. The two differ only for characters outside the Basic Multilingual Plane, such as emoji.
- CourseTool.UpdateCourse and CourseTool.DeleteCourse: the service's raised message (`fault`) is modelled only after a successful lookup. A lookup that itself raises is not modelled, and neither is the "Course not found" answer of the update and delete services after a lookup has found the course, which only a concurrent deletion could cause.
- StudentsPage.Number models JavaScript's `Number` on decimal text: surrounding whitespace, an optional sign, digits with an optional point, and blank text as 0. Exponent, `0x`/`0b`/`0o` and `Infinity` forms need three or more characters, and the form applies `Number` to two, so they are left out. Its value is an exact decimal (StudentsPage.Decimal), not a double; two characters give at most tenths, which `String` writes the same either way, and StudentsPage.ShowDecimal writes it as `String` does for such values.
- JsNumbers.ParseInt reads decimal and `0x` hexadecimal prefixes. Radix arguments are never used by the source and are left out.
- The `roomCodes` of a subject's details are a set in the model, because `list(set(...))` in the source has no defined order.
- The `section` argument of `save_timetable` is only printed by the source; the model takes it and ignores it likewise, and section-aware storage is not modelled.
- CourseTool.Entries states only that there is one entry per course; CourseTool.EntriesShape states each entry's contents.
- TeacherStudentsPage.TotalStudents states only lower bounds; TeacherStudentsPage.TotalWithCourse and TotalOfBoth state the sum.
- TeacherTimetablePage.ClassCount states only that an empty timetable counts 0; TeacherTimetablePage.ClassCountZero and ShownAtMostCount state what the count means.
- Seeds, JWT and bcrypt: `verify_token` and the user lookup are function parameters of the middleware.
- Static mock pages, dashboards, layout and routing wiring carry no logic and are left out.

## Findings

| source | as written | input that shows it | evidently intended | confidence | as-written member | corrected member |
|---|---|---|---|---|---|---|
| backend/src/tools/context_aware_tools.py:102 | the teacher branch of `get_my_attendance` calls `AttendanceService.get_teacher_attendance`, which the service does not define | any call with `user_role="TEACHER"` for a user with a teacher profile | return that teacher's attendance records with `total_sessions` their count | not executed | ContextTools.TeacherAttendanceAsWrittenFails | ContextTools.TeacherAttendanceWhenServiceAnswers |
| backend/src/middleware/auth_middleware.py:8 | reads the header `Authentication` while its messages and the bearer scheme name `Authorization` | a request whose only header is `Authorization: Bearer <token>` is refused as missing the header | read `Authorization` | not executed | AuthMiddleware.AsWrittenIgnoresAuthorization | AuthMiddleware.IntendedAcceptsBearer |
| frontend/src/services/studentAttendanceService.ts:117-129 | the per-course summary is grouped by `sessionId` and stores the session id as `courseId` | two records of one course from two sessions give two summaries | one summary per course | not executed | StudentAttendanceService.AsWrittenSplitsCourse | StudentAttendanceService.IntendedSummaryPerCourse |
| frontend/src/features/teacher/AttendancePage.tsx:240-302 | saving calls `getCourseSchedules`, `createClassSession` and `markBulkAttendance`, which the shipped `useAttendanceService` does not provide | any save with a course, students and a signed-in teacher | fetch today's schedule, create the session and send every mark | not executed | TeacherAttendancePage.SaveWithShippedServiceFails | TeacherAttendancePage.SaveWithCompleteServiceSaves |
| frontend/src/features/admin/EnrollmentsPage.tsx:357 | the grade change keeps the table's points only when they are truthy, so the 0 points of grade F become no points | picking grade F | store 0.0 points for F | not executed | EnrollmentsPage.FailingGradeLosesPoints | EnrollmentsPage.GradeChangePasses |
| frontend/src/features/teacher/TimeTablePage.tsx:43-62 | a failed teacher lookup sets the error but leaves `loading` true, so the skeleton hides the error for good | a signed-in user with no teacher profile | show the "Teacher profile not found" card | not executed | TeacherView.ProfileMissingAsWrittenStaysLoading | TeacherView.ProfileMissingShowsError |
| backend/src/tools/course_tool.py:17-53 | `list_all_courses` builds teacher and department blocks from `course.teacher` and `course.department`, but `get_all_courses` is a `find_many()` without `include`, so both are `None` and no block is ever emitted | a course whose teacher, teacher's user and department rows all exist is listed without either block | list each course with its relations loaded, as the tool's description promises | not executed | CourseTool.ListDropsRelations | CourseTool.EntriesShape |
| backend/src/tools/course_tool.py:81-82 | the lookup by id uses `service.get_course_by_id`, a `find_unique` without `include`, while the code and name lookups include the relations | `get_course_by_id(course_id=…)` of a course whose teacher and department exist shows neither block | show the teacher and department details on every lookup path | not executed | CourseTool.GetByIdDropsRelations | CourseTool.DetailShape |
