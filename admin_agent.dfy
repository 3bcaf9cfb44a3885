/**
 * The older admin agent: a fixed department-and-student catalogue run by the
 * prebuilt tool node (no identity injection) and a model node that adds its
 * system prompt only when the history holds exactly one message.
 */
module AdminAgent {
  import opened Wrappers
  import opened AgentState
  import RoleAgent

  /** The bound tools, in the order of the source list. */
  const Tools: seq<RoleAgent.Tool> := [
    RoleAgent.ListAllDepartments, RoleAgent.DeleteExistingDepartment, RoleAgent.GetDepartmentById,
    RoleAgent.UpdateExistingDepartment, RoleAgent.CreateNewDepartment,
    RoleAgent.ListAllStudents, RoleAgent.CreateNewStudent, RoleAgent.UpdateExistingStudent,
    RoleAgent.DeleteExistingStudent, RoleAgent.GetStudentById
  ]

  const Prompt: string :=
    "You are a helpful assistant for managing students and departments.\n" +
    "                You have access to tools to list, get, create, update, and delete students and departments.\n" +
    "                Always provide clear and concise responses to the user."

  /**
   * The oracle and executors of an agent built on the prebuilt tool node.
   * `errorText` and `unknownText` are the tool node's own messages for a
   * raised exception and for a name it does not know (library wording).
   */
  datatype Agent = Agent(
    llm: seq<Message> -> Reply,
    exec: (RoleAgent.Tool, map<string, Arg>) -> Result<string, string>,
    errorText: string -> string,
    unknownText: string -> string)

  /** `if len(messages) == 1: messages = [system_msg] + messages` */
  function FirstTurnInput(log: seq<Message>, prompt: string): (r: seq<Message>)
    ensures |log| == 1 ==> r == [SystemMsg(Text(prompt))] + log && IsSystem(r[0])
    ensures |log| != 1 ==> r == log
  {
    if |log| == 1 then [SystemMsg(Text(prompt))] + log else log
  }

  /** The model node of an agent with the given prompt: one `ai` reply. */
  function Respond(ag: Agent, prompt: string, log: seq<Message>): (m: Message)
    ensures m.AiMsg? && !IsSystem(m)
  {
    AsMessage(ag.llm(FirstTurnInput(log, prompt)))
  }

  /** The prebuilt tool node's answer to one call: the arguments are passed as the model wrote them. */
  function ToolNodeOutcome(tools: seq<RoleAgent.Tool>, ag: Agent, call: ToolCall): string {
    match RoleAgent.Lookup(tools, call.name)
    case Some(t) =>
      (match ag.exec(t, call.args)
       case Ok(s) => s
       case Err(e) => ag.errorText(e))
    case None => ag.unknownText(call.name)
  }

  /** The tool node's update: one tool message per call of the last message, in call order. */
  function ToolNodeMessages(tools: seq<RoleAgent.Tool>, ag: Agent, log: seq<Message>): (r: seq<Message>)
    ensures |r| == |RoleAgent.LastCalls(log)|
    ensures forall i :: 0 <= i < |r| ==> r[i] == ToolMsg(Text(ToolNodeOutcome(tools, ag, RoleAgent.LastCalls(log)[i])), RoleAgent.LastCalls(log)[i].id)
    ensures CountSystem(r) == 0
  {
    var calls := RoleAgent.LastCalls(log);
    var r := seq(|calls|, i requires 0 <= i < |calls| => ToolMsg(Text(ToolNodeOutcome(tools, ag, calls[i])), calls[i].id));
    NoSystemInToolMessages(r);
    r
  }

  lemma {:induction false} NoSystemInToolMessages(r: seq<Message>)
    requires forall i :: 0 <= i < |r| ==> r[i].ToolMsg?
    ensures CountSystem(r) == 0
    decreases |r|
  {
    if r != [] { NoSystemInToolMessages(r[1..]); }
  }

  /** The "agent" node of a graph with first-turn prompt `prompt`. */
  function ModelNode(ag: Agent, prompt: string): seq<Message> -> Message {
    h => Respond(ag, prompt, h)
  }

  /** The "tools" node of a graph bound to the catalogue `tools`. */
  function ToolNode(tools: seq<RoleAgent.Tool>, ag: Agent): seq<Message> -> seq<Message> {
    h => ToolNodeMessages(tools, ag, h)
  }

  /**
   * The compiled agent -> (tools -> agent)* -> END graph over a prompt and
   * a catalogue; the admin and the department graphs are instances.
   */
  function PromptedRun(ag: Agent, prompt: string, tools: seq<RoleAgent.Tool>, log: seq<Message>, fuel: nat)
    : Option<seq<Message>>
  {
    RoleAgent.GraphRun(ModelNode(ag, prompt), ToolNode(tools, ag), log, fuel)
  }

  /** The compiled admin graph: entry "agent", conditional edge to "tools" or END, "tools" back to "agent". */
  function Run(ag: Agent, log: seq<Message>, fuel: nat): Option<seq<Message>> {
    PromptedRun(ag, Prompt, Tools, log, fuel)
  }

  /** The catalogue is exactly the five department tools and the five student tools. */
  lemma CatalogueIsDepartmentsAndStudents(t: RoleAgent.Tool)
    ensures t in Tools <==> t in RoleAgent.AdminDepartmentManagement || t in RoleAgent.AdminStudentManagement
  {
  }

  /**
   * After a tool round the history has more than one message, so the model
   * is sent the log unchanged, and a log that started without a system
   * message still has none: only the first model call carries the prompt.
   */
  lemma {:induction false} LaterTurnsCarryNoPrompt(ag: Agent, log: seq<Message>)
    requires |log| >= 1 && CountSystem(log) == 0
    ensures var log1 := Merge(log, [Respond(ag, Prompt, log)]);
            var log2 := Merge(log1, ToolNodeMessages(Tools, ag, log1));
            FirstTurnInput(log2, Prompt) == log2 && CountSystem(log2) == 0
  {
    var m := Respond(ag, Prompt, log);
    var log1 := Merge(log, [m]);
    var ts := ToolNodeMessages(Tools, ag, log1);
    CountSystemAppend(log, [m]);
    assert CountSystem([m]) == 0 by { assert [m][1..] == []; }
    CountSystemAppend(log1, ts);
  }

  /**
   * The routing agrees with the role agent's: whatever the prompt and the
   * catalogue, a finished run extends its log and ends on a reply that
   * requests no tools.
   */
  lemma {:induction false} RunEndsOnReplyWithoutCalls(ag: Agent, prompt: string, tools: seq<RoleAgent.Tool>,
                                                      log: seq<Message>, fuel: nat)
    requires PromptedRun(ag, prompt, tools, log, fuel).Some?
    ensures log < PromptedRun(ag, prompt, tools, log, fuel).value
    ensures var r := PromptedRun(ag, prompt, tools, log, fuel).value; r[|r| - 1].AiMsg? && r[|r| - 1].toolCalls == []
  {
    var model, toolNode := ModelNode(ag, prompt), ToolNode(tools, ag);
    RoleAgent.GraphRunAppendOnly(model, toolNode, log, fuel);
    RoleAgent.GraphRunEndsWithReply(model, toolNode, log, fuel);
    var r := RoleAgent.GraphRun(model, toolNode, log, fuel).value;
    assert r[|r| - 1] == Respond(ag, prompt, r[..|r| - 1]);
  }

  /** No identity injection and no self-service tool: a get_my_* call is answered as an unknown tool. */
  lemma SelfServiceUnknownToAdmin(ag: Agent, call: ToolCall)
    requires call.name in RoleAgent.ContextAwareTools
    ensures ToolNodeOutcome(Tools, ag, call) == ag.unknownText(call.name)
  {
    SelfServicePrefix(call.name);
    forall t | t in Tools ensures RoleAgent.Name(t) != call.name {
      var i :| 0 <= i < |Tools| && Tools[i] == t;
      NoSelfServiceAt(i);
    }
  }

  lemma SelfServicePrefix(name: string)
    requires name in RoleAgent.ContextAwareTools
    ensures "get_my_" <= name
  {
  }

  /** No bound tool's name starts with "get_my_": each differs at its first or fifth character. */
  lemma NoSelfServiceAt(i: nat)
    requires i < |Tools|
    ensures !("get_my_" <= RoleAgent.Name(Tools[i]))
  {
    var n := RoleAgent.Name(Tools[i]);
    if i == 2 || i == 9 {
      FifthDiffers(n);
    } else {
      FirstDiffers(n);
    }
  }

  lemma FirstDiffers(n: string)
    requires n != [] && n[0] != 'g'
    ensures !("get_my_" <= n)
  {
  }

  lemma FifthDiffers(n: string)
    requires |n| > 4 && n[4] != 'm'
    ensures !("get_my_" <= n)
  {
  }
}
