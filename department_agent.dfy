/**
 * The department agent: the admin agent's loop over a department-only
 * catalogue, with its own first-turn system prompt.
 */
module DepartmentAgent {
  import opened Wrappers
  import opened AgentState
  import RoleAgent
  import AdminAgent

  const Tools: seq<RoleAgent.Tool> := [
    RoleAgent.ListAllDepartments, RoleAgent.DeleteExistingDepartment, RoleAgent.GetDepartmentById,
    RoleAgent.UpdateExistingDepartment, RoleAgent.CreateNewDepartment
  ]

  const Prompt: string :=
    "You are a helpful assistant for managing departments.\n" +
    "                You have access to tools to list, get, create, update, and delete departments.\n" +
    "                Always provide clear and concise responses to the user."

  /** The compiled department graph: entry "agent", "tools" back to "agent", END only after "agent". */
  function Run(ag: AdminAgent.Agent, log: seq<Message>, fuel: nat): Option<seq<Message>> {
    AdminAgent.PromptedRun(ag, Prompt, Tools, log, fuel)
  }

  /** The catalogue is exactly the five department tools, the same ones the ADMIN role lists. */
  lemma CatalogueIsDepartments(t: RoleAgent.Tool)
    ensures t in Tools <==> t in RoleAgent.AdminDepartmentManagement
    ensures t in Tools ==> t in AdminAgent.Tools
  {
  }

  /** The first model call (one message of history) is sent the department prompt first; later ones are not. */
  lemma FirstTurnPrompt(ag: AdminAgent.Agent, log: seq<Message>)
    ensures |log| == 1 ==> AdminAgent.Respond(ag, Prompt, log) == AsMessage(ag.llm([SystemMsg(Text(Prompt))] + log))
    ensures |log| != 1 ==> AdminAgent.Respond(ag, Prompt, log) == AsMessage(ag.llm(log))
  {
  }
}
