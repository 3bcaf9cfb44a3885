/**
 * The `/query` route: run the admin agent on a single human message and
 * return the text of the last message of the final log.
 */
module AgentQuery {
  import opened Wrappers
  import opened AgentState
  import AdminAgent
  import RoleAgent

  datatype HttpError = HttpError(status: nat, detail: string)

  /** `result["messages"][-1]` */
  function Last(log: seq<Message>): Message
    requires |log| > 0
  {
    log[|log| - 1]
  }

  /** The initial state of every query, whoever sends it. */
  function InitialLog(query: string): seq<Message> { [HumanMsg(Text(query))] }

  /**
   * The answer of the final message, or the text of the exception that
   * indexing it raises: an empty list (IndexError), a string part indexed by
   * a string (TypeError), a dictionary without "text" (KeyError).
   */
  function ExtractAnswer(final: Message): (r: Result<string, string>)
    ensures final.content.Text? ==> r == Ok(final.content.text)
    ensures final.content.Parts? && |final.content.parts| == 0 ==> r == Err("list index out of range")
    ensures final.content.Parts? && |final.content.parts| > 0 && final.content.parts[0].StrPart? ==>
      r == Err("string indices must be integers, not 'str'")
    ensures final.content.Parts? && |final.content.parts| > 0 && final.content.parts[0].DictPart? ==>
      r == if "text" in final.content.parts[0].fields then Ok(final.content.parts[0].fields["text"])
           else Err("'text'")
  {
    match final.content
    case Text(s) => Ok(s)
    case Parts(ps) =>
      if |ps| == 0 then Err("list index out of range")
      else match ps[0]
        case StrPart(_) => Err("string indices must be integers, not 'str'")
        case DictPart(d) => if "text" in d then Ok(d["text"]) else Err("'text'")
  }

  /**
   * `query_with_agent`: `invoke` is the compiled admin agent's run (it may
   * raise, giving the exception text); every failure becomes HTTP 500.
   */
  function QueryWithAgent(query: string, invoke: seq<Message> -> Result<seq<Message>, string>)
    : (r: Result<string, HttpError>)
    ensures r.Err? ==> r.error.status == 500 && "Error processing query: " <= r.error.detail
    ensures invoke(InitialLog(query)).Err? ==>
      r == Err(HttpError(500, "Error processing query: " + invoke(InitialLog(query)).error))
    ensures r.Ok? ==>
      (invoke(InitialLog(query)).Ok? && |invoke(InitialLog(query)).value| > 0 &&
       ExtractAnswer(Last(invoke(InitialLog(query)).value)) == Ok(r.value))
    ensures invoke(InitialLog(query)).Ok? && invoke(InitialLog(query)).value == [] ==>
      r == Err(HttpError(500, "Error processing query: list index out of range"))
  {
    match invoke(InitialLog(query))
    case Err(e) => Err(HttpError(500, "Error processing query: " + e))
    case Ok(log) =>
      if |log| == 0 then Err(HttpError(500, "Error processing query: list index out of range"))
      else
        match ExtractAnswer(log[|log| - 1])
        case Ok(a) => Ok(a)
        case Err(e) => Err(HttpError(500, "Error processing query: " + e))
  }

  /** The one-message initial state means the first model call carries the admin system prompt. */
  lemma FirstCallHasAdminPrompt(query: string)
    ensures AdminAgent.FirstTurnInput(InitialLog(query), AdminAgent.Prompt) ==
      [SystemMsg(Text(AdminAgent.Prompt)), HumanMsg(Text(query))]
  {
  }

  /**
   * A finished run of the graph (the admin one, `AdminAgent.Run`, is the
   * instance with the admin prompt and catalogue) ends on a reply; when its
   * content is a string that string is the answer.
   */
  lemma {:induction false} FinishedRunAnswers(ag: AdminAgent.Agent, prompt: string, tools: seq<RoleAgent.Tool>,
                                              query: string, fuel: nat, log: seq<Message>)
    requires AdminAgent.PromptedRun(ag, prompt, tools, InitialLog(query), fuel) == Some(log)
    ensures |log| > 1 && Last(log).AiMsg? && Last(log).toolCalls == []
    ensures Last(log).content.Text? ==> AnswerOf(query, log) == Ok(Last(log).content.text)
  {
    AdminAgent.RunEndsOnReplyWithoutCalls(ag, prompt, tools, InitialLog(query), fuel);
    assert |log| > 1 by { assert |InitialLog(query)| == 1; }
    if Last(log).content.Text? { AnswerOfText(query, log); }
  }

  /** An invocation that returns `log` whatever it is given. */
  function Replay(log: seq<Message>): seq<Message> -> Result<seq<Message>, string> {
    h => Ok(log)
  }

  /** The route's answer when the agent's run produced `log`. */
  function AnswerOf(query: string, log: seq<Message>): Result<string, HttpError> {
    QueryWithAgent(query, Replay(log))
  }

  /** A final message whose content is a string is answered with that string. */
  lemma AnswerOfText(query: string, log: seq<Message>)
    requires |log| > 0 && Last(log).content.Text?
    ensures AnswerOf(query, log) == Ok(Last(log).content.text)
  {
    assert Replay(log)(InitialLog(query)) == Ok(log);
  }
}
