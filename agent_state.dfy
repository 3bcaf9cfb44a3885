/**
 * The conversation state shared by the agent graphs: a log of chat messages
 * whose channel is merged by list concatenation (`operator.add`).
 */
module AgentState {

  /** A JSON value passed as a tool argument. */
  datatype Arg = JStr(s: string) | JInt(i: int) | JBool(b: bool) | JNull

  /** One tool invocation requested by the model. */
  datatype ToolCall = ToolCall(name: string, args: map<string, Arg>, id: string)

  /** One element of a list content: a plain string or a dictionary. */
  datatype Part = StrPart(s: string) | DictPart(fields: map<string, string>)

  /** Message content: a plain string or a list of content parts. */
  datatype Content = Text(text: string) | Parts(parts: seq<Part>)

  /**
   * The message kinds of the log.  Only model (`ai`) messages carry tool calls;
   * a tool result names the call it answers.
   */
  datatype Message =
    | SystemMsg(content: Content)
    | HumanMsg(content: Content)
    | AiMsg(content: Content, toolCalls: seq<ToolCall>)
    | ToolMsg(content: Content, toolCallId: string)

  /** What the chat model returns: an `ai` message with its content and tool calls. */
  datatype Reply = Reply(content: Content, toolCalls: seq<ToolCall>)

  function AsMessage(r: Reply): Message { AiMsg(r.content, r.toolCalls) }

  /** The message `type` attribute is 'system'. */
  predicate IsSystem(m: Message) { m.SystemMsg? }

  /** `hasattr(m, 'tool_calls') and m.tool_calls` */
  predicate HasToolCalls(m: Message) { m.AiMsg? && |m.toolCalls| > 0 }

  /** The reducer of the `messages` channel: a node's update is appended to the log. */
  function Merge(log: seq<Message>, update: seq<Message>): (r: seq<Message>)
    ensures |r| == |log| + |update|
    ensures r[..|log|] == log
    ensures r[|log|..] == update
  {
    log + update
  }

  /** Merging never removes or reorders: the old log is a prefix of the new one. */
  lemma MergeKeepsPrefix(log: seq<Message>, update: seq<Message>)
    ensures log <= Merge(log, update)
    ensures forall i :: 0 <= i < |log| ==> Merge(log, update)[i] == log[i]
  {
  }

  /** An empty update (a tool node with nothing to run) leaves the log unchanged. */
  lemma MergeEmpty(log: seq<Message>)
    ensures Merge(log, []) == log
  {
  }

  function CountSystem(log: seq<Message>): nat {
    if log == [] then 0 else (if IsSystem(log[0]) then 1 else 0) + CountSystem(log[1..])
  }

  lemma {:induction false} CountSystemAppend(a: seq<Message>, b: seq<Message>)
    ensures CountSystem(a + b) == CountSystem(a) + CountSystem(b)
    decreases |a|
  {
    if a != [] {
      assert (a + b)[1..] == a[1..] + b;
      CountSystemAppend(a[1..], b);
    } else {
      assert a + b == b;
    }
  }

  /** Two successive merges equal one merge of the concatenated updates. */
  lemma MergeAssociative(log: seq<Message>, u1: seq<Message>, u2: seq<Message>)
    ensures Merge(Merge(log, u1), u2) == Merge(log, u1 + u2)
  {
  }
}
