/**
 * The chat messages the agent graphs pass around (LangChain's HumanMessage,
 * AIMessage, ToolMessage and SystemMessage), reduced to what the core reads:
 * the kind, the text, an optional name and the tool calls an AI message asks for.
 */
module Messages {
  import opened Common

  datatype Kind = Human | AI | Tool | System

  datatype ToolCall = ToolCall(name: string, args: map<string, Json>)

  datatype Message = Message(kind: Kind, content: string, name: Option<string>, toolCalls: seq<ToolCall>)

  function HumanMessage(content: string): (m: Message)
    ensures m.kind == Human && m.content == content && m.toolCalls == []
  {
    Message(Human, content, None, [])
  }

  function AIMessage(content: string): (m: Message)
    ensures m.kind == AI && m.content == content && m.toolCalls == []
  {
    Message(AI, content, None, [])
  }

  /** What a chat model returns: an AI message, possibly asking for tool calls. */
  datatype Reply = Reply(content: string, toolCalls: seq<ToolCall>)

  function FromReply(r: Reply): (m: Message)
    ensures m.kind == AI && m.content == r.content && m.toolCalls == r.toolCalls
  {
    Message(AI, r.content, None, r.toolCalls)
  }

  /** The result of a call that may raise: the value, or the exception's text. */
  datatype Outcome<T> = Success(value: T) | Failure(error: string)

  /** LangGraph's default recursion limit: the number of node executions a run may take. */
  const RecursionLimit: nat := 25

  /** Stands for the text of LangGraph's GraphRecursionError, which the model does not spell out. */
  const RecursionErrorText: string := "GraphRecursionError"
}
