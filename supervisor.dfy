/**
 * The ReAct agent graph behind the chat endpoints (agent/supervisor_agent.py):
 * summarize -> agent -> (action -> agent)* -> end.
 *
 * The graph's state is the message list; `MyAgentState` declares no reducer
 * for it, so the list a node returns becomes the new state. The chat model,
 * the summarising model and the tool node are oracles passed in.
 */
module Supervisor {
  import opened Common
  import opened Messages

  /** A tool as the prompt describes it; `argKeys` is `None` without an argument schema. */
  datatype ToolSpec = ToolSpec(name: string, description: string, argKeys: Option<seq<string>>)

  /** Python's `repr` of a plain string key (one without quotes or backslashes). */
  function KeyRepr(k: string): string
  {
    "'" + k + "'"
  }

  /** `schema()['properties'].keys()` formatted by an f-string: `dict_keys(['a', 'b'])`. */
  function ArgsText(keys: Option<seq<string>>): string
  {
    if keys.None? then "None"
    else "dict_keys([" + Join(seq(|keys.value|, i requires 0 <= i < |keys.value| => KeyRepr(keys.value[i])), ", ") + "])"
  }

  function ToolLine(t: ToolSpec): string
  {
    "- " + t.name + ": " + t.description + " (args: " + ArgsText(t.argKeys) + ")"
  }

  /** get_tool_descriptions: one line per tool, joined by newlines. */
  function ToolDescriptions(tools: seq<ToolSpec>): string
  {
    Join(seq(|tools|, i requires 0 <= i < |tools| => ToolLine(tools[i])), "\n")
  }

  function CountChar(s: string, c: char): nat
  {
    if s == [] then 0 else (if s[0] == c then 1 else 0) + CountChar(s[1..], c)
  }

  lemma {:induction false} CountCharAppend(a: string, b: string, c: char)
    ensures CountChar(a + b, c) == CountChar(a, c) + CountChar(b, c)
  {
    if a == [] {
      assert a + b == b;
    } else {
      assert (a + b)[1..] == a[1..] + b;
      CountCharAppend(a[1..], b, c);
    }
  }

  /** Joining with a newline adds exactly one newline between consecutive parts. */
  lemma {:induction false} JoinNewlines(parts: seq<string>)
    requires forall i :: 0 <= i < |parts| ==> CountChar(parts[i], '\n') == 0
    ensures |parts| > 0 ==> CountChar(Join(parts, "\n"), '\n') == |parts| - 1
  {
    if |parts| > 1 {
      JoinNewlines(parts[1..]);
      CountCharAppend(parts[0], "\n", '\n');
      CountCharAppend(parts[0] + "\n", Join(parts[1..], "\n"), '\n');
    }
  }

  /**
   * When no name, description or key contains a newline, the description
   * text has one line per tool, and it is empty exactly when there are no tools.
   */
  lemma ToolDescriptionsOneLinePerTool(tools: seq<ToolSpec>)
    requires forall i :: 0 <= i < |tools| ==> CountChar(ToolLine(tools[i]), '\n') == 0
    ensures |tools| > 0 ==> CountChar(ToolDescriptions(tools), '\n') == |tools| - 1
    ensures ToolDescriptions(tools) == "" <==> tools == []
    ensures |tools| > 0 ==> ToolDescriptions(tools)[..2] == "- "
  {
    var lines := seq(|tools|, i requires 0 <= i < |tools| => ToolLine(tools[i]));
    JoinNewlines(lines);
    if |tools| > 0 {
      JoinNonEmpty(lines, "\n");
      assert lines[0][..2] == "- ";
    }
  }

  /** `[bot]` for an AI message, `[user]` for every other kind. */
  function HistoryLine(m: Message): (line: string)
    ensures |line| > 0
  {
    (if m.kind == AI then "[bot]" else "[user]") + " " + m.content
  }

  function HistoryText(ms: seq<Message>): string
  {
    Join(seq(|ms|, i requires 0 <= i < |ms| => HistoryLine(ms[i])), "\n")
  }

  /** The history text is empty exactly when there is no earlier message. */
  lemma HistoryTextEmpty(ms: seq<Message>)
    ensures HistoryText(ms) == "" <==> ms == []
  {
    if ms != [] {
      var lines := seq(|ms|, i requires 0 <= i < |ms| => HistoryLine(ms[i]));
      JoinNonEmpty(lines, "\n");
    }
  }

  /**
   * summarize_conversation: with at least one earlier message, the last
   * message is replaced by the model's standalone reformulation; otherwise,
   * or when the model call fails, the messages are left as they are.
   * `rewrite(history, question)` is the summarising model.
   */
  function Summarize(ms: seq<Message>, rewrite: (string, string) -> Outcome<string>): seq<Message>
  {
    if |ms| < 1 then ms
    else
      var history := HistoryText(ms[..|ms| - 1]);
      if |history| == 0 then ms
      else
        match rewrite(history, ms[|ms| - 1].content)
        case Success(q) => ms[..|ms| - 1] + [HumanMessage(q)]
        case Failure(_) => ms
  }

  lemma SummarizeEffect(ms: seq<Message>, rewrite: (string, string) -> Outcome<string>)
    ensures var r := Summarize(ms, rewrite);
      |r| == |ms| && r[..|r| - (if |r| > 0 then 1 else 0)] == ms[..|ms| - (if |ms| > 0 then 1 else 0)]
    ensures |ms| <= 1 ==> Summarize(ms, rewrite) == ms
    ensures |ms| >= 2 ==>
      var q := rewrite(HistoryText(ms[..|ms| - 1]), ms[|ms| - 1].content);
      Summarize(ms, rewrite) == if q.Success? then ms[..|ms| - 1] + [HumanMessage(q.value)] else ms
  {
    if |ms| >= 1 {
      HistoryTextEmpty(ms[..|ms| - 1]);
    }
  }

  const LlmErrorPrefix: string := "An error occurred with the LLM: "

  /** call_model_no_human_loop: the messages plus the model's reply, or plus an error message. */
  function CallModel(ms: seq<Message>, model: seq<Message> -> Outcome<Reply>): (r: seq<Message>)
    ensures |r| == |ms| + 1 && r[..|ms|] == ms && r[|ms|].kind == AI
    ensures model(ms).Failure? ==> r[|ms|] == AIMessage(LlmErrorPrefix + model(ms).error)
    ensures model(ms).Success? ==> r[|ms|] == FromReply(model(ms).value)
  {
    match model(ms)
    case Success(reply) => ms + [FromReply(reply)]
    case Failure(e) => ms + [AIMessage(LlmErrorPrefix + e)]
  }

  datatype Node = SummarizeNode | AgentNode | ActionNode

  datatype Route = ToAction | ToEnd

  /** should_continue_no_human_loop. */
  function ShouldContinue(ms: seq<Message>): (r: Route)
    ensures r == ToAction <==> |ms| > 0 && ms[|ms| - 1].kind == AI && ms[|ms| - 1].toolCalls != []
  {
    if ms == [] then ToEnd
    else if ms[|ms| - 1].kind == AI && ms[|ms| - 1].toolCalls != [] then ToAction
    else ToEnd
  }

  /** The three oracles a run consults. */
  datatype Oracles = Oracles(
    rewrite: (string, string) -> Outcome<string>,
    model: seq<Message> -> Outcome<Reply>,
    tools: seq<Message> -> seq<Message>)

  /**
   * The compiled graph: entry `summarize`, then `agent`, which either ends
   * the run or goes to `action`, which always returns to `agent`. `None`
   * means the step budget ran out (LangGraph raises GraphRecursionError).
   */
  function Run(fuel: nat, node: Node, ms: seq<Message>, o: Oracles): Option<seq<Message>>
    decreases fuel
  {
    if fuel == 0 then None
    else
      match node
      case SummarizeNode => Run(fuel - 1, AgentNode, Summarize(ms, o.rewrite), o)
      case AgentNode =>
        var next := CallModel(ms, o.model);
        if ShouldContinue(next) == ToAction then Run(fuel - 1, ActionNode, next, o) else Some(next)
      case ActionNode => Run(fuel - 1, AgentNode, o.tools(ms), o)
  }

  /**
   * A finished run always ends on an AI message that asks for no tool:
   * the run leaves the graph only through the agent node's END branch.
   */
  lemma {:induction false} RunEndsOnFinalAnswer(fuel: nat, node: Node, ms: seq<Message>, o: Oracles)
    requires Run(fuel, node, ms, o).Some?
    ensures var out := Run(fuel, node, ms, o).value;
      |out| > 0 && out[|out| - 1].kind == AI && out[|out| - 1].toolCalls == []
  {
    match node
    case SummarizeNode => RunEndsOnFinalAnswer(fuel - 1, AgentNode, Summarize(ms, o.rewrite), o);
    case AgentNode =>
      var next := CallModel(ms, o.model);
      if ShouldContinue(next) == ToAction {
        RunEndsOnFinalAnswer(fuel - 1, ActionNode, next, o);
      }
    case ActionNode => RunEndsOnFinalAnswer(fuel - 1, AgentNode, o.tools(ms), o);
  }

  /**
   * When the model answers without asking for a tool (or fails), the run
   * takes two steps and returns the summarised messages plus that answer.
   */
  lemma DirectAnswer(fuel: nat, ms: seq<Message>, o: Oracles)
    requires fuel >= 2
    requires var s := Summarize(ms, o.rewrite);
      o.model(s).Failure? || o.model(s).value.toolCalls == []
    ensures Run(fuel, SummarizeNode, ms, o) == Some(CallModel(Summarize(ms, o.rewrite), o.model))
  {
  }

  /** A model that always asks for a tool never lets a run finish, whatever the budget. */
  lemma {:induction false} AlwaysToolsNeverFinishes(fuel: nat, node: Node, ms: seq<Message>, o: Oracles)
    requires forall xs :: o.model(xs).Success? && o.model(xs).value.toolCalls != []
    ensures Run(fuel, node, ms, o).None?
  {
    if fuel > 0 {
      match node
      case SummarizeNode => AlwaysToolsNeverFinishes(fuel - 1, AgentNode, Summarize(ms, o.rewrite), o);
      case AgentNode =>
        var next := CallModel(ms, o.model);
        assert ShouldContinue(next) == ToAction;
        AlwaysToolsNeverFinishes(fuel - 1, ActionNode, next, o);
      case ActionNode => AlwaysToolsNeverFinishes(fuel - 1, AgentNode, o.tools(ms), o);
    }
  }

  /**
   * ReActGraph.chat_with_memory: run the graph on a copy of the history with
   * the query appended as a user message, and return the final messages.
   */
  function ChatWithMemory(history: seq<Message>, query: string, o: Oracles): (r: Option<seq<Message>>)
    ensures r.Some? ==> |r.value| > 0 && r.value[|r.value| - 1].kind == AI
  {
    var r := Run(RecursionLimit, SummarizeNode, history + [HumanMessage(query)], o);
    if r.Some? then
      RunEndsOnFinalAnswer(RecursionLimit, SummarizeNode, history + [HumanMessage(query)], o);
      r
    else r
  }

  /** ReActGraph.chat: the same run, started from the single message `init`. */
  function Chat(init: string, o: Oracles): (r: Option<seq<Message>>)
    ensures r == ChatWithMemory([], init, o)
  {
    assert [] + [HumanMessage(init)] == [HumanMessage(init)];
    Run(RecursionLimit, SummarizeNode, [HumanMessage(init)], o)
  }

  /**
   * With a single new message there is nothing to summarise: a direct
   * answer from the model is appended to the query itself.
   */
  lemma ChatDirectAnswer(init: string, o: Oracles)
    requires o.model([HumanMessage(init)]).Success? && o.model([HumanMessage(init)]).value.toolCalls == []
    ensures Chat(init, o) == Some([HumanMessage(init), FromReply(o.model([HumanMessage(init)]).value)])
  {
    var ms := [HumanMessage(init)];
    SummarizeEffect(ms, o.rewrite);
    assert Summarize(ms, o.rewrite) == ms;
    DirectAnswer(RecursionLimit, ms, o);
    assert ms + [FromReply(o.model(ms).value)] == [HumanMessage(init), FromReply(o.model(ms).value)];
  }
}
