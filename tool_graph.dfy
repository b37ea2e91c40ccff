/**
 * The tool-calling retrieval agent of agent/graph.py (class KMAChatAgent)
 * and its module-level twin in agent/chat.py:
 *
 *   START -> generate_query_or_respond -(tool call)-> retrieve -(grade)->
 *     generate_answer -> END, or rewrite_question -> generate_query_or_respond;
 *   generate_query_or_respond -(no tool call)-> END.
 *
 * The graph state is `MessagesState`, whose `add_messages` reducer appends
 * every message a node returns (none of them reuses an id). The chat model,
 * the retriever tool node, the document grader, the rewriter and the generator are oracles.
 */
module ToolGraph {
  import opened Common
  import opened Messages

  datatype Node = RespondNode | RetrieveNode | RewriteNode | GenerateNode

  /** Where a conditional edge leads. */
  datatype Route = ToTools | ToEnd | ToGenerate | ToRewrite

  datatype Oracles = Oracles(
    respond: seq<Message> -> Outcome<Reply>,
    tools: seq<Message> -> seq<Message>,
    grade: (string, string) -> Outcome<string>,
    rewrite: string -> Outcome<string>,
    generate: (string, string) -> Outcome<Reply>)

  /** LangGraph's `tools_condition` on a non-empty message list. */
  function ToolsCondition(ms: seq<Message>): (r: Route)
    requires ms != []
    ensures r == ToTools <==> ms[|ms| - 1].kind == AI && ms[|ms| - 1].toolCalls != []
    ensures r == ToTools || r == ToEnd
  {
    if ms[|ms| - 1].kind == AI && ms[|ms| - 1].toolCalls != [] then ToTools else ToEnd
  }

  /** Only the literal score "yes" sends the run to `generate_answer`. */
  const Yes: string := "yes"

  /**
   * grade_documents: the first message is the question, the last the
   * retrieved context; a grader error is not caught.
   */
  function GradeDocuments(ms: seq<Message>, grade: (string, string) -> Outcome<string>): (r: Outcome<Route>)
    requires ms != []
    ensures r.Failure? <==> grade(ms[0].content, ms[|ms| - 1].content).Failure?
    ensures r.Success? ==> (r.value == ToGenerate <==> grade(ms[0].content, ms[|ms| - 1].content).value == Yes)
    ensures r.Success? ==> r.value == ToGenerate || r.value == ToRewrite
  {
    match grade(ms[0].content, ms[|ms| - 1].content)
    case Failure(e) => Failure(e)
    case Success(score) => Success(if score == Yes then ToGenerate else ToRewrite)
  }

  /** rewrite_question: one new user message holding the rewritten first question. */
  function RewriteQuestion(ms: seq<Message>, rewrite: string -> Outcome<string>): (r: Outcome<seq<Message>>)
    requires ms != []
    ensures r.Failure? <==> rewrite(ms[0].content).Failure?
    ensures r.Success? ==> r.value == ms + [HumanMessage(rewrite(ms[0].content).value)]
  {
    match rewrite(ms[0].content)
    case Failure(e) => Failure(e)
    case Success(q) => Success(ms + [HumanMessage(q)])
  }

  /** generate_answer: one new AI message answering the first question from the last message. */
  function GenerateAnswer(ms: seq<Message>, generate: (string, string) -> Outcome<Reply>): (r: Outcome<seq<Message>>)
    requires ms != []
    ensures r.Failure? <==> generate(ms[0].content, ms[|ms| - 1].content).Failure?
    ensures r.Success? ==> r.value == ms + [FromReply(generate(ms[0].content, ms[|ms| - 1].content).value)]
  {
    match generate(ms[0].content, ms[|ms| - 1].content)
    case Failure(e) => Failure(e)
    case Success(reply) => Success(ms + [FromReply(reply)])
  }

  /** How a run ends: at END, with an exception, or when the step budget runs out. */
  datatype RunResult = Finished(messages: seq<Message>) | Raised(error: string) | OutOfSteps

  /** The compiled graph, one node per step; conditional edges are taken after their node. */
  function Run(fuel: nat, node: Node, ms: seq<Message>, o: Oracles): (r: RunResult)
    requires ms != []
    ensures r.Finished? ==> |r.messages| > |ms|
    decreases fuel
  {
    if fuel == 0 then OutOfSteps
    else
      match node
      case RespondNode =>
        (match o.respond(ms)
         case Failure(e) => Raised(e)
         case Success(reply) =>
           var next := ms + [FromReply(reply)];
           if ToolsCondition(next) == ToTools then Run(fuel - 1, RetrieveNode, next, o) else Finished(next))
      case RetrieveNode =>
        var next := ms + o.tools(ms);
        (match GradeDocuments(next, o.grade)
         case Failure(e) => Raised(e)
         case Success(route) => Run(fuel - 1, if route == ToGenerate then GenerateNode else RewriteNode, next, o))
      case RewriteNode =>
        (match RewriteQuestion(ms, o.rewrite)
         case Failure(e) => Raised(e)
         case Success(next) => Run(fuel - 1, RespondNode, next, o))
      case GenerateNode =>
        (match GenerateAnswer(ms, o.generate)
         case Failure(e) => Raised(e)
         case Success(next) => Finished(next))
  }

  /** `ms` is a prefix of `out`. */
  ghost predicate Extends(out: seq<Message>, ms: seq<Message>)
  {
    |ms| <= |out| && out[..|ms|] == ms
  }

  /**
   * A finished run only appended to the messages it started from (so the
   * question every node reads, the first message, never changes) and ends
   * on an AI message: a direct answer asking for no tool, or the generated answer.
   */
  lemma {:induction false} RunAppendsAndEndsOnAnswer(fuel: nat, node: Node, ms: seq<Message>, o: Oracles)
    requires ms != []
    requires Run(fuel, node, ms, o).Finished?
    ensures var out := Run(fuel, node, ms, o).messages;
      && Extends(out, ms)
      && out[0] == ms[0]
      && out[|out| - 1].kind == AI
  {
    match node
    case RespondNode =>
      var next := ms + [FromReply(o.respond(ms).value)];
      if ToolsCondition(next) == ToTools {
        RunAppendsAndEndsOnAnswer(fuel - 1, RetrieveNode, next, o);
        ExtendsTrans(Run(fuel - 1, RetrieveNode, next, o).messages, next, ms);
      }
    case RetrieveNode =>
      var next := ms + o.tools(ms);
      var route := GradeDocuments(next, o.grade).value;
      var n := if route == ToGenerate then GenerateNode else RewriteNode;
      RunAppendsAndEndsOnAnswer(fuel - 1, n, next, o);
      ExtendsTrans(Run(fuel - 1, n, next, o).messages, next, ms);
    case RewriteNode =>
      var next := RewriteQuestion(ms, o.rewrite).value;
      RunAppendsAndEndsOnAnswer(fuel - 1, RespondNode, next, o);
      ExtendsTrans(Run(fuel - 1, RespondNode, next, o).messages, next, ms);
    case GenerateNode =>
  }

  lemma ExtendsTrans(c: seq<Message>, b: seq<Message>, a: seq<Message>)
    requires Extends(c, b) && Extends(b, a)
    ensures Extends(c, a)
  {
    assert c[..|a|] == c[..|b|][..|a|];
  }

  /**
   * The only way out of the retrieval branch is `generate_answer`: when the
   * model always asks for the retriever, a finished run ends on the
   * generator's answer to the first question.
   */
  lemma {:induction false} RetrievalEndsAtGenerate(fuel: nat, node: Node, ms: seq<Message>, o: Oracles)
    requires ms != []
    requires forall xs :: o.respond(xs).Success? ==> o.respond(xs).value.toolCalls != []
    requires Run(fuel, node, ms, o).Finished?
    ensures var out := Run(fuel, node, ms, o).messages;
      exists c :: o.generate(ms[0].content, c).Success? && out[|out| - 1] == FromReply(o.generate(ms[0].content, c).value)
  {
    match node
    case RespondNode =>
      var next := ms + [FromReply(o.respond(ms).value)];
      assert next[0] == ms[0];
      RetrievalEndsAtGenerate(fuel - 1, RetrieveNode, next, o);
    case RetrieveNode =>
      var next := ms + o.tools(ms);
      assert next[0] == ms[0];
      var route := GradeDocuments(next, o.grade).value;
      RetrievalEndsAtGenerate(fuel - 1, if route == ToGenerate then GenerateNode else RewriteNode, next, o);
    case RewriteNode =>
      var next := RewriteQuestion(ms, o.rewrite).value;
      assert next[0] == ms[0];
      RetrievalEndsAtGenerate(fuel - 1, RespondNode, next, o);
    case GenerateNode =>
      var c := ms[|ms| - 1].content;
      assert Run(fuel, node, ms, o).messages == ms + [FromReply(o.generate(ms[0].content, c).value)];
  }

  /**
   * Nothing bounds the rewrite cycle: when the model always calls the
   * retriever and the document grader never says "yes", no step budget is enough.
   */
  lemma {:induction false} EndlessRewrites(fuel: nat, node: Node, ms: seq<Message>, o: Oracles)
    requires ms != [] && node != GenerateNode
    requires forall xs :: o.respond(xs).Success? && o.respond(xs).value.toolCalls != []
    requires forall q, c :: o.grade(q, c).Success? && o.grade(q, c).value != Yes
    requires forall q :: o.rewrite(q).Success?
    ensures Run(fuel, node, ms, o) == OutOfSteps
  {
    if fuel > 0 {
      match node
      case RespondNode =>
        var next := ms + [FromReply(o.respond(ms).value)];
        EndlessRewrites(fuel - 1, RetrieveNode, next, o);
      case RetrieveNode =>
        var next := ms + o.tools(ms);
        EndlessRewrites(fuel - 1, RewriteNode, next, o);
      case RewriteNode =>
        EndlessRewrites(fuel - 1, RespondNode, RewriteQuestion(ms, o.rewrite).value, o);
    }
  }

  /**
   * chat: run the graph from the user's message and return the last
   * message's text; exceptions, the recursion limit's included, propagate.
   */
  function Chat(message: string, o: Oracles): (r: Outcome<string>)
  {
    match Run(RecursionLimit, RespondNode, [HumanMessage(message)], o)
    case Finished(out) => Success(out[|out| - 1].content)
    case Raised(e) => Failure(e)
    case OutOfSteps => Failure(RecursionErrorText)
  }

  /**
   * A reply without tool calls is returned as it is; one that asks for a
   * tool and is judged relevant yields the generator's answer.
   */
  lemma ChatPaths(message: string, o: Oracles)
    ensures var first := [HumanMessage(message)];
      && (o.respond(first).Success? && o.respond(first).value.toolCalls == [] ==>
            Chat(message, o) == Success(o.respond(first).value.content))
      && (o.respond(first).Failure? ==> Chat(message, o) == Failure(o.respond(first).error))
  {
  }

  /** The single-step answer when the first reply asks for a tool and the document grader approves. */
  lemma ChatRetrievesThenAnswers(message: string, o: Oracles)
    requires var first := [HumanMessage(message)];
      && o.respond(first).Success? && o.respond(first).value.toolCalls != []
      && var next := first + [FromReply(o.respond(first).value)] + o.tools(first + [FromReply(o.respond(first).value)]);
      && o.grade(message, next[|next| - 1].content) == Success(Yes)
      && o.generate(message, next[|next| - 1].content).Success?
    ensures var first := [HumanMessage(message)];
      var next := first + [FromReply(o.respond(first).value)] + o.tools(first + [FromReply(o.respond(first).value)]);
      Chat(message, o) == Success(o.generate(message, next[|next| - 1].content).value.content)
  {
    var first := [HumanMessage(message)];
    var asked := first + [FromReply(o.respond(first).value)];
    var next := asked + o.tools(asked);
    assert next[0] == HumanMessage(message);
    assert ToolsCondition(asked) == ToTools;
  }
}
