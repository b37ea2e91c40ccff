/**
 * The retrieval graph of rag/rag_graph.py (class KMAChatAgent, and the
 * helper `process_kma_query`):
 *
 *   START -> process_user_query -> retrieve_documents -(grade)->
 *     generate_answer -> END, or rewrite_question -> process_user_query.
 *
 * The graph state is `MessagesState`. Its `add_messages` reducer merges the
 * list a node returns into the state: a message that carries the id of a
 * message already there replaces it in place, any other is appended. Each
 * node below says which of the messages it returns are old ones. The
 * retriever, the document grader, the rewriter, the generator and Unicode NFD
 * decomposition are oracles.
 */
module RagGraph {
  import opened Common
  import opened Messages

  datatype Node = ProcessNode | RetrieveNode | RewriteNode | GenerateNode

  datatype Route = ToGenerate | ToRewrite

  datatype Oracles = Oracles(
    nfd: string -> string,
    retrieve: string -> Outcome<seq<string>>,
    grade: (string, string) -> Outcome<string>,
    rewrite: string -> Outcome<string>,
    generate: (string, string) -> Outcome<Reply>)

  /**
   * `add_messages(current, update)` when the first `known` messages of the
   * update are the state's first `known` messages (same ids, possibly new
   * content) and the rest of the update is new.
   */
  function AddMessages(current: seq<Message>, update: seq<Message>, known: nat): (r: seq<Message>)
    requires known <= |current| && known <= |update|
    ensures |r| == |current| + |update| - known
    ensures r[..known] == update[..known] && r[known..|current|] == current[known..]
    ensures r[|current|..] == update[known..]
  {
    update[..known] + current[known..] + update[known..]
  }

  // ---- process_user_query ----

  predicate IsAscii(c: char)
  {
    c < 128 as char
  }

  predicate AllAscii(s: string)
  {
    forall i :: 0 <= i < |s| ==> IsAscii(s[i])
  }

  /** `.encode('ascii', 'ignore').decode('utf-8')`: drop every non-ASCII character. */
  function AsciiOnly(s: string): (r: string)
    ensures AllAscii(r) && |r| <= |s|
    ensures AllAscii(s) ==> r == s
  {
    if s == [] then []
    else (if IsAscii(s[0]) then [s[0]] else []) + AsciiOnly(s[1..])
  }

  /** The query with its diacritics removed: NFD decomposition, then ASCII only. */
  function Normalize(q: string, nfd: string -> string): (r: string)
    ensures AllAscii(r)
  {
    AsciiOnly(nfd(q))
  }

  /**
   * process_user_query: the first message is replaced, in place, by a user
   * message holding its normalised text; an empty list is returned as it is.
   * Every message it returns is already in the state.
   */
  function ProcessUserQuery(ms: seq<Message>, nfd: string -> string): (r: seq<Message>)
    ensures |r| == |ms|
    ensures ms != [] ==> r[0] == HumanMessage(Normalize(ms[0].content, nfd)) && r[1..] == ms[1..]
    ensures ms == [] ==> r == []
  {
    if ms == [] then ms else ms[0 := HumanMessage(Normalize(ms[0].content, nfd))]
  }

  // ---- retrieve_documents ----

  const RetrievedContextName: string := "retrieved_context"
  const ContextSeparator: string := "\n\n"

  /** The AI message named "retrieved_context" that carries the joined documents. */
  function ContextMessage(docs: seq<string>): (m: Message)
    ensures m.kind == AI && m.name == Some(RetrievedContextName) && m.toolCalls == []
  {
    Message(AI, Join(docs, ContextSeparator), Some(RetrievedContextName), [])
  }

  /**
   * retrieve_documents: the documents retrieved for the first message,
   * joined by blank lines, in one new message after the old ones.
   */
  function RetrieveDocuments(ms: seq<Message>, retrieve: string -> Outcome<seq<string>>): (r: Outcome<seq<Message>>)
    requires ms != []
    ensures r.Failure? <==> retrieve(ms[0].content).Failure?
    ensures r.Success? ==> r.value == ms + [ContextMessage(retrieve(ms[0].content).value)]
  {
    match retrieve(ms[0].content)
    case Failure(e) => Failure(e)
    case Success(docs) => Success(ms + [ContextMessage(docs)])
  }

  predicate IsRetrievedContext(m: Message)
  {
    m.kind == AI && m.name == Some(RetrievedContextName)
  }

  /** The text of the last "retrieved_context" message, or "" when there is none. */
  function LastRetrievedContext(ms: seq<Message>): (r: string)
    ensures ms != [] && IsRetrievedContext(ms[|ms| - 1]) ==> r == ms[|ms| - 1].content
  {
    if ms == [] then ""
    else if IsRetrievedContext(ms[|ms| - 1]) then ms[|ms| - 1].content
    else LastRetrievedContext(ms[..|ms| - 1])
  }

  /** Without any context message there is no context: the document grader is then never asked. */
  lemma {:induction false} NoContextMessage(ms: seq<Message>)
    requires forall i :: 0 <= i < |ms| ==> !IsRetrievedContext(ms[i])
    ensures LastRetrievedContext(ms) == ""
  {
    if ms != [] {
      NoContextMessage(ms[..|ms| - 1]);
    }
  }

  /** Messages after the last context message do not change which context is found. */
  lemma {:induction false} LastRetrievedContextSkips(ms: seq<Message>, tail: seq<Message>)
    requires forall i :: 0 <= i < |tail| ==> !IsRetrievedContext(tail[i])
    ensures LastRetrievedContext(ms + tail) == LastRetrievedContext(ms)
  {
    if tail != [] {
      var n := |tail| - 1;
      assert (ms + tail)[..|ms + tail| - 1] == ms + tail[..n];
      LastRetrievedContextSkips(ms, tail[..n]);
    } else {
      assert ms + tail == ms;
    }
  }

  // ---- grade_documents ----

  const Yes: string := "yes"

  /**
   * grade_documents: without a retrieved context the run goes to
   * rewrite_question and the document grader is not asked; a grader error counts as
   * "no"; only "yes" leads to generate_answer.
   */
  function GradeDocuments(ms: seq<Message>, grade: (string, string) -> Outcome<string>): (r: Route)
    requires ms != []
    ensures var ctx := LastRetrievedContext(ms);
      r == ToGenerate <==> ctx != "" && grade(ms[0].content, ctx) == Success(Yes)
  {
    var ctx := LastRetrievedContext(ms);
    if ctx == "" then ToRewrite
    else
      var score := match grade(ms[0].content, ctx) case Success(s) => s case Failure(_) => "no";
      if score == Yes then ToGenerate else ToRewrite
  }

  // ---- rewrite_question ----

  /**
   * rewrite_question as written: the rewritten first question is returned
   * as a new user message, so the reducer appends it after the old ones.
   */
  function RewriteQuestion(ms: seq<Message>, rewrite: string -> Outcome<string>): (r: Outcome<seq<Message>>)
    requires ms != []
    ensures r.Failure? <==> rewrite(ms[0].content).Failure?
    ensures r.Success? ==> r.value == [HumanMessage(rewrite(ms[0].content).value)]
  {
    match rewrite(ms[0].content)
    case Failure(e) => Failure(e)
    case Success(q) => Success([HumanMessage(q)])
  }

  /**
   * rewrite_question as its comment means it: the first user message is
   * updated with the rewritten question, the other messages are kept.
   */
  function RewriteQuestionCorrected(ms: seq<Message>, rewrite: string -> Outcome<string>): (r: Outcome<seq<Message>>)
    requires ms != []
    ensures r.Failure? <==> rewrite(ms[0].content).Failure?
    ensures r.Success? ==> r.value == ms[0 := HumanMessage(rewrite(ms[0].content).value)]
  {
    match rewrite(ms[0].content)
    case Failure(e) => Failure(e)
    case Success(q) => Success(ms[0 := HumanMessage(q)])
  }

  // ---- generate_answer ----

  const FallbackContext: string := "Không có thông tin liên quan được tìm thấy trong cơ sở dữ liệu."

  /** The context the generator is given: the last retrieved one, or the fixed fallback. */
  function GenerationContext(ms: seq<Message>): (r: string)
    ensures r != ""
    ensures LastRetrievedContext(ms) != "" ==> r == LastRetrievedContext(ms)
  {
    var ctx := LastRetrievedContext(ms);
    if ctx == "" then FallbackContext else ctx
  }

  /**
   * generate_answer returns every message but the last, then the answer.
   * All but the answer are old messages.
   */
  function GenerateAnswer(ms: seq<Message>, generate: (string, string) -> Outcome<Reply>): (r: Outcome<seq<Message>>)
    requires ms != []
    ensures r.Failure? <==> generate(ms[0].content, GenerationContext(ms)).Failure?
    ensures r.Success? ==> (|r.value| == |ms|
      && r.value == ms[..|ms| - 1] + [FromReply(generate(ms[0].content, GenerationContext(ms)).value)])
  {
    match generate(ms[0].content, GenerationContext(ms))
    case Failure(e) => Failure(e)
    case Success(reply) => Success(ms[..|ms| - 1] + [FromReply(reply)])
  }

  /**
   * The answer's list has the state's length, but its messages before the
   * answer keep their ids, so the reducer leaves the context message in
   * place and appends the answer.
   */
  lemma GenerateKeepsContext(ms: seq<Message>, reply: Reply)
    requires ms != []
    ensures AddMessages(ms, ms[..|ms| - 1] + [FromReply(reply)], |ms| - 1) == ms + [FromReply(reply)]
  {
    var r := AddMessages(ms, ms[..|ms| - 1] + [FromReply(reply)], |ms| - 1);
    assert r == ms[..|ms| - 1] + ms[|ms| - 1..] + [FromReply(reply)];
    assert ms[..|ms| - 1] + ms[|ms| - 1..] == ms;
  }

  // ---- the graph ----

  /** Which rewrite node the graph runs: the code as written, or the corrected one. */
  datatype RewriteMode = AsWritten | Corrected

  datatype RunResult = Finished(messages: seq<Message>) | Raised(error: string) | OutOfSteps

  /** The state after the rewrite node's update has been merged. */
  function AfterRewrite(ms: seq<Message>, mode: RewriteMode, rewrite: string -> Outcome<string>): (r: Outcome<seq<Message>>)
    requires ms != []
    ensures r.Success? ==> |r.value| >= |ms|
  {
    match mode
    case AsWritten =>
      (match RewriteQuestion(ms, rewrite)
       case Failure(e) => Failure(e)
       case Success(u) => Success(AddMessages(ms, u, 0)))
    case Corrected =>
      (match RewriteQuestionCorrected(ms, rewrite)
       case Failure(e) => Failure(e)
       case Success(u) => Success(AddMessages(ms, u, |ms|)))
  }

  /** What one node does: hand the merged state to the next node, end the run, or raise. */
  datatype StepResult = Continue(next: Node, messages: seq<Message>) | Done(messages: seq<Message>) | Fail(error: string)

  /** One node of the graph, its update merged by `add_messages`, and the edge taken after it. */
  function Step(node: Node, ms: seq<Message>, o: Oracles, mode: RewriteMode): (r: StepResult)
    requires ms != []
    ensures !r.Fail? ==> r.messages != []
    ensures r.Done? <==> node == GenerateNode && !r.Fail?
    ensures r.Continue? && r.next == GenerateNode ==> node == RetrieveNode
  {
    match node
    case ProcessNode =>
      Continue(RetrieveNode, AddMessages(ms, ProcessUserQuery(ms, o.nfd), |ms|))
    case RetrieveNode =>
      (match RetrieveDocuments(ms, o.retrieve)
       case Failure(e) => Fail(e)
       case Success(u) =>
         var next := AddMessages(ms, u, |ms|);
         Continue(if GradeDocuments(next, o.grade) == ToGenerate then GenerateNode else RewriteNode, next))
    case RewriteNode =>
      (match AfterRewrite(ms, mode, o.rewrite)
       case Failure(e) => Fail(e)
       case Success(next) => Continue(ProcessNode, next))
    case GenerateNode =>
      (match GenerateAnswer(ms, o.generate)
       case Failure(e) => Fail(e)
       case Success(u) => Done(AddMessages(ms, u, |ms| - 1)))
  }

  /** The compiled graph: steps from `node` until END, an exception, or the budget runs out. */
  function Run(fuel: nat, node: Node, ms: seq<Message>, o: Oracles, mode: RewriteMode): (r: RunResult)
    requires ms != []
    ensures r.Finished? ==> r.messages != []
    ensures fuel == 0 ==> r.OutOfSteps?
    decreases fuel
  {
    if fuel == 0 then OutOfSteps
    else
      match Step(node, ms, o, mode)
      case Continue(n, next) => Run(fuel - 1, n, next, o, mode)
      case Done(out) => Finished(out)
      case Fail(e) => Raised(e)
  }

  /** A step that hands the state on leaves the rest of the run to the next node. */
  lemma RunContinues(fuel: nat, node: Node, ms: seq<Message>, o: Oracles, mode: RewriteMode)
    requires ms != [] && fuel > 0 && Step(node, ms, o, mode).Continue?
    ensures var st := Step(node, ms, o, mode);
      Run(fuel, node, ms, o, mode) == Run(fuel - 1, st.next, st.messages, o, mode)
  {
  }

  const ErrorPrefix: string := "Đã xảy ra lỗi trong quá trình xử lý: "

  /**
   * chat: run the graph from the user's message and return the last
   * message's text; any exception, the recursion limit's included, becomes
   * an error text instead of propagating.
   */
  function Chat(message: string, o: Oracles, mode: RewriteMode): (r: string)
    ensures var run := Run(RecursionLimit, ProcessNode, [HumanMessage(message)], o, mode);
      && (run.Raised? ==> r == ErrorPrefix + run.error)
      && (run.OutOfSteps? ==> r == ErrorPrefix + RecursionErrorText)
      && (run.Finished? ==> r == run.messages[|run.messages| - 1].content)
  {
    match Run(RecursionLimit, ProcessNode, [HumanMessage(message)], o, mode)
    case Finished(out) => out[|out| - 1].content
    case Raised(e) => ErrorPrefix + e
    case OutOfSteps => ErrorPrefix + RecursionErrorText
  }

  /** NFD leaves a string that is already ASCII as it is. */
  ghost predicate NfdFixesAscii(nfd: string -> string)
  {
    forall s :: AllAscii(s) ==> nfd(s) == s
  }

  /** The state retrieval finds after a step of the graph. */
  lemma RetrieveStep(ms: seq<Message>, docs: seq<string>)
    requires ms != []
    ensures var next := AddMessages(ms, ms + [ContextMessage(docs)], |ms|);
      next == ms + [ContextMessage(docs)] && next[0] == ms[0]
      && LastRetrievedContext(next) == Join(docs, ContextSeparator)
  {
    var next := AddMessages(ms, ms + [ContextMessage(docs)], |ms|);
    assert next == (ms + [ContextMessage(docs)])[..|ms|] + ms[|ms|..] + [ContextMessage(docs)];
    assert (ms + [ContextMessage(docs)])[..|ms|] == ms && ms[|ms|..] == [];
  }

  /**
   * As written, the rewritten question never reaches retrieval: after
   * rewrite_question and process_user_query the first message, which
   * retrieve_documents reads, is the same normalised question as before.
   */
  lemma RewriteIgnoredByRetrieval(ms: seq<Message>, o: Oracles)
    requires ms != [] && AllAscii(ms[0].content) && NfdFixesAscii(o.nfd)
    requires o.rewrite(ms[0].content).Success?
    ensures var next := AfterRewrite(ms, AsWritten, o.rewrite).value;
      var processed := AddMessages(next, ProcessUserQuery(next, o.nfd), |next|);
      processed[0].content == ms[0].content
  {
    var next := AfterRewrite(ms, AsWritten, o.rewrite).value;
    assert next == ms + [HumanMessage(o.rewrite(ms[0].content).value)];
    assert next[0] == ms[0];
  }

  /**
   * Corrected, retrieval reads the normalised rewritten question.
   */
  lemma CorrectedRewriteReachesRetrieval(ms: seq<Message>, o: Oracles)
    requires ms != [] && o.rewrite(ms[0].content).Success?
    ensures var next := AfterRewrite(ms, Corrected, o.rewrite).value;
      var processed := AddMessages(next, ProcessUserQuery(next, o.nfd), |next|);
      processed[0].content == Normalize(o.rewrite(ms[0].content).value, o.nfd)
  {
    var next := AfterRewrite(ms, Corrected, o.rewrite).value;
    assert next == ms[0 := HumanMessage(o.rewrite(ms[0].content).value)];
  }

  /** The document grader accepts the context built from `docs` for question `q`. */
  predicate Accepts(o: Oracles, q: string, docs: seq<string>)
  {
    Join(docs, ContextSeparator) != "" && o.grade(q, Join(docs, ContextSeparator)) == Success(Yes)
  }

  /** What is retrieved for question `q`, if anything, is turned down. */
  ghost predicate RejectsRetrievalFor(o: Oracles, q: string)
  {
    o.retrieve(q).Success? ==> !Accepts(o, q, o.retrieve(q).value)
  }

  /**
   * So as written, once the document grader turns down the documents retrieved for
   * the normalised question, the run can never finish: it cycles through
   * rewrite and retrieval with the same question until the budget or an
   * exception ends it.
   */
  lemma {:induction false} AsWrittenNeverFinishes(fuel: nat, ms: seq<Message>, o: Oracles, q0: string)
    requires ms != [] && Normalize(ms[0].content, o.nfd) == q0
    requires NfdFixesAscii(o.nfd) && RejectsRetrievalFor(o, q0)
    ensures !Run(fuel, ProcessNode, ms, o, AsWritten).Finished?
    decreases fuel, 2
  {
    if fuel > 0 {
      var next := AddMessages(ms, ProcessUserQuery(ms, o.nfd), |ms|);
      assert next[0] == HumanMessage(q0);
      assert Step(ProcessNode, ms, o, AsWritten) == Continue(RetrieveNode, next);
      RetrievalNeverFinishes(fuel - 1, next, o, q0);
    }
  }

  /** A context message for `q0`'s documents that the document grader turns down sends the run to a rewrite. */
  lemma RejectedContext(next: seq<Message>, o: Oracles, q0: string)
    requires o.retrieve(q0).Success? && RejectsRetrievalFor(o, q0)
    requires next != [] && next[0].content == q0
    requires LastRetrievedContext(next) == Join(o.retrieve(q0).value, ContextSeparator)
    ensures GradeDocuments(next, o.grade) == ToRewrite
  {
  }

  /** The retrieval step of the cycle: the documents are turned down, so the question is rewritten. */
  lemma {:induction false} RetrievalNeverFinishes(fuel: nat, ms: seq<Message>, o: Oracles, q0: string)
    requires ms != [] && ms[0].content == q0 && AllAscii(q0)
    requires NfdFixesAscii(o.nfd) && RejectsRetrievalFor(o, q0)
    ensures !Run(fuel, RetrieveNode, ms, o, AsWritten).Finished?
    decreases fuel, 1
  {
    if fuel > 0 {
      if o.retrieve(q0).Success? {
        var docs := o.retrieve(q0).value;
        RetrieveStep(ms, docs);
        var next := ms + [ContextMessage(docs)];
        RejectedContext(next, o, q0);
        assert Step(RetrieveNode, ms, o, AsWritten) == Continue(RewriteNode, next);
        RewriteNeverFinishes(fuel - 1, next, o, q0);
      } else {
        assert Step(RetrieveNode, ms, o, AsWritten).Fail?;
      }
    }
  }

  /** The rewrite step of the cycle: the rewritten question goes after the first one. */
  lemma {:induction false} RewriteNeverFinishes(fuel: nat, ms: seq<Message>, o: Oracles, q0: string)
    requires ms != [] && ms[0].content == q0 && AllAscii(q0)
    requires NfdFixesAscii(o.nfd) && RejectsRetrievalFor(o, q0)
    ensures !Run(fuel, RewriteNode, ms, o, AsWritten).Finished?
    decreases fuel, 0
  {
    if fuel > 0 {
      if o.rewrite(q0).Success? {
        var next := ms + [HumanMessage(o.rewrite(q0).value)];
        assert next[0] == ms[0];
        assert Step(RewriteNode, ms, o, AsWritten) == Continue(ProcessNode, next);
        RunContinues(fuel, RewriteNode, ms, o, AsWritten);
        AsWrittenNeverFinishes(fuel - 1, next, o, q0);
      } else {
        assert Step(RewriteNode, ms, o, AsWritten).Fail?;
      }
    }
  }

  /** ... and `chat` then answers only with an error text. */
  lemma AsWrittenChatFails(message: string, o: Oracles)
    requires NfdFixesAscii(o.nfd) && RejectsRetrievalFor(o, Normalize(message, o.nfd))
    ensures ErrorPrefix <= Chat(message, o, AsWritten)
  {
    AsWrittenNeverFinishes(RecursionLimit, [HumanMessage(message)], o, Normalize(message, o.nfd));
  }

  /** The question retrieval reads once process_user_query has run on `ms`. */
  function Processed(ms: seq<Message>, nfd: string -> string): (r: seq<Message>)
    requires ms != []
    ensures |r| == |ms| && r[0] == HumanMessage(Normalize(ms[0].content, nfd)) && r[1..] == ms[1..]
  {
    ms[0 := HumanMessage(Normalize(ms[0].content, nfd))]
  }

  /** The document grader accepts what is retrieved for `q` and the generator answers. */
  ghost predicate Answerable(o: Oracles, q: string)
  {
    && o.retrieve(q).Success?
    && var c := Join(o.retrieve(q).value, ContextSeparator);
    && c != "" && o.grade(q, c) == Success(Yes) && o.generate(q, c).Success?
  }

  /** The generator's answer to `q` from the documents retrieved for it. */
  ghost function AnswerTo(o: Oracles, q: string): (reply: Reply)
    requires Answerable(o, q)
  {
    o.generate(q, Join(o.retrieve(q).value, ContextSeparator)).value
  }

  /** One step of process_user_query. */
  lemma ProcessRun(fuel: nat, ms: seq<Message>, o: Oracles, mode: RewriteMode)
    requires ms != [] && fuel > 0
    ensures Run(fuel, ProcessNode, ms, o, mode) == Run(fuel - 1, RetrieveNode, Processed(ms, o.nfd), o, mode)
  {
    assert Step(ProcessNode, ms, o, mode) == Continue(RetrieveNode, Processed(ms, o.nfd));
    RunContinues(fuel, ProcessNode, ms, o, mode);
  }

  /** One step of retrieve_documents, followed by the grading edge. */
  lemma RetrieveRun(fuel: nat, ms: seq<Message>, o: Oracles, mode: RewriteMode)
    requires ms != [] && fuel > 0 && o.retrieve(ms[0].content).Success?
    ensures var docs := o.retrieve(ms[0].content).value;
      Run(fuel, RetrieveNode, ms, o, mode)
        == Run(fuel - 1, if Accepts(o, ms[0].content, docs) then GenerateNode else RewriteNode,
               ms + [ContextMessage(docs)], o, mode)
  {
    var docs := o.retrieve(ms[0].content).value;
    RetrieveStep(ms, docs);
    var next := ms + [ContextMessage(docs)];
    assert Step(RetrieveNode, ms, o, mode)
      == Continue(if Accepts(o, ms[0].content, docs) then GenerateNode else RewriteNode, next);
    RunContinues(fuel, RetrieveNode, ms, o, mode);
  }

  /** One step of the corrected rewrite_question. */
  lemma CorrectedRewriteRun(fuel: nat, ms: seq<Message>, o: Oracles)
    requires ms != [] && fuel > 0 && o.rewrite(ms[0].content).Success?
    ensures Run(fuel, RewriteNode, ms, o, Corrected)
      == Run(fuel - 1, ProcessNode, ms[0 := HumanMessage(o.rewrite(ms[0].content).value)], o, Corrected)
  {
    assert Step(RewriteNode, ms, o, Corrected) == Continue(ProcessNode, ms[0 := HumanMessage(o.rewrite(ms[0].content).value)]);
    RunContinues(fuel, RewriteNode, ms, o, Corrected);
  }

  /**
   * From process_user_query, an answerable question ends the run three
   * steps later, in either mode: the state gets the context message and
   * then the answer.
   */
  lemma AnswersFrom(fuel: nat, ms: seq<Message>, o: Oracles, mode: RewriteMode)
    requires ms != [] && fuel >= 3 && Answerable(o, Normalize(ms[0].content, o.nfd))
    ensures var q := Normalize(ms[0].content, o.nfd);
      Run(fuel, ProcessNode, ms, o, mode)
        == Finished(Processed(ms, o.nfd) + [ContextMessage(o.retrieve(q).value), FromReply(AnswerTo(o, q))])
  {
    var q := Normalize(ms[0].content, o.nfd);
    var s1 := Processed(ms, o.nfd);
    ProcessRun(fuel, ms, o, mode);
    RetrieveRun(fuel - 1, s1, o, mode);
    var d := o.retrieve(q).value;
    var s2 := s1 + [ContextMessage(d)];
    var reply := AnswerTo(o, q);
    RetrieveStep(s1, d);
    GenerateKeepsContext(s2, reply);
    assert Step(GenerateNode, s2, o, mode) == Done(s2 + [FromReply(reply)]);
    assert s2 + [FromReply(reply)] == s1 + [ContextMessage(d), FromReply(reply)];
  }

  /**
   * Corrected, a question whose documents are turned down comes back to
   * process_user_query three steps later as the rewritten question, with
   * the turned-down context kept after it.
   */
  lemma CorrectedRewriteRound(fuel: nat, ms: seq<Message>, o: Oracles)
    requires ms != [] && fuel >= 3
    requires var q := Normalize(ms[0].content, o.nfd);
      o.retrieve(q).Success? && o.rewrite(q).Success? && !Accepts(o, q, o.retrieve(q).value)
    ensures var q := Normalize(ms[0].content, o.nfd);
      var s2 := Processed(ms, o.nfd) + [ContextMessage(o.retrieve(q).value)];
      Run(fuel, ProcessNode, ms, o, Corrected)
        == Run(fuel - 3, ProcessNode, s2[0 := HumanMessage(o.rewrite(q).value)], o, Corrected)
  {
    var s1 := Processed(ms, o.nfd);
    ProcessRun(fuel, ms, o, Corrected);
    RetrieveRun(fuel - 1, s1, o, Corrected);
    var s2 := s1 + [ContextMessage(o.retrieve(s1[0].content).value)];
    CorrectedRewriteRun(fuel - 2, s2, o);
  }

  /**
   * Corrected, one rewrite is enough when the document grader accepts what is
   * retrieved for the rewritten question: the chat answers with the
   * generator's reply to that question.
   */
  lemma CorrectedChatAnswersAfterRewrite(message: string, o: Oracles)
    requires var q0 := Normalize(message, o.nfd);
      && o.retrieve(q0).Success? && o.rewrite(q0).Success? && !Accepts(o, q0, o.retrieve(q0).value)
      && Answerable(o, Normalize(o.rewrite(q0).value, o.nfd))
    ensures Chat(message, o, Corrected) == AnswerTo(o, Normalize(o.rewrite(Normalize(message, o.nfd)).value, o.nfd)).content
  {
    var m0 := [HumanMessage(message)];
    var q0 := Normalize(message, o.nfd);
    CorrectedRewriteRound(RecursionLimit, m0, o);
    var s2 := Processed(m0, o.nfd) + [ContextMessage(o.retrieve(q0).value)];
    var s3 := s2[0 := HumanMessage(o.rewrite(q0).value)];
    AnswersFrom(RecursionLimit - 3, s3, o, Corrected);
  }

  /**
   * A first retrieval the document grader accepts is answered at once, in either
   * mode: the result holds the normalised question, the context message
   * and the answer.
   */
  lemma ChatAnswersFirstTime(message: string, o: Oracles, mode: RewriteMode)
    requires Answerable(o, Normalize(message, o.nfd))
    ensures var q0 := Normalize(message, o.nfd);
      && Run(RecursionLimit, ProcessNode, [HumanMessage(message)], o, mode)
           == Finished([HumanMessage(q0), ContextMessage(o.retrieve(q0).value), FromReply(AnswerTo(o, q0))])
      && Chat(message, o, mode) == AnswerTo(o, q0).content
  {
    var q0 := Normalize(message, o.nfd);
    AnswersFrom(RecursionLimit, [HumanMessage(message)], o, mode);
    assert Processed([HumanMessage(message)], o.nfd) == [HumanMessage(q0)];
  }

  // ---- process_kma_query ----

  datatype KmaAnswer = KmaAnswer(answer: string, sources: seq<string>)

  const SourceCount: nat := 3

  /**
   * process_kma_query: retrieve, answer from the joined documents, and
   * return the first three documents as sources, in retrieval order.
   */
  function KmaQuery(query: string, retrieve: string -> Outcome<seq<string>>,
                    generate: (string, string) -> Outcome<Reply>): (r: Outcome<KmaAnswer>)
    ensures r.Success? ==>
      && retrieve(query).Success?
      && var docs := retrieve(query).value;
      && generate(query, Join(docs, ContextSeparator)).Success?
      && r.value.answer == generate(query, Join(docs, ContextSeparator)).value.content
      && |r.value.sources| == (if |docs| < SourceCount then |docs| else SourceCount)
      && r.value.sources == docs[..|r.value.sources|]
    ensures r.Failure? <==> retrieve(query).Failure? || generate(query, Join(retrieve(query).value, ContextSeparator)).Failure?
  {
    match retrieve(query)
    case Failure(e) => Failure(e)
    case Success(docs) =>
      match generate(query, Join(docs, ContextSeparator))
      case Failure(e) => Failure(e)
      case Success(reply) => Success(KmaAnswer(reply.content, Take(docs, SourceCount)))
  }
}
