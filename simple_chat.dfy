/**
 * The detailed-answer agent of rag/simple_chat_agent.py (class
 * SimpleChatAgent and `process_simple_query`): retrieve, number the first
 * passages into a context, pick the analysis or the apology prompt, ask the
 * language model, and add a footer naming how many passages were used.
 * The retriever and the model are oracles; the prompt templates are kept
 * as the values they are filled with.
 */
module SimpleChat {
  import opened Common
  import opened Messages

  /** At most this many retrieved documents go into the context. */
  const ContextLimit: nat := 8
  /** At most this many documents are reported as sources. */
  const SourceLimit: nat := 3

  const PassageSeparator: string := "\n\n---\n\n"
  const PassageLabel: string := "Đoạn "

  /** One numbered passage: "Đoạn {i+1}:\n{content}". */
  function Passage(i: nat, content: string): (r: string)
    ensures |r| > 0 && r[0] == 'Đ'
  {
    PassageLabel + NatToString(i + 1) + ":\n" + content
  }

  /** The used documents, numbered from 1 in retrieval order. */
  function Passages(docs: seq<string>): (r: seq<string>)
    ensures |r| == |docs|
    ensures forall i :: 0 <= i < |docs| ==> r[i] == Passage(i, docs[i])
  {
    seq(|docs|, i requires 0 <= i < |docs| => Passage(i, docs[i]))
  }

  /** The context handed to the model: the first eight passages between rules. */
  function Context(docs: seq<string>): (r: string)
  {
    Join(Passages(Take(docs, ContextLimit)), PassageSeparator)
  }

  /**
   * The context is blank exactly when nothing was retrieved: every passage
   * starts with its label, which is not white space.
   */
  lemma ContextBlankIffNoDocuments(docs: seq<string>)
    ensures Strip(Context(docs)) == "" <==> docs == []
  {
    var ps := Passages(Take(docs, ContextLimit));
    StripEmptyIffBlank(Context(docs));
    if docs != [] {
      JoinNonEmpty(ps, PassageSeparator);
      assert Context(docs)[0] == ps[0][0] == 'Đ';
      assert !IsSpace(Context(docs)[0]);
    }
  }

  /** Which prompt the model is given. */
  datatype Prompt =
    | Analysis(question: string, context: string)   // the detailed-analysis template
    | Apology(question: string)                     // no passages found: apologise, answer generally

  /** A non-blank context selects the analysis prompt; a blank one the apology. */
  function PromptFor(message: string, context: string): (p: Prompt)
    ensures p.Analysis? <==> Strip(context) != ""
    ensures p.question == message
    ensures p.Analysis? ==> p.context == context
  {
    if Strip(context) != "" then Analysis(message, context) else Apology(message)
  }

  /** The footer naming how many passages the answer draws on. */
  function Footer(n: nat): (r: string)
    ensures |r| > 0
  {
    "\n\n\U{1F4CB} *Thông tin được tổng hợp từ " + NatToString(n) + " đoạn liên quan trong tài liệu.*"
  }

  /** The text `chat` returns instead of raising. */
  function ErrorReply(e: string): (r: string)
  {
    "\U{274C} Xin lỗi, đã xảy ra lỗi khi xử lý câu hỏi: " + e + "\n\nVui lòng thử lại hoặc đặt câu hỏi khác."
  }

  /**
   * SimpleChatAgent.chat: every exception, the retriever's or the model's,
   * becomes ErrorReply.
   */
  function Chat(message: string, retrieve: string -> Outcome<seq<string>>, llm: Prompt -> Outcome<string>): (r: string)
    ensures retrieve(message).Failure? ==> r == ErrorReply(retrieve(message).error)
  {
    match retrieve(message)
    case Failure(e) => ErrorReply(e)
    case Success(docs) => ChatOn(message, docs, llm)
  }

  /** The rest of `chat` once retrieval has returned `docs`. */
  function ChatOn(message: string, docs: seq<string>, llm: Prompt -> Outcome<string>): (r: string)
  {
    var used := Take(docs, ContextLimit);
    var context := Context(docs);
    match llm(PromptFor(message, context))
    case Failure(e) => ErrorReply(e)
    case Success(answer) =>
      if Strip(context) != "" && |used| > 0 then answer + Footer(|used|) else answer
  }

  /**
   * What `chat` answers once documents are retrieved: an error text when
   * the model fails; without documents, the model's reply to the apology
   * prompt as it is; with documents, its reply to the analysis prompt over
   * the first eight, followed by the footer counting them.
   */
  lemma ChatCases(message: string, docs: seq<string>, llm: Prompt -> Outcome<string>)
    ensures var p := if docs == [] then Apology(message) else Analysis(message, Context(docs));
      && PromptFor(message, Context(docs)) == p
      && (llm(p).Failure? ==> ChatOn(message, docs, llm) == ErrorReply(llm(p).error))
      && (llm(p).Success? && docs == [] ==> ChatOn(message, docs, llm) == llm(p).value)
      && (llm(p).Success? && docs != [] ==>
            ChatOn(message, docs, llm) == llm(p).value + Footer(if |docs| < ContextLimit then |docs| else ContextLimit))
  {
    ContextBlankIffNoDocuments(docs);
    if docs == [] {
      assert PromptFor(message, Context(docs)) == Apology(message);
    } else {
      assert PromptFor(message, Context(docs)) == Analysis(message, Context(docs));
      assert |Take(docs, ContextLimit)| == if |docs| < ContextLimit then |docs| else ContextLimit;
    }
  }

  /** The documents beyond the eighth never reach the model. */
  lemma ContextIgnoresLaterDocuments(docs: seq<string>, more: seq<string>)
    requires |docs| >= ContextLimit
    ensures Context(docs + more) == Context(docs)
  {
    assert Take(docs + more, ContextLimit) == Take(docs, ContextLimit);
  }

  /** Where the answer came from: the "source_type" field. */
  datatype SourceType = SimpleAgent | ErrorSource

  datatype QueryResult = QueryResult(answer: string, sources: seq<string>, sourceType: SourceType)

  /** The answer `process_simple_query` gives when it fails. */
  function QueryErrorAnswer(e: string): string
  {
    "Lỗi xử lý câu hỏi: " + e
  }

  /**
   * process_simple_query: the chat answer with the first three documents
   * as sources. The documents are fetched a second time outside `chat`'s
   * handler, so a failure there gives the error result with no sources.
   */
  function ProcessSimpleQuery(query: string, retrieve: string -> Outcome<seq<string>>, llm: Prompt -> Outcome<string>): (r: QueryResult)
    ensures |r.sources| <= SourceLimit
    ensures r.sourceType == ErrorSource <==> retrieve(query).Failure?
    ensures retrieve(query).Failure? ==> r.sources == [] && r.answer == QueryErrorAnswer(retrieve(query).error)
    ensures retrieve(query).Success? ==>
      && r.answer == Chat(query, retrieve, llm)
      && |r.sources| == (if |retrieve(query).value| < SourceLimit then |retrieve(query).value| else SourceLimit)
      && r.sources == retrieve(query).value[..|r.sources|]
  {
    var answer := Chat(query, retrieve, llm);
    match retrieve(query)
    case Failure(e) => QueryResult(QueryErrorAnswer(e), [], ErrorSource)
    case Success(docs) => QueryResult(answer, Take(docs, SourceLimit), SimpleAgent)
  }
}
