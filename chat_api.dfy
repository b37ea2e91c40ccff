/**
 * The two chat endpoints of the back end (backend/api/chat.py): `query_ai`,
 * which answers inside a stored conversation, and `quick_chat`, which answers
 * one message without storing it. Both pre-check the rate limit without
 * charging, ask the agent, and then charge one request with an estimated
 * token count; a rejection at that point is only logged.
 */
module ChatApi {
  import opened Common
  import opened Messages
  import opened RateLimit
  import Supervisor

  /** estimate_token_count: about four characters per token, plus a fixed overhead of 100. */
  function EstimateTokenCount(prompt: string, response: string): (r: int)
    ensures r >= 100
    ensures 4 * (r - 100) <= |prompt| + |response| < 4 * (r - 100) + 8
  {
    |prompt| / 4 + |response| / 4 + 100
  }

  /** Longer texts never give a smaller estimate. */
  lemma EstimateMonotone(p1: string, r1: string, p2: string, r2: string)
    requires |p1| <= |p2| && |r1| <= |r2|
    ensures EstimateTokenCount(p1, r1) <= EstimateTokenCount(p2, r2)
  {
    DivMonotone(|p1|, |p2|);
    DivMonotone(|r1|, |r2|);
  }

  lemma DivMonotone(a: nat, b: nat)
    requires a <= b
    ensures a / 4 <= b / 4
  {
  }

  const StudentCodeLead: string := "My student code is "

  /**
   * The text sent to the agent: with a non-empty `student_code` header, the
   * message follows "My student code is {code}" with no separator.
   */
  function WithStudentCode(content: string, code: Option<string>): string
  {
    if code.Some? && code.value != "" then StudentCodeLead + code.value + content else content
  }

  lemma WithStudentCodeShape(content: string, code: Option<string>)
    ensures var t := WithStudentCode(content, code);
      |t| >= |content| && t[|t| - |content|..] == content
      && (code.None? || code.value == "" ==> t == content)
      && (code.Some? && code.value != "" ==>
            |t| == 19 + |code.value| + |content| && t[..19] == "My student code is "
            && t[19..19 + |code.value|] == code.value)
  {
    var t := WithStudentCode(content, code);
    if code.Some? && code.value != "" {
      assert t == (StudentCodeLead + code.value) + content;
    }
  }

  /** A message document of the `messages` collection, in `created_at` order. */
  datatype StoredMessage = StoredMessage(content: string, isUser: bool)

  function ToMessage(m: StoredMessage): Message
  {
    if m.isUser then HumanMessage(m.content) else AIMessage(m.content)
  }

  function ToHistory(stored: seq<StoredMessage>): (h: seq<Message>)
    ensures |h| == |stored|
    ensures forall i :: 0 <= i < |stored| ==> h[i] == ToMessage(stored[i])
  {
    seq(|stored|, i requires 0 <= i < |stored| => ToMessage(stored[i]))
  }

  /** The history the agent sees is the stored conversation before the new message. */
  lemma HistoryBeforeNewest(stored: seq<StoredMessage>, m: StoredMessage)
    ensures ToHistory(stored + [m])[..|stored|] == ToHistory(stored)
    ensures ToHistory(stored + [m])[|stored|] == ToMessage(m)
  {
  }

  /**
   * The loop that converts the stored conversation to chat messages: a
   * user document becomes a HumanMessage, any other an AIMessage.
   */
  method BuildHistory(stored: seq<StoredMessage>) returns (history: seq<Message>)
    ensures |history| == |stored|
    ensures forall i :: 0 <= i < |stored| ==>
      history[i].content == stored[i].content && (history[i].kind == Human <==> stored[i].isUser)
      && (history[i].kind == Human || history[i].kind == AI)
    ensures history == ToHistory(stored)
  {
    history := [];
    var i := 0;
    while i < |stored|
      invariant 0 <= i <= |stored|
      invariant history == ToHistory(stored[..i])
    {
      var msg := stored[i];
      if msg.isUser {
        history := history + [HumanMessage(msg.content)];
      } else {
        history := history + [AIMessage(msg.content)];
      }
      assert stored[..i + 1] == stored[..i] + [stored[i]];
      i := i + 1;
    }
    assert stored[..i] == stored;
  }

  datatype HttpError = HttpError(status: int, detail: string)

  datatype Response<T> = Served(value: T) | Fail(error: HttpError)

  /** The last message of a finished run: the agent's answer. */
  function AnswerOf(out: seq<Message>): string
    requires |out| > 0
  {
    out[|out| - 1].content
  }

  /**
   * A pre-check (no tokens, not counted as a request) adds nothing to any
   * counter; it only applies the resets due and, for a new user, creates the record.
   */
  lemma PreCheckChargesNothing(config: Option<ConfigDoc>, records: map<RecordKey, UsageRecord>,
                               userId: string, user: UserDoc, c: Clock)
    requires config.Some? && !Disabled(config.value) && config.value.settings.Some?
    ensures var key := StoreKey(userId);
      var before := if key in records then records[key].usage else FreshUsage(c);
      Check(config, records, userId, Found(user), c, 0, false).records[key].usage == Refresh(before, c)
  {
    var key := StoreKey(userId);
    var before := if key in records then records[key].usage else FreshUsage(c);
    assert Charge(Refresh(before, c), 0, false) == Refresh(before, c);
  }

  /**
   * One completed exchange (the pre-check, then the charge after the answer)
   * adds exactly one to each request counter and the estimate to both token
   * counters, when no window runs out between the two calls.
   */
  lemma ExchangeChargesOneRequest(config: Option<ConfigDoc>, records: map<RecordKey, UsageRecord>,
                                  userId: string, user: UserDoc, c1: Clock, c2: Clock, tokens: int)
    requires config.Some? && !Disabled(config.value) && config.value.settings.Some?
    requires var mid := Check(config, records, userId, Found(user), c1, 0, false).records[StoreKey(userId)].usage;
      c2.now < mid.minuteReset && c2.now < mid.hourReset && c2.now < mid.dayReset && c2.now < mid.monthReset
    ensures var key := StoreKey(userId);
      var mid := Check(config, records, userId, Found(user), c1, 0, false);
      var fin := Check(config, mid.records, userId, Found(user), c2, tokens, true).records[key].usage;
      fin.requestsPerMinute == mid.records[key].usage.requestsPerMinute + 1
      && fin.requestsPerHour == mid.records[key].usage.requestsPerHour + 1
      && fin.requestsPerDay == mid.records[key].usage.requestsPerDay + 1
      && fin.tokensToday == mid.records[key].usage.tokensToday + tokens
      && fin.tokensThisMonth == mid.records[key].usage.tokensThisMonth + tokens
  {
    var key := StoreKey(userId);
    var mid := Check(config, records, userId, Found(user), c1, 0, false);
    assert key in mid.records;
    CheckChargesThenJudges(config, mid.records, userId, user, c2, tokens, true);
  }

  /**
   * The pre-check does not count the request it admits, so a user whose
   * counter has reached the per-minute limit is still served, and the charge
   * that follows takes the counter to one past the limit.
   */
  lemma ExchangeAtLimitIsServed(config: Option<ConfigDoc>, records: map<RecordKey, UsageRecord>,
                                userId: string, user: UserDoc, c1: Clock, c2: Clock, tokens: int)
    requires config.Some? && !Disabled(config.value) && config.value.settings.Some?
    requires StoreKey(userId) in records
    requires var u := records[StoreKey(userId)].usage;
      c1.now < u.minuteReset && c1.now < u.hourReset && c1.now < u.dayReset && c1.now < u.monthReset
      && c2.now < u.minuteReset && c2.now < u.hourReset && c2.now < u.dayReset && c2.now < u.monthReset
    requires var u := records[StoreKey(userId)].usage;
      var l := ResolveLimits(config.value.settings.value, user);
      WithinLimits(u, l) && u.requestsPerMinute == l.requestsPerMinute
    ensures var mid := Check(config, records, userId, Found(user), c1, 0, false);
      var fin := Check(config, mid.records, userId, Found(user), c2, tokens, true);
      var l := ResolveLimits(config.value.settings.value, user);
      mid.verdict == Allowed
      && fin.records[StoreKey(userId)].usage.requestsPerMinute == l.requestsPerMinute + 1
      && fin.verdict == Rejected(LimitMessage(PerMinute, l.requestsPerMinute))
  {
    var key := StoreKey(userId);
    var l := ResolveLimits(config.value.settings.value, user);
    PreCheckChargesNothing(config, records, userId, user, c1);
    var mid := Check(config, records, userId, Found(user), c1, 0, false);
    assert mid.records[key].usage == records[key].usage;
    JudgeStrict(mid.records[key].usage, l);
    ExchangeChargesOneRequest(config, records, userId, user, c1, c2, tokens);
    var fin := Check(config, mid.records, userId, Found(user), c2, tokens, true);
    JudgeStrict(fin.records[key].usage, l);
  }

  /** What `query_ai` answers and leaves in the `messages` and `rate_limits` collections. */
  datatype QueryOutcome = QueryOutcome(response: Response<StoredMessage>,
                                       conversations: map<string, seq<StoredMessage>>,
                                       records: map<RecordKey, UsageRecord>)

  /**
   * query_ai, step by step: validate the id, find the conversation, read the
   * user id, pre-check, store the user's message, ask the agent with the
   * earlier history, store the answer, then charge the exchange. An exception
   * (the limiter's missing settings, the graph's recursion limit) is a 500.
   */
  function QueryAiSpec(config: Option<ConfigDoc>, records: map<RecordKey, UsageRecord>,
                       conversations: map<string, seq<StoredMessage>>, conversationId: string,
                       content: string, isUser: bool, studentCode: Option<string>, userId: string,
                       lookup: UserLookup, c1: Clock, c2: Clock, o: Supervisor.Oracles): QueryOutcome
  {
    if !IsObjectIdText(conversationId) then
      QueryOutcome(Fail(HttpError(400, "Invalid ID format: " + conversationId)), conversations, records)
    else if Lower(conversationId) !in conversations then
      QueryOutcome(Fail(HttpError(404, "Conversation not found")), conversations, records)
    else if userId == "" then
      QueryOutcome(Fail(HttpError(401, "User ID not found")), conversations, records)
    else
      var key := Lower(conversationId);
      var pre := Check(config, records, userId, lookup, c1, 0, false);
      if pre.verdict.Rejected? then QueryOutcome(Fail(HttpError(429, pre.verdict.message)), conversations, pre.records)
      else if pre.verdict.Raised? then QueryOutcome(Fail(HttpError(500, pre.verdict.error)), conversations, pre.records)
      else AnswerSpec(config, pre.records, conversations, key, WithStudentCode(content, studentCode), isUser,
                      userId, lookup, c2, o)
  }

  /**
   * The part of query_ai after an allowed pre-check: store the question, ask
   * the agent with the earlier messages, store the answer, charge the exchange.
   */
  function AnswerSpec(config: Option<ConfigDoc>, records: map<RecordKey, UsageRecord>,
                      conversations: map<string, seq<StoredMessage>>, key: string, text: string, isUser: bool,
                      userId: string, lookup: UserLookup, c2: Clock, o: Supervisor.Oracles): QueryOutcome
    requires key in conversations
  {
    var earlier := conversations[key];
    var question := StoredMessage(text, isUser);
    var out := Supervisor.ChatWithMemory(ToHistory(earlier), text, o);
    if out.None? then
      QueryOutcome(Fail(HttpError(500, RecursionErrorText)), conversations[key := earlier + [question]], records)
    else
      var answer := StoredMessage(AnswerOf(out.value), false);
      var post := Check(config, records, userId, lookup, c2, EstimateTokenCount(text, answer.content), true);
      QueryOutcome(if post.verdict.Raised? then Fail(HttpError(500, post.verdict.error)) else Served(answer),
                   conversations[key := earlier + [question, answer]], post.records)
  }

  /** After an allowed pre-check the request is either served or fails with a 500. */
  lemma AnswerSpecStatus(config: Option<ConfigDoc>, records: map<RecordKey, UsageRecord>,
                         conversations: map<string, seq<StoredMessage>>, key: string, text: string, isUser: bool,
                         userId: string, lookup: UserLookup, c2: Clock, o: Supervisor.Oracles)
    requires key in conversations
    ensures var q := AnswerSpec(config, records, conversations, key, text, isUser, userId, lookup, c2, o);
      q.response.Served? || q.response.error.status == 500
  {
  }

  /** A malformed request (bad id, unknown conversation, no user id) is refused before anything is read or stored. */
  lemma QueryAiMalformed(config: Option<ConfigDoc>, records: map<RecordKey, UsageRecord>,
                         conversations: map<string, seq<StoredMessage>>, conversationId: string,
                         content: string, isUser: bool, studentCode: Option<string>, userId: string,
                         lookup: UserLookup, c1: Clock, c2: Clock, o: Supervisor.Oracles)
    requires !(IsObjectIdText(conversationId) && Lower(conversationId) in conversations && userId != "")
    ensures var q := QueryAiSpec(config, records, conversations, conversationId, content, isUser,
                                 studentCode, userId, lookup, c1, c2, o);
      && q.response.Fail? && q.response.error.status in {400, 401, 404}
      && q.conversations == conversations && q.records == records
  {
  }

  /** Only a malformed request is refused with 400, 401 or 404. */
  lemma QueryAiWellFormed(config: Option<ConfigDoc>, records: map<RecordKey, UsageRecord>,
                          conversations: map<string, seq<StoredMessage>>, conversationId: string,
                          content: string, isUser: bool, studentCode: Option<string>, userId: string,
                          lookup: UserLookup, c1: Clock, c2: Clock, o: Supervisor.Oracles)
    requires IsObjectIdText(conversationId) && Lower(conversationId) in conversations && userId != ""
    ensures var q := QueryAiSpec(config, records, conversations, conversationId, content, isUser,
                                 studentCode, userId, lookup, c1, c2, o);
      q.response.Served? || q.response.error.status in {429, 500}
  {
    var pre := Check(config, records, userId, lookup, c1, 0, false);
    if pre.verdict.Allowed? {
      AnswerSpecStatus(config, pre.records, conversations, Lower(conversationId),
                       WithStudentCode(content, studentCode), isUser, userId, lookup, c2, o);
    }
  }

  /**
   * A 429 comes exactly from a pre-check rejection and carries its message;
   * a request the pre-check does not allow stores no message, and the
   * counters are those the pre-check left.
   */
  lemma QueryAiPreCheck(config: Option<ConfigDoc>, records: map<RecordKey, UsageRecord>,
                        conversations: map<string, seq<StoredMessage>>, conversationId: string,
                        content: string, isUser: bool, studentCode: Option<string>, userId: string,
                        lookup: UserLookup, c1: Clock, c2: Clock, o: Supervisor.Oracles)
    requires IsObjectIdText(conversationId) && Lower(conversationId) in conversations && userId != ""
    ensures var q := QueryAiSpec(config, records, conversations, conversationId, content, isUser,
                                 studentCode, userId, lookup, c1, c2, o);
      var pre := Check(config, records, userId, lookup, c1, 0, false);
      (q.response.Fail? && q.response.error.status == 429 <==> pre.verdict.Rejected?)
      && (pre.verdict.Rejected? ==> q.response == Fail(HttpError(429, pre.verdict.message)))
      && (!pre.verdict.Allowed? ==> q.conversations == conversations && q.records == pre.records)
  {
    var pre := Check(config, records, userId, lookup, c1, 0, false);
    if pre.verdict.Allowed? {
      AnswerSpecStatus(config, pre.records, conversations, Lower(conversationId),
                       WithStudentCode(content, studentCode), isUser, userId, lookup, c2, o);
    }
  }

  /**
   * A served request appends exactly the user's message and the agent's
   * answer to its own conversation, leaves the others alone, and the answer
   * is the last message of the run on the earlier history. The answer is
   * returned whatever the charge after it decides.
   */
  lemma QueryAiServed(config: Option<ConfigDoc>, records: map<RecordKey, UsageRecord>,
                      conversations: map<string, seq<StoredMessage>>, conversationId: string,
                      content: string, isUser: bool, studentCode: Option<string>, userId: string,
                      lookup: UserLookup, c1: Clock, c2: Clock, o: Supervisor.Oracles)
    ensures var q := QueryAiSpec(config, records, conversations, conversationId, content, isUser,
                                 studentCode, userId, lookup, c1, c2, o);
      q.response.Served? ==>
        && IsObjectIdText(conversationId) && Lower(conversationId) in conversations && userId != ""
        && Check(config, records, userId, lookup, c1, 0, false).verdict == Allowed
        && AnswerServed(conversations, Lower(conversationId), WithStudentCode(content, studentCode), isUser, o, q)
  {
    if IsObjectIdText(conversationId) && Lower(conversationId) in conversations && userId != "" {
      var key := Lower(conversationId);
      var pre := Check(config, records, userId, lookup, c1, 0, false);
      if pre.verdict.Allowed? {
        var text := WithStudentCode(content, studentCode);
        assert QueryAiSpec(config, records, conversations, conversationId, content, isUser, studentCode, userId, lookup, c1, c2, o)
            == AnswerSpec(config, pre.records, conversations, key, text, isUser, userId, lookup, c2, o);
        AnswerSpecServed(config, pre.records, conversations, key, text, isUser, userId, lookup, c2, o);
      }
    }
  }

  /**
   * What a served answer leaves behind: the conversation `key` grew by the
   * question and the answer, the other conversations are as they were, and
   * the answer is the last message of the run on the earlier history.
   */
  ghost predicate AnswerServed(conversations: map<string, seq<StoredMessage>>, key: string, text: string,
                               isUser: bool, o: Supervisor.Oracles, q: QueryOutcome)
    requires key in conversations
  {
    var n := |conversations[key]|;
    && q.response.Served?
    && q.conversations.Keys == conversations.Keys
    && (forall k :: k in conversations && k != key ==> q.conversations[k] == conversations[k])
    && |q.conversations[key]| == n + 2
    && q.conversations[key][..n] == conversations[key]
    && q.conversations[key][n] == StoredMessage(text, isUser)
    && q.conversations[key][n + 1] == q.response.value
    && !q.response.value.isUser
    && var out := Supervisor.ChatWithMemory(ToHistory(conversations[key]), text, o);
       out.Some? && q.response.value.content == out.value[|out.value| - 1].content
       && out.value[|out.value| - 1].kind == AI
  }

  lemma AnswerSpecServed(config: Option<ConfigDoc>, records: map<RecordKey, UsageRecord>,
                         conversations: map<string, seq<StoredMessage>>, key: string, text: string, isUser: bool,
                         userId: string, lookup: UserLookup, c2: Clock, o: Supervisor.Oracles)
    requires key in conversations
    ensures var q := AnswerSpec(config, records, conversations, key, text, isUser, userId, lookup, c2, o);
      q.response.Served? ==> AnswerServed(conversations, key, text, isUser, o, q)
  {
  }

  /** What `quick_chat` answers and leaves in the `rate_limits` collection. */
  datatype QuickOutcome = QuickOutcome(response: Response<string>, records: map<RecordKey, UsageRecord>)

  /** quick_chat: the same pre-check and charge around one agent run on the single message, with nothing stored. */
  function QuickChatSpec(config: Option<ConfigDoc>, records: map<RecordKey, UsageRecord>, content: string,
                         studentCode: Option<string>, userId: string, lookup: UserLookup,
                         c1: Clock, c2: Clock, o: Supervisor.Oracles): QuickOutcome
  {
    if userId == "" then QuickOutcome(Fail(HttpError(401, "User ID not found")), records)
    else
      var pre := Check(config, records, userId, lookup, c1, 0, false);
      if pre.verdict.Rejected? then QuickOutcome(Fail(HttpError(429, pre.verdict.message)), pre.records)
      else if pre.verdict.Raised? then QuickOutcome(Fail(HttpError(500, pre.verdict.error)), pre.records)
      else
        var text := WithStudentCode(content, studentCode);
        var out := Supervisor.ChatWithMemory([], text, o);
        if out.None? then QuickOutcome(Fail(HttpError(500, RecursionErrorText)), pre.records)
        else
          var answer := AnswerOf(out.value);
          var post := Check(config, pre.records, userId, lookup, c2, EstimateTokenCount(text, answer), true);
          QuickOutcome(if post.verdict.Raised? then Fail(HttpError(500, post.verdict.error)) else Served(answer),
                       post.records)
  }

  /**
   * quick_chat asks the agent with no history; it answers with the last
   * message of that run, and it is refused with 429 exactly when the
   * pre-check rejects, before the agent is asked.
   */
  lemma QuickChatProperties(config: Option<ConfigDoc>, records: map<RecordKey, UsageRecord>, content: string,
                            studentCode: Option<string>, userId: string, lookup: UserLookup,
                            c1: Clock, c2: Clock, o: Supervisor.Oracles)
    ensures var q := QuickChatSpec(config, records, content, studentCode, userId, lookup, c1, c2, o);
      var pre := Check(config, records, userId, lookup, c1, 0, false);
      (q.response.Fail? && q.response.error.status == 401 <==> userId == "")
      && (userId == "" ==> q.records == records)
      && (q.response.Fail? && q.response.error.status == 429 <==> userId != "" && pre.verdict.Rejected?)
      && (q.response.Served? ==>
            pre.verdict == Allowed
            && var out := Supervisor.Chat(WithStudentCode(content, studentCode), o);
               out.Some? && q.response.value == out.value[|out.value| - 1].content)
  {
    var pre := Check(config, records, userId, lookup, c1, 0, false);
    if userId != "" && pre.verdict.Allowed? {
      var text := WithStudentCode(content, studentCode);
      assert Supervisor.Chat(text, o) == Supervisor.ChatWithMemory([], text, o);
    }
  }

  class ChatEndpoints {
    var limiter: RateLimiter
    /** The stored conversations: id (lower-case hexadecimal) to its messages in `created_at` order. */
    var conversations: map<string, seq<StoredMessage>>

    constructor (limiter: RateLimiter, conversations: map<string, seq<StoredMessage>>)
      ensures this.limiter == limiter && this.conversations == conversations
    {
      this.limiter := limiter;
      this.conversations := conversations;
    }

    /** query_ai, as its specification function describes it. */
    method QueryAi(conversationId: string, content: string, isUser: bool, studentCode: Option<string>,
                   userId: string, lookup: UserLookup, c1: Clock, c2: Clock, o: Supervisor.Oracles)
      returns (r: Response<StoredMessage>)
      modifies this`conversations, limiter`records
      ensures limiter == old(limiter) && limiter.config == old(limiter.config)
      ensures QueryOutcome(r, conversations, limiter.records)
           == QueryAiSpec(old(limiter.config), old(limiter.records), old(conversations), conversationId,
                          content, isUser, studentCode, userId, lookup, c1, c2, o)
    {
      if !IsObjectIdText(conversationId) {
        return Fail(HttpError(400, "Invalid ID format: " + conversationId));
      }
      var key := Lower(conversationId);
      if key !in conversations {
        return Fail(HttpError(404, "Conversation not found"));
      }
      if userId == "" {
        return Fail(HttpError(401, "User ID not found"));
      }
      var allowed := limiter.CheckRateLimit(userId, lookup, c1, 0, false);
      if allowed.Rejected? {
        return Fail(HttpError(429, allowed.message));
      }
      if allowed.Raised? {
        return Fail(HttpError(500, allowed.error));
      }
      r := Answer(key, WithStudentCode(content, studentCode), isUser, userId, lookup, c2, o);
    }

    /** The steps of query_ai after an allowed pre-check. */
    method Answer(key: string, text: string, isUser: bool, userId: string, lookup: UserLookup,
                  c2: Clock, o: Supervisor.Oracles)
      returns (r: Response<StoredMessage>)
      requires key in conversations
      modifies this`conversations, limiter`records
      ensures limiter == old(limiter) && limiter.config == old(limiter.config)
      ensures QueryOutcome(r, conversations, limiter.records)
           == AnswerSpec(old(limiter.config), old(limiter.records), old(conversations), key, text, isUser,
                         userId, lookup, c2, o)
    {
      var before := conversations;
      var earlier := conversations[key];
      var question := StoredMessage(text, isUser);
      var asked := earlier + [question];
      conversations := conversations[key := asked];
      var history := BuildHistory(asked);
      HistoryBeforeNewest(earlier, question);
      assert history[..|history| - 1] == ToHistory(earlier);
      var out := Supervisor.ChatWithMemory(history[..|history| - 1], text, o);
      if out.None? {
        return Fail(HttpError(500, RecursionErrorText));
      }
      var answer := StoredMessage(AnswerOf(out.value), false);
      assert asked + [answer] == earlier + [question, answer];
      conversations := before[key := asked + [answer]];
      var charged := limiter.CheckRateLimit(userId, lookup, c2, EstimateTokenCount(text, answer.content), true);
      if charged.Raised? {
        return Fail(HttpError(500, charged.error));
      }
      // A rejection here is only logged: the exchange has already happened.
      r := Served(answer);
    }

    /** quick_chat, as its specification function describes it. */
    method QuickChat(content: string, studentCode: Option<string>, userId: string, lookup: UserLookup,
                     c1: Clock, c2: Clock, o: Supervisor.Oracles)
      returns (r: Response<string>)
      modifies limiter`records
      ensures limiter == old(limiter) && limiter.config == old(limiter.config)
      ensures QuickOutcome(r, limiter.records)
           == QuickChatSpec(old(limiter.config), old(limiter.records), content, studentCode, userId, lookup, c1, c2, o)
    {
      if userId == "" {
        return Fail(HttpError(401, "User ID not found"));
      }
      var allowed := limiter.CheckRateLimit(userId, lookup, c1, 0, false);
      if allowed.Rejected? {
        return Fail(HttpError(429, allowed.message));
      }
      if allowed.Raised? {
        return Fail(HttpError(500, allowed.error));
      }
      var text := WithStudentCode(content, studentCode);
      var out := Supervisor.ChatWithMemory([], text, o);
      if out.None? {
        return Fail(HttpError(500, RecursionErrorText));
      }
      var answer := AnswerOf(out.value);
      var charged := limiter.CheckRateLimit(userId, lookup, c2, EstimateTokenCount(text, answer), true);
      if charged.Raised? {
        return Fail(HttpError(500, charged.error));
      }
      // A rejection here is only logged: the exchange has already happened.
      r := Served(answer);
    }
  }
}
