# chatbot_agent in Dafny

A model of the deterministic core of `chatbot_agent`, a student-advice chatbot
back end. It covers the bookkeeping that surrounds the language model and the
databases, with proofs:

- **Rate limiting** (`rate_limit.dfy`, module `RateLimit`). This is the per-user limiter of
  `backend/api/rate_limit.py`. A check resolves the user's limits (a user exception, then the
  role, then the defaults), lazily resets the expired minute, hour, day and month windows,
  charges the call, stores the record, and only then compares each counter strictly with its
  limit. The class `RateLimiter` keeps the stored records as a map. The usage summary adds the
  records up and keeps top-five lists.
- **Chat endpoints** (`chat_api.dfy`, `ChatApi`). These are `query_ai` and `quick_chat` of
  `backend/api/chat.py`. Each runs a pre-check that charges nothing, then the answer, then one
  charge with `estimate_token_count`.
- **File registry** (`file_registry.dfy`, `FileRegistry`). The two module-level dictionaries of
  `backend/api/file.py` are fields of the class `Registry`, kept with their insertion order.
  Every endpoint that changes them is a method proved against a specification function. Lemmas
  show that each endpoint keeps the registry consistent: no folder list repeats an id, every
  listed id is a live file filed in that folder, and every live file is listed in its folder.
- **Retrieval** (`retrieval.dfy`, `Retrieval`). This is the first-seen, deduplicating merge of
  vector and BM25 hits (`rag/retriever.py`, `agent/chat.py`, `agent/agent.py`), followed by the
  reranker's top-k selection.
- **Agent graphs.** The graphs are explicit state machines over message lists. Every node is a
  function, every router is a pure function of the messages or of the document grader's verdict, and a
  run is bounded by a step budget:
  - `supervisor.dfy` models the ReAct agent of `agent/supervisor_agent.py`;
  - `tool_graph.dfy` models the tool-calling graph of `agent/graph.py`, whose twin is in
    `agent/chat.py`;
  - `rag_graph.dfy` models the retrieval graph of `rag/rag_graph.py`;
  - `agent_state.dfy` holds the `MyAgentState` class of `agent/state.py`;
  - `messages.dfy` holds the LangChain message kinds these graphs read.
- **Text assembly.**
  - `simple_chat.dfy` models the numbered-passage context and the footer rule of
    `rag/simple_chat_agent.py`.
  - `text_summarizer.dfy` models the summariser and its fallback sentence selection in
    `rag/text_summarizer.py`.
- **Scores.**
  - `gpa.dfy` models the 10-point to 4-point band table and the credit-weighted averages of
    `score/calculate_gpa_from_db.py`.
  - `calculator_tool.dfy` models the free-text score parser and its weighted average in
    `score/calculator_tool.py`.
  - `calculator.dfy` models the per-semester averaging of `score/calculator.py`.
  - `score_models.dfy` and `score_tool.dfy` model the semester-format validators and
    `get_student_scores`.
  - `score_database.dfy` models the parameterised query builder and the row mapping of
    `score/database.py`.
- `common.dfy` holds the values and the Python string operations that the rest share.

The language model, the embeddings, the retrievers, the document grader, the databases and the clock
enter as parameters (oracles, or values passed in). The model proves what the code does with
their answers.

Three validators check the semester format, and they do not agree. `score/models.py:44`
accepts terms 1 to 4. `score/score_tool.py:23` and `score/calculate_gpa_from_db.py` accept
terms 1 and 2. The underscore form that several descriptions and messages suggest ("ki1_2024_2025") is rejected by
all three. The model keeps each validator as written (`ScoreModels.ThirdTermOnlyInFilter`,
`ScoreModels.UnderscoreFormRejected`).

The comment at `rag/rag_graph.py:515` says the context message is dropped from the answer's
update. The model follows the code: the update is `messages[:-1] + [response]`. Under the
`add_messages` reducer, every message already in the state stays, so the context message is
kept and the answer is appended (`RagGraph.GenerateKeepsContext`).

## Model

| member | source | states |
|---|---|---|
| Common.StripEmptyIffBlank | src/backend/api/file.py:442-445 | a trimmed folder name is empty exactly when the requested name is all white space |
| Common.StripIdempotent | src/backend/api/file.py:523-524 | trimming a name already trimmed changes nothing |
| Common.JoinLength | src/backend/api/file.py:291 | a newline-joined text is as long as its parts plus one separator between each two |
| ScoreCalculatorTool.RunEnd | src/score/calculator_tool.py:14 | a greedy run of `\s`, `\d` or `[\d\.]` from i: every character before its end is in the class, and the one at its end (if any) is not |
| ScoreCalculatorTool.TailAt | src/score/calculator_tool.py:14 | a tail `\s*\((\d+)\s*tín chỉ\)\s*:\s*([\d\.]+)` found from q begins its credits group after q, and its groups lie inside the text in order |
| ScoreCalculatorTool.NameEnd | src/score/calculator_tool.py:14 | the lazy `(.+?)` stops at a line break it cannot take, at the first end where the tail matches, or at the end of the text, and it never spans a line break |
| ScoreCalculatorTool.MatchAt | src/score/calculator_tool.py:14 | a match tried at p starts at p and is a valid match: a non-empty name without line breaks followed by the tail |
| ScoreCalculatorTool.FindAll | src/score/calculator_tool.py:15 | `re.findall` returns valid matches from p on, in order and not overlapping, the search going on at the end of each match |
| ScoreCalculatorTool.FloatValueDefined | src/score/calculator_tool.py:18 | `float` of a text of digits and dots succeeds exactly when the text has at most one dot and at least one digit |
| ScoreCalculatorTool.FloatRejects | src/score/calculator_tool.py:18 | example: `float("1.2.3")` and `float(".")` raise |
| ScoreCalculatorTool.FloatAccepts | src/score/calculator_tool.py:18 | example: `float` reads "8.5", ".5" and "7." as 8.5, 0.5 and 7.0 |
| ScoreCalculatorTool.MatchGroups | src/score/calculator_tool.py:15-18 | one group triple per match, in order, each made only of the characters its group admits |
| ScoreCalculatorTool.RecordsOfAll | src/score/calculator_tool.py:15-23 | when every conversion succeeds the loop yields all the records, in order |
| ScoreCalculatorTool.FailedMatch | src/score/calculator_tool.py:18 | one match whose score `float` refuses makes the whole parse raise |
| ScoreCalculatorTool.ScoresFromGroups | src/score/calculator_tool.py:15-24 | the loop appends one dictionary per match, in order, and raises where a conversion raises: it gives the document of the converted records |
| ScoreCalculatorTool.ParseScoresToJson | src/score/calculator_tool.py:11-24 | parse_scores_to_json gives the document of the records read from the text's matches |
| ScoreCalculatorTool.ScoreTextValue | src/score/calculator_tool.py:18 | a score written with two decimals is made of number characters and `float` reads it back as its value |
| ScoreCalculatorTool.TailOfText | src/score/calculator_tool.py:14 | a tail written out where it begins is matched there, its groups being the credits and the score text |
| ScoreCalculatorTool.NoTailInsideName | src/score/calculator_tool.py:14 | no tail can start inside a name that has no parenthesis and ends in a non-space |
| ScoreCalculatorTool.LinesMatch | src/score/calculator_tool.py:14-15 | the matches in a text of well-formed lines are one per line, holding that line's name, credits and score |
| ScoreCalculatorTool.ReadBackRecords | src/score/calculator_tool.py:15-23 | matches holding the parts of well-formed lines convert to exactly those lines' records |
| ScoreCalculatorTool.TextRoundTrip | src/score/calculator_tool.py:11-24 | writing records as lines "name (c tín chỉ): score" and parsing the text gives back the same records in order |
| ScoreCalculatorTool.Numeric | src/score/calculator_tool.py:51-52 | the values `*` and `sum` accept are exactly the numbers and the bools |
| ScoreCalculatorTool.ScoresField | src/score/calculator_tool.py:46 | the scores are found exactly when the data is an object whose "scores" value is truthy, and then that value is returned |
| ScoreCalculatorTool.AveragesOf | src/score/calculator_tool.py:46-62 | no scores exactly when "scores" is missing or falsy; averages (or zero credits) exactly when it is a list of entries with numeric score and credits; the average is the credit-weighted mean over a non-zero credit sum |
| ScoreCalculatorTool.CalculateAverageScores | src/score/calculator_tool.py:38-65 | decoded JSON is averaged as it is; text that is not JSON and whose parse raises gives the error reply |
| ScoreCalculatorTool.ReplyDocument | src/score/calculator_tool.py:46-65 | every reply is an object with exactly "averages" and "message", the averages being empty in all but the success reply |
| ScoreCalculatorTool.DocumentAverages | src/score/calculator_tool.py:46-57 | the averages of parsed records: no scores for none, zero credits when the credits sum to zero, otherwise the credit-weighted mean of the scores |
| ScoreCalculatorTool.TextReply | src/score/calculator_tool.py:40-44 | text that is not JSON is answered with the averages of the records parsed from it |
| ScoreCalculatorTool.TextAverages | src/score/calculator_tool.py:38-62 | text made of well-formed lines gets the credit-weighted average of the scores its lines show |
| ScoreCalculatorTool.NoMatchNoScores | src/score/calculator_tool.py:44-47 | text with no match, when not JSON, is answered with "No scores data provided" |
| ScoreCalculatorTool.BadScoreFails | src/score/calculator_tool.py:64-65 | one matched score that `float` refuses turns the whole reply into the error reply |
| ScoreCalculatorTool.AverageOnScale | src/score/calculator_tool.py:51-57 | with scores between 0 and m and no negative credits, the average lies between 0 and m |
| ScoreCalculator.SemesterOf | src/score/calculator.py:55 | an entry without "semester" is grouped under "unknown" |
| ScoreCalculator.StepAccepts | src/score/calculator.py:50-77 | one pass of the loop goes through exactly when its entry is accepted, and an incomplete entry leaves both accumulators as they were |
| ScoreCalculator.AccumulateAccepts | src/score/calculator.py:50-77 | the loop goes through exactly when every entry is accepted |
| ScoreCalculator.RefusedEntry | src/score/calculator.py:50-77 | one entry that raises makes the loop raise |
| ScoreCalculator.StepKeeps | src/score/calculator.py:55-77 | each pass keeps the grouping well formed: semesters listed once, each with a positive count, summing to the overall accumulator |
| ScoreCalculator.AccumulateWellGrouped | src/score/calculator.py:50-77 | whatever the loop reaches is well formed |
| ScoreCalculator.AccumulateTallies | src/score/calculator.py:50-77 | the overall accumulator holds the sums and the number of the complete entries; a semester accumulator exists exactly for the semesters of complete entries and holds their sums and number |
| ScoreCalculator.SemesterTallyAbsent | src/score/calculator.py:56-63 | a semester without a complete entry has an empty tally |
| ScoreCalculator.SemestersAddUp | src/score/calculator.py:50-77 | the per-semester accumulators add up to the overall one, so total_subjects is the sum of the semesters' counts |
| ScoreCalculator.Divided | src/score/calculator.py:80-91 | dividing by the count keeps the count |
| ScoreCalculator.ListAverages | src/score/calculator.py:50-112 | for a list of accepted entries: total_subjects counts the complete entries, the overall averages divide their sums by that count, each semester with a complete entry appears once with its own sums divided by its own positive count, and the message names both counts |
| ScoreCalculator.AcceptedReply | src/score/calculator.py:79-112 | the same facts about the reply built from the finished loop |
| ScoreCalculator.ListRaises | src/score/calculator.py:116-117 | one entry that raises turns the reply into the error reply |
| ScoreCalculator.ListCalculation | src/score/calculator.py:27-117 | for a "scores" list the reply is the finished loop's, or the error reply where the loop raises |
| ScoreCalculator.FinishFields | src/score/calculator.py:79-112 | the result object: overall and per-semester sums divided by their counts, semesters in first-seen order, the count message |
| ScoreCalculator.NoCompleteEntries | src/score/calculator.py:52-53 | with no complete entry the overall averages stay 0.0, no semester is listed and the message counts 0 and 0 |
| ScoreCalculator.NothingCounted | src/score/calculator.py:52-53 | incomplete entries leave both accumulators as they started |
| ScoreCalculator.UnknownGrouped | src/score/calculator.py:55 | a complete entry without "semester" makes "unknown" a listed semester |
| ScoreCalculator.NoScoresExactly | src/score/calculator.py:31-35 | the no-scores reply comes exactly from a missing or falsy "scores" value, with its message |
| ScoreCalculator.SumEntries | src/score/calculator.py:50-77 | the loop, step by step, equals the accumulation function, raising where it raises |
| ScoreCalculator.AddScore | src/score/calculator.py:51-77 | one pass of the loop body, with its skip, its new-semester initialisation and its two updates, equals one step |
| ScoreCalculator.DivideSemesters | src/score/calculator.py:86-91 | each listed semester's sums are divided by its count and no key is added or removed |
| ScoreCalculator.CalculateAverageScores | src/score/calculator.py:27-117 | the imperative tool computes exactly the reply function |
| Gpa.He4 | src/score/calculate_gpa_from_db.py:10-27 | convert_to_he4 returns one of the eight band values, and 0.0 for anything above 10 or below 4 |
| Gpa.He4Monotone | src/score/calculate_gpa_from_db.py:10-27 | on the 10-point range a higher score never converts to a lower 4-point value |
| Gpa.He4AtMostScore | src/score/calculate_gpa_from_db.py:10-27 | a converted score never exceeds the non-negative original |
| Gpa.ValidateGpaInput | src/score/calculate_gpa_from_db.py:42-49 | the semester is accepted exactly when absent or of the form `(ki\|k)[1-2]-dddd-dddd` (a trailing line break allowed by `$`), and otherwise refused with its message |
| Gpa.KeepByName | src/score/calculate_gpa_from_db.py:90-91 | the name filter keeps only scores of the input whose lower-cased name contains the lower-cased filter |
| Gpa.KeepByNameKeepsMatches | src/score/calculate_gpa_from_db.py:90-91 | a score is kept exactly when it is in the input and its name matches |
| Gpa.CreditsNonNegative | src/score/calculate_gpa_from_db.py:103 | non-negative credits have a non-negative total |
| Gpa.GpaReportFor | src/score/calculate_gpa_from_db.py:69-143 | averages come exactly with filters and only when the filter is valid, the fetch succeeds, some scores survive the name filter and their credits do not sum to zero; then average × credits is the credit-weighted sum on each scale, each score carries its 4-point value, and for scores in range both averages lie on their scales with the 4-point one at most the 10-point one |
| Gpa.GpaReplyWithoutAverages | src/score/calculate_gpa_from_db.py:79-110 | the replies without averages: the error reply, no scores at all (naming the filters given), none left after the name filter, or zero credits (the scores come back without their 4-point value) |
| Gpa.WeightedSumsBounded | src/score/calculate_gpa_from_db.py:101-103 | for scores in range the weighted sums lie between 0 and the scale's maximum times the credits, and the 4-point sum never exceeds the 10-point one |
| Gpa.AveragesOnScale | src/score/calculate_gpa_from_db.py:112-113 | averages over scores in range lie on their scales, the 4-point one at most the 10-point one |
| Gpa.AddHe4 | src/score/calculate_gpa_from_db.py:116-120 | the loop adds "score_he4" to every dumped score, in order |
| Gpa.SubjectFieldsAreNested | src/score/models.py:18-31 | `subject_name` and `subject_credits` are not fields of a ScoreWithDetails (they sit under `subject`), while `score_over_rall` and `subject` are |
| Gpa.GpaReportAsWritten | src/score/calculate_gpa_from_db.py:69-143 | as written, the tool over the records get_scores returns never gives averages, filters or scores |
| Gpa.GpaAsWrittenFailsOnScores | src/score/calculate_gpa_from_db.py:89-103 | as written, a valid filter and a non-empty fetch give the error reply naming `subject_name` (when a name was given) or `subject_credits`, a field the record lacks; a bad semester, a failed fetch and an empty fetch give the same replies as the corrected aggregation |
| Gpa.GpaAsWrittenExample | src/score/calculate_gpa_from_db.py:101-113 | example: one score of 8.0 over 3 credits gives the missing-attribute error as written, and averages 8.0 and 3.5 over 3 credits when corrected |
| Gpa.CalculateGpaFromDb | src/score/calculate_gpa_from_db.py:60-146 | the tool, step by step, gives exactly the reply function and closes the database on every path |
| ScoreModels.NewScore | src/score/models.py:18-26 | a new score carries the given student code and subject id, and every optional field is absent |
| ScoreModels.BodyWithNewline | src/score/models.py:44-45 | a semester of the form `(ki\|k)T-dddd-dddd` matches, with or without one final line break (what `$` admits under `re.match`) |
| ScoreModels.SemesterNameAccepted | src/score/models.py:44-45 | every semester name built from `ki`/`k`, an allowed term and two four-digit years passes the validator, with or without a final line break |
| ScoreModels.NarrowCheckImpliesWide | src/score/models.py:44 | a semester the tools' `[1-2]` pattern accepts is also accepted by the filter's `[1-4]` pattern |
| ScoreModels.ThirdTermOnlyInFilter | src/score/models.py:44 | example: `k3-2023-2024` passes the filter's pattern but not the tools' pattern: the two checks disagree |
| ScoreModels.UnderscoreFormRejected | src/score/models.py:44-47 | the underscore form `ki1_2024_2025` that the error message suggests is rejected by the pattern, whatever the highest term |
| ScoreModels.ValidateSemester | src/score/models.py:39-49 | `None` passes unchanged; a string passes unchanged exactly when it matches, and otherwise fails with the validator's message |
| ScoreModels.NewScoreFilter | src/score/models.py:34-49 | building a filter succeeds exactly when the semester is absent or matches the `[1-4]` pattern, keeps all three fields, and otherwise fails with the filter's message (the inner text of the ValidationError pydantic raises) |
| ScoreModels.DefaultFilterAccepted | src/score/models.py:34-37 | the filter with all three fields at their default is always built |
| ScoreTool.ValidateScoreInput | src/score/score_tool.py:18-26 | the tool's argument validator accepts the semester exactly when it is absent or matches the `[1-2]` pattern, and then returns it unchanged |
| ScoreTool.SemesterSuffix | src/score/score_tool.py:63-64 | the message suffix is empty exactly when the semester is absent or empty, and otherwise names the semester |
| ScoreTool.GetStudentScores | src/score/score_tool.py:34-75 | a non-empty semester of the wrong format is answered with the invalid-format message before any lookup; a non-empty list of scores is only returned for an accepted semester, is what the database returned for that filter, and comes with the found message counting them |
| ScoreTool.ValidSemesterReachesDatabase | src/score/score_tool.py:56-75 | for an accepted or absent semester the reply is the database's error message, the not-found message, or the database's rows with the found message |
| ScoreTool.EmptySemesterIsAnError | src/score/score_tool.py:49-57 | an empty semester skips the tool's own check (it is falsy) but the filter refuses it, so the reply is the retrieval error with the filter's message standing for the ValidationError text |
| ScoreDatabase.ConditionsCount | src/score/database.py:74-87 | a filter yields one condition per truthy field (a falsy `None`, `""` or `0` adds none), each on one of the three columns |
| ScoreDatabase.ParamsOf | src/score/database.py:71-87 | the parameter list has one entry per condition, the i-th condition's value at position i |
| ScoreDatabase.ClausesAppend | src/score/database.py:74-87 | appending a condition appends its clause with the next consecutive placeholder number |
| ScoreDatabase.AddClause | src/score/database.py:75 | one `query +=` step keeps the query text equal to the base text followed by the clauses of the conditions so far, numbered from $1 |
| ScoreDatabase.AddParam | src/score/database.py:76 | one `params.append` step keeps the parameters equal to the values of the conditions so far |
| ScoreDatabase.ConditionsMeanFilter | src/score/database.py:74-87 | a row meets every condition of the query exactly when it agrees with each truthy field of the filter |
| ScoreDatabase.FromRow | src/score/database.py:99-130 | the built score, student and subject all carry the row's student code and subject id |
| ScoreDatabase.FromRowLosesNothing | src/score/database.py:99-130 | every column of the row can be read back from the ScoreWithDetails built from it |
| ScoreDatabase.FindStudent | src/score/database.py:34-42 | the lookup is `None` exactly when no student has the code, and otherwise a student of the table with that code |
| ScoreDatabase.Database.constructor | src/score/database.py:11-12 | a new database has no connection pool |
| ScoreDatabase.Database.Connect | src/score/database.py:18-22 | afterwards a pool is open, whether or not one was before |
| ScoreDatabase.Database.Close | src/score/database.py:24-28 | afterwards no pool is open |
| ScoreDatabase.Database.GetStudent | src/score/database.py:30-42 | connects, and returns the first student with the code or `None` when no row matches |
| ScoreDatabase.Database.GetScores | src/score/database.py:58-134 | connects, runs the query and parameters built from the filter, and returns exactly one ScoreWithDetails per returned row, in row order |
| ScoreDatabase.FromRows | src/score/database.py:95-132 | the row loop produces as many results as rows, the i-th built from the i-th row |
| ScoreDatabase.AddFilterCondition | src/score/database.py:74-87 | one `if filter.<field>:` block extends query, parameters and placeholder index in step with the conditions |
| ScoreDatabase.BuildScoresQuery | src/score/database.py:63-89 | the assembled query is the base text, one clause per truthy field in the order code, semester, subject with placeholders $1.., and the ORDER BY clause once at the end; the parameters are the conditions' values in the same order |
| SimpleChat.Passages | src/rag/simple_chat_agent.py:97-100 | the passages are numbered from 1 in retrieval order, one per used document |
| SimpleChat.ContextBlankIffNoDocuments | src/rag/simple_chat_agent.py:96-103 | the joined context strips to nothing exactly when no document was retrieved |
| SimpleChat.PromptFor | src/rag/simple_chat_agent.py:103-129 | the analysis prompt is chosen exactly when the context is not blank, and it carries the question and the context |
| SimpleChat.Chat | src/rag/simple_chat_agent.py:87-145 | a retriever exception becomes the error reply with its message |
| SimpleChat.ChatCases | src/rag/simple_chat_agent.py:93-145 | with no documents the apology prompt is sent and the model's reply returned as it is; with documents the analysis prompt over the first eight is sent and the footer counting them (at most eight) is appended; a model exception becomes the error reply |
| SimpleChat.ContextIgnoresLaterDocuments | src/rag/simple_chat_agent.py:96 | documents after the eighth never change the context |
| SimpleChat.ProcessSimpleQuery | src/rag/simple_chat_agent.py:148-173 | the answer is `chat`'s and the sources are the first three retrieved documents; a retriever failure on the second fetch gives the error answer, no sources and the error source type, and the error source type only then |
| Retrieval.FirstSeen | src/rag/retriever.py:30-35 | the merged contents are exactly the hit contents, without repeats, and no more of them than hits |
| Retrieval.Merge | src/rag/retriever.py:30-35 | the `seen_content` loop over vector hits then BM25 hits yields each content once, in order of first appearance |
| Retrieval.FirstSeenOrder | src/rag/retriever.py:32-35 | of two merged contents, the one listed earlier first appeared earlier among the concatenated hits |
| Retrieval.FirstSeenOfDistinct | src/rag/retriever.py:32-35 | hits without repeated content come out of the merge unchanged |
| Retrieval.MergeExample | src/rag/retriever.py:32-35 | example: vector hits [A, B] and BM25 hits [B, C] merge to [A, B, C] |
| Retrieval.MergeProperties | src/rag/retriever.py:26-37 | the merged list has no repeated content, holds exactly the contents of both hit lists, every vector hit among them, is no longer than both together, and is empty when both are |
| Retrieval.CreateHybridRetriever | src/rag/retriever.py:111-119 | the built retriever asks the vector store for 15 hits and its BM25 retriever is built with k=15 |
| Retrieval.GetRelevantDocuments | src/rag/retriever.py:26-37 | the documents are the merge of the vector search with the retriever's `k` and the BM25 search with its own `k` |
| Retrieval.CreatedRetrieverBound | src/rag/retriever.py:111-119 | when both searches honour their `k`, the built retriever returns at most 30 distinct contents |
| Retrieval.PyTake | src/agent/agent.py:74 | Python's `s[:k]` is a prefix of `s`, of length `min(k, n)` for a non-negative `k` and `n + k` (or nothing) for a negative one |
| Retrieval.InsertKeepsSorted | src/agent/agent.py:74 | inserting one index after all indices of no greater score keeps an index list ascending by score |
| Retrieval.StableArgsort | src/agent/agent.py:74 | an ascending argsort exists for every score list: all its indices, once each, ascending by score |
| Retrieval.ArgsortExists | src/agent/agent.py:74 | every score list has an argsort in the sense the reranker assumes of numpy's |
| Retrieval.Rerank | src/agent/agent.py:74-75 | the result holds the document at each index taken, in that order, from the reversed argsort cut at `top_k` |
| Retrieval.RerankSelection | src/agent/agent.py:74-75 | the reranker keeps at most `top_k` documents (exactly `min(top_k, n)` for a non-negative `top_k`), from distinct positions, in non-increasing score order, and no dropped document scores higher than a kept one |
| Retrieval.DistinctPicks | src/agent/agent.py:75 | distinct positions of a list without repeats hold distinct contents |
| Retrieval.AgentRetrieverResult | src/agent/agent.py:87-106 | the reranking retriever returns at most `k` documents, without repeated content, each one of the hits |
| Retrieval.Reranker.constructor | src/agent/agent.py:40-48 | at start neither the model nor the tokenizer is loaded |
| Retrieval.Reranker.RerankDocuments | src/agent/agent.py:51-75 | afterwards both globals are set, they were loaded once more exactly when one of them was unset before, and the result is the reranking of the documents |
| Retrieval.Reranker.AgentGetRelevantDocuments | src/agent/agent.py:87-106 | the documents are the merged hits reranked with the retriever's own `k`, loading the model at most once |
| TextSummarizer.SplitEndsSentences | src/rag/text_summarizer.py:144 | splitting at white space after `.`, `!` or `?` leaves every sentence but the last ending with its terminator |
| TextSummarizer.OneSentence | src/rag/text_summarizer.py:144 | a text with no terminator followed by white space is split into itself alone |
| TextSummarizer.PlanFor | src/rag/text_summarizer.py:147-159 | the windows take at least two sentences from each end and at least one from the middle, and the middle window starts no later than the last one |
| TextSummarizer.FallbackRepeatsSingleSentence | src/rag/text_summarizer.py:149-159 | on a one-sentence text the three windows pick that sentence three times |
| TextSummarizer.WindowsApartFromSix | src/rag/text_summarizer.py:147-159 | from six sentences on the first, middle and last windows never overlap |
| TextSummarizer.CorrectedWindows | src/rag/text_summarizer.py:149-159 | with each overlap cut off the later window, the windows follow each other and cover exactly the sentences the source picks |
| TextSummarizer.CorrectedIndicesIncrease | src/rag/text_summarizer.py:149-159 | the corrected selection's indices increase, so no sentence is taken twice |
| TextSummarizer.CorrectedIndicesArePicked | src/rag/text_summarizer.py:149-159 | the corrected selection's indices are exactly those in one of the three windows |
| TextSummarizer.CorrectedSelectionFollowsIndices | src/rag/text_summarizer.py:149-161 | the corrected selection is the text read at those indices: each picked sentence once, in the text's order |
| TextSummarizer.CorrectedAgreesFromSix | src/rag/text_summarizer.py:147-159 | for six sentences or more the corrected selection equals the one as written |
| TextSummarizer.CorrectedSingleSentence | src/rag/text_summarizer.py:149-159 | the corrected selection of a one-sentence text is that sentence once |
| TextSummarizer.Marker | src/rag/text_summarizer.py:163-166 | the summary marker is the Vietnamese one for `"vi"` and the English one for every other language |
| TextSummarizer.FallbackText | src/rag/text_summarizer.py:161-166 | the fallback summary as written opens with the language's marker |
| TextSummarizer.FallbackSummarize | src/rag/text_summarizer.py:132-166 | the fallback method, step by step, returns the fallback summary as written: the marker followed by the three windows' sentences joined by single spaces |
| TextSummarizer.FallbackSummary | src/rag/text_summarizer.py:161-166 | the corrected fallback summary opens with the language's marker |
| TextSummarizer.OneSentenceRepeated | src/rag/text_summarizer.py:144-161 | as written, a one-sentence text is summarised as that sentence three times over |
| TextSummarizer.OneSentenceOnce | src/rag/text_summarizer.py:144-166 | the corrected summary of a one-sentence text is the marker and the sentence once |
| TextSummarizer.HelloIsOneSentence | src/rag/text_summarizer.py:144 | example: `Hello.` has no sentence boundary, so it is one sentence |
| TextSummarizer.Prompt | src/rag/text_summarizer.py:105-107 | the Vietnamese template is used exactly when the language is `"vi"`, and the prompt holds the text |
| TextSummarizer.SummarizeCases | src/rag/text_summarizer.py:92-130 | an empty text gets the fixed message without asking the model; a missing or failing model gives `_fallback_summarize` as written (the marker, then the three windows' sentences joined by spaces); an answering model's content (or its string form) is returned as it is |
| TextSummarizer.SummarizeCorrectedAgrees | src/rag/text_summarizer.py:92-130 | with the corrected fallback, the reply differs from the one as written only when the fallback is used on a text of fewer than six sentences |
| TextSummarizer.SummarizeOneSentence | src/rag/text_summarizer.py:127-130 | without a model, a one-sentence text is summarised as written as the marker and the sentence three times, and with the corrected fallback as the marker and the sentence once |
| RateLimit.StoreKey | src/backend/api/rate_limit.py:397-404 | the record key is the converted ObjectId exactly when the id is a valid ObjectId text, and otherwise the id string itself |
| RateLimit.FirstException | src/backend/api/rate_limit.py:419-429 | the exception loop finds nothing exactly when no exception names the user, and otherwise returns the limits of the first one that does |
| RateLimit.ResolveLimitsPriority | src/backend/api/rate_limit.py:415-429 | the first user exception naming the user decides the limits, whatever the role and default limits say |
| RateLimit.DefaultLimits | src/backend/api/rate_limit.py:443-451 | each limit present in the `defaultLimits` document is kept, and each absent one (or all, without the document) takes its default 10, 100, 500, 50000 or 500000 |
| RateLimit.ResolveLimitsFallback | src/backend/api/rate_limit.py:431-451 | without a matching exception the role's limits apply, and without those the default limits of the settings, which are 10, 100, 500, 50000 and 500000 when there is no `defaultLimits` document |
| RateLimit.FreshUsage | src/backend/api/rate_limit.py:462-479 | a new record starts with every counter at zero and every window ending after now |
| RateLimit.RefreshMakesWindowsCurrent | src/backend/api/rate_limit.py:492-509 | after the reset step every window ends after now; each expired window (minute, hour, day, month) has zero counters and a new end one period on (the month's at the next month's start), and each unexpired one keeps its counters and its end |
| RateLimit.RefreshIdempotent | src/backend/api/rate_limit.py:492-509 | running the reset step twice at the same moment is running it once |
| RateLimit.Charge | src/backend/api/rate_limit.py:511-520 | the three request counters grow by one exactly when the call counts as a request, both token counters always grow by the token count, and no window moves |
| RateLimit.JudgeStrict | src/backend/api/rate_limit.py:529-545 | a call is allowed exactly when no counter exceeds its limit (reaching it is allowed), and a rejection names the first limit exceeded in the order minute, hour, day, tokens per day, tokens per month, with that limit's message and value |
| RateLimit.CheckWithoutCounting | src/backend/api/rate_limit.py:389-413 | without a configuration or with the limiter disabled the call is allowed, an unknown user or a failed lookup is refused with its message, and in all of these no record changes |
| RateLimit.CheckChargesThenJudges | src/backend/api/rate_limit.py:415-545 | an active check stores the refreshed and charged record under the user's key, leaves every other record alone, and judges the counters it stored, so a refused call is charged all the same |
| RateLimit.CheckFirstSeenUser | src/backend/api/rate_limit.py:462-520 | a user seen for the first time is stored with just this call's charge and windows one minute, hour and day from now |
| RateLimit.RateLimiter.constructor | src/backend/api/rate_limit.py:389-390 | the limiter starts from the given configuration and stored records |
| RateLimit.RateLimiter.CheckRateLimit | src/backend/api/rate_limit.py:377-545 | the verdict and the new records are those of the `Check` function on the old records, and the configuration is unchanged |
| RateLimit.RateLimiter.Stats | src/backend/api/rate_limit.py:270-374 | as written the record is looked up under the id string; without a configuration the limits read "not set", with one they are the limits check_rate_limit enforces for the same user, with the enabled flag |
| RateLimit.RateLimiter.StatsCorrected | src/backend/api/rate_limit.py:275-313 | with the record looked up under the key check_rate_limit stores it by, the usage shown is that record's or a fresh one |
| RateLimit.StatsMissesStoredRecord | src/backend/api/rate_limit.py:457-460 | for an ObjectId-text id, after a charged first call the stored record counts one request but the report as written shows zero |
| RateLimit.StatsCorrectedSeesStoredRecord | src/backend/api/rate_limit.py:457-460 | with the corrected key the report shows exactly the counters the last check stored |
| RateLimit.StatsKeyMismatchExample | src/backend/api/rate_limit.py:399-400 | example: the 24-hex-digit id `65a1b2c3d4e5f60718293a4b` is an ObjectId text whose report key differs from its store key |
| RateLimit.InsertDesc | src/backend/api/rate_limit.py:231-241 | inserting into the descending order adds exactly the one record |
| RateLimit.InsertDescSorted | src/backend/api/rate_limit.py:231-241 | inserting keeps a list sorted by non-increasing key |
| RateLimit.SortDesc | src/backend/api/rate_limit.py:231-241 | `sorted(..., reverse=True)` is a permutation of the records |
| RateLimit.SortDescSorted | src/backend/api/rate_limit.py:231-241 | and it is in non-increasing key order |
| RateLimit.SummaryTopLists | src/backend/api/rate_limit.py:223-244 | the user count is the number of records; each top list holds min(5, n) of the records in non-increasing order, and no record left out ranks above one kept |
| RateLimit.TopFive | src/backend/api/rate_limit.py:231-241 | the first five of the sorted records are sorted, drawn from the input, of length min(5, n), and rank at least as high as every later one |
| RateLimit.SumRequestsAppend | src/backend/api/rate_limit.py:226 | adding a record adds its daily request count to the total |
| ChatApi.EstimateTokenCount | src/backend/api/chat.py:53-71 | the estimate is 100 plus about a quarter of the prompt and response lengths (each rounded down), never below 100 |
| ChatApi.EstimateMonotone | src/backend/api/chat.py:53-71 | longer texts never give a smaller estimate |
| ChatApi.WithStudentCodeShape | src/backend/api/chat.py:330-334 | with a non-empty student code the content is prefixed with `My student code is ` and the code, with no separator; without one it is unchanged |
| ChatApi.ToHistory | src/backend/api/chat.py:358-363 | the history has one message per stored message, in order |
| ChatApi.HistoryBeforeNewest | src/backend/api/chat.py:359-367 | dropping the last message (`[:-1]`) of the history read after the insert gives the history of the messages stored before it |
| ChatApi.BuildHistory | src/backend/api/chat.py:358-363 | the conversion loop keeps each content and makes a user message a HumanMessage and any other an AIMessage |
| ChatApi.PreCheckChargesNothing | src/backend/api/chat.py:322-326 | the pre-check with no tokens and not counted as a request adds nothing to any counter: it only applies the resets due |
| ChatApi.ExchangeChargesOneRequest | src/backend/api/chat.py:401-406 | a completed exchange adds exactly one to each request counter and the estimate to both token counters when no window runs out in between |
| ChatApi.ExchangeAtLimitIsServed | src/backend/api/chat.py:324-326 | a user at the per-minute limit still passes the pre-check and is served, and the charge afterwards takes the counter one past the limit and is refused, without effect on the reply |
| ChatApi.AnswerSpecStatus | src/backend/api/chat.py:336-416 | after an allowed pre-check the request is served or fails with 500 |
| ChatApi.QueryAiMalformed | src/backend/api/chat.py:306-320 | an invalid id, an unknown conversation or a missing user id is refused with 400, 404 or 401 before anything is read or stored |
| ChatApi.QueryAiWellFormed | src/backend/api/chat.py:306-416 | a well-formed request is served or fails with 429 or 500 |
| ChatApi.QueryAiPreCheck | src/backend/api/chat.py:322-326 | a 429 comes exactly from a pre-check rejection and carries its message; a request not allowed stores no message and leaves the counters as the pre-check did |
| ChatApi.QueryAiServed | src/backend/api/chat.py:298-416 | a served request was well formed and allowed, appends exactly the user's message and the agent's answer to its own conversation, leaves the others alone, and answers with the last message of the run on the earlier history |
| ChatApi.AnswerSpecServed | src/backend/api/chat.py:336-416 | once allowed, a served request appends the two messages and answers with the agent's last message |
| ChatApi.QuickChatProperties | src/backend/api/chat.py:419-480 | quick_chat fails with 401 exactly when the user id is missing, with 429 exactly when the pre-check rejects, and otherwise answers with the last message of the agent's run on no history |
| ChatApi.ChatEndpoints.constructor | src/backend/api/chat.py:39-43 | the endpoints start from the given limiter and conversations |
| ChatApi.ChatEndpoints.QueryAi | src/backend/api/chat.py:298-416 | the reply, the new conversations and the new counters are those the query_ai specification gives for the old state |
| ChatApi.ChatEndpoints.Answer | src/backend/api/chat.py:328-416 | the steps after an allowed pre-check change conversations and counters as the answer specification says |
| ChatApi.ChatEndpoints.QuickChat | src/backend/api/chat.py:419-480 | the reply and the new counters are those the quick_chat specification gives, and no conversation is touched |
| AgentState.UpdatedStudentInfo | src/agent/state.py:67-72 | a missing or empty dictionary changes nothing; otherwise each student field takes the dictionary's value for its key, `None` included, and keeps its value when the key is absent |
| AgentState.UpdatedStudentInfoIdempotent | src/agent/state.py:67-72 | applying the same student update twice is applying it once |
| AgentState.FullStudentInfoOverwrites | src/agent/state.py:69-72 | a dictionary with all three keys decides the student fields whatever they were before |
| AgentState.MyAgentState.constructor | src/agent/state.py:10-31 | a fresh state has no messages, no student fields, no scores, averages or search results, no task or tool, and is not waiting for the user |
| AgentState.MyAgentState.Student | src/agent/state.py:13-16 | the student value holds the three student fields |
| AgentState.MyAgentState.AddMessage | src/agent/state.py:33-35 | the message goes at the end of the messages and no other field changes |
| AgentState.MyAgentState.GetLastMessage | src/agent/state.py:37-41 | the result is `None` exactly when there are no messages, and otherwise the last one |
| AgentState.MyAgentState.ClearScores | src/agent/state.py:47-50 | the scores and the averages are emptied and nothing else changes |
| AgentState.MyAgentState.SetAwaitingHumanInput | src/agent/state.py:52-55 | the state waits for the user with the given prompt and nothing else changes |
| AgentState.MyAgentState.SetHumanInputReceived | src/agent/state.py:57-60 | the state no longer waits and has no prompt, and nothing else changes |
| AgentState.MyAgentState.StoredScores | src/agent/state.py:62-65 | the value serialised is an object whose only key `scores` holds the stored rows, one item per row in order |
| AgentState.MyAgentState.UpdateStudentInfo | src/agent/state.py:67-72 | the student fields become the update of the old ones and no other field changes |
| AgentState.MyAgentState.UpdateScores | src/agent/state.py:74-77 | an empty list leaves the scores alone and any other replaces them wholesale; no other field changes |
| AgentState.MyAgentState.UpdateAverageScores | src/agent/state.py:79-82 | an empty table leaves the averages alone and any other replaces them wholesale; no other field changes |
| Supervisor.JoinNewlines | src/agent/supervisor_agent.py:39-41 | joining parts without line breaks by `"\n"` puts exactly one line break between consecutive parts |
| Supervisor.ToolDescriptionsOneLinePerTool | src/agent/supervisor_agent.py:38-41 | when no tool's line contains a line break the description text has one line per tool, each starting with `- `, and is empty exactly when there are no tools |
| Supervisor.HistoryTextEmpty | src/agent/supervisor_agent.py:79-93 | the history text is empty exactly when there is no earlier message, since every line carries a `[bot]` or `[user]` prefix |
| Supervisor.SummarizeEffect | src/agent/supervisor_agent.py:62-118 | summarising keeps the length and every message but the last; with fewer than two messages nothing changes; otherwise the last message becomes a user message holding the rewritten question, or everything stays as it was when the rewrite fails |
| Supervisor.CallModel | src/agent/supervisor_agent.py:121-140 | the agent node appends exactly one AI message: the model's reply, or an error message with the failure's text |
| Supervisor.ShouldContinue | src/agent/supervisor_agent.py:143-152 | the run goes to the tool node exactly when the last message is an AI message asking for at least one tool, and ends otherwise, including on no messages |
| Supervisor.RunEndsOnFinalAnswer | src/agent/supervisor_agent.py:168-189 | a finished run always ends on an AI message that asks for no tool |
| Supervisor.DirectAnswer | src/agent/supervisor_agent.py:173-189 | when the model answers the summarised messages without a tool call (or fails), the run returns those messages plus that answer |
| Supervisor.AlwaysToolsNeverFinishes | src/agent/supervisor_agent.py:184-187 | a model that always asks for a tool never lets a run finish, whatever the step budget |
| Supervisor.ChatWithMemory | src/agent/supervisor_agent.py:232-258 | a finished run on the history plus the query returns messages ending with an AI message |
| Supervisor.Chat | src/agent/supervisor_agent.py:219-230 | the legacy single-message chat is the memory chat on an empty history |
| Supervisor.ChatDirectAnswer | src/agent/supervisor_agent.py:219-230 | with a single message there is nothing to summarise, so a direct answer is appended to the query itself |
| ToolGraph.ToolsCondition | src/agent/graph.py:88-95 | the run goes to the retriever exactly when the last message is an AI message asking for a tool, and ends otherwise |
| ToolGraph.GradeDocuments | src/agent/graph.py:115-130 | the document grader reads the first message as the question and the last as the context; its error is not caught; the route is the answer node exactly when the score is `yes`, and the rewrite node otherwise |
| ToolGraph.RewriteQuestion | src/agent/graph.py:132-138 | the rewrite node appends one user message holding the rewritten first question, and fails with the model |
| ToolGraph.GenerateAnswer | src/agent/graph.py:140-146 | the answer node appends one AI message answering the first question from the last message, and fails with the model |
| ToolGraph.Run | src/agent/graph.py:74-107 | a finished run has appended at least one message |
| ToolGraph.RunAppendsAndEndsOnAnswer | src/agent/graph.py:74-107 | a finished run only appends to the messages it started from, so the first message every node reads never changes, and it ends on an AI message |
| ToolGraph.RetrievalEndsAtGenerate | src/agent/graph.py:97-104 | when the model always calls the retriever, a finished run ends on the generator's answer to the first question |
| ToolGraph.EndlessRewrites | src/agent/graph.py:97-104 | when the model always calls the retriever and the document grader never says `yes`, no step budget lets the run finish |
| ToolGraph.ChatPaths | src/agent/graph.py:109-152 | a first reply without tool calls is the answer as it is, and a failing model makes chat fail |
| ToolGraph.ChatRetrievesThenAnswers | src/agent/graph.py:74-152 | when the first reply asks for the retriever and the document grader approves, chat answers with the generator's reply on the retrieved context |
| RagGraph.AddMessages | src/rag/rag_graph.py:437-515 | merging an update whose first messages are the state's own (same ids) replaces those in place and appends the rest after the state |
| RagGraph.AsciiOnly | src/rag/rag_graph.py:443 | dropping non-ASCII characters leaves only ASCII, never lengthens the text, and leaves an ASCII text unchanged |
| RagGraph.Normalize | src/rag/rag_graph.py:443 | the normalised query is all ASCII |
| RagGraph.ProcessUserQuery | src/rag/rag_graph.py:437-445 | the first message is replaced in place by a user message holding its normalised text, the others are kept, and an empty list is returned as it is |
| RagGraph.ContextMessage | src/rag/rag_graph.py:454-456 | the retrieval message is an AI message named `retrieved_context` asking for no tool |
| RagGraph.RetrieveDocuments | src/rag/rag_graph.py:447-459 | retrieval for the first message adds one context message holding the documents after the old messages, and fails with the retriever |
| RagGraph.LastRetrievedContext | src/rag/rag_graph.py:465 | when the last message is a context message its text is the context found |
| RagGraph.NoContextMessage | src/rag/rag_graph.py:465 | without any context message the context found is empty |
| RagGraph.LastRetrievedContextSkips | src/rag/rag_graph.py:465 | messages after the last context message do not change which context is found |
| RagGraph.GradeDocuments | src/rag/rag_graph.py:461-487 | the run goes to generate_answer exactly when a non-empty context was found and the document grader answers `yes` for the first question; a grader error counts as `no` |
| RagGraph.RewriteQuestion | src/rag/rag_graph.py:489-499 | as written the node's update is just one new user message holding the rewritten first question, and it fails with the model |
| RagGraph.RewriteQuestionCorrected | src/rag/rag_graph.py:498-499 | as the comment means it, the first user message is replaced by the rewritten question and the other messages are kept |
| RagGraph.GenerationContext | src/rag/rag_graph.py:505-509 | the generator's context is the last retrieved one when there is one, and the fixed fallback text otherwise, never empty |
| RagGraph.GenerateAnswer | src/rag/rag_graph.py:501-515 | the update holds every message but the last followed by the answer to the first question, and it fails with the model |
| RagGraph.GenerateKeepsContext | src/rag/rag_graph.py:515 | because the messages before the answer keep their ids, the merge keeps the context message the comment says is removed and appends the answer after it |
| RagGraph.AfterRewrite | src/rag/rag_graph.py:489-499 | after the rewrite node's update the state is never shorter |
| RagGraph.Step | src/rag/rag_graph.py:380-399 | one step never empties the state, only generate_answer ends the run, and only retrieval leads to generate_answer |
| RagGraph.Run | src/rag/rag_graph.py:380-399 | a finished run has messages, and with no step budget left the run is out of steps |
| RagGraph.RunContinues | src/rag/rag_graph.py:380-399 | a step that hands the state on leaves the rest of the run to the next node |
| RagGraph.Chat | src/rag/rag_graph.py:517-529 | chat returns the last message's text of a finished run, and the error text for an exception or the recursion limit |
| RagGraph.RetrieveStep | src/rag/rag_graph.py:447-465 | after retrieval the first message is unchanged and the context found is the joined documents |
| RagGraph.RewriteIgnoredByRetrieval | src/rag/rag_graph.py:437-499 | as written, after a rewrite and process_user_query the first message that retrieval reads is the same question as before |
| RagGraph.CorrectedRewriteReachesRetrieval | src/rag/rag_graph.py:437-498 | corrected, retrieval reads the normalised rewritten question |
| RagGraph.AsWrittenNeverFinishes | src/rag/rag_graph.py:380-499 | as written, once the document grader turns down the documents for the normalised question the run never finishes |
| RagGraph.RejectedContext | src/rag/rag_graph.py:461-487 | a turned-down context for the question sends the run to a rewrite |
| RagGraph.RetrievalNeverFinishes | src/rag/rag_graph.py:447-487 | as written, from retrieval with turned-down documents the run never finishes |
| RagGraph.RewriteNeverFinishes | src/rag/rag_graph.py:489-499 | as written, from a rewrite of such a question the run never finishes |
| RagGraph.AsWrittenChatFails | src/rag/rag_graph.py:517-529 | as written, chat on such a question answers only with the error text |
| RagGraph.Processed | src/rag/rag_graph.py:437-445 | after process_user_query the first message holds the normalised question and the rest is kept |
| RagGraph.ProcessRun | src/rag/rag_graph.py:437-445 | the run from process_user_query continues at retrieval on the processed messages |
| RagGraph.RetrieveRun | src/rag/rag_graph.py:447-459 | the run from retrieval continues at generate_answer when the document grader accepts and at the rewrite otherwise, with the context message added |
| RagGraph.CorrectedRewriteRun | src/rag/rag_graph.py:489-499 | corrected, the run from a rewrite continues at process_user_query with the first message replaced |
| RagGraph.AnswersFrom | src/rag/rag_graph.py:380-515 | an answerable question ends the run three steps after process_user_query, with the context message and then the answer added |
| RagGraph.CorrectedRewriteRound | src/rag/rag_graph.py:380-499 | corrected, turned-down documents bring the rewritten question back to process_user_query three steps later |
| RagGraph.CorrectedChatAnswersAfterRewrite | src/rag/rag_graph.py:380-529 | corrected, one rewrite is enough when the document grader accepts what is retrieved for the rewritten question |
| RagGraph.ChatAnswersFirstTime | src/rag/rag_graph.py:380-529 | a first retrieval the document grader accepts is answered at once, in either mode: the normalised question, the context message and the answer |
| RagGraph.KmaQuery | src/rag/rag_graph.py:269-306 | process_kma_query answers from the documents joined by blank lines and returns the first three documents as sources, and fails exactly when retrieval or the model fails |
| FileRegistry.Initial | src/backend/api/file.py:33-38 | the registry starts with no files and only the empty "default" folder, and that state is consistent |
| FileRegistry.Placed | src/backend/api/file.py:116 | a dictionary key assignment lists the key among the keys, adding nothing else; an existing key keeps its place |
| FileRegistry.PlacedKeyOrder | src/backend/api/file.py:116-127 | assigning a key keeps the insertion-order list an exact, repeat-free enumeration of the dictionary's keys |
| FileRegistry.RemovedKeyOrder | src/backend/api/file.py:391 | deleting a key keeps the insertion-order list an exact, repeat-free enumeration of the remaining keys |
| FileRegistry.WithFolder | src/backend/api/file.py:80-82 | an upload's folder exists afterwards; files are untouched; an existing folder leaves the registry as it was |
| FileRegistry.UploadEffect | src/backend/api/file.py:78-145 | the folder exists afterwards (new ones appended to the folder order) even on failure; the upload is refused with 500 exactly when it is empty or the extractor reports an error, and then the files are unchanged; otherwise the entry is stored under the id, the id is appended to exactly that folder's list, other folders are untouched, and the reply carries the id, text length and chunk count |
| FileRegistry.UploadAgainListsTwice | src/backend/api/file.py:116-127 | uploading again a file already filed in the same folder lists its id there twice, so the registry is no longer consistent |
| FileRegistry.UploadCorrectedKeepsConsistent | src/backend/api/file.py:116-127 | with the id first taken out of its previous folder, an upload keeps the registry consistent and lists the file exactly once, in its own folder |
| FileRegistry.RefiledConsistent | src/backend/api/file.py:116-127 | re-filing an entry keeps the registry consistent, stores the entry and leaves its id in its folder's list exactly once |
| FileRegistry.Unlisted | src/backend/api/file.py:127 | taking an id out of its folder's list leaves it in no list and keeps every other id exactly where it was |
| FileRegistry.CountAppend | src/backend/api/file.py:127 | the occurrences of an id in a concatenation are the sum of its occurrences in both parts |
| FileRegistry.CountUnique | src/backend/api/file.py:127 | an id occurring in a repeat-free list occurs exactly once |
| FileRegistry.Preview | src/backend/api/file.py:289-293 | the preview is the first three chunks joined by newlines when that is at most 500 characters, otherwise its first 500 characters followed by "..."; never longer than 503 |
| FileRegistry.FileInfo | src/backend/api/file.py:283-306 | refused with 404 and the "File not found" text exactly when the id is unknown; otherwise the id, content length, chunk count and preview of the stored entry |
| FileRegistry.LiveListingsContents | src/backend/api/file.py:333-345 | listing a folder's ids gives an entry for each live file among them and none for a stale id; its length is the number of live occurrences, at most the list's length |
| FileRegistry.ListAllFiles | src/backend/api/file.py:346-357 | listing with no folder gives one entry per stored file, each with that file's details |
| FileRegistry.AllLive | src/backend/api/file.py:346-357 | when every id is a live file, all of them count as live |
| FileRegistry.FolderCountMatchesListing | src/backend/api/file.py:413-421 | each folder summary names a folder in creation order, reports as its file count exactly the length of list_files for that folder, and is marked default exactly for "default" |
| FileRegistry.RemoveFirstMembers | src/backend/api/file.py:388 | removing the first occurrence of an id from a repeat-free list leaves exactly the other ids, still without repeats |
| FileRegistry.DeleteFileEffect | src/backend/api/file.py:378-399 | refused with 404, changing nothing, exactly when the id is unknown; otherwise exactly that file is removed, no folder appears or disappears, the id is in no folder list, and the registry stays consistent |
| FileRegistry.DeletedConsistent | src/backend/api/file.py:382-391 | deleting a stored file keeps the registry consistent and leaves its id in no folder list |
| FileRegistry.DeletedListedAreFiled | src/backend/api/file.py:386-391 | after a deletion every id still listed is a stored file filed under that folder |
| FileRegistry.CreateFolderEffect | src/backend/api/file.py:442-458 | refused with 400, changing nothing, exactly when the trimmed name is empty or already a folder; otherwise exactly one empty folder of that name is added at the end of the folder order, and the registry stays consistent |
| FileRegistry.SweepMove | src/backend/api/file.py:485-496 | moving: no file is deleted, the folder's live ids are appended to "default" in list order and retagged "default", other entries are untouched, and the moved count is the number of live occurrences |
| FileRegistry.SweepDelete | src/backend/api/file.py:485-490 | deleting: exactly the stored files not in the folder's list remain, unchanged, nothing is moved, and for a repeat-free list the deleted count is the number of its live ids |
| FileRegistry.DeleteFolderEffect | src/backend/api/file.py:480-508 | for a non-default folder, the deleted and moved counts add up to its live ids; the folder is gone and no other folder is; with deletion its live files are gone and none is moved; without, all are moved to "default", retagged, and none deleted |
| FileRegistry.Retag | src/backend/api/file.py:545-547 | the loop retags exactly the stored files of the list with the new folder name and adds or removes no file |
| FileRegistry.RenamedShape | src/backend/api/file.py:539-550 | after renaming, the new folder holds the old list, the old key is gone and no other folder changes, no file appears or disappears, and every live file of the list names the new folder |
| FileRegistry.RenamedWf | src/backend/api/file.py:542-550 | renaming keeps both key orders exact; the new name goes to the end of the folder order |
| FileRegistry.RenamedConsistent | src/backend/api/file.py:539-550 | renaming a non-default folder to a fresh name keeps the registry consistent |
| FileRegistry.RenameFolderEffect | src/backend/api/file.py:523-558 | with both names trimmed, refused, changing nothing, exactly when the new name is empty, the old name is unknown or "default", or the new name is already a folder (so also when both are equal); otherwise the folder is renamed, the registry stays consistent, and the reply is the list's length, stale ids included |
| FileRegistry.Registry.constructor | src/backend/api/file.py:33-38 | a new registry is in the initial state |
| FileRegistry.Registry.PutFolder | src/backend/api/file.py:82 | a folder key assignment replaces that list and places the key in the folder order |
| FileRegistry.Registry.Upload | src/backend/api/file.py:78-145 | the upload as written changes the registry and answers as UploadSpec says (see UploadEffect) |
| FileRegistry.Registry.UploadCorrected | src/backend/api/file.py:78-145 | the corrected upload changes the registry and answers as UploadCorrectedSpec says (see UploadCorrectedKeepsConsistent) |
| FileRegistry.Registry.ListFiles | src/backend/api/file.py:322-363 | the loop yields exactly the listing of the folder's live ids, [] for an unknown folder, or every file when no folder is given; the count is the list's length |
| FileRegistry.Registry.ListFolders | src/backend/api/file.py:411-427 | the nested loops yield one summary per folder in creation order with its live-file count; the count is the list's length |
| FileRegistry.Registry.DeleteFile | src/backend/api/file.py:378-399 | delete_file changes the registry and answers as DeleteFileSpec says (see DeleteFileEffect) |
| FileRegistry.Registry.CreateFolder | src/backend/api/file.py:442-458 | create_folder changes the registry and answers as CreateFolderSpec says (see CreateFolderEffect) |
| FileRegistry.Registry.DeleteFolder | src/backend/api/file.py:474-508 | delete_folder changes the registry and answers as DeleteFolderSpec says (see DeleteFolderEffect) |
| FileRegistry.Registry.SweepFolder | src/backend/api/file.py:480-496 | the loop leaves files, key order, "default" list and both counts as SweepAll computes them, and changes no other folder |
| FileRegistry.Registry.RenameFolder | src/backend/api/file.py:523-558 | rename_folder changes the registry and answers as RenameFolderSpec says (see RenameFolderEffect) |
| FileRegistry.Registry.MoveFolder | src/backend/api/file.py:539-550 | the new key, the retagging loop and the removal of the old key together give Renamed |
| FileRegistry.Registry.RetagFiles | src/backend/api/file.py:545-547 | the loop leaves the files as Retag computes them |

## Left out

- Language models, embeddings, FAISS, BM25 scoring, the reranker's neural scores, the document grader, the rewriter and the generator are oracles. The model says what the code does with their answers, not what the answers are.
- Databases: MongoDB, Motor and asyncpg calls (users, conversations, messages, rate-limit records, scores) are left out. A collection is an in-memory map or sequence, and a query is an oracle.
- RateLimit.RateLimiter.CheckRateLimit: the read of the stored record and its write back are not atomic in the source. Concurrency is not modelled, so nothing is claimed about interleaved checks.
- RateLimit.Refresh: `datetime.replace` calendar arithmetic is not modelled. The start of the next month, and the first-of-month-plus-32-days instant a new record uses, are passed in as the `Clock` values.
- Clocks are integer microseconds passed in as parameters. `datetime.utcnow()` is therefore a parameter, not a call.
- ScoreCalculatorTool.AveragesOf: the average is exact. The `round(…, 2)` at `score/calculator_tool.py:57` is not modelled, because the model computes in `real`.
- Gpa.GpaReportFor: both averages are exact. The `round(…, 2)` at `score/calculate_gpa_from_db.py:112-113` is not modelled.
- ScoreCalculator.CalculateAverageScores: the averages are exact. The `round(…, 2)` at `score/calculator.py:95-97` is not modelled.
- Float parsing and printing: `float(text)` is modelled only on texts of ASCII digits and dots. `json.dumps` formatting and `json.loads` parsing of strings are represented by a JSON value datatype, not by text.
- The `str(e)` texts of exceptions are not spelled out. A failure carries an abstract error text, and for a LangGraph recursion error a fixed stand-in.
- Regular expressions are modelled by hand for the patterns the core uses. `\s` and `\d` are taken as ASCII, `.lower()` as ASCII lower-casing, and Unicode NFD in `rag/rag_graph.py:443` is an oracle.
- Python key equality across types (`True == 1 == 1.0`) in JSON objects is not modelled. JSON keys are strings.
- The agent graphs run with a step budget of 25 (LangGraph's default recursion limit). A run that exceeds it yields the recursion error. Nothing is claimed about termination, because the code has no rewrite bound.
- Retrieval.Reranker.RerankDocuments: numpy's `argsort` is an input that must be an ascending argsort of the scores. Among equal scores its order is not fixed, so the reranker's output order among ties is not fixed either.
- The user id of both chat endpoints is the text `str(current_user.get("_id"))`, and the 401 branch is taken only when that text is empty. A missing `_id` gives the text "None", which passes that check, as in the source.
- ScoreDatabase.Database.constructor: the `ValueError` raised when `POSTGRES_URI_DOCKER` is unset is not modelled. The connection pool is a flag, and the connection string does not appear.
- `get_subject` (`score/database.py:44-56`) is not part of this model, because it is not in the core's data flow.
- `get_all_messages` (`agent/state.py:43-45`) is the `messages` field itself.
- `query_file` and `multi_query_file` (`backend/api/file.py:147-268`) are not modelled. They only pass a stored retriever to the simple chat agent, which is modelled on its own.
- Temporary files, `extract_text_from_file`, chunking and `hash` in `upload_file` are inputs: the extracted text, the chunks and the file id.
- The HTTP layer (FastAPI routing, authentication, response models), logging, the Streamlit UI and the command-line drivers are not modelled.
- Gpa.GpaReportFor, Gpa.GpaReplyWithoutAverages, Gpa.CalculateGpaFromDb: these are the corrected aggregation, over flat records holding each score's subject name, credits and overall score. The code as written reads those fields on `ScoreWithDetails` and always fails on a non-empty fetch; that behaviour is `Gpa.GpaReportAsWritten` (see Findings). The corrected records take the subject's credits and the overall score as present numbers: the `None` that `Subject.subject_credits` and `Score.score_over_rall` may hold is not modelled.

## Findings

| source | as written | input that shows it | evidently intended | confidence | as-written member | corrected member |
|---|---|---|---|---|---|---|
| src/backend/api/rate_limit.py:279 | `get_rate_limit_stats` looks the record up by the user id string, but `check_rate_limit` stores it under the converted ObjectId | a user whose id is `65a1b2c3d4e5f60718293a4b`, after one charged check | the stats read the record the limiter keeps for that user | medium, not executed | RateLimit.StatsMissesStoredRecord | RateLimit.StatsCorrectedSeesStoredRecord |
| src/backend/api/file.py:116-127 | uploading a file again (same name and text, so the same id) into the same folder appends its id to the folder list a second time | two identical uploads to "default" | the folder lists each file once, and the file counts once | medium, not executed | FileRegistry.UploadAgainListsTwice | FileRegistry.UploadCorrectedKeepsConsistent |
| src/rag/rag_graph.py:489-499 | `rewrite_question` appends the rewritten question as a new message, while retrieval and grading read `messages[0]`; a question whose documents the document grader turns down is rewritten forever, and chat answers only with the error text | any question for which the document grader answers "no" to the retrieved documents | the first user message is replaced by the rewritten question, as the comment on line 498 says | high, not executed | RagGraph.AsWrittenChatFails | RagGraph.CorrectedChatAnswersAfterRewrite |
| src/score/calculate_gpa_from_db.py:89-103 | the name filter and the weighted sums read `s.subject_name` and `s.subject_credits`, but the records get_scores returns are ScoreWithDetails, which hold them under `s.subject`; the read raises AttributeError and the reply is the error | one score of 8.0 over 3 credits for student "S1", no filters | `s.subject.subject_name` and `s.subject.subject_credits`, giving averages 8.0 and 3.5 over 3 credits | high, not executed | Gpa.GpaAsWrittenFailsOnScores | Gpa.GpaReportFor |
| src/rag/text_summarizer.py:149-159 | the first, middle and last windows of the fallback summary overlap on short texts, so a sentence is repeated | "Hello." is summarised as "Hello. Hello. Hello." after the marker | each sentence is taken at most once, in text order | medium, not executed | TextSummarizer.OneSentenceRepeated | TextSummarizer.OneSentenceOnce |

The other members on each side of these findings:
- Stats key: `RateLimit.RateLimiter.Stats`, `RateLimit.StatsKeyMismatchExample` and `RateLimit.RateLimiter.StatsCorrected`.
- Duplicate upload: `FileRegistry.Registry.Upload` and `FileRegistry.Registry.UploadCorrected`.
- Rewrite: `RagGraph.RewriteQuestion`, `RagGraph.RewriteIgnoredByRetrieval`, `RagGraph.AsWrittenNeverFinishes`, `RagGraph.RewriteQuestionCorrected` and `RagGraph.CorrectedRewriteReachesRetrieval`.
- GPA fields: `Gpa.SubjectFieldsAreNested`, `Gpa.GpaReportAsWritten` and `Gpa.GpaAsWrittenExample` as written; `Gpa.GpaReplyWithoutAverages` and `Gpa.CalculateGpaFromDb` corrected.
- Summary windows: `TextSummarizer.FallbackRepeatsSingleSentence`, `TextSummarizer.FallbackText`, `TextSummarizer.Summarize` and `TextSummarizer.SummarizeOneSentence` as written; `TextSummarizer.FallbackSummary`, `TextSummarizer.SummarizeCorrected`, `TextSummarizer.SummarizeCorrectedAgrees` and `TextSummarizer.CorrectedAgreesFromSix` corrected.

`TextSummarizer.Summarize` falls back to the selection as written and `TextSummarizer.SummarizeCorrected` to the corrected one. The GPA tool is modelled on both sides: as written over ScoreWithDetails, corrected over flat records. The rewrite mode of `RagGraph`, the two uploads of `FileRegistry.Registry` and the two stats methods of `RateLimit.RateLimiter` keep both versions side by side, and each is named as such.
