/**
 * The text summariser of rag/text_summarizer.py: ask the language model
 * with the Vietnamese or the English template, and fall back to picking
 * sentences from the start, the middle and the end of the text when there
 * is no model or it fails.
 */
module TextSummarizer {
  import opened Common
  import opened Messages

  // ---- sentence splitting: re.split(r'(?<=[.!?])\s+', text) ----

  predicate IsTerminator(c: char)
  {
    c == '.' || c == '!' || c == '?'
  }

  /** Every piece but the last ends with a sentence terminator. */
  predicate EndsSentences(pieces: seq<string>)
  {
    forall k :: 0 <= k < |pieces| - 1 ==> pieces[k] != "" && IsTerminator(pieces[k][|pieces[k]| - 1])
  }

  /**
   * Splitting the rest `s` of the text when `cur` has been read since the
   * last split: a run of white space right after a terminator is a
   * separator and is dropped.
   */
  function SplitFrom(s: string, cur: string): (r: seq<string>)
    ensures |r| >= 1
    decreases |s|
  {
    if s == [] then [cur]
    else if cur != [] && IsTerminator(cur[|cur| - 1]) && IsSpace(s[0]) then [cur] + SplitFrom(TrimLeft(s), [])
    else SplitFrom(s[1..], cur + [s[0]])
  }

  /** The sentences of a text. */
  function SplitSentences(text: string): (r: seq<string>)
    ensures |r| >= 1
  {
    SplitFrom(text, [])
  }

  /** Every sentence but the last ends with its terminator. */
  lemma {:induction false} SplitEndsSentences(s: string, cur: string)
    ensures EndsSentences(SplitFrom(s, cur))
    decreases |s|
  {
    if s == [] {
    } else if cur != [] && IsTerminator(cur[|cur| - 1]) && IsSpace(s[0]) {
      SplitEndsSentences(TrimLeft(s), []);
      var rest := SplitFrom(TrimLeft(s), []);
      assert SplitFrom(s, cur) == [cur] + rest;
      assert forall k :: 1 <= k < |rest| + 1 - 1 ==> ([cur] + rest)[k] == rest[k - 1];
    } else {
      SplitEndsSentences(s[1..], cur + [s[0]]);
    }
  }

  /** No terminator in `s` is directly followed by white space. */
  predicate NoBoundary(s: string)
  {
    forall i :: 0 < i < |s| ==> !(IsTerminator(s[i - 1]) && IsSpace(s[i]))
  }

  /** A text without a terminator-and-space boundary is one sentence. */
  lemma {:induction false} NoBoundaryOneSentence(s: string, cur: string)
    requires NoBoundary(cur + s)
    ensures SplitFrom(s, cur) == [cur + s]
    decreases |s|
  {
    if s == [] {
      assert cur + s == cur;
    } else {
      assert cur != [] && IsTerminator(cur[|cur| - 1]) ==> !IsSpace(s[0]) by {
        if cur != [] && IsTerminator(cur[|cur| - 1]) {
          assert (cur + s)[|cur| - 1] == cur[|cur| - 1] && (cur + s)[|cur|] == s[0];
        }
      }
      assert (cur + [s[0]]) + s[1..] == cur + s;
      NoBoundaryOneSentence(s[1..], cur + [s[0]]);
    }
  }

  // ---- the fallback selection ----

  function Max(a: int, b: int): int
  {
    if a >= b then a else b
  }

  function Min(a: int, b: int): int
  {
    if a <= b then a else b
  }

  /**
   * `max(3, int(len(sentences) * 0.4))`. The double nearest 0.4 lies just
   * above it, so the product never falls below an integer it should reach
   * and the float result truncates to exactly 2 * len / 5.
   */
  function SelectionSize(len: nat): (n: nat)
    ensures n >= 3
  {
    Max(3, (2 * len) / 5)
  }

  /** Sentences taken from the start, and from the end: `max(2, n // 3)`. */
  function EdgeCount(len: nat): (h: nat)
    ensures h >= 2
  {
    Max(2, SelectionSize(len) / 3)
  }

  /** Sentences taken from the middle: `max(1, n // 3)`. */
  function MiddleCount(len: nat): (m: nat)
    ensures m >= 1
  {
    Max(1, SelectionSize(len) / 3)
  }

  /**
   * Where the three windows lie in a text of `len` sentences: `edge`
   * sentences from each end, and `middle` sentences from index `mid`.
   */
  datatype Plan = Plan(len: nat, edge: nat, mid: nat, middle: nat)

  /** The middle window starts no later than the last one. */
  predicate WellFormed(p: Plan)
  {
    p.mid + Min(p.edge, p.len) <= p.len
  }

  /** The plan _fallback_summarize computes; the middle window starts at a third of the text. */
  function PlanFor(len: nat): (p: Plan)
    ensures p.len == len && WellFormed(p) && p.edge >= 2 && p.middle >= 1
  {
    var n := SelectionSize(len);
    assert n / 3 <= 2 || n / 3 <= len - len / 3;
    Plan(len, EdgeCount(len), len / 3, MiddleCount(len))
  }

  /** Index `i` falls in one of the three windows. */
  predicate Picked(p: Plan, i: nat)
  {
    i < p.edge || (p.mid <= i < p.mid + p.middle) || p.len - p.edge <= i
  }

  /** The three windows taken whole, one after the other, even where they overlap. */
  function Windowed(sentences: seq<string>, p: Plan): (r: seq<string>)
    requires p.len == |sentences|
  {
    Take(sentences, p.edge) + Slice(sentences, p.mid, p.mid + p.middle) + TakeLast(sentences, p.edge)
  }

  /** _fallback_summarize as written: the first, middle and last windows of its plan. */
  function FallbackSelection(sentences: seq<string>): (r: seq<string>)
  {
    Windowed(sentences, PlanFor(|sentences|))
  }

  /** On a one-sentence text, that sentence is picked three times. */
  lemma FallbackRepeatsSingleSentence(x: string)
    ensures FallbackSelection([x]) == [x, x, x]
  {
    var p := PlanFor(1);
    assert p.mid == 0;
    assert Take([x], p.edge) == [x] && TakeLast([x], p.edge) == [x];
    assert Slice([x], 0, p.middle) == [x];
  }

  /** The three windows of the corrected selection, as index bounds. */
  datatype Windows = Windows(headEnd: nat, midStart: nat, midEnd: nat, tailStart: nat)

  /**
   * The windows with every overlap cut off the later one, so they follow
   * each other and cover exactly the picked indices.
   */
  function CorrectedWindows(p: Plan): (w: Windows)
    requires WellFormed(p)
    ensures w.headEnd <= w.midStart <= w.midEnd <= w.tailStart <= p.len
    ensures forall i: nat :: i < p.len ==>
      (Picked(p, i) <==> i < w.headEnd || w.midStart <= i < w.midEnd || w.tailStart <= i)
  {
    var a := Min(p.edge, p.len);
    var ms := Max(p.mid, a);
    var me := Max(ms, Min(p.mid + p.middle, p.len));
    var ts := Max(p.len - a, me);
    Windows(a, ms, me, ts)
  }

  /** The windows of a plan do not overlap. */
  predicate WindowsApart(p: Plan)
  {
    p.edge <= p.mid && p.mid + p.middle <= p.len - p.edge
  }

  /** From six sentences on they never overlap: only short texts repeat sentences. */
  lemma WindowsApartFromSix(len: nat)
    requires len >= 6
    ensures WindowsApart(PlanFor(len))
  {
    var n := SelectionSize(len);
    if (2 * len) / 5 <= 3 {
      assert n == 3 && EdgeCount(len) == 2 && MiddleCount(len) == 1;
    } else {
      assert n == (2 * len) / 5;
      assert n / 3 <= len / 3;
    }
  }

  /** The windows of a plan, with the overlaps removed. */
  function CorrectedWindowed(sentences: seq<string>, p: Plan): (r: seq<string>)
    requires p.len == |sentences| && WellFormed(p)
  {
    var w := CorrectedWindows(p);
    sentences[..w.headEnd] + sentences[w.midStart..w.midEnd] + sentences[w.tailStart..]
  }

  /** The fallback selection with no sentence taken twice. */
  function FallbackSelectionCorrected(sentences: seq<string>): (r: seq<string>)
  {
    CorrectedWindowed(sentences, PlanFor(|sentences|))
  }

  /** The indices `lo`, `lo + 1`, ..., `hi - 1`. */
  function Range(lo: nat, hi: nat): (r: seq<nat>)
    ensures |r| == if lo <= hi then hi - lo else 0
    ensures forall k :: 0 <= k < |r| ==> r[k] == lo + k
    decreases hi - lo
  {
    if lo < hi then [lo] + Range(lo + 1, hi) else []
  }

  /** The indices of the sentences a corrected plan takes. */
  function CorrectedIndices(p: Plan): (idx: seq<nat>)
    requires WellFormed(p)
  {
    var w := CorrectedWindows(p);
    Range(0, w.headEnd) + Range(w.midStart, w.midEnd) + Range(w.tailStart, p.len)
  }

  /** They follow the text's order, so no sentence is taken twice. */
  lemma CorrectedIndicesIncrease(p: Plan)
    requires WellFormed(p)
    ensures var idx := CorrectedIndices(p);
      forall j, k :: 0 <= j < k < |idx| ==> idx[j] < idx[k]
  {
  }

  /** They are exactly the picked indices. */
  lemma CorrectedIndicesArePicked(p: Plan)
    requires WellFormed(p)
    ensures forall i: nat :: i in CorrectedIndices(p) <==> i < p.len && Picked(p, i)
  {
    var w := CorrectedWindows(p);
    var r := CorrectedIndices(p);
    forall i: nat
      ensures i in r <==> i < p.len && Picked(p, i)
    {
      if i < p.len && Picked(p, i) {
        if i < w.headEnd {
          assert r[i] == i;
        } else if w.midStart <= i < w.midEnd {
          assert r[w.headEnd + (i - w.midStart)] == i;
        } else {
          assert r[w.headEnd + (w.midEnd - w.midStart) + (i - w.tailStart)] == i;
        }
      }
    }
  }

  /**
   * The corrected selection is the text restricted to the picked indices:
   * each picked sentence once, in the text's order, and no other.
   */
  lemma CorrectedSelectionFollowsIndices(sentences: seq<string>)
    ensures var idx := CorrectedIndices(PlanFor(|sentences|));
      var r := FallbackSelectionCorrected(sentences);
      && |r| == |idx|
      && forall k :: 0 <= k < |idx| ==> idx[k] < |sentences| && r[k] == sentences[idx[k]]
  {
    var w := CorrectedWindows(PlanFor(|sentences|));
    ThreeWindows(sentences, w.headEnd, w.midStart, w.midEnd, w.tailStart);
  }

  /** Three consecutive slices of a sequence are the sequence read at their indices. */
  lemma ThreeWindows(s: seq<string>, a: nat, ms: nat, me: nat, ts: nat)
    requires a <= ms <= me <= ts <= |s|
    ensures var idx := Range(0, a) + Range(ms, me) + Range(ts, |s|);
      var r := s[..a] + s[ms..me] + s[ts..];
      && |r| == |idx|
      && forall k :: 0 <= k < |idx| ==> idx[k] < |s| && r[k] == s[idx[k]]
  {
    var idx := Range(0, a) + Range(ms, me) + Range(ts, |s|);
    var r := s[..a] + s[ms..me] + s[ts..];
    forall k | 0 <= k < |idx|
      ensures idx[k] < |s| && r[k] == s[idx[k]]
    {
      if k < a {
        assert idx[k] == k;
      } else if k < a + (me - ms) {
        assert idx[k] == ms + (k - a);
      } else {
        assert idx[k] == ts + (k - a - (me - ms));
      }
    }
  }

  /** Where the windows are apart, the correction changes nothing. */
  lemma CorrectedAgreesWhenApart(sentences: seq<string>, p: Plan)
    requires p.len == |sentences| && WellFormed(p) && WindowsApart(p)
    ensures CorrectedWindowed(sentences, p) == Windowed(sentences, p)
  {
    var w := CorrectedWindows(p);
    assert w.headEnd == p.edge && w.midStart == p.mid && w.midEnd == p.mid + p.middle;
    assert w.tailStart == p.len - p.edge;
  }

  /** So texts of six sentences or more are summarised as before. */
  lemma CorrectedAgreesFromSix(sentences: seq<string>)
    requires |sentences| >= 6
    ensures FallbackSelectionCorrected(sentences) == FallbackSelection(sentences)
  {
    WindowsApartFromSix(|sentences|);
    CorrectedAgreesWhenApart(sentences, PlanFor(|sentences|));
  }

  /** The corrected selection of a one-sentence text is that sentence. */
  lemma CorrectedSingleSentence(x: string)
    ensures FallbackSelectionCorrected([x]) == [x]
  {
    var p := PlanFor(1);
    assert p.mid == 0;
    var w := CorrectedWindows(p);
    assert w.headEnd == 1 && w.midStart == 1 && w.midEnd == 1 && w.tailStart == 1;
  }

  // ---- the summary ----

  const VietnameseMarker: string := "(Tóm tắt tự động - không có LLM) "
  const EnglishMarker: string := "(Automatic summary - no LLM available) "
  const Vietnamese: string := "vi"

  /** The marker that opens a fallback summary: Vietnamese for "vi", English for any other language. */
  function Marker(language: string): (r: string)
    ensures language == Vietnamese ==> r == VietnameseMarker
    ensures language != Vietnamese ==> r == EnglishMarker
  {
    if language == Vietnamese then VietnameseMarker else EnglishMarker
  }

  /**
   * _fallback_summarize as written: the important sentences grow by three
   * `extend` calls, then are joined by single spaces after the marker.
   */
  method FallbackSummarize(text: string, language: string) returns (summary: string)
    ensures summary == FallbackText(text, language)
  {
    var sentences := SplitSentences(text);
    var p := PlanFor(|sentences|);
    var head := Take(sentences, p.edge);
    var middle := Slice(sentences, p.mid, p.mid + p.middle);
    var tail := TakeLast(sentences, p.edge);
    var important: seq<string> := [];
    important := important + head;
    assert important == head;
    important := important + middle;
    important := important + tail;
    assert important == Windowed(sentences, p);
    summary := Marker(language) + Join(important, " ");
  }

  /** The fallback summary as written: the marker, then the three windows' sentences joined by spaces. */
  function FallbackText(text: string, language: string): (r: string)
    ensures Marker(language) <= r
  {
    Marker(language) + Join(FallbackSelection(SplitSentences(text)), " ")
  }

  /** The fallback summary with the corrected selection. */
  function FallbackSummary(text: string, language: string): (r: string)
    ensures Marker(language) <= r
  {
    Marker(language) + Join(FallbackSelectionCorrected(SplitSentences(text)), " ")
  }

  lemma OneSentence(x: string)
    requires NoBoundary(x)
    ensures SplitSentences(x) == [x]
  {
    NoBoundaryOneSentence(x, []);
    assert [] + x == x;
  }

  /** A text of one sentence: the code as written returns it three times... */
  lemma OneSentenceRepeated(x: string)
    requires NoBoundary(x)
    ensures Join(FallbackSelection(SplitSentences(x)), " ") == x + " " + x + " " + x
  {
    OneSentence(x);
    FallbackRepeatsSingleSentence(x);
    assert Join([x, x, x], " ") == x + " " + Join([x, x], " ");
  }

  /** ... and the corrected summary holds it once. */
  lemma OneSentenceOnce(x: string, language: string)
    requires NoBoundary(x)
    ensures FallbackSummary(x, language) == Marker(language) + x
  {
    OneSentence(x);
    CorrectedSingleSentence(x);
  }

  /** Example: "Hello." is one sentence, so OneSentenceRepeated applies to it. */
  lemma HelloIsOneSentence()
    ensures NoBoundary("Hello.")
  {
  }

  /** The template the model is given, filled with the text. */
  datatype SummaryPrompt = SummaryPrompt(vietnamese: bool, text: string)

  /** What the model returns: a message with `.content`, or another object and its `str()`. */
  datatype LlmReply = WithContent(content: string) | Bare(text: string)

  /** A summariser: its language, and the model, absent when it could not be loaded. */
  datatype Summarizer = Summarizer(language: string, llm: Option<SummaryPrompt -> Outcome<LlmReply>>)

  const EmptyTextMessage: string := "Không có văn bản để tóm tắt."

  /** The template is the Vietnamese one exactly when the language is "vi". */
  function Prompt(language: string, text: string): (p: SummaryPrompt)
    ensures p.vietnamese <==> language == Vietnamese
    ensures p.text == text
  {
    SummaryPrompt(language == Vietnamese, text)
  }

  /** summarize: the model's summary when it answers, `_fallback_summarize` (as written) otherwise. */
  function Summarize(s: Summarizer, text: string): (r: string)
  {
    if text == "" then EmptyTextMessage
    else match s.llm
      case None => FallbackText(text, s.language)
      case Some(llm) =>
        match llm(Prompt(s.language, text))
        case Failure(_) => FallbackText(text, s.language)
        case Success(WithContent(c)) => c
        case Success(Bare(t)) => t
  }

  /**
   * An empty text gets the fixed message and the model is not asked; a
   * missing or failing model yields the fallback summary as written, which
   * opens with the language's marker; an answering model's text is returned as it is.
   */
  lemma SummarizeCases(s: Summarizer, text: string)
    ensures text == "" ==> Summarize(s, text) == EmptyTextMessage
    ensures text != "" && (s.llm.None? || s.llm.value(Prompt(s.language, text)).Failure?) ==>
      Summarize(s, text) == Marker(s.language) + Join(FallbackSelection(SplitSentences(text)), " ")
      && Marker(s.language) <= Summarize(s, text)
    ensures text != "" && s.llm.Some? && s.llm.value(Prompt(s.language, text)).Success? ==>
      var reply := s.llm.value(Prompt(s.language, text)).value;
      Summarize(s, text) == (if reply.WithContent? then reply.content else reply.text)
  {
  }

  /** summarize with the corrected fallback selection. */
  function SummarizeCorrected(s: Summarizer, text: string): (r: string)
  {
    if text == "" then EmptyTextMessage
    else match s.llm
      case None => FallbackSummary(text, s.language)
      case Some(llm) =>
        match llm(Prompt(s.language, text))
        case Failure(_) => FallbackSummary(text, s.language)
        case Success(WithContent(c)) => c
        case Success(Bare(t)) => t
  }

  /**
   * The correction only touches the fallback: where the model answers, or
   * where the text has six sentences or more, both summaries are the same.
   */
  lemma SummarizeCorrectedAgrees(s: Summarizer, text: string)
    ensures text == "" || (s.llm.Some? && s.llm.value(Prompt(s.language, text)).Success?) ==>
      SummarizeCorrected(s, text) == Summarize(s, text)
    ensures |SplitSentences(text)| >= 6 ==> SummarizeCorrected(s, text) == Summarize(s, text)
  {
    if |SplitSentences(text)| >= 6 {
      CorrectedAgreesFromSix(SplitSentences(text));
    }
  }

  /**
   * Without a model, a one-sentence text such as "Hello." comes back three
   * times as written, and once with the corrected selection.
   */
  lemma SummarizeOneSentence(language: string, x: string)
    requires x != "" && NoBoundary(x)
    ensures Summarize(Summarizer(language, None), x) == Marker(language) + (x + " " + x + " " + x)
    ensures SummarizeCorrected(Summarizer(language, None), x) == Marker(language) + x
  {
    var s := Summarizer(language, None);
    assert Summarize(s, x) == FallbackText(x, language);
    assert SummarizeCorrected(s, x) == FallbackSummary(x, language);
    OneSentenceRepeated(x);
    assert FallbackText(x, language) == Marker(language) + (x + " " + x + " " + x);
    OneSentenceOnce(x, language);
  }
}
