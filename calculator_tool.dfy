/**
 * The `calculate_average_scores` tool of score/calculator_tool.py: its
 * input is a JSON document or free text of lines such as
 * "Toán (3 tín chỉ): 8.5", which a regular expression turns into score
 * records; the reply is the credit-weighted average of the overall scores.
 */
module ScoreCalculatorTool {
  import opened Common

  /** The characters of `[\d\.]`. */
  predicate IsNumberChar(c: char)
  {
    IsDigit(c) || c == '.'
  }

  /** The character classes the pattern repeats: `\s`, `\d` and `[\d\.]`. */
  datatype CharClass = Spaces | Digits | DigitsAndDots

  predicate InClass(c: char, cls: CharClass)
  {
    match cls
    case Spaces => IsSpace(c)
    case Digits => IsDigit(c)
    case DigitsAndDots => IsNumberChar(c)
  }

  /** The end of the run of characters of class `cls` that starts at `i` (a greedy repetition). */
  function RunEnd(s: string, i: nat, cls: CharClass): (j: nat)
    requires i <= |s|
    ensures i <= j <= |s|
    ensures forall k :: i <= k < j ==> InClass(s[k], cls)
    ensures j == |s| || !InClass(s[j], cls)
    decreases |s| - i
  {
    if i < |s| && InClass(s[i], cls) then RunEnd(s, i + 1, cls) else i
  }

  /** A run is determined by where it starts. */
  lemma RunEndIs(s: string, i: nat, j: nat, cls: CharClass)
    requires i <= j <= |s|
    requires forall k :: i <= k < j ==> InClass(s[k], cls)
    requires j == |s| || !InClass(s[j], cls)
    ensures RunEnd(s, i, cls) == j
  {
  }

  /** The literal "tín chỉ)" of the pattern, in composed form. */
  const UnitText: string := "t\U{ED}n ch\U{1EC9})"

  /** Where the credits group and the score group of one match lie. */
  datatype Tail = Tail(creditsStart: nat, creditsEnd: nat, scoreStart: nat, scoreEnd: nat)

  /** One match: the name group and the rest. */
  datatype Match = Match(nameStart: nat, nameEnd: nat, tail: Tail)

  /** A non-empty digit group, then a non-empty group of digits and dots. */
  predicate TailIn(s: string, t: Tail)
  {
    && t.creditsStart < t.creditsEnd <= t.scoreStart < t.scoreEnd <= |s|
    && (forall k :: t.creditsStart <= k < t.creditsEnd ==> IsDigit(s[k]))
    && (forall k :: t.scoreStart <= k < t.scoreEnd ==> IsNumberChar(s[k]))
  }

  /** The name group holds at least one character and no line break; the tail follows it. */
  predicate ValidMatch(s: string, m: Match)
  {
    && m.nameStart < m.nameEnd < m.tail.creditsStart
    && TailIn(s, m.tail)
    && (forall k :: m.nameStart <= k < m.nameEnd ==> s[k] != '\n')
  }

  /**
   * The four pieces of the tail `\s*\((\d+)\s*tín chỉ\)\s*:\s*([\d\.]+)`,
   * in the order they are read; the later ones carry the credits group
   * [i, c) already found.
   */
  datatype Stage =
    | Open               // `\s*\(`
    | Credits            // `(\d+)`
    | Unit(i: nat, c: nat)   // `\s*tín chỉ\)`
    | Score(i: nat, c: nat)  // `\s*:\s*([\d\.]+)`

  /** The credits group a later stage carries is a non-empty run of digits before j. */
  predicate StageIn(s: string, j: nat, st: Stage)
  {
    (st.Unit? || st.Score?) ==>
      && st.i < st.c <= j && st.c <= |s|
      && forall k :: st.i <= k < st.c ==> IsDigit(s[k])
  }

  /**
   * The tail read from j in stage st.  Every repetition is followed by a
   * character it cannot take, so each one takes its longest run and
   * nothing is retried.
   */
  function TailFrom(s: string, j: nat, st: Stage): (r: Option<Tail>)
    requires j <= |s| && StageIn(s, j, st)
    ensures r.Some? ==> TailIn(s, r.value)
    ensures r.Some? && st.Open? ==> j < r.value.creditsStart
    ensures r.Some? && st.Credits? ==> r.value.creditsStart == j
    ensures r.Some? && (st.Unit? || st.Score?) ==> r.value.creditsStart == st.i
    decreases |s| - j
  {
    match st
    case Open =>
      var a := RunEnd(s, j, Spaces);
      if a < |s| && s[a] == '(' then TailFrom(s, a + 1, Credits) else None
    case Credits =>
      var c := RunEnd(s, j, Digits);
      if c > j then TailFrom(s, c, Unit(j, c)) else None
    case Unit(i, c) =>
      var b := RunEnd(s, j, Spaces);
      if UnitText <= s[b..] then TailFrom(s, b + |UnitText|, Score(i, c)) else None
    case Score(i, c) =>
      var d := RunEnd(s, j, Spaces);
      if d < |s| && s[d] == ':' then
        var e := RunEnd(s, d + 1, Spaces);
        var f := RunEnd(s, e, DigitsAndDots);
        if f > e then Some(Tail(i, c, e, f)) else None
      else None
  }

  /** The tail from position q. */
  function TailAt(s: string, q: nat): (r: Option<Tail>)
    requires q <= |s|
    ensures r.Some? ==> q < r.value.creditsStart && TailIn(s, r.value)
  {
    TailFrom(s, q, Open)
  }

  /**
   * Where the lazy `(.+?)` whose last character so far is at q - 1 stops
   * growing: at a line break, which it cannot take, at the first end where
   * the tail matches, or at the end of the text.
   */
  function NameEnd(s: string, q: nat): (e: nat)
    requires 0 < q <= |s|
    ensures q <= e <= |s|
    ensures forall k :: q - 1 <= k < e - 1 ==> s[k] != '\n'
    decreases |s| - q
  {
    if s[q - 1] == '\n' || TailAt(s, q).Some? || q == |s| then q else NameEnd(s, q + 1)
  }

  /** The pattern tried at p: a name of at least one character, then the tail. */
  function MatchAt(s: string, p: nat): (r: Option<Match>)
    requires p < |s|
    ensures r.Some? ==> ValidMatch(s, r.value) && r.value.nameStart == p
  {
    var e := NameEnd(s, p + 1);
    if s[e - 1] == '\n' then None
    else match TailAt(s, e)
      case Some(t) => NameThenTail(s, p, e, t); Some(Match(p, e, t))
      case None => None
  }

  /** A name with no line break, ending where a tail starts, makes a valid match. */
  lemma NameThenTail(s: string, p: nat, e: nat, t: Tail)
    requires p < e <= |s| && s[e - 1] != '\n'
    requires forall k :: p <= k < e - 1 ==> s[k] != '\n'
    requires e < t.creditsStart && TailIn(s, t)
    ensures ValidMatch(s, Match(p, e, t))
  {
  }

  /** `re.findall` from p: a match where one starts, the search going on at its end; otherwise one place on. */
  function FindAll(s: string, p: nat): (r: seq<Match>)
    requires p <= |s|
    ensures forall i :: 0 <= i < |r| ==> ValidMatch(s, r[i]) && p <= r[i].nameStart
    ensures forall i, j :: 0 <= i < j < |r| ==> r[i].tail.scoreEnd <= r[j].nameStart
    decreases |s| - p
  {
    if p == |s| then []
    else match MatchAt(s, p)
      case Some(m) => var rest := FindAll(s, m.tail.scoreEnd); MatchesCons(s, p, m, rest); [m] + rest
      case None => FindAll(s, p + 1)
  }

  /** A match followed by matches that all start after it end stay valid and ordered. */
  lemma MatchesCons(s: string, p: nat, m: Match, rest: seq<Match>)
    requires ValidMatch(s, m) && p <= m.nameStart
    requires forall i :: 0 <= i < |rest| ==> ValidMatch(s, rest[i]) && m.tail.scoreEnd <= rest[i].nameStart
    requires forall i, j :: 0 <= i < j < |rest| ==> rest[i].tail.scoreEnd <= rest[j].nameStart
    ensures forall i :: 0 <= i < |[m] + rest| ==> ValidMatch(s, ([m] + rest)[i]) && p <= ([m] + rest)[i].nameStart
    ensures forall i, j :: 0 <= i < j < |[m] + rest| ==> ([m] + rest)[i].tail.scoreEnd <= ([m] + rest)[j].nameStart
  {
  }

  /** n · 10^-k, the value of the k decimals that read n. */
  function Scaled(n: nat, k: nat): real
  {
    if k == 0 then n as real else Scaled(n, k - 1) / 10.0
  }

  /** The position of the first dot at or after i, or the length when there is none. */
  function DotFrom(t: string, i: nat): (j: nat)
    requires i <= |t|
    ensures i <= j <= |t|
    ensures forall k :: i <= k < j ==> t[k] != '.'
    ensures j < |t| ==> t[j] == '.'
    decreases |t| - i
  {
    if i == |t| || t[i] == '.' then i else DotFrom(t, i + 1)
  }

  /** The first dot at or after i is determined by where the dots are. */
  lemma {:induction false} DotFromIs(t: string, i: nat, j: nat)
    requires i <= j <= |t|
    requires forall k :: i <= k < j ==> t[k] != '.'
    requires j == |t| || t[j] == '.'
    ensures DotFrom(t, i) == j
    decreases j - i
  {
    if i < j {
      DotFromIs(t, i + 1, j);
    }
  }

  /** A string of digits and dots that Python's `float` accepts: at most one dot and at least one digit. */
  predicate FloatSyntax(t: string)
  {
    && (forall i, j :: 0 <= i < j < |t| && t[i] == '.' ==> t[j] != '.')
    && (exists k :: 0 <= k < |t| && t[k] != '.')
  }

  /** `float(t)` for a string of digits and dots; `None` where it raises `ValueError`. */
  function FloatValue(t: string): (r: Option<real>)
    requires forall k :: 0 <= k < |t| ==> IsNumberChar(t[k])
  {
    var i := DotFrom(t, 0);
    if i == |t| then
      if t == [] then None
      else
        assert forall k :: 0 <= k < |t| ==> IsNumberChar(t[k]) && t[k] != '.';
        assert forall k :: 0 <= k < |t| ==> IsDigit(t[k]);
        Some(DigitsValue(t) as real)
    else
      if DotFrom(t, i + 1) < |t| then None
      else if |t| == 1 then None
      else
        var whole, frac := t[..i], t[i + 1..];
        assert forall k :: 0 <= k < i ==> IsNumberChar(t[k]) && t[k] != '.';
        assert forall k :: 0 <= k < |whole| ==> IsDigit(whole[k]);
        assert forall k :: 0 <= k < |frac| ==> IsNumberChar(t[i + 1 + k]) && frac[k] == t[i + 1 + k] && frac[k] != '.';
        assert forall k :: 0 <= k < |frac| ==> IsDigit(frac[k]);
        Some(DigitsValue(whole) as real + Scaled(DigitsValue(frac), |frac|))
  }

  /** `float` accepts exactly the strings of the syntax. */
  lemma FloatValueDefined(t: string)
    requires forall k :: 0 <= k < |t| ==> IsNumberChar(t[k])
    ensures FloatValue(t).Some? <==> FloatSyntax(t)
  {
    var i := DotFrom(t, 0);
    if i < |t| {
      var j := DotFrom(t, i + 1);
      if j < |t| {
        assert t[i] == '.' && t[j] == '.';
      } else if |t| > 1 {
        assert t[0] != '.' || t[1] != '.';
      }
    }
  }

  /** Example: `float` refuses a second dot and a dot without digits. */
  lemma FloatRejects()
    ensures FloatValue("1.2.3").None?
    ensures FloatValue(".").None?
  {
  }

  /** Example: a dot may end or begin the number. */
  lemma FloatAccepts()
    ensures FloatValue("8.5") == Some(8.5)
    ensures FloatValue(".5") == Some(0.5)
    ensures FloatValue("7.") == Some(7.0)
  {
    DotFromIs("8.5", 0, 1);
    DotFromIs("8.5", 2, 3);
    assert "8.5"[..1] == "8" && "8.5"[2..] == "5";
    assert "8"[..0] == [] && "5"[..0] == [];
    assert DigitsValue("8") == 8 && DigitsValue("5") == 5;
    assert Scaled(5, 1) == 0.5;
    DotFromIs(".5", 1, 2);
    assert ".5"[..0] == "" && ".5"[1..] == "5";
    DotFromIs("7.", 0, 1);
    assert "7."[..1] == "7" && "7."[2..] == "";
  }

  /** One record of `parse_scores_to_json`. */
  datatype ParsedScore = ParsedScore(subjectName: string, subjectCredits: nat, scoreOverRall: real)

  /** The three group texts of one match, as `re.findall` returns them. */
  datatype Groups = Groups(name: string, credits: string, score: string)

  /** The credits group holds digits and the score group digits and dots. */
  predicate GroupChars(g: Groups)
  {
    && (forall k :: 0 <= k < |g.credits| ==> IsDigit(g.credits[k]))
    && (forall k :: 0 <= k < |g.score| ==> IsNumberChar(g.score[k]))
  }

  /** The group texts of a match. */
  function GroupsOf(s: string, m: Match): (g: Groups)
    requires ValidMatch(s, m)
    ensures GroupChars(g)
  {
    Groups(s[m.nameStart..m.nameEnd], s[m.tail.creditsStart..m.tail.creditsEnd], s[m.tail.scoreStart..m.tail.scoreEnd])
  }

  /** The group texts of some matches, in order. */
  function MatchGroups(s: string, ms: seq<Match>): (gs: seq<Groups>)
    requires forall i :: 0 <= i < |ms| ==> ValidMatch(s, ms[i])
    ensures |gs| == |ms| && forall i :: 0 <= i < |gs| ==> GroupChars(gs[i])
  {
    seq(|ms|, i requires 0 <= i < |ms| => GroupsOf(s, ms[i]))
  }

  /** The record of one match: the stripped name, `int` of the credits, `float` of the score. */
  function ConvertGroups(g: Groups): (r: Option<ParsedScore>)
    requires GroupChars(g)
  {
    match FloatValue(g.score)
    case None => None
    case Some(x) => Some(ParsedScore(Strip(g.name), DigitsValue(g.credits), x))
  }

  /** The record of the groups of a match. */
  function ConvertMatch(s: string, m: Match): (r: Option<ParsedScore>)
    requires ValidMatch(s, m)
  {
    ConvertGroups(GroupsOf(s, m))
  }

  /** What converting each of some groups gives, in order. */
  function Converted(gs: seq<Groups>): (rs: seq<Option<ParsedScore>>)
    requires forall i :: 0 <= i < |gs| ==> GroupChars(gs[i])
    ensures |rs| == |gs|
  {
    seq(|gs|, i requires 0 <= i < |gs| => ConvertGroups(gs[i]))
  }

  /** All the records, or `None` when one conversion raised. */
  function AllRecords(rs: seq<Option<ParsedScore>>): (r: Option<seq<ParsedScore>>)
  {
    if forall i :: 0 <= i < |rs| ==> rs[i].Some? then
      Some(seq(|rs|, i requires 0 <= i < |rs| && rs[i].Some? => rs[i].value))
    else None
  }

  /** Conversions that all succeed give all their records. */
  lemma RecordsOfAll(rs: seq<Option<ParsedScore>>, ps: seq<ParsedScore>)
    requires |rs| == |ps| && forall i :: 0 <= i < |rs| ==> rs[i] == Some(ps[i])
    ensures AllRecords(rs) == Some(ps)
  {
    assert AllRecords(rs).value == ps;
  }

  /** The records of some groups in order, or `None` when one score makes `float` raise. */
  function GroupRecords(gs: seq<Groups>): (r: Option<seq<ParsedScore>>)
    requires forall i :: 0 <= i < |gs| ==> GroupChars(gs[i])
  {
    AllRecords(Converted(gs))
  }

  /** The records of some matches. */
  function MatchRecords(s: string, ms: seq<Match>): (r: Option<seq<ParsedScore>>)
    requires forall i :: 0 <= i < |ms| ==> ValidMatch(s, ms[i])
  {
    GroupRecords(MatchGroups(s, ms))
  }

  /** One match whose score `float` refuses leaves no records. */
  lemma FailedMatch(s: string, ms: seq<Match>, i: nat)
    requires forall k :: 0 <= k < |ms| ==> ValidMatch(s, ms[k])
    requires i < |ms| && FloatValue(GroupsOf(s, ms[i]).score).None?
    ensures MatchRecords(s, ms).None?
  {
    var rs := Converted(MatchGroups(s, ms));
    assert MatchGroups(s, ms)[i] == GroupsOf(s, ms[i]);
    assert rs[i].None?;
  }

  /** The records of every match of the text. */
  function ParsedScores(s: string): (r: Option<seq<ParsedScore>>)
  {
    MatchRecords(s, FindAll(s, 0))
  }

  /** A record as the dictionary `parse_scores_to_json` appends. */
  function ScoreObject(p: ParsedScore): (j: Json)
  {
    JObj(map["subject_name" := JStr(p.subjectName),
             "subject_credits" := JNum(p.subjectCredits as real),
             "score_over_rall" := JNum(p.scoreOverRall)])
  }

  /** `{"scores": [...]}`. */
  function ScoresDocument(ps: seq<ParsedScore>): (j: Json)
  {
    JObj(map["scores" := JArr(seq(|ps|, i requires 0 <= i < |ps| => ScoreObject(ps[i])))])
  }

  /** The document of some records, or `None` when reading them raised. */
  function RecordsDocument(r: Option<seq<ParsedScore>>): (j: Option<Json>)
  {
    match r
    case None => None
    case Some(ps) => Some(ScoresDocument(ps))
  }

  /** What parsing the text gives: the document, or `None` when it raises. */
  function TextDocument(s: string): (r: Option<Json>)
  {
    RecordsDocument(ParsedScores(s))
  }

  /** The dictionaries of the first n conversions, or `None` when one of them raised. */
  function PrefixObjects(rs: seq<Option<ParsedScore>>, n: nat): (r: Option<seq<Json>>)
    requires n <= |rs|
    ensures r.Some? ==> |r.value| == n
  {
    if n == 0 then Some([])
    else match PrefixObjects(rs, n - 1)
      case None => None
      case Some(l) =>
        match rs[n - 1]
        case None => None
        case Some(p) => Some(l + [ScoreObject(p)])
  }

  /** The first n conversions give their dictionaries exactly when none of them raised. */
  lemma {:induction false} PrefixObjectsAll(rs: seq<Option<ParsedScore>>, n: nat)
    requires n <= |rs|
    ensures PrefixObjects(rs, n).Some? <==> forall i :: 0 <= i < n ==> rs[i].Some?
    ensures PrefixObjects(rs, n).Some? ==>
              PrefixObjects(rs, n).value == seq(n, i requires 0 <= i < n && rs[i].Some? => ScoreObject(rs[i].value))
  {
    if n > 0 {
      PrefixObjectsAll(rs, n - 1);
    }
  }

  /** The dictionaries of all the conversions form the document of their records. */
  lemma AllObjects(rs: seq<Option<ParsedScore>>)
    ensures RecordsDocument(AllRecords(rs)) ==
              match PrefixObjects(rs, |rs|)
              case None => None
              case Some(l) => Some(JObj(map["scores" := JArr(l)]))
  {
    PrefixObjectsAll(rs, |rs|);
    if AllRecords(rs).Some? {
      var ps := AllRecords(rs).value;
      assert PrefixObjects(rs, |rs|).value == seq(|ps|, i requires 0 <= i < |ps| => ScoreObject(ps[i]));
    }
  }

  /** The loop of parse_scores_to_json: one dictionary per match, appended in order; `None` once `float` raises. */
  method ScoresFromGroups(gs: seq<Groups>) returns (r: Option<Json>)
    requires forall i :: 0 <= i < |gs| ==> GroupChars(gs[i])
    ensures r == RecordsDocument(GroupRecords(gs))
  {
    ghost var rs := Converted(gs);
    var scoresList: seq<Json> := [];
    for i := 0 to |gs|
      invariant PrefixObjects(rs, i) == Some(scoresList)
    {
      var record := ConvertGroups(gs[i]);
      assert record == rs[i];
      ObjectsStep(rs, i, scoresList);
      if record.None? {
        return None;
      }
      scoresList := scoresList + [ScoreObject(record.value)];
    }
    AllObjects(rs);
    r := Some(JObj(map["scores" := JArr(scoresList)]));
  }

  /** One more conversion: its dictionary is appended, or the whole document is `None`. */
  lemma ObjectsStep(rs: seq<Option<ParsedScore>>, i: nat, l: seq<Json>)
    requires i < |rs| && PrefixObjects(rs, i) == Some(l)
    ensures rs[i].None? ==> RecordsDocument(AllRecords(rs)) == None
    ensures rs[i].Some? ==> PrefixObjects(rs, i + 1) == Some(l + [ScoreObject(rs[i].value)])
  {
    if rs[i].None? {
      PrefixObjectsAll(rs, i + 1);
      PrefixObjectsAll(rs, |rs|);
      AllObjects(rs);
    }
  }

  /** parse_scores_to_json: `re.findall` over the whole text, then the loop over its group texts. */
  method ParseScoresToJson(rawText: string) returns (r: Option<Json>)
    ensures r == TextDocument(rawText)
  {
    var ms := FindAll(rawText, 0);
    r := ScoresFromGroups(MatchGroups(rawText, ms));
  }

  /** A line "name (credits tín chỉ): whole.hh" of the kind the tool's description shows. */
  datatype TextEntry = TextEntry(name: string, credits: nat, whole: nat, hundredths: nat)

  /** A name the lazy group reads back whole: stripped, on one line and without a parenthesis. */
  predicate NameText(name: string)
  {
    && name != ""
    && !IsSpace(name[0]) && !IsSpace(name[|name| - 1])
    && (forall k :: 0 <= k < |name| ==> name[k] != '\n' && name[k] != '(')
  }

  predicate WellFormedEntry(e: TextEntry)
  {
    NameText(e.name) && e.hundredths < 100
  }

  /** The score with two decimals. */
  function ScoreText(whole: nat, hundredths: nat): (t: string)
  {
    NatToString(whole) + "." + [DigitChar(hundredths / 10 % 10), DigitChar(hundredths % 10)]
  }

  /** A line written from a name, the text of the credits and the text of the score. */
  function LineOf(name: string, cr: string, sc: string): string
  {
    name + TailOf(cr, sc)
  }

  function Line(e: TextEntry): string
  {
    LineOf(e.name, NatToString(e.credits), ScoreText(e.whole, e.hundredths))
  }

  /** The record a line stands for. */
  function EntryRecord(e: TextEntry): ParsedScore
  {
    ParsedScore(e.name, e.credits, e.whole as real + e.hundredths as real / 100.0)
  }

  /** The records some lines stand for, in order. */
  function EntryRecords(es: seq<TextEntry>): (ps: seq<ParsedScore>)
    ensures |ps| == |es|
  {
    seq(|es|, i requires 0 <= i < |es| => EntryRecord(es[i]))
  }

  /** The score text is read back as its value. */
  lemma ScoreTextValue(whole: nat, hundredths: nat)
    requires hundredths < 100
    ensures forall k :: 0 <= k < |ScoreText(whole, hundredths)| ==> IsNumberChar(ScoreText(whole, hundredths)[k])
    ensures FloatValue(ScoreText(whole, hundredths)) == Some(whole as real + hundredths as real / 100.0)
  {
    var w, h := NatToString(whole), [DigitChar(hundredths / 10 % 10), DigitChar(hundredths % 10)];
    assert ScoreText(whole, hundredths) == w + "." + h;
    TwoDigits(hundredths);
    NatToStringRoundTrip(whole);
    HundredthsScaled(hundredths);
    assert DigitsValue(w) as real + Scaled(DigitsValue(h), 2) == whole as real + hundredths as real / 100.0;
    DecimalText(w, h);
  }

  /** The two decimals of the score text read back as the hundredths. */
  lemma TwoDigits(hundredths: nat)
    requires hundredths < 100
    ensures IsDigit(DigitChar(hundredths / 10 % 10)) && IsDigit(DigitChar(hundredths % 10))
    ensures DigitsValue([DigitChar(hundredths / 10 % 10), DigitChar(hundredths % 10)]) == hundredths
  {
    var d1, d0 := hundredths / 10, hundredths % 10;
    var h := [DigitChar(d1 % 10), DigitChar(d0)];
    DigitCharValue(d1);
    DigitCharValue(d0);
    assert h[..1] == [DigitChar(d1 % 10)];
    assert DigitsValue(h[..1]) == d1;
  }

  lemma HundredthsScaled(n: nat)
    ensures Scaled(n, 2) == n as real / 100.0
  {
    assert Scaled(n, 1) == n as real / 10.0;
  }

    /** Digits, a dot and digits are all characters of `[\d\.]`. */
  lemma {:induction false} DecimalChars(w: string, h: string)
    requires forall k :: 0 <= k < |w| ==> IsDigit(w[k])
    requires |h| == 2 && IsDigit(h[0]) && IsDigit(h[1])
    ensures forall k :: 0 <= k < |w + "." + h| ==> IsNumberChar((w + "." + h)[k])
    ensures forall k :: 0 <= k < |w| ==> (w + "." + h)[k] != '.'
    ensures (w + "." + h)[|w|] == '.'
  {
    var t := w + "." + h;
    forall k | 0 <= k < |t|
      ensures IsNumberChar(t[k])
      ensures k < |w| ==> t[k] != '.'
    {
      if k < |w| {
        assert t[k] == w[k];
      }
    }
  }

/** Digits, a dot and two digits read back as a number with two decimals. */
  lemma {:induction false} DecimalText(w: string, h: string)
    requires forall k :: 0 <= k < |w| ==> IsDigit(w[k])
    requires |h| == 2 && IsDigit(h[0]) && IsDigit(h[1])
    ensures forall k :: 0 <= k < |w + "." + h| ==> IsNumberChar((w + "." + h)[k])
    ensures FloatValue(w + "." + h) == Some(DigitsValue(w) as real + Scaled(DigitsValue(h), 2))
  {
    var t := w + "." + h;
    DecimalChars(w, h);
    DotFromIs(t, 0, |w|);
    DotFromIs(t, |w| + 1, |t|);
    assert t[..|w|] == w && t[|w| + 1..] == h;
  }

  /** The value of a number with one dot, at i. */
  lemma FloatValueWithDot(t: string, i: nat)
    requires forall k :: 0 <= k < |t| ==> IsNumberChar(t[k])
    requires DotFrom(t, 0) == i < |t| && DotFrom(t, i + 1) == |t| && |t| > 1
    ensures forall k :: 0 <= k < i ==> IsDigit(t[k])
    ensures forall k :: i + 1 <= k < |t| ==> IsDigit(t[k])
    ensures FloatValue(t) == Some(DigitsValue(t[..i]) as real + Scaled(DigitsValue(t[i + 1..]), |t| - i - 1))
  {
    assert forall k :: 0 <= k < i ==> IsNumberChar(t[k]) && t[k] != '.';
    var frac := t[i + 1..];
    assert forall k :: 0 <= k < |frac| ==> IsNumberChar(t[i + 1 + k]) && frac[k] == t[i + 1 + k] && frac[k] != '.';
    assert forall k :: i + 1 <= k < |t| ==> t[k] == frac[k - i - 1];
  }

  /** A dot at i after no dot is the first dot. */
  lemma FirstDotAt(t: string, i: nat)
    requires i < |t| && t[i] == '.'
    requires forall k :: 0 <= k < i ==> t[k] != '.'
    ensures DotFrom(t, 0) == i
  {
    DotFromIs(t, 0, i);
  }

  /** `s[q..r] == a + b` splits at m into its two parts. */
  lemma SplitAt(s: string, q: nat, m: nat, r: nat, a: string, b: string)
    requires m == q + |a| && r == m + |b| && r <= |s| && s[q..r] == a + b
    ensures s[q..m] == a && s[m..r] == b
  {
    assert (a + b)[..|a|] == a && (a + b)[|a|..] == b;
  }

  /*
   * The tail text read stage by stage.  Its positions are passed in: the
   * tail starts at q, the credits fill [i, c), " tín chỉ)" fills [c, u),
   * ": " fills [u, v) and the score fills [v, e).
   */

  /** `\s*:\s*([\d\.]+)` over ": " and the score. */
  lemma ScoreFromText(s: string, i: nat, c: nat, u: nat, v: nat, e: nat, sc: string)
    requires i < c <= u && v == u + 2 && e == v + |sc| && e <= |s|
    requires forall k :: i <= k < c ==> IsDigit(s[k])
    requires s[u..v] == ": " && s[v..e] == sc
    requires sc != [] && forall k :: 0 <= k < |sc| ==> IsNumberChar(sc[k])
    requires e == |s| || s[e] == '\n'
    ensures TailFrom(s, u, Score(i, c)) == Some(Tail(i, c, v, e))
  {
    ScoreRuns(s, u, v, e, sc);
  }

  /** The runs the score stage takes over ": " and the score. */
  lemma ScoreRuns(s: string, u: nat, v: nat, e: nat, sc: string)
    requires v == u + 2 && e == v + |sc| && e <= |s|
    requires s[u..v] == ": " && s[v..e] == sc
    requires sc != [] && forall k :: 0 <= k < |sc| ==> IsNumberChar(sc[k])
    requires e == |s| || s[e] == '\n'
    ensures s[u] == ':' && RunEnd(s, u, Spaces) == u
    ensures RunEnd(s, u + 1, Spaces) == v && v < e && RunEnd(s, v, DigitsAndDots) == e
  {
    assert s[u] == ':' && s[u + 1] == ' ';
    RunEndIs(s, u, u, Spaces);
    assert forall k :: 0 <= k < |sc| ==> s[v + k] == sc[k];
    assert IsNumberChar(s[v]);
    RunEndIs(s, u + 1, v, Spaces);
    RunEndIs(s, v, e, DigitsAndDots);
  }

  /** `\s*tín chỉ\)` over " tín chỉ)". */
  lemma UnitStep(s: string, i: nat, c: nat, u: nat)
    requires i < c && u == c + 9 && u <= |s|
    requires forall k :: i <= k < c ==> IsDigit(s[k])
    requires s[c..u] == " " + UnitText
    ensures TailFrom(s, c, Unit(i, c)) == TailFrom(s, u, Score(i, c))
  {
    SplitAt(s, c, c + 1, u, " ", UnitText);
    assert s[c] == ' ' && s[c + 1] == 't';
    RunEndIs(s, c, c + 1, Spaces);
    assert s[c + 1..][..|UnitText|] == UnitText;
  }

  /** `(\d+)` over the credits. */
  lemma CreditsStep(s: string, i: nat, c: nat, u: nat, cr: string)
    requires c == i + |cr| && u == c + 9 && u <= |s|
    requires s[i..c] == cr && s[c..u] == " " + UnitText
    requires cr != [] && forall k :: 0 <= k < |cr| ==> IsDigit(cr[k])
    ensures forall k :: i <= k < c ==> IsDigit(s[k])
    ensures TailFrom(s, i, Credits) == TailFrom(s, c, Unit(i, c))
  {
    assert s[c] == ' ';
    assert forall k :: i <= k < c ==> s[k] == cr[k - i];
    RunEndIs(s, i, c, Digits);
  }

  /** `\s*\(` over " (". */
  lemma TailStep(s: string, q: nat, i: nat)
    requires i == q + 2 && i <= |s| && s[q..i] == " ("
    ensures TailAt(s, q) == TailFrom(s, i, Credits)
  {
    assert s[q] == ' ' && s[q + 1] == '(';
    RunEndIs(s, q, q + 1, Spaces);
  }

  /** The text after a name: " (" credits " tín chỉ): " score. */
  function TailOf(cr: string, sc: string): string
  {
    " (" + cr + " " + UnitText + ": " + sc
  }

  /** A slice of a slice. */
  lemma SubSlice(s: string, q: nat, t: string, a: nat, b: nat)
    requires q + |t| <= |s| && s[q..q + |t|] == t
    requires a <= b <= |t|
    ensures s[q + a..q + b] == t[a..b]
  {
    assert forall k :: 0 <= k < b - a ==> s[q + a..q + b][k] == s[q + a + k] == t[a..b][k];
  }

  /** The five pieces of a tail text, at their positions. */
  lemma TailPieces(s: string, q: nat, i: nat, c: nat, u: nat, v: nat, e: nat, cr: string, sc: string)
    requires i == q + 2 && c == i + |cr| && u == c + 9 && v == u + 2 && e == v + |sc| && e <= |s|
    requires s[q..e] == TailOf(cr, sc)
    ensures s[q..i] == " (" && s[i..c] == cr && s[c..u] == " " + UnitText
    ensures s[u..v] == ": " && s[v..e] == sc
  {
    var t := TailOf(cr, sc);
    var n := |cr|;
    assert t[0..2] == " (";
    assert t[2..2 + n] == cr;
    assert t[2 + n..11 + n] == " " + UnitText;
    assert t[11 + n..13 + n] == ": ";
    assert t[13 + n..] == sc;
    SubSlice(s, q, t, 0, 2);
    SubSlice(s, q, t, 2, 2 + n);
    SubSlice(s, q, t, 2 + n, 11 + n);
    SubSlice(s, q, t, 11 + n, 13 + n);
    SubSlice(s, q, t, 13 + n, |t|);
  }

  /** " tín chỉ)", then the score. */
  lemma UnitFromText(s: string, i: nat, c: nat, u: nat, v: nat, e: nat, sc: string)
    requires i < c && u == c + 9 && v == u + 2 && e == v + |sc| && e <= |s|
    requires forall k :: i <= k < c ==> IsDigit(s[k])
    requires s[c..u] == " " + UnitText
    requires s[u..v] == ": " && s[v..e] == sc
    requires sc != [] && forall k :: 0 <= k < |sc| ==> IsNumberChar(sc[k])
    requires e == |s| || s[e] == '\n'
    ensures TailFrom(s, c, Unit(i, c)) == Some(Tail(i, c, v, e))
  {
    UnitStep(s, i, c, u);
    ScoreFromText(s, i, c, u, v, e, sc);
  }

  /** The credits, " tín chỉ)", then the score. */
  lemma CreditsFromText(s: string, i: nat, c: nat, u: nat, v: nat, e: nat, cr: string, sc: string)
    requires c == i + |cr| && u == c + 9 && v == u + 2 && e == v + |sc| && e <= |s|
    requires cr != [] && forall k :: 0 <= k < |cr| ==> IsDigit(cr[k])
    requires s[i..c] == cr && s[c..u] == " " + UnitText
    requires s[u..v] == ": " && s[v..e] == sc
    requires sc != [] && forall k :: 0 <= k < |sc| ==> IsNumberChar(sc[k])
    requires e == |s| || s[e] == '\n'
    ensures TailFrom(s, i, Credits) == Some(Tail(i, c, v, e))
  {
    CreditsStep(s, i, c, u, cr);
    UnitFromText(s, i, c, u, v, e, sc);
  }

  /** " (", the credits, " tín chỉ)", then the score. */
  lemma TailOfPieces(s: string, q: nat, i: nat, c: nat, u: nat, v: nat, e: nat, cr: string, sc: string)
    requires i == q + 2 && c == i + |cr| && u == c + 9 && v == u + 2 && e == v + |sc| && e <= |s|
    requires cr != [] && forall k :: 0 <= k < |cr| ==> IsDigit(cr[k])
    requires s[q..i] == " (" && s[i..c] == cr && s[c..u] == " " + UnitText
    requires s[u..v] == ": " && s[v..e] == sc
    requires sc != [] && forall k :: 0 <= k < |sc| ==> IsNumberChar(sc[k])
    requires e == |s| || s[e] == '\n'
    ensures TailAt(s, q) == Some(Tail(i, c, v, e))
  {
    TailStep(s, q, i);
    CreditsFromText(s, i, c, u, v, e, cr, sc);
  }

  /** A tail text is matched where it begins, its groups being the credits and the score. */
  lemma TailOfText(s: string, q: nat, c: nat, e: nat, cr: string, sc: string)
    requires cr != [] && forall k :: 0 <= k < |cr| ==> IsDigit(cr[k])
    requires sc != [] && forall k :: 0 <= k < |sc| ==> IsNumberChar(sc[k])
    requires c == q + 2 + |cr| && e == c + 11 + |sc| && e <= |s| && s[q..e] == TailOf(cr, sc)
    requires e == |s| || s[e] == '\n'
    ensures TailAt(s, q) == Some(Tail(q + 2, c, c + 11, e))
    ensures s[q + 2..c] == cr && s[c + 11..e] == sc
  {
    TailPieces(s, q, q + 2, c, c + 9, c + 11, e, cr, sc);
    TailOfPieces(s, q, q + 2, c, c + 9, c + 11, e, cr, sc);
  }

  /** Inside a stripped name without a parenthesis no tail can start. */
  lemma NoTailInsideName(s: string, q: nat, nameEnd: nat)
    requires q < nameEnd <= |s|
    requires !IsSpace(s[nameEnd - 1])
    requires forall k :: q <= k < nameEnd ==> s[k] != '('
    ensures TailAt(s, q).None?
  {
  }

  /** The lazy group grows over the whole name and stops there. */
  lemma {:induction false} NameEndIs(s: string, q: nat, nameEnd: nat)
    requires 0 < q <= nameEnd <= |s|
    requires !IsSpace(s[nameEnd - 1])
    requires forall k :: q - 1 <= k < nameEnd ==> s[k] != '\n' && s[k] != '('
    requires TailAt(s, nameEnd).Some?
    ensures NameEnd(s, q) == nameEnd
    decreases nameEnd - q
  {
    if q < nameEnd {
      NoTailInsideName(s, q, nameEnd);
      NameEndIs(s, q + 1, nameEnd);
    }
  }

  /** Where the lazy group stops and the tail there make the match at p. */
  lemma NameSearch(s: string, p: nat, nameEnd: nat, t: Tail)
    requires p < nameEnd <= |s| && NameEnd(s, p + 1) == nameEnd
    requires s[nameEnd - 1] != '\n' && TailAt(s, nameEnd) == Some(t)
    ensures MatchAt(s, p) == Some(Match(p, nameEnd, t))
  {
  }

  /** A stripped name is its own `strip()`. */
  lemma StrippedName(name: string)
    requires name != "" && !IsSpace(name[0]) && !IsSpace(name[|name| - 1])
    ensures Strip(name) == name
  {
    assert TrimLeft(name) == name;
  }

  /** A well-formed name at [p, q), followed by a tail, is the name group of the match at p. */
  lemma NameGroup(s: string, p: nat, q: nat, t: Tail, name: string)
    requires NameText(name)
    requires q == p + |name| && q <= |s| && s[p..q] == name
    requires TailAt(s, q) == Some(t)
    ensures NameEnd(s, p + 1) == q && ValidMatch(s, Match(p, q, t))
  {
    assert forall k :: p <= k < q ==> s[k] == name[k - p];
    NameEndIs(s, p + 1, q);
    NameThenTail(s, p, q, t);
  }

  /** A line at p, up to a line break or the end of the text, is the match at p, with the groups at their places. */
  lemma LineGroups(s: string, p: nat, q: nat, c: nat, end: nat, name: string, cr: string, sc: string)
    requires NameText(name)
    requires cr != [] && forall k :: 0 <= k < |cr| ==> IsDigit(cr[k])
    requires sc != [] && forall k :: 0 <= k < |sc| ==> IsNumberChar(sc[k])
    requires q == p + |name| && c == q + 2 + |cr| && end == c + 11 + |sc| && end <= |s|
    requires s[p..end] == LineOf(name, cr, sc)
    requires end == |s| || s[end] == '\n'
    ensures NameEnd(s, p + 1) == q && TailAt(s, q) == Some(Tail(q + 2, c, c + 11, end))
    ensures ValidMatch(s, Match(p, q, Tail(q + 2, c, c + 11, end)))
    ensures s[p..q] == name && s[q + 2..c] == cr && s[c + 11..end] == sc
  {
    SplitAt(s, p, q, end, name, TailOf(cr, sc));
    TailOfText(s, q, c, end, cr, sc);
    NameGroup(s, p, q, Tail(q + 2, c, c + 11, end), name);
  }

  /** The groups of a match convert to the name, the value of the credits and the value of the score. */
  lemma GroupsConvert(s: string, m: Match, name: string, cr: string, sc: string, credits: nat, score: real)
    requires ValidMatch(s, m) && NameText(name)
    requires s[m.nameStart..m.nameEnd] == name
    requires s[m.tail.creditsStart..m.tail.creditsEnd] == cr && DigitsValue(cr) == credits
    requires s[m.tail.scoreStart..m.tail.scoreEnd] == sc
    requires forall k :: 0 <= k < |sc| ==> IsNumberChar(sc[k])
    requires FloatValue(sc) == Some(score)
    ensures ConvertMatch(s, m) == Some(ParsedScore(name, credits, score))
  {
    StrippedName(name);
  }

  /** The score text is not empty and holds only digits and dots. */
  lemma ScoreTextChars(whole: nat, hundredths: nat)
    ensures ScoreText(whole, hundredths) != []
    ensures forall k :: 0 <= k < |ScoreText(whole, hundredths)| ==> IsNumberChar(ScoreText(whole, hundredths)[k])
  {
    var w, t := NatToString(whole), ScoreText(whole, hundredths);
    DigitCharValue(hundredths / 10 % 10);
    DigitCharValue(hundredths % 10);
    forall k | 0 <= k < |t|
      ensures IsNumberChar(t[k])
    {
      if k < |w| {
        assert t[k] == w[k];
      }
    }
  }

  /** Where the groups of the match of the line of e at p lie. */
  function LineMatchOf(p: nat, e: TextEntry): Match
  {
    var q := p + |e.name|;
    var c := q + 2 + |NatToString(e.credits)|;
    Match(p, q, Tail(q + 2, c, c + 11, c + 11 + |ScoreText(e.whole, e.hundredths)|))
  }

  /** The name, credits and score groups of m hold the name, the credits and the score text of e. */
  predicate GroupTexts(s: string, m: Match, e: TextEntry)
    requires ValidMatch(s, m)
  {
    && s[m.nameStart..m.nameEnd] == e.name
    && s[m.tail.creditsStart..m.tail.creditsEnd] == NatToString(e.credits)
    && s[m.tail.scoreStart..m.tail.scoreEnd] == ScoreText(e.whole, e.hundredths)
  }

  /** A well-formed line at p, ended by a line break or the end of the text, is one match whose groups hold its parts. */
  lemma LineMatch(s: string, p: nat, end: nat, e: TextEntry) returns (m: Match)
    requires WellFormedEntry(e)
    requires end == p + |Line(e)| && end <= |s| && s[p..end] == Line(e)
    requires end == |s| || s[end] == '\n'
    ensures m == LineMatchOf(p, e) && m.tail.scoreEnd == end
    ensures NameEnd(s, p + 1) == m.nameEnd && TailAt(s, m.nameEnd) == Some(m.tail)
    ensures ValidMatch(s, m) && GroupTexts(s, m, e)
  {
    var cr, sc := NatToString(e.credits), ScoreText(e.whole, e.hundredths);
    ScoreTextChars(e.whole, e.hundredths);
    var q := p + |e.name|;
    var c := q + 2 + |cr|;
    assert |Line(e)| == |e.name| + 2 + |cr| + 11 + |sc|;
    m := Match(p, q, Tail(q + 2, c, c + 11, end));
    LineGroups(s, p, q, c, end, e.name, cr, sc);
    assert s[p..q] == e.name && s[q + 2..c] == cr && s[c + 11..end] == sc;
  }

  /** Groups that hold the parts of a well-formed line convert to its record. */
  lemma GroupsRecord(s: string, m: Match, e: TextEntry)
    requires WellFormedEntry(e) && ValidMatch(s, m) && GroupTexts(s, m, e)
    ensures ConvertMatch(s, m) == Some(EntryRecord(e))
  {
    var score := e.whole as real + e.hundredths as real / 100.0;
    assert EntryRecord(e) == ParsedScore(e.name, e.credits, score);
    ScoreTextValue(e.whole, e.hundredths);
    NatToStringRoundTrip(e.credits);
    GroupsConvert(s, m, e.name, NatToString(e.credits), ScoreText(e.whole, e.hundredths), e.credits, score);
  }

  /** The lines of some entries. */
  function Lines(es: seq<TextEntry>): (r: seq<string>)
    ensures |r| == |es|
  {
    seq(|es|, i requires 0 <= i < |es| => Line(es[i]))
  }

  lemma LinesTail(es: seq<TextEntry>)
    requires es != []
    ensures Lines(es)[1..] == Lines(es[1..])
  {
  }

  /** Where a match is found, `findall` goes on at its end. */
  lemma FindAllAfterMatch(s: string, p: nat, m: Match, end: nat)
    requires p < |s| && MatchAt(s, p) == Some(m) && end == m.tail.scoreEnd
    ensures FindAll(s, p) == [m] + FindAll(s, end)
  {
  }

  /** Nothing is found at the end of the text. */
  lemma FindAllAtEnd(s: string)
    ensures FindAll(s, |s|) == []
  {
  }

  /** No match starts at a line break: the name group needs a character other than one. */
  lemma FindAllSkipsBreak(s: string, q: nat)
    requires q < |s| && s[q] == '\n'
    ensures FindAll(s, q) == FindAll(s, q + 1)
  {
    assert NameEnd(s, q + 1) == q + 1;
  }

  /** The first line of a joined text, and what follows it. */
  lemma FirstLine(s: string, p: nat, end: nat, ls: seq<string>)
    requires |ls| > 0 && p <= |s| && s[p..] == Join(ls, "\n") && end == p + |ls[0]|
    ensures end <= |s| && s[p..end] == ls[0]
    ensures |ls| == 1 ==> end == |s|
    ensures |ls| > 1 ==> end < |s| && s[end] == '\n' && s[end + 1..] == Join(ls[1..], "\n")
  {
    if |ls| > 1 {
      assert s[p..] == ls[0] + "\n" + Join(ls[1..], "\n");
      assert s[p..][..|ls[0]|] == ls[0];
      assert s[p..][|ls[0]| + 1..] == Join(ls[1..], "\n");
    }
  }

  /** The matches `ms` are, one for one, matches whose groups hold the parts of the entries `es`. */
  predicate ReadBack(s: string, ms: seq<Match>, es: seq<TextEntry>)
  {
    && |ms| == |es|
    && forall i :: 0 <= i < |ms| ==> ValidMatch(s, ms[i]) && GroupTexts(s, ms[i], es[i])
  }

  lemma ReadBackSame(s: string, ms: seq<Match>, ms': seq<Match>, es: seq<TextEntry>)
    requires ReadBack(s, ms, es) && ms' == ms
    ensures ReadBack(s, ms', es)
  {
  }

  lemma ReadBackCons(s: string, m: Match, ms: seq<Match>, e: TextEntry, es: seq<TextEntry>)
    requires ValidMatch(s, m) && GroupTexts(s, m, e)
    requires ReadBack(s, ms, es)
    ensures ReadBack(s, [m] + ms, [e] + es)
  {
    assert forall i :: 0 < i <= |ms| ==> ([m] + ms)[i] == ms[i - 1] && ([e] + es)[i] == es[i - 1];
  }

  /** The first line of a text of well-formed lines is its first match; the search goes on at the end of that line. */
  lemma FirstLineMatch(s: string, p: nat, es: seq<TextEntry>) returns (m: Match, end: nat)
    requires |es| > 0 && forall i :: 0 <= i < |es| ==> WellFormedEntry(es[i])
    requires p <= |s| && s[p..] == Join(Lines(es), "\n")
    ensures p < end <= |s| && FindAll(s, p) == [m] + FindAll(s, end)
    ensures ValidMatch(s, m) && GroupTexts(s, m, es[0])
    ensures |es| == 1 ==> end == |s|
    ensures |es| > 1 ==> end < |s| && s[end] == '\n' && s[end + 1..] == Join(Lines(es[1..]), "\n")
  {
    end := p + |Line(es[0])|;
    FirstLine(s, p, end, Lines(es));
    m := LineMatch(s, p, end, es[0]);
    NameSearch(s, p, m.nameEnd, m.tail);
    FindAllAfterMatch(s, p, m, end);
    LinesTail(es);
  }

  /** After a line that a line break ends, the search goes on after the break, at next. */
  lemma NextLine(s: string, p: nat, end: nat, next: nat, m: Match, rest: string)
    requires next == end + 1 && p <= end < |s| && s[end] == '\n' && FindAll(s, p) == [m] + FindAll(s, end)
    requires s[end + 1..] == rest
    ensures FindAll(s, p) == [m] + FindAll(s, next) && s[next..] == rest
  {
    FindAllSkipsBreak(s, end);
  }

  /** A text of one well-formed line is one match. */
  lemma OnlyLine(s: string, p: nat, es: seq<TextEntry>) returns (m: Match, next: nat)
    requires |es| == 1 && WellFormedEntry(es[0])
    requires p <= |s| && s[p..] == Join(Lines(es), "\n")
    ensures next <= |s| && FindAll(s, p) == [m] + FindAll(s, next)
    ensures ValidMatch(s, m) && GroupTexts(s, m, es[0])
    ensures s[next..] == Join(Lines(es[1..]), "\n")
  {
    m, next := FirstLineMatch(s, p, es);
    assert Lines(es[1..]) == [];
  }

  /** The first of several well-formed lines is one match; the search goes on after the line break that ends it. */
  lemma FirstOfLines(s: string, p: nat, es: seq<TextEntry>) returns (m: Match, next: nat)
    requires |es| > 1 && forall i :: 0 <= i < |es| ==> WellFormedEntry(es[i])
    requires p <= |s| && s[p..] == Join(Lines(es), "\n")
    ensures next <= |s| && FindAll(s, p) == [m] + FindAll(s, next)
    ensures ValidMatch(s, m) && GroupTexts(s, m, es[0])
    ensures s[next..] == Join(Lines(es[1..]), "\n")
  {
    var end;
    m, end := FirstLineMatch(s, p, es);
    next := end + 1;
    NextLine(s, p, end, next, m, Join(Lines(es[1..]), "\n"));
  }

  /** The first match of a text of well-formed lines, and where the search for the other lines goes on. */
  lemma FirstLineThenRest(s: string, p: nat, es: seq<TextEntry>) returns (m: Match, next: nat)
    requires |es| > 0 && forall i :: 0 <= i < |es| ==> WellFormedEntry(es[i])
    requires p <= |s| && s[p..] == Join(Lines(es), "\n")
    ensures next <= |s| && FindAll(s, p) == [m] + FindAll(s, next)
    ensures ValidMatch(s, m) && GroupTexts(s, m, es[0])
    ensures s[next..] == Join(Lines(es[1..]), "\n")
  {
    if |es| == 1 {
      m, next := OnlyLine(s, p, es);
    } else {
      m, next := FirstOfLines(s, p, es);
    }
  }

  /** The matches of a text of well-formed lines, from p on, are one per line, holding its parts. */
  lemma {:induction false} LinesMatch(s: string, p: nat, es: seq<TextEntry>)
    requires forall i :: 0 <= i < |es| ==> WellFormedEntry(es[i])
    requires p <= |s| && s[p..] == Join(Lines(es), "\n")
    ensures ReadBack(s, FindAll(s, p), es)
    decreases |es|
  {
    if es == [] {
      assert |s[p..]| == 0;
    } else {
      var m, next := FirstLineThenRest(s, p, es);
      LinesMatch(s, next, es[1..]);
      ReadBackCons(s, m, FindAll(s, next), es[0], es[1..]);
      assert es == [es[0]] + es[1..];
    }
  }

  /** Matches whose groups hold the parts of well-formed lines convert to the records of those lines. */
  lemma ReadBackRecords(s: string, ms: seq<Match>, es: seq<TextEntry>)
    requires forall i :: 0 <= i < |es| ==> WellFormedEntry(es[i])
    requires ReadBack(s, ms, es)
    ensures MatchRecords(s, ms) == Some(EntryRecords(es))
  {
    var rs := Converted(MatchGroups(s, ms));
    var ps := EntryRecords(es);
    forall i | 0 <= i < |ms|
      ensures rs[i] == Some(ps[i])
    {
      assert MatchGroups(s, ms)[i] == GroupsOf(s, ms[i]);
      GroupsRecord(s, ms[i], es[i]);
    }
    RecordsOfAll(rs, ps);
  }

  /** Text made of well-formed lines, one per line, parses back to their records in order. */
  lemma TextRoundTrip(es: seq<TextEntry>)
    requires forall i :: 0 <= i < |es| ==> WellFormedEntry(es[i])
    ensures ParsedScores(Join(Lines(es), "\n")) == Some(EntryRecords(es))
  {
    var s := Join(Lines(es), "\n");
    assert s[0..] == s;
    LinesMatch(s, 0, es);
    ReadBackRecords(s, FindAll(s, 0), es);
  }

  /** A number of Python: an int, a float or a bool. */
  function Numeric(j: Json): (r: Option<real>)
    ensures r.Some? <==> j.JNum? || j.JBool?
  {
    match j
    case JNum(n) => Some(n)
    case JBool(b) => Some(if b then 1.0 else 0.0)
    case _ => None
  }

  const ScoreKey: string := "score_over_rall"
  const CreditsKey: string := "subject_credits"

  /** An entry `s` for which `s["score_over_rall"] * s["subject_credits"]` is a number. */
  predicate IsEntry(e: Json)
  {
    && e.JObj?
    && ScoreKey in e.fields && Numeric(e.fields[ScoreKey]).Some?
    && CreditsKey in e.fields && Numeric(e.fields[CreditsKey]).Some?
  }

  function EntryScores(items: seq<Json>): (r: seq<real>)
    requires forall i :: 0 <= i < |items| ==> IsEntry(items[i])
    ensures |r| == |items|
  {
    seq(|items|, i requires 0 <= i < |items| => assert IsEntry(items[i]); Numeric(items[i].fields[ScoreKey]).value)
  }

  function EntryCredits(items: seq<Json>): (r: seq<real>)
    requires forall i :: 0 <= i < |items| ==> IsEntry(items[i])
    ensures |r| == |items|
  {
    seq(|items|, i requires 0 <= i < |items| => assert IsEntry(items[i]); Numeric(items[i].fields[CreditsKey]).value)
  }

  /** What `data["scores"]` gives after the guard: absent or falsy, a value, or an exception. */
  datatype Lookup = Missing | Found(value: Json) | Raises

  /**
   * `"scores" not in data or not data["scores"]`: a key test on an object,
   * an element test on a list, a substring test on a string (the two
   * latter raise once the test succeeds and the value is indexed), and an
   * exception for a number, a bool or null.
   */
  function ScoresField(data: Json): (r: Lookup)
    ensures r.Found? <==> data.JObj? && "scores" in data.fields && Truthy(data.fields["scores"])
    ensures r.Found? ==> r.value == data.fields["scores"]
  {
    match data
    case JObj(m) => if "scores" in m && Truthy(m["scores"]) then Found(m["scores"]) else Missing
    case JArr(xs) => if JStr("scores") in xs then Raises else Missing
    case JStr(t) => if IsSubstring("scores", t) then Raises else Missing
    case _ => Raises
  }

  /** The tool's reply; the averages object is empty in all but the last case. */
  datatype AveragesReply =
    | NoScores
    | ZeroCredits
    | Averaged(averageScore: real, totalCredits: real)
    | Failed

  /** The averages of a decoded or parsed document. */
  function AveragesOf(data: Json): (r: AveragesReply)
    ensures r.NoScores? <==> ScoresField(data).Missing?
    ensures (r.ZeroCredits? || r.Averaged?) <==>
      && ScoresField(data).Found?
      && ScoresField(data).value.JArr?
      && (forall i :: 0 <= i < |ScoresField(data).value.items| ==> IsEntry(ScoresField(data).value.items[i]))
    ensures r.ZeroCredits? ==> Sum(EntryCredits(data.fields["scores"].items)) == 0.0
    ensures r.Averaged? ==>
      var items := data.fields["scores"].items;
      && r.totalCredits == Sum(EntryCredits(items)) != 0.0
      && r.averageScore == Dot(EntryScores(items), EntryCredits(items)) / r.totalCredits
  {
    match ScoresField(data)
    case Missing => NoScores
    case Raises => Failed
    case Found(v) =>
      if v.JArr? && forall i :: 0 <= i < |v.items| ==> IsEntry(v.items[i]) then
        var total := Sum(EntryCredits(v.items));
        if total == 0.0 then ZeroCredits
        else Averaged(Dot(EntryScores(v.items), EntryCredits(v.items)) / total, total)
      else Failed
  }

  /**
   * calculate_average_scores: `decode` stands for `json.loads`, `None`
   * where it raises `JSONDecodeError`, in which case the text is parsed.
   */
  function CalculateAverageScores(input: string, decode: string -> Option<Json>): (r: AveragesReply)
    ensures decode(input).Some? ==> r == AveragesOf(decode(input).value)
    ensures decode(input).None? && TextDocument(input).None? ==> r.Failed?
  {
    match decode(input)
    case Some(data) => AveragesOf(data)
    case None =>
      match TextDocument(input)
      case None => Failed
      case Some(data) => AveragesOf(data)
  }

  function ReplyMessage(r: AveragesReply): string
  {
    match r
    case NoScores => "No scores data provided"
    case ZeroCredits => "Total credits is zero, cannot calculate average"
    case Averaged(_, _) => "Average scores calculated successfully"
    case Failed => "Error calculating averages: "
  }

  /** The reply as the object the tool serialises. */
  function ReplyDocument(r: AveragesReply): (j: Json)
    ensures j.JObj? && j.fields.Keys == {"averages", "message"}
    ensures j.fields["averages"] == JObj(map[]) <==> !r.Averaged?
    ensures j.fields["message"] == JStr(ReplyMessage(r))
  {
    var averages :=
      if r.Averaged? then
        var fields := map["average_score" := JNum(r.averageScore), "total_credits" := JNum(r.totalCredits)];
        assert "average_score" in fields;
        JObj(fields)
      else JObj(map[]);
    JObj(map["averages" := averages, "message" := JStr(ReplyMessage(r))])
  }

  /** The scores and the credits of entries read back from text. */
  function RecordScores(ps: seq<ParsedScore>): (r: seq<real>)
    ensures |r| == |ps|
  {
    seq(|ps|, i requires 0 <= i < |ps| => ps[i].scoreOverRall)
  }

  function RecordCredits(ps: seq<ParsedScore>): (r: seq<real>)
    ensures |r| == |ps|
  {
    seq(|ps|, i requires 0 <= i < |ps| => ps[i].subjectCredits as real)
  }

  /** The averages of parsed records are those of their scores weighted by their credits. */
  lemma DocumentAverages(ps: seq<ParsedScore>)
    ensures var r := AveragesOf(ScoresDocument(ps));
      && (ps == [] ==> r.NoScores?)
      && (ps != [] && Sum(RecordCredits(ps)) == 0.0 ==> r.ZeroCredits?)
      && (ps != [] && Sum(RecordCredits(ps)) != 0.0 ==>
            r.Averaged?
            && r.totalCredits == Sum(RecordCredits(ps))
            && r.averageScore == Dot(RecordScores(ps), RecordCredits(ps)) / r.totalCredits)
  {
    var items := ScoresDocument(ps).fields["scores"].items;
    assert |items| == |ps|;
    forall i | 0 <= i < |items|
      ensures IsEntry(items[i])
      ensures Numeric(items[i].fields[ScoreKey]).value == ps[i].scoreOverRall
      ensures Numeric(items[i].fields[CreditsKey]).value == ps[i].subjectCredits as real
    {
      assert items[i] == ScoreObject(ps[i]);
    }
    assert EntryScores(items) == RecordScores(ps);
    assert EntryCredits(items) == RecordCredits(ps);
    if ps != [] {
      assert Truthy(JArr(items));
    }
  }

  /** A reply with the averages of some records, in terms of their scores and credits. */
  lemma RecordsReply(r: AveragesReply, ps: seq<ParsedScore>)
    requires ps != [] && r == AveragesOf(ScoresDocument(ps))
    ensures Sum(RecordCredits(ps)) == 0.0 ==> r.ZeroCredits?
    ensures Sum(RecordCredits(ps)) != 0.0 ==>
              r.Averaged?
              && r.totalCredits == Sum(RecordCredits(ps))
              && r.averageScore == Dot(RecordScores(ps), RecordCredits(ps)) / r.totalCredits
  {
    DocumentAverages(ps);
  }

  /** Text that is not JSON is answered with the averages of the records parsed from it. */
  lemma TextReply(s: string, decode: string -> Option<Json>, ps: seq<ParsedScore>)
    requires decode(s).None? && ParsedScores(s) == Some(ps)
    ensures CalculateAverageScores(s, decode) == AveragesOf(ScoresDocument(ps))
  {
  }

  /**
   * Text that is not JSON, made of well-formed lines,
   * gets the credit-weighted average of the scores its lines show.
   */
  lemma TextAverages(es: seq<TextEntry>, decode: string -> Option<Json>)
    requires forall i :: 0 <= i < |es| ==> WellFormedEntry(es[i])
    requires decode(Join(Lines(es), "\n")).None?
    requires es != []
    ensures var ps := EntryRecords(es);
      var r := CalculateAverageScores(Join(Lines(es), "\n"), decode);
      && (Sum(RecordCredits(ps)) == 0.0 ==> r.ZeroCredits?)
      && (Sum(RecordCredits(ps)) != 0.0 ==>
            r.Averaged?
            && r.totalCredits == Sum(RecordCredits(ps))
            && r.averageScore == Dot(RecordScores(ps), RecordCredits(ps)) / r.totalCredits)
  {
    var ps := EntryRecords(es);
    var s := Join(Lines(es), "\n");
    TextRoundTrip(es);
    TextReply(s, decode, ps);
    RecordsReply(CalculateAverageScores(s, decode), ps);
  }

  /** Text without a single match, when it is not JSON, has no scores. */
  lemma NoMatchNoScores(input: string, decode: string -> Option<Json>)
    requires decode(input).None? && FindAll(input, 0) == []
    ensures CalculateAverageScores(input, decode) == NoScores
  {
    DocumentAverages([]);
  }

  /** One score `float` refuses, such as "1.2.3", makes the whole reply an error. */
  lemma BadScoreFails(input: string, decode: string -> Option<Json>, i: nat)
    requires decode(input).None?
    requires i < |FindAll(input, 0)|
    requires var m := FindAll(input, 0)[i]; !FloatSyntax(input[m.tail.scoreStart..m.tail.scoreEnd])
    ensures CalculateAverageScores(input, decode) == Failed
  {
    var ms := FindAll(input, 0);
    var t := input[ms[i].tail.scoreStart..ms[i].tail.scoreEnd];
    FloatValueDefined(t);
    FailedMatch(input, ms, i);
  }

  /**
   * With every score between 0 and m and no negative credits, the average
   * lies between 0 and m.
   */
  lemma AverageOnScale(data: Json, m: real)
    requires AveragesOf(data).Averaged?
    requires var items := data.fields["scores"].items;
      forall i :: 0 <= i < |items| ==> 0.0 <= EntryScores(items)[i] <= m && EntryCredits(items)[i] >= 0.0
    ensures 0.0 <= AveragesOf(data).averageScore <= m
  {
    var items := data.fields["scores"].items;
    var r := AveragesOf(data);
    DotBounds(EntryScores(items), EntryCredits(items), m);
    SumNonNegative(EntryCredits(items));
    MeanBounds(r.averageScore, r.totalCredits, Dot(EntryScores(items), EntryCredits(items)), m);
  }
}
