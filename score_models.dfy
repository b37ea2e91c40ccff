/**
 * The score records of score/models.py and the semester-format check that
 * score/models.py, score/score_tool.py and score/calculate_gpa_from_db.py
 * each repeat, differing only in the highest term they allow and in the
 * message they raise.
 */
module ScoreModels {
  import opened Common
  import opened Messages

  datatype Subject = Subject(subjectId: int, subjectName: string, subjectCredits: Option<int>)

  datatype Student = Student(studentCode: string, studentName: string, studentClass: Option<string>)

  /** One score; only the student code and the subject id are required. */
  datatype Score = Score(
    scoreText: Option<string>,
    scoreFirst: Option<real>,
    scoreSecond: Option<real>,
    scoreFinal: Option<real>,
    scoreOverall: Option<real>,
    semester: Option<string>,
    studentCode: string,
    subjectId: int)

  /** A score together with its subject and its student. */
  datatype ScoreWithDetails = ScoreWithDetails(score: Score, subject: Subject, student: Student)

  /** The filters a score query takes; each one may be absent. */
  datatype ScoreFilter = ScoreFilter(studentCode: Option<string>, semester: Option<string>, subjectId: Option<int>)

  /** Python truthiness of an optional string: present and not empty. */
  predicate HasText(s: Option<string>)
  {
    s.Some? && s.value != ""
  }

  /** Python truthiness of an optional integer: present and not zero. */
  predicate HasId(n: Option<int>)
  {
    n.Some? && n.value != 0
  }

  /** `Score(student_code=..., subject_id=...)`: every optional field defaults to `None`. */
  function NewScore(studentCode: string, subjectId: int): (r: Score)
    ensures r.studentCode == studentCode && r.subjectId == subjectId
    ensures r.scoreText.None? && r.semester.None?
    ensures r.scoreFirst.None? && r.scoreSecond.None? && r.scoreFinal.None? && r.scoreOverall.None?
  {
    Score(None, None, None, None, None, None, studentCode, subjectId)
  }

  predicate AllDigits(s: string)
  {
    forall i :: 0 <= i < |s| ==> IsDigit(s[i])
  }

  /** `[1-m]-\d{4}-\d{4}` filling the whole of `t`. */
  predicate TermAndYears(t: string, maxTerm: char)
  {
    && |t| == 11
    && '1' <= t[0] <= maxTerm
    && t[1] == '-' && AllDigits(t[2..6])
    && t[6] == '-' && AllDigits(t[7..11])
  }

  /** `(ki|k)[1-m]-\d{4}-\d{4}` filling the whole of `s`. */
  predicate SemesterBody(s: string, maxTerm: char)
  {
    || (|s| >= 2 && s[..2] == "ki" && TermAndYears(s[2..], maxTerm))
    || (|s| >= 1 && s[0] == 'k' && TermAndYears(s[1..], maxTerm))
  }

  /**
   * `re.match(r"^(ki|k)[1-m]-\d{4}-\d{4}$", s)`: Python's `$` matches at
   * the end of the string and also just before a final newline.
   */
  predicate MatchesSemester(s: string, maxTerm: char)
  {
    || SemesterBody(s, maxTerm)
    || (|s| > 0 && s[|s| - 1] == '\n' && SemesterBody(s[..|s| - 1], maxTerm))
  }

  /** A year written with four digits, zero-padded. */
  function Year(y: nat): (r: string)
    requires y < 10000
    ensures |r| == 4 && AllDigits(r)
  {
    [DigitChar(y / 1000), DigitChar(y / 100 % 10), DigitChar(y / 10 % 10), DigitChar(y % 10)]
  }

  /** The name of a semester: "ki1-2024-2025", "k2-2024-2025", ... */
  function SemesterName(ki: bool, term: nat, from: nat, to: nat): (r: string)
    requires 1 <= term <= 9 && from < 10000 && to < 10000
  {
    (if ki then "ki" else "k") + [DigitChar(term)] + "-" + Year(from) + "-" + Year(to)
  }

  lemma TermAndYearsOf(term: char, from: string, to: string, maxTerm: char)
    requires '1' <= term <= maxTerm
    requires |from| == 4 && AllDigits(from) && |to| == 4 && AllDigits(to)
    ensures TermAndYears([term] + "-" + from + "-" + to, maxTerm)
  {
    var t := [term] + "-" + from + "-" + to;
    assert t[2..6] == from && t[7..11] == to;
  }

  lemma BodyWithNewline(s: string, maxTerm: char)
    requires SemesterBody(s, maxTerm)
    ensures MatchesSemester(s, maxTerm) && MatchesSemester(s + "\n", maxTerm)
  {
    assert (s + "\n")[..|s + "\n"| - 1] == s;
  }

  /** Every semester name whose term is allowed passes the validator, with or without a final newline. */
  lemma SemesterNameAccepted(ki: bool, term: nat, from: nat, to: nat, maxTerm: char)
    requires 1 <= term <= 9 && from < 10000 && to < 10000
    requires DigitChar(term) <= maxTerm
    ensures MatchesSemester(SemesterName(ki, term, from, to), maxTerm)
    ensures MatchesSemester(SemesterName(ki, term, from, to) + "\n", maxTerm)
  {
    var s := SemesterName(ki, term, from, to);
    var t := [DigitChar(term)] + "-" + Year(from) + "-" + Year(to);
    TermAndYearsOf(DigitChar(term), Year(from), Year(to), maxTerm);
    if ki {
      assert s == "ki" + t && s[..2] == "ki" && s[2..] == t;
    } else {
      assert s == "k" + t && s[1..] == t;
    }
    BodyWithNewline(s, maxTerm);
  }

  /** The terms one to two are among the terms one to four. */
  lemma NarrowCheckImpliesWide(s: string)
    requires MatchesSemester(s, '2')
    ensures MatchesSemester(s, '4')
  {
  }

  /** Example: "k3-2023-2024" has the wide format of the filter but not the narrow one of the tools. */
  lemma ThirdTermOnlyInFilter()
    ensures MatchesSemester("k3-2023-2024", '4')
    ensures !MatchesSemester("k3-2023-2024", '2')
  {
    var s := "k3-2023-2024";
    TermAndYearsOf('3', "2023", "2024", '4');
    assert s[1..] == "3-2023-2024";
    assert s[..|s| - 1] == "k3-2023-202";
  }

  /** The underscore form some field descriptions and messages suggest never passes. */
  lemma UnderscoreFormRejected(maxTerm: char)
    ensures !MatchesSemester("ki1_2024_2025", maxTerm)
  {
    var s := "ki1_2024_2025";
    assert s[3] == '_';
    assert s[..|s| - 1] == "ki1_2024_202";
  }

  /**
   * A pydantic semester validator: `None` passes unchanged; a string passes
   * unchanged when it has the format and otherwise raises `message`.
   */
  function ValidateSemester(value: Option<string>, maxTerm: char, message: string): (r: Outcome<Option<string>>)
    ensures value.None? ==> r == Success(None)
    ensures value.Some? ==> (r.Success? <==> MatchesSemester(value.value, maxTerm))
    ensures r.Success? ==> r.value == value
    ensures r.Failure? ==> r.error == message
  {
    match value
    case None => Success(None)
    case Some(s) => if MatchesSemester(s, maxTerm) then Success(value) else Failure(message)
  }

  /**
   * The message ScoreFilter's validator raises. Pydantic reports it wrapped
   * in a ValidationError whose text adds the model, the field and the error
   * type around it; the model uses this inner message to stand for that
   * whole text wherever a reply quotes `str(e)`.
   */
  const FilterSemesterMessage: string := "Semester must be in format ki1_2024_2025, k2_2024_2025, etc."

  /** ScoreFilter allows the terms one to four. */
  const FilterMaxTerm: char := '4'

  /** `ScoreFilter(student_code=..., semester=..., subject_id=...)`, which validates the semester. */
  function NewScoreFilter(studentCode: Option<string>, semester: Option<string>, subjectId: Option<int>): (r: Outcome<ScoreFilter>)
    ensures r.Success? <==> (semester.None? || MatchesSemester(semester.value, FilterMaxTerm))
    ensures r.Success? ==> r.value == ScoreFilter(studentCode, semester, subjectId)
    ensures r.Failure? ==> r.error == FilterSemesterMessage
  {
    match ValidateSemester(semester, FilterMaxTerm, FilterSemesterMessage)
    case Failure(e) => Failure(e)
    case Success(_) => Success(ScoreFilter(studentCode, semester, subjectId))
  }

  /** An empty filter, all three fields at their default `None`, is always accepted. */
  lemma DefaultFilterAccepted()
    ensures NewScoreFilter(None, None, None) == Success(ScoreFilter(None, None, None))
  {
  }
}
