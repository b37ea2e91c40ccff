/**
 * The `get_student_scores` tool of score/score_tool.py: its own semester
 * check (terms one to two), the score filter, the database lookup (an
 * oracle here) and the message that goes with each outcome.
 */
module ScoreTool {
  import opened Common
  import opened Messages
  import opened ScoreModels

  /** ScoreInput and get_student_scores allow the terms one to two. */
  const ToolMaxTerm: char := '2'

  /** What ScoreInput's validator raises. */
  const InputSemesterMessage: string := "Semester must be in format ki1-2024-2025, k2-2024-2025, etc."

  /** ScoreInput.validate_semester_format. */
  function ValidateScoreInput(semester: Option<string>): (r: Outcome<Option<string>>)
    ensures r.Success? <==> semester.None? || MatchesSemester(semester.value, ToolMaxTerm)
    ensures r.Success? ==> r.value == semester
  {
    ValidateSemester(semester, ToolMaxTerm, InputSemesterMessage)
  }

  /** The reply as its two JSON fields. */
  datatype ScoresReply = ScoresReply(scores: seq<ScoreWithDetails>, message: string)

  /** The message shown when the tool's own check rejects the semester. */
  const InvalidSemesterMessage: string := "Invalid semester format. Must be in format ki1_2024_2025, k2_2024_2025, etc."

  /** " in semester X", only when a semester was given. */
  function SemesterSuffix(semester: Option<string>): (r: string)
    ensures r == "" <==> !HasText(semester)
    ensures HasText(semester) ==> r == " in semester " + semester.value
  {
    if HasText(semester) then " in semester " + semester.value else ""
  }

  function NotFoundMessage(studentCode: string, semester: Option<string>): string
  {
    "No scores found for student " + studentCode + SemesterSuffix(semester)
  }

  function FoundMessage(n: nat, studentCode: string, semester: Option<string>): string
  {
    "Found " + NatToString(n) + " scores for student " + studentCode + SemesterSuffix(semester)
  }

  function RetrievalErrorMessage(e: string): string
  {
    "Error retrieving scores: " + e
  }

  /**
   * get_student_scores: a given semester of the wrong format is refused
   * before any lookup; building the filter can still raise (an empty
   * semester string skips the tool's check but not the filter's); the
   * database's exceptions are caught.
   */
  function GetStudentScores(studentCode: string, semester: Option<string>, subjectId: Option<int>,
                            fetch: ScoreFilter -> Outcome<seq<ScoreWithDetails>>): (r: ScoresReply)
    ensures HasText(semester) && !MatchesSemester(semester.value, ToolMaxTerm) ==>
      r == ScoresReply([], InvalidSemesterMessage)
    ensures r.scores != [] ==>
      && (semester.None? || MatchesSemester(semester.value, ToolMaxTerm))
      && fetch(ScoreFilter(Some(studentCode), semester, subjectId)) == Success(r.scores)
      && r.message == FoundMessage(|r.scores|, studentCode, semester)
  {
    if HasText(semester) && !MatchesSemester(semester.value, ToolMaxTerm) then
      ScoresReply([], InvalidSemesterMessage)
    else
      match NewScoreFilter(Some(studentCode), semester, subjectId)
      case Failure(e) => ScoresReply([], RetrievalErrorMessage(e))
      case Success(filter) =>
        match fetch(filter)
        case Failure(e) => ScoresReply([], RetrievalErrorMessage(e))
        case Success(rows) =>
          if rows == [] then ScoresReply([], NotFoundMessage(studentCode, semester))
          else ScoresReply(rows, FoundMessage(|rows|, studentCode, semester))
  }

  /**
   * For a semester the tool's own check accepts, or none, the filter never
   * raises: the reply is the database's rows, or the not-found message,
   * or the database's error.
   */
  lemma ValidSemesterReachesDatabase(studentCode: string, semester: Option<string>, subjectId: Option<int>,
                                     fetch: ScoreFilter -> Outcome<seq<ScoreWithDetails>>)
    requires semester.None? || MatchesSemester(semester.value, ToolMaxTerm)
    ensures var f := ScoreFilter(Some(studentCode), semester, subjectId);
      var r := GetStudentScores(studentCode, semester, subjectId, fetch);
      && (fetch(f).Failure? ==> r == ScoresReply([], RetrievalErrorMessage(fetch(f).error)))
      && (fetch(f) == Success([]) ==> r == ScoresReply([], NotFoundMessage(studentCode, semester)))
      && (fetch(f).Success? && fetch(f).value != [] ==> r == ScoresReply(fetch(f).value, FoundMessage(|fetch(f).value|, studentCode, semester)))
  {
    if semester.Some? {
      NarrowCheckImpliesWide(semester.value);
    }
  }

  /**
   * An empty semester string is falsy, so the tool's own check lets it
   * through, but the filter's validator does not: the reply is an error
   * (FilterSemesterMessage standing for the ValidationError's whole text).
   */
  lemma EmptySemesterIsAnError(studentCode: string, subjectId: Option<int>, fetch: ScoreFilter -> Outcome<seq<ScoreWithDetails>>)
    ensures GetStudentScores(studentCode, Some(""), subjectId, fetch) == ScoresReply([], RetrievalErrorMessage(FilterSemesterMessage))
  {
  }
}
