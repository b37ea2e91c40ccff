/**
 * The `calculate_gpa_from_db` tool of score/calculate_gpa_from_db.py: the
 * 10-point to 4-point band table, the semester check of its input, the
 * subject-name filter, and the credit-weighted averages on both scales.
 * Scores are the flat records the aggregation reads; fetching them is an
 * oracle from a ScoreFilter. Averages are exact (no rounding to two places).
 */
module Gpa {
  import opened Common
  import opened Messages
  import opened ScoreModels
  import opened ScoreDatabase

  /** convert_to_he4: the band table from the 10-point scale to the 4-point scale. */
  function He4(score: real): (r: real)
    ensures r in {0.0, 1.0, 2.0, 2.5, 3.0, 3.5, 3.8, 4.0}
    ensures score > 10.0 || score < 4.0 ==> r == 0.0
  {
    if 9.0 <= score <= 10.0 then 4.0
    else if 8.5 <= score < 9.0 then 3.8
    else if 8.0 <= score < 8.5 then 3.5
    else if 7.0 <= score < 8.0 then 3.0
    else if 6.5 <= score < 7.0 then 2.5
    else if 5.5 <= score < 6.5 then 2.0
    else if 4.0 <= score < 5.5 then 1.0
    else 0.0
  }

  /** On the 10-point range a higher score never converts lower. */
  lemma He4Monotone(a: real, b: real)
    requires 0.0 <= a <= b <= 10.0
    ensures He4(a) <= He4(b)
  {
  }

  /** A converted score never exceeds a non-negative original. */
  lemma He4AtMostScore(score: real)
    requires score >= 0.0
    ensures He4(score) <= score
  {
  }

  /** GPAInput allows the terms one to two. */
  const GpaMaxTerm: char := '2'

  const GpaSemesterMessage: string := "Semester must be in format ki1-2024-2025, k2-2024-2025"

  /** GPAInput.validate_semester_format. */
  function ValidateGpaInput(semester: Option<string>): (r: Outcome<Option<string>>)
    ensures r.Success? <==> semester.None? || MatchesSemester(semester.value, GpaMaxTerm)
    ensures r.Failure? ==> r.error == GpaSemesterMessage
  {
    ValidateSemester(semester, GpaMaxTerm, GpaSemesterMessage)
  }

  /** A score as the aggregation reads it: subject name, credits and overall score. */
  datatype GpaScore = GpaScore(subjectName: string, subjectCredits: int, scoreOverall: real)

  /** A dumped score, with the added "score_he4" field when there is one. */
  datatype GpaRow = GpaRow(score: GpaScore, he4: Option<real>)

  datatype GpaAverages = GpaAverages(average10: real, average4: real, totalCredits: int)

  /** The filters echoed back on success. */
  datatype GpaFilters = GpaFilters(studentCode: string, semester: Option<string>, subjectId: Option<int>, subjectName: Option<string>)

  /** The reply: "averages" (absent stands for `{}`), "scores", "filters" when present, and "message". */
  datatype GpaReport = GpaReport(averages: Option<GpaAverages>, scores: seq<GpaRow>, filters: Option<GpaFilters>, message: string)

  /** `subject_name.lower() in s.subject_name.lower()`. */
  predicate NameMatches(name: string, s: GpaScore)
  {
    IsSubstring(Lower(name), Lower(s.subjectName))
  }

  /** The list comprehension keeping the scores whose subject name contains `name`, in order. */
  function KeepByName(scores: seq<GpaScore>, name: string): (r: seq<GpaScore>)
    ensures |r| <= |scores|
    ensures forall x :: x in r ==> x in scores && NameMatches(name, x)
  {
    if scores == [] then []
    else (if NameMatches(name, scores[0]) then [scores[0]] else []) + KeepByName(scores[1..], name)
  }

  /** Nothing matching is dropped: a score is kept exactly when its name matches. */
  lemma {:induction false} KeepByNameKeepsMatches(scores: seq<GpaScore>, name: string, x: GpaScore)
    ensures x in KeepByName(scores, name) <==> x in scores && NameMatches(name, x)
  {
    if scores != [] {
      KeepByNameKeepsMatches(scores[1..], name, x);
      assert x in scores <==> x == scores[0] || x in scores[1..];
    }
  }

  /** The scores the averages are taken over: filtered by name only when a name was given. */
  function Kept(scores: seq<GpaScore>, subjectName: Option<string>): seq<GpaScore>
  {
    if HasText(subjectName) then KeepByName(scores, subjectName.value) else scores
  }

  /** The credits, the overall scores and their 4-point values, score by score. */
  function Credits(scores: seq<GpaScore>): (r: seq<real>)
    ensures |r| == |scores|
    ensures forall i :: 0 <= i < |scores| ==> r[i] == scores[i].subjectCredits as real
  {
    seq(|scores|, i requires 0 <= i < |scores| => scores[i].subjectCredits as real)
  }

  function Points10(scores: seq<GpaScore>): (r: seq<real>)
    ensures |r| == |scores|
    ensures forall i :: 0 <= i < |scores| ==> r[i] == scores[i].scoreOverall
  {
    seq(|scores|, i requires 0 <= i < |scores| => scores[i].scoreOverall)
  }

  function Points4(scores: seq<GpaScore>): (r: seq<real>)
    ensures |r| == |scores|
    ensures forall i :: 0 <= i < |scores| ==> r[i] == He4(scores[i].scoreOverall)
  {
    seq(|scores|, i requires 0 <= i < |scores| => He4(scores[i].scoreOverall))
  }

  /** `sum(s.score_over_rall * s.subject_credits for s in scores)`. */
  function Weighted10(scores: seq<GpaScore>): real
  {
    Dot(Points10(scores), Credits(scores))
  }

  /** `sum(convert_to_he4(s.score_over_rall) * s.subject_credits for s in scores)`. */
  function Weighted4(scores: seq<GpaScore>): real
  {
    Dot(Points4(scores), Credits(scores))
  }

  /** `sum(s.subject_credits for s in scores)`. */
  function TotalCredits(scores: seq<GpaScore>): int
  {
    if scores == [] then 0 else scores[0].subjectCredits + TotalCredits(scores[1..])
  }

  lemma {:induction false} TotalCreditsAsReal(scores: seq<GpaScore>)
    ensures Sum(Credits(scores)) == TotalCredits(scores) as real
  {
    if scores != [] {
      assert Credits(scores)[1..] == Credits(scores[1..]);
      TotalCreditsAsReal(scores[1..]);
    }
  }

  /** Scores on the 10-point range with non-negative credits. */
  predicate InRange(scores: seq<GpaScore>)
  {
    forall i :: 0 <= i < |scores| ==> 0.0 <= scores[i].scoreOverall <= 10.0 && scores[i].subjectCredits >= 0
  }

  /** Non-negative credits have a non-negative total. */
  lemma {:induction false} CreditsNonNegative(scores: seq<GpaScore>)
    requires InRange(scores)
    ensures TotalCredits(scores) >= 0
  {
    if scores != [] {
      assert InRange(scores[1..]) by {
        forall i | 0 <= i < |scores[1..]|
          ensures 0.0 <= scores[1..][i].scoreOverall <= 10.0 && scores[1..][i].subjectCredits >= 0
        {
          assert scores[1..][i] == scores[i + 1];
        }
      }
      CreditsNonNegative(scores[1..]);
    }
  }

  /** The dumped scores, without the 4-point field (the zero-credits reply). */
  function Dumped(scores: seq<GpaScore>): (r: seq<GpaRow>)
    ensures |r| == |scores|
    ensures forall i :: 0 <= i < |scores| ==> r[i] == GpaRow(scores[i], None)
  {
    seq(|scores|, i requires 0 <= i < |scores| => GpaRow(scores[i], None))
  }

  /** The dumped scores, each with "score_he4" added (the success reply). */
  function WithHe4(scores: seq<GpaScore>): (r: seq<GpaRow>)
    ensures |r| == |scores|
    ensures forall i :: 0 <= i < |scores| ==> r[i] == GpaRow(scores[i], Some(He4(scores[i].scoreOverall)))
  {
    seq(|scores|, i requires 0 <= i < |scores| => GpaRow(scores[i], Some(He4(scores[i].scoreOverall))))
  }

  /** The first reply for no scores, naming each filter that was given. */
  function NoScoresMessage(studentCode: string, semester: Option<string>, subjectId: Option<int>, subjectName: Option<string>): string
  {
    "No scores found for student " + studentCode
    + (if HasText(semester) then " in semester " + semester.value else "")
    + (if HasId(subjectId) then " with subject_id " + IntToString(subjectId.value) else "")
    + (if HasText(subjectName) then " with subject_name " + subjectName.value else "")
  }

  /** The reply when the name filter removed every score; `str(None)` reads "None". */
  function NoneAfterFilterMessage(subjectName: Option<string>): string
  {
    "No scores found after filtering by subject_name='" + (if subjectName.Some? then subjectName.value else "None") + "'"
  }

  const ZeroCreditsMessage: string := "Total credits is zero, cannot calculate GPA"
  const GpaSuccessMessage: string := "GPA calculated successfully"

  function GpaErrorMessage(e: string): string
  {
    "Error calculating GPA: " + e
  }

  /** The filter `calculate_gpa_from_db` asks the database with. */
  function GpaFilter(studentCode: string, semester: Option<string>, subjectId: Option<int>): ScoreFilter
  {
    ScoreFilter(Some(studentCode), semester, subjectId)
  }

  /**
   * The reply of `calculate_gpa_from_db`. Averages are given exactly when
   * the filtered scores do not sum to zero credits; they are then the
   * credit-weighted means on both scales (stated as mean · credits = sum)
   * over the scores kept, and each of those scores carries its 4-point
   * value. Replies without averages carry no 4-point values and no filters.
   */
  function GpaReportFor(studentCode: string, semester: Option<string>, subjectId: Option<int>, subjectName: Option<string>,
                        fetch: ScoreFilter -> Outcome<seq<GpaScore>>): (r: GpaReport)
    ensures r.averages.Some? <==> r.filters.Some?
    ensures r.averages.None? ==> forall i :: 0 <= i < |r.scores| ==> r.scores[i].he4.None?
    ensures r.averages.Some? ==>
      && NewScoreFilter(Some(studentCode), semester, subjectId).Success?
      && fetch(GpaFilter(studentCode, semester, subjectId)).Success?
      && var kept := Kept(fetch(GpaFilter(studentCode, semester, subjectId)).value, subjectName);
      && var a := r.averages.value;
      && kept != []
      && a.totalCredits == TotalCredits(kept) != 0
      && a.average10 * a.totalCredits as real == Weighted10(kept)
      && a.average4 * a.totalCredits as real == Weighted4(kept)
      && (InRange(kept) ==> OnScale(a))
      && r.scores == WithHe4(kept)
      && r.filters == Some(GpaFilters(studentCode, semester, subjectId, subjectName))
      && r.message == GpaSuccessMessage
  {
    match NewScoreFilter(Some(studentCode), semester, subjectId)
    case Failure(e) => GpaReport(None, [], None, GpaErrorMessage(e))
    case Success(filter) =>
      match fetch(filter)
      case Failure(e) => GpaReport(None, [], None, GpaErrorMessage(e))
      case Success(scores) =>
        if scores == [] then GpaReport(None, [], None, NoScoresMessage(studentCode, semester, subjectId, subjectName))
        else
          var kept := Kept(scores, subjectName);
          if kept == [] then GpaReport(None, [], None, NoneAfterFilterMessage(subjectName))
          else if TotalCredits(kept) == 0 then GpaReport(None, Dumped(kept), None, ZeroCreditsMessage)
          else
            var total := TotalCredits(kept);
            DivideBack(Weighted10(kept), total as real);
            DivideBack(Weighted4(kept), total as real);
            var a := GpaAverages(Weighted10(kept) / total as real, Weighted4(kept) / total as real, total);
            AveragesOnScale(a, kept);
            GpaReport(Some(a),
                      WithHe4(kept), Some(GpaFilters(studentCode, semester, subjectId, subjectName)), GpaSuccessMessage)
  }

  /**
   * The replies without averages: an error, no scores at all, none left
   * after the name filter, or scores whose credits sum to zero (these come
   * back, without their 4-point value).
   */
  lemma GpaReplyWithoutAverages(studentCode: string, semester: Option<string>, subjectId: Option<int>, subjectName: Option<string>,
                                fetch: ScoreFilter -> Outcome<seq<GpaScore>>)
    ensures var r := GpaReportFor(studentCode, semester, subjectId, subjectName, fetch);
      var fetched := fetch(GpaFilter(studentCode, semester, subjectId));
      && (NewScoreFilter(Some(studentCode), semester, subjectId).Failure? ==> r == GpaReport(None, [], None, GpaErrorMessage(FilterSemesterMessage)))
      && (NewScoreFilter(Some(studentCode), semester, subjectId).Success? ==>
            && (fetched.Failure? ==> r == GpaReport(None, [], None, GpaErrorMessage(fetched.error)))
            && (fetched == Success([]) ==> r == GpaReport(None, [], None, NoScoresMessage(studentCode, semester, subjectId, subjectName)))
            && (fetched.Success? && fetched.value != [] && Kept(fetched.value, subjectName) == [] ==>
                  r == GpaReport(None, [], None, NoneAfterFilterMessage(subjectName)))
            && (fetched.Success? && Kept(fetched.value, subjectName) != [] && TotalCredits(Kept(fetched.value, subjectName)) == 0 ==>
                  r == GpaReport(None, Dumped(Kept(fetched.value, subjectName)), None, ZeroCreditsMessage)))
  {
  }

  /**
   * The top-level fields of a ScoreWithDetails, the record get_scores
   * returns: those of Score, then `subject` and `student`. The subject's
   * name and credits are only reachable through `subject`.
   */
  const DetailsFields: set<string> := {
    "score_text", "score_first", "score_second", "score_final", "score_over_rall",
    "semester", "student_code", "subject_id", "subject", "student"}

  /** Python's AttributeError text for reading a field a ScoreWithDetails does not have. */
  function NoAttributeMessage(field: string): string
  {
    "'ScoreWithDetails' object has no attribute '" + field + "'"
  }

  /** Neither field the aggregation reads is a field of ScoreWithDetails itself. */
  lemma SubjectFieldsAreNested()
    ensures "subject_name" !in DetailsFields && "subject_credits" !in DetailsFields
    ensures "score_over_rall" in DetailsFields && "subject" in DetailsFields
  {
    assert "subject_name"[8] == 'n' && "subject_credits"[8] == 'c';
  }

  /**
   * calculate_gpa_from_db as written, over the ScoreWithDetails records
   * the database returns. The first field read after a non-empty fetch
   * is `s.subject_name` in the name filter when a name was given, and
   * otherwise `s.subject_credits` in the first weighted sum (the factor
   * `s.score_over_rall` before it exists); that read raises, and the
   * `except` clause turns it into the error reply.
   */
  function GpaReportAsWritten(studentCode: string, semester: Option<string>, subjectId: Option<int>, subjectName: Option<string>,
                              fetch: ScoreFilter -> Outcome<seq<ScoreWithDetails>>): (r: GpaReport)
    ensures r.averages.None? && r.filters.None? && r.scores == []
  {
    match NewScoreFilter(Some(studentCode), semester, subjectId)
    case Failure(e) => GpaReport(None, [], None, GpaErrorMessage(e))
    case Success(filter) =>
      match fetch(filter)
      case Failure(e) => GpaReport(None, [], None, GpaErrorMessage(e))
      case Success(scores) =>
        if scores == [] then GpaReport(None, [], None, NoScoresMessage(studentCode, semester, subjectId, subjectName))
        else
          var firstRead := if HasText(subjectName) then "subject_name" else "subject_credits";
          GpaReport(None, [], None, GpaErrorMessage(NoAttributeMessage(firstRead)))
  }

  /**
   * As written, every non-empty fetch ends in the error reply naming the
   * missing field; the earlier replies (a bad semester, a failed fetch, no
   * scores) are those of the corrected GpaReportFor.
   */
  lemma GpaAsWrittenFailsOnScores(studentCode: string, semester: Option<string>, subjectId: Option<int>, subjectName: Option<string>,
                                  fetch: ScoreFilter -> Outcome<seq<ScoreWithDetails>>, flat: ScoreFilter -> Outcome<seq<GpaScore>>)
    ensures var r := GpaReportAsWritten(studentCode, semester, subjectId, subjectName, fetch);
      var fetched := fetch(GpaFilter(studentCode, semester, subjectId));
      NewScoreFilter(Some(studentCode), semester, subjectId).Success? && fetched.Success? && fetched.value != [] ==>
        && r.message == GpaErrorMessage(NoAttributeMessage(if HasText(subjectName) then "subject_name" else "subject_credits"))
        && (if HasText(subjectName) then "subject_name" else "subject_credits") !in DetailsFields
    ensures var q := GpaFilter(studentCode, semester, subjectId);
      NewScoreFilter(Some(studentCode), semester, subjectId).Failure?
      || (fetch(q).Failure? && flat(q).Failure? && fetch(q).error == flat(q).error)
      || (fetch(q) == Success([]) && flat(q) == Success([])) ==>
        GpaReportAsWritten(studentCode, semester, subjectId, subjectName, fetch)
        == GpaReportFor(studentCode, semester, subjectId, subjectName, flat)
  {
    SubjectFieldsAreNested();
  }

  /**
   * Example: one score of 8.0 over 3 credits. As written the reply is the
   * "no attribute 'subject_credits'" error; the corrected aggregation over
   * the subject's own name and credits gives both averages.
   */
  lemma GpaAsWrittenExample()
    ensures var d := ScoreWithDetails(Score(None, None, None, None, Some(8.0), None, "S1", 1),
                                      Subject(1, "Math", Some(3)), Student("S1", "An", None));
      GpaReportAsWritten("S1", None, None, None, q => Success([d]))
      == GpaReport(None, [], None, GpaErrorMessage(NoAttributeMessage("subject_credits")))
    ensures GpaReportFor("S1", None, None, None, q => Success([GpaScore("Math", 3, 8.0)])).averages
      == Some(GpaAverages(8.0, 3.5, 3))
  {
    var kept := [GpaScore("Math", 3, 8.0)];
    assert Points10(kept) == [8.0] && Points4(kept) == [3.5] && Credits(kept) == [3.0];
    assert Weighted10(kept) == 24.0 && Weighted4(kept) == 10.5 && TotalCredits(kept) == 3;
  }

  /**
   * For scores in range, the weighted sums lie between zero and each
   * scale's maximum times the credits, and the 4-point sum never exceeds
   * the 10-point one.
   */
  lemma WeightedSumsBounded(kept: seq<GpaScore>)
    requires InRange(kept)
    ensures TotalCredits(kept) >= 0
    ensures 0.0 <= Weighted10(kept) <= 10.0 * TotalCredits(kept) as real
    ensures 0.0 <= Weighted4(kept) <= 4.0 * TotalCredits(kept) as real
    ensures Weighted4(kept) <= Weighted10(kept)
  {
    var p10, p4, cs := Points10(kept), Points4(kept), Credits(kept);
    forall i | 0 <= i < |kept|
      ensures 0.0 <= p4[i] <= p10[i] && p4[i] <= 4.0
    {
      He4AtMostScore(kept[i].scoreOverall);
    }
    DotBounds(p10, cs, 10.0);
    DotBounds(p4, cs, 4.0);
    DotMonotone(p4, p10, cs);
    TotalCreditsAsReal(kept);
    CreditsNonNegative(kept);
  }

  /** Both averages on their scales, the 4-point one at most the 10-point one. */
  predicate OnScale(a: GpaAverages)
  {
    && a.totalCredits > 0
    && 0.0 <= a.average10 <= 10.0 && 0.0 <= a.average4 <= 4.0
    && a.average4 <= a.average10
  }

  /**
   * Averages taken over scores in range lie on their scales: credits sum
   * to a positive total, both averages are on their scales and the 4-point
   * one is at most the 10-point one.
   */
  lemma AveragesOnScale(a: GpaAverages, kept: seq<GpaScore>)
    requires a.totalCredits == TotalCredits(kept) != 0
    requires a.average10 * a.totalCredits as real == Weighted10(kept)
    requires a.average4 * a.totalCredits as real == Weighted4(kept)
    ensures InRange(kept) ==> OnScale(a)
  {
    if InRange(kept) {
      WeightedSumsBounded(kept);
      var t := a.totalCredits as real;
      MeanMonotone(a.average4, a.average10, t, Weighted4(kept), Weighted10(kept));
      MeanBounds(a.average10, t, Weighted10(kept), 10.0);
      MeanBounds(a.average4, t, Weighted4(kept), 4.0);
    }
  }

  /** The loop that adds "score_he4" to each dumped score. */
  method AddHe4(scores: seq<GpaScore>) returns (scoresOut: seq<GpaRow>)
    ensures scoresOut == WithHe4(scores)
  {
    scoresOut := [];
    for i := 0 to |scores|
      invariant |scoresOut| == i
      invariant forall j :: 0 <= j < i ==> scoresOut[j] == GpaRow(scores[j], Some(He4(scores[j].scoreOverall)))
    {
      scoresOut := scoresOut + [GpaRow(scores[i], Some(He4(scores[i].scoreOverall)))];
    }
  }

  /**
   * calculate_gpa_from_db: the same reply, built step by step with the
   * loop that adds "score_he4" to each dumped score; the database is
   * closed on every path, as the `finally` clause does.
   */
  method CalculateGpaFromDb(db: Database, studentCode: string, semester: Option<string>, subjectId: Option<int>,
                            subjectName: Option<string>, fetch: ScoreFilter -> Outcome<seq<GpaScore>>)
    returns (report: GpaReport)
    modifies db
    ensures report == GpaReportFor(studentCode, semester, subjectId, subjectName, fetch)
    ensures !db.connected
  {
    var made := NewScoreFilter(Some(studentCode), semester, subjectId);
    if made.Failure? {
      report := GpaReport(None, [], None, GpaErrorMessage(made.error));
    } else {
      db.Connect();
      var fetched := fetch(made.value);
      if fetched.Failure? {
        report := GpaReport(None, [], None, GpaErrorMessage(fetched.error));
      } else if fetched.value == [] {
        report := GpaReport(None, [], None, NoScoresMessage(studentCode, semester, subjectId, subjectName));
      } else {
        var scores := fetched.value;
        if HasText(subjectName) {
          scores := KeepByName(scores, subjectName.value);
        }
        if scores == [] {
          report := GpaReport(None, [], None, NoneAfterFilterMessage(subjectName));
        } else {
          var totalCredits := TotalCredits(scores);
          if totalCredits == 0 {
            report := GpaReport(None, Dumped(scores), None, ZeroCreditsMessage);
          } else {
            var average10 := Weighted10(scores) / totalCredits as real;
            var average4 := Weighted4(scores) / totalCredits as real;
            var scoresOut := AddHe4(scores);
            report := GpaReport(Some(GpaAverages(average10, average4, totalCredits)), scoresOut,
                                Some(GpaFilters(studentCode, semester, subjectId, subjectName)), GpaSuccessMessage);
          }
        }
      }
    }
    db.Close();
  }
}
