/**
 * The score database of score/database.py: the connection pool as a flag,
 * the parameterised query `get_scores` builds from a ScoreFilter, the
 * mapping of the joined rows to ScoreWithDetails, and the student lookup.
 * The SQL server is an oracle from a query and its parameters to rows; the
 * students table is a sequence in table order.
 */
module ScoreDatabase {
  import opened Common
  import opened ScoreModels

  /** A bound query parameter. */
  datatype Param = TextParam(text: string) | IntParam(n: int)

  /** One `AND s.<column> = $<k>` condition with the value it binds. */
  datatype Condition = Condition(column: string, param: Param)

  const StudentCodeColumn: string := "student_code"
  const SemesterColumn: string := "semester"
  const SubjectIdColumn: string := "subject_id"

  /** `if filter.student_code:` adds the student-code condition. */
  function WithStudentCode(cs: seq<Condition>, f: ScoreFilter): seq<Condition>
  {
    if HasText(f.studentCode) then cs + [Condition(StudentCodeColumn, TextParam(f.studentCode.value))] else cs
  }

  /** `if filter.semester:` adds the semester condition. */
  function WithSemester(cs: seq<Condition>, f: ScoreFilter): seq<Condition>
  {
    if HasText(f.semester) then cs + [Condition(SemesterColumn, TextParam(f.semester.value))] else cs
  }

  /** `if filter.subject_id:` adds the subject condition. */
  function WithSubjectId(cs: seq<Condition>, f: ScoreFilter): seq<Condition>
  {
    if HasId(f.subjectId) then cs + [Condition(SubjectIdColumn, IntParam(f.subjectId.value))] else cs
  }

  /** The conditions a filter asks for: one per truthy field, in the order code, semester, subject. */
  function Conditions(f: ScoreFilter): seq<Condition>
  {
    WithSubjectId(WithSemester(WithStudentCode([], f), f), f)
  }

  /** The count of truthy filter fields. */
  function TruthyFields(f: ScoreFilter): nat
  {
    (if HasText(f.studentCode) then 1 else 0) + (if HasText(f.semester) then 1 else 0) + (if HasId(f.subjectId) then 1 else 0)
  }

  /** One condition per truthy field, and the column of each is one of the three. */
  lemma ConditionsCount(f: ScoreFilter)
    ensures |Conditions(f)| == TruthyFields(f)
    ensures forall i :: 0 <= i < |Conditions(f)| ==>
      Conditions(f)[i].column in {StudentCodeColumn, SemesterColumn, SubjectIdColumn}
  {
  }

  /** The text of one condition whose placeholder is `$k`. */
  function Clause(column: string, k: nat): string
  {
    " AND s." + column + " = $" + NatToString(k)
  }

  /** The conditions' text, their placeholders numbered from `k` on. */
  function Clauses(cs: seq<Condition>, k: nat): string
    decreases |cs|
  {
    if cs == [] then "" else Clause(cs[0].column, k) + Clauses(cs[1..], k + 1)
  }

  function ParamsOf(cs: seq<Condition>): (r: seq<Param>)
    ensures |r| == |cs|
    ensures forall i :: 0 <= i < |cs| ==> r[i] == cs[i].param
  {
    seq(|cs|, i requires 0 <= i < |cs| => cs[i].param)
  }

  const SelectScores: string :=
    "\n            SELECT s.*, st.student_name, st.student_class, \n                  su.subject_name, su.subject_credits\n            FROM scores s\n            JOIN students st ON s.student_code = st.student_code\n            JOIN subjects su ON s.subject_id = su.subject_id\n            WHERE 1=1\n            "

  const OrderBy: string := " ORDER BY s.semester DESC, su.subject_name"

  /** The query and the parameters for a filter. */
  function ScoresQuery(f: ScoreFilter): string
  {
    SelectScores + Clauses(Conditions(f), 1) + OrderBy
  }

  /** Adding a condition adds its clause at the end, with the next placeholder. */
  lemma {:induction false} ClausesAppend(cs: seq<Condition>, c: Condition, k: nat)
    ensures Clauses(cs + [c], k) == Clauses(cs, k) + Clause(c.column, k + |cs|)
    decreases |cs|
  {
    if cs == [] {
      assert [c][1..] == [];
    } else {
      assert (cs + [c])[1..] == cs[1..] + [c];
      ClausesAppend(cs[1..], c, k + 1);
    }
  }

  /** One step of `get_scores`' builder keeps the query text in step with the conditions so far... */
  lemma {:induction false} AddClause(base: string, query: string, cs: seq<Condition>, c: Condition)
    requires query == base + Clauses(cs, 1)
    ensures query + Clause(c.column, |cs| + 1) == base + Clauses(cs + [c], 1)
  {
    ClausesAppend(cs, c, 1);
  }

  /** ... and the parameters in step with them too. */
  lemma {:induction false} AddParam(params: seq<Param>, cs: seq<Condition>, c: Condition)
    requires params == ParamsOf(cs)
    ensures params + [c.param] == ParamsOf(cs + [c])
  {
    assert forall i :: 0 <= i < |cs| ==> (cs + [c])[i] == cs[i];
  }

  /** What a row must satisfy for each condition: its column equals the bound value. */
  predicate Satisfies(row: ScoreRow, c: Condition)
  {
    match c.param
    case TextParam(t) =>
      (c.column == StudentCodeColumn && row.studentCode == t) || (c.column == SemesterColumn && row.semester == Some(t))
    case IntParam(n) => c.column == SubjectIdColumn && row.subjectId == n
  }

  /** What the filter asks of a row; a falsy field asks nothing. */
  predicate Selected(row: ScoreRow, f: ScoreFilter)
  {
    && (HasText(f.studentCode) ==> row.studentCode == f.studentCode.value)
    && (HasText(f.semester) ==> row.semester == f.semester)
    && (HasId(f.subjectId) ==> row.subjectId == f.subjectId.value)
  }

  /** A row meets every condition of the query exactly when the filter selects it. */
  lemma ConditionsMeanFilter(row: ScoreRow, f: ScoreFilter)
    ensures (forall i :: 0 <= i < |Conditions(f)| ==> Satisfies(row, Conditions(f)[i])) <==> Selected(row, f)
  {
    var a := WithStudentCode([], f);
    var b := WithSemester(a, f);
    var cs := WithSubjectId(b, f);
    assert cs == Conditions(f);
    var code := Condition(StudentCodeColumn, TextParam(if f.studentCode.Some? then f.studentCode.value else ""));
    var sem := Condition(SemesterColumn, TextParam(if f.semester.Some? then f.semester.value else ""));
    var id := Condition(SubjectIdColumn, IntParam(if f.subjectId.Some? then f.subjectId.value else 0));
    assert forall i :: 0 <= i < |a| ==> b[i] == a[i];
    assert forall i :: 0 <= i < |b| ==> cs[i] == b[i];
    assert HasText(f.studentCode) ==> cs[0] == code;
    assert HasText(f.semester) ==> cs[|a|] == sem;
    assert HasId(f.subjectId) ==> cs[|b|] == id;
    assert forall i :: 0 <= i < |cs| ==>
      (HasText(f.studentCode) && cs[i] == code) || (HasText(f.semester) && cs[i] == sem) || (HasId(f.subjectId) && cs[i] == id);
    if forall i :: 0 <= i < |cs| ==> Satisfies(row, cs[i]) {
      if HasText(f.studentCode) {
        assert Satisfies(row, cs[0]);
      }
      if HasText(f.semester) {
        assert Satisfies(row, cs[|a|]);
      }
      if HasId(f.subjectId) {
        assert Satisfies(row, cs[|b|]);
      }
    }
  }

  /** One row of the joined query, as `dict(record)`. */
  datatype ScoreRow = ScoreRow(
    scoreText: Option<string>,
    scoreFirst: Option<real>,
    scoreSecond: Option<real>,
    scoreFinal: Option<real>,
    scoreOverall: Option<real>,
    semester: Option<string>,
    studentCode: string,
    subjectId: int,
    studentName: string,
    studentClass: Option<string>,
    subjectName: string,
    subjectCredits: Option<int>)

  /** The row as a ScoreWithDetails: the score, its subject and its student. */
  function FromRow(row: ScoreRow): (r: ScoreWithDetails)
    ensures r.score.studentCode == r.student.studentCode == row.studentCode
    ensures r.score.subjectId == r.subject.subjectId == row.subjectId
  {
    ScoreWithDetails(
      Score(row.scoreText, row.scoreFirst, row.scoreSecond, row.scoreFinal, row.scoreOverall, row.semester, row.studentCode, row.subjectId),
      Subject(row.subjectId, row.subjectName, row.subjectCredits),
      Student(row.studentCode, row.studentName, row.studentClass))
  }

  /** The row a ScoreWithDetails came from. */
  function ToRow(d: ScoreWithDetails): ScoreRow
  {
    ScoreRow(d.score.scoreText, d.score.scoreFirst, d.score.scoreSecond, d.score.scoreFinal, d.score.scoreOverall,
             d.score.semester, d.score.studentCode, d.score.subjectId,
             d.student.studentName, d.student.studentClass, d.subject.subjectName, d.subject.subjectCredits)
  }

  /** The mapping loses no column of the row. */
  lemma FromRowLosesNothing(row: ScoreRow)
    ensures ToRow(FromRow(row)) == row
  {
  }

  /** `fetchrow` on the students table: the first student with the code, if any. */
  function FindStudent(students: seq<Student>, code: string): (r: Option<Student>)
    ensures r.None? <==> forall s :: s in students ==> s.studentCode != code
    ensures r.Some? ==> r.value in students && r.value.studentCode == code
    decreases |students|
  {
    if students == [] then None
    else if students[0].studentCode == code then Some(students[0])
    else FindStudent(students[1..], code)
  }

  const SelectStudent: string := "\n                SELECT * FROM students WHERE student_code = $1\n                "

  /** Database: `connected` stands for a connection pool being open. */
  class Database {
    var connected: bool

    /** A new Database has no pool yet. */
    constructor()
      ensures !connected
    {
      connected := false;
    }

    /** connect: opens the pool unless one is open already. */
    method Connect()
      modifies this
      ensures connected
    {
      if !connected {
        connected := true;
      }
    }

    /** close: closes the pool if one is open. */
    method Close()
      modifies this
      ensures !connected
    {
      if connected {
        connected := false;
      }
    }

    /** get_student: the first student with the code, or `None` when no row matches. */
    method GetStudent(code: string, students: seq<Student>) returns (r: Option<Student>)
      modifies this
      ensures connected
      ensures r == FindStudent(students, code)
    {
      Connect();
      r := FindStudent(students, code);
    }

    /**
     * get_scores: builds the query and its parameters, runs it, and maps
     * each returned row, in order, to a ScoreWithDetails.
     */
    method GetScores(f: ScoreFilter, fetch: (string, seq<Param>) -> seq<ScoreRow>) returns (results: seq<ScoreWithDetails>)
      modifies this
      ensures connected
      ensures var rows := fetch(ScoresQuery(f), ParamsOf(Conditions(f)));
        |results| == |rows| && forall i :: 0 <= i < |rows| ==> results[i] == FromRow(rows[i])
    {
      Connect();
      var query, params := BuildScoresQuery(f);
      var records := fetch(query, params);
      results := FromRows(records);
    }
  }

  /** The loop of get_scores mapping each returned row, in order, to a ScoreWithDetails. */
  method FromRows(records: seq<ScoreRow>) returns (results: seq<ScoreWithDetails>)
    ensures |results| == |records| && forall i :: 0 <= i < |records| ==> results[i] == FromRow(records[i])
  {
    results := [];
    for i := 0 to |records|
      invariant |results| == i
      invariant forall j :: 0 <= j < i ==> results[j] == FromRow(records[j])
    {
      results := results + [FromRow(records[i])];
    }
  }

  /**
   * One `if filter.<field>:` block of `get_scores`: the condition's clause
   * with placeholder `$paramIndex` goes on the query, its value on the
   * parameters, and the index moves on.
   */
  method AddFilterCondition(query: string, params: seq<Param>, paramIndex: nat, c: Condition, ghost cs: seq<Condition>)
    returns (query': string, params': seq<Param>, paramIndex': nat)
    requires query == SelectScores + Clauses(cs, 1) && params == ParamsOf(cs) && paramIndex == |cs| + 1
    ensures query' == SelectScores + Clauses(cs + [c], 1)
    ensures params' == ParamsOf(cs + [c])
    ensures paramIndex' == |cs + [c]| + 1
  {
    AddClause(SelectScores, query, cs, c);
    AddParam(params, cs, c);
    query' := query + Clause(c.column, paramIndex);
    params' := params + [c.param];
    paramIndex' := paramIndex + 1;
  }

  /**
   * The query text and the parameters `get_scores` assembles, one truthy
   * filter field at a time, numbering placeholders from $1.
   */
  method BuildScoresQuery(f: ScoreFilter) returns (query: string, params: seq<Param>)
    ensures query == ScoresQuery(f)
    ensures params == ParamsOf(Conditions(f))
  {
    ghost var cs: seq<Condition> := [];
    query := SelectScores;
    params := [];
    var paramIndex: nat := 1;
    assert query == SelectScores + Clauses(cs, 1);
    if HasText(f.studentCode) {
      query, params, paramIndex := AddFilterCondition(query, params, paramIndex, Condition(StudentCodeColumn, TextParam(f.studentCode.value)), cs);
    }
    cs := WithStudentCode(cs, f);
    if HasText(f.semester) {
      query, params, paramIndex := AddFilterCondition(query, params, paramIndex, Condition(SemesterColumn, TextParam(f.semester.value)), cs);
    }
    cs := WithSemester(cs, f);
    if HasId(f.subjectId) {
      query, params, paramIndex := AddFilterCondition(query, params, paramIndex, Condition(SubjectIdColumn, IntParam(f.subjectId.value)), cs);
    }
    cs := WithSubjectId(cs, f);
    query := query + OrderBy;
  }
}
