/**
 * The supervisor agent's mutable state, class MyAgentState of
 * agent/state.py: the conversation, what is known about the student, the
 * scores fetched for them, and the human-in-the-loop flag with its prompt.
 * Score rows and average tables are JSON objects; the student fields are
 * optional strings.
 */
module AgentState {
  import opened Common
  import opened Messages

  /** A score row or an averages table: a JSON object. */
  type Record = map<string, Json>

  /** The three student fields, as one value. */
  datatype StudentInfo = StudentInfo(code: Option<string>, name: Option<string>, className: Option<string>)

  const StudentCodeKey: string := "student_code"
  const StudentNameKey: string := "student_name"
  const StudentClassKey: string := "student_class"

  /** `d.get(key, current)`: the dictionary's value when the key is present, else the current one. */
  function GetOr(d: map<string, Option<string>>, key: string, current: Option<string>): (r: Option<string>)
    ensures key in d ==> r == d[key]
    ensures key !in d ==> r == current
  {
    if key in d then d[key] else current
  }

  /**
   * update_student_info on the student fields: nothing changes for a
   * missing (`None`) or empty dictionary; otherwise each field takes the
   * dictionary's value for its key, `None` included, and keeps its value
   * when the key is absent. Keys other than the three are ignored.
   */
  function UpdatedStudentInfo(current: StudentInfo, info: Option<map<string, Option<string>>>): (r: StudentInfo)
    ensures (info.None? || info.value == map[]) ==> r == current
    ensures info.Some? ==>
      && (StudentCodeKey in info.value ==> r.code == info.value[StudentCodeKey])
      && (StudentCodeKey !in info.value ==> r.code == current.code)
      && (StudentNameKey in info.value ==> r.name == info.value[StudentNameKey])
      && (StudentNameKey !in info.value ==> r.name == current.name)
      && (StudentClassKey in info.value ==> r.className == info.value[StudentClassKey])
      && (StudentClassKey !in info.value ==> r.className == current.className)
  {
    match info
    case None => current
    case Some(d) =>
      if d == map[] then current
      else StudentInfo(GetOr(d, StudentCodeKey, current.code),
                       GetOr(d, StudentNameKey, current.name),
                       GetOr(d, StudentClassKey, current.className))
  }

  /** Applying the same update twice is the same as applying it once. */
  lemma UpdatedStudentInfoIdempotent(current: StudentInfo, info: Option<map<string, Option<string>>>)
    ensures UpdatedStudentInfo(UpdatedStudentInfo(current, info), info) == UpdatedStudentInfo(current, info)
  {
  }

  /**
   * A dictionary holding all three keys overwrites the fields whatever they
   * were before: the result no longer depends on the current state.
   */
  lemma FullStudentInfoOverwrites(a: StudentInfo, b: StudentInfo, d: map<string, Option<string>>)
    requires StudentCodeKey in d && StudentNameKey in d && StudentClassKey in d
    ensures UpdatedStudentInfo(a, Some(d)) == UpdatedStudentInfo(b, Some(d))
  {
  }

  /** `if data: field = data`: a non-empty value replaces the old one wholesale. */
  function ReplaceIfNonEmpty(current: seq<Record>, data: seq<Record>): (r: seq<Record>)
    ensures data == [] ==> r == current
    ensures data != [] ==> r == data
  {
    if data != [] then data else current
  }

  /** The same rule for the averages table. */
  function ReplaceTableIfNonEmpty(current: Record, data: Record): (r: Record)
    ensures data == map[] ==> r == current
    ensures data != map[] ==> r == data
  {
    if data != map[] then data else current
  }

  class MyAgentState {
    var messages: seq<Message>
    var studentCode: Option<string>
    var studentName: Option<string>
    var studentClass: Option<string>
    var scores: seq<Record>
    var averageScores: Record
    var ragResults: seq<Record>
    var currentTask: Option<string>
    var currentTool: Option<string>
    var awaitingHumanInput: bool
    var humanInputPrompt: Option<string>

    /** A fresh state: nothing said, nothing known, not waiting for the user. */
    constructor()
      ensures messages == [] && scores == [] && averageScores == map[] && ragResults == []
      ensures studentCode.None? && studentName.None? && studentClass.None?
      ensures currentTask.None? && currentTool.None?
      ensures !awaitingHumanInput && humanInputPrompt.None?
    {
      messages := [];
      studentCode := None;
      studentName := None;
      studentClass := None;
      scores := [];
      averageScores := map[];
      ragResults := [];
      currentTask := None;
      currentTool := None;
      awaitingHumanInput := false;
      humanInputPrompt := None;
    }

    /** The student fields as one value. */
    function Student(): (r: StudentInfo)
      reads this
      ensures r.code == studentCode && r.name == studentName && r.className == studentClass
    {
      StudentInfo(studentCode, studentName, studentClass)
    }

    /** add_message: the message goes at the end; no other field changes. */
    method AddMessage(m: Message)
      modifies this
      ensures messages == old(messages) + [m]
      ensures Student() == old(Student()) && scores == old(scores) && averageScores == old(averageScores)
      ensures ragResults == old(ragResults) && currentTask == old(currentTask) && currentTool == old(currentTool)
      ensures awaitingHumanInput == old(awaitingHumanInput) && humanInputPrompt == old(humanInputPrompt)
    {
      messages := messages + [m];
    }

    /** get_last_message: `None` exactly when there are no messages, else the last one. */
    function GetLastMessage(): (r: Option<Message>)
      reads this
      ensures r.None? <==> messages == []
      ensures r.Some? ==> r.value == messages[|messages| - 1]
    {
      if messages == [] then None else Some(messages[|messages| - 1])
    }

    /** clear_scores: the scores and the averages are emptied; nothing else changes. */
    method ClearScores()
      modifies this
      ensures scores == [] && averageScores == map[]
      ensures messages == old(messages) && Student() == old(Student()) && ragResults == old(ragResults)
      ensures currentTask == old(currentTask) && currentTool == old(currentTool)
      ensures awaitingHumanInput == old(awaitingHumanInput) && humanInputPrompt == old(humanInputPrompt)
    {
      scores := [];
      averageScores := map[];
    }

    /** set_awaiting_human_input: the state waits for the user, showing `prompt`. */
    method SetAwaitingHumanInput(prompt: string)
      modifies this
      ensures awaitingHumanInput && humanInputPrompt == Some(prompt)
      ensures messages == old(messages) && Student() == old(Student()) && scores == old(scores)
      ensures averageScores == old(averageScores) && ragResults == old(ragResults)
      ensures currentTask == old(currentTask) && currentTool == old(currentTool)
    {
      awaitingHumanInput := true;
      humanInputPrompt := Some(prompt);
    }

    /**
     * set_human_input_received: back to not waiting, with no prompt, the
     * flags a fresh state starts with.
     */
    method SetHumanInputReceived()
      modifies this
      ensures !awaitingHumanInput && humanInputPrompt.None?
      ensures messages == old(messages) && Student() == old(Student()) && scores == old(scores)
      ensures averageScores == old(averageScores) && ragResults == old(ragResults)
      ensures currentTask == old(currentTask) && currentTool == old(currentTool)
    {
      awaitingHumanInput := false;
      humanInputPrompt := None;
    }

    /** stored_scores_to_json, before serialisation: an object whose one key "scores" holds the rows. */
    function StoredScores(): (r: Json)
      reads this
      ensures r.JObj? && r.fields.Keys == {"scores"}
      ensures r.fields["scores"].JArr? && |r.fields["scores"].items| == |scores|
      ensures forall i :: 0 <= i < |scores| ==> r.fields["scores"].items[i] == JObj(scores[i])
    {
      JObj(map["scores" := JArr(seq(|scores|, i requires 0 <= i < |scores| reads this => JObj(scores[i])))])
    }

    /**
     * update_student_info: see UpdatedStudentInfo for the rule; the fields
     * other than the student's are left alone.
     */
    method UpdateStudentInfo(info: Option<map<string, Option<string>>>)
      modifies this
      ensures Student() == UpdatedStudentInfo(old(Student()), info)
      ensures messages == old(messages) && scores == old(scores) && averageScores == old(averageScores)
      ensures ragResults == old(ragResults) && currentTask == old(currentTask) && currentTool == old(currentTool)
      ensures awaitingHumanInput == old(awaitingHumanInput) && humanInputPrompt == old(humanInputPrompt)
    {
      if info.Some? && info.value != map[] {
        studentCode := GetOr(info.value, StudentCodeKey, studentCode);
        studentName := GetOr(info.value, StudentNameKey, studentName);
        studentClass := GetOr(info.value, StudentClassKey, studentClass);
      }
    }

    /** update_scores: an empty list changes nothing, any other replaces the scores. */
    method UpdateScores(data: seq<Record>)
      modifies this
      ensures scores == ReplaceIfNonEmpty(old(scores), data)
      ensures messages == old(messages) && Student() == old(Student()) && averageScores == old(averageScores)
      ensures ragResults == old(ragResults) && currentTask == old(currentTask) && currentTool == old(currentTool)
      ensures awaitingHumanInput == old(awaitingHumanInput) && humanInputPrompt == old(humanInputPrompt)
    {
      if data != [] {
        scores := data;
      }
    }

    /** update_average_scores: an empty table changes nothing, any other replaces the averages. */
    method UpdateAverageScores(data: Record)
      modifies this
      ensures averageScores == ReplaceTableIfNonEmpty(old(averageScores), data)
      ensures messages == old(messages) && Student() == old(Student()) && scores == old(scores)
      ensures ragResults == old(ragResults) && currentTask == old(currentTask) && currentTool == old(currentTool)
      ensures awaitingHumanInput == old(awaitingHumanInput) && humanInputPrompt == old(humanInputPrompt)
    {
      if data != map[] {
        averageScores := data;
      }
    }
  }
}
