/**
 * The `calculate_average_scores` tool of score/calculator.py: it decodes a
 * JSON document whose "scores" list holds score entries, skips the entries
 * that lack one of the four score columns, and averages each column over
 * all complete entries and over the complete entries of each semester.
 */
module ScoreCalculator {
  import opened Common
  import Tool = ScoreCalculatorTool

  const FirstKey: string := "score_first"
  const SecondKey: string := "score_second"
  const FinalKey: string := "score_final"
  const OverallKey: string := "score_over_rall"

  /** The semester an entry without one is grouped under. */
  const UnknownSemester: Json := JStr("unknown")

  /** The four score columns the tool averages, in the order it lists them. */
  datatype Columns = Columns(first: real, second: real, final: real, overall: real)

  const ZeroColumns: Columns := Columns(0.0, 0.0, 0.0, 0.0)

  function Plus(a: Columns, b: Columns): Columns
  {
    Columns(a.first + b.first, a.second + b.second, a.final + b.final, a.overall + b.overall)
  }

  /** One accumulator dictionary: the running sum of each column and the count of entries. */
  datatype Totals = Totals(sums: Columns, count: nat)

  const NoTotals: Totals := Totals(ZeroColumns, 0)

  /** One more entry, with the given columns. */
  function AddEntry(t: Totals, v: Columns): Totals
  {
    Totals(Plus(t.sums, v), t.count + 1)
  }

  function AddTotals(a: Totals, b: Totals): Totals
  {
    Totals(Plus(a.sums, b.sums), a.count + b.count)
  }

  /**
   * The state after some entries: the overall accumulator, the semesters in
   * the order they were first seen (the key order of the dictionary), and the
   * accumulator of each semester.
   */
  datatype Grouping = Grouping(overall: Totals, semesters: seq<Json>, table: map<Json, Totals>)

  const NoEntries: Grouping := Grouping(NoTotals, [], map[])

  /** `score.get(k) is not None`. */
  predicate Present(f: map<string, Json>, k: string)
  {
    k in f && f[k] != JNull
  }

  /** All four columns are present and not null. */
  predicate Complete(f: map<string, Json>)
  {
    Present(f, FirstKey) && Present(f, SecondKey) && Present(f, FinalKey) && Present(f, OverallKey)
  }

  /** `score.get("semester", "unknown")`. */
  function SemesterOf(f: map<string, Json>): (s: Json)
    ensures "semester" !in f ==> s == UnknownSemester
  {
    if "semester" in f then f["semester"] else UnknownSemester
  }

  /** A value Python can use as a dictionary key: lists and dictionaries cannot. */
  predicate Hashable(j: Json)
  {
    !j.JArr? && !j.JObj?
  }

  /** Each column is a number `+=` can add to a float: an int, a float or a bool. */
  predicate Numbers(f: map<string, Json>)
    requires Complete(f)
  {
    && Tool.Numeric(f[FirstKey]).Some? && Tool.Numeric(f[SecondKey]).Some?
    && Tool.Numeric(f[FinalKey]).Some? && Tool.Numeric(f[OverallKey]).Some?
  }

  function ColumnsOf(f: map<string, Json>): Columns
    requires Complete(f) && Numbers(f)
  {
    Columns(Tool.Numeric(f[FirstKey]).value, Tool.Numeric(f[SecondKey]).value,
            Tool.Numeric(f[FinalKey]).value, Tool.Numeric(f[OverallKey]).value)
  }

  /** A complete entry, whose columns are added. */
  predicate Counted(item: Json)
  {
    item.JObj? && Complete(item.fields)
  }

  /**
   * An entry the loop gets past without an exception: a dictionary (`.get`
   * raises on anything else) whose semester, when it is complete, can be a
   * key and whose columns can be added.
   */
  predicate Accepted(item: Json)
  {
    && item.JObj?
    && (Complete(item.fields) ==> Hashable(SemesterOf(item.fields)) && Numbers(item.fields))
  }

  /** One pass of the loop: skip an incomplete entry, otherwise add it overall and to its semester; `None` where it raises. */
  function Step(g: Grouping, item: Json): (r: Option<Grouping>)
  {
    if !item.JObj? then None
    else if !Complete(item.fields) then Some(g)
    else
      var sem := SemesterOf(item.fields);
      if !Hashable(sem) || !Numbers(item.fields) then None
      else
        var v := ColumnsOf(item.fields);
        var before := if sem in g.table then g.table[sem] else NoTotals;
        Some(Grouping(AddEntry(g.overall, v),
                      if sem in g.table then g.semesters else g.semesters + [sem],
                      g.table[sem := AddEntry(before, v)]))
  }

  /** A step over a complete entry whose columns are numbers, as the loop body takes it. */
  lemma CountedStep(g: Grouping, item: Json, h: Grouping)
    requires Counted(item) && Accepted(item)
    requires var sem, v := SemesterOf(item.fields), ColumnsOf(item.fields);
      && h.overall == AddEntry(g.overall, v)
      && h.semesters == (if sem in g.table then g.semesters else g.semesters + [sem])
      && h.table == (if sem in g.table then g.table else g.table[sem := NoTotals])[sem := AddEntry(if sem in g.table then g.table[sem] else NoTotals, v)]
    ensures Step(g, item) == Some(h)
  {
    var sem := SemesterOf(item.fields);
    var v := ColumnsOf(item.fields);
    assert h.table == g.table[sem := AddEntry(if sem in g.table then g.table[sem] else NoTotals, v)];
  }

  /** The loop over the entries, one step per entry. */
  function Accumulate(items: seq<Json>): (r: Option<Grouping>)
    decreases |items|
  {
    if items == [] then Some(NoEntries)
    else
      match Accumulate(items[..|items| - 1])
      case None => None
      case Some(g) => Step(g, items[|items| - 1])
  }

  /** A step goes through exactly when its entry is accepted. */
  lemma StepAccepts(g: Grouping, item: Json)
    ensures Step(g, item).Some? <==> Accepted(item)
    ensures !Counted(item) && Accepted(item) ==> Step(g, item) == Some(g)
  {
  }

  /** The loop goes through exactly when every entry is accepted. */
  lemma {:induction false} AccumulateAccepts(items: seq<Json>)
    ensures Accumulate(items).Some? <==> forall i :: 0 <= i < |items| ==> Accepted(items[i])
  {
    if items != [] {
      var init := items[..|items| - 1];
      AccumulateAccepts(init);
      assert forall i :: 0 <= i < |init| ==> init[i] == items[i];
      if Accumulate(init).Some? {
        StepAccepts(Accumulate(init).value, items[|items| - 1]);
      }
    }
  }

  /** One entry that raises makes the whole loop raise. */
  lemma RefusedEntry(items: seq<Json>, i: nat)
    requires i < |items| && !Accepted(items[i])
    ensures Accumulate(items).None?
  {
    AccumulateAccepts(items);
  }

  /** The sum of the accumulators of some semesters. */
  function SumOver(keys: seq<Json>, table: map<Json, Totals>): Totals
    requires forall k :: 0 <= k < |keys| ==> keys[k] in table
    decreases |keys|
  {
    if keys == [] then NoTotals
    else AddTotals(SumOver(keys[..|keys| - 1], table), table[keys[|keys| - 1]])
  }

  /** Changing a semester that is not among the keys changes nothing. */
  lemma {:induction false} SumOverOutside(keys: seq<Json>, table: map<Json, Totals>, s: Json, t: Totals)
    requires forall k :: 0 <= k < |keys| ==> keys[k] in table
    requires s !in keys
    ensures SumOver(keys, table[s := t]) == SumOver(keys, table)
    decreases |keys|
  {
    if keys != [] {
      SumOverOutside(keys[..|keys| - 1], table, s, t);
    }
  }

  /** One more entry in a semester that occurs once among the keys is one more entry in the sum. */
  lemma {:induction false} SumOverInside(keys: seq<Json>, table: map<Json, Totals>, s: Json, v: Columns)
    requires forall k :: 0 <= k < |keys| ==> keys[k] in table
    requires NoDuplicates(keys) && s in keys
    ensures SumOver(keys, table[s := AddEntry(table[s], v)]) == AddEntry(SumOver(keys, table), v)
    decreases |keys|
  {
    var init, last := keys[..|keys| - 1], keys[|keys| - 1];
    assert NoDuplicates(init);
    if last == s {
      assert s !in init;
      SumOverOutside(init, table, s, AddEntry(table[s], v));
    } else {
      assert s in init by {
        var i :| 0 <= i < |keys| && keys[i] == s;
        assert i < |keys| - 1 && init[i] == s;
      }
      SumOverInside(init, table, s, v);
    }
  }

  /**
   * What the loop keeps: every semester is listed once and has a counted
   * entry, and the overall accumulator is the sum of the semesters' ones.
   */
  predicate WellGrouped(g: Grouping)
  {
    && NoDuplicates(g.semesters)
    && (forall k :: 0 <= k < |g.semesters| ==> g.semesters[k] in g.table)
    && (forall s :: s in g.table ==> s in g.semesters)
    && (forall s :: s in g.table ==> g.table[s].count > 0)
    && SumOver(g.semesters, g.table) == g.overall
  }

  /** Every step keeps the grouping well formed. */
  lemma StepKeeps(g: Grouping, item: Json)
    requires WellGrouped(g) && Step(g, item).Some?
    ensures WellGrouped(Step(g, item).value)
  {
    if Counted(item) {
      var sem := SemesterOf(item.fields);
      var v := ColumnsOf(item.fields);
      if sem in g.table {
        AddToKnown(g, sem, v);
      } else {
        AddToNew(g, sem, v);
      }
    }
  }

  /** Adding an entry to a semester already seen keeps the grouping well formed. */
  lemma AddToKnown(g: Grouping, sem: Json, v: Columns)
    requires WellGrouped(g) && sem in g.table
    ensures WellGrouped(Grouping(AddEntry(g.overall, v), g.semesters, g.table[sem := AddEntry(g.table[sem], v)]))
  {
    SumOverInside(g.semesters, g.table, sem, v);
  }

  /** Adding an entry to a new semester, listed last, keeps the grouping well formed. */
  lemma AddToNew(g: Grouping, sem: Json, v: Columns)
    requires WellGrouped(g) && sem !in g.table
    ensures WellGrouped(Grouping(AddEntry(g.overall, v), g.semesters + [sem], g.table[sem := AddEntry(NoTotals, v)]))
  {
    var keys, table := g.semesters + [sem], g.table[sem := AddEntry(NoTotals, v)];
    assert keys[..|keys| - 1] == g.semesters;
    SumOverOutside(g.semesters, g.table, sem, AddEntry(NoTotals, v));
    assert SumOver(keys, table) == AddTotals(SumOver(g.semesters, table), AddEntry(NoTotals, v));
  }

  /** Whatever the loop reaches is well formed. */
  lemma {:induction false} AccumulateWellGrouped(items: seq<Json>)
    requires Accumulate(items).Some?
    ensures WellGrouped(Accumulate(items).value)
  {
    if items != [] {
      AccumulateWellGrouped(items[..|items| - 1]);
      StepKeeps(Accumulate(items[..|items| - 1]).value, items[|items| - 1]);
    }
  }

  /** The columns and the number of the complete entries, added up directly. */
  function Tally(items: seq<Json>): Totals
    requires forall i :: 0 <= i < |items| ==> Accepted(items[i])
    decreases |items|
  {
    if items == [] then NoTotals
    else
      var rest, item := Tally(items[..|items| - 1]), items[|items| - 1];
      assert Accepted(item);
      if Complete(item.fields) then AddEntry(rest, ColumnsOf(item.fields)) else rest
  }

  /** The same for the complete entries of one semester. */
  function SemesterTally(items: seq<Json>, s: Json): Totals
    requires forall i :: 0 <= i < |items| ==> Accepted(items[i])
    decreases |items|
  {
    if items == [] then NoTotals
    else
      var rest, item := SemesterTally(items[..|items| - 1], s), items[|items| - 1];
      assert Accepted(item);
      if Complete(item.fields) && SemesterOf(item.fields) == s then AddEntry(rest, ColumnsOf(item.fields)) else rest
  }

  /** Some complete entry has semester s. */
  predicate HasSemester(items: seq<Json>, s: Json)
  {
    exists i :: 0 <= i < |items| && Counted(items[i]) && SemesterOf(items[i].fields) == s
  }

  /**
   * The loop computes the direct tallies: overall, the sums and the number of
   * the complete entries; per semester, those of its complete entries, and a
   * semester appears exactly when one of its entries is complete.
   */
  lemma {:induction false} AccumulateTallies(items: seq<Json>)
    requires forall i :: 0 <= i < |items| ==> Accepted(items[i])
    ensures Accumulate(items).Some?
    ensures var g := Accumulate(items).value;
      && g.overall == Tally(items)
      && (forall s :: s in g.table <==> HasSemester(items, s))
      && (forall s :: s in g.table ==> g.table[s] == SemesterTally(items, s))
  {
    AccumulateAccepts(items);
    if items != [] {
      var init, item := items[..|items| - 1], items[|items| - 1];
      assert forall i :: 0 <= i < |init| ==> init[i] == items[i];
      AccumulateTallies(init);
      var g := Accumulate(init).value;
      var h := Accumulate(items).value;
      assert h == Step(g, item).value;
      forall s
        ensures s in h.table <==> HasSemester(items, s)
      {
        HasSemesterLast(items, s);
      }
      forall s | s in h.table
        ensures h.table[s] == SemesterTally(items, s)
      {
        if s !in g.table {
          SemesterTallyAbsent(init, s);
        }
      }
    }
  }

  /** Some complete entry has semester s exactly when one before the last has, or the last has. */
  lemma HasSemesterLast(items: seq<Json>, s: Json)
    requires items != []
    ensures var last := items[|items| - 1];
      HasSemester(items, s) <==> HasSemester(items[..|items| - 1], s) || (Counted(last) && SemesterOf(last.fields) == s)
  {
    var init, last := items[..|items| - 1], items[|items| - 1];
    assert HasSemester(items, s) ==> HasSemester(init, s) || (Counted(last) && SemesterOf(last.fields) == s) by {
      if HasSemester(items, s) {
        var i :| 0 <= i < |items| && Counted(items[i]) && SemesterOf(items[i].fields) == s;
        if i < |init| {
          assert init[i] == items[i];
        }
      }
    }
    assert HasSemester(init, s) ==> HasSemester(items, s) by {
      if HasSemester(init, s) {
        var i :| 0 <= i < |init| && Counted(init[i]) && SemesterOf(init[i].fields) == s;
        assert items[i] == init[i];
      }
    }
  }

  /** A semester without a complete entry has an empty tally. */
  lemma {:induction false} SemesterTallyAbsent(items: seq<Json>, s: Json)
    requires forall i :: 0 <= i < |items| ==> Accepted(items[i])
    requires !HasSemester(items, s)
    ensures SemesterTally(items, s) == NoTotals
    decreases |items|
  {
    if items != [] {
      var init := items[..|items| - 1];
      assert forall i :: 0 <= i < |init| ==> init[i] == items[i];
      SemesterTallyAbsent(init, s);
    }
  }

  /** `x /= count` on each column when the count is positive. */
  function Divided(t: Totals): (r: Totals)
    ensures r.count == t.count
  {
    if t.count > 0 then
      var n := t.count as real;
      Totals(Columns(t.sums.first / n, t.sums.second / n, t.sums.final / n, t.sums.overall / n), t.count)
    else t
  }

  /** One entry of "semester_averages", in key order. */
  datatype SemesterAverage = SemesterAverage(semester: Json, averages: Columns)

  /** The tool's reply before `json.dumps`. */
  datatype CalcReply =
    | NoScores
    | Failed
    | Computed(overallAverage: Columns, semesterAverages: seq<SemesterAverage>, totalSubjects: nat, message: string)

  function CountMessage(subjects: nat, semesters: nat): string
  {
    "Calculated averages for " + NatToString(subjects) + " subjects across " + NatToString(semesters) + " semesters"
  }

  function ReplyMessage(r: CalcReply): string
  {
    match r
    case NoScores => "No scores data provided or scores array is empty"
    case Failed => "Error calculating averages: "
    case Computed(_, _, _, m) => m
  }

  /** The averages and the result object built from a finished loop. */
  function Finish(g: Grouping): (r: CalcReply)
    requires WellGrouped(g)
  {
    Computed(Divided(g.overall).sums,
             seq(|g.semesters|, k requires 0 <= k < |g.semesters| =>
               SemesterAverage(g.semesters[k], Divided(g.table[g.semesters[k]]).sums)),
             g.overall.count,
             CountMessage(g.overall.count, |g.semesters|))
  }

  /**
   * The whole tool: `decode` stands for `json.loads`, `None` where it
   * raises. A "scores" value other than a list raises once it is iterated or
   * its elements are asked for `.get`.
   */
  function Calculation(input: string, decode: string -> Option<Json>): (r: CalcReply)
  {
    match decode(input)
    case None => Failed
    case Some(data) =>
      match Tool.ScoresField(data)
      case Missing => NoScores
      case Raises => Failed
      case Found(v) =>
        if !v.JArr? then Failed
        else
          match Accumulate(v.items)
          case None => Failed
          case Some(g) => AccumulateWellGrouped(v.items); Finish(g)
  }

  /**
   * The semesters of the finished loop carry the direct tallies of their
   * entries, and together they add up to the overall tally: total_subjects is
   * the sum of the per-semester counts.
   */
  lemma {:induction false} SemestersAddUp(items: seq<Json>)
    requires forall i :: 0 <= i < |items| ==> Accepted(items[i])
    ensures Accumulate(items).Some?
    ensures var g := Accumulate(items).value;
      && WellGrouped(g)
      && (forall k :: 0 <= k < |g.semesters| ==> g.table[g.semesters[k]] == SemesterTally(items, g.semesters[k]))
      && SumOver(g.semesters, g.table) == Tally(items)
  {
    AccumulateTallies(items);
    AccumulateWellGrouped(items);
  }

  /** The semester keys of a reply, in order. */
  function ReplySemesters(r: CalcReply): (ks: seq<Json>)
    requires r.Computed?
    ensures |ks| == |r.semesterAverages|
  {
    seq(|r.semesterAverages|, k requires 0 <= k < |r.semesterAverages| => r.semesterAverages[k].semester)
  }

  /**
   * For a "scores" list whose entries are all accepted, total_subjects counts the complete entries, the overall
   * averages divide their sums by that count, and each semester that has a
   * complete entry appears once, with its own sums divided by its own
   * positive count.
   */
  lemma ListAverages(input: string, decode: string -> Option<Json>, items: seq<Json>)
    requires decode(input).Some? && decode(input).value.JObj?
    requires "scores" in decode(input).value.fields && decode(input).value.fields["scores"] == JArr(items)
    requires items != [] && forall i :: 0 <= i < |items| ==> Accepted(items[i])
    ensures var r := Calculation(input, decode);
      && r.Computed?
      && r.totalSubjects == Tally(items).count
      && r.overallAverage == Divided(Tally(items)).sums
      && r.message == CountMessage(r.totalSubjects, |r.semesterAverages|)
      && NoDuplicates(ReplySemesters(r))
      && (forall s :: s in ReplySemesters(r) <==> HasSemester(items, s))
      && (forall k :: 0 <= k < |r.semesterAverages| ==>
            var t := SemesterTally(items, r.semesterAverages[k].semester);
            t.count > 0 && r.semesterAverages[k].averages == Divided(t).sums)
  {
    ListCalculation(input, decode, items);
    AcceptedReply(items);
  }

  /** ListAverages for the reply finishing the loop over `items`. */
  lemma AcceptedReply(items: seq<Json>)
    requires forall i :: 0 <= i < |items| ==> Accepted(items[i])
    ensures Accumulate(items).Some? && WellGrouped(Accumulate(items).value)
    ensures var r := Finish(Accumulate(items).value);
      && r.Computed?
      && r.totalSubjects == Tally(items).count
      && r.overallAverage == Divided(Tally(items)).sums
      && r.message == CountMessage(r.totalSubjects, |r.semesterAverages|)
      && NoDuplicates(ReplySemesters(r))
      && (forall s :: s in ReplySemesters(r) <==> HasSemester(items, s))
      && (forall k :: 0 <= k < |r.semesterAverages| ==>
            var t := SemesterTally(items, r.semesterAverages[k].semester);
            t.count > 0 && r.semesterAverages[k].averages == Divided(t).sums)
  {
    SemestersAddUp(items);
    AccumulateTallies(items);
    var g := Accumulate(items).value;
    FinishFields(g);
    var r := Finish(g);
    forall k | 0 <= k < |r.semesterAverages|
      ensures SemesterTally(items, r.semesterAverages[k].semester) == g.table[g.semesters[k]]
    {
      assert r.semesterAverages[k].semester == ReplySemesters(r)[k] == g.semesters[k];
    }
  }

  /** For a "scores" list, the reply is an error as soon as one entry raises. */
  lemma ListRaises(input: string, decode: string -> Option<Json>, items: seq<Json>, i: nat)
    requires decode(input).Some? && decode(input).value.JObj?
    requires "scores" in decode(input).value.fields && decode(input).value.fields["scores"] == JArr(items)
    requires items != []
    requires i < |items| && !Accepted(items[i])
    ensures Calculation(input, decode) == Failed
  {
    RefusedEntry(items, i);
    ListCalculation(input, decode, items);
  }

  /** For a "scores" list the reply is the finished loop's, or an error where the loop raises. */
  lemma ListCalculation(input: string, decode: string -> Option<Json>, items: seq<Json>)
    requires decode(input).Some? && decode(input).value.JObj?
    requires "scores" in decode(input).value.fields && decode(input).value.fields["scores"] == JArr(items)
    requires items != []
    ensures Accumulate(items).None? ==> Calculation(input, decode) == Failed
    ensures Accumulate(items).Some? ==>
      WellGrouped(Accumulate(items).value) && Calculation(input, decode) == Finish(Accumulate(items).value)
  {
    assert Truthy(JArr(items));
    if Accumulate(items).Some? {
      AccumulateWellGrouped(items);
    }
  }

  /** The finished reply: overall and per-semester sums divided by their counts, semesters in order. */
  lemma FinishFields(g: Grouping)
    requires WellGrouped(g)
    ensures var r := Finish(g);
      && r.Computed?
      && r.totalSubjects == g.overall.count
      && r.overallAverage == Divided(g.overall).sums
      && r.message == CountMessage(r.totalSubjects, |r.semesterAverages|)
      && ReplySemesters(r) == g.semesters
      && (forall k :: 0 <= k < |r.semesterAverages| ==> r.semesterAverages[k].averages == Divided(g.table[g.semesters[k]]).sums)
  {
    assert ReplySemesters(Finish(g)) == g.semesters;
  }

  /** With no complete entry the overall averages stay 0.0 and no semester is listed. */
  lemma NoCompleteEntries(input: string, decode: string -> Option<Json>, items: seq<Json>)
    requires decode(input).Some? && decode(input).value.JObj?
    requires "scores" in decode(input).value.fields && decode(input).value.fields["scores"] == JArr(items)
    requires items != []
    requires forall i :: 0 <= i < |items| ==> items[i].JObj? && !Complete(items[i].fields)
    ensures Calculation(input, decode) == Computed(ZeroColumns, [], 0, CountMessage(0, 0))
  {
    assert Truthy(JArr(items));
    NothingCounted(items);
    assert Finish(NoEntries) == Computed(ZeroColumns, [], 0, CountMessage(0, 0));
  }

  /** Entries that are all incomplete leave both accumulators as they started. */
  lemma {:induction false} NothingCounted(items: seq<Json>)
    requires forall i :: 0 <= i < |items| ==> items[i].JObj? && !Complete(items[i].fields)
    ensures Accumulate(items) == Some(NoEntries)
    decreases |items|
  {
    if items != [] {
      var init := items[..|items| - 1];
      assert forall i :: 0 <= i < |init| ==> init[i] == items[i];
      NothingCounted(init);
    }
  }

  /** A complete entry without a "semester" key is grouped under "unknown". */
  lemma UnknownGrouped(items: seq<Json>, i: nat)
    requires forall j :: 0 <= j < |items| ==> Accepted(items[j])
    requires i < |items| && Counted(items[i]) && "semester" !in items[i].fields
    ensures Accumulate(items).Some? && UnknownSemester in Accumulate(items).value.semesters
  {
    SemestersAddUp(items);
    AccumulateTallies(items);
    assert HasSemester(items, UnknownSemester);
  }

  /** A missing or empty "scores" value is answered with the no-scores message, and nothing else is. */
  lemma NoScoresExactly(input: string, decode: string -> Option<Json>)
    ensures Calculation(input, decode) == NoScores <==>
              decode(input).Some? && Tool.ScoresField(decode(input).value).Missing?
    ensures ReplyMessage(NoScores) == "No scores data provided or scores array is empty"
  {
  }

  /** The loop of lines 50-77 over the entries, updating the two accumulators; `None` where it raises. */
  method SumEntries(scores: seq<Json>) returns (r: Option<Grouping>)
    ensures r == Accumulate(scores)
  {
    var g := NoEntries;
    for i := 0 to |scores|
      invariant Accumulate(scores[..i]) == Some(g)
    {
      assert scores[..i + 1][..i] == scores[..i];
      var next := AddScore(g, scores[i]);
      if next.None? {
        StepAccepts(g, scores[i]);
        RefusedEntry(scores, i);
        return None;
      }
      g := next.value;
    }
    assert scores[..|scores|] == scores;
    r := Some(g);
  }

  /** One pass of the loop body over `score`, from the accumulators in `g`. */
  method AddScore(g: Grouping, score: Json) returns (r: Option<Grouping>)
    ensures r == Step(g, score)
  {
    if !score.JObj? {
      return None;
    }
    var f := score.fields;
    if !(Present(f, FirstKey) && Present(f, SecondKey) && Present(f, FinalKey) && Present(f, OverallKey)) {
      return Some(g);
    }
    var overall, semesters, table := g.overall, g.semesters, g.table;
    var semester := if "semester" in f then f["semester"] else UnknownSemester;
    if semester.JArr? || semester.JObj? {
      return None;
    }
    if semester !in table {
      table := table[semester := NoTotals];
      semesters := semesters + [semester];
    }
    assert semester == SemesterOf(f) && Counted(score);
    var first, second := Tool.Numeric(f[FirstKey]), Tool.Numeric(f[SecondKey]);
    var final, over := Tool.Numeric(f[FinalKey]), Tool.Numeric(f[OverallKey]);
    if first.None? || second.None? || final.None? || over.None? {
      return None;
    }
    ghost var v := ColumnsOf(f);
    assert v == Columns(first.value, second.value, final.value, over.value);
    overall := Totals(Columns(overall.sums.first + first.value, overall.sums.second + second.value,
                              overall.sums.final + final.value, overall.sums.overall + over.value),
                      overall.count + 1);
    var t := table[semester];
    table := table[semester := Totals(Columns(t.sums.first + first.value, t.sums.second + second.value,
                                              t.sums.final + final.value, t.sums.overall + over.value),
                                      t.count + 1)];
    assert t == if semester in g.table then g.table[semester] else NoTotals;
    assert overall == AddEntry(g.overall, v);
    assert table[semester] == AddEntry(t, v);
    CountedStep(g, score, Grouping(overall, semesters, table));
    r := Some(Grouping(overall, semesters, table));
  }

  /** The loop of lines 86-91: each semester's sums divided by its count, in place. */
  method DivideSemesters(semesters: seq<Json>, table: map<Json, Totals>) returns (divided: map<Json, Totals>)
    requires forall k :: 0 <= k < |semesters| ==> semesters[k] in table
    requires NoDuplicates(semesters)
    ensures divided.Keys == table.Keys
    ensures forall k :: 0 <= k < |semesters| ==> divided[semesters[k]] == Divided(table[semesters[k]])
  {
    divided := table;
    for j := 0 to |semesters|
      invariant divided.Keys == table.Keys
      invariant forall k :: 0 <= k < |semesters| ==>
                  divided[semesters[k]] == if k < j then Divided(table[semesters[k]]) else table[semesters[k]]
    {
      var t := divided[semesters[j]];
      if t.count > 0 {
        var n := t.count as real;
        divided := divided[semesters[j] := Totals(Columns(t.sums.first / n, t.sums.second / n,
                                                          t.sums.final / n, t.sums.overall / n), t.count)];
      }
    }
  }

  /** calculate_average_scores, step by step as the tool updates its two accumulators. */
  method CalculateAverageScores(scoresJson: string, decode: string -> Option<Json>) returns (r: CalcReply)
    ensures r == Calculation(scoresJson, decode)
  {
    var parsed := decode(scoresJson);
    if parsed.None? {
      return Failed;
    }
    var field := Tool.ScoresField(parsed.value);
    if field.Missing? {
      return NoScores;
    }
    if field.Raises? || !field.value.JArr? {
      return Failed;
    }
    var scores := field.value.items;
    var summed := SumEntries(scores);
    if summed.None? {
      return Failed;
    }
    AccumulateWellGrouped(scores);
    var overall, semesters, table := summed.value.overall, summed.value.semesters, summed.value.table;
    if overall.count > 0 {
      var n := overall.count as real;
      overall := Totals(Columns(overall.sums.first / n, overall.sums.second / n,
                                overall.sums.final / n, overall.sums.overall / n), overall.count);
    }
    table := DivideSemesters(semesters, table);
    var averages := seq(|semesters|, k requires 0 <= k < |semesters| => SemesterAverage(semesters[k], table[semesters[k]].sums));
    r := Computed(overall.sums, averages, overall.count, CountMessage(overall.count, |semesters|));
  }
}
