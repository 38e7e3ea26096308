/**
 * The PM's plan reply, read line by line: `SUMMARY:` and `MODE:` lines
 * overwrite the summary and work mode, and lines that begin with a digit
 * 1..9 and a dot become plan steps, numbered in order of appearance.
 */
module PlanParser {
  import opened Text
  import opened TeamTypes
  import opened Results

  const DefaultSummary: string := "Task execution plan"
  const AssignedTag: string := "[ASSIGNED:"

  /** What the parser has gathered so far. */
  datatype ParseState = ParseState(summary: string, steps: seq<PlanStep>, mode: string)

  /** The state before any line: the default summary, no steps, the forced mode or free_form. */
  function Initial(forcedMode: string): (r: ParseState)
    ensures r.summary == DefaultSummary && r.steps == []
    ensures r.mode == (if forcedMode != "" then forcedMode else ModeFreeForm)
  {
    ParseState(DefaultSummary, [], if forcedMode != "" then forcedMode else ModeFreeForm)
  }

  /** A trimmed line is a step iff it is longer than two bytes and starts with 1..9 and a dot. */
  predicate IsStepLine(line: string)
  {
    |line| > 2 && '1' <= line[0] <= '9' && line[1] == '.'
  }

  /** The step id for the n-th step: step_1, step_2, ... */
  function StepId(n: nat): (r: string)
    ensures HasPrefix(r, "step_") && r[5..] == NatToString(n)
  {
    "step_" + NatToString(n)
  }

  /** A `]` never occurs inside the tag, so one found after the tag starts lies beyond it. */
  lemma CloseAfterTag(line: string, idx: int, end: int)
    requires OccursAt(line, AssignedTag, idx)
    requires end >= 0 && OccursAt(line[idx..], "]", end)
    ensures end >= |AssignedTag|
  {
    var t := line[idx..];
    assert t[..|AssignedTag|] == AssignedTag;
    assert t[end] == ']';
  }

  /**
   * Where an assignment sits in a line: the first `[ASSIGNED:` tag and the
   * first `]` after it, when both exist.
   */
  function AssignmentSpan(line: string): (r: Option<(nat, nat)>)
    ensures r.None? <==> (!Contains(line, AssignedTag) || !Contains(line[IndexOf(line, AssignedTag)..], "]"))
    ensures r.Some? ==>
              var (idx, e) := r.value;
              idx == IndexOf(line, AssignedTag) && idx + |AssignedTag| <= e < |line|
              && line[e] == ']' && ']' !in line[idx + |AssignedTag|..e]
  {
    var idx := IndexOf(line, AssignedTag);
    if idx == -1 then None
    else
      var end := IndexOf(line[idx..], "]");
      if end == -1 then None
      else
        CloseAfterTag(line, idx, end);
        var e := idx + end;
        assert line[e] == line[idx..][end];
        assert ']' !in line[idx + |AssignedTag|..e] by {
          forall k | idx + |AssignedTag| <= k < e ensures line[k] != ']' {
            assert !OccursAt(line[idx..], "]", k - idx);
            assert line[idx..][k - idx..k - idx + 1] == [line[k]];
          }
        }
        Some((idx, e))
  }

  /**
   * The n-th step built from a step line: the whole line as description and
   * no assignee, unless an assignment span is present, in which case the
   * assignee is the text inside it and the description the text before it,
   * both trimmed.
   */
  function StepOf(line: string, n: nat): (r: PlanStep)
    ensures r.id == StepId(n) && r.status == "pending" && r.dependsOn == []
    ensures AssignmentSpan(line).None? ==> r.description == line && r.assignedTo == ""
    ensures AssignmentSpan(line).Some? ==>
              var (idx, e) := AssignmentSpan(line).value;
              r.description == TrimSpace(line[..idx]) && r.assignedTo == TrimSpace(line[idx + |AssignedTag|..e])
              && ']' !in r.assignedTo
  {
    match AssignmentSpan(line)
    case None => PlanStep(StepId(n), line, "", [], "pending")
    case Some((idx, e)) =>
      PlanStep(StepId(n), TrimSpace(line[..idx]), TrimSpace(line[idx + |AssignedTag|..e]), [], "pending")
  }

  /** The effect of one raw reply line; `forced` says the caller fixed the mode. */
  function ApplyLine(st: ParseState, raw: string, forced: bool): ParseState
  {
    var line := TrimSpace(raw);
    if HasPrefix(line, "SUMMARY:") then
      st.(summary := TrimSpace(TrimPrefix(line, "SUMMARY:")))
    else if HasPrefix(line, "MODE:") then
      var m := TrimSpace(TrimPrefix(line, "MODE:"));
      if !forced && IsKnownMode(m) then st.(mode := m) else st
    else if IsStepLine(line) then
      st.(steps := st.steps + [StepOf(line, |st.steps| + 1)])
    else st
  }

  /** The state after the given lines, applied first to last. */
  function ParseLines(init: ParseState, lines: seq<string>, forced: bool): ParseState
  {
    if |lines| == 0 then init
    else ApplyLine(ParseLines(init, lines[..|lines| - 1], forced), lines[|lines| - 1], forced)
  }

  /** parsePlanResponse as a value: the plan and the work mode. */
  function PlanOf(content: string, forcedMode: string): (Plan, string)
  {
    var st := ParseLines(Initial(forcedMode), Split(content, '\n'), forcedMode != "");
    (Plan(st.summary, st.steps, map[], ""), st.mode)
  }

  /** parsePlanResponse: one pass over the reply's lines. */
  method ParsePlanResponse(content: string, opts: Options) returns (plan: Plan, mode: string)
    ensures (plan, mode) == PlanOf(content, opts.mode)
  {
    var lines := Split(content, '\n');
    var forced := opts.mode != "";
    var st := Initial(opts.mode);
    var i := 0;
    while i < |lines|
      invariant 0 <= i <= |lines|
      invariant st == ParseLines(Initial(opts.mode), lines[..i], forced)
    {
      assert lines[..i + 1][..i] == lines[..i];
      st := ApplyLine(st, lines[i], forced);
      i := i + 1;
    }
    assert lines[..i] == lines;
    plan := Plan(st.summary, st.steps, map[], "");
    mode := st.mode;
  }

  // ---------------------------------------------------------------------
  // Independent descriptions of each field of the result

  /** The trimmed step lines, in order. */
  function StepLines(lines: seq<string>): (r: seq<string>)
    ensures |r| <= |lines|
    ensures forall l | l in r :: IsStepLine(l)
  {
    if |lines| == 0 then []
    else
      var init := StepLines(lines[..|lines| - 1]);
      var line := TrimSpace(lines[|lines| - 1]);
      if IsStepLine(line) then init + [line] else init
  }

  /** The trimmed text of the last SUMMARY: line, if any. */
  function LastSummary(lines: seq<string>): (r: Option<string>)
  {
    if |lines| == 0 then None
    else
      var line := TrimSpace(lines[|lines| - 1]);
      if HasPrefix(line, "SUMMARY:") then Some(TrimSpace(TrimPrefix(line, "SUMMARY:")))
      else LastSummary(lines[..|lines| - 1])
  }

  /** The last MODE: line naming a recognised mode, if any. */
  function LastKnownMode(lines: seq<string>): (r: Option<string>)
    ensures r.Some? ==> IsKnownMode(r.value)
  {
    if |lines| == 0 then None
    else
      var line := TrimSpace(lines[|lines| - 1]);
      var m := TrimSpace(TrimPrefix(line, "MODE:"));
      if !HasPrefix(line, "SUMMARY:") && HasPrefix(line, "MODE:") && IsKnownMode(m) then Some(m)
      else LastKnownMode(lines[..|lines| - 1])
  }

  /** A step line starts with a digit, so it is never a SUMMARY: or MODE: line. */
  lemma ApplyLineSteps(st: ParseState, raw: string, forced: bool)
    ensures var line := TrimSpace(raw);
            ApplyLine(st, raw, forced).steps
            == if IsStepLine(line) then st.steps + [StepOf(line, |st.steps| + 1)] else st.steps
  {
    var line := TrimSpace(raw);
    if IsStepLine(line) {
      assert !HasPrefix(line, "SUMMARY:") by { assert line[0] != 'S'; }
      assert !HasPrefix(line, "MODE:") by { assert line[0] != 'M'; }
    }
  }

  /** The given step lines as plan steps, the k-th (from 1) numbered k. */
  function NumberSteps(sl: seq<string>): (r: seq<PlanStep>)
    ensures |r| == |sl|
  {
    if |sl| == 0 then [] else NumberSteps(sl[..|sl| - 1]) + [StepOf(sl[|sl| - 1], |sl|)]
  }

  /** The k-th numbered step is built from the k-th step line. */
  lemma {:induction false} NumberStepsAt(sl: seq<string>, k: nat)
    requires k < |sl|
    ensures NumberSteps(sl)[k] == StepOf(sl[k], k + 1)
    decreases |sl|
  {
    if k < |sl| - 1 {
      NumberStepsAt(sl[..|sl| - 1], k);
    }
  }

  /** The parsed steps are exactly the trimmed step lines, in order, numbered from 1. */
  lemma {:induction false} ParseLinesSteps(lines: seq<string>, forcedMode: string)
    ensures ParseLines(Initial(forcedMode), lines, forcedMode != "").steps == NumberSteps(StepLines(lines))
  {
    if |lines| > 0 {
      var pre := lines[..|lines| - 1];
      var st0 := ParseLines(Initial(forcedMode), pre, forcedMode != "");
      ParseLinesSteps(pre, forcedMode);
      ApplyLineSteps(st0, lines[|lines| - 1], forcedMode != "");
      var line := TrimSpace(lines[|lines| - 1]);
      var sl := StepLines(pre);
      if IsStepLine(line) {
        assert (sl + [line])[..|sl|] == sl;
        assert NumberSteps(sl + [line]) == NumberSteps(sl) + [StepOf(line, |sl| + 1)];
      }
    }
  }

  /** The last SUMMARY: line wins; without one the default summary stays. */
  lemma {:induction false} ParseLinesSummary(lines: seq<string>, forcedMode: string)
    ensures ParseLines(Initial(forcedMode), lines, forcedMode != "").summary
            == match LastSummary(lines) case Some(s) => s case None => DefaultSummary
  {
    if |lines| > 0 {
      ParseLinesSummary(lines[..|lines| - 1], forcedMode);
    }
  }

  /** A forced mode stays; otherwise the last recognised MODE: value wins, else free_form. */
  lemma {:induction false} ParseLinesMode(lines: seq<string>, forcedMode: string)
    ensures ParseLines(Initial(forcedMode), lines, forcedMode != "").mode
            == if forcedMode != "" then forcedMode
               else match LastKnownMode(lines) case Some(m) => m case None => ModeFreeForm
  {
    if |lines| > 0 {
      ParseLinesMode(lines[..|lines| - 1], forcedMode);
    }
  }

  /** The plan's steps carry the ids step_1..step_n in order, all pending. */
  lemma StepIdsInOrder(content: string, forcedMode: string)
    ensures var steps := PlanOf(content, forcedMode).0.steps;
            forall k | 0 <= k < |steps| :: steps[k].id == StepId(k + 1) && steps[k].status == "pending"
  {
    var sl := StepLines(Split(content, '\n'));
    ParseLinesSteps(Split(content, '\n'), forcedMode);
    forall k | 0 <= k < |sl| ensures NumberSteps(sl)[k].id == StepId(k + 1) && NumberSteps(sl)[k].status == "pending" {
      NumberStepsAt(sl, k);
    }
  }

  /** A forced mode is never overridden; otherwise the result is always a recognised mode. */
  lemma ModeOfPlan(content: string, forcedMode: string)
    ensures forcedMode != "" ==> PlanOf(content, forcedMode).1 == forcedMode
    ensures forcedMode == "" ==> IsKnownMode(PlanOf(content, forcedMode).1)
  {
    ParseLinesMode(Split(content, '\n'), forcedMode);
  }
}
