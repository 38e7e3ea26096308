/**
 * Shared vocabulary of a team session: workflow phases, work modes,
 * checkpoint levels and plan steps.
 */
module TeamTypes {

  /** The six workflow phases; Go numbers them 0..5 in this order. */
  datatype Phase = Analysis | Planning | Execution | Review | Delivery | Complete
  {
    function Code(): (c: int)
      ensures 0 <= c <= 5
    {
      match this
      case Analysis => 0
      case Planning => 1
      case Execution => 2
      case Review => 3
      case Delivery => 4
      case Complete => 5
    }
  }

  /** Phase.String for any phase number; numbers outside 0..5 are "Unknown". */
  function PhaseName(code: int): (r: string)
    ensures r == "Unknown" <==> !(0 <= code <= 5)
  {
    if code == 0 then "Task Analysis"
    else if code == 1 then "Planning"
    else if code == 2 then "Execution"
    else if code == 3 then "Review"
    else if code == 4 then "Delivery"
    else if code == 5 then "Complete"
    else "Unknown"
  }

  /** Distinct phases have distinct phase numbers and distinct names. */
  lemma PhaseNamesDistinct(p: Phase, q: Phase)
    requires p != q
    ensures p.Code() != q.Code()
    ensures PhaseName(p.Code()) != PhaseName(q.Code())
  {
  }

  /** Work modes are free strings; these five are recognised. */
  const ModePairProgramming: string := "pair_programming"
  const ModeConsultation: string := "consultation"
  const ModeRoundRobin: string := "round_robin"
  const ModeDivideConquer: string := "divide_conquer"
  const ModeFreeForm: string := "free_form"

  predicate IsKnownMode(m: string)
  {
    m == ModePairProgramming || m == ModeConsultation || m == ModeRoundRobin
    || m == ModeDivideConquer || m == ModeFreeForm
  }

  /**
   * getDisplayName: the configured display name of a model, or its ID when
   * it has none; `names` holds each configured model's display name.
   */
  function DisplayName(names: map<string, string>, aiId: string): (r: string)
    ensures r == aiId || (aiId in names && r == names[aiId] != "")
    ensures aiId in names && names[aiId] != "" ==> r == names[aiId]
    ensures !(aiId in names && names[aiId] != "") ==> r == aiId
  {
    if aiId in names && names[aiId] != "" then names[aiId] else aiId
  }

  /** Checkpoint levels are free strings; these three are recognised. */
  const CheckpointAll: string := "all"
  const CheckpointMajor: string := "major"
  const CheckpointNone: string := "none"

  datatype PlanStep = PlanStep(
    id: string,
    description: string,
    assignedTo: string,
    dependsOn: seq<string>,
    status: string)

  /** The PM's plan. The assignment map is never filled by the parser. */
  datatype Plan = Plan(
    summary: string,
    steps: seq<PlanStep>,
    assignments: map<string, seq<string>>,
    estDuration: string)

  /** Options of a team session (team.Options). */
  datatype Options = Options(
    task: string,
    pm: string,
    mode: string,
    members: seq<string>,
    includeArbiter: bool,
    checkpointLevel: string,
    showCosts: bool,
    outputDir: string,
    verbose: bool)
}
