/**
 * The team runner: one collaboration session from task to delivery. The
 * runner selects (or is given) a project manager, has the PM plan the work
 * and choose a work mode, runs the mode, has the PM review the artifacts,
 * and delivers them. It reports each phase change and decision on the
 * event channel. The PM's calls go through the model port, the executor's
 * events through the same channel.
 */
module TeamRunner {
  import opened Results
  import opened Text
  import opened TeamTypes
  import opened TeamEvents
  import opened Artifacts
  import opened Port
  import opened EventBus
  import opened Modes
  import opened ModeExecution
  import opened PlanParser
  import opened Selection
  import opened PMSelector

  // ---------------------------------------------------------------------
  // The runner's own events and decisions

  /** A phase change announced by the system; the first one starts from -1. */
  function PhaseEvent(from: int, to: Phase): (e: Event)
    ensures e.kind == PhaseChanged && e.taskId == "" && e.data == PhaseChangedData(from, to.Code())
  {
    NewEvent(PhaseChanged, "system", PhaseChangedData(from, to.Code()))
  }

  /** A failure the runner reports, with the error and what failed. */
  function ErrorEvent(err: string, message: string): (e: Event)
    ensures e.kind == Error && e.taskId == "" && e.data == ErrorData(Some(err), "", message)
  {
    NewEvent(Error, "system", ErrorData(Some(err), "", message))
  }

  /** The PM's decision: the work mode, the plan's summary and its steps. */
  function DecisionEvent(pm: string, mode: string, plan: Plan): Event
  {
    NewEvent(PMDecision, pm, PMDecisionData(mode, plan.summary, plan.steps))
  }

  /** One TaskCreated event per plan step, in step order, each tagged with the step's ID. */
  function TaskCreatedEvents(steps: seq<PlanStep>, pm: string): (es: seq<Event>)
    ensures |es| == |steps|
    ensures forall i | 0 <= i < |steps| ::
              && es[i].kind == TaskCreated && es[i].taskId == steps[i].id && es[i].actor == pm
              && es[i].data == TaskCreatedData(steps[i].description, steps[i].description,
                                                steps[i].assignedTo, false, steps[i].dependsOn)
  {
    seq(|steps|, i requires 0 <= i < |steps| =>
      NewTaskEvent(TaskCreated, steps[i].id, pm,
                   TaskCreatedData(steps[i].description, steps[i].description, steps[i].assignedTo, false, steps[i].dependsOn)))
  }

  /**
   * requestApproval: the checkpoint is announced and approved without
   * asking anyone.
   */
  function RequestApproval(checkpoint: string, description: string): (approved: bool)
    ensures approved
  {
    true
  }

  /** selectPM as a value: a forced PM, or the selector's choice for the task and roster. */
  function SelectedPM(opts: Options): (pm: string)
    ensures opts.pm != "" ==> pm == opts.pm
  {
    if opts.pm != "" then opts.pm
    else Choice(ToLower(opts.task), PMTable, TaskCategories, opts.members, "claude")
  }

  /** selectPM: a forced PM bypasses the selector; the selector makes no model call. */
  method SelectPM(opts: Options) returns (pm: string)
    ensures pm == SelectedPM(opts)
    ensures opts.pm == "" && |opts.members| > 0 ==> pm in opts.members
  {
    if opts.pm != "" {
      return opts.pm;
    }
    pm := Select(opts.task, opts.members);
  }

  /** The planning request: the task and the roster joined with ", ". */
  function PlanCall(opts: Options, pm: string): (string, Ask)
  {
    (pm, CreatePlan(opts.task, Join(opts.members, ", ")))
  }

  /** The review request's list of artifacts: one "- name: description" line each. */
  function ReviewList(arts: seq<Artifact>): (r: string)
    ensures |arts| == 0 <==> r == ""
  {
    if |arts| == 0 then ""
    else ReviewList(arts[..|arts| - 1]) + "- " + arts[|arts| - 1].name + ": " + arts[|arts| - 1].description + "\n"
  }

  /** The review request: the task and the artifacts produced. */
  function ReviewCall(task: string, pm: string, arts: seq<Artifact>): (string, Ask)
  {
    (pm, ReviewWork(task, ReviewList(arts)))
  }

  /** What a finished session holds. */
  datatype Finished = Finished(pm: string, mode: string, plan: Plan, artifacts: seq<Artifact>,
                               projectDir: string, phase: Phase)

  // ---------------------------------------------------------------------
  // The run as a function of the replies, from call k

  /**
   * The review and delivery phases, the review being call k: a failed
   * review ends the run without an error event; otherwise delivery follows
   * and the session completes.
   */
  function ReviewFrom(o: Oracle, k: nat, opts: Options, pm: string, mode: string, plan: Plan,
                      arts: seq<Artifact>): (t: Outcome<Finished>)
  {
    var calls := [ReviewCall(opts.task, pm, arts)];
    match o(k)
    case CallFailed(e) => Outcome(calls, [PhaseEvent(Phase.Execution.Code(), Phase.Review)], Failure("review failed: " + e))
    case Reply(_) =>
      Outcome(calls,
              [PhaseEvent(Phase.Execution.Code(), Phase.Review), PhaseEvent(Phase.Review.Code(), Phase.Delivery),
               NewEvent(SessionComplete, "system", NoData)],
              Success(Finished(pm, mode, plan, arts, opts.outputDir, Phase.Complete)))
  }

  /**
   * The execution phase, begun at call k, once the mode has run with
   * outcome x: a failed mode is reported as an error event and ends the
   * run; otherwise the review follows.
   */
  function Executed(o: Oracle, k: nat, opts: Options, pm: string, mode: string, plan: Plan,
                    x: Outcome<seq<Artifact>>): (t: Outcome<Finished>)
  {
    if x.result.Failure? then
      Outcome(x.calls, [PhaseEvent(Phase.Planning.Code(), Phase.Execution)] + x.events + [ErrorEvent(x.result.error, "Execution failed")],
              Failure("execution failed: " + x.result.error))
    else
      var t := ReviewFrom(o, k + |x.calls|, opts, pm, mode, plan, x.result.value);
      Outcome(x.calls + t.calls, [PhaseEvent(Phase.Planning.Code(), Phase.Execution)] + x.events + t.events, t.result)
  }

  /**
   * After the plan: the project directory is created when one is set (a
   * failure ends the run without an event), then the mode runs from call k.
   */
  function WorkFrom(o: Oracle, so: StreamOracle, k: nat, opts: Options, names: map<string, string>,
                    mkdirErr: Option<string>, pm: string, mode: string, plan: Plan): (t: Outcome<Finished>)
  {
    if opts.outputDir != "" && mkdirErr.Some? then
      Outcome([], [], Failure("creating project directory: " + mkdirErr.value))
    else
      Executed(o, k, opts, pm, mode, plan, ExecuteRun(o, so, k, Session(opts.task, pm, mode, opts.members, names)))
  }

  /**
   * Once the plan has arrived, with the next call being k: the decision
   * and one TaskCreated per step are announced, the plan is approved when
   * the checkpoint level asks for it, and the work follows.
   */
  function Planned(o: Oracle, so: StreamOracle, k: nat, opts: Options, names: map<string, string>,
                   mkdirErr: Option<string>, pm: string, plan: Plan, mode: string): (t: Outcome<Finished>)
  {
    var announced := [DecisionEvent(pm, mode, plan)] + TaskCreatedEvents(plan.steps, pm);
    if opts.checkpointLevel != CheckpointNone && !RequestApproval("Plan Approval", plan.summary) then
      Outcome([], announced, Failure("plan not approved"))
    else
      var t := WorkFrom(o, so, k, opts, names, mkdirErr, pm, mode, plan);
      Outcome(t.calls, announced + t.events, t.result)
  }

  /**
   * The planning phase, the plan being call k: a failed call is reported
   * as an error event and ends the run; otherwise the parsed plan goes on.
   */
  function PlanFrom(o: Oracle, so: StreamOracle, k: nat, opts: Options, names: map<string, string>,
                    mkdirErr: Option<string>, pm: string): (t: Outcome<Finished>)
  {
    match o(k)
    case CallFailed(e) =>
      Outcome([PlanCall(opts, pm)], [ErrorEvent(e, "Planning failed")], Failure("planning failed: " + e))
    case Reply(c) =>
      var (plan, mode) := PlanOf(c, opts.mode);
      var t := Planned(o, so, k + 1, opts, names, mkdirErr, pm, plan, mode);
      Outcome([PlanCall(opts, pm)] + t.calls, t.events, t.result)
  }

  /** Once the plan has arrived, the run goes on as planned from the next call. */
  lemma PlanFromReply(o: Oracle, so: StreamOracle, k: nat, opts: Options, names: map<string, string>,
                      mkdirErr: Option<string>, pm: string, plan: Plan, mode: string)
    requires o(k).Reply? && (plan, mode) == PlanOf(o(k).content, opts.mode)
    ensures var t := Planned(o, so, k + 1, opts, names, mkdirErr, pm, plan, mode);
            PlanFrom(o, so, k, opts, names, mkdirErr, pm) == Outcome([PlanCall(opts, pm)] + t.calls, t.events, t.result)
  {
  }

  /**
   * Calls and events in two stretches: what the first stretch made and
   * emitted followed by what the second did.
   */
  lemma Then<Q>(c0: seq<Q>, cs: seq<Q>, c1: seq<Q>, tc: seq<Q>, c2: seq<Q>,
                b0: seq<Event>, xs: seq<Event>, te: seq<Event>, b2: seq<Event>)
    requires c1 == c0 + cs && c2 == c1 + tc && b2 == OfferAll(OfferAll(b0, xs), te)
    ensures c2 == c0 + (cs + tc) && b2 == OfferAll(b0, xs + te)
  {
    OfferAllAppend(b0, xs, te);
  }

  /** The events before planning: the start of analysis, the PM, the start of planning. */
  function Opening(pm: string, names: map<string, string>): seq<Event>
  {
    [PhaseEvent(-1, Phase.Analysis), NewEvent(PMSelected, pm, PMSelectedData(pm, DisplayName(names, pm))),
     PhaseEvent(Phase.Analysis.Code(), Phase.Planning)]
  }

  /**
   * Run from call k: the calls made, the events emitted and the outcome.
   * `mkdirErr` is what creating the project directory reports. The
   * selector never fails, so PM selection always succeeds.
   */
  function RunFrom(o: Oracle, so: StreamOracle, k: nat, opts: Options, names: map<string, string>,
                   mkdirErr: Option<string>): (t: Outcome<Finished>)
  {
    var pm := SelectedPM(opts);
    var t := PlanFrom(o, so, k, opts, names, mkdirErr, pm);
    Outcome(t.calls, Opening(pm, names) + t.events, t.result)
  }

  // ---------------------------------------------------------------------
  // What a run announces

  /** How a run ended: the stage that failed, or delivery. */
  datatype Stage =
    | PlanFailed(err: string)
    | DirFailed(plan: Plan, mode: string, err: string)
    | ExecFailed(plan: Plan, mode: string, err: string)
    | ReviewFailed(plan: Plan, mode: string, err: string)
    | Delivered(plan: Plan, mode: string, artifacts: seq<Artifact>)

  /** The stage at which a run ends once the mode, begun at call k, has run with outcome x. */
  function ExecStage(o: Oracle, k: nat, plan: Plan, mode: string, x: Outcome<seq<Artifact>>): Stage
  {
    if x.result.Failure? then ExecFailed(plan, mode, x.result.error)
    else if o(k + |x.calls|).CallFailed? then ReviewFailed(plan, mode, o(k + |x.calls|).err)
    else Delivered(plan, mode, x.result.value)
  }

  /** The stage at which a run from call k ends, read off the replies alone. */
  function StageOf(o: Oracle, so: StreamOracle, k: nat, opts: Options, names: map<string, string>,
                   mkdirErr: Option<string>): (stage: Stage)
    ensures stage.PlanFailed? <==> o(k).CallFailed?
    ensures stage.DirFailed? <==> o(k).Reply? && opts.outputDir != "" && mkdirErr.Some?
    ensures stage.DirFailed? ==> stage.err == mkdirErr.value
  {
    match o(k)
    case CallFailed(e) => PlanFailed(e)
    case Reply(c) =>
      var (plan, mode) := PlanOf(c, opts.mode);
      if opts.outputDir != "" && mkdirErr.Some? then DirFailed(plan, mode, mkdirErr.value)
      else ExecStage(o, k + 1, plan, mode, ExecuteRun(o, so, k + 1, Session(opts.task, SelectedPM(opts), mode, opts.members, names)))
  }

  /**
   * The session-level events the runner announces after the opening ones,
   * for each way a run can end: phase changes in their fixed order, the
   * PM's decision, an error event for a failed plan or mode only, and the
   * completion of a delivered session.
   */
  function StageEvents(stage: Stage, pm: string): seq<Event>
  {
    var toExecution := PhaseEvent(Phase.Planning.Code(), Phase.Execution);
    var toReview := PhaseEvent(Phase.Execution.Code(), Phase.Review);
    match stage
    case PlanFailed(e) => [ErrorEvent(e, "Planning failed")]
    case DirFailed(plan, mode, _) => [DecisionEvent(pm, mode, plan)]
    case ExecFailed(plan, mode, e) => [DecisionEvent(pm, mode, plan), toExecution, ErrorEvent(e, "Execution failed")]
    case ReviewFailed(plan, mode, _) => [DecisionEvent(pm, mode, plan), toExecution, toReview]
    case Delivered(plan, mode, _) =>
      [DecisionEvent(pm, mode, plan), toExecution, toReview, PhaseEvent(Phase.Review.Code(), Phase.Delivery),
       NewEvent(SessionComplete, "system", NoData)]
  }

  /** What a run that ends at a stage reports: the error naming the stage, or the finished session. */
  function StageResult(stage: Stage, pm: string, outputDir: string): Result<Finished>
  {
    match stage
    case PlanFailed(e) => Failure("planning failed: " + e)
    case DirFailed(_, _, e) => Failure("creating project directory: " + e)
    case ExecFailed(_, _, e) => Failure("execution failed: " + e)
    case ReviewFailed(_, _, e) => Failure("review failed: " + e)
    case Delivered(plan, mode, arts) => Success(Finished(pm, mode, plan, arts, outputDir, Phase.Complete))
  }

  /** The events not tied to a task, in order. */
  function SessionEvents(events: seq<Event>): (r: seq<Event>)
    ensures |r| <= |events|
  {
    if |events| == 0 then []
    else (if events[0].taskId == "" then [events[0]] else []) + SessionEvents(events[1..])
  }

  lemma {:induction false} SessionEventsAppend(a: seq<Event>, b: seq<Event>)
    ensures SessionEvents(a + b) == SessionEvents(a) + SessionEvents(b)
  {
    if |a| == 0 {
      assert a + b == b;
    } else {
      assert (a + b)[1..] == a[1..] + b;
      SessionEventsAppend(a[1..], b);
    }
  }

  lemma {:induction false} SessionEventsOnly(events: seq<Event>)
    requires forall e | e in events :: e.taskId == ""
    ensures SessionEvents(events) == events
  {
    if |events| > 0 {
      assert events[0] in events;
      SessionEventsOnly(events[1..]);
    }
  }

  lemma {:induction false} SessionEventsNone(events: seq<Event>)
    requires forall e | e in events :: e.taskId != ""
    ensures SessionEvents(events) == []
  {
    if |events| > 0 {
      assert events[0] in events;
      SessionEventsNone(events[1..]);
    }
  }

  /** The TaskCreated events of a parsed plan are tagged with the step IDs, which are never empty. */
  lemma TaskCreatedTagged(c: string, forcedMode: string, pm: string)
    ensures forall e | e in TaskCreatedEvents(PlanOf(c, forcedMode).0.steps, pm) :: e.taskId != ""
  {
    var steps := PlanOf(c, forcedMode).0.steps;
    var es := TaskCreatedEvents(steps, pm);
    StepIdsInOrder(c, forcedMode);
    forall e | e in es ensures e.taskId != "" {
      var i :| 0 <= i < |es| && es[i] == e;
      assert HasPrefix(StepId(i + 1), "step_");
    }
  }

  /** The session-level events of the review onwards, the review being call k. */
  lemma ReviewSession(o: Oracle, k: nat, opts: Options, pm: string, mode: string, plan: Plan, arts: seq<Artifact>)
    ensures var t := ReviewFrom(o, k, opts, pm, mode, plan, arts);
            && (forall e | e in t.events :: e.taskId == "")
            && t.events[0] == PhaseEvent(Phase.Execution.Code(), Phase.Review)
            && (o(k).CallFailed? ==> t.events == [PhaseEvent(Phase.Execution.Code(), Phase.Review)])
            && (o(k).Reply? ==> t.events == [PhaseEvent(Phase.Execution.Code(), Phase.Review),
                                            PhaseEvent(Phase.Review.Code(), Phase.Delivery),
                                            NewEvent(SessionComplete, "system", NoData)])
  {
  }

  /** Session-level events around task events: only the session-level ones remain, in order. */
  lemma SessionSandwich(a: seq<Event>, xs: seq<Event>, b: seq<Event>)
    requires forall e | e in a :: e.taskId == ""
    requires forall e | e in xs :: e.taskId != ""
    requires forall e | e in b :: e.taskId == ""
    ensures SessionEvents(a + xs + b) == a + b
  {
    assert SessionEvents(a + xs) == a by {
      SessionEventsOnly(a);
      SessionEventsNone(xs);
      SessionEventsAppend(a, xs);
    }
    assert SessionEvents(b) == b by {
      SessionEventsOnly(b);
    }
    SessionEventsAppend(a + xs, b);
  }

  /** A failed mode leaves the phase change to execution and the error event as the last session-level events. */
  lemma ExecutedFailed(o: Oracle, k: nat, opts: Options, pm: string, mode: string, plan: Plan,
                       x: Outcome<seq<Artifact>>)
    requires x.result.Failure?
    requires forall e | e in x.events :: e.taskId != ""
    ensures SessionEvents(Executed(o, k, opts, pm, mode, plan, x).events)
            == [PhaseEvent(Phase.Planning.Code(), Phase.Execution), ErrorEvent(x.result.error, "Execution failed")]
  {
    SessionSandwich([PhaseEvent(Phase.Planning.Code(), Phase.Execution)], x.events,
                    [ErrorEvent(x.result.error, "Execution failed")]);
  }

  /** After a successful mode, the review's events follow the mode's. */
  lemma ExecutedEvents(o: Oracle, k: nat, opts: Options, pm: string, mode: string, plan: Plan, x: Outcome<seq<Artifact>>)
    requires x.result.Success?
    ensures Executed(o, k, opts, pm, mode, plan, x).events
            == [PhaseEvent(Phase.Planning.Code(), Phase.Execution)] + x.events
               + ReviewFrom(o, k + |x.calls|, opts, pm, mode, plan, x.result.value).events
  {
  }

  /** After a successful mode, the session-level events are the phase change to execution and the review's. */
  lemma ExecutedSucceeded(o: Oracle, k: nat, opts: Options, pm: string, mode: string, plan: Plan,
                          x: Outcome<seq<Artifact>>)
    requires x.result.Success?
    requires forall e | e in x.events :: e.taskId != ""
    ensures SessionEvents(Executed(o, k, opts, pm, mode, plan, x).events)
            == [PhaseEvent(Phase.Planning.Code(), Phase.Execution)] + ReviewFrom(o, k + |x.calls|, opts, pm, mode, plan, x.result.value).events
  {
    var r := ReviewFrom(o, k + |x.calls|, opts, pm, mode, plan, x.result.value);
    ReviewSession(o, k + |x.calls|, opts, pm, mode, plan, x.result.value);
    ExecutedEvents(o, k, opts, pm, mode, plan, x);
    SessionSandwich([PhaseEvent(Phase.Planning.Code(), Phase.Execution)], x.events, r.events);
  }

  /** Once the plan has arrived, the session-level events are the decision and those of the work. */
  lemma PlannedSession(o: Oracle, so: StreamOracle, k: nat, opts: Options, names: map<string, string>,
                       mkdirErr: Option<string>, pm: string, c: string)
    ensures var (plan, mode) := PlanOf(c, opts.mode);
            SessionEvents(Planned(o, so, k, opts, names, mkdirErr, pm, plan, mode).events)
            == [DecisionEvent(pm, mode, plan)] + SessionEvents(WorkFrom(o, so, k, opts, names, mkdirErr, pm, mode, plan).events)
  {
    var (plan, mode) := PlanOf(c, opts.mode);
    var created := TaskCreatedEvents(plan.steps, pm);
    var w := WorkFrom(o, so, k, opts, names, mkdirErr, pm, mode, plan);
    TaskCreatedTagged(c, opts.mode, pm);
    SessionEventsAppend([DecisionEvent(pm, mode, plan)], created);
    SessionEventsOnly([DecisionEvent(pm, mode, plan)]);
    SessionEventsNone(created);
    SessionEventsAppend([DecisionEvent(pm, mode, plan)] + created, w.events);
  }

  /** The execution phase onwards emits the session-level events of the mode's outcome, or none if the directory fails. */
  lemma WorkSession(o: Oracle, so: StreamOracle, k: nat, opts: Options, names: map<string, string>,
                    mkdirErr: Option<string>, pm: string, mode: string, plan: Plan)
    ensures var s := Session(opts.task, pm, mode, opts.members, names);
            var w := WorkFrom(o, so, k, opts, names, mkdirErr, pm, mode, plan);
            && (opts.outputDir != "" && mkdirErr.Some? ==> w.events == [])
            && (!(opts.outputDir != "" && mkdirErr.Some?) ==>
                  w == Executed(o, k, opts, pm, mode, plan, ExecuteRun(o, so, k, s))
                  && forall e | e in ExecuteRun(o, so, k, s).events :: e.taskId != "")
  {
    var s := Session(opts.task, pm, mode, opts.members, names);
    ExecuteKinds(o, so, k, s);
  }

  /** After the decision, the session-level events of a mode with outcome x and what follows are its stage's. */
  lemma ExecutedStage(o: Oracle, k: nat, opts: Options, pm: string, mode: string, plan: Plan, x: Outcome<seq<Artifact>>)
    requires forall e | e in x.events :: e.taskId != ""
    ensures [DecisionEvent(pm, mode, plan)] + SessionEvents(Executed(o, k, opts, pm, mode, plan, x).events)
            == StageEvents(ExecStage(o, k, plan, mode, x), pm)
  {
    if x.result.Success? {
      ExecutedReviewStage(o, k, opts, pm, mode, plan, x);
    } else {
      ExecutedFailed(o, k, opts, pm, mode, plan, x);
    }
  }

  /** The decision, the start of execution and the review's events are those of the stage the review ends in. */
  lemma ReviewStage(o: Oracle, k: nat, opts: Options, pm: string, mode: string, plan: Plan, x: Outcome<seq<Artifact>>)
    requires x.result.Success?
    ensures [DecisionEvent(pm, mode, plan)]
            + ([PhaseEvent(Phase.Planning.Code(), Phase.Execution)] + ReviewFrom(o, k + |x.calls|, opts, pm, mode, plan, x.result.value).events)
            == StageEvents(ExecStage(o, k, plan, mode, x), pm)
  {
    var j := k + |x.calls|;
    if o(j).CallFailed? {
      assert ExecStage(o, k, plan, mode, x) == ReviewFailed(plan, mode, o(j).err);
    } else {
      assert ExecStage(o, k, plan, mode, x) == Delivered(plan, mode, x.result.value);
    }
  }

  /** After a successful mode, the decision and the session-level events are those of the review's stage. */
  lemma ExecutedReviewStage(o: Oracle, k: nat, opts: Options, pm: string, mode: string, plan: Plan, x: Outcome<seq<Artifact>>)
    requires x.result.Success?
    requires forall e | e in x.events :: e.taskId != ""
    ensures [DecisionEvent(pm, mode, plan)] + SessionEvents(Executed(o, k, opts, pm, mode, plan, x).events)
            == StageEvents(ExecStage(o, k, plan, mode, x), pm)
  {
    var j := k + |x.calls|;
    var review := [PhaseEvent(Phase.Planning.Code(), Phase.Execution)] + ReviewFrom(o, j, opts, pm, mode, plan, x.result.value).events;
    assert SessionEvents(Executed(o, k, opts, pm, mode, plan, x).events) == review by {
      ExecutedSucceeded(o, k, opts, pm, mode, plan, x);
    }
    assert [DecisionEvent(pm, mode, plan)] + review == StageEvents(ExecStage(o, k, plan, mode, x), pm) by {
      ReviewStage(o, k, opts, pm, mode, plan, x);
    }
  }

  /**
   * Once the plan c has arrived by call k, the decision and the session-level
   * events of the work are those of the stage at which the run ends.
   */
  lemma WorkStage(o: Oracle, so: StreamOracle, k: nat, opts: Options, names: map<string, string>,
                  mkdirErr: Option<string>, c: string)
    requires o(k) == Reply(c)
    ensures var pm := SelectedPM(opts);
            var (plan, mode) := PlanOf(c, opts.mode);
            [DecisionEvent(pm, mode, plan)] + SessionEvents(WorkFrom(o, so, k + 1, opts, names, mkdirErr, pm, mode, plan).events)
            == StageEvents(StageOf(o, so, k, opts, names, mkdirErr), pm)
  {
    var pm := SelectedPM(opts);
    var (plan, mode) := PlanOf(c, opts.mode);
    var s := Session(opts.task, pm, mode, opts.members, names);
    WorkSession(o, so, k + 1, opts, names, mkdirErr, pm, mode, plan);
    if !(opts.outputDir != "" && mkdirErr.Some?) {
      var x := ExecuteRun(o, so, k + 1, s);
      assert StageOf(o, so, k, opts, names, mkdirErr) == ExecStage(o, k + 1, plan, mode, x);
      ExecutedStage(o, k + 1, opts, pm, mode, plan, x);
    }
  }

  /**
   * The runner's session-level events are the opening ones followed by
   * those of the stage at which the run ends.
   */
  lemma RunSessionEvents(o: Oracle, so: StreamOracle, k: nat, opts: Options, names: map<string, string>,
                         mkdirErr: Option<string>)
    ensures var t := RunFrom(o, so, k, opts, names, mkdirErr);
            var stage := StageOf(o, so, k, opts, names, mkdirErr);
            SessionEvents(t.events) == Opening(SelectedPM(opts), names) + StageEvents(stage, SelectedPM(opts))
  {
    var pm := SelectedPM(opts);
    var p := PlanFrom(o, so, k, opts, names, mkdirErr, pm);
    assert SessionEvents(Opening(pm, names) + p.events) == Opening(pm, names) + SessionEvents(p.events) by {
      SessionEventsAppend(Opening(pm, names), p.events);
      SessionEventsOnly(Opening(pm, names));
    }
    assert SessionEvents(p.events) == StageEvents(StageOf(o, so, k, opts, names, mkdirErr), pm) by {
      match o(k)
      case CallFailed(e) =>
        SessionEventsOnly(p.events);
      case Reply(c) =>
        var (plan, mode) := PlanOf(c, opts.mode);
        PlanFromReply(o, so, k, opts, names, mkdirErr, pm, plan, mode);
        PlannedSession(o, so, k + 1, opts, names, mkdirErr, pm, c);
        WorkStage(o, so, k, opts, names, mkdirErr, c);
    }
  }

  /** After a mode with outcome x, the run reports what its stage calls for. */
  lemma ExecutedResult(o: Oracle, k: nat, opts: Options, pm: string, mode: string, plan: Plan, x: Outcome<seq<Artifact>>)
    ensures Executed(o, k, opts, pm, mode, plan, x).result == StageResult(ExecStage(o, k, plan, mode, x), pm, opts.outputDir)
  {
  }

  /** Once the plan c has arrived by call k, the work reports what the run's stage calls for. */
  lemma WorkResult(o: Oracle, so: StreamOracle, k: nat, opts: Options, names: map<string, string>,
                   mkdirErr: Option<string>, c: string)
    requires o(k) == Reply(c)
    ensures var pm := SelectedPM(opts);
            var (plan, mode) := PlanOf(c, opts.mode);
            WorkFrom(o, so, k + 1, opts, names, mkdirErr, pm, mode, plan).result
            == StageResult(StageOf(o, so, k, opts, names, mkdirErr), pm, opts.outputDir)
  {
    var pm := SelectedPM(opts);
    var (plan, mode) := PlanOf(c, opts.mode);
    if !(opts.outputDir != "" && mkdirErr.Some?) {
      var x := ExecuteRun(o, so, k + 1, Session(opts.task, pm, mode, opts.members, names));
      assert StageOf(o, so, k, opts, names, mkdirErr) == ExecStage(o, k + 1, plan, mode, x);
      ExecutedResult(o, k + 1, opts, pm, mode, plan, x);
    }
  }

  /** Only delivery is a success; every other stage is a failure naming it. */
  lemma StageResultMeaning(stage: Stage, pm: string, outputDir: string)
    ensures var r := StageResult(stage, pm, outputDir);
            && (r.Success? <==> stage.Delivered?)
            && (stage.PlanFailed? ==> r == Failure("planning failed: " + stage.err))
            && (stage.DirFailed? ==> r == Failure("creating project directory: " + stage.err))
            && (stage.ExecFailed? ==> r == Failure("execution failed: " + stage.err))
            && (stage.ReviewFailed? ==> r == Failure("review failed: " + stage.err))
            && (stage.Delivered? ==> r == Success(Finished(pm, stage.mode, stage.plan, stage.artifacts, outputDir, Phase.Complete)))
  {
  }

  /** A run reports what the stage at which it ends calls for. */
  lemma RunStageResult(o: Oracle, so: StreamOracle, k: nat, opts: Options, names: map<string, string>,
                       mkdirErr: Option<string>)
    ensures RunFrom(o, so, k, opts, names, mkdirErr).result
            == StageResult(StageOf(o, so, k, opts, names, mkdirErr), SelectedPM(opts), opts.outputDir)
  {
    var pm := SelectedPM(opts);
    if o(k).Reply? {
      var (plan, mode) := PlanOf(o(k).content, opts.mode);
      PlanFromReply(o, so, k, opts, names, mkdirErr, pm, plan, mode);
      WorkResult(o, so, k, opts, names, mkdirErr, o(k).content);
    }
  }

  /**
   * A run succeeds exactly when the session is delivered, and otherwise
   * fails with an error naming the stage that failed.
   */
  lemma RunResult(o: Oracle, so: StreamOracle, k: nat, opts: Options, names: map<string, string>,
                  mkdirErr: Option<string>)
    ensures var t := RunFrom(o, so, k, opts, names, mkdirErr);
            var stage := StageOf(o, so, k, opts, names, mkdirErr);
            && (t.result.Success? <==> stage.Delivered?)
            && (stage.PlanFailed? ==> t.result == Failure("planning failed: " + stage.err))
            && (stage.DirFailed? ==> t.result == Failure("creating project directory: " + stage.err))
            && (stage.ExecFailed? ==> t.result == Failure("execution failed: " + stage.err))
            && (stage.ReviewFailed? ==> t.result == Failure("review failed: " + stage.err))
            && (stage.Delivered? ==>
                  t.result == Success(Finished(SelectedPM(opts), stage.mode, stage.plan, stage.artifacts,
                                               opts.outputDir, Phase.Complete)))
  {
    RunStageResult(o, so, k, opts, names, mkdirErr);
    StageResultMeaning(StageOf(o, so, k, opts, names, mkdirErr), SelectedPM(opts), opts.outputDir);
  }

  /** Once the plan has arrived, the run's events are the opening and the planned run's. */
  lemma RunEventsShape(o: Oracle, so: StreamOracle, k: nat, opts: Options, names: map<string, string>,
                       mkdirErr: Option<string>)
    requires o(k).Reply?
    ensures var pm := SelectedPM(opts);
            var (plan, mode) := PlanOf(o(k).content, opts.mode);
            RunFrom(o, so, k, opts, names, mkdirErr).events
            == Opening(pm, names) + Planned(o, so, k + 1, opts, names, mkdirErr, pm, plan, mode).events
  {
    var pm := SelectedPM(opts);
    var (plan, mode) := PlanOf(o(k).content, opts.mode);
    PlanFromReply(o, so, k, opts, names, mkdirErr, pm, plan, mode);
  }

  /** The planned run's events are the decision, the created tasks and the work's. */
  lemma PlannedEvents(o: Oracle, so: StreamOracle, k: nat, opts: Options, names: map<string, string>,
                      mkdirErr: Option<string>, pm: string, plan: Plan, mode: string)
    ensures Planned(o, so, k, opts, names, mkdirErr, pm, plan, mode).events
            == [DecisionEvent(pm, mode, plan)] + (TaskCreatedEvents(plan.steps, pm)
               + WorkFrom(o, so, k, opts, names, mkdirErr, pm, mode, plan).events)
  {
    hide WorkFrom;
    AppendAssoc([DecisionEvent(pm, mode, plan)], TaskCreatedEvents(plan.steps, pm),
                WorkFrom(o, so, k, opts, names, mkdirErr, pm, mode, plan).events);
  }

  /** The work after the plan emits no TaskCreated event. */
  lemma WorkCreatesNone(o: Oracle, so: StreamOracle, k: nat, opts: Options, names: map<string, string>,
                        mkdirErr: Option<string>, pm: string, mode: string, plan: Plan)
    ensures KindIds(WorkFrom(o, so, k, opts, names, mkdirErr, pm, mode, plan).events, TaskCreated) == []
  {
    var w := WorkFrom(o, so, k, opts, names, mkdirErr, pm, mode, plan);
    if !(opts.outputDir != "" && mkdirErr.Some?) {
      var s := Session(opts.task, pm, mode, opts.members, names);
      ExecuteKinds(o, so, k, s);
      WorkKinds(o, k, opts, pm, mode, plan, ExecuteRun(o, so, k, s));
    }
    KindIdsNone(w.events, TaskCreated);
  }

  /**
   * Once the plan has arrived, the PM's decision is the fourth event and
   * is followed at once by one TaskCreated event per step.
   */
  lemma RunTasksAnnounced(o: Oracle, so: StreamOracle, k: nat, opts: Options, names: map<string, string>,
                          mkdirErr: Option<string>)
    requires o(k).Reply?
    ensures var t := RunFrom(o, so, k, opts, names, mkdirErr);
            var (plan, mode) := PlanOf(o(k).content, opts.mode);
            var pm := SelectedPM(opts);
            && |t.events| >= 4 + |plan.steps|
            && t.events[3] == DecisionEvent(pm, mode, plan)
            && t.events[4..4 + |plan.steps|] == TaskCreatedEvents(plan.steps, pm)
  {
    var pm := SelectedPM(opts);
    var (plan, mode) := PlanOf(o(k).content, opts.mode);
    var created := TaskCreatedEvents(plan.steps, pm);
    var w := WorkFrom(o, so, k + 1, opts, names, mkdirErr, pm, mode, plan);
    RunEventsShape(o, so, k, opts, names, mkdirErr);
    PlannedEvents(o, so, k + 1, opts, names, mkdirErr, pm, plan, mode);
    AnnouncedWithin(Opening(pm, names), DecisionEvent(pm, mode, plan), created, w.events);
  }

  /**
   * Once the plan has arrived, the only TaskCreated events of the run are
   * one per step, in step order, tagged step_1, step_2, ...
   */
  lemma RunTasksCreated(o: Oracle, so: StreamOracle, k: nat, opts: Options, names: map<string, string>,
                        mkdirErr: Option<string>)
    requires o(k).Reply?
    ensures KindIds(RunFrom(o, so, k, opts, names, mkdirErr).events, TaskCreated)
            == StepIds(|PlanOf(o(k).content, opts.mode).0.steps|)
  {
    var pm := SelectedPM(opts);
    var (plan, mode) := PlanOf(o(k).content, opts.mode);
    var created := TaskCreatedEvents(plan.steps, pm);
    var w := WorkFrom(o, so, k + 1, opts, names, mkdirErr, pm, mode, plan);
    RunEventsShape(o, so, k, opts, names, mkdirErr);
    PlannedEvents(o, so, k + 1, opts, names, mkdirErr, pm, plan, mode);
    assert KindIds(created, TaskCreated) == StepIds(|plan.steps|) by {
      StepIdsInOrder(o(k).content, opts.mode);
      CreatedIds(plan.steps, pm);
    }
    OpeningCreatesNone(pm, names, DecisionEvent(pm, mode, plan));
    WorkCreatesNone(o, so, k + 1, opts, names, mkdirErr, pm, mode, plan);
    CreatedWithin(Opening(pm, names), DecisionEvent(pm, mode, plan), created, w.events);
  }

  /** The opening and the decision are no TaskCreated events. */
  lemma OpeningCreatesNone(pm: string, names: map<string, string>, decision: Event)
    requires decision.kind == PMDecision
    ensures KindIds(Opening(pm, names) + [decision], TaskCreated) == []
  {
    var head := Opening(pm, names) + [decision];
    assert forall i | 0 <= i < |head| :: head[i].kind != TaskCreated by {
      assert head[0].kind == PhaseChanged && head[1].kind == PMSelected && head[2].kind == PhaseChanged;
    }
    KindIdsNone(head, TaskCreated);
  }

  /** The IDs step_1 ... step_n. */
  function StepIds(n: nat): (ids: seq<string>)
    ensures |ids| == n && forall i | 0 <= i < n :: ids[i] == StepId(i + 1)
  {
    seq(n, i requires 0 <= i < n => StepId(i + 1))
  }

  /** Events announced right after a three-event opening and a decision stand at positions 4 onwards. */
  lemma AnnouncedWithin(opening: seq<Event>, decision: Event, created: seq<Event>, rest: seq<Event>)
    requires |opening| == 3
    ensures var events := opening + ([decision] + (created + rest));
            && |events| >= 4 + |created|
            && events[3] == decision
            && events[4..4 + |created|] == created
  {
    var events := opening + ([decision] + (created + rest));
    assert events[4..] == created + rest;
    assert (created + rest)[..|created|] == created;
  }

  /** Between a head and a rest with no TaskCreated events, the created ones are the only ones. */
  lemma CreatedWithin(opening: seq<Event>, decision: Event, created: seq<Event>, rest: seq<Event>)
    requires KindIds(opening + [decision], TaskCreated) == [] && KindIds(rest, TaskCreated) == []
    ensures KindIds(opening + ([decision] + (created + rest)), TaskCreated) == KindIds(created, TaskCreated)
  {
    assert opening + ([decision] + (created + rest)) == (opening + [decision]) + (created + rest);
    KindIdsAppend(opening + [decision], created + rest, TaskCreated);
    KindIdsAppend(created, rest, TaskCreated);
  }

  /** After the plan, no event of the run is a TaskCreated one. */
  lemma WorkKinds(o: Oracle, k: nat, opts: Options, pm: string, mode: string, plan: Plan, x: Outcome<seq<Artifact>>)
    requires forall e | e in x.events :: SubtaskKind(e)
    ensures forall e | e in Executed(o, k, opts, pm, mode, plan, x).events :: e.kind != TaskCreated
  {
  }

  /** The TaskCreated events' task IDs are the steps' IDs, in order. */
  lemma {:induction false} CreatedIds(steps: seq<PlanStep>, pm: string)
    ensures KindIds(TaskCreatedEvents(steps, pm), TaskCreated) == seq(|steps|, i requires 0 <= i < |steps| => steps[i].id)
  {
    if |steps| > 0 {
      CreatedIds(steps[1..], pm);
      assert TaskCreatedEvents(steps, pm)[1..] == TaskCreatedEvents(steps[1..], pm);
    }
  }

  /**
   * A run opens with the start of analysis, the selected PM and the start
   * of planning, and its first call asks that PM for the plan: selecting
   * the PM makes no call.
   */
  lemma RunOpening(o: Oracle, so: StreamOracle, k: nat, opts: Options, names: map<string, string>, mkdirErr: Option<string>)
    ensures var t := RunFrom(o, so, k, opts, names, mkdirErr);
            && t.events[..3] == Opening(SelectedPM(opts), names)
            && |t.calls| > 0 && t.calls[0] == PlanCall(opts, SelectedPM(opts))
  {
  }

  /** One call followed by a stretch t make up an outcome p that begins with that call. */
  lemma CallThen<R>(c0: seq<(string, Ask)>, call: (string, Ask), c1: seq<(string, Ask)>, c2: seq<(string, Ask)>,
                    b0: seq<Event>, b2: seq<Event>, p: Outcome<R>, t: Outcome<R>)
    requires p == Outcome([call] + t.calls, t.events, t.result)
    requires c1 == c0 + [call] && c2 == c1 + t.calls && b2 == OfferAll(b0, t.events)
    ensures c2 == c0 + p.calls && b2 == OfferAll(b0, p.events) && p.result == t.result
  {
    assert c0 + [call] + t.calls == c0 + ([call] + t.calls);
  }

  /** A successful mode whose calls and events are followed by the review's make up the execution phase. */
  lemma ExecutedThen(o: Oracle, opts: Options, pm: string, mode: string, plan: Plan, x: Outcome<seq<Artifact>>,
                    c0: seq<(string, Ask)>, c1: seq<(string, Ask)>, c2: seq<(string, Ask)>,
                    b0: seq<Event>, b1: seq<Event>, b2: seq<Event>)
    requires x.result.Success? && c1 == c0 + x.calls && |c1| == |c0| + |x.calls|
    requires b1 == OfferAll(b0, [PhaseEvent(Phase.Planning.Code(), Phase.Execution)] + x.events)
    requires var t := ReviewFrom(o, |c1|, opts, pm, mode, plan, x.result.value);
             c2 == c1 + t.calls && b2 == OfferAll(b1, t.events)
    ensures var t := Executed(o, |c0|, opts, pm, mode, plan, x);
            c2 == c0 + t.calls && b2 == OfferAll(b0, t.events)
            && t.result == ReviewFrom(o, |c1|, opts, pm, mode, plan, x.result.value).result
  {
    var started := [PhaseEvent(Phase.Planning.Code(), Phase.Execution)] + x.events;
    var t := ReviewFrom(o, |c1|, opts, pm, mode, plan, x.result.value);
    assert Executed(o, |c0|, opts, pm, mode, plan, x) == Outcome(x.calls + t.calls, started + t.events, t.result) by {
      assert started + t.events == [PhaseEvent(Phase.Planning.Code(), Phase.Execution)] + x.events + t.events;
    }
    Then(c0, x.calls, c1, t.calls, c2, b0, started, t.events, b2);
  }

  // ---------------------------------------------------------------------
  // The runner

  class Runner {
    const port: ModelPort<Ask>
    const queue: EventQueue
    /** The configured display names of the models. */
    const names: map<string, string>

    /** NewRunner, with its 100-slot event channel. */
    constructor (port: ModelPort<Ask>, names: map<string, string>)
      ensures this.port == port && this.names == names
      ensures fresh(queue) && queue.Valid() && queue.buffer == []
    {
      this.port := port;
      this.names := names;
      queue := new EventQueue();
    }

    /** emit, on a channel that has taken `emitted` since it held `b0`. */
    method Emit(e: Event, ghost b0: seq<Event>, ghost emitted: seq<Event>)
      requires queue.Valid() && queue.buffer == OfferAll(b0, emitted)
      modifies queue
      ensures queue.Valid() && queue.buffer == OfferAll(b0, emitted + [e])
    {
      queue.Emit(e);
      OfferAllAppend(b0, emitted, [e]);
    }

    /** The TaskCreated events of the plan's steps, in step order. */
    method EmitTasksCreated(steps: seq<PlanStep>, pm: string)
      requires queue.Valid()
      modifies queue
      ensures queue.Valid() && queue.buffer == OfferAll(old(queue.buffer), TaskCreatedEvents(steps, pm))
    {
      ghost var b0 := queue.buffer;
      ghost var all := TaskCreatedEvents(steps, pm);
      var i := 0;
      while i < |steps|
        invariant 0 <= i <= |steps|
        invariant queue.Valid() && queue.buffer == OfferAll(b0, all[..i])
      {
        var step := steps[i];
        Emit(NewTaskEvent(TaskCreated, step.id, pm,
                          TaskCreatedData(step.description, step.description, step.assignedTo, false, step.dependsOn)),
             b0, all[..i]);
        assert all[..i + 1] == all[..i] + [all[i]];
        i := i + 1;
      }
      assert all[..i] == all;
    }

    /** createPlan: the PM is asked for a plan, and its reply is parsed. */
    method CreatePlanCall(opts: Options, pm: string) returns (r: Result<(Plan, string)>)
      modifies port
      ensures port.calls == old(port.calls) + [PlanCall(opts, pm)]
      ensures match port.invoke(|old(port.calls)|)
              case CallFailed(e) => r == Failure(e)
              case Reply(c) => r == Success(PlanOf(c, opts.mode))
    {
      var reply := port.Invoke(pm, CreatePlan(opts.task, Join(opts.members, ", ")));
      if reply.CallFailed? {
        return Failure(reply.err);
      }
      var plan, mode := ParsePlanResponse(reply.content, opts);
      r := Success((plan, mode));
    }

    /** The artifact list of the review request, built line by line. */
    method ListArtifacts(arts: seq<Artifact>) returns (list: string)
      ensures list == ReviewList(arts)
    {
      list := "";
      var i := 0;
      while i < |arts|
        invariant 0 <= i <= |arts|
        invariant list == ReviewList(arts[..i])
      {
        assert arts[..i + 1][..i] == arts[..i];
        list := list + "- " + arts[i].name + ": " + arts[i].description + "\n";
        i := i + 1;
      }
      assert arts[..i] == arts;
    }

    /** runReview: the PM reviews the artifacts; only the call's failure is reported. */
    method RunReview(task: string, pm: string, arts: seq<Artifact>) returns (err: Option<string>)
      modifies port
      ensures port.calls == old(port.calls) + [ReviewCall(task, pm, arts)]
      ensures match port.invoke(|old(port.calls)|)
              case CallFailed(e) => err == Some(e)
              case Reply(_) => err == None
    {
      var list := ListArtifacts(arts);
      var reply := port.Invoke(pm, ReviewWork(task, list));
      if reply.CallFailed? {
        return Some(reply.err);
      }
      err := None;
    }

    /** The review and delivery phases. Phase.Delivery writes files and never fails. */
    method ReviewPhase(opts: Options, pm: string, mode: string, plan: Plan, arts: seq<Artifact>) returns (r: Result<Finished>)
      requires queue.Valid()
      modifies port, queue
      ensures queue.Valid()
      ensures var t := ReviewFrom(port.invoke, |old(port.calls)|, opts, pm, mode, plan, arts);
              port.calls == old(port.calls) + t.calls && queue.buffer == OfferAll(old(queue.buffer), t.events)
              && r == t.result
    {
      ghost var b0 := queue.buffer;
      Emit(PhaseEvent(Phase.Execution.Code(), Phase.Review), b0, []);
      var phase := Phase.Review;
      var err := RunReview(opts.task, pm, arts);
      if err.Some? {
        return Failure("review failed: " + err.value);
      }
      Emit(PhaseEvent(Phase.Review.Code(), Phase.Delivery), b0, [PhaseEvent(Phase.Execution.Code(), Phase.Review)]);
      phase := Phase.Delivery;
      phase := Phase.Complete;
      Emit(NewEvent(SessionComplete, "system", NoData), b0,
           [PhaseEvent(Phase.Execution.Code(), Phase.Review), PhaseEvent(Phase.Review.Code(), Phase.Delivery)]);
      r := Success(Finished(pm, mode, plan, arts, opts.outputDir, phase));
    }

    /** A failed mode, with outcome x, is reported as an error event and ends the run. */
    method ExecutionFailed(opts: Options, pm: string, mode: string, plan: Plan, err: string,
                           ghost x: Outcome<seq<Artifact>>, ghost c0: seq<(string, Ask)>, ghost b0: seq<Event>)
        returns (r: Result<Finished>)
      requires queue.Valid() && x.result == Failure(err)
      requires port.calls == c0 + x.calls && |port.calls| == |c0| + |x.calls|
      requires queue.buffer == OfferAll(b0, [PhaseEvent(Phase.Planning.Code(), Phase.Execution)] + x.events)
      modifies queue
      ensures queue.Valid()
      ensures var t := Executed(port.invoke, |c0|, opts, pm, mode, plan, x);
              port.calls == c0 + t.calls && queue.buffer == OfferAll(b0, t.events) && r == t.result
    {
      Emit(ErrorEvent(err, "Execution failed"), b0, [PhaseEvent(Phase.Planning.Code(), Phase.Execution)] + x.events);
      r := Failure("execution failed: " + err);
    }

    /** The end of the execution phase, with the mode's outcome x: the error event, or the review. */
    method AfterExecution(opts: Options, pm: string, mode: string, plan: Plan, result: Result<seq<Artifact>>,
                          ghost x: Outcome<seq<Artifact>>, ghost c0: seq<(string, Ask)>, ghost b0: seq<Event>)
        returns (r: Result<Finished>)
      requires queue.Valid()
      requires port.calls == c0 + x.calls && |port.calls| == |c0| + |x.calls| && result == x.result
      requires queue.buffer == OfferAll(b0, [PhaseEvent(Phase.Planning.Code(), Phase.Execution)] + x.events)
      modifies port, queue
      ensures queue.Valid()
      ensures var t := Executed(port.invoke, |c0|, opts, pm, mode, plan, x);
              port.calls == c0 + t.calls && queue.buffer == OfferAll(b0, t.events) && r == t.result
    {
      ghost var started := [PhaseEvent(Phase.Planning.Code(), Phase.Execution)] + x.events;
      if result.Failure? {
        r := ExecutionFailed(opts, pm, mode, plan, result.error, x, c0, b0);
        return;
      }
      ghost var c1 := port.calls;
      ghost var b1 := queue.buffer;
      r := ReviewPhase(opts, pm, mode, plan, result.value);
      ExecutedThen(port.invoke, opts, pm, mode, plan, x, c0, c1, port.calls, b0, b1, queue.buffer);
    }

    /** The project directory, then the execution phase, then the review. */
    method WorkPhase(opts: Options, mkdirErr: Option<string>, pm: string, mode: string, plan: Plan) returns (r: Result<Finished>)
      requires queue.Valid()
      modifies port, queue
      ensures queue.Valid()
      ensures var t := WorkFrom(port.invoke, port.stream, |old(port.calls)|, opts, names, mkdirErr, pm, mode, plan);
              port.calls == old(port.calls) + t.calls && queue.buffer == OfferAll(old(queue.buffer), t.events)
              && r == t.result
    {
      if opts.outputDir != "" && mkdirErr.Some? {
        return Failure("creating project directory: " + mkdirErr.value);
      }
      ghost var c0 := port.calls;
      ghost var b0 := queue.buffer;
      ghost var x := ExecuteRun(port.invoke, port.stream, |c0|, Session(opts.task, pm, mode, opts.members, names));
      Emit(PhaseEvent(Phase.Planning.Code(), Phase.Execution), b0, []);
      ghost var b1 := queue.buffer;
      var executor := new ModeExecutor(port, queue, Session(opts.task, pm, mode, opts.members, names));
      var result := executor.Execute();
      Then(c0, [], c0, x.calls, port.calls, b0, [PhaseEvent(Phase.Planning.Code(), Phase.Execution)], x.events, queue.buffer);
      r := AfterExecution(opts, pm, mode, plan, result, x, c0, b0);
    }

    /** Once the plan has arrived: the announcements, the approval and the work. */
    method AfterPlan(opts: Options, mkdirErr: Option<string>, pm: string, plan: Plan, mode: string) returns (r: Result<Finished>)
      requires queue.Valid()
      modifies port, queue
      ensures queue.Valid()
      ensures var t := Planned(port.invoke, port.stream, |old(port.calls)|, opts, names, mkdirErr, pm, plan, mode);
              port.calls == old(port.calls) + t.calls && queue.buffer == OfferAll(old(queue.buffer), t.events)
              && r == t.result
    {
      ghost var c0 := port.calls;
      ghost var b0 := queue.buffer;
      Emit(DecisionEvent(pm, mode, plan), b0, []);
      EmitTasksCreated(plan.steps, pm);
      ghost var announced := [DecisionEvent(pm, mode, plan)] + TaskCreatedEvents(plan.steps, pm);
      OfferAllAppend(b0, [DecisionEvent(pm, mode, plan)], TaskCreatedEvents(plan.steps, pm));
      if opts.checkpointLevel != CheckpointNone {
        var approved := RequestApproval("Plan Approval", plan.summary);
        if !approved {
          // requestApproval always approves
          assert false;
        }
      }
      r := WorkPhase(opts, mkdirErr, pm, mode, plan);
      ghost var t := WorkFrom(port.invoke, port.stream, |c0|, opts, names, mkdirErr, pm, mode, plan);
      Then(c0, [], c0, t.calls, port.calls, b0, announced, t.events, queue.buffer);
    }

    /** The planning phase and everything after it. */
    method PlanPhase(opts: Options, mkdirErr: Option<string>, pm: string) returns (r: Result<Finished>)
      requires queue.Valid()
      modifies port, queue
      ensures queue.Valid()
      ensures var t := PlanFrom(port.invoke, port.stream, |old(port.calls)|, opts, names, mkdirErr, pm);
              port.calls == old(port.calls) + t.calls && queue.buffer == OfferAll(old(queue.buffer), t.events)
              && r == t.result
    {
      ghost var c0 := port.calls;
      ghost var b0 := queue.buffer;
      var planned := CreatePlanCall(opts, pm);
      if planned.Failure? {
        Emit(ErrorEvent(planned.error, "Planning failed"), b0, []);
        return Failure("planning failed: " + planned.error);
      }
      var (plan, mode) := planned.value;
      ghost var c1 := port.calls;
      r := AfterPlan(opts, mkdirErr, pm, plan, mode);
      ghost var t := Planned(port.invoke, port.stream, |c1|, opts, names, mkdirErr, pm, plan, mode);
      ghost var p := PlanFrom(port.invoke, port.stream, |c0|, opts, names, mkdirErr, pm);
      assert p == Outcome([PlanCall(opts, pm)] + t.calls, t.events, t.result) by {
        assert |c1| == |c0| + 1;
        PlanFromReply(port.invoke, port.stream, |c0|, opts, names, mkdirErr, pm, plan, mode);
      }
      CallThen(c0, PlanCall(opts, pm), c1, port.calls, b0, queue.buffer, p, t);
    }

    /**
     * Run: analysis (the PM is selected), planning, execution, review and
     * delivery, announcing each phase on the event channel.
     */
    method Run(opts: Options, mkdirErr: Option<string>) returns (r: Result<Finished>)
      requires queue.Valid()
      modifies port, queue
      ensures queue.Valid()
      ensures var t := RunFrom(port.invoke, port.stream, |old(port.calls)|, opts, names, mkdirErr);
              port.calls == old(port.calls) + t.calls && queue.buffer == OfferAll(old(queue.buffer), t.events)
              && r == t.result
    {
      ghost var b0 := queue.buffer;
      var phase := Phase.Analysis;
      ghost var c0 := port.calls;
      Emit(PhaseEvent(-1, Phase.Analysis), b0, []);
      var pm := SelectPM(opts);
      var selected := NewEvent(PMSelected, pm, PMSelectedData(pm, DisplayName(names, pm)));
      Emit(selected, b0, [PhaseEvent(-1, Phase.Analysis)]);
      Emit(PhaseEvent(Phase.Analysis.Code(), Phase.Planning), b0, [PhaseEvent(-1, Phase.Analysis), selected]);
      phase := Phase.Planning;
      r := PlanPhase(opts, mkdirErr, pm);
      ghost var t := PlanFrom(port.invoke, port.stream, |c0|, opts, names, mkdirErr, pm);
      Then(c0, [], c0, t.calls, port.calls, b0, Opening(pm, names), t.events, queue.buffer);
    }
  }
}
