/**
 * Team workflow events: the fourteen event kinds, their payload records and
 * the two event constructors. Timestamps are not modelled.
 */
module TeamEvents {
  import opened TeamTypes
  import opened Results

  datatype EventType =
    | PhaseChanged | PMSelected | PMDecision | TaskCreated | TaskStarted
    | TaskProgress | TaskCompleted | TaskMovedToReview | PMApproved
    | UserTaskCreated | UserTaskBlocking | UserTaskCompleted | Error
    | SessionComplete
  {
    /** The number Go assigns to the kind (declaration order from 0). */
    function Code(): (c: int)
      ensures 0 <= c <= 13
    {
      match this
      case PhaseChanged => 0
      case PMSelected => 1
      case PMDecision => 2
      case TaskCreated => 3
      case TaskStarted => 4
      case TaskProgress => 5
      case TaskCompleted => 6
      case TaskMovedToReview => 7
      case PMApproved => 8
      case UserTaskCreated => 9
      case UserTaskBlocking => 10
      case UserTaskCompleted => 11
      case Error => 12
      case SessionComplete => 13
    }

    function String(): string
    {
      EventTypeName(Code())
    }
  }

  /** The kind carrying a given number, if any. */
  function EventTypeOf(code: int): (r: Option<EventType>)
    ensures r.Some? <==> 0 <= code <= 13
    ensures r.Some? ==> r.value.Code() == code
  {
    if code == 0 then Some(PhaseChanged)
    else if code == 1 then Some(PMSelected)
    else if code == 2 then Some(PMDecision)
    else if code == 3 then Some(TaskCreated)
    else if code == 4 then Some(TaskStarted)
    else if code == 5 then Some(TaskProgress)
    else if code == 6 then Some(TaskCompleted)
    else if code == 7 then Some(TaskMovedToReview)
    else if code == 8 then Some(PMApproved)
    else if code == 9 then Some(UserTaskCreated)
    else if code == 10 then Some(UserTaskBlocking)
    else if code == 11 then Some(UserTaskCompleted)
    else if code == 12 then Some(Error)
    else if code == 13 then Some(SessionComplete)
    else None
  }

  /** EventType.String for any number: the kind's name, or "Unknown". */
  function EventTypeName(code: int): (r: string)
    ensures r == "Unknown" <==> !(0 <= code <= 13)
  {
    if code == 0 then "PhaseChanged"
    else if code == 1 then "PMSelected"
    else if code == 2 then "PMDecision"
    else if code == 3 then "TaskCreated"
    else if code == 4 then "TaskStarted"
    else if code == 5 then "TaskProgress"
    else if code == 6 then "TaskCompleted"
    else if code == 7 then "TaskMovedToReview"
    else if code == 8 then "PMApproved"
    else if code == 9 then "UserTaskCreated"
    else if code == 10 then "UserTaskBlocking"
    else if code == 11 then "UserTaskCompleted"
    else if code == 12 then "Error"
    else if code == 13 then "SessionComplete"
    else "Unknown"
  }

  /** Numbering is a bijection between the kinds and 0..13. */
  lemma CodesNumberKinds(k: EventType, code: int)
    ensures EventTypeOf(k.Code()) == Some(k)
    ensures 0 <= code <= 13 ==> EventTypeOf(code).value.Code() == code
  {
  }

  /** Distinct kinds have distinct names, none of them "Unknown". */
  lemma EventNamesDistinct(a: EventType, b: EventType)
    requires a != b
    ensures a.String() != b.String()
    ensures a.String() != "Unknown"
  {
  }

  /**
   * Event payloads. Go carries them as an untyped value that
   * handlers type-assert, so any kind may carry any payload.
   */
  datatype Payload =
    | NoData
    | PhaseChangedData(oldPhase: int, newPhase: int)
    | PMSelectedData(pmId: string, displayName: string)
    | PMDecisionData(workMode: string, planSummary: string, tasks: seq<PlanStep>)
    | TaskCreatedData(title: string, description: string, assignedTo: string,
                      isBlocking: bool, dependsOn: seq<string>)
    | TaskProgressData(content: string, progress: real)
    | ErrorData(error: Option<string>, taskId: string, message: string)
    | UserTaskCompletedData(notes: string)

  datatype Event = Event(kind: EventType, taskId: string, actor: string, data: Payload)

  /** NewEvent: a session-level event, not tied to any task. */
  function NewEvent(kind: EventType, actor: string, data: Payload): (e: Event)
    ensures e.kind == kind && e.actor == actor && e.data == data
    ensures e.taskId == ""
  {
    Event(kind, "", actor, data)
  }

  /** NewTaskEvent: the same, tagged with a task ID. */
  function NewTaskEvent(kind: EventType, taskId: string, actor: string, data: Payload): (e: Event)
    ensures e.kind == kind && e.actor == actor && e.data == data
    ensures e.taskId == taskId
  {
    Event(kind, taskId, actor, data)
  }
}
