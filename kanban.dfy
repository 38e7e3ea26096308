/**
 * The Kanban board of the team TUI: a card map, four ordered columns of card
 * references, a cursor, an active card, a popup, a help overlay and a debug
 * log capped at 100 entries, all driven by key presses and team events.
 *
 * The Go model keeps pointers to cards both in the `cards` map and in the
 * column slices, and mutates cards through either; here cards are objects of
 * class KanbanCard and the board is one object whose methods update it.
 */
module Kanban {
  import opened Text
  import opened Results
  import opened Cards
  import TeamTypes
  import opened TeamEvents

  /** One debug-log line (its timestamp is not modelled). */
  datatype LogEntry = LogEntry(kind: string, actor: string, message: string)

  const MaxLogEntries: nat := 100

  /**
   * The board's view state: everything the board holds besides its task,
   * its cards and its columns.
   */
  datatype UiState = UiState(
    pm: string, pmPhase: int, workMode: string, planSummary: string,
    paused: bool, selectedCol: Column, selectedRow: int, activeCardId: string,
    width: int, height: int, ready: bool,
    showPopup: bool, popupCardId: string, popupScroll: int, showHelp: bool,
    activityStatus: string, showDebugLog: bool, debugLog: seq<LogEntry>, debugScroll: int,
    complete: bool, quitting: bool)

  /** The view invariant: cursor and scroll positions in range, log capped at 100. */
  predicate UiValid(ui: UiState)
  {
    ui.selectedRow >= 0 && ui.popupScroll >= 0 && |ui.debugLog| <= MaxLogEntries
    && -1 <= ui.debugScroll <= MaxScroll(|ui.debugLog|)
  }

  /** The view state after addDebugLog. */
  function Logged(ui: UiState, entry: LogEntry): (r: UiState)
    ensures r == ui.(debugLog := r.debugLog)
    ensures UiValid(ui) ==> UiValid(r)
  {
    ui.(debugLog := AppendCapped(ui.debugLog, entry))
  }

  /** Messages the board reacts to. Spinner ticks change nothing modelled here. */
  datatype Msg =
    | KeyMsg(key: string)
    | WindowSizeMsg(width: int, height: int)
    | TeamEventMsg(event: Event)
    | SpinnerTick

  /** Which handler a key press reaches. */
  datatype KeyRoute = PopupKeys | CloseHelp | DebugLogKeys | BoardKeys

  /** Key routing precedence: popup, then help overlay, then debug log, then board. */
  function RouteKey(ui: UiState): (r: KeyRoute)
    ensures r == PopupKeys <==> ui.showPopup
    ensures r == CloseHelp <==> !ui.showPopup && ui.showHelp
    ensures r == DebugLogKeys <==> !ui.showPopup && !ui.showHelp && ui.showDebugLog
    ensures r == BoardKeys <==> !ui.showPopup && !ui.showHelp && !ui.showDebugLog
  {
    if ui.showPopup then PopupKeys
    else if ui.showHelp then CloseHelp
    else if ui.showDebugLog then DebugLogKeys
    else BoardKeys
  }

  /** handlePopupKey */
  function PopupKey(ui: UiState, key: string): (r: UiState)
    ensures r == ui.(showPopup := r.showPopup, popupScroll := r.popupScroll)
    ensures r.showPopup <==> ui.showPopup && !IsPopupCloseKey(key)
    ensures UiValid(ui) ==> UiValid(r)
    ensures IsDownKey(key) ==> r.popupScroll == ui.popupScroll + 1
  {
    if IsPopupCloseKey(key) then ui.(showPopup := false)
    else if IsDownKey(key) then ui.(popupScroll := ui.popupScroll + 1)
    else if IsUpKey(key) && ui.popupScroll > 0 then ui.(popupScroll := ui.popupScroll - 1)
    else ui
  }

  /** The largest scroll position a log of `n` entries can hold (0 for an empty log). */
  function MaxScroll(n: nat): int
  {
    if n == 0 then 0 else n - 1
  }

  /** handleDebugLogKey */
  function DebugLogKey(ui: UiState, key: string): (r: UiState)
    ensures r == ui.(showDebugLog := r.showDebugLog, debugScroll := r.debugScroll)
    ensures r.showDebugLog <==> ui.showDebugLog && !IsDebugCloseKey(key)
    ensures UiValid(ui) ==> UiValid(r)
    ensures key == "g" ==> r.debugScroll == 0
    ensures key == "G" ==> r.debugScroll == |ui.debugLog| - 1
  {
    if IsDebugCloseKey(key) then ui.(showDebugLog := false)
    else if IsDownKey(key) && ui.debugScroll < |ui.debugLog| - 1 then ui.(debugScroll := ui.debugScroll + 1)
    else if IsUpKey(key) && ui.debugScroll > 0 then ui.(debugScroll := ui.debugScroll - 1)
    else if key == "g" then ui.(debugScroll := 0)
    else if key == "G" then ui.(debugScroll := |ui.debugLog| - 1)
    else ui
  }

  function ColumnLeft(c: Column): Column
  {
    match c
    case Backlog => Backlog
    case InProgress => Backlog
    case Review => InProgress
    case Done => Review
  }

  function ColumnRight(c: Column): Column
  {
    match c
    case Backlog => InProgress
    case InProgress => Review
    case Review => Done
    case Done => Done
  }

  predicate IsQuitKey(key: string) { key == "q" || key == "ctrl+c" }
  predicate IsPopupCloseKey(key: string) { key == "esc" || key == "q" }
  predicate IsDebugCloseKey(key: string) { key == "esc" || key == "q" || key == "`" || key == "~" }
  predicate IsDebugToggleKey(key: string) { key == "`" || key == "~" }
  predicate IsLeftKey(key: string) { key == "h" || key == "left" }
  predicate IsRightKey(key: string) { key == "l" || key == "right" }
  predicate IsDownKey(key: string) { key == "j" || key == "down" }
  predicate IsUpKey(key: string) { key == "k" || key == "up" }
  predicate IsDoneKey(key: string) { key == "d" || key == "D" }

  /** Keys of handleKey that touch only the cursor, overlays and pause flag. */
  predicate IsViewKey(key: string)
  {
    key == "?" || IsDebugToggleKey(key) || IsLeftKey(key) || IsRightKey(key) || IsDownKey(key) || IsUpKey(key)
    || key == " "
  }

  /**
   * handleKey for the view-only keys; `columnLength` is the length of the
   * selected column.
   */
  function ViewKey(ui: UiState, key: string, columnLength: nat): (r: UiState)
    requires IsViewKey(key)
    ensures r.selectedCol != ui.selectedCol ==> r.selectedRow == 0
    ensures r.selectedCol != ui.selectedCol ==>
              r.selectedCol.Code() == ui.selectedCol.Code() + 1 || r.selectedCol.Code() == ui.selectedCol.Code() - 1
    ensures UiValid(ui) ==> UiValid(r)
    ensures ui.selectedRow >= 0 && r.selectedRow > ui.selectedRow ==>
              IsDownKey(key) && r.selectedRow == ui.selectedRow + 1 < columnLength
    ensures IsDownKey(key) && 0 <= ui.selectedRow < columnLength - 1 ==> r.selectedRow == ui.selectedRow + 1
  {
    if key == "?" then ui.(showHelp := !ui.showHelp)
    else if IsDebugToggleKey(key) then ui.(showDebugLog := !ui.showDebugLog, debugScroll := |ui.debugLog| - 1)
    else if IsLeftKey(key) then
      (if ui.selectedCol != Backlog then ui.(selectedCol := ColumnLeft(ui.selectedCol), selectedRow := 0) else ui)
    else if IsRightKey(key) then
      (if ui.selectedCol != Done then ui.(selectedCol := ColumnRight(ui.selectedCol), selectedRow := 0) else ui)
    else if IsDownKey(key) then
      (if columnLength > 0 && ui.selectedRow < columnLength - 1 then ui.(selectedRow := ui.selectedRow + 1) else ui)
    else if IsUpKey(key) then
      (if ui.selectedRow > 0 then ui.(selectedRow := ui.selectedRow - 1) else ui)
    else ui.(paused := !ui.paused)
  }

  /** The cards of `s` whose ID differs from `id`, in order. */
  function WithoutId(s: seq<KanbanCard>, id: string): (r: seq<KanbanCard>)
    ensures |r| <= |s|
    ensures forall c | c in r :: c in s && c.id != id
    ensures forall c | c in s && c.id != id :: c in r
  {
    if |s| == 0 then []
    else WithoutId(s[..|s| - 1], id) + (if s[|s| - 1].id != id then [s[|s| - 1]] else [])
  }

  /** Index of the first card of `s` with the given ID, or -1. */
  function IndexOfId(s: seq<KanbanCard>, id: string): (r: int)
    ensures -1 <= r < |s|
    ensures r >= 0 ==> s[r].id == id && forall k | 0 <= k < r :: s[k].id != id
    ensures r == -1 ==> forall k | 0 <= k < |s| :: s[k].id != id
  {
    if |s| == 0 then -1
    else if s[0].id == id then 0
    else
      var k := IndexOfId(s[1..], id);
      if k == -1 then -1 else k + 1
  }

  /**
   * The active card after cycling: "" for an empty column, the card after
   * the current active card (wrapping), or the first card if the current
   * active card is not in the column.
   */
  function NextActiveId(inProgress: seq<KanbanCard>, active: string): (r: string)
    ensures |inProgress| == 0 ==> r == ""
    ensures |inProgress| > 0 && IndexOfId(inProgress, active) == -1 ==> r == inProgress[0].id
    ensures var i := IndexOfId(inProgress, active);
            0 <= i < |inProgress| - 1 ==> r == inProgress[i + 1].id
    ensures |inProgress| > 0 && IndexOfId(inProgress, active) == |inProgress| - 1 ==> r == inProgress[0].id
  {
    if |inProgress| == 0 then ""
    else
      var next := IndexOfId(inProgress, active) + 1;
      inProgress[if next == |inProgress| then 0 else next].id
  }

  /** The filtering loop of moveCard: a fresh slice of the cards whose ID differs from `id`. */
  method RemoveId(s: seq<KanbanCard>, id: string) returns (kept: seq<KanbanCard>)
    ensures kept == WithoutId(s, id)
  {
    kept := [];
    var i := 0;
    while i < |s|
      invariant 0 <= i <= |s|
      invariant kept == WithoutId(s[..i], id)
    {
      WithoutIdSnoc(s, i, id);
      if s[i].id != id {
        kept := kept + [s[i]];
      }
      i := i + 1;
    }
    assert s[..i] == s;
  }

  /** The scan of cycleActiveCard: the index of the first card with the given ID, or -1. */
  method FindIndexOfId(s: seq<KanbanCard>, id: string) returns (idx: int)
    ensures idx == IndexOfId(s, id)
  {
    idx := -1;
    var i := 0;
    while i < |s|
      invariant 0 <= i <= |s|
      invariant forall k | 0 <= k < i :: s[k].id != id
    {
      if s[i].id == id {
        idx := i;
        return;
      }
      i := i + 1;
    }
  }

  /** Filtering and appending commute with taking a prefix one element longer. */
  lemma WithoutIdSnoc(s: seq<KanbanCard>, i: nat, id: string)
    requires i < |s|
    ensures WithoutId(s[..i + 1], id) == WithoutId(s[..i], id) + (if s[i].id != id then [s[i]] else [])
  {
    assert s[..i + 1][..i] == s[..i];
  }

  /** The entry logged for every team event before it is applied. */
  function EventEntry(ev: Event): LogEntry
  {
    LogEntry("event", ev.actor, "[" + ev.kind.String() + "] " + ev.taskId)
  }

  /** The log after appending an entry: at most 100 entries, oldest dropped first. */
  function AppendCapped(log: seq<LogEntry>, entry: LogEntry): (r: seq<LogEntry>)
    ensures |r| == if |log| + 1 > MaxLogEntries then MaxLogEntries else |log| + 1
    ensures r[|r| - 1] == entry
    ensures r[..|r| - 1] == log[|log| + 1 - |r|..]
  {
    LastN(log + [entry], MaxLogEntries)
  }

  /** The newest entry of a log is still in the later log. */
  predicate NewestKept(before: seq<LogEntry>, after: seq<LogEntry>)
  {
    |before| > 0 ==> before[|before| - 1] in after
  }

  /** The newest entry survives one more append. */
  lemma KeepsNewest(log: seq<LogEntry>, entry: LogEntry)
    requires |log| <= MaxLogEntries
    ensures NewestKept(log, AppendCapped(log, entry))
  {
    if |log| > 0 {
      var r := AppendCapped(log, entry);
      assert r[..|r| - 1][|r| - 2] == log[|log| - 1];
    }
  }

  /**
   * Capping after every append keeps exactly the newest entries of the whole
   * history: the log is always the last 100 entries ever added.
   */
  lemma AppendCappedKeepsNewest(history: seq<LogEntry>, entry: LogEntry)
    ensures AppendCapped(LastN(history, MaxLogEntries), entry) == LastN(history + [entry], MaxLogEntries)
  {
    var h := history + [entry];
    var kept := LastN(history, MaxLogEntries);
    assert kept + [entry] == h[|h| - |kept| - 1..];
  }

  /**
   * The rows of the debug log drawn on a screen of the given height, as
   * [start, end): at least five rows fit, and a scroll position is honoured
   * only when it leaves a full window below it.
   */
  function DebugWindow(logLength: nat, height: int, debugScroll: int): (r: (int, int))
    ensures var (start, end) := r;
            0 <= start <= end <= logLength
            && end - start <= (if height - 8 < 5 then 5 else height - 8)
  {
    var maxVisible := if height - 8 < 5 then 5 else height - 8;
    var start :=
      if logLength > maxVisible then
        (if 0 <= debugScroll < logLength - maxVisible then debugScroll else logLength - maxVisible)
      else 0;
    var end := if start + maxVisible > logLength then logLength else start + maxVisible;
    (start, end)
  }

  /**
   * The window is full whenever the log can fill it; it starts at the scroll
   * position when that is honoured, and otherwise shows the newest entries.
   */
  lemma DebugWindowPlacement(logLength: nat, height: int, debugScroll: int)
    ensures var maxVisible := if height - 8 < 5 then 5 else height - 8;
            var (start, end) := DebugWindow(logLength, height, debugScroll);
            (logLength <= maxVisible ==> start == 0 && end == logLength)
            && (logLength > maxVisible ==> end - start == maxVisible)
            && (logLength > maxVisible && 0 <= debugScroll < logLength - maxVisible ==> start == debugScroll)
            && (logLength > maxVisible && !(0 <= debugScroll < logLength - maxVisible) ==> end == logLength)
  {
  }

  /** Every column is a key of the column map. */
  predicate AllColumns(columns: map<Column, seq<KanbanCard>>)
  {
    forall col: Column :: col in columns
  }

  /** The status line and log entry of a card-moving event, from the card's title. */
  function MoveStatus(kind: EventType, actor: string, title: string): string
  {
    match kind
    case TaskStarted => actor + " working on: " + TruncateString(title, 20)
    case TaskCompleted => actor + " completed: " + TruncateString(title, 20)
    case TaskMovedToReview => "Review: " + TruncateString(title, 25)
    case _ => "Approved: " + TruncateString(title, 25)
  }

  function MoveEntry(kind: EventType, actor: string, title: string): LogEntry
  {
    match kind
    case TaskStarted => LogEntry("cmd", actor, "Started: " + title)
    case TaskCompleted => LogEntry("task", actor, "Completed: " + title)
    case TaskMovedToReview => LogEntry("review", "pm", "Moved to review: " + title)
    case _ => LogEntry("approved", "pm", "Approved: " + title)
  }

  /** The column a card-moving event sends its card to. */
  function MoveTarget(kind: EventType): Column
  {
    match kind
    case TaskStarted => InProgress
    case PMApproved => Done
    case _ => Review
  }

  predicate IsHeaderEvent(kind: EventType)
  {
    kind == PhaseChanged || kind == PMSelected || kind == PMDecision || kind == SessionComplete
  }

  predicate IsCreateEvent(kind: EventType)
  {
    kind == TaskCreated || kind == UserTaskCreated
  }

  predicate IsMoveEvent(kind: EventType)
  {
    kind == TaskStarted || kind == TaskCompleted || kind == TaskMovedToReview || kind == PMApproved
  }

  /** The view state a header event leaves, from the view state `u` it finds. */
  function HeaderUi(ev: Event, u: UiState): (r: UiState)
    ensures ev.kind == PhaseChanged && ev.data.PhaseChangedData? ==> r.pmPhase == ev.data.newPhase
    ensures ev.kind == PMSelected && ev.data.PMSelectedData? ==> r.pm == ev.data.pmId
    ensures ev.kind == PMDecision ==> r.pm == ev.actor
    ensures ev.kind == PMDecision && ev.data.PMDecisionData? ==>
              r.workMode == ev.data.workMode && r.planSummary == ev.data.planSummary
    ensures ev.kind == PMDecision && !ev.data.PMDecisionData? ==> r == u.(pm := ev.actor)
    ensures ev.kind == SessionComplete ==> r.complete && r.activityStatus == "Session complete!"
    ensures ev.kind == PhaseChanged && !ev.data.PhaseChangedData? ==> r == u
    ensures ev.kind == PMSelected && !ev.data.PMSelectedData? ==> r == u
    ensures !IsHeaderEvent(ev.kind) ==> r == u
  {
    if ev.kind == PhaseChanged then
      if ev.data.PhaseChangedData? then
        Logged(u.(pmPhase := ev.data.newPhase, activityStatus := "Phase: " + TeamTypes.PhaseName(ev.data.newPhase)),
               LogEntry("phase", "system", "Phase changed: " + TeamTypes.PhaseName(ev.data.oldPhase) + " → "
                                           + TeamTypes.PhaseName(ev.data.newPhase)))
      else u
    else if ev.kind == PMSelected then
      if ev.data.PMSelectedData? then
        Logged(u.(pm := ev.data.pmId, activityStatus := "PM selected: " + ev.data.pmId),
               LogEntry("pm", ev.data.pmId, "Selected as Project Manager"))
      else u
    else if ev.kind == PMDecision then
      if ev.data.PMDecisionData? then
        Logged(u.(pm := ev.actor, workMode := ev.data.workMode, planSummary := ev.data.planSummary,
                  activityStatus := "Planning: " + ev.data.workMode + " mode"),
               LogEntry("decision", ev.actor, "Work mode: " + ev.data.workMode + ", Tasks: " + NatToString(|ev.data.tasks|)))
      else u.(pm := ev.actor)
    else if ev.kind == SessionComplete then
      Logged(u.(complete := true, activityStatus := "Session complete!"),
             LogEntry("complete", "system", "Session finished successfully"))
    else u
  }

  /** The card a creation event builds: the payload's fields, in Backlog, with nothing streamed yet. */
  function CreatedData(ev: Event): CardData
    requires ev.data.TaskCreatedData?
  {
    var userTask := ev.kind == UserTaskCreated;
    CardData(ev.data.title, ev.data.description, if userTask then "user" else ev.data.assignedTo, Backlog,
             ev.data.isBlocking, userTask || ev.data.assignedTo == "user",
             "", "", 0.0, ev.data.dependsOn, [], false, None)
  }

  /** The status line and log entry of a creation event. */
  function CreatedUi(ev: Event, u: UiState): UiState
    requires ev.data.TaskCreatedData?
  {
    if ev.kind == UserTaskCreated then
      Logged(u.(activityStatus := "Your task: " + TruncateString(ev.data.title, 25)),
             LogEntry("user", "pm", "Assigned to you: " + ev.data.title))
    else
      Logged(u.(activityStatus := "Task created: " + TruncateString(ev.data.title, 30)),
             LogEntry("task", ev.data.assignedTo, "Created: " + ev.data.title))
  }

  /** The active card, status line and log entry of a move of the card titled `title`. */
  function MovedUi(ev: Event, u: UiState, title: string): UiState
  {
    Logged(u.(activeCardId := if ev.kind == TaskStarted then ev.taskId else u.activeCardId,
              activityStatus := MoveStatus(ev.kind, ev.actor, title)),
           MoveEntry(ev.kind, ev.actor, title))
  }

  /**
   * The view state after a progress event: content longer than 50 bytes
   * streamed into a card is logged, and the status line names the responder.
   */
  function ProgressUi(ev: Event, u: UiState, streamed: bool): UiState
  {
    (if streamed && ev.data.TaskProgressData? && |ev.data.content| > 50
     then Logged(u, LogEntry("response", ev.actor, TruncateString(ev.data.content, 80)))
     else u).(activityStatus := ev.actor + " responding...")
  }

  /** The status line and log entry of an error event. */
  function ErrorUi(ev: Event, u: UiState): UiState
    requires ev.data.ErrorData?
  {
    Logged(u.(activityStatus := "Error: " + TruncateString(ev.data.message, 30)),
           LogEntry("error", ev.actor, ev.data.message))
  }

  class KanbanModel {
    const task: string
    var ui: UiState
    var cards: map<string, KanbanCard>
    var columns: map<Column, seq<KanbanCard>>

    /** Every card the board has created. */
    ghost var Repr: set<KanbanCard>

    /**
     * Every card reachable from the map or a column was created by the board,
     * the map is keyed by card ID, each card sits in the column its `column`
     * field names, and the view state is in range.
     */
    ghost predicate Valid()
      reads this, Repr
    {
      AllColumns(columns)
      && (forall id | id in cards :: cards[id] in Repr && cards[id].id == id)
      && (forall col: Column, i | col in columns && 0 <= i < |columns[col]| ::
            columns[col][i] in Repr && columns[col][i].column == col)
      && UiValid(ui)
    }

    /** No card and no column changed. */
    twostate predicate BoardUnchanged()
      reads this, Repr
    {
      cards == old(cards) && columns == old(columns) && Repr == old(Repr) && unchanged(Repr)
    }

    /** NewKanbanModel: four empty columns, Backlog selected, status "Initializing...". */
    constructor (task: string)
      ensures Valid() && fresh(Repr)
      ensures this.task == task && cards == map[] && Repr == {}
      ensures forall col: Column :: col in columns && columns[col] == []
      ensures ui == UiState("", 0, "", "", false, Backlog, 0, "", 0, 0, false,
                            false, "", 0, false, "Initializing...", false, [], 0, false, false)
    {
      this.task := task;
      ui := UiState("", 0, "", "", false, Backlog, 0, "", 0, 0, false,
                    false, "", 0, false, "Initializing...", false, [], 0, false, false);
      cards := map[];
      columns := map[Backlog := [], InProgress := [], Review := [], Done := []];
      Repr := {};
      new;
      forall col: Column
        ensures col in columns && columns[col] == []
      {
        match col
        case Backlog =>
        case InProgress =>
        case Review =>
        case Done =>
      }
    }

    /** addDebugLog: append, then keep only the newest 100 entries. */
    method AddDebugLog(kind: string, actor: string, message: string)
      requires Valid()
      modifies this
      ensures Valid()
      ensures ui == Logged(old(ui), LogEntry(kind, actor, message))
      ensures cards == old(cards) && columns == old(columns) && Repr == old(Repr)
      ensures NewestKept(old(ui.debugLog), ui.debugLog)
    {
      var entry := LogEntry(kind, actor, message);
      KeepsNewest(ui.debugLog, entry);
      ui := Logged(ui, entry);
    }

    /** The cards of a column; a column missing from the map reads as empty, as a nil slice does. */
    function ColumnCards(col: Column): seq<KanbanCard>
      reads this
    {
      if col in columns then columns[col] else []
    }

    /** getSelectedCard: the card under the cursor, else the column's first card, else none. */
    function SelectedCard(): (c: KanbanCard?)
      reads this
    {
      var col := ColumnCards(ui.selectedCol);
      if |col| == 0 then null
      else if 0 <= ui.selectedRow < |col| then col[ui.selectedRow]
      else col[0]
    }

    /** The selected card is in the selected column, and exists whenever that column is non-empty. */
    lemma SelectedCardInColumn()
      ensures SelectedCard() == null <==> |ColumnCards(ui.selectedCol)| == 0
      ensures SelectedCard() != null ==> SelectedCard() in ColumnCards(ui.selectedCol)
      ensures 0 <= ui.selectedRow < |ColumnCards(ui.selectedCol)| ==>
                SelectedCard() == ColumnCards(ui.selectedCol)[ui.selectedRow]
      ensures !(0 <= ui.selectedRow < |ColumnCards(ui.selectedCol)|) && SelectedCard() != null ==>
                SelectedCard() == ColumnCards(ui.selectedCol)[0]
    {
    }

    /**
     * moveCard: drop every entry with the card's ID from its current column,
     * append the card to the target column and record the target on the card.
     */
    method MoveCard(card: KanbanCard?, to: Column)
      requires Valid()
      requires card != null ==> card in Repr
      modifies this, card
      ensures Valid()
      ensures card == null ==> columns == old(columns)
      ensures card != null ==>
                var from := old(card.column);
                columns == old(columns)[from := WithoutId(old(columns[from]), card.id)]
                                       [to := (if from == to then WithoutId(old(columns[to]), card.id)
                                               else old(columns[to])) + [card]]
      ensures card != null ==> card.Data() == old(card.Data()).(column := to)
      ensures cards == old(cards) && Repr == old(Repr) && ui == old(ui)
    {
      if card == null {
        return;
      }
      var from := card.column;
      assert to in columns && from in columns;
      var kept := RemoveId(columns[from], card.id);
      ghost var before := columns;
      columns := columns[from := kept];
      card.column := to;
      columns := columns[to := columns[to] + [card]];
      forall col: Column, k | 0 <= k < |columns[col]|
        ensures columns[col][k] in Repr && columns[col][k].column == col
      {
        var c := columns[col][k];
        if col == to && k == |columns[col]| - 1 {
          assert c == card;
        } else if col == from {
          assert c in kept;
          assert c in before[from] && c.id != card.id;
        } else {
          assert c in before[col];
        }
      }
    }

    /** cycleActiveCard: the next in-progress card after the active one, wrapping. */
    method CycleActiveCard()
      requires Valid()
      modifies this
      ensures Valid()
      ensures ui == old(ui).(activeCardId := NextActiveId(ColumnCards(InProgress), old(ui.activeCardId)))
      ensures cards == old(cards) && columns == old(columns) && Repr == old(Repr)
    {
      var inProgress := ColumnCards(InProgress);
      if |inProgress| == 0 {
        ui := ui.(activeCardId := "");
        return;
      }
      var currentIdx := FindIndexOfId(inProgress, ui.activeCardId);
      var nextIdx := (currentIdx + 1) % |inProgress|;
      WrapAround(currentIdx + 1, |inProgress|);
      ui := ui.(activeCardId := inProgress[nextIdx].id);
    }

    /** completeUserTask: only a user-task card is marked done and moved to Done. */
    method CompleteUserTask(taskId: string)
      requires Valid()
      modifies this, Repr
      ensures Valid()
      ensures ui == old(ui) && cards == old(cards) && Repr == old(Repr)
      ensures taskId in cards && old(cards[taskId].isUserTask) ==>
                var c := cards[taskId];
                c.Data() == old(c.Data()).(done := true, column := Done)
                && columns == old(columns)[old(c.column) := WithoutId(old(columns[c.column]), taskId)]
                                          [Done := (if old(c.column) == Done then WithoutId(old(columns[Done]), taskId)
                                                    else old(columns[Done])) + [c]]
                && forall d | d in old(Repr) && d != c :: unchanged(d)
      ensures !(taskId in cards && old(cards[taskId].isUserTask)) ==> BoardUnchanged()
    {
      if taskId in cards && cards[taskId].isUserTask {
        var card := cards[taskId];
        card.done := true;
        MoveCard(card, Done);
      }
    }

    /**
     * What handleKey does to the board for `key`, returning `quit`: the quit
     * keys quit, the view keys move the cursor, enter opens the selected
     * card, tab cycles the active card, d/D complete the selected user task
     * (moving it to Done), and every other key changes nothing.
     */
    twostate predicate KeyHandled(key: string, quit: bool)
      requires old(Valid()) && Valid()
      reads this, Repr
    {
      (quit <==> IsQuitKey(key))
      && (quit ==> ui == old(ui).(quitting := true) && BoardUnchanged())
      && (IsViewKey(key) ==> ui == ViewKey(old(ui), key, |old(ColumnCards(ui.selectedCol))|) && BoardUnchanged())
      && (key == "enter" ==>
            BoardUnchanged()
            && ui == (if old(SelectedCard()) == null then old(ui)
                      else old(ui).(showPopup := true, popupCardId := old(SelectedCard()).id, popupScroll := 0)))
      && (key == "tab" ==>
            BoardUnchanged() && ui == old(ui).(activeCardId := NextActiveId(old(ColumnCards(InProgress)), old(ui.activeCardId))))
      && (IsDoneKey(key) ==> ui == old(ui) && cards == old(cards))
      && (IsDoneKey(key) && (old(SelectedCard()) == null || !old(SelectedCard().isUserTask)) ==> BoardUnchanged())
      && (IsDoneKey(key) && old(SelectedCard()) != null && old(SelectedCard().isUserTask)
            && old(SelectedCard()).id in cards && cards[old(SelectedCard()).id] == old(SelectedCard()) ==>
            var c := old(SelectedCard());
            c.done && c.column == Done
            && columns == old(columns[c.column := WithoutId(columns[c.column], c.id)]
                                     [Done := (if c.column == Done then WithoutId(columns[Done], c.id)
                                               else columns[Done]) + [c]]))
      && (IsDoneKey(key) && old(SelectedCard()) != null && old(SelectedCard().isUserTask) ==>
            // completion goes by ID: it reaches whichever card the ID is bound to now
            var id := old(SelectedCard()).id;
            (old(id in cards && cards[id].isUserTask) ==>
               var c := old(cards[id]);
               c.done && c.column == Done
               && columns == old(columns[c.column := WithoutId(ColumnCards(c.column), id)]
                                        [Done := (if c.column == Done then WithoutId(ColumnCards(Done), id)
                                                  else ColumnCards(Done)) + [c]]))
            && (!old(id in cards && cards[id].isUserTask) ==> BoardUnchanged()))
      && (!quit && !IsViewKey(key) && key != "enter" && key != "tab" && !IsDoneKey(key) ==> ui == old(ui) && BoardUnchanged())
    }

    /** handleKey: the board's own keys. Returns whether the program quits. */
    method HandleKey(key: string) returns (quit: bool)
      requires Valid()
      modifies this, Repr
      ensures Valid()
      ensures KeyHandled(key, quit)
    {
      quit := false;
      if IsQuitKey(key) {
        ui := ui.(quitting := true);
        quit := true;
      } else if IsViewKey(key) {
        ui := ViewKey(ui, key, |ColumnCards(ui.selectedCol)|);
      } else if key == "enter" {
        var card := SelectedCard();
        if card != null {
          ui := ui.(showPopup := true, popupCardId := card.id, popupScroll := 0);
        }
      } else if key == "tab" {
        CycleActiveCard();
      } else if IsDoneKey(key) {
        var card := SelectedCard();
        if card != null && card.isUserTask {
          CompleteUserTask(card.id);
        }
      }
    }

    /** Whether a team event can change any card or column. */
    predicate TouchesBoard(ev: Event)
      reads this
    {
      match ev.kind
      case TaskCreated => ev.data.TaskCreatedData?
      case UserTaskCreated => ev.data.TaskCreatedData?
      case TaskStarted => ev.taskId in cards
      case TaskCompleted => ev.taskId in cards
      case TaskMovedToReview => ev.taskId in cards
      case PMApproved => ev.taskId in cards
      case TaskProgress => ev.taskId in cards && ev.data.TaskProgressData?
      case Error => ev.data.ErrorData? && ev.data.taskId in cards
      case _ => false
    }

    /** A card created for an event, bound to its ID in the map and appended to Backlog. */
    method AddCard(taskId: string, title: string, description: string, assignedTo: string,
                   isBlocking: bool, dependsOn: seq<string>, isUserTask: bool)
      returns (card: KanbanCard)
      requires Valid()
      modifies this
      ensures Valid()
      ensures fresh(card) && Repr == old(Repr) + {card}
      ensures cards == old(cards)[taskId := card]
      ensures columns == old(columns)[Backlog := old(columns[Backlog]) + [card]]
      ensures card.id == taskId
      ensures card.Data() == CardData(title, description, assignedTo, Backlog, isBlocking, isUserTask,
                                      "", "", 0.0, dependsOn, [], false, None)
      ensures ui == old(ui)
    {
      card := new KanbanCard(taskId, title, assignedTo);
      card.description := description;
      card.dependsOn := dependsOn;
      card.isBlocking := isBlocking;
      card.isUserTask := isUserTask;
      cards := cards[taskId := card];
      columns := columns[Backlog := columns[Backlog] + [card]];
      Repr := Repr + {card};
    }

    /**
     * TaskCreated and UserTaskCreated: a new card in Backlog, bound to the
     * event's task ID (a card already bound to that ID stays in its column).
     */
    method OnTaskCreated(ev: Event) returns (card: KanbanCard)
      requires Valid()
      requires IsCreateEvent(ev.kind) && ev.data.TaskCreatedData?
      modifies this
      ensures Valid()
      ensures NewestKept(old(ui.debugLog), ui.debugLog)
      ensures fresh(card) && Repr == old(Repr) + {card}
      ensures cards == old(cards)[ev.taskId := card]
      ensures columns == old(columns)[Backlog := old(columns[Backlog]) + [card]]
      ensures card.id == ev.taskId && card.column == Backlog
      ensures card.isUserTask <==> ev.kind == UserTaskCreated || ev.data.assignedTo == "user"
      ensures ev.kind == TaskCreated ==>
                card.Data() == CardData(ev.data.title, ev.data.description, ev.data.assignedTo, Backlog,
                                        ev.data.isBlocking, ev.data.assignedTo == "user",
                                        "", "", 0.0, ev.data.dependsOn, [], false, None)
                && ui == Logged(old(ui).(activityStatus := "Task created: " + TruncateString(ev.data.title, 30)),
                                LogEntry("task", ev.data.assignedTo, "Created: " + ev.data.title))
      ensures ev.kind == UserTaskCreated ==>
                card.Data() == CardData(ev.data.title, ev.data.description, "user", Backlog,
                                        ev.data.isBlocking, true,
                                        "", "", 0.0, ev.data.dependsOn, [], false, None)
                && ui == Logged(old(ui).(activityStatus := "Your task: " + TruncateString(ev.data.title, 25)),
                                LogEntry("user", "pm", "Assigned to you: " + ev.data.title))
    {
      var d := ev.data;
      if ev.kind == UserTaskCreated {
        card := AddCard(ev.taskId, d.title, d.description, "user", d.isBlocking, d.dependsOn, true);
        ui := ui.(activityStatus := "Your task: " + TruncateString(d.title, 25));
        AddDebugLog("user", "pm", "Assigned to you: " + d.title);
      } else {
        card := AddCard(ev.taskId, d.title, d.description, d.assignedTo, d.isBlocking, d.dependsOn,
                        d.assignedTo == "user");
        ui := ui.(activityStatus := "Task created: " + TruncateString(d.title, 30));
        AddDebugLog("task", d.assignedTo, "Created: " + d.title);
      }
    }

    /**
     * TaskStarted, TaskCompleted, TaskMovedToReview and PMApproved for a
     * known task: move its card (TaskCompleted also marks it done).
     */
    method OnCardMoved(ev: Event)
      requires Valid() && IsMoveEvent(ev.kind) && ev.taskId in cards
      modifies this, Repr
      ensures Valid()
      ensures NewestKept(old(ui.debugLog), ui.debugLog)
      ensures cards == old(cards) && Repr == old(Repr)
      ensures cards[ev.taskId].column == MoveTarget(ev.kind)
      ensures ev.kind == TaskCompleted ==> cards[ev.taskId].done
      ensures ev.kind == TaskStarted ==> ui.activeCardId == ev.taskId
      ensures var c := cards[ev.taskId];
              var to := MoveTarget(ev.kind);
              c.Data() == old(c.Data()).(column := to, done := old(c.done) || ev.kind == TaskCompleted)
              && columns == old(columns)[old(c.column) := WithoutId(old(columns[c.column]), ev.taskId)]
                                        [to := (if old(c.column) == to then WithoutId(old(columns[to]), ev.taskId)
                                                else old(columns[to])) + [c]]
              && (forall d | d in old(Repr) && d != c :: unchanged(d))
              && ui == Logged(old(ui).(activeCardId := if ev.kind == TaskStarted then ev.taskId else old(ui.activeCardId),
                                       activityStatus := MoveStatus(ev.kind, ev.actor, c.title)),
                              MoveEntry(ev.kind, ev.actor, c.title))
    {
      var card := cards[ev.taskId];
      if ev.kind == TaskCompleted {
        card.done := true;
      }
      MoveCard(card, MoveTarget(ev.kind));
      if ev.kind == TaskStarted {
        ui := ui.(activeCardId := card.id);
      }
      ui := ui.(activityStatus := MoveStatus(ev.kind, ev.actor, card.title));
      var entry := MoveEntry(ev.kind, ev.actor, card.title);
      AddDebugLog(entry.kind, entry.actor, entry.message);
    }

    /** TaskProgress: stream the content into a known card; the status line changes in any case. */
    method OnTaskProgress(ev: Event)
      requires Valid() && ev.kind == TaskProgress
      modifies this, Repr
      ensures Valid()
      ensures NewestKept(old(ui.debugLog), ui.debugLog)
      ensures cards == old(cards) && columns == old(columns) && Repr == old(Repr)
      ensures ev.taskId in cards && ev.data.TaskProgressData? ==>
                cards[ev.taskId].progress == ev.data.progress
                && cards[ev.taskId].streamBuf == old(cards[ev.taskId].streamBuf) + ev.data.content
      ensures ev.taskId in cards && ev.data.TaskProgressData? ==>
                var c := cards[ev.taskId];
                var content := ev.data.content;
                c.Data() == old(c.Data()).(streamBuf := old(c.streamBuf) + content,
                                           fullHistory := old(c.fullHistory) + content,
                                           progress := ev.data.progress)
                && (forall d | d in old(Repr) && d != c :: unchanged(d))
                && ui == (if |content| > 50 then Logged(old(ui), LogEntry("response", ev.actor, TruncateString(content, 80)))
                          else old(ui)).(activityStatus := ev.actor + " responding...")
      ensures !(ev.taskId in cards && ev.data.TaskProgressData?) ==>
                unchanged(Repr) && ui == old(ui).(activityStatus := ev.actor + " responding...")
    {
      if ev.taskId in cards && ev.data.TaskProgressData? {
        var card := cards[ev.taskId];
        card.streamBuf := card.streamBuf + ev.data.content;
        card.fullHistory := card.fullHistory + ev.data.content;
        card.progress := ev.data.progress;
        if |ev.data.content| > 50 {
          AddDebugLog("response", ev.actor, TruncateString(ev.data.content, 80));
        }
      }
      ui := ui.(activityStatus := ev.actor + " responding...");
    }

    /** Error: record the error on the named card when it is known; log the message. */
    method OnError(ev: Event)
      requires Valid() && ev.kind == Error && ev.data.ErrorData?
      modifies this, Repr
      ensures Valid()
      ensures NewestKept(old(ui.debugLog), ui.debugLog)
      ensures cards == old(cards) && columns == old(columns) && Repr == old(Repr)
      ensures ui == Logged(old(ui).(activityStatus := "Error: " + TruncateString(ev.data.message, 30)),
                           LogEntry("error", ev.actor, ev.data.message))
      ensures ev.data.taskId in cards ==> cards[ev.data.taskId].error == ev.data.error
      ensures ev.data.taskId in cards ==>
                var c := cards[ev.data.taskId];
                c.Data() == old(c.Data()).(error := ev.data.error)
                && forall d | d in old(Repr) && d != c :: unchanged(d)
      ensures ev.data.taskId !in cards ==> unchanged(Repr)
    {
      if ev.data.taskId in cards {
        var card := cards[ev.data.taskId];
        card.error := ev.data.error;
      }
      ui := ui.(activityStatus := "Error: " + TruncateString(ev.data.message, 30));
      AddDebugLog("error", ev.actor, ev.data.message);
    }

    /** PhaseChanged, PMSelected, PMDecision and SessionComplete: header and status updates only. */
    method OnHeaderEvent(ev: Event)
      requires Valid() && IsHeaderEvent(ev.kind)
      modifies this
      ensures Valid()
      ensures NewestKept(old(ui.debugLog), ui.debugLog)
      ensures cards == old(cards) && columns == old(columns) && Repr == old(Repr)
      ensures ui == HeaderUi(ev, old(ui))
    {
      match ev.kind {
        case PhaseChanged =>
          if ev.data.PhaseChangedData? {
            var d := ev.data;
            ui := ui.(pmPhase := d.newPhase, activityStatus := "Phase: " + TeamTypes.PhaseName(d.newPhase));
            AddDebugLog("phase", "system",
                        "Phase changed: " + TeamTypes.PhaseName(d.oldPhase) + " → " + TeamTypes.PhaseName(d.newPhase));
          }
        case PMSelected =>
          if ev.data.PMSelectedData? {
            ui := ui.(pm := ev.data.pmId, activityStatus := "PM selected: " + ev.data.pmId);
            AddDebugLog("pm", ev.data.pmId, "Selected as Project Manager");
          }
        case PMDecision =>
          ui := ui.(pm := ev.actor);
          if ev.data.PMDecisionData? {
            var d := ev.data;
            ui := ui.(workMode := d.workMode, planSummary := d.planSummary,
                      activityStatus := "Planning: " + d.workMode + " mode");
            AddDebugLog("decision", ev.actor, "Work mode: " + d.workMode + ", Tasks: " + NatToString(|d.tasks|));
          }
        case SessionComplete =>
          ui := ui.(complete := true, activityStatus := "Session complete!");
          AddDebugLog("complete", "system", "Session finished successfully");
      }
    }

    /** The effect of a header event, from the view state `u0`: only the header, status and log change. */
    twostate predicate HeaderRouted(ev: Event, u0: UiState)
      reads this, Repr
    {
      BoardUnchanged() && ui == HeaderUi(ev, u0)
    }

    /**
     * The effect of a creation event, from the view state `u0`: with a task
     * payload, a fresh card holding it is bound to the task ID and appended
     * to Backlog, and no existing card changes; otherwise nothing changes.
     */
    twostate predicate CreateRouted(ev: Event, u0: UiState)
      requires old(Valid())
      reads this, Repr
    {
      if ev.data.TaskCreatedData? then
        ev.taskId in cards
        && var c := cards[ev.taskId];
           fresh(c) && Repr == old(Repr) + {c}
           && cards == old(cards)[ev.taskId := c]
           && columns == old(columns)[Backlog := old(columns[Backlog]) + [c]]
           && c.id == ev.taskId && c.Data() == CreatedData(ev)
           && (forall d | d in old(Repr) :: unchanged(d))
           && ui == CreatedUi(ev, u0)
      else
        BoardUnchanged() && ui == u0
    }

    /**
     * The effect of a move event, from the view state `u0`: a known card
     * leaves its column and is appended to the target column, TaskCompleted
     * marks it done, and no other card changes; an unknown task changes nothing.
     */
    twostate predicate MoveRouted(ev: Event, u0: UiState)
      requires old(Valid()) && Valid()
      reads this, Repr
    {
      if old(ev.taskId in cards) then
        cards == old(cards) && Repr == old(Repr)
        && var c := cards[ev.taskId];
           var to := MoveTarget(ev.kind);
           c.Data() == old(c.Data()).(column := to, done := old(c.done) || ev.kind == TaskCompleted)
           && columns == old(columns)[old(c.column) := WithoutId(old(columns[c.column]), ev.taskId)]
                                     [to := (if old(c.column) == to then WithoutId(old(columns[to]), ev.taskId)
                                             else old(columns[to])) + [c]]
           && (forall d | d in old(Repr) && d != c :: unchanged(d))
           && ui == MovedUi(ev, u0, c.title)
      else
        BoardUnchanged() && ui == u0
    }

    /**
     * The effect of a progress event, from the view state `u0`: a known card
     * with a progress payload appends the content to its stream and history
     * and takes the progress, and no other card changes.
     */
    twostate predicate ProgressRouted(ev: Event, u0: UiState)
      requires old(Valid())
      reads this, Repr
    {
      if old(ev.taskId in cards) && ev.data.TaskProgressData? then
        cards == old(cards) && columns == old(columns) && Repr == old(Repr)
        && var c := cards[ev.taskId];
           c.Data() == old(c.Data()).(streamBuf := old(c.streamBuf) + ev.data.content,
                                      fullHistory := old(c.fullHistory) + ev.data.content,
                                      progress := ev.data.progress)
           && (forall d | d in old(Repr) && d != c :: unchanged(d))
           && ui == ProgressUi(ev, u0, true)
      else
        BoardUnchanged() && ui == ProgressUi(ev, u0, false)
    }

    /**
     * The effect of an error event, from the view state `u0`: with an error
     * payload the message is logged and a known card records the error, no
     * other card changing; otherwise nothing changes.
     */
    twostate predicate ErrorRouted(ev: Event, u0: UiState)
      requires old(Valid())
      reads this, Repr
    {
      if ev.data.ErrorData? then
        cards == old(cards) && columns == old(columns) && Repr == old(Repr)
        && ui == ErrorUi(ev, u0)
        && if old(ev.data.taskId in cards) then
             var c := cards[ev.data.taskId];
             c.Data() == old(c.Data()).(error := ev.data.error)
             && (forall d | d in old(Repr) && d != c :: unchanged(d))
           else
             unchanged(Repr)
      else
        BoardUnchanged() && ui == u0
    }

    /** The effect of the switch on the event's kind, from the view state `u0`. */
    twostate predicate Routed(ev: Event, u0: UiState)
      requires old(Valid()) && Valid()
      reads this, Repr
    {
      if IsHeaderEvent(ev.kind) then HeaderRouted(ev, u0)
      else if IsCreateEvent(ev.kind) then CreateRouted(ev, u0)
      else if IsMoveEvent(ev.kind) then MoveRouted(ev, u0)
      else if ev.kind == TaskProgress then ProgressRouted(ev, u0)
      else if ev.kind == Error then ErrorRouted(ev, u0)
      else BoardUnchanged() && ui == u0
    }

    /** A creation event builds a card only when its payload is a task. */
    method CreateIfTask(ev: Event)
      requires Valid() && IsCreateEvent(ev.kind)
      modifies this
      ensures Valid() && NewestKept(old(ui.debugLog), ui.debugLog)
      ensures CreateRouted(ev, old(ui))
    {
      if ev.data.TaskCreatedData? {
        var _ := OnTaskCreated(ev);
      }
    }

    /** A move event moves a card only when its task is known. */
    method MoveIfKnown(ev: Event)
      requires Valid() && IsMoveEvent(ev.kind)
      modifies this, Repr
      ensures Valid() && NewestKept(old(ui.debugLog), ui.debugLog)
      ensures MoveRouted(ev, old(ui))
    {
      if ev.taskId in cards {
        OnCardMoved(ev);
      }
    }

    /** An error event is handled only when its payload is an error. */
    method ErrorIfPayload(ev: Event)
      requires Valid() && ev.kind == Error
      modifies this, Repr
      ensures Valid() && NewestKept(old(ui.debugLog), ui.debugLog)
      ensures ErrorRouted(ev, old(ui))
    {
      if ev.data.ErrorData? {
        OnError(ev);
      }
    }

    /** The header events: log the event, then update the header and status. */
    method HeaderCase(ev: Event)
      requires Valid() && IsHeaderEvent(ev.kind)
      modifies this
      ensures Valid() && EventEntry(ev) in ui.debugLog
      ensures HeaderRouted(ev, Logged(old(ui), EventEntry(ev)))
    {
      ui := Logged(ui, EventEntry(ev));
      OnHeaderEvent(ev);
    }

    /** Task creation: log the event, then create a card only when the payload is a task. */
    method CreateCase(ev: Event)
      requires Valid() && IsCreateEvent(ev.kind)
      modifies this
      ensures Valid() && EventEntry(ev) in ui.debugLog
      ensures CreateRouted(ev, Logged(old(ui), EventEntry(ev)))
    {
      ui := Logged(ui, EventEntry(ev));
      CreateIfTask(ev);
    }

    /** The moves: log the event, then move the card when the task is known. */
    method MoveCase(ev: Event)
      requires Valid() && IsMoveEvent(ev.kind)
      modifies this, Repr
      ensures Valid() && EventEntry(ev) in ui.debugLog
      ensures MoveRouted(ev, Logged(old(ui), EventEntry(ev)))
    {
      ui := Logged(ui, EventEntry(ev));
      MoveIfKnown(ev);
    }

    /** Progress: log the event, then stream the content into a known card. */
    method ProgressCase(ev: Event)
      requires Valid() && ev.kind == TaskProgress
      modifies this, Repr
      ensures Valid() && EventEntry(ev) in ui.debugLog
      ensures ProgressRouted(ev, Logged(old(ui), EventEntry(ev)))
    {
      ui := Logged(ui, EventEntry(ev));
      OnTaskProgress(ev);
    }

    /** Errors: log the event, then handle an error payload. */
    method ErrorCase(ev: Event)
      requires Valid() && ev.kind == Error
      modifies this, Repr
      ensures Valid() && EventEntry(ev) in ui.debugLog
      ensures ErrorRouted(ev, Logged(old(ui), EventEntry(ev)))
    {
      ui := Logged(ui, EventEntry(ev));
      ErrorIfPayload(ev);
    }

    /**
     * What handleTeamEventCopy does for `ev`: the event is logged; events
     * naming an unknown task, or carrying the wrong payload, change no card
     * or column; otherwise the card is created, moved, updated or marked
     * with its error, or the header fields change.
     */
    twostate predicate TeamEventHandled(ev: Event)
      requires old(Valid()) && Valid()
      reads this, Repr
    {
      (!old(TouchesBoard(ev)) ==> BoardUnchanged())
      && (EventEntry(ev) in ui.debugLog)
      && Routed(ev, Logged(old(ui), EventEntry(ev)))
    }

    /** handleTeamEventCopy: log the event, then apply it. */
    method HandleTeamEvent(ev: Event)
      requires Valid()
      modifies this, Repr
      ensures Valid()
      ensures TeamEventHandled(ev)
    {
      if IsHeaderEvent(ev.kind) {
        HeaderCase(ev);
      } else if IsCreateEvent(ev.kind) {
        CreateCase(ev);
      } else if IsMoveEvent(ev.kind) {
        MoveCase(ev);
      } else if ev.kind == TaskProgress {
        ProgressCase(ev);
      } else if ev.kind == Error {
        ErrorCase(ev);
      } else {
        ui := Logged(ui, EventEntry(ev));
      }
    }

    /** Update: route a message; returns whether the program quits. */
    method Update(msg: Msg) returns (quit: bool)
      requires Valid()
      modifies this, Repr
      ensures Valid()
      ensures quit ==> msg.KeyMsg? && RouteKey(old(ui)) == BoardKeys
      ensures msg.KeyMsg? && RouteKey(old(ui)) == BoardKeys ==> KeyHandled(msg.key, quit)
      ensures msg.TeamEventMsg? ==> TeamEventHandled(msg.event)
      ensures msg.KeyMsg? && RouteKey(old(ui)) == PopupKeys ==> ui == PopupKey(old(ui), msg.key) && BoardUnchanged()
      ensures msg.KeyMsg? && RouteKey(old(ui)) == CloseHelp ==> ui == old(ui).(showHelp := false) && BoardUnchanged()
      ensures msg.KeyMsg? && RouteKey(old(ui)) == DebugLogKeys ==> ui == DebugLogKey(old(ui), msg.key) && BoardUnchanged()
      ensures msg.WindowSizeMsg? ==>
                ui == old(ui).(width := msg.width, height := msg.height, ready := true) && BoardUnchanged()
      ensures msg.SpinnerTick? ==> ui == old(ui) && BoardUnchanged()
    {
      quit := false;
      match msg {
        case KeyMsg(key) =>
          if ui.showPopup {
            ui := PopupKey(ui, key);
          } else if ui.showHelp {
            ui := ui.(showHelp := false);
          } else if ui.showDebugLog {
            ui := DebugLogKey(ui, key);
          } else {
            quit := HandleKey(key);
          }
        case WindowSizeMsg(w, h) =>
          ui := ui.(width := w, height := h, ready := true);
        case TeamEventMsg(ev) =>
          HandleTeamEvent(ev);
        case SpinnerTick =>
      }
    }
  }

  /** The wrap-around of cycleActiveCard's `%`, for an index one past a found position. */
  lemma WrapAround(k: int, n: int)
    requires 0 <= k <= n && n > 0
    ensures k % n == if k == n then 0 else k
  {
    if k == n {
      assert k % n == 0;
    }
  }
}
