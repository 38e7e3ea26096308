# The Council and team workflow, modelled in Dafny

This project models the deterministic core of a Go program. The program convenes a "council" of AI models. The council can:

- debate a topic in rounds;
- sit as a court of the chosen justices that hears a resolution, votes and writes opinions;
- run as a team that plans a task, executes it in one of five collaboration modes, reviews the result and delivers artifacts. A terminal kanban board follows the team's work.

Every model call goes through a provider registry. In the model, a call is an oracle: a script of replies indexed by call number (`Port.ModelPort`). So each property holds for every way the models could answer.

Modules, following the program's packages:

- **Kanban board** (`Kanban`, `Cards`, `TeamEvents`): the board's card map, its four ordered columns and cursor, and the active-card cycle. Also the popup and debug-log keys, and the debug log capped at 100 entries. It reacts to team events by creating, moving and updating cards.
- **Team** (`TeamTypes`, `TeamRunner`, `PlanParser`, `EventBus`, `PMSelector`, `Selection`, `Checkpoints`, `Artifacts`):
  - the fixed phase sequence and the events it emits;
  - the bounded event queue of capacity 100, which drops events when full;
  - the line-prefix plan parser, the keyword-scoring project-manager choice, the approval gating table, milestones, and the artifact collection.
- **Modes** (`Modes`, `ModeExecution`): pair programming, consultation, round robin, divide and conquer, and free form. Each is a loop of oracle calls. Some modes skip a failed call and others abort on one.
- **Debate** (`Debate`, `Personas`, `DebateTui`, `TuiRunner`, `SetupForms`):
  - the round sequence with per-round skipping of failed calls;
  - the transcript file name sanitiser;
  - persona suggestions and assignments;
  - the debate screen's panel/phase state machine and the chunk-to-message runner;
  - the setup form's validators and defaults.
- **Court** (`Scotus`, `ChiefSelector`): resolution and vote parsing, majority rule, opinion assignment, the dissenter choice, and Chief Justice scoring and rotation.
- **Providers** (`Providers`, `BaseProviders`, `CliProviders`, `Port`): request validation, registry lookup with fallback, base-provider defaults and the API-key check, the stream framing loop, and CLI argument construction.
- **Configuration and budget** (`Config`, `Budget`): defaulting of settings, and loading of YAML directories with the decoder as a parameter. Also the pricing table with exact and wildcard lookup, usage recording, and per-provider aggregates.
- **Assessment** (`Assess`): the response-scoring heuristic.
- **Strings** (`Text`): the `strings` and `fmt` functions the code relies on, over ASCII.

Objects whose fields the program updates in place are classes. Examples are the kanban model, the event queue, the checkpoint manager, the registry, the budget tracker and the mode executor. Their loops are methods proved against specification functions. Tables, parsers and decisions are functions.

## Model

| member | source | states |
|---|---|---|
| DebateTui.PhaseNamesDistinct | internal/tui/app.go:38-55 | two different phases never print the same name |
| DebateTui.NextFocus | internal/tui/app.go:192-194 | tab moves the focus to the next panel and wraps from the last to the first, staying in range |
| DebateTui.PrevFocus | internal/tui/app.go:196-198 | shift+tab moves the focus to the previous panel and wraps from the first to the last, staying in range |
| DebateTui.FocusRoundTrip | internal/tui/app.go:192-198 | tab then shift+tab, or shift+tab then tab, returns the focus to where it was |
| DebateTui.TabPresses | internal/tui/app.go:192-194 | any number of tab presses keeps the focus on an existing panel |
| DebateTui.TabWraps | internal/tui/app.go:192-194 | up to n presses of tab on n panels move the focus that many panels on, wrapping once past the last |
| DebateTui.TabCycle | internal/tui/app.go:192-194 | pressing tab once per panel brings the focus back to the panel it started on |
| DebateTui.ViewAfter | internal/tui/app.go:220-238 | g always gives the grid; enter/f give focus view exactly when not already in it; t gives the transcript exactly when not already in it; other keys keep the view |
| DebateTui.ViewToggleTwice | internal/tui/app.go:220-238 | a toggle key pressed twice from the grid or its own view comes back; g twice is g once |
| DebateTui.KeyOf | internal/tui/app.go:186-239 | each key press falls in exactly the case of the key switch that names it, and a key of no case changes no view |
| DebateTui.Updated | internal/tui/app.go:255-264 | an error chunk ends the panel with the error, a done chunk ends it, any other chunk appends its text; identity and scroll are kept |
| DebateTui.FirstPanel | internal/tui/app.go:253-254 | the index of the first panel for the AI, or -1 when no panel belongs to it |
| DebateTui.ApplyChunk | internal/tui/app.go:251-267 | a chunk changes only the first panel of its AI, as Updated says, and changes nothing when the AI has no panel |
| DebateTui.Advance | internal/tui/app.go:272-295 | after the opening or a rebuttal another rebuttal round while rounds remain, else the synthesis; after the synthesis the final round; after the final the debate is complete |
| DebateTui.OpeningSettles | internal/tui/app.go:269-295 | once the opening completes, the screen's own round commands carry the debate through every remaining rebuttal round to completion, ending on the configured round count |
| DebateTui.PanelWindow | internal/tui/app.go:405-415 | at least one line is shown; the window is as long as the panel allows, starts at the scroll position when that fits and otherwise ends at the last line |
| DebateTui.TuiModel.constructor | internal/tui/app.go:112-148 | one panel per member in roster order, named by the configured display name or else the AI ID; grid view, setup phase, round 0, focus on the first panel |
| DebateTui.TuiModel.HandleKey | internal/tui/app.go:185-239 | q/ctrl+c quit; tab and shift+tab wrap the focus and divide by zero with no panels; h/l move it stopping at the ends; j/k scroll the focused panel, never above the top, and index out of range with no panels; view keys switch the view; any other key changes nothing |
| DebateTui.TuiModel.CycleFocus | internal/tui/app.go:192-198 | with panels, the focus moves by NextFocus or PrevFocus and nothing else changes; with none, the integer division by zero Go raises |
| DebateTui.TuiModel.MoveFocus | internal/tui/app.go:200-208 | the focus moves one panel left or right, stopping at either end; nothing else changes |
| DebateTui.TuiModel.Scroll | internal/tui/app.go:210-218 | the focused panel scrolls down one line or up one line but not above 0; with no panels the key is a crash, as Go's index out of range is |
| DebateTui.TuiModel.SwitchView | internal/tui/app.go:220-238 | the view becomes ViewAfter of the old view and the key; nothing else changes |
| DebateTui.TuiModel.Resize | internal/tui/app.go:241-244 | the new width and height are kept and the screen is ready; nothing else changes |
| DebateTui.TuiModel.OnStreamChunk | internal/tui/app.go:251-267 | the panels become ApplyChunk of the old panels and the chunk; nothing else changes |
| DebateTui.TuiModel.OnPhaseComplete | internal/tui/app.go:269-295 | phase, round and the issued command follow Advance; a rebuttal repeating keeps its phase; setup or complete messages change nothing |
| DebateTui.TuiModel.OnDebateComplete | internal/tui/app.go:297-298 | the phase becomes complete; nothing else changes |
| DebateTui.TuiModel.OnError | internal/tui/app.go:300-301 | the error is kept for display; nothing else changes |
| DebateTui.PhaseName | internal/tui/app.go:38-55 | defines a phase's name |
| DebateTui.Settle | internal/tui/app.go:269-295 | defines the phase and round reached by following each command's own message until none is left |
| TuiRunner.ForwardShape | internal/tui/runner.go:125-155 | an opened stream reaches the screen as non-empty text messages for the AI followed by exactly one done message, which is last |
| TuiRunner.StreamShape | internal/tui/runner.go:104-156 | every stream, opened or not, reaches the screen as the empty start message, then text, then one final done (or error-and-done) message |
| TuiRunner.ForwardStops | internal/tui/runner.go:126-148 | nothing after the first error or done chunk reaches the screen |
| TuiRunner.ForwardAt | internal/tui/runner.go:125-148 | from chunk i on: an error chunk ends the stream with that error; otherwise its text, if any, is sent, and a done chunk ends the stream or the next chunk follows |
| TuiRunner.ChunkStep | internal/tui/runner.go:135-148 | a chunk without error adds its text to the panel, and empty content sends nothing |
| TuiRunner.FillsEnd | internal/tui/runner.go:126-155 | a stream that ends, errs or is done at once leaves the panel ended with the delivered error, if any |
| TuiRunner.ForwardFills | internal/tui/runner.go:125-155 | on the screen, an opened stream's panel gains exactly the text delivered before the first error or done chunk, then ends, carrying that error if there was one |
| TuiRunner.BlankKeepsPanels | internal/tui/runner.go:77-80 | the empty start and reset messages leave every panel as it was, so a new phase does not clear earlier text |
| TuiRunner.Asked | internal/tui/runner.go:83-85 | a phase makes one call per member, in roster order, each with the phase's request |
| TuiRunner.PhaseSignals | internal/tui/runner.go:76-88 | of a phase's messages only its closing PhaseCompleteMsg is not a stream chunk |
| TuiRunner.ClosingSignalled | internal/tui/runner.go:63-72 | the synthesis, the verdict and the end send the synthesis completion, the final completion when there is a member, then DebateCompleteMsg |
| TuiRunner.RebuttalSignals | internal/tui/runner.go:57-61 | the rebuttal loop signals one rebuttal completion per round left |
| TuiRunner.DebateSignals | internal/tui/runner.go:45-73 | the screen is told, in order: opening complete, one rebuttal completion for each round 2..Rounds, synthesis complete, final complete (when there is a member), debate complete |
| TuiRunner.RebuttalCallsToMembers | internal/tui/runner.go:57-61 | every rebuttal call goes to a member |
| TuiRunner.CallsToMembers | internal/tui/runner.go:45-73 | every call of the debate goes to a member |
| TuiRunner.Orchestration | internal/tui/runner.go:45-73 | the phase messages sent one phase after another are exactly the debate's message sequence |
| TuiRunner.Runner.constructor | internal/tui/runner.go:22-27 | a runner on the given model port that has sent nothing |
| TuiRunner.Runner.StreamAI | internal/tui/runner.go:104-156 | exactly one streamed call to the AI, and the screen receives StreamMsgs of the stream's reply, whose shape StreamShape states |
| TuiRunner.Runner.ForwardChunks | internal/tui/runner.go:125-155 | the chunk loop sends the screen exactly the messages Forward gives for the chunks |
| TuiRunner.Runner.SendResets | internal/tui/runner.go:77-80 | one empty reset message per member, in roster order |
| TuiRunner.Runner.StreamAll | internal/tui/runner.go:82-85 | one streamed call per member in roster order, the screen receiving each stream's messages in that order |
| TuiRunner.Runner.RunPhase | internal/tui/runner.go:76-88 | the resets, then one stream per member in roster order, then the phase's completion message |
| TuiRunner.Runner.RunFinalPhase | internal/tui/runner.go:91-101 | with no members nothing is called or sent; otherwise the first member alone streams the verdict, then the final completion message |
| TuiRunner.Runner.RunRebuttals | internal/tui/runner.go:57-61 | one rebuttal phase per round from 2 to the round count, calls and messages in that order |
| TuiRunner.Runner.OrchestrateDebate | internal/tui/runner.go:45-73 | the calls are the opening, the rebuttal rounds, the synthesis and the verdict; the messages are Orchestrated, whose signals DebateSignals gives and whose panel effects ForwardFills gives |
| TuiRunner.Forward | internal/tui/runner.go:125-155 | defines what an opened stream sends the screen: an error chunk gives an error message and stops; non-empty content is forwarded; a done chunk, or the end, gives the done message |
| TuiRunner.StreamMsgs | internal/tui/runner.go:104-156 | defines streamAI's messages: the start, then the error of a stream that fails to open or what its chunks give |
| TuiRunner.Resets | internal/tui/runner.go:77-80 | defines a reset message for every member, in roster order |
| TuiRunner.Streams | internal/tui/runner.go:82-85 | defines the members' streams, in roster order |
| TuiRunner.PhaseMsgs | internal/tui/runner.go:76-88 | defines runPhase: the resets, the streams, then the phase-complete message |
| TuiRunner.FinalMsgs | internal/tui/runner.go:91-101 | defines runFinalPhase: the first member's verdict stream; nothing with no members |
| TuiRunner.RebuttalMsgs | internal/tui/runner.go:57-61 | defines the rebuttal phases from a round to the round count |
| TuiRunner.DebateCalls | internal/tui/runner.go:45-73 | defines orchestrateDebate's calls: every member for the opening, for each rebuttal round and for the synthesis, then the first member for the verdict |
| TuiRunner.Orchestrated | internal/tui/runner.go:45-73 | defines every message orchestrateDebate sends |
| Kanban.Logged | internal/tui/kanban.go:106-119 | logging changes only the debug log and keeps the view state valid |
| Kanban.RouteKey | internal/tui/kanban.go:151-163 | a key goes to the popup when it is open, else closes the help overlay when open, else to the debug log when open, else to the board |
| Kanban.PopupKey | internal/tui/kanban.go:265-277 | only the popup flag and scroll change; the popup stays open exactly when the key is not a close key; j/down scrolls one line down |
| Kanban.DebugLogKey | internal/tui/kanban.go:279-297 | only the log flag and scroll change; the log stays open exactly when the key is not a close key; g scrolls to the top and G to the last entry |
| Kanban.ViewKey | internal/tui/kanban.go:191-219 | changing column moves one column left or right and resets the row; the row only grows by one, and only for j/down within the column; the view state stays valid |
| Kanban.WithoutId | internal/tui/kanban.go:419-425 | exactly the cards of the slice whose ID differs from the given one |
| Kanban.IndexOfId | internal/tui/kanban.go:463-469 | the index of the first card with the ID, or -1 when none has it |
| Kanban.NextActiveId | internal/tui/kanban.go:458-482 | "" for an empty column; the first card when the active one is not found; otherwise the card after the active one, wrapping from the last to the first |
| Kanban.RemoveId | internal/tui/kanban.go:419-425 | the filtering loop yields WithoutId of the column |
| Kanban.FindIndexOfId | internal/tui/kanban.go:463-469 | the scanning loop yields IndexOfId of the column |
| Kanban.AppendCapped | internal/tui/kanban.go:106-119 | the appended entry is last, at most 100 entries are kept, and the kept older entries are the newest of the old log |
| Kanban.KeepsNewest | internal/tui/kanban.go:106-119 | the newest entry of a log survives one more capped append |
| Kanban.AppendCappedKeepsNewest | internal/tui/kanban.go:106-119 | capping after every append always leaves exactly the last 100 entries ever added |
| Kanban.DebugWindow | internal/tui/kanban.go:895-907 | the drawn rows lie within the log and are at most the screen's visible count (at least 5) |
| Kanban.DebugWindowPlacement | internal/tui/kanban.go:895-907 | a short log is drawn whole; a long one fills the window, starting at the scroll position when that is honoured and otherwise ending at the last entry |
| Kanban.KanbanModel.constructor | internal/tui/kanban.go:78-103 | four empty columns, no cards, Backlog selected, status "Initializing...", nothing logged |
| Kanban.KanbanModel.AddDebugLog | internal/tui/kanban.go:106-119 | the view state becomes Logged of the entry; the board is untouched and the previous newest entry is still logged |
| Kanban.KanbanModel.SelectedCardInColumn | internal/tui/kanban.go:438-456 | the selected card is the row's card in the selected column, else that column's first card, and is none exactly when the column is empty |
| Kanban.KanbanModel.MoveCard | internal/tui/kanban.go:415-436 | every entry with the card's ID leaves its old column, the card is appended to the target column and records it; nothing else changes |
| Kanban.KanbanModel.CycleActiveCard | internal/tui/kanban.go:458-482 | the active card becomes NextActiveId of the in-progress column; the board is untouched |
| Kanban.KanbanModel.CompleteUserTask | internal/tui/kanban.go:484-490 | a user-task card is marked done and moved to Done, nothing else changing; any other ID leaves the board as it was |
| Kanban.KanbanModel.HandleKey | internal/tui/kanban.go:185-263 | quits exactly on q/ctrl+c; view keys act as ViewKey; enter opens the popup on the selected card; tab cycles the active card; d/D mark a selected user task done and move it from its column to the end of Done; completion goes by the selected card's ID, so when that ID has since been bound to another card, the bound card is completed if it is a user task and otherwise nothing changes; other keys change nothing |
| Kanban.KanbanModel.AddCard | internal/tui/kanban.go:330-336 | a fresh card with the given fields and empty progress is bound to the ID and appended to Backlog; the view state is untouched |
| Kanban.KanbanModel.OnTaskCreated | internal/tui/kanban.go:328-339 | a fresh Backlog card from the payload, bound to the task ID and appended to Backlog; a user card when assigned to "user" or created as a user task; the status and log entry of each kind |
| Kanban.KanbanModel.OnCardMoved | internal/tui/kanban.go:341-383 | the known card moves to InProgress, Review or Done by event kind, TaskCompleted also marks it done, TaskStarted makes it active; other cards are unchanged; the status and log entry are set |
| Kanban.KanbanModel.OnTaskProgress | internal/tui/kanban.go:349-361 | a known card's buffer and history gain the content and its progress is replaced; only content over 50 bytes is logged; the status line changes in any case |
| Kanban.KanbanModel.OnError | internal/tui/kanban.go:403-410 | a known card records the error, other cards are unchanged; the status and log entry name the message |
| Kanban.KanbanModel.OnHeaderEvent | internal/tui/kanban.go:305-326 | the view state becomes HeaderUi of the event: phase, PM, work mode, plan summary and completion update as each kind says, with its status and log entry, and a wrong payload changes nothing beyond the PM of a decision; no card or column changes |
| Kanban.KanbanModel.HeaderCase | internal/tui/kanban.go:299-326 | the event is logged first; then the phase, PM, work mode, plan summary or completion change with the status and log entry of each kind (HeaderUi), and no card or column changes |
| Kanban.KanbanModel.CreateCase | internal/tui/kanban.go:328-339 | the event is logged first; a task payload then binds a fresh card to the task ID and appends it to Backlog, the card holding the payload's title, description, assignee ("user" for a user task), blocking flag and dependencies with nothing streamed, no existing card changing, with the creation status and log entry; any other payload leaves the board and the rest of the view as they were |
| Kanban.KanbanModel.MoveCase | internal/tui/kanban.go:341-383 | the event is logged first; a known card then leaves its column (every entry with its ID is removed) and is appended to its kind's column, TaskCompleted marks it done, TaskStarted makes it active, no other card changes, and the status and log entry name the card; an unknown task ID leaves the board and the rest of the view as they were |
| Kanban.KanbanModel.ProgressCase | internal/tui/kanban.go:349-361 | the event is logged first; a known card with a progress payload then appends the content to its stream buffer and full history and takes the progress, no other card changing, and content over 50 bytes is logged; otherwise the board is as it was; the status line names the responder in any case |
| Kanban.KanbanModel.ErrorCase | internal/tui/kanban.go:403-410 | the event is logged first; an error payload then sets the error status and logs the message, and a known card records the error with no other card changing; any other payload leaves the board and the rest of the view as they were |
| Kanban.KanbanModel.HandleTeamEvent | internal/tui/kanban.go:299-413 | the event is logged first and stays in the log; then each kind has exactly its case's effect on the cards, columns, card fields and view state, starting from the logged view state; events naming an unknown task or carrying the wrong payload change no card or column; other kinds only log |
| Kanban.KanbanModel.CreateIfTask | internal/tui/kanban.go:328-339 | a task payload creates the card as CreateCase states, from the view state it finds; any other payload changes nothing |
| Kanban.KanbanModel.MoveIfKnown | internal/tui/kanban.go:341-383 | a known card moves as MoveCase states, from the view state it finds; an unknown task ID changes nothing |
| Kanban.KanbanModel.ErrorIfPayload | internal/tui/kanban.go:403-410 | an error payload is handled as ErrorCase states, from the view state it finds; any other payload changes nothing |
| Kanban.HeaderUi | internal/tui/kanban.go:305-326 | a phase payload sets the phase, a PM payload the PM, a decision always records its PM and with its payload the work mode and plan summary, session completion marks the session complete; a phase or PM event with the wrong payload, and any other kind, leave the view as it was; each change comes with its kind's status line and log entry |
| Kanban.CreatedData | internal/tui/kanban.go:328-339 | defines the created card: the payload's fields in Backlog, assignee "user" and a user task for UserTaskCreated (also a user task when assigned to "user"), nothing streamed, no error |
| Kanban.CreatedUi | internal/tui/kanban.go:328-339 | defines the creation status ("Task created: " or "Your task: " with the truncated title) and its log entry |
| Kanban.MovedUi | internal/tui/kanban.go:341-383 | defines the move's status and log entry by kind, and TaskStarted's new active card |
| Kanban.ProgressUi | internal/tui/kanban.go:349-361 | defines the progress view: content over 50 bytes streamed into a card is logged truncated to 80, and the status names the responder |
| Kanban.ErrorUi | internal/tui/kanban.go:403-410 | defines the error status (the message truncated to 30) and the error log entry |
| Kanban.KanbanModel.Update | internal/tui/kanban.go:147-183 | a key reaches the popup, the help screen, the debug log or the board, in that order; a board key has all of HandleKey's effects, so it quits exactly on q/ctrl+c, and nothing else quits; a team event has all of HandleTeamEvent's effects; resizing records the size; spinner ticks change nothing |
| Kanban.WrapAround | internal/tui/kanban.go:474-476 | the modulus in cycleActiveCard wraps only the index one past the last card |
| Kanban.KanbanModel.SelectedCard | internal/tui/kanban.go:438-456 | defines getSelectedCard: the card under the cursor, else the column's first card, else none |
| Cards.ColumnName | internal/tui/card.go:20-33 | "Unknown" exactly for numbers outside 0..3 |
| Cards.ColumnNamesDistinct | internal/tui/card.go:20-33 | the four columns print four different titles |
| Cards.KanbanCard.constructor | internal/tui/card.go:54-62 | a Backlog card with the given ID, title and assignee, a user task exactly when assigned to "user", and everything else empty |
| Cards.KanbanCard.Status | internal/tui/card.go:112-125 | the status line by precedence: error, blocked, waiting on the user, progress bar, done; each exactly when the earlier ones do not apply |
| Cards.KanbanCard.Border | internal/tui/card.go:70-95 | the border colour by precedence: selected, error or blocked, user in progress, in progress, review, done; each exactly when its condition holds |
| Cards.BorderMatchesStatus | internal/tui/card.go:70-125 | an unselected card's border and its status line agree: red exactly for an error or block, amber exactly while waiting on the user, the assignee colour exactly with a progress bar, green exactly when done |
| Cards.TruncateString | internal/tui/card.go:170-178 | a fitting string is kept; a longer one becomes exactly maxLen bytes: a bare prefix up to 3, else a prefix closed by "..." |
| Cards.TruncateStringIdempotent | internal/tui/card.go:170-178 | truncating twice to the same width is truncating once |
| Cards.TruncatedLineList | internal/tui/card.go:180-186 | one truncated line per line of the input, each cut as a line of that width is cut |
| Cards.SplitTruncatedLines | internal/tui/card.go:180-188 | splitting the joined result on newlines gives back exactly the truncated lines |
| Cards.TruncatedLinesShape | internal/tui/card.go:180-188 | the number of lines is kept; a line that fits is kept; a longer line becomes exactly the width, its prefix closed by "..." |
| Cards.TruncateLines | internal/tui/card.go:180-188 | the in-place loop over the split lines yields TruncatedLines |
| Cards.LastN | internal/tui/card.go:133-135 | the last n elements, or all of them when there are fewer |
| Cards.PreviewShape | internal/tui/card.go:127-139 | a preview appears only for an in-progress card with a non-empty buffer and more than 4 lines of room, and then shows exactly the buffer's last lines that fit, each truncated to the card's width |
| Cards.KanbanCard.IsBlocked | internal/tui/card.go:65-67 | a card is blocked exactly when it has blockers |
| Cards.TruncatedLines | internal/tui/card.go:180-188 | defines truncateLines: each line cut to the width, joined again |
| Cards.Preview | internal/tui/card.go:127-139 | defines the stream preview: only for an in-progress card with a non-empty buffer, its last lines, each cut to width |
| SetupForms.Truncate | internal/tui/form.go:237-245 | a fitting string is kept; a longer one becomes exactly maxLen bytes: a bare prefix below 4, else a prefix closed by "..." |
| SetupForms.TruncateIdempotent | internal/tui/form.go:237-245 | truncating again to the same length changes nothing |
| SetupForms.TruncateKeepsPrefix | internal/tui/form.go:237-245 | every byte kept is in its place and the ellipsis is the only thing added |
| SetupForms.TopicError | internal/tui/form.go:75-80 | a topic is rejected, with its message, exactly when it is shorter than 5 bytes |
| SetupForms.CouncilError | internal/tui/form.go:103-108 | a selection is rejected, with its message, exactly when it has fewer than 2 members |
| SetupForms.SelectionError | internal/tui/form.go:221-229 | a selection is accepted exactly with 2 to 6 members, with the message for too few or too many |
| SetupForms.SelectionStricter | internal/tui/form.go:221-229 | what the member-selection form accepts the setup form accepts, and both reject too few members with the same message |
| SetupForms.SummaryTopicBound | internal/tui/form.go:124-135 | the summary opens with the topic truncated to at most 40 bytes, then the mode line |
| SetupForms.SetupForm.constructor | internal/tui/form.go:23-38 | no topic, the collaborative mode, the configured round count and council, and each configured model ID exactly once |
| SetupForms.SetupForm.GetSummary | internal/tui/form.go:124-135 | the summary counts the selected members, or with none selected the configured council, or the three default AIs when none is configured |
| SetupForms.SetupForm.GetOptions | internal/tui/form.go:138-146 | the options carry the form's topic, mode, rounds and members and the given output directory |
| SetupForms.Summary | internal/tui/form.go:124-134 | defines the confirmation text: the topic cut to 40 bytes, the mode, the rounds and the member count |
| TeamEvents.EventTypeOf | internal/team/events.go:8-23 | the codes 0..13 and only they name an event kind, each kind carrying its own code |
| TeamEvents.CodesNumberKinds | internal/team/events.go:8-23 | numbering a kind and reading the code back gives the kind again, and every code in range reads back to itself |
| TeamEvents.EventTypeName | internal/team/events.go:26-59 | String is "Unknown" exactly for codes outside 0..13 |
| TeamEvents.EventNamesDistinct | internal/team/events.go:26-59 | two different kinds never share a name, and no kind is named "Unknown" |
| TeamEvents.NewEvent | internal/team/events.go:117-124 | a session event carries the given kind, actor and payload and no task ID |
| TeamEvents.NewTaskEvent | internal/team/events.go:127-135 | a task event carries the given kind, task ID, actor and payload |
| TeamTypes.PhaseName | internal/team/team.go:61-78 | a phase's name is "Unknown" exactly for codes outside 0..5 |
| TeamTypes.PhaseNamesDistinct | internal/team/team.go:50-78 | different phases have different codes and different names |
| TeamTypes.DisplayName | internal/team/team.go:503-508 | the configured display name exactly when it is present and non-empty, else the AI ID itself |
| EventBus.OfferAll | internal/team/team.go:129-135 | sending never shrinks the buffer, never pushes it past 100 and keeps what was already queued in place |
| EventBus.OfferAllAppend | internal/team/team.go:129-135 | sending two batches one after the other is the same as sending them as one batch |
| EventBus.OfferAllKeepsEarliest | internal/team/team.go:129-135 | a batch sent into the buffer keeps its earliest events up to the free room and drops the rest |
| EventBus.EventQueue.constructor | internal/team/team.go:120-126 | the channel starts empty, with room for 100 events |
| EventBus.EventQueue.Emit | internal/team/team.go:129-135 | a send into a buffer with room appends the event; a send into a full buffer drops it and changes nothing |
| EventBus.EventQueue.Receive | internal/team/team.go:129-135 | the consumer gets the oldest queued event and it leaves the buffer; an empty buffer yields nothing |
| EventBus.Offer | internal/team/team.go:129-135 | defines a non-blocking send: the event is buffered when there is room, else dropped |
| Artifacts.NewArtifact | internal/team/artifacts.go:34-43 | a new artifact holds the given fields, the current time and no path |
| Artifacts.GetExtension | internal/team/artifacts.go:81-98 | documents get ".md", configs ".yaml", tests "_test.go", code keeps its own extension or gets ".txt", anything else ".txt" |
| Artifacts.Save | internal/team/artifacts.go:46-78 | a directory error and an invalid base name are reported with their messages; on success the artifact's path is the directory joined with its cleaned base name |
| Artifacts.OfKind | internal/team/artifacts.go:140-148 | the filter keeps only artifacts of the asked type, taken from the collection |
| Artifacts.OfKindComplete | internal/team/artifacts.go:140-148 | no artifact of the asked type is missed |
| Artifacts.SummaryOf | internal/team/artifacts.go:151-165 | the summary is "No artifacts" exactly when the collection is empty |
| Artifacts.ManifestEntriesStep | internal/team/artifacts.go:168-187 | the manifest lists the artifacts in order, one entry per artifact |
| Artifacts.ArtifactCollection.constructor | internal/team/artifacts.go:107-112 | a new collection is empty and remembers its base directory |
| Artifacts.ArtifactCollection.Add | internal/team/artifacts.go:115-117 | adding appends the artifact at the end |
| Artifacts.ArtifactCollection.List | internal/team/artifacts.go:135-137 | List returns the artifacts in insertion order |
| Artifacts.ArtifactCollection.GetByType | internal/team/artifacts.go:140-148 | the loop returns exactly the artifacts of the asked type, in order |
| Artifacts.ArtifactCollection.Summary | internal/team/artifacts.go:151-165 | "No artifacts" for an empty collection; otherwise a count header and one line per artifact, in order, with its name, type and, when saved, its path |
| Artifacts.ArtifactCollection.GenerateManifest | internal/team/artifacts.go:168-187 | the manifest is a system-made document artifact named MANIFEST.md listing every artifact |
| Artifacts.ArtifactCollection.SaveAll | internal/team/artifacts.go:120-132 | no base directory is an error that saves nothing; otherwise artifacts are saved in order and the first failure stops the loop with its name and cause, leaving the rest unsaved |
| Artifacts.Ext | internal/team/artifacts.go:81-98 | the extension is empty or starts at the last dot of the final path element, with no further dot or slash; empty only when that element has no dot |
| Artifacts.SummaryLines | internal/team/artifacts.go:157-163 | defines the summary's lines: one per artifact, in order, with its name, type and, when saved, its path |
| Checkpoints.NewCheckpoint | internal/team/checkpoint.go:35-43 | a new checkpoint holds the given fields and is not approved, with no notes |
| Checkpoints.Approve | internal/team/checkpoint.go:46-51 | approving sets the flag, the time and the notes and nothing else |
| Checkpoints.Reject | internal/team/checkpoint.go:54-57 | rejecting clears the flag and sets the notes, keeping any earlier approval time |
| Checkpoints.RejectAfterApprove | internal/team/checkpoint.go:46-57 | a rejection after an approval leaves the checkpoint unapproved but still stamped with the approval time |
| Checkpoints.NeedsApproval | internal/team/checkpoint.go:81-92 | level "none" asks for nothing, "major" only for plan approval and delivery, any other level for everything |
| Checkpoints.Unapproved | internal/team/checkpoint.go:95-103 | the pending filter keeps only unapproved checkpoints of the list |
| Checkpoints.UnapprovedComplete | internal/team/checkpoint.go:95-103 | no unapproved checkpoint is missed |
| Checkpoints.CheckpointManager.constructor | internal/team/checkpoint.go:67-73 | a new manager is empty with the given level and save directory |
| Checkpoints.CheckpointManager.Add | internal/team/checkpoint.go:76-78 | adding appends the checkpoint |
| Checkpoints.CheckpointManager.GetPending | internal/team/checkpoint.go:95-103 | the loop returns exactly the unapproved checkpoints, in order |
| Checkpoints.CheckpointManager.GetAll | internal/team/checkpoint.go:106-108 | all checkpoints in insertion order |
| Checkpoints.NewMilestone | internal/team/checkpoint.go:168-176 | a new milestone holds the given fields, is not completed and has no artifacts |
| Checkpoints.Complete | internal/team/checkpoint.go:179-184 | completing sets the flag, the time and the artifact list and nothing else |
| Checkpoints.WithState | internal/team/checkpoint.go:211-230 | the filter keeps only milestones in the asked state |
| Checkpoints.MilestonesPartition | internal/team/checkpoint.go:211-230 | the completed and the pending milestones together are exactly the tracker's milestones |
| Checkpoints.ProgressOf | internal/team/checkpoint.go:233-239 | progress is a percentage between 0 and 100, 0 with no milestones and 100 when all are completed |
| Checkpoints.MilestoneTracker.constructor | internal/team/checkpoint.go:193-198 | a new tracker is empty with the given save directory |
| Checkpoints.MilestoneTracker.Add | internal/team/checkpoint.go:201-203 | adding appends the milestone |
| Checkpoints.MilestoneTracker.GetCompleted | internal/team/checkpoint.go:211-219 | the completed milestones, in order |
| Checkpoints.MilestoneTracker.GetPending | internal/team/checkpoint.go:222-230 | the milestones not yet completed, in order |
| Checkpoints.MilestoneTracker.Progress | internal/team/checkpoint.go:233-239 | the loop computes the completed percentage, between 0 and 100 |
| Checkpoints.MilestoneTracker.GetAll | internal/team/checkpoint.go:206-208 | all milestones in insertion order |
| Checkpoints.MilestoneTracker.Filter | internal/team/checkpoint.go:211-230 | the filter loop keeps exactly the milestones of the given completion state, in order |
| Checkpoints.CheckpointManager.RequiresApproval | internal/team/checkpoint.go:81-92 | whether the manager's level asks for approval of a checkpoint kind |
| Checkpoints.Percentage | internal/team/checkpoint.go:233-239 | a completed count out of a positive total gives a percentage within 0 to 100 |
| Selection.WordMatches | internal/team/pm.go:117-121 | a strength earns at most one partial-match point per word it has |
| Selection.EntryOf | internal/team/pm.go:208-215 | the analysed entry is the first table entry for the chosen AI, or the empty entry when the table has none |
| Selection.Shown | internal/team/pm.go:217-218 | the analysis names at most the first three strengths, all of them when there are fewer |
| Selection.FindEntry | internal/team/pm.go:208-215 | the search loop finds that same entry |
| Selection.FirstHit | internal/team/pm.go:150-198 | the keyword loop stops with true exactly when some keyword of the list occurs in the text |
| Selection.IsMember | internal/team/pm.go:99-105 | the availability loop answers exactly whether the AI is in the roster |
| Selection.StrengthPoints | internal/team/pm.go:111-122 | the scoring loop adds two points per strength found whole and one per word of it found |
| Selection.Bonus | internal/team/pm.go:124-125 | the bonus loop adds each category's bonus for the AI when the text hits the category's keywords |
| Selection.Choose | internal/team/pm.go:89-147 | the selection loop picks the table's choice for the text and roster |
| Selection.LeaderIsBest | internal/team/pm.go:94-131 | the leader is the first available table entry with the strictly highest score, and there is none exactly when no table entry is on the roster |
| Selection.ChoiceInRoster | internal/team/pm.go:133-146 | with a non-empty roster the choice is a member of it; with an empty roster it is "" |
| Selection.ChoiceOutsideTable | internal/team/pm.go:133-146 | when some roster member is in the table the choice comes from the table; otherwise the first roster member, or "" |
| Selection.PhraseScore | internal/team/pm.go:111-122 | defines a strength's points: 2 when the phrase occurs whole, plus 1 per word of it that occurs |
| Selection.CategoryBonus | internal/team/pm.go:124-125 | defines the bonus: the points of every category that hits the text and favours the candidate |
| Selection.Score | internal/team/pm.go:111-125 | defines a candidate's score: its base score (0 for a PM, the CJ score for a justice), plus its category bonus, plus its strengths' points |
| Selection.Leader | internal/team/pm.go:94-131 | defines the running best entry after visiting the table in order, only available members counting and only a strictly higher score replacing the leader |
| Selection.Choice | internal/team/pm.go:133-146 | defines the selection: the leader; with none, the fallback when it is on the roster, else the first member, else the empty ID |
| Selection.Analysis | internal/team/pm.go:201-221 | defines the analysis line for a role, naming the chosen AI and its first strengths |
| PMSelector.TaskTypeBonus | internal/team/pm.go:150-198 | the task-type bonus is 0 or 3, and 3 exactly when the task's keywords favour that AI |
| PMSelector.PMTableShape | internal/team/pm.go:34-86 | every PM strength entry names an AI, claude first |
| PMSelector.Select | internal/team/pm.go:89-147 | the chosen PM is on the roster (or "" for an empty roster), is the best-scoring table entry when one is available, else the first member |
| PMSelector.SelectWithAnalysis | internal/team/pm.go:201-221 | the same PM as Select, and an analysis naming its display name and first three strengths |
| ChiefSelector.CaseTypeBonus | internal/scotus/chief.go:144-181 | ethics cases give claude 5, procedure cases give gpt 4, research cases give gemini 3, and no one else gets a bonus |
| ChiefSelector.JusticeTableShape | internal/scotus/chief.go:34-81 | every justice strength entry names an AI, claude first |
| ChiefSelector.Select | internal/scotus/chief.go:84-141 | the chosen Chief Justice is on the bench (or "" for an empty bench), the best-scoring table entry when one is available, else the first justice |
| ChiefSelector.SelectWithAnalysis | internal/scotus/chief.go:184-203 | the same choice as Select, and an analysis naming its display name and first three strengths |
| ChiefSelector.Recent | internal/scotus/chief.go:238-239 | the look-back window is the last ten selections, or all of them when there are fewer |
| ChiefSelector.CountRecent | internal/scotus/chief.go:232-243 | every justice gets a count, namely how often it appears in the window, and no one else is counted |
| ChiefSelector.LeastCounted | internal/scotus/chief.go:245-255 | the candidate has the smallest count, or is "" when there is nothing to count |
| ChiefSelector.CJHistory.constructor | internal/scotus/chief.go:211-215 | the history starts empty |
| ChiefSelector.CJHistory.Add | internal/scotus/chief.go:218-220 | a selection is appended |
| ChiefSelector.CJHistory.RotationCandidate | internal/scotus/chief.go:223-256 | with no history the first justice (or ""), else a justice selected least often in the last ten selections |
| ChiefSelector.CaseBonus | internal/scotus/chief.go:144-181 | defines the case-type bonus a resolution gives a justice |
| ChiefSelector.Occurrences | internal/scotus/chief.go:232-243 | defines how many times a justice occurs among recent selections |
| Scotus.LastKeyIndex | internal/scotus/scotus.go:180-184 | the index of the last line that starts with the key after trimming, or -1 when none does |
| Scotus.LastFieldIsLast | internal/scotus/scotus.go:180-184 | scanning all lines leaves the value of the last matching line, so a later RESOLUTION line overrides an earlier one |
| Scotus.ResolutionOf | internal/scotus/scotus.go:178-193 | the original topic is kept; the formal text is the last RESOLUTION value, or the topic when that is missing or empty |
| Scotus.ParseResolution | internal/scotus/scotus.go:178-193 | the parsing loop computes that resolution, with every "- " line as a key dimension in order |
| Scotus.ParseVote | internal/scotus/scotus.go:329-339 | the parsing loop computes the justice's vote from its VOTE and REASONING lines |
| Scotus.AffirmCount | internal/scotus/scotus.go:361-366 | the affirming votes are at most all of them |
| Scotus.MajorityRule | internal/scotus/scotus.go:367 | more than half affirm exactly when affirms outnumber rejects; no votes means no affirming majority |
| Scotus.OpinionOf | internal/scotus/scotus.go:370-380 | a justice on the losing side dissents, the Chief Justice on the winning side writes the majority, every other winner concurs |
| Scotus.Assigned | internal/scotus/scotus.go:370-380 | every vote gets its opinion and nothing else about it changes |
| Scotus.AssignedAt | internal/scotus/scotus.go:370-380 | each vote keeps its place, justice, position and reasoning, and gets the opinion the majority rule gives it |
| Scotus.FirstDissent | internal/scotus/scotus.go:409-431 | the dissent is asked of the first dissenting vote only |
| Scotus.FirstDissentIsFirst | internal/scotus/scotus.go:409-431 | no vote before the dissent found is a dissent, and when none is found no vote dissents at all |
| Scotus.DissenterIsFirstAgainst | internal/scotus/scotus.go:367-431 | there is a dissenter exactly when some vote is against the majority, and it is the first such vote |
| Scotus.JusticeRound | internal/scotus/scotus.go:214-238 | one call per justice |
| Scotus.JusticeRoundCalls | internal/scotus/scotus.go:214-238 | the calls go to the justices in order, each with the same request |
| Scotus.DeliberationShape | internal/scotus/scotus.go:120-124 | rounds 2 to the last make one deliberation call per justice per round, each for its round and the resolution |
| Scotus.VotesShape | internal/scotus/scotus.go:312-341 | at most one vote per justice, each from a justice on the bench and with no opinion yet |
| Scotus.VotesOfVoters | internal/scotus/scotus.go:312-341 | the votes are those of the justices whose call succeeded, in bench order |
| Scotus.AllVoted | internal/scotus/scotus.go:312-341 | when every call succeeds every justice votes |
| Scotus.ChiefOf | internal/scotus/scotus.go:199-206 | a named Chief Justice is used as given |
| Scotus.DecidedIs | internal/scotus/scotus.go:126-134 | voting then writing opinions: the votes come from the vote round and an opinion failure is reported as "writing opinions" |
| Scotus.DecidedVotes | internal/scotus/scotus.go:306-380 | after a decision every vote belongs to a bench justice and carries an opinion |
| Scotus.DecidedRecord | internal/scotus/scotus.go:306-435 | a decision keeps the resolution, the Chief Justice and the bench, and calls each justice once plus one or two opinion writers |
| Scotus.HeardStops | internal/scotus/scotus.go:114-117 | a failed questioning call stops the hearing with a "CJ questioning" error and no votes |
| Scotus.HeardGoesOn | internal/scotus/scotus.go:109-134 | after questioning succeeds the hearing ends as the decision does |
| Scotus.HeardCase | internal/scotus/scotus.go:109-134 | after questioning succeeds, the hearing's calls are the opening round, the question, the deliberation rounds and the decision's calls, and its error and session are the decision's |
| Scotus.ProceedStep | internal/scotus/scotus.go:118-137 | once the opening, question and deliberation calls are made, the decision's error, session and calls are the whole hearing's |
| Scotus.HeardGoesOnOpens | internal/scotus/scotus.go:109-117 | a hearing that gets past questioning begins with the opening round |
| Scotus.HeardVotes | internal/scotus/scotus.go:109-134 | every vote recorded in a hearing is a bench justice's, with an opinion |
| Scotus.HeardError | internal/scotus/scotus.go:109-134 | a hearing fails only at questioning or at opinion writing |
| Scotus.HeardOpens | internal/scotus/scotus.go:109-113 | a hearing keeps its resolution and Chief Justice and always starts with one opening call per justice |
| Scotus.DerivationCalls | internal/scotus/scotus.go:85-97 | one model call to derive the resolution when asked, none otherwise |
| Scotus.RunGoesOn | internal/scotus/scotus.go:76-140 | once the resolution is settled the session is the hearing before the chosen Chief Justice |
| Scotus.RunStops | internal/scotus/scotus.go:86-90 | a failed derivation ends the session with a "deriving resolution" error and no votes |
| Scotus.RunKeepsVotes | internal/scotus/scotus.go:76-140 | the session keeps the hearing's opined votes |
| Scotus.RunVotes | internal/scotus/scotus.go:76-140 | every vote of a session belongs to a bench justice and carries an opinion |
| Scotus.RunError | internal/scotus/scotus.go:76-140 | a session fails only while deriving the resolution, questioning, or writing opinions |
| Scotus.RunKeepsOpening | internal/scotus/scotus.go:76-113 | the session starts with the derivation call when asked and then the opening round |
| Scotus.RunOpens | internal/scotus/scotus.go:76-113 | derivation first when asked, then one opening call per justice, for the settled resolution and Chief Justice |
| Scotus.Session.constructor | internal/scotus/scotus.go:77-81 | a session starts with its bench, no resolution, no votes and no opinions |
| Scotus.Runner.constructor | internal/scotus/scotus.go:68-73 | a runner holds the model port and the model configuration |
| Scotus.Runner.Run | internal/scotus/scotus.go:76-140 | the session's error, record and model calls are those of the session function |
| Scotus.Runner.Resolve | internal/scotus/scotus.go:85-97 | the resolution is derived when asked, otherwise the topic is taken as both original and formal text |
| Scotus.Runner.DeriveResolution | internal/scotus/scotus.go:154-197 | one clerk call to claude; its failure is returned, its reply is parsed into the resolution |
| Scotus.Runner.SelectChiefJustice | internal/scotus/scotus.go:199-206 | the named Chief Justice, or the selector's choice from the bench |
| Scotus.Runner.CJQuestioning | internal/scotus/scotus.go:243-272 | one call to the Chief Justice; its failure is the error |
| Scotus.Runner.Hear | internal/scotus/scotus.go:109-134 | the hearing's error, record and calls are those of the hearing function |
| Scotus.Runner.Proceed | internal/scotus/scotus.go:118-137 | after a successful questioning, the deliberation rounds, voting and opinion writing leave the error, session and calls the hearing function gives |
| Scotus.Runner.Decide | internal/scotus/scotus.go:126-134 | voting and opinion writing as the decision function states |
| Scotus.Runner.RunJusticeRound | internal/scotus/scotus.go:208-241 | one call per justice in order; a failed call is skipped |
| Scotus.Runner.RunDeliberations | internal/scotus/scotus.go:120-124 | the deliberation calls for rounds 2 to the last |
| Scotus.Runner.CastOne | internal/scotus/scotus.go:312-341 | one vote call; its vote is appended when it succeeds |
| Scotus.Runner.CollectVotes | internal/scotus/scotus.go:306-352 | one call per justice, and the votes of those whose call succeeded are appended in order |
| Scotus.Runner.CountAffirms | internal/scotus/scotus.go:361-366 | the counting loop counts the affirming votes |
| Scotus.Runner.AssignOpinions | internal/scotus/scotus.go:370-380 | every vote gets its opinion and the rest of the session is unchanged |
| Scotus.Runner.FindDissenter | internal/scotus/scotus.go:409-431 | the search loop finds the first dissenting vote |
| Scotus.Runner.WriteOpinions | internal/scotus/scotus.go:354-435 | the votes, the majority and dissent opinions and the calls are those of the opinion function; a failed majority call is an error, a failed dissent call is not |
| Scotus.Runner.DeliverRuling | internal/scotus/scotus.go:437-471 | the ruling is AFFIRMED exactly when more than half affirm, with the affirm and reject counts adding up to the votes |
| Scotus.LastField | internal/scotus/scotus.go:180-184 | defines a field's value: that of the last trimmed line starting with the key |
| Scotus.Dimensions | internal/scotus/scotus.go:178-193 | defines the dimensions: the trimmed lines starting with "- ", without that prefix, in order |
| Scotus.VoteOf | internal/scotus/scotus.go:329-339 | the vote is the replying justice's, affirming when the last VOTE: line contains AFFIRM in any case, with the last REASONING: line as its reasoning |
| Scotus.VotesFrom | internal/scotus/scotus.go:312-341 | defines the votes of a voting round: one per successful call, in bench order |
| Scotus.MajorityAffirms | internal/scotus/scotus.go:361-367 | defines the majority rule: affirm when more than half, rounded down, of the votes affirm |
| Scotus.JusticeCall | internal/scotus/scotus.go:214-238 | defines a justice's call: the round's request with the justice's role, by display name |
| Scotus.Deliberations | internal/scotus/scotus.go:120-124 | defines the deliberation rounds' calls, round by round, from the first to the last |
| Scotus.Opinions | internal/scotus/scotus.go:354-435 | defines writeOpinions: opinions assigned by the majority rule; a failed majority-opinion call by the Chief Justice fails the run; a failed dissent call by the first dissenter leaves the dissent as it was |
| Scotus.Decided | internal/scotus/scotus.go:126-134 | defines the decision: the voting round, then the opinions |
| Scotus.Heard | internal/scotus/scotus.go:109-134 | defines the hearing: the opening arguments, the Chief Justice's questioning, and, when it succeeds, the rest |
| Scotus.Proceeded | internal/scotus/scotus.go:118-137 | defines the hearing after the questioning: the deliberation rounds, then the decision |
| Scotus.Resolved | internal/scotus/scotus.go:85-97 | defines step 1: the clerk's reply parsed, or the call's error; without derivation, the topic itself |
| Scotus.ScotusRun | internal/scotus/scotus.go:76-140 | defines Run: the resolution, the Chief Justice, then the hearing; a failed required call ends the run with its error |
| PlanParser.Initial | internal/team/team.go:332-341 | a plan starts with the default summary and no steps, in the forced mode or else free form |
| PlanParser.StepId | internal/team/team.go:370 | step IDs are "step_" followed by the step's number |
| PlanParser.CloseAfterTag | internal/team/team.go:376-379 | the closing bracket found from the tag's start lies after the tag, so the slice of the assignee is well formed |
| PlanParser.AssignmentSpan | internal/team/team.go:376-379 | an assignment is found exactly when the line holds the tag with a "]" after it, and the span runs from the tag to the first such bracket |
| PlanParser.StepOf | internal/team/team.go:367-385 | a step line becomes a pending step with the next ID; with an assignment the description is the trimmed text before the tag and the assignee the trimmed text inside it, without one the whole line is the description |
| PlanParser.ParsePlanResponse | internal/team/team.go:331-390 | the line loop computes the parsed plan and mode |
| PlanParser.StepLines | internal/team/team.go:367 | only lines that start with a digit 1-9 and a dot, and are longer than two bytes, are steps |
| PlanParser.LastKnownMode | internal/team/team.go:350-365 | the PM's mode is one of the five known work modes |
| PlanParser.ApplyLineSteps | internal/team/team.go:344-386 | a line adds a step exactly when it is a step line, numbered after the steps so far |
| PlanParser.NumberSteps | internal/team/team.go:367-385 | one step per step line |
| PlanParser.NumberStepsAt | internal/team/team.go:367-385 | the k-th step line becomes step k+1 |
| PlanParser.ParseLinesSteps | internal/team/team.go:343-387 | the plan's steps are the step lines, numbered in order |
| PlanParser.ParseLinesSummary | internal/team/team.go:347-349 | the summary is the last SUMMARY line's value, or the default when there is none |
| PlanParser.ParseLinesMode | internal/team/team.go:338-366 | a forced mode wins; otherwise the last known MODE value, unknown values ignored, free form by default |
| PlanParser.StepIdsInOrder | internal/team/team.go:367-385 | the k-th step is "step_k+1" and pending |
| PlanParser.ModeOfPlan | internal/team/team.go:338-366 | the mode is the forced one when given, and a known work mode otherwise |
| PlanParser.IsStepLine | internal/team/team.go:367 | defines a step line: a trimmed line longer than two bytes starting with a digit 1-9 and a dot |
| PlanParser.ApplyLine | internal/team/team.go:344-386 | defines the effect of one reply line on the summary, the mode and the steps |
| PlanParser.ParseLines | internal/team/team.go:343-387 | defines the state after the reply's lines, first to last |
| PlanParser.PlanOf | internal/team/team.go:331-390 | defines parsePlanResponse: the plan and the work mode |
| PlanParser.LastSummary | internal/team/team.go:347-349 | defines the summary: the trimmed text of the last SUMMARY: line, if any |
| TeamRunner.PhaseEvent | internal/team/team.go:157-160 | a phase change is a system event from the old phase code to the new one, with no task ID |
| TeamRunner.ErrorEvent | internal/team/team.go:236 | an error event carries the error and the message, with no task ID |
| TeamRunner.TaskCreatedEvents | internal/team/team.go:198-205 | one TaskCreated event per plan step, in order, tagged with the step's ID, sent by the PM, titled and described by the step's description |
| TeamRunner.RequestApproval | internal/team/team.go:492-501 | approval is always granted |
| TeamRunner.SelectedPM | internal/team/team.go:279-288 | a forced PM is used as given |
| TeamRunner.SelectPM | internal/team/team.go:279-288 | the PM is the forced one, or the selector's choice from the team, which is a member of a non-empty team |
| TeamRunner.ReviewList | internal/team/team.go:399-402 | the artifact list is empty exactly when there are no artifacts |
| TeamRunner.PlanFromReply | internal/team/team.go:182-205 | a successful planning call is followed by the announcements and the work for the parsed plan |
| TeamRunner.StageOf | internal/team/team.go:182-222 | the run stops at planning exactly when the planning call fails, and at the project directory exactly when it is asked for and cannot be made |
| TeamRunner.SessionEvents | internal/team/team.go:129-135 | the session-level events are a subsequence of all events |
| TeamRunner.TaskCreatedTagged | internal/team/team.go:198-205 | every task-created event carries a task ID |
| TeamRunner.ReviewSession | internal/team/team.go:242-262 | the review announces itself; a failed review adds nothing more, a successful one announces delivery and the session's completion |
| TeamRunner.ExecutedFailed | internal/team/team.go:226-238 | a failed execution leaves the execution phase change and an "Execution failed" error as its session events |
| TeamRunner.ExecutedEvents | internal/team/team.go:226-262 | after a successful execution the events are the phase change, the executor's events, then the review's |
| TeamRunner.ExecutedSucceeded | internal/team/team.go:226-262 | after a successful execution the session events are the phase change and the review's |
| TeamRunner.PlannedSession | internal/team/team.go:191-205 | after planning, the session events are the PM's decision followed by those of the work |
| TeamRunner.WorkSession | internal/team/team.go:218-238 | a failed project directory ends the run silently; otherwise the work is the executor's run, whose events all carry task IDs |
| TeamRunner.ExecutedStage | internal/team/team.go:191-262 | the session events after the decision are the ones the stage reached determines |
| TeamRunner.ExecutedReviewStage | internal/team/team.go:226-262 | a successful execution leads to the review stage's events |
| TeamRunner.WorkStage | internal/team/team.go:191-262 | the work after a plan emits exactly the session events of the stage it reaches |
| TeamRunner.RunSessionEvents | internal/team/team.go:143-266 | a run's session events are the opening announcements followed by those of the stage it reaches |
| TeamRunner.ExecutedResult | internal/team/team.go:234-258 | the result after execution is the one of the stage reached |
| TeamRunner.WorkResult | internal/team/team.go:218-258 | the work's result is the one of the stage it reaches |
| TeamRunner.StageResultMeaning | internal/team/team.go:182-265 | only delivery succeeds; planning, directory, execution and review failures are reported with their own prefixes |
| TeamRunner.RunStageResult | internal/team/team.go:143-266 | a run's result is the one of the stage it reaches |
| TeamRunner.RunResult | internal/team/team.go:143-266 | a run succeeds exactly when the session is delivered, with the PM, mode, plan and artifacts; otherwise the error names the failing stage |
| TeamRunner.RunEventsShape | internal/team/team.go:143-205 | after a successful planning call the events are the opening ones followed by the planned session's |
| TeamRunner.PlannedEvents | internal/team/team.go:191-205 | the decision, the task creations, then the work's events |
| TeamRunner.WorkCreatesNone | internal/team/team.go:218-262 | the work after the plan creates no tasks |
| TeamRunner.RunTasksAnnounced | internal/team/team.go:156-205 | the fourth event is the PM's decision and the plan's tasks are announced right after it, in order |
| TeamRunner.RunTasksCreated | internal/team/team.go:198-205 | the tasks a run creates are exactly step_1 to step_n for the n steps of the plan |
| TeamRunner.OpeningCreatesNone | internal/team/team.go:156-195 | no task is created before the PM's decision |
| TeamRunner.StepIds | internal/team/team.go:370 | the first n step IDs in order |
| TeamRunner.WorkKinds | internal/team/team.go:226-262 | execution and review never create tasks |
| TeamRunner.CreatedIds | internal/team/team.go:198-205 | the created task IDs are the steps' IDs in order |
| TeamRunner.RunOpening | internal/team/team.go:156-182 | a run always opens with the three opening events and the PM's planning call |
| TeamRunner.Runner.constructor | internal/team/team.go:120-126 | a runner has an empty event channel |
| TeamRunner.Runner.Emit | internal/team/team.go:129-135 | one event is offered to the channel |
| TeamRunner.Runner.EmitTasksCreated | internal/team/team.go:198-205 | the loop offers each step's task-created event in order |
| TeamRunner.Runner.CreatePlanCall | internal/team/team.go:290-329 | one planning call to the PM; its failure is returned, its reply is parsed |
| TeamRunner.Runner.ListArtifacts | internal/team/team.go:399-402 | the loop builds the artifact list for the review prompt |
| TeamRunner.Runner.RunReview | internal/team/team.go:392-426 | one review call to the PM; its failure is the error |
| TeamRunner.Runner.ReviewPhase | internal/team/team.go:242-265 | the review and delivery phases' calls, events and result |
| TeamRunner.Runner.ExecutionFailed | internal/team/team.go:235-238 | a failed execution reports its error event and fails the run |
| TeamRunner.Runner.AfterExecution | internal/team/team.go:234-265 | the run after execution follows the execution's result |
| TeamRunner.Runner.WorkPhase | internal/team/team.go:218-265 | the project directory, execution, review and delivery |
| TeamRunner.Runner.AfterPlan | internal/team/team.go:187-265 | the decision, task announcements, approval and the work |
| TeamRunner.Runner.PlanPhase | internal/team/team.go:176-265 | the planning phase and everything after it |
| TeamRunner.Runner.Run | internal/team/team.go:143-266 | a session's model calls, channel contents and result are those of the run function |
| TeamRunner.Opening | internal/team/team.go:156-182 | defines the events before planning: analysis starts, the PM is announced, planning starts |
| TeamRunner.DecisionEvent | internal/team/team.go:191-196 | defines the PM's decision event: the work mode, the plan's summary and its steps |
| TeamRunner.PlanFrom | internal/team/team.go:176-205 | defines the planning phase: a failed planning call is reported as an error event and ends the run; otherwise the parsed plan goes on |
| TeamRunner.Planned | internal/team/team.go:187-205 | defines the phase after the plan: the decision and one TaskCreated per step, the approval when the checkpoint level asks, then the work |
| TeamRunner.WorkFrom | internal/team/team.go:218-238 | defines the work: the project directory is created when one is set, and a failure there ends the run without an event; then the mode runs |
| TeamRunner.Executed | internal/team/team.go:226-238 | defines the execution phase: a failed mode is an error event and ends the run; otherwise the review follows |
| TeamRunner.ReviewFrom | internal/team/team.go:242-262 | defines review and delivery: a failed review ends the run without an error event; otherwise delivery follows and the session completes |
| TeamRunner.RunFrom | internal/team/team.go:143-266 | defines Run: the calls made, the events emitted and the outcome, PM selection never failing |
| Modes.Ids | internal/team/modes.go:105-129 | one AI ID per model call |
| Modes.IdsAppend | internal/team/modes.go:105-129 | the callers of consecutive call lists are concatenated |
| Modes.Without | internal/team/modes.go:190-193 | the consulted members are team members other than the PM |
| Modes.BuildContext | internal/team/modes.go:510-515 | the start message exactly when there is no work yet, otherwise the progress heading with the work |
| Modes.TruncateOutput | internal/team/modes.go:517-522 | a short output is kept; a long one is cut to the limit and marked as truncated |
| Modes.AddReply | internal/team/modes.go:205-215 | a reply only appends to the accumulated text; a failed call leaves it as it was |
| Modes.Navigator | internal/team/modes.go:79-83 | the navigator is the second member, or the third when the first is the PM and there is a third |
| Modes.PairTurns | internal/team/modes.go:92-145 | the pair turns emit no events |
| Modes.PairTurnStep | internal/team/modes.go:92-145 | a turn whose driver call succeeds asks the driver, then the navigator to review the driver's output, then continues with the roles swapped |
| Modes.PairRun | internal/team/modes.go:70-156 | pair programming emits no events |
| Modes.PairTurnsResume | internal/team/modes.go:105-144 | a failed driver call ends the session with "driver failed"; a successful one goes on with the navigator's review and the swapped roles |
| Modes.Roles | internal/team/modes.go:105-132 | one role per call |
| Modes.PairSchedule | internal/team/modes.go:92-145 | two calls per turn |
| Modes.PairTurnsRoles | internal/team/modes.go:92-145 | the calls follow the schedule driver, navigator, with the roles swapping every turn |
| Modes.PairTurnsSuccess | internal/team/modes.go:92-145 | completed turns make two calls each and only append to the work |
| Modes.PairTurnsFailure | internal/team/modes.go:105-111 | a failure is always a driver call that failed, reported as "driver failed" |
| Modes.PairRunShape | internal/team/modes.go:70-156 | fewer than two members fails without calls; otherwise the calls follow the three-turn schedule, a failure is a failed driver call, and success makes six calls and one pair_output.md code artifact credited to the first two members |
| Modes.ConsultRun | internal/team/modes.go:160-247 | consultation emits no events |
| Modes.ConsultLoopCalls | internal/team/modes.go:190-217 | every member except the PM is consulted, in order, and replies only extend the context |
| Modes.ConsultRunShape | internal/team/modes.go:160-247 | a failed first call fails; otherwise the PM, every other member, then the PM again are asked, the final request carries the PM's initial approach, and the final reply is the artifact or its failure the error |
| Modes.RoundRobinRun | internal/team/modes.go:251-297 | round robin emits no events and never fails |
| Modes.RoundLoopCalls | internal/team/modes.go:261-285 | a round asks every member once in order, and replies only extend the text |
| Modes.RoundLoopText | internal/team/modes.go:261-285 | a round appends one headed block per successful reply |
| Modes.RoundRobinShape | internal/team/modes.go:251-297 | two rounds over all members, one artifact credited to all members whose content starts with the first round |
| Modes.RoundRobinContent | internal/team/modes.go:258-294 | the artifact is exactly the first round's blocks followed by the second round's |
| Modes.FreeFormRun | internal/team/modes.go:421-501 | free form emits no events |
| Modes.BrainstormLoopCalls | internal/team/modes.go:431-450 | every member is asked once in order, and replies only extend the discussion |
| Modes.FreeFormCalls | internal/team/modes.go:421-501 | all members, then the PM's synthesis, then the PM's final call only if the synthesis succeeded |
| Modes.FreeFormResult | internal/team/modes.go:463-500 | a failed synthesis or final call is the error; otherwise the final reply is the artifact |
| Modes.SubtaskId | internal/team/modes.go:331 | subtask IDs are "subtask_" followed by the subtask's number |
| Modes.KindIds | internal/team/modes.go:334-371 | the task IDs of events of one kind, at most one per event |
| Modes.KindIdsAppend | internal/team/modes.go:334-371 | those IDs of consecutive event lists are concatenated |
| Modes.ReadChunksSpec | internal/team/modes.go:357-368 | a stream gives content exactly when no chunk carries an error, the content is the chunks' text, and every chunk read is reported as progress for the subtask |
| Modes.SubtaskResult | internal/team/modes.go:370 | a subtask result starts with its "### " heading |
| Modes.SubtaskOutcomes | internal/team/modes.go:329-373 | one outcome per member |
| Modes.Assemble | internal/team/modes.go:329-373 | one subtask call and one result per member |
| Modes.AssembleFirst | internal/team/modes.go:329-373 | each subtask is announced as started, then runs its stream, then the rest follow |
| Modes.DivideConquerDivided | internal/team/modes.go:301-417 | after a successful divide call the subtasks run and their results are merged |
| Modes.SubtaskOutcomeResult | internal/team/modes.go:348-371 | a subtask has a result exactly when its stream opens and carries no error, and the result is its headed content |
| Modes.SubtaskOutcomeReported | internal/team/modes.go:348-371 | a subtask is reported completed exactly when it has a result |
| Modes.SubtaskIds | internal/team/modes.go:331 | one subtask ID per member |
| Modes.SubtaskOutcomesReported | internal/team/modes.go:329-373 | every subtask's completion report matches its result |
| Modes.AssembleIds | internal/team/modes.go:329-349 | the subtask calls go to the members in order |
| Modes.AssembleStarted | internal/team/modes.go:334 | every subtask is announced as started, in order |
| Modes.AssembleCompleted | internal/team/modes.go:370-371 | exactly the subtasks with a result are reported completed |
| Modes.AssembleAt | internal/team/modes.go:341-349 | member j gets subtask j+1 with the breakdown, and its result is its own outcome's |
| Modes.MergeOutcomeShape | internal/team/modes.go:387-416 | the merge call goes to the PM with the non-empty results, and its failure is the error or its reply the artifact |
| Modes.DivideConquerResult | internal/team/modes.go:301-417 | a failed divide call fails with no events; otherwise the merge reply is the artifact, or its failure the error |
| Modes.DivideConquerCalls | internal/team/modes.go:301-417 | the PM, each member once, then the PM's merge of the subtask results |
| Modes.MergeCalls | internal/team/modes.go:395-406 | the merge call comes last and goes to the PM |
| Modes.DivideConquerEvents | internal/team/modes.go:329-373 | every subtask is reported started, and exactly those with a result are reported completed |
| Modes.DivideConquerSubtask | internal/team/modes.go:336-371 | member j gets subtask j+1, and has a result exactly when its stream is clean |
| Modes.SubtaskOutcomeKinds | internal/team/modes.go:348-371 | a subtask emits only progress, completion and error events |
| Modes.AssembleKinds | internal/team/modes.go:329-373 | the subtasks together emit only started, progress, completion and error events |
| Modes.ExecuteKinds | internal/team/modes.go:46-66 | the executor never announces new tasks |
| Modes.ExecuteRun | internal/team/modes.go:46-66 | only divide and conquer emits events, and an unknown mode runs as free form |
| Modes.DriverFailed | internal/team/modes.go:108-110 | defines the pair mode's error for a failed driver call: "driver failed: " and the call's error |
| Modes.PairWork | internal/team/modes.go:112-137 | defines the work after a turn: the driver's output, then the navigator's review unless its call failed |
| Modes.ConsultLoop | internal/team/modes.go:190-217 | defines the consultation: every member but the PM is consulted with the context so far; a reply is appended under the member's display name; a failed call is skipped |
| Modes.RoundLoop | internal/team/modes.go:261-285 | defines one round: each member contributes given everything so far; a reply is appended under the member's display name and the round; a failed call is skipped |
| Modes.RoundsFrom | internal/team/modes.go:258-294 | defines rounds 1 and 2, each building on the text so far |
| Modes.BrainstormLoop | internal/team/modes.go:431-450 | defines the brainstorm: each member shares thoughts on the task; a reply is appended under the member's display name, then a blank line; a failed call is skipped |
| Modes.ReadChunks | internal/team/modes.go:357-368 | defines the read of a subtask's stream: each chunk's content is appended and reported as progress; an error chunk stops the read and loses the content |
| Modes.SubtaskOutcome | internal/team/modes.go:348-371 | defines one subtask's events and result: empty when the stream fails to open (an Error event) or a chunk carries an error; otherwise the read and a TaskCompleted event |
| Modes.MergeInput | internal/team/modes.go:387-393 | defines the merge input: each non-empty result followed by a blank line |
| Modes.MergeOutcome | internal/team/modes.go:387-416 | defines the merge: the PM merges the results that arrived; the mode ends with the call's error or the merged document |
| Modes.DivideConquerRun | internal/team/modes.go:301-417 | defines executeDivideConquer: the PM divides the task, the members work their subtasks, the PM merges; a failed PM call ends the mode with its error; a failed subtask only leaves its result out |
| ModeExecution.ModeExecutor.constructor | internal/team/modes.go:37-43 | the executor holds the port, the channel and the session |
| ModeExecution.ModeExecutor.PairTurn | internal/team/modes.go:92-145 | one turn of the loop: a failed driver call ends the session, otherwise the roles swap |
| ModeExecution.ModeExecutor.PairProgramming | internal/team/modes.go:70-156 | the calls and result are those of the pair programming function |
| ModeExecution.ModeExecutor.ConsultMember | internal/team/modes.go:190-217 | one iteration of the consultation loop |
| ModeExecution.ModeExecutor.Consultation | internal/team/modes.go:160-247 | the calls and result are those of the consultation function |
| ModeExecution.ModeExecutor.RoundMember | internal/team/modes.go:261-285 | one iteration of a round |
| ModeExecution.ModeExecutor.Round | internal/team/modes.go:261-285 | one round's calls and accumulated text |
| ModeExecution.ModeExecutor.NextRound | internal/team/modes.go:258-286 | one iteration of the two-round loop |
| ModeExecution.ModeExecutor.RoundRobin | internal/team/modes.go:251-297 | the calls and result are those of the round robin function |
| ModeExecution.ModeExecutor.BrainstormMember | internal/team/modes.go:431-450 | one iteration of the brainstorm loop |
| ModeExecution.ModeExecutor.FreeForm | internal/team/modes.go:421-501 | the calls and result are those of the free form function |
| ModeExecution.ModeExecutor.ReadStream | internal/team/modes.go:357-368 | the chunk loop's progress events and content |
| ModeExecution.ModeExecutor.FinishSubtask | internal/team/modes.go:348-371 | one subtask's events and result |
| ModeExecution.ModeExecutor.RunSubtask | internal/team/modes.go:329-373 | one iteration of the subtask loop |
| ModeExecution.ModeExecutor.RunSubtasks | internal/team/modes.go:325-375 | the subtasks' calls, events and results |
| ModeExecution.ModeExecutor.GatherResults | internal/team/modes.go:387-393 | the non-empty results, each followed by a blank line |
| ModeExecution.ModeExecutor.MergeResults | internal/team/modes.go:395-416 | the PM's merge call and its result |
| ModeExecution.ModeExecutor.DivideConquer | internal/team/modes.go:301-417 | the calls, events and result are those of the divide and conquer function |
| ModeExecution.ModeExecutor.Execute | internal/team/modes.go:46-66 | the calls, events and result are those of the mode the session chose |
| Debate.ModeDescription | internal/debate/debate.go:320-337 | adversarial and Socratic modes have their own description; every other mode is a collaborative discussion |
| Config.DisplayNames | internal/debate/debate.go:313-318 | the display name of every configured model, keyed by model ID and nothing else |
| Config.DisplayName | internal/debate/debate.go:313-318 | the configured non-empty display name when there is one, else the AI ID; the same helper appears at scotus.go:483-488 |
| Config.DisplayNameIsTeamDisplayName | internal/team/team.go:503-508 | the debate and court helper gives the same name as the team runner's getDisplayName over the configured display names |
| Debate.AfterThen | internal/debate/debate.go:297-306 | reading a stream piece by piece gives the same answer as reading the pieces joined |
| Debate.DebateRunner.constructor | internal/debate/debate.go:66-72 | the runner holds the model port, the provider registry and the model configuration |
| Debate.DebateRunner.Collect | internal/debate/debate.go:297-310 | the chunk loop stops at the first error chunk and otherwise joins the chunks' text |
| Debate.DebateRunner.InvokeAI | internal/debate/debate.go:254-311 | an unconfigured AI fails without a call; otherwise one call with the mode's system prompt, answered by the reply or the joined stream |
| Debate.DebateRunner.RoundMember | internal/debate/debate.go:158-173 | one iteration of a round loop |
| Debate.DebateRunner.RunRound | internal/debate/debate.go:149-234 | the calls and kept responses are those of the round function |
| Debate.DebateRunner.NextRebuttal | internal/debate/debate.go:110-116 | one iteration of the rebuttal loop |
| Debate.DebateRunner.Conclude | internal/debate/debate.go:118-130 | the synthesis round and the final verdict, as the conclusion function states |
| Debate.DebateRunner.Validate | internal/debate/debate.go:95-100 | the first member the registry cannot resolve is reported |
| Debate.DebateRunner.Run | internal/debate/debate.go:75-147 | a negative round count panics at the transcript's slice allocation before any call; otherwise the calls and exit are those of DebateRun |
| Debate.DebateRunner.RunDebate | internal/debate/debate.go:102-130 | the opening round, the rebuttals and the conclusion |
| Debate.DebateRunner.RunRebuttals | internal/debate/debate.go:109-116 | rounds 2 to the last, each seeing the rounds before it |
| Debate.DebatedFrom | internal/debate/debate.go:102-130 | the three stages run in sequence make up the debate |
| Debate.RoundCalls | internal/debate/debate.go:158-163 | a round calls every configured member in order with the same request |
| Debate.RoundResponses | internal/debate/debate.go:158-173 | a round keeps the responses of the members whose call succeeded, in order, each tagged with the round, the phase and the display name |
| Debate.RebuttalRounds | internal/debate/debate.go:110-116 | there is one rebuttal round per round number up to the last, each numbered and labelled, and each call carries the history of the rounds before it |
| Debate.ConcludedShape | internal/debate/debate.go:118-130 | the conclusion fails only at the final verdict; on success the transcript keeps the rounds, topic, mode and members, the syntheses are round 0, and the last call asks the first member for the verdict |
| Debate.DebateShape | internal/debate/debate.go:75-147 | for a round count of at least 0, a debate fails only at the final verdict; on success it has one round per round number, the first the opening and the rest rebuttals |
| Debate.FirstUnknownNone | internal/debate/debate.go:95-100 | validation passes exactly when every member resolves |
| Debate.FirstUnknownIsFirst | internal/debate/debate.go:95-100 | a validation error names the first member that does not resolve, with the registry's error |
| Debate.MapTopic | internal/debate/debate.go:428-436 | the mapped topic keeps only letters, digits, '_' and '-', spaces becoming '_' |
| Debate.SanitizeTopic | internal/debate/debate.go:428-439 | the sanitized topic is the mapped topic cut to at most 50 bytes |
| Debate.TranscriptFileName | internal/debate/debate.go:427-442 | the safe file name: the timestamp and "_", then at most 50 characters that are letters, digits, "_" or "-", then ".md" |
| Debate.MapSafe | internal/debate/debate.go:428-436 | a topic of safe characters maps to itself |
| Debate.SanitizeIdempotent | internal/debate/debate.go:428-439 | sanitizing twice is sanitizing once |
| Debate.MapKeepsSafe | internal/debate/debate.go:428-436 | a safe character other than '_' is in the mapped topic exactly when it is in the topic |
| Debate.DebateRun | internal/debate/debate.go:75-147 | defines Run's result: a panic for a negative round count, before any call; else the first member the registry cannot place fails the run with no call; else the debate's calls and result |
| Debate.FirstUnknown | internal/debate/debate.go:95-100 | defines the validation: the first member the registry cannot place, as the error |
| Debate.Debated | internal/debate/debate.go:102-130 | defines the debate among validated members: the opening round, the rebuttal rounds, then the syntheses and the verdict |
| Debate.RoundFrom | internal/debate/debate.go:149-234 | defines one round: a member without a configured model is skipped without a call; any other is asked, and kept with its display name, round number and phase when its call succeeds |
| Debate.RebuttalsFrom | internal/debate/debate.go:109-116 | defines the rebuttal rounds 2 to the round count, each given the history of the rounds before it |
| Debate.Concluded | internal/debate/debate.go:118-130 | defines the syntheses over the whole history, then the first member's verdict over them; a verdict that cannot be had fails the debate |
| Debate.Answer | internal/debate/debate.go:254-311 | defines a call's outcome: the reply's content, or what the stream delivers |
| Debate.Collected | internal/debate/debate.go:297-310 | defines what a stream delivers: the concatenated content, or the first error chunk's error |
| Personas.FromFile | internal/persona/dynamic.go:254-262 | a persona loaded from a file keeps its ID, system prompt and debate style |
| Personas.Ids | internal/persona/dynamic.go:60-123 | the IDs of a persona list, in order |
| Personas.DefaultIdsDistinct | internal/persona/dynamic.go:60-123 | the five default personas have distinct IDs |
| Personas.Blank | internal/persona/dynamic.go:192-202 | a fresh switch is for the round and not yet complete |
| Personas.Flush | internal/persona/dynamic.go:199-201 | the current switch is kept exactly when it names an AI and a target persona |
| Personas.StepLine | internal/persona/dynamic.go:195-211 | an AI line flushes the current switch and starts a new one for that AI; other lines only fill in fields of the current switch |
| Personas.AgentLines | internal/persona/dynamic.go:198 | the number of AI lines |
| Personas.Suggestions | internal/persona/dynamic.go:184-219 | a reply containing NO_CHANGES_NEEDED suggests nothing |
| Personas.StepRound | internal/persona/dynamic.go:195-211 | every kept switch is complete and for the round |
| Personas.StepCount | internal/persona/dynamic.go:195-211 | a line adds at most one switch, and only if it is an AI line |
| Personas.StepNames | internal/persona/dynamic.go:195-211 | every switch names an AI from an AI line |
| Personas.ScanRound | internal/persona/dynamic.go:195-211 | after the scan every kept switch is complete and for the round |
| Personas.ScanCount | internal/persona/dynamic.go:195-216 | there are at most as many switches as AI lines |
| Personas.ScanNames | internal/persona/dynamic.go:195-216 | every switch's AI was named on an AI line of the reply |
| Personas.ScanExtends | internal/persona/dynamic.go:195-211 | scanning more lines only adds switches at the end |
| Personas.StepExtends | internal/persona/dynamic.go:195-211 | one more line keeps every switch already emitted, in place |
| Personas.SuggestionsShape | internal/persona/dynamic.go:184-219 | the suggestions are complete switches for the round, for AIs named in the reply, at most one per AI line |
| Personas.PersonaManager.constructor | internal/persona/dynamic.go:43-52 | a new manager has no personas, assignments or history and is enabled |
| Personas.ParseSuggestions | internal/persona/dynamic.go:184-219 | the line loop computes the suggestions |
| Personas.PersonaManager.RegisterPersona | internal/persona/dynamic.go:55-57 | the persona is stored under its ID, replacing any earlier one, and nothing else changes |
| Personas.PersonaManager.AssignPersona | internal/persona/dynamic.go:126-128 | the AI is assigned the persona ID and nothing else changes |
| Personas.PersonaManager.GetPersona | internal/persona/dynamic.go:131-137 | an AI has a persona exactly when it is assigned one that is registered |
| Personas.PersonaManager.GetSystemPrompt | internal/persona/dynamic.go:140-146 | the assigned persona's system prompt, or "" without one |
| Personas.PersonaManager.SuggestSwitch | internal/persona/dynamic.go:149-182 | disabled, nothing is asked and nothing suggested; enabled, claude is asked once and its failure returned or its reply parsed |
| Personas.PersonaManager.ApplySwitch | internal/persona/dynamic.go:222-225 | the AI's assignment changes to the target persona, the switch is recorded, and every other AI's persona is unchanged |
| Personas.PersonaManager.GetHistory | internal/persona/dynamic.go:228-230 | the switches applied so far, in order |
| Personas.PersonaManager.Enable | internal/persona/dynamic.go:233-235 | switching is enabled and nothing else changes |
| Personas.PersonaManager.Disable | internal/persona/dynamic.go:238-240 | switching is disabled and nothing else changes |
| Personas.PersonaManager.IsEnabled | internal/persona/dynamic.go:243-245 | whether switching is enabled |
| Personas.PersonaManager.LoadPersonasFromConfig | internal/persona/dynamic.go:248-266 | a load error is returned and nothing registered; otherwise every loaded persona is registered over any earlier one and the rest are kept |
| Personas.PersonaManager.RegisterAll | internal/persona/dynamic.go:269-273 | every persona of the list is registered, the rest are kept, and nothing else is added |
| Personas.PersonaManager.InitializeDefaults | internal/persona/dynamic.go:269-273 | the default personas are registered over any earlier ones with the same IDs |
| Personas.DefaultPersonas | internal/persona/dynamic.go:60-123 | defines the five built-in personas |
| Personas.ScanLines | internal/persona/dynamic.go:195-211 | defines the scan of a reply's lines, in order, from a blank record |
| Providers.Validate | internal/provider/provider.go:30-41 | a request is accepted exactly when both prompts are at most 1,000,000 bytes and the temperature is within 0 to 2; otherwise the first failing check's message is returned |
| Providers.ValidateAtLimits | internal/provider/provider.go:27-41 | prompts of exactly the limit and temperatures 0 and 2 pass; one byte more or a temperature of 2.5 fails |
| Providers.Quote | internal/provider/provider.go:107-112 | a quoted name is the escaped name between double quotes |
| Providers.EscapeChar | internal/provider/provider.go:107-112 | a character is written as itself exactly when it is printable and neither a quote nor a backslash; otherwise it opens with a backslash |
| Providers.UnescapeEscape | internal/provider/provider.go:145 | the escaped name reads back as the name, so quoting loses nothing and leaves no bare quote inside |
| Providers.QuotePlain | internal/provider/provider.go:161 | a name with nothing to escape is quoted as itself between double quotes |
| Providers.Registry.constructor | internal/provider/provider.go:73-78 | a new registry has no providers and no models |
| Providers.Registry.Register | internal/provider/provider.go:81-83 | the adapter is stored under its name, replacing any earlier one |
| Providers.Registry.RegisterModel | internal/provider/provider.go:86-88 | the model configuration is stored under its AI ID |
| Providers.Registry.RegisterModels | internal/provider/provider.go:91-95 | every configuration of the table is stored, overriding earlier ones |
| Providers.Registry.Get | internal/provider/provider.go:98-101 | a provider is found exactly when one is registered under the name |
| Providers.Registry.GetForModel | internal/provider/provider.go:104-116 | an AI resolves exactly when it has a model whose provider is registered; otherwise the missing model or the missing provider is reported |
| Providers.Registry.Route | internal/provider/provider.go:137-147 | the model's provider when the AI resolves, else a provider registered under the AI ID itself, else "no provider found" |
| Providers.Registry.Dispatch | internal/provider/provider.go:137-166 | Invoke and Stream send the request to the routed provider, or fail with "no provider found" |
| Providers.Registry.ListProviders | internal/provider/provider.go:119-125 | every registered provider name once |
| Providers.Registry.ListModels | internal/provider/provider.go:128-134 | every registered AI ID once |
| Providers.Escape | internal/provider/provider.go:107-112 | the %q body is at least as long as the text, each character escaped in turn |
| Providers.Unescape | internal/provider/provider.go:145 | defines reading a %q body back: none when it holds a bare quote, a bare backslash or an escape %q does not write |
| BaseProviders.Getenv | internal/provider/base.go:49-52 | an unset environment variable reads as "" |
| BaseProviders.BaseProvider.constructor | internal/provider/base.go:38-66 | a zero timeout becomes 180 seconds and zero max tokens 4096; the API key is read from its variable when one is named |
| BaseProviders.BaseProvider.GetAPIKey | internal/provider/base.go:74-79 | a missing key is read from the environment when a variable is named; a key already held is kept |
| BaseProviders.BaseProvider.CheckAPIKeyRequired | internal/provider/base.go:170-175 | the error is returned exactly when a variable is named and the key is still empty after reading it |
| BaseProviders.BaseProvider.SetModel | internal/provider/base.go:82-84 | the model is replaced and the key kept |
| BaseProviders.ReadStream | internal/provider/base.go:122-167 | the line loop produces the framed chunks |
| BaseProviders.TerminalOnlyLast | internal/provider/base.go:122-167 | only the last chunk can end the stream |
| BaseProviders.EndsTerminal | internal/provider/base.go:143-165 | the stream ends with a done or error chunk exactly when some line ends it or the scanner fails |
| BaseProviders.ForwardedContent | internal/provider/base.go:154-156 | every chunk that does not end the stream carries content, and none that ends it does |
| BaseProviders.Framed | internal/provider/base.go:122-167 | defines the chunks the SSE lines give, in order, including the scanner's error at the end |
| CliProviders.Models | internal/provider/cli.go:51-53 | a CLI provider reports its own name as its one model |
| CliProviders.BuildArgs | internal/provider/cli.go:57-69 | the base arguments, then the system flag and prompt when both are set, then the prompt flag when set, and the prompt last |
| CliProviders.InvokeResult | internal/provider/cli.go:71-84 | a clean exit answers the trimmed output with no token count; a failed run reports the tool, the error and its stderr |
| CliProviders.StreamOutput | internal/provider/cli.go:103-135 | a pipe or start failure is reported; otherwise one chunk per output line with its newline, and a final error chunk when the scan fails |
| CliProviders.StreamedText | internal/provider/cli.go:120-128 | the streamed text is the output's lines, each ended by a newline |
| Config.DefaultsFill | internal/config/config.go:112-143 | every defaulted setting left at zero gets its default (3 rounds, 180 s, 400 words, 2 retries, 5 s, markdown, ./debates, 8000 chars, ./projects, level "all") and every other setting is kept |
| Config.DefaultsKeepComplete | internal/config/config.go:112-143 | settings already filled in are left exactly as they are |
| Config.DefaultsIdempotent | internal/config/config.go:112-143 | filling in the defaults twice is the same as once |
| Config.AppConfig.constructor | internal/config/config.go:13-21 | a configuration holds the given settings, models and default council |
| Config.AppConfig.SetDefaults | internal/config/config.go:112-143 | the field-by-field updates leave the settings with their defaults filled in, and nothing else changes |
| Config.AppConfig.GetModel | internal/config/config.go:146-149 | a model is found exactly when the table has an entry for the AI |
| Config.AppConfig.CouncilMembers | internal/config/config.go:152-157 | the configured default council, or claude, gpt and gemini when none is configured, so never empty |
| Config.Load | internal/config/config.go:88-103 | a read error and a parse error are reported with their prefixes; otherwise the decoded configuration with its defaults filled in |
| Config.YamlKey | internal/config/config.go:197-198 | the key is the file name without its ".yaml" |
| Config.LoadYamlDir | internal/config/config.go:175-203 | a missing directory loads nothing, an unreadable one is an error, otherwise every YAML file is loaded |
| Config.LoadedKeys | internal/config/config.go:186-200 | the loaded keys are exactly the names of the directory's YAML files without ".yaml" |
| Config.LoadedFails | internal/config/config.go:186-195 | loading fails exactly when some YAML file fails to load |
| Config.WithDefaults | internal/config/config.go:112-143 | defines setDefaults: every zero-valued defaulted field replaced by its default |
| Config.LoadedEntries | internal/config/config.go:186-199 | defines the directory load: directories and non-YAML names skipped, the first decode failure stops, each value keyed by its file name without the extension |
| Budget.DefaultPricing | internal/budget/budget.go:23-60 | the default table has nineteen tiers |
| Budget.TableKeys | internal/budget/budget.go:93-96 | the table built from the tiers has exactly the keys "provider/model" of those tiers |
| Budget.TableRows | internal/budget/budget.go:93-96 | when the keys are distinct, every tier is stored under its own key |
| Budget.KeyInjective | internal/budget/budget.go:94 | for providers without a slash, equal keys mean equal provider and model |
| Budget.DefaultKeysDistinct | internal/budget/budget.go:23-60 | no default provider holds a slash and no two default tiers share a key |
| Budget.TokensAfterRecord | internal/budget/budget.go:225-230 | one more usage adds its tokens to its own provider's totals and to no other |
| Budget.TokensOfAbsent | internal/budget/budget.go:220-232 | a provider with no usage has zero tokens |
| Budget.UsagesOfMembers | internal/budget/budget.go:201-203 | a provider's group holds exactly the usages recorded for it |
| Budget.CostSumAppend | internal/budget/budget.go:156 | appending a usage adds its cost to the running sum |
| Budget.ProviderCostIsSum | internal/budget/budget.go:208-217 | the cost accumulated for a provider equals the summed cost of that provider's group |
| Budget.GroupsAfterRecord | internal/budget/budget.go:201-203 | one more usage extends its own provider's group and cost and no other's |
| Budget.GroupsOfAbsent | internal/budget/budget.go:196-217 | a provider with no usage has an empty group and no cost |
| Budget.GroupStep | internal/budget/budget.go:202 | appending a usage to its provider's group keeps the map a grouping of the longer list |
| Budget.Tracker.constructor | internal/budget/budget.go:86-99 | no usages, no limit, zero cost, costs hidden, and the pricing map built from the default table |
| Budget.Tracker.SetBudget | internal/budget/budget.go:102-106 | the limit is replaced and nothing else changes |
| Budget.Tracker.SetShowCosts | internal/budget/budget.go:109-113 | the display flag is replaced and nothing else changes |
| Budget.Tracker.GetPricing | internal/budget/budget.go:116-133 | the exact "provider/model" tier first, else the provider's "*" tier, else none, both directions |
| Budget.Tracker.EstimateCost | internal/budget/budget.go:311-319 | zero without a tier, otherwise tokens in thousands times the tier's rates |
| Budget.Tracker.RecordUsage | internal/budget/budget.go:136-160 | the usage is appended, priced at the model's tier, its cost added to the total; the total stays the sum of the recorded costs |
| Budget.Tracker.GetTotalCost | internal/budget/budget.go:163-167 | the running total is what the recorded usages cost |
| Budget.Tracker.GetRemainingBudget | internal/budget/budget.go:170-177 | -1 without a limit, else the limit minus the total cost |
| Budget.Tracker.IsOverBudget | internal/budget/budget.go:180-184 | over exactly when a positive limit is exceeded |
| Budget.Tracker.GetUsages | internal/budget/budget.go:187-193 | a copy of the recorded usages, element by element |
| Budget.Tracker.GetUsagesByProvider | internal/budget/budget.go:196-205 | keys are exactly the providers with a usage; each holds that provider's usages in recording order, never empty |
| Budget.Tracker.GetCostByProvider | internal/budget/budget.go:208-217 | keys are exactly the providers with a usage; each holds the summed cost of that provider's usages |
| Budget.Tracker.GetTokensByProvider | internal/budget/budget.go:220-232 | keys are exactly the providers with a usage; each holds that provider's input and output token totals |
| Budget.Tracker.Summary | internal/budget/budget.go:235-261 | "No usage recorded" for no usage, else the interaction count and token totals followed by the cost lines |
| Budget.DefaultTiersFound | internal/budget/budget.go:116-133 | with the default table every default tier is found under its own provider and model |
| Budget.LocalProvidersFree | internal/budget/budget.go:56-58 | ollama and lmstudio get their "*" tier for any model, so their calls cost nothing |
| Budget.LocalRows | internal/budget/budget.go:56-58 | ollama and lmstudio each have one default tier, a "*" tier |
| Budget.WildcardOnly | internal/budget/budget.go:116-133 | a provider whose only tier is a "*" tier is priced by it for every model |
| Budget.OverBudgetRemaining | internal/budget/budget.go:170-184 | over budget exactly when there is a limit and less than nothing of it remains |
| Budget.TableOf | internal/budget/budget.go:93-96 | defines the pricing table: each row keyed by "provider/model", later rows overriding earlier |
| Budget.CostOf | internal/budget/budget.go:311-319 | defines a price: thousands of input and output tokens times the tier's rates |
| Budget.UsagesOf | internal/budget/budget.go:196-205 | defines one provider's usages, in recording order |
| Budget.CostOfProvider | internal/budget/budget.go:208-217 | defines one provider's cost, accumulated in recording order |
| Budget.TokensOf | internal/budget/budget.go:220-232 | defines one provider's input and output token totals |
| Text.TrimPrefix | internal/team/team.go:348 | with the prefix, the string is the prefix followed by the result; without it, the string is unchanged |
| Text.IndexOf | internal/team/team.go:376-377 | -1 or the first position where the substring occurs; non-negative exactly when it occurs |
| Text.IndexFrom | internal/team/team.go:376 | -1 or the first occurrence at or after the start, given none before it |
| Text.LeadingSpaces | internal/team/team.go:345 | the length of the run of white space at the front |
| Text.TrailingSpaces | internal/team/team.go:345 | the length of the run of white space at the back |
| Text.TrimSpace | internal/team/team.go:345 | no longer than the input, neither starting nor ending with white space, and made only of characters of the input |
| Text.TrimSpaceAt | internal/team/team.go:345 | the result is read from the input in place, starting just after its leading white space |
| Text.TrimSpaceMiddle | internal/team/team.go:345 | the result is exactly the input between its leading and its trailing white space, or empty when the input is all white space |
| Text.ToLower | internal/team/pm.go:91 | the same length, each character lowered |
| Text.ToUpper | internal/scotus/scotus.go:334 | the same length, each character raised |
| Text.WordLength | cmd/assess/main.go:397 | the length of the leading run without white space |
| Text.Fields | cmd/assess/main.go:397 | every field is non-empty and free of white space |
| Text.FieldsJoin | cmd/assess/main.go:397 | the fields, written one after another, are the input with its white space removed, in order |
| Text.FieldsCount | cmd/assess/main.go:397 | there are as many fields as word starts: non-space characters that open the input or follow white space |
| Text.SegmentLength | internal/team/team.go:343 | the length up to the first separator, or the whole string |
| Text.Split | internal/team/team.go:343 | at least one part and no part holds the separator |
| Text.JoinSplit | internal/team/team.go:343 | joining the parts with the separator gives back the string |
| Text.SegmentLengthAt | internal/tui/card.go:181-187 | a separator-free head followed by a separator ends the first segment |
| Text.SplitJoin | internal/tui/card.go:181-187 | splitting a join of separator-free parts gives back the parts |
| Text.NatToString | internal/budget/budget.go:250 | decimal digits with no leading zero that read back as the number |
| Text.NatToStringRoundTrip | internal/team/artifacts.go:156 | reading the written digits gives back the number |
| Text.IntToString | internal/budget/budget.go:251-252 | a minus sign exactly for negatives, then digits reading back as the magnitude |
| Assess.LengthAdjustment | cmd/assess/main.go:397-402 | -2 exactly below 10 words, +1 exactly between 50 and 500 words exclusive, else 0 |
| Assess.CodingBonus | cmd/assess/main.go:406-412 | +2 exactly when a "def " or "func " appears, +1 exactly when a code fence appears |
| Assess.CategoryBonus | cmd/assess/main.go:405-422 | exactly the coding bonus for coding; for math 1 with "=" or "mph" and 0 otherwise; for instruction 2 with five trimmed lines and 0 otherwise; 0 for every other category |
| Assess.ScoreResponse | cmd/assess/main.go:392-433 | the score lies in the clamp range 0 to 10 |
| Assess.ScoreUnclamped | cmd/assess/main.go:394-430 | the clamp never acts: the score is 5 plus the length and category adjustments, between 3 and 9 |
| Assess.OtherCategoriesLengthOnly | cmd/assess/main.go:405-422 | outside the three named categories only the length adjusts the score |
| Port.ModelPort.constructor | internal/provider/provider.go:137-166 | the port answers from the given scripts and has no calls yet |
| Port.ModelPort.Invoke | internal/provider/provider.go:137-150 | the call is recorded at the end and answered by the script entry of its number |
| Port.ModelPort.Stream | internal/provider/provider.go:153-166 | the call is recorded at the end and its stream is the stream script entry of its number |

## Left out

- Text.TrimSpace, Text.Fields: white space is the ASCII set (space, tab, newline, vertical tab, form feed, carriage return). Go also counts Unicode spaces such as U+0085 and U+00A0.
- Text.ToLower, Text.ToUpper: only the ASCII letters change case. Go also maps the other Unicode letters.
- Byte counts: a string is a sequence of characters, each standing for one byte. Go's `len` and slicing count bytes, so the lengths and cuts below agree with Go only for ASCII text. For other text Go counts more bytes than characters, and a cut may split a UTF-8 sequence.
- Cards.TruncateString: the width and the cut are in characters (see Byte counts).
- SetupForms.Truncate: the width and the cut are in characters (see Byte counts).
- SetupForms.TruncateKeepsPrefix: the kept prefix is counted in characters (see Byte counts).
- SetupForms.TopicError: the 5-byte minimum is 5 characters (see Byte counts).
- SetupForms.SummaryTopicBound: the 40-byte bound is 40 characters (see Byte counts).
- Debate.SanitizeTopic: the 50-byte cut is 50 characters (see Byte counts).
- Modes.TruncateOutput: the limit is in characters (see Byte counts).
- PlanParser.StepLines: "longer than two bytes" is longer than two characters (see Byte counts).
- Providers.Validate: the 1,000,000-byte limits, and the lengths in its messages, are in characters (see Byte counts).
- Providers.ValidateAtLimits: "one byte more" is one character more (see Byte counts).
- Providers.Quote: characters from U+0080 on are written as themselves. Go's %q writes the non-printable ones among them as \u or \U escapes, and bytes of invalid UTF-8 as \x escapes. Below U+0080 the model escapes as Go does.
- Floating point: these `float64` values are exact `real` numbers:
  - prices and costs in `Budget`;
  - the request temperature in `Providers`;
  - card and event progress in `Cards` and `TeamEvents`;
  - the milestone percentage in `Checkpoints`.
  Rounding, NaN and the "$%.4f" cost lines are not modelled. `Budget.Tracker.Summary` takes the rendered cost lines as a parameter.
- Assess.ScoreResponse: the score is an integer. Every step of the Go heuristic adds or subtracts a small whole number to a `float64`, so nothing is lost.
- Budget.Tracker.RecordUsage: modelled as evidently intended. In Go it holds the tracker's mutex and then calls GetPricing, which locks the same non-reentrant mutex again (internal/budget/budget.go:137-140 with 117). So the call never returns. Locking and concurrency are outside the model.
- The budget tracker's mutex: the model is single-threaded.
- Divide and conquer (`ModeExecution.ModeExecutor.DivideConquer`, `Modes.DivideConquerResult`): the subtasks run one after another in member order. Go starts one goroutine per member and waits on a WaitGroup (internal/team/modes.go:330-375). Each subtask's outcome is an oracle entry, so the results by index are the same.
- Artifacts.Save: the directory creation, the name check and the write are modelled, with the file system as a parameter. Left out are the `filepath.Abs` containment check and its three errors (internal/team/artifacts.go:59-70). The name is first reduced to its cleaned last element, and ".", ".." and "" are rejected. So the joined path already lies directly in the directory, and that check fails only when `filepath.Abs` itself fails.
- Debate.DebateRunner.Run: requires a non-empty member list. Go indexes the first member for the final verdict and would panic on an empty list (internal/debate/debate.go:243). Its only caller falls back to the configured council when no members are given (cmd/council/main.go:176-178).
- Cards.TruncateString: requires a non-negative width. Go slices `s[:maxLen]` and panics on a negative width (internal/tui/card.go:174-175).
- Cards.TruncateLines, Cards.TruncatedLines: require a width of at least 3. Go slices `line[:maxWidth-3]` and panics below that when a line is too long (internal/tui/card.go:183-184).
- Cards.KanbanCard.PreviewText: requires a card width of at least 7. Its preview is truncated to the width minus 4 (internal/tui/card.go:137).
- SetupForms.Truncate: the width is a `nat`. Its only caller passes 40 (internal/tui/form.go:129).
- The clock: timestamps, IDs made from the time, and durations are parameters.
- The environment: environment variables are a map parameter (`BaseProviders.Getenv`).
- File I/O: as follows.
  - File contents and directory listings are parameters, and YAML decoding is a function parameter (`Config.Load`, `Config.LoadYamlDir`).
  - Checkpoint and milestone Save/Load are not part of this model, and neither are the budget tracker's SaveToFile/LoadFromFile.
  - Nor are the session summary file, the debate transcript's write, and assessment JSON.
  - The write in `Artifacts.ArtifactCollection.Save` is an outcome parameter.
  - The team's deliver step writes files and reports no failure, so it is modelled only by its events.
- Printing: the team's, court's and debate's console headers, summaries and progress lines are not modelled (internal/team/team.go:268-277 and 479-490; internal/scotus/scotus.go:142-152).
- Prompt wording: every prompt is a request datatype that records what the prompt carries (the AI, the round, the earlier responses). The template text is not modelled.
- Vendor HTTP adapters: anthropic.go, openai.go, openai_compat.go, google.go, ollama.go, groq.go, deepseek.go, mistral.go, xai.go, lmstudio.go and generic.go are not part of this model. Their requests and responses are the oracle. So is each provider's HealthCheck.
- Subprocesses: the CLI provider's exec, pipes and kill-on-cancel are outcome parameters (`CliProviders.InvokeResult`, `CliProviders.StreamOutput`). DetectCLIProviders, the LookPath probes and the NewClaudeCLIProvider/NewGeminiCLIProvider/NewCodexCLIProvider presets are not modelled.
- Context cancellation and timeouts: not modelled. A cancelled call is one more failed oracle reply.
- Event channel mechanics: the select/default send is the bounded queue `EventBus.EventQueue`. Closing the channel and the Bubble Tea command plumbing (tea.Cmd, program.Send, listenForEvents) are not modelled.
- TuiRunner: the debate screen's Run starts the orchestration on a goroutine beside the Bubble Tea program (internal/tui/runner.go:30-42). The model gives the message sequence the orchestration sends, in order. It does not model interleaving with key presses.
- DebateTui: startDebate returns a command whose closure assigns to a copy of the model, so it changes nothing (internal/tui/app.go:501-508). The model has no such operation.
- Rendering: View and the render functions, lipgloss styles, spinners, the 0.7 board width and progress bars are not modelled. The exceptions are the integer scroll-window arithmetic of the debate panels and the kanban debug log, and the card status and border precedence.
- The huh form's Run (internal/tui/form.go:41-121) and the model-management table UI (internal/tui/models.go) are not part of this model. Only the form's defaults, validators, summary and options are.
- Map iteration order: these produce lists in Go's unspecified map order, which the model chooses freely:
  - the setup form's model list;
  - the registry's ListProviders and ListModels;
  - RegisterModels.
  Their contracts state the contents, without duplicates, and not the order.
- Name and GetModel accessors that only read a field have no member of their own.
