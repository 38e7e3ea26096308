/**
 * The debate screen: one panel per council member, a focused panel, a
 * view mode, and the debate phase the screen shows. Key presses move the
 * focus, scroll the focused panel and switch views; streamed chunks fill
 * the panels; phase-complete messages move the phase on. Drawing is left
 * out except for the window of lines a panel shows.
 */
module DebateTui {
  import opened Results
  import Config
  import Kanban

  datatype ViewMode = Grid | Focus | Transcript

  datatype Phase = Setup | Opening | Rebuttal | Synthesis | Final | Complete

  /** Phase.String */
  function PhaseName(p: Phase): string
  {
    match p
    case Setup => "Setup"
    case Opening => "Opening Statements"
    case Rebuttal => "Rebuttals"
    case Synthesis => "Synthesis"
    case Final => "Final Verdict"
    case Complete => "Complete"
  }

  /** Every phase has its own name. */
  lemma PhaseNamesDistinct(p: Phase, q: Phase)
    requires p != q
    ensures PhaseName(p) != PhaseName(q)
  {
    if (p == Rebuttal && q == Synthesis) || (p == Synthesis && q == Rebuttal) {
      assert PhaseName(p)[0] != PhaseName(q)[0];
    }
  }

  /** tui.Options */
  datatype Options = Options(topic: string, mode: string, rounds: int, members: seq<string>, outputDir: string)

  /** tui.Panel; the content builder is the text written so far. */
  datatype Panel = Panel(aiId: string, displayName: string, content: string, streaming: bool, done: bool,
                         error: Option<string>, scrollPos: int)

  /** StreamChunkMsg */
  datatype ChunkMsg = ChunkMsg(aiId: string, content: string, done: bool, error: Option<string>)

  /** The messages the runner sends the screen. */
  datatype TuiMsg = StreamChunkMsg(chunk: ChunkMsg) | PhaseCompleteMsg(phase: Phase) | DebateCompleteMsg

  /**
   * What an update asks the program to do next: nothing, quit, run the
   * next round (whose command answers at once with that round's
   * phase-complete message), or nothing at all because the update
   * panicked.
   */
  datatype Cmd = NoCmd | QuitCmd | RunRebuttal | RunSynthesis | RunFinal | Crash(reason: string)

  // ---------------------------------------------------------------------
  // Focus and views

  /** tab: the next panel, wrapping round. */
  function NextFocus(f: int, n: int): (g: int)
    requires 0 <= f < n
    ensures 0 <= g < n
    ensures g == if f == n - 1 then 0 else f + 1
  {
    (f + 1) % n
  }

  /** shift+tab: the previous panel, wrapping round. */
  function PrevFocus(f: int, n: int): (g: int)
    requires 0 <= f < n
    ensures 0 <= g < n
    ensures g == if f == 0 then n - 1 else f - 1
  {
    (f - 1 + n) % n
  }

  /** tab and shift+tab undo each other. */
  lemma FocusRoundTrip(f: int, n: int)
    requires 0 <= f < n
    ensures PrevFocus(NextFocus(f, n), n) == f
    ensures NextFocus(PrevFocus(f, n), n) == f
  {
  }

  /** The focus after pressing tab a number of times. */
  function TabPresses(f: int, n: int, presses: nat): (g: int)
    requires 0 <= f < n
    ensures 0 <= g < n
  {
    if presses == 0 then f else NextFocus(TabPresses(f, n, presses - 1), n)
  }

  /**
   * Pressing tab k times, for k up to the number of panels, moves the
   * focus k panels on, wrapping past the last panel to the first.
   */
  lemma {:induction false} TabWraps(f: int, n: int, presses: nat)
    requires 0 <= f < n && presses <= n
    ensures TabPresses(f, n, presses) == if f + presses < n then f + presses else f + presses - n
  {
    if presses > 0 {
      TabWraps(f, n, presses - 1);
    }
  }

  /** Pressing tab once per panel comes back to the panel it started from. */
  lemma TabCycle(f: int, n: int)
    requires 0 <= f < n
    ensures TabPresses(f, n, n) == f
  {
    TabWraps(f, n, n);
  }

  /** The view-mode keys: enter and f toggle focus view, t the transcript, g returns to the grid. */
  function ViewAfter(mode: ViewMode, key: string): (m: ViewMode)
    ensures key == "g" ==> m == Grid
    ensures key == "enter" || key == "f" ==> (m == Focus <==> mode != Focus)
    ensures key == "t" ==> (m == Transcript <==> mode != Transcript)
    ensures !IsViewKey(key) ==> m == mode
  {
    if key == "enter" || key == "f" then (if mode == Focus then Grid else Focus)
    else if key == "t" then (if mode == Transcript then Grid else Transcript)
    else if key == "g" then Grid
    else mode
  }

  predicate IsViewKey(key: string)
  {
    key == "enter" || key == "f" || key == "t" || key == "g"
  }

  /**
   * A toggle pressed twice from the grid or from its own view comes back;
   * g is the same pressed once or twice.
   */
  lemma ViewToggleTwice(mode: ViewMode, key: string)
    ensures (key == "enter" || key == "f") && mode != Transcript ==> ViewAfter(ViewAfter(mode, key), key) == mode
    ensures key == "t" && mode != Focus ==> ViewAfter(ViewAfter(mode, key), key) == mode
    ensures key == "g" ==> ViewAfter(ViewAfter(mode, key), key) == ViewAfter(mode, key)
  {
  }

  /** The key groups of the debate screen. */
  datatype KeyGroup = QuitKey | NextKey | PrevKey | LeftKey | RightKey | DownKey | UpKey | ViewKey | OtherKey

  /** The group a key press falls in; view keys are exactly those ViewAfter reacts to. */
  function KeyOf(key: string): (g: KeyGroup)
    ensures g == QuitKey <==> Kanban.IsQuitKey(key)
    ensures g == NextKey <==> key == "tab"
    ensures g == PrevKey <==> key == "shift+tab"
    ensures g == LeftKey <==> Kanban.IsLeftKey(key)
    ensures g == RightKey <==> Kanban.IsRightKey(key)
    ensures g == DownKey <==> Kanban.IsDownKey(key)
    ensures g == UpKey <==> Kanban.IsUpKey(key)
    ensures g == ViewKey <==> IsViewKey(key)
    ensures g == OtherKey ==> ViewAfter(ViewMode.Grid, key) == Grid && ViewAfter(Focus, key) == Focus
                              && ViewAfter(Transcript, key) == Transcript
  {
    if key == "q" || key == "ctrl+c" then QuitKey
    else if key == "tab" then NextKey
    else if key == "shift+tab" then PrevKey
    else if key == "h" || key == "left" then LeftKey
    else if key == "l" || key == "right" then RightKey
    else if key == "j" || key == "down" then DownKey
    else if key == "k" || key == "up" then UpKey
    else if key == "enter" || key == "f" || key == "t" || key == "g" then ViewKey
    else OtherKey
  }

  // ---------------------------------------------------------------------
  // Streamed chunks

  /** A chunk applied to its panel: an error ends the panel with the error, done ends it, anything else adds text. */
  function Updated(p: Panel, msg: ChunkMsg): (q: Panel)
    ensures q.aiId == p.aiId && q.displayName == p.displayName && q.scrollPos == p.scrollPos
    ensures msg.error.Some? ==> q == p.(error := msg.error, streaming := false, done := true)
    ensures msg.error.None? && msg.done ==> q == p.(streaming := false, done := true)
    ensures msg.error.None? && !msg.done ==> q == p.(content := p.content + msg.content)
  {
    if msg.error.Some? then p.(error := msg.error, streaming := false, done := true)
    else if msg.done then p.(streaming := false, done := true)
    else p.(content := p.content + msg.content)
  }

  /** The first panel for the AI, or -1. */
  function FirstPanel(panels: seq<Panel>, aiId: string): (i: int)
    ensures -1 <= i < |panels|
    ensures i >= 0 ==> panels[i].aiId == aiId
    ensures forall j | 0 <= j < |panels| && (i < 0 || j < i) :: panels[j].aiId != aiId
  {
    if |panels| == 0 then -1
    else if panels[0].aiId == aiId then 0
    else
      var i := FirstPanel(panels[1..], aiId);
      if i < 0 then -1 else i + 1
  }

  /**
   * A chunk updates only the first panel of its AI; with no panel for the
   * AI nothing changes.
   */
  function ApplyChunk(panels: seq<Panel>, msg: ChunkMsg): (r: seq<Panel>)
    ensures |r| == |panels|
    ensures forall j | 0 <= j < |panels| :: r[j].aiId == panels[j].aiId && r[j].scrollPos == panels[j].scrollPos
    ensures (forall j | 0 <= j < |panels| :: panels[j].aiId != msg.aiId) ==> r == panels
    ensures forall j | 0 <= j < |panels| && j != FirstPanel(panels, msg.aiId) :: r[j] == panels[j]
    ensures FirstPanel(panels, msg.aiId) >= 0 ==>
              r[FirstPanel(panels, msg.aiId)] == Updated(panels[FirstPanel(panels, msg.aiId)], msg)
  {
    var i := FirstPanel(panels, msg.aiId);
    if i < 0 then panels else panels[i := Updated(panels[i], msg)]
  }

  // ---------------------------------------------------------------------
  // Phases

  /**
   * A phase-complete message: after the opening or a rebuttal, another
   * rebuttal round while rounds remain, else the synthesis; after the
   * synthesis the final verdict; after the final verdict the debate is
   * complete. Other phases change nothing.
   */
  function Advance(round: int, rounds: int, done: Phase): (r: (Phase, int, Cmd))
    ensures (done == Opening || done == Rebuttal) && round < rounds ==> r.1 == round + 1 && r.2 == RunRebuttal
    ensures (done == Opening || done == Rebuttal) && round >= rounds ==> r.0 == Synthesis && r.1 == round && r.2 == RunSynthesis
    ensures done == Synthesis ==> r == (Final, round, RunFinal)
    ensures done == Final ==> r.0 == Complete && r.1 == round && r.2 == NoCmd
  {
    match done
    case Opening => if round < rounds then (Rebuttal, round + 1, RunRebuttal) else (Synthesis, round, RunSynthesis)
    case Rebuttal => if round < rounds then (Rebuttal, round + 1, RunRebuttal) else (Synthesis, round, RunSynthesis)
    case Synthesis => (Final, round, RunFinal)
    case Final => (Complete, round, NoCmd)
    case _ => (Setup, round, NoCmd)
  }

  /** The phase a command's message reports, if the command sends one. */
  function Reported(cmd: Cmd): Option<Phase>
  {
    match cmd
    case RunRebuttal => Some(Rebuttal)
    case RunSynthesis => Some(Synthesis)
    case RunFinal => Some(Final)
    case _ => None
  }

  /** How many more phase-complete messages a phase leads to. */
  function Remaining(round: int, rounds: int, done: Phase): nat
  {
    match done
    case Opening => 3 + (if round < rounds then rounds - round else 0)
    case Rebuttal => 3 + (if round < rounds then rounds - round else 0)
    case Synthesis => 2
    case Final => 1
    case _ => 0
  }

  /**
   * The phase and round reached by following each command's own message
   * until no command is left.
   */
  function Settle(phase: Phase, round: int, rounds: int, done: Phase): (Phase, int)
    decreases Remaining(round, rounds, done)
  {
    var (p, r, cmd) := Advance(round, rounds, done);
    var next := Reported(cmd);
    if done == Setup || done == Complete then (phase, round)
    else if next.None? then (p, r)
    else Settle(p, r, rounds, next.value)
  }

  /**
   * Once the opening completes, the screen's own round commands carry the
   * debate through every rebuttal round to completion, ending on the
   * configured round count (or the current round, if later).
   */
  lemma {:induction false} OpeningSettles(phase: Phase, round: int, rounds: int, done: Phase)
    requires done == Opening || done == Rebuttal
    ensures Settle(phase, round, rounds, done) == (Complete, if round < rounds then rounds else round)
    decreases Remaining(round, rounds, done)
  {
    if round < rounds {
      assert Settle(phase, round, rounds, done) == Settle(Rebuttal, round + 1, rounds, Rebuttal);
      OpeningSettles(Rebuttal, round + 1, rounds, Rebuttal);
    } else {
      assert Settle(Final, round, rounds, Final) == (Complete, round);
      assert Settle(Synthesis, round, rounds, Synthesis) == Settle(Final, round, rounds, Final);
      assert Settle(phase, round, rounds, done) == Settle(Synthesis, round, rounds, Synthesis);
    }
  }

  // ---------------------------------------------------------------------
  // The scroll window of a panel

  /**
   * renderPanel's window over a panel's lines: at least one line fits;
   * the window starts at the scroll position, pulled back so that the last
   * page is full, and shows as many lines as fit.
   */
  function PanelWindow(lineCount: nat, scrollPos: nat, height: int): (w: (int, int))
    ensures var maxLines := if height - 4 < 1 then 1 else height - 4;
            && maxLines >= 1
            && 0 <= w.0 <= w.1 <= lineCount && w.1 - w.0 <= maxLines
            && w.1 - w.0 == (if lineCount < maxLines then lineCount else maxLines)
            && w.0 == (if scrollPos <= lineCount - maxLines then scrollPos
                       else if lineCount - maxLines > 0 then lineCount - maxLines else 0)
  {
    var maxLines := if height - 4 < 1 then 1 else height - 4;
    var start := if scrollPos > lineCount - maxLines then (if 0 > lineCount - maxLines then 0 else lineCount - maxLines)
                 else scrollPos;
    var end := if start + maxLines < lineCount then start + maxLines else lineCount;
    (start, end)
  }

  // ---------------------------------------------------------------------
  // The screen

  /** Everything an update can change, as one value. */
  datatype Screen = Screen(viewMode: ViewMode, phase: Phase, round: int, focusedPanel: int,
                           width: int, height: int, ready: bool, quitting: bool, err: Option<string>,
                           panels: seq<Panel>)

  /** tui.Model (the spinner, clocks and cancel function are left out). */
  class TuiModel {
    const options: Options
    var viewMode: ViewMode
    var phase: Phase
    var round: int
    var focusedPanel: int
    var width: int
    var height: int
    var ready: bool
    var quitting: bool
    var err: Option<string>
    var panels: seq<Panel>

    function Snapshot(): Screen
      reads this
    {
      Screen(viewMode, phase, round, focusedPanel, width, height, ready, quitting, err, panels)
    }

    /**
     * The panels stay one per member, in roster order, never scrolled
     * above the top, and the focus stays on a panel (or at 0 when there
     * are none).
     */
    predicate Valid()
      reads this
    {
      && |panels| == |options.members|
      && (forall i | 0 <= i < |panels| :: panels[i].aiId == options.members[i] && panels[i].scrollPos >= 0)
      && 0 <= focusedPanel && (focusedPanel < |panels| || focusedPanel == 0)
    }

    /**
     * NewModel: one panel per member, in roster order, named by the
     * configured display name or else the ID; grid view, setup phase,
     * round 0, focus on the first panel.
     */
    constructor (opts: Options, models: map<string, Config.ModelConfig>)
      ensures Valid() && options == opts
      ensures viewMode == Grid && phase == Setup && round == 0 && focusedPanel == 0
      ensures !ready && !quitting && err == None && width == 0 && height == 0
      ensures forall i | 0 <= i < |panels| ::
                var m := opts.members[i];
                panels[i] == Panel(m, if m in models && models[m].displayName != "" then models[m].displayName else m,
                                   "", false, false, None, 0)
    {
      options := opts;
      var ps: seq<Panel> := [];
      var i := 0;
      while i < |opts.members|
        invariant 0 <= i <= |opts.members| && |ps| == i
        invariant forall j | 0 <= j < i ::
                    var m := opts.members[j];
                    ps[j] == Panel(m, if m in models && models[m].displayName != "" then models[m].displayName else m,
                                   "", false, false, None, 0)
      {
        var member := opts.members[i];
        var displayName := member;
        if member in models && models[member].displayName != "" {
          displayName := models[member].displayName;
        }
        ps := ps + [Panel(member, displayName, "", false, false, None, 0)];
        i := i + 1;
      }
      viewMode := Grid;
      phase := Setup;
      round := 0;
      focusedPanel := 0;
      width := 0;
      height := 0;
      ready := false;
      quitting := false;
      err := None;
      panels := ps;
    }

    /**
     * A key press. q and ctrl+c quit; tab and shift+tab cycle the focus;
     * h/l move it within the panels; j/k scroll the focused panel, never
     * above the top; enter, f, t and g switch views. With no panels, tab,
     * shift+tab, j and k panic (a division by zero, an index out of range)
     * and nothing changes.
     */
    method HandleKey(key: string) returns (cmd: Cmd)
      requires Valid()
      modifies this
      ensures Valid()
      ensures KeyOf(key) == QuitKey ==> cmd == QuitCmd && Snapshot() == old(Snapshot()).(quitting := true)
      ensures (KeyOf(key) == NextKey || KeyOf(key) == PrevKey) && |panels| == 0 ==>
                cmd == Crash("integer divide by zero") && Snapshot() == old(Snapshot())
      ensures KeyOf(key) == NextKey && |panels| > 0 ==>
                cmd == NoCmd && Snapshot() == old(Snapshot()).(focusedPanel := NextFocus(old(focusedPanel), |panels|))
      ensures KeyOf(key) == PrevKey && |panels| > 0 ==>
                cmd == NoCmd && Snapshot() == old(Snapshot()).(focusedPanel := PrevFocus(old(focusedPanel), |panels|))
      ensures KeyOf(key) == LeftKey ==>
                cmd == NoCmd && Snapshot() == old(Snapshot()).(focusedPanel := if old(focusedPanel) > 0 then old(focusedPanel) - 1 else old(focusedPanel))
      ensures KeyOf(key) == RightKey ==>
                cmd == NoCmd
                && Snapshot() == old(Snapshot()).(focusedPanel := if old(focusedPanel) < |panels| - 1 then old(focusedPanel) + 1 else old(focusedPanel))
      ensures (KeyOf(key) == DownKey || KeyOf(key) == UpKey) && |panels| == 0 ==>
                cmd == Crash("index out of range") && Snapshot() == old(Snapshot())
      ensures KeyOf(key) == DownKey && |panels| > 0 ==>
                var f := old(focusedPanel);
                cmd == NoCmd && Snapshot() == old(Snapshot()).(panels := old(panels)[f := old(panels)[f].(scrollPos := old(panels)[f].scrollPos + 1)])
      ensures KeyOf(key) == UpKey && |panels| > 0 ==>
                var f := old(focusedPanel);
                var p := old(panels)[f];
                cmd == NoCmd && Snapshot() == old(Snapshot()).(panels := old(panels)[f := p.(scrollPos := if p.scrollPos > 0 then p.scrollPos - 1 else 0)])
      ensures KeyOf(key) == ViewKey ==> cmd == NoCmd && Snapshot() == old(Snapshot()).(viewMode := ViewAfter(old(viewMode), key))
      ensures KeyOf(key) == OtherKey ==> cmd == NoCmd && Snapshot() == old(Snapshot())
    {
      match KeyOf(key) {
        case QuitKey =>
          quitting := true;
          cmd := QuitCmd;
        case NextKey =>
          cmd := CycleFocus(true);
        case PrevKey =>
          cmd := CycleFocus(false);
        case LeftKey =>
          MoveFocus(false);
          cmd := NoCmd;
        case RightKey =>
          MoveFocus(true);
          cmd := NoCmd;
        case DownKey =>
          cmd := Scroll(true);
        case UpKey =>
          cmd := Scroll(false);
        case ViewKey =>
          SwitchView(key);
          cmd := NoCmd;
        case OtherKey =>
          cmd := NoCmd;
      }
    }

    /** tab (forward) and shift+tab: the focus wraps round the panels; with none, a division by zero. */
    method CycleFocus(forward: bool) returns (cmd: Cmd)
      requires Valid()
      modifies this
      ensures Valid()
      ensures |panels| == 0 ==> cmd == Crash("integer divide by zero") && Snapshot() == old(Snapshot())
      ensures |panels| > 0 ==>
                cmd == NoCmd
                && Snapshot() == old(Snapshot()).(focusedPanel := if forward then NextFocus(old(focusedPanel), |panels|)
                                                                  else PrevFocus(old(focusedPanel), |panels|))
    {
      if |panels| == 0 {
        cmd := Crash("integer divide by zero");
      } else if forward {
        focusedPanel := (focusedPanel + 1) % |panels|;
        cmd := NoCmd;
      } else {
        focusedPanel := (focusedPanel - 1 + |panels|) % |panels|;
        cmd := NoCmd;
      }
    }

    /** h/left and l/right: one panel along, stopping at either end. */
    method MoveFocus(right: bool)
      requires Valid()
      modifies this
      ensures Valid()
      ensures !right ==> Snapshot() == old(Snapshot()).(focusedPanel := if old(focusedPanel) > 0 then old(focusedPanel) - 1 else old(focusedPanel))
      ensures right ==> Snapshot() == old(Snapshot()).(focusedPanel := if old(focusedPanel) < |panels| - 1 then old(focusedPanel) + 1 else old(focusedPanel))
    {
      if !right && focusedPanel > 0 {
        focusedPanel := focusedPanel - 1;
      } else if right && focusedPanel < |panels| - 1 {
        focusedPanel := focusedPanel + 1;
      }
    }

    /** j/down and k/up: scroll the focused panel, never above the top; with no panels, an index out of range. */
    method Scroll(down: bool) returns (cmd: Cmd)
      requires Valid()
      modifies this
      ensures Valid()
      ensures |panels| == 0 ==> cmd == Crash("index out of range") && Snapshot() == old(Snapshot())
      ensures |panels| > 0 ==>
                var f := old(focusedPanel);
                var p := old(panels)[f];
                cmd == NoCmd
                && Snapshot() == old(Snapshot()).(panels := old(panels)[f := p.(scrollPos := if down then p.scrollPos + 1
                                                                                else if p.scrollPos > 0 then p.scrollPos - 1 else 0)])
    {
      cmd := NoCmd;
      if |panels| == 0 {
        cmd := Crash("index out of range");
      } else {
        var p := panels[focusedPanel];
        if down {
          panels := panels[focusedPanel := p.(scrollPos := p.scrollPos + 1)];
        } else if p.scrollPos > 0 {
          panels := panels[focusedPanel := p.(scrollPos := p.scrollPos - 1)];
        }
      }
    }

    /** enter/f, t and g switch views; any other key changes nothing. */
    method SwitchView(key: string)
      requires Valid()
      modifies this
      ensures Valid()
      ensures Snapshot() == old(Snapshot()).(viewMode := ViewAfter(old(viewMode), key))
    {
      if key == "enter" || key == "f" {
        viewMode := if viewMode == Focus then Grid else Focus;
      } else if key == "t" {
        viewMode := if viewMode == Transcript then Grid else Transcript;
      } else if key == "g" {
        viewMode := Grid;
      }
    }

    /** WindowSizeMsg: the new size, and the screen is ready. */
    method Resize(w: int, h: int)
      requires Valid()
      modifies this
      ensures Valid()
      ensures Snapshot() == old(Snapshot()).(width := w, height := h, ready := true)
    {
      width := w;
      height := h;
      ready := true;
    }

    /** StreamChunkMsg: the first panel of the chunk's AI takes the chunk; no other panel changes. */
    method OnStreamChunk(msg: ChunkMsg)
      requires Valid()
      modifies this
      ensures Valid()
      ensures Snapshot() == old(Snapshot()).(panels := ApplyChunk(old(panels), msg))
    {
      var i := 0;
      while i < |panels|
        invariant 0 <= i <= |panels| && panels == old(panels)
        invariant forall j | 0 <= j < i :: panels[j].aiId != msg.aiId
      {
        if panels[i].aiId == msg.aiId {
          var p := panels[i];
          if msg.error.Some? {
            p := p.(error := msg.error, streaming := false, done := true);
          } else if msg.done {
            p := p.(streaming := false, done := true);
          } else {
            p := p.(content := p.content + msg.content);
          }
          assert FirstPanel(panels, msg.aiId) == i;
          panels := panels[i := p];
          return;
        }
        i := i + 1;
      }
      assert FirstPanel(panels, msg.aiId) == -1;
    }

    /** PhaseCompleteMsg: the phase and round move on as Advance says, and the next round's command is issued. */
    method OnPhaseComplete(done: Phase) returns (cmd: Cmd)
      requires Valid()
      modifies this
      ensures Valid()
      ensures var (p, r, c) := Advance(old(round), options.rounds, done);
              && cmd == c
              && Snapshot() == (if done == Setup || done == Complete then old(Snapshot())
                                else old(Snapshot()).(phase := if done == Rebuttal && c == RunRebuttal then old(phase) else p, round := r))
    {
      cmd := NoCmd;
      match done {
        case Opening =>
          if round < options.rounds {
            phase := Rebuttal;
            round := round + 1;
            cmd := RunRebuttal;
          } else {
            phase := Synthesis;
            cmd := RunSynthesis;
          }
        case Rebuttal =>
          if round < options.rounds {
            round := round + 1;
            cmd := RunRebuttal;
          } else {
            phase := Synthesis;
            cmd := RunSynthesis;
          }
        case Synthesis =>
          phase := Final;
          cmd := RunFinal;
        case Final =>
          phase := Complete;
        case _ =>
      }
    }

    /** DebateCompleteMsg: the debate is complete. */
    method OnDebateComplete()
      requires Valid()
      modifies this
      ensures Valid()
      ensures Snapshot() == old(Snapshot()).(phase := Complete)
    {
      phase := Complete;
    }

    /** ErrorMsg: the error is kept for display. */
    method OnError(e: string)
      requires Valid()
      modifies this
      ensures Valid()
      ensures Snapshot() == old(Snapshot()).(err := Some(e))
    {
      err := Some(e);
    }
  }
}
