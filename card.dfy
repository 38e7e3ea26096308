/**
 * Kanban cards: the four board columns, the card record the board mutates in
 * place, the status and border precedence used when a card is drawn, and the
 * byte-level truncation helpers used by the card renderer.
 */
module Cards {
  import opened Text
  import opened Results

  datatype Column = Backlog | InProgress | Review | Done
  {
    /** The number Go assigns to the column (declaration order from 0). */
    function Code(): (c: int)
      ensures 0 <= c <= 3
    {
      match this
      case Backlog => 0
      case InProgress => 1
      case Review => 2
      case Done => 3
    }
  }

  /** Column.String for any number: the column title, or "Unknown". */
  function ColumnName(code: int): (r: string)
    ensures r == "Unknown" <==> !(0 <= code <= 3)
  {
    if code == 0 then "Backlog"
    else if code == 1 then "In Progress"
    else if code == 2 then "Review"
    else if code == 3 then "Done"
    else "Unknown"
  }

  /** The four columns have four distinct titles. */
  lemma ColumnNamesDistinct(a: Column, b: Column)
    requires a != b
    ensures ColumnName(a.Code()) != ColumnName(b.Code())
  {
  }

  /** The status line drawn on a card. */
  datatype StatusLabel = ErrorLabel | BlockedLabel | WaitingOnYou | ProgressBar | DoneLabel | NoStatus

  /** The border colour drawn around a card. */
  datatype BorderColor = ActiveBorder | ErrorBorder | WarningBorder | AssigneeBorder | PrimaryBorder
                       | SuccessBorder | PlainBorder

  /** The mutable part of a card, as one value. */
  datatype CardData = CardData(
    title: string, description: string, assignedTo: string, column: Column,
    isBlocking: bool, isUserTask: bool, streamBuf: string, fullHistory: string,
    progress: real, dependsOn: seq<string>, blockedBy: seq<string>, done: bool,
    error: Option<string>)

  /** A task card. Its identity is the object; `id` is the task ID it shows. */
  class KanbanCard {
    const id: string
    var title: string
    var description: string
    var assignedTo: string
    var column: Column
    var isBlocking: bool
    var isUserTask: bool
    var streamBuf: string
    var fullHistory: string
    var progress: real
    var dependsOn: seq<string>
    var blockedBy: seq<string>
    var done: bool
    var error: Option<string>

    /** NewKanbanCard */
    constructor (id: string, title: string, assignedTo: string)
      ensures this.id == id && this.title == title && this.assignedTo == assignedTo
      ensures column == Backlog
      ensures isUserTask <==> assignedTo == "user"
      ensures description == "" && !isBlocking && streamBuf == "" && fullHistory == ""
      ensures progress == 0.0 && dependsOn == [] && blockedBy == [] && !done && error == None
    {
      this.id := id;
      this.title := title;
      this.description := "";
      this.assignedTo := assignedTo;
      this.column := Backlog;
      this.isBlocking := false;
      this.isUserTask := assignedTo == "user";
      this.streamBuf := "";
      this.fullHistory := "";
      this.progress := 0.0;
      this.dependsOn := [];
      this.blockedBy := [];
      this.done := false;
      this.error := None;
    }

    function Data(): CardData
      reads this
    {
      CardData(title, description, assignedTo, column, isBlocking, isUserTask, streamBuf,
               fullHistory, progress, dependsOn, blockedBy, done, error)
    }

    predicate IsBlocked()
      reads this
    {
      |blockedBy| > 0
    }

    /** The status line, by precedence: error, blocked, user card in progress, progress bar, done. */
    function Status(): (s: StatusLabel)
      reads this
      ensures s == ErrorLabel <==> error.Some?
      ensures s == BlockedLabel <==> error.None? && |blockedBy| > 0
      ensures s == WaitingOnYou <==> error.None? && |blockedBy| == 0 && column == InProgress && isUserTask
      ensures s == ProgressBar <==> error.None? && |blockedBy| == 0 && column == InProgress && !isUserTask
      ensures s == DoneLabel <==> error.None? && |blockedBy| == 0 && column == Done
    {
      if error.Some? then ErrorLabel
      else if IsBlocked() then BlockedLabel
      else if column == InProgress && isUserTask then WaitingOnYou
      else if column == InProgress then ProgressBar
      else if column == Done then DoneLabel
      else NoStatus
    }

    /** The border colour, by precedence: selected, error, blocked, user in progress, in progress, review, done. */
    function Border(selected: bool): (b: BorderColor)
      reads this
      ensures selected <==> b == ActiveBorder
      ensures b == ErrorBorder <==> !selected && (error.Some? || |blockedBy| > 0)
      ensures b == WarningBorder <==> !selected && error.None? && |blockedBy| == 0
                                      && isUserTask && column == InProgress
      ensures b == AssigneeBorder <==> !selected && error.None? && |blockedBy| == 0
                                       && !isUserTask && column == InProgress
      ensures b == PrimaryBorder <==> !selected && error.None? && |blockedBy| == 0 && column == Review
      ensures b == SuccessBorder <==> !selected && error.None? && |blockedBy| == 0 && column == Done
    {
      if selected then ActiveBorder
      else if error.Some? then ErrorBorder
      else if IsBlocked() then ErrorBorder
      else if isUserTask && column == InProgress then WarningBorder
      else if column == InProgress then AssigneeBorder
      else if column == Review then PrimaryBorder
      else if column == Done then SuccessBorder
      else PlainBorder
    }

    /** The stream preview drawn under an unselected card of the given size. */
    function PreviewText(width: int, maxLines: int): (r: string)
      reads this
      requires width >= 7
    {
      Preview(column, streamBuf, maxLines, width)
    }
  }

  /**
   * An unselected card's border and status line tell the same story: red
   * exactly for errors and blocks, amber exactly while a user task is in
   * progress, green exactly for done cards.
   */
  lemma BorderMatchesStatus(c: KanbanCard)
    ensures c.Border(false) == ErrorBorder <==> c.Status() in {ErrorLabel, BlockedLabel}
    ensures c.Border(false) == WarningBorder <==> c.Status() == WaitingOnYou
    ensures c.Border(false) == AssigneeBorder <==> c.Status() == ProgressBar
    ensures c.Border(false) == SuccessBorder <==> c.Status() == DoneLabel
  {
  }

  /** truncateString: at most `maxLen` bytes, marked with "..." when there is room. */
  function TruncateString(s: string, maxLen: int): (r: string)
    requires maxLen >= 0
    ensures |s| <= maxLen ==> r == s
    ensures |s| > maxLen ==> |r| == maxLen
    ensures |s| > maxLen && maxLen <= 3 ==> r == s[..maxLen]
    ensures |s| > maxLen && maxLen > 3 ==> r[..maxLen - 3] == s[..maxLen - 3] && r[maxLen - 3..] == "..."
  {
    if |s| <= maxLen then s
    else if maxLen <= 3 then s[..maxLen]
    else s[..maxLen - 3] + "..."
  }

  /** Truncating twice to the same width is the same as truncating once. */
  lemma TruncateStringIdempotent(s: string, maxLen: int)
    requires maxLen >= 0
    ensures TruncateString(TruncateString(s, maxLen), maxLen) == TruncateString(s, maxLen)
  {
  }

  /** One line as truncateLines leaves it. */
  function TruncateLine(line: string, maxWidth: int): (r: string)
    requires maxWidth >= 3
  {
    if |line| > maxWidth then line[..maxWidth - 3] + "..." else line
  }

  /** The lines of `s`, each truncated to `maxWidth`. */
  function TruncatedLineList(s: string, maxWidth: int): (r: seq<string>)
    requires maxWidth >= 3
    ensures |r| == |Split(s, '\n')|
    ensures forall i | 0 <= i < |r| :: r[i] == TruncateLine(Split(s, '\n')[i], maxWidth)
  {
    var lines := Split(s, '\n');
    seq(|lines|, i requires 0 <= i < |lines| => TruncateLine(lines[i], maxWidth))
  }

  /** The value truncateLines computes. */
  function TruncatedLines(s: string, maxWidth: int): string
    requires maxWidth >= 3
  {
    Join(TruncatedLineList(s, maxWidth), "\n")
  }

  /** Truncated lines never contain a line break, so splitting the result recovers them. */
  lemma SplitTruncatedLines(s: string, maxWidth: int)
    requires maxWidth >= 3
    ensures Split(TruncatedLines(s, maxWidth), '\n') == TruncatedLineList(s, maxWidth)
  {
    var lines := TruncatedLineList(s, maxWidth);
    var inp := Split(s, '\n');
    forall p | p in lines
      ensures '\n' !in p
    {
      var i :| 0 <= i < |lines| && lines[i] == p;
      assert inp[i] in inp;
      assert p == inp[i] || p == inp[i][..maxWidth - 3] + "...";
    }
    SplitJoin(lines, '\n');
  }

  /**
   * truncateLines keeps the number of lines; a line no longer than the width
   * is kept, a longer one becomes exactly `maxWidth` bytes ending in "...".
   */
  lemma TruncatedLinesShape(s: string, maxWidth: int)
    requires maxWidth >= 3
    ensures var inp := Split(s, '\n');
            var out := Split(TruncatedLines(s, maxWidth), '\n');
            |out| == |inp|
            && (forall i | 0 <= i < |inp| && |inp[i]| <= maxWidth :: out[i] == inp[i])
            && (forall i | 0 <= i < |inp| && |inp[i]| > maxWidth ::
                  |out[i]| == maxWidth && out[i][maxWidth - 3..] == "..."
                  && out[i][..maxWidth - 3] == inp[i][..maxWidth - 3])
  {
    SplitTruncatedLines(s, maxWidth);
  }

  /** truncateLines, rewriting the line slice in place. */
  method TruncateLines(s: string, maxWidth: int) returns (r: string)
    requires maxWidth >= 3
    ensures r == TruncatedLines(s, maxWidth)
  {
    ghost var original := Split(s, '\n');
    var lines := Split(s, '\n');
    var i := 0;
    while i < |lines|
      invariant 0 <= i <= |lines| == |original|
      invariant forall k | 0 <= k < i :: lines[k] == TruncateLine(original[k], maxWidth)
      invariant forall k | i <= k < |lines| :: lines[k] == original[k]
    {
      if |lines[i]| > maxWidth {
        lines := lines[i := lines[i][..maxWidth - 3] + "..."];
      }
      i := i + 1;
    }
    assert lines == TruncatedLineList(s, maxWidth);
    r := Join(lines, "\n");
  }

  /** The last `n` elements of `s` (all of them when there are fewer). */
  function LastN<T>(s: seq<T>, n: nat): (r: seq<T>)
    ensures |r| == if |s| > n then n else |s|
  {
    if |s| > n then s[|s| - n..] else s
  }

  /**
   * The stream preview of a card: only for an in-progress card with a
   * non-empty buffer, the last maxLines-4 lines, each cut to width-4.
   */
  function Preview(column: Column, buf: string, maxLines: int, width: int): string
    requires width >= 7
  {
    if column == InProgress && |buf| > 0 && maxLines - 4 > 0 then
      TruncatedLines(Join(LastN(Split(buf, '\n'), maxLines - 4), "\n"), width - 4)
    else ""
  }

  /**
   * A preview exists only for an in-progress card with a non-empty buffer and
   * room for it; it then shows the last min(lines, maxLines-4) buffer lines,
   * each truncated to width-4.
   */
  lemma {:induction false} PreviewShape(column: Column, buf: string, maxLines: int, width: int)
    requires width >= 7
    ensures Preview(column, buf, maxLines, width) != "" ==> column == InProgress && |buf| > 0 && maxLines > 4
    ensures column == InProgress && |buf| > 0 && maxLines > 4 ==>
              var lines := Split(buf, '\n');
              var shown := Split(Preview(column, buf, maxLines, width), '\n');
              var kept := if |lines| > maxLines - 4 then maxLines - 4 else |lines|;
              |shown| == kept
              && forall i | 0 <= i < kept ::
                   shown[i] == TruncateLine(lines[|lines| - kept + i], width - 4)
  {
    if column == InProgress && |buf| > 0 && maxLines > 4 {
      var lines := Split(buf, '\n');
      var kept := LastN(lines, maxLines - 4);
      assert forall p | p in kept :: p in lines;
      SplitJoin(kept, '\n');
      SplitTruncatedLines(Join(kept, "\n"), width - 4);
    }
  }
}
