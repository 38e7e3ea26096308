/**
 * The runner behind the debate screen: it walks the council through the
 * opening, the rebuttal rounds, the synthesis and the final verdict,
 * streams each member's answer, and sends the screen one message per
 * step. The screen program is the list of messages sent; the model calls
 * go through the model port, one streamed call per member per phase.
 */
module TuiRunner {
  import opened Results
  import opened Port
  import opened DebateTui
  import BaseProviders

  /**
   * What a streamed call asks for. The prompts ignore the member they are
   * built for, so one ask serves a whole phase; every call carries the
   * same fixed system prompt.
   */
  datatype TuiAsk =
    | OpeningAsk(topic: string, mode: string)
    | RebuttalAsk(topic: string, mode: string, round: int)
    | SynthesisAsk(topic: string)
    | FinalAsk(topic: string)

  // ---------------------------------------------------------------------
  // The messages of one stream

  /** An empty chunk: the start of a stream, and the reset a phase sends each panel. */
  function Blank(aiId: string): TuiMsg { StreamChunkMsg(ChunkMsg(aiId, "", false, None)) }
  function Piece(aiId: string, content: string): TuiMsg { StreamChunkMsg(ChunkMsg(aiId, content, false, None)) }
  function Finished(aiId: string): TuiMsg { StreamChunkMsg(ChunkMsg(aiId, "", true, None)) }
  function Broken(aiId: string, err: string): TuiMsg { StreamChunkMsg(ChunkMsg(aiId, "", true, Some(err))) }

  /**
   * The messages the chunks of an open stream give: an error chunk gives
   * an error message and stops; otherwise non-empty content is forwarded,
   * and a done chunk, or the end of the stream, gives the done message.
   */
  function Forward(aiId: string, chunks: seq<StreamChunk>): seq<TuiMsg>
    decreases |chunks|
  {
    if |chunks| == 0 then [Finished(aiId)]
    else if chunks[0].error.Some? then [Broken(aiId, chunks[0].error.value)]
    else
      (if chunks[0].content != "" then [Piece(aiId, chunks[0].content)] else [])
      + (if chunks[0].done then [Finished(aiId)] else Forward(aiId, chunks[1..]))
  }

  /** What Forward gives from chunk i on, in terms of chunk i and what follows it. */
  lemma ForwardAt(aiId: string, chunks: seq<StreamChunk>, i: nat)
    requires i < |chunks|
    ensures var c := chunks[i];
            Forward(aiId, chunks[i..])
              == if c.error.Some? then [Broken(aiId, c.error.value)]
                 else (if c.content != "" then [Piece(aiId, c.content)] else [])
                      + (if c.done then [Finished(aiId)] else Forward(aiId, chunks[i + 1..]))
  {
    assert chunks[i..][0] == chunks[i] && chunks[i..][1..] == chunks[i + 1..];
  }

  /** streamAI: the start message, then the error of a stream that fails to open, or what its chunks give. */
  function StreamMsgs(aiId: string, reply: StreamReply): seq<TuiMsg>
  {
    [Blank(aiId)] + match reply
                    case StreamFailed(e) => [Broken(aiId, e)]
                    case StreamOpened(chunks) => Forward(aiId, chunks)
  }

  /**
   * The shape the screen sees for one stream: every message is a chunk of
   * the AI; the first is the empty start; the last, and only the last, is
   * done, and it carries no text; an error appears only on that last
   * message; everything in between carries text.
   */
  predicate StreamShaped(aiId: string, m: seq<TuiMsg>)
  {
    && |m| >= 2
    && m[0] == Blank(aiId)
    && (forall j | 0 <= j < |m| :: m[j].StreamChunkMsg? && m[j].chunk.aiId == aiId)
    && (forall j | 0 <= j < |m| - 1 :: !m[j].chunk.done && m[j].chunk.error.None?)
    && m[|m| - 1].chunk.done && m[|m| - 1].chunk.content == ""
    && (forall j | 0 < j < |m| - 1 :: m[j].chunk.content != "")
  }

  /** The messages an open stream gives end with the one done message, and carry text before it. */
  lemma {:induction false} ForwardShape(aiId: string, chunks: seq<StreamChunk>)
    ensures var f := Forward(aiId, chunks);
            && |f| >= 1
            && (forall j | 0 <= j < |f| :: f[j].StreamChunkMsg? && f[j].chunk.aiId == aiId)
            && (forall j | 0 <= j < |f| - 1 :: !f[j].chunk.done && f[j].chunk.error.None? && f[j].chunk.content != "")
            && f[|f| - 1].chunk.done && f[|f| - 1].chunk.content == ""
    decreases |chunks|
  {
    if |chunks| > 0 && chunks[0].error.None? && !chunks[0].done {
      ForwardShape(aiId, chunks[1..]);
    }
  }

  /** Every stream, opened or not, reaches the screen in that shape. */
  lemma StreamShape(aiId: string, reply: StreamReply)
    ensures StreamShaped(aiId, StreamMsgs(aiId, reply))
  {
    if reply.StreamOpened? {
      ForwardShape(aiId, reply.chunks);
    }
  }

  /** Nothing after a done or error chunk reaches the screen. */
  lemma {:induction false} ForwardStops(aiId: string, chunks: seq<StreamChunk>, k: nat)
    requires k < |chunks| && BaseProviders.Terminal(chunks[k])
    ensures Forward(aiId, chunks) == Forward(aiId, chunks[..k + 1])
    decreases k
  {
    if !BaseProviders.Terminal(chunks[0]) {
      ForwardStops(aiId, chunks[1..], k - 1);
      assert chunks[..k + 1][1..] == chunks[1..][..k];
    }
  }

  /**
   * What a stream leaves in a panel: the text of its chunks up to the
   * first done or error chunk (a done chunk's own text included, an error
   * chunk's not), and the error that stopped it, if any.
   */
  function Delivered(chunks: seq<StreamChunk>): (string, Option<string>)
    decreases |chunks|
  {
    if |chunks| == 0 then ("", None)
    else if chunks[0].error.Some? then ("", chunks[0].error)
    else if chunks[0].done then (chunks[0].content, None)
    else (chunks[0].content + Delivered(chunks[1..]).0, Delivered(chunks[1..]).1)
  }

  /** A panel after the chunk messages of a list; other messages pass it by. */
  function Received(p: Panel, m: seq<TuiMsg>): Panel
    decreases |m|
  {
    if |m| == 0 then p
    else Received(if m[0].StreamChunkMsg? then Updated(p, m[0].chunk) else p, m[1..])
  }

  lemma {:induction false} ReceivedAppend(p: Panel, a: seq<TuiMsg>, b: seq<TuiMsg>)
    ensures Received(p, a + b) == Received(Received(p, a), b)
    decreases |a|
  {
    if |a| == 0 {
      assert a + b == b;
    } else {
      assert (a + b)[0] == a[0] && (a + b)[1..] == a[1..] + b;
      ReceivedAppend(if a[0].StreamChunkMsg? then Updated(p, a[0].chunk) else p, a[1..], b);
    }
  }

  lemma ReceivedOne(p: Panel, m: TuiMsg)
    ensures Received(p, [m]) == if m.StreamChunkMsg? then Updated(p, m.chunk) else p
  {
    assert [m][1..] == [];
  }

  /** A chunk's own messages: its text, if any, then the done message when it is the done chunk. */
  lemma ChunkStep(p: Panel, aiId: string, c: StreamChunk, rest: seq<TuiMsg>)
    requires c.error.None?
    ensures var head := if c.content != "" then [Piece(aiId, c.content)] else [];
            Received(p, head + rest) == Received(p.(content := p.content + c.content), rest)
  {
    var head := if c.content != "" then [Piece(aiId, c.content)] else [];
    ReceivedAppend(p, head, rest);
    if c.content != "" {
      ReceivedOne(p, Piece(aiId, c.content));
    } else {
      assert p.content + c.content == p.content;
    }
  }

  /** What a panel looks like after a stream that delivered `text` and stopped with `err`. */
  function Filled(p: Panel, text: string, err: Option<string>): Panel
  {
    p.(content := p.content + text, streaming := false, done := true, error := if err.Some? then err else p.error)
  }

  /** The stream's last step: its end, an error chunk or the done chunk. */
  lemma FillsEnd(p: Panel, aiId: string, chunks: seq<StreamChunk>)
    requires |chunks| == 0 || chunks[0].error.Some? || chunks[0].done
    ensures Received(p, Forward(aiId, chunks)) == Filled(p, Delivered(chunks).0, Delivered(chunks).1)
  {
    if |chunks| == 0 {
      ReceivedOne(p, Finished(aiId));
      assert p.content + "" == p.content;
    } else if chunks[0].error.Some? {
      ReceivedOne(p, Broken(aiId, chunks[0].error.value));
      assert p.content + "" == p.content;
    } else {
      var c := chunks[0];
      ChunkStep(p, aiId, c, [Finished(aiId)]);
      ReceivedOne(p.(content := p.content + c.content), Finished(aiId));
    }
  }

  /**
   * The screen side of an open stream: the panel gains exactly the text
   * delivered, ends done and no longer streaming, and shows the error
   * that stopped the stream, if one did.
   */
  lemma {:induction false} ForwardFills(p: Panel, aiId: string, chunks: seq<StreamChunk>)
    ensures Received(p, Forward(aiId, chunks)) == Filled(p, Delivered(chunks).0, Delivered(chunks).1)
    decreases |chunks|
  {
    if |chunks| == 0 || chunks[0].error.Some? || chunks[0].done {
      FillsEnd(p, aiId, chunks);
    } else {
      var c := chunks[0];
      var q := p.(content := p.content + c.content);
      ChunkStep(p, aiId, c, Forward(aiId, chunks[1..]));
      ForwardFills(q, aiId, chunks[1..]);
      assert q.content + Delivered(chunks[1..]).0 == p.content + (c.content + Delivered(chunks[1..]).0);
    }
  }

  /** The empty start and reset messages leave a panel as it was: a phase does not clear earlier text. */
  lemma BlankKeepsPanels(panels: seq<Panel>, aiId: string)
    ensures ApplyChunk(panels, Blank(aiId).chunk) == panels
  {
    var i := FirstPanel(panels, aiId);
    if i >= 0 {
      assert panels[i].content + "" == panels[i].content;
      assert Updated(panels[i], Blank(aiId).chunk) == panels[i];
    }
  }

  // ---------------------------------------------------------------------
  // Phases and the whole debate

  /** The calls a phase makes: one per member, in roster order. */
  function Asked(members: seq<string>, ask: TuiAsk): (calls: seq<(string, TuiAsk)>)
    ensures |calls| == |members|
    ensures forall j | 0 <= j < |members| :: calls[j] == (members[j], ask)
  {
    if |members| == 0 then [] else [(members[0], ask)] + Asked(members[1..], ask)
  }

  /** The reset message for every member, in roster order. */
  function Resets(members: seq<string>): seq<TuiMsg>
  {
    if |members| == 0 then [] else [Blank(members[0])] + Resets(members[1..])
  }

  /** The streams of the members, in roster order, from call `k` on. */
  function Streams(members: seq<string>, so: StreamOracle, k: nat): seq<TuiMsg>
  {
    if |members| == 0 then [] else StreamMsgs(members[0], so(k)) + Streams(members[1..], so, k + 1)
  }

  /** runPhase: the resets, the streams, then the phase-complete message. */
  function PhaseMsgs(members: seq<string>, phase: Phase, so: StreamOracle, k: nat): seq<TuiMsg>
  {
    Resets(members) + Streams(members, so, k) + [PhaseCompleteMsg(phase)]
  }

  /** runFinalPhase's call: the first member gives the verdict; with no members there is none. */
  function FinalCalls(members: seq<string>, topic: string): seq<(string, TuiAsk)>
  {
    if |members| == 0 then [] else [(members[0], FinalAsk(topic))]
  }

  function FinalMsgs(members: seq<string>, so: StreamOracle, k: nat): seq<TuiMsg>
  {
    if |members| == 0 then [] else StreamMsgs(members[0], so(k)) + [PhaseCompleteMsg(Final)]
  }

  /** Rebuttal rounds still to run, from `round` on. */
  function RoundsLeft(opts: Options, round: int): nat
  {
    if round <= opts.rounds then opts.rounds - round + 1 else 0
  }

  /** The calls of the rebuttal rounds from `round` to the round count. */
  function RebuttalCalls(opts: Options, round: int): seq<(string, TuiAsk)>
    decreases RoundsLeft(opts, round)
  {
    if round > opts.rounds then []
    else Asked(opts.members, RebuttalAsk(opts.topic, opts.mode, round)) + RebuttalCalls(opts, round + 1)
  }

  /**
   * orchestrateDebate's calls: every member for the opening, for each
   * rebuttal round from 2 to the round count and for the synthesis, then
   * the first member for the verdict.
   */
  function DebateCalls(opts: Options): seq<(string, TuiAsk)>
  {
    Asked(opts.members, OpeningAsk(opts.topic, opts.mode)) + RebuttalCalls(opts, 2)
    + (Asked(opts.members, SynthesisAsk(opts.topic)) + FinalCalls(opts.members, opts.topic))
  }

  /** The messages of the rebuttal rounds from `round` on, the first of their calls being call `k`. */
  function RebuttalMsgs(opts: Options, round: int, so: StreamOracle, k: nat): seq<TuiMsg>
    decreases RoundsLeft(opts, round)
  {
    if round > opts.rounds then []
    else PhaseMsgs(opts.members, Rebuttal, so, k) + RebuttalMsgs(opts, round + 1, so, k + |opts.members|)
  }

  /** The synthesis, the verdict and the debate-complete message, the first of their calls being call `k`. */
  function ClosingMsgs(members: seq<string>, so: StreamOracle, k: nat): seq<TuiMsg>
  {
    PhaseMsgs(members, Synthesis, so, k) + FinalMsgs(members, so, k + |members|) + [DebateCompleteMsg]
  }

  /** Every message orchestrateDebate sends, its first call being call `k`. */
  function Orchestrated(opts: Options, so: StreamOracle, k: nat): seq<TuiMsg>
  {
    var r := k + |opts.members|;
    PhaseMsgs(opts.members, Opening, so, k) + RebuttalMsgs(opts, 2, so, r)
    + ClosingMsgs(opts.members, so, r + |RebuttalCalls(opts, 2)|)
  }

  /** The messages that are not stream chunks: the phase and debate signals, in order. */
  function Signals(m: seq<TuiMsg>): seq<TuiMsg>
  {
    if |m| == 0 then [] else (if m[0].StreamChunkMsg? then [] else [m[0]]) + Signals(m[1..])
  }

  function Repeat(msg: TuiMsg, n: nat): seq<TuiMsg>
  {
    if n == 0 then [] else [msg] + Repeat(msg, n - 1)
  }

  lemma {:induction false} SignalsAppend(a: seq<TuiMsg>, b: seq<TuiMsg>)
    ensures Signals(a + b) == Signals(a) + Signals(b)
    decreases |a|
  {
    if |a| == 0 {
      assert a + b == b;
    } else {
      assert (a + b)[0] == a[0] && (a + b)[1..] == a[1..] + b;
      SignalsAppend(a[1..], b);
    }
  }

  lemma {:induction false} ChunksOnly(m: seq<TuiMsg>)
    requires forall j | 0 <= j < |m| :: m[j].StreamChunkMsg?
    ensures Signals(m) == []
    decreases |m|
  {
    if |m| > 0 {
      ChunksOnly(m[1..]);
    }
  }

  lemma {:induction false} StreamsQuiet(members: seq<string>, so: StreamOracle, k: nat)
    ensures Signals(Resets(members)) == [] && Signals(Streams(members, so, k)) == []
    decreases |members|
  {
    if |members| > 0 {
      StreamsQuiet(members[1..], so, k + 1);
      StreamShape(members[0], so(k));
      ChunksOnly(StreamMsgs(members[0], so(k)));
      SignalsAppend([Blank(members[0])], Resets(members[1..]));
      SignalsAppend(StreamMsgs(members[0], so(k)), Streams(members[1..], so, k + 1));
    }
  }

  /** A phase signals only its own completion. */
  lemma PhaseSignals(members: seq<string>, phase: Phase, so: StreamOracle, k: nat)
    ensures Signals(PhaseMsgs(members, phase, so, k)) == [PhaseCompleteMsg(phase)]
  {
    StreamsQuiet(members, so, k);
    SignalsAppend(Resets(members), Streams(members, so, k));
    SignalsAppend(Resets(members) + Streams(members, so, k), [PhaseCompleteMsg(phase)]);
  }

  /** The signals of the synthesis, the verdict and the close. */
  function ClosingSignals(members: seq<string>): seq<TuiMsg>
  {
    [PhaseCompleteMsg(Synthesis)] + (if |members| == 0 then [] else [PhaseCompleteMsg(Final)]) + [DebateCompleteMsg]
  }

  lemma ClosingSignalled(members: seq<string>, so: StreamOracle, k: nat)
    ensures Signals(ClosingMsgs(members, so, k)) == ClosingSignals(members)
  {
    var fin := FinalMsgs(members, so, k + |members|);
    PhaseSignals(members, Synthesis, so, k);
    if |members| > 0 {
      var m := StreamMsgs(members[0], so(k + |members|));
      StreamShape(members[0], so(k + |members|));
      ChunksOnly(m);
      SignalsAppend(m, [PhaseCompleteMsg(Final)]);
    }
    SignalsAppend(PhaseMsgs(members, Synthesis, so, k), fin);
    SignalsAppend(PhaseMsgs(members, Synthesis, so, k) + fin, [DebateCompleteMsg]);
  }

  lemma {:induction false} RebuttalSignals(opts: Options, round: int, so: StreamOracle, k: nat)
    ensures Signals(RebuttalMsgs(opts, round, so, k)) == Repeat(PhaseCompleteMsg(Rebuttal), RoundsLeft(opts, round))
    decreases RoundsLeft(opts, round)
  {
    if round <= opts.rounds {
      var ms := opts.members;
      PhaseSignals(ms, Rebuttal, so, k);
      RebuttalSignals(opts, round + 1, so, k + |ms|);
      SignalsAppend(PhaseMsgs(ms, Rebuttal, so, k), RebuttalMsgs(opts, round + 1, so, k + |ms|));
    }
  }

  /**
   * The screen is told, in order: the opening is complete, one rebuttal
   * round per round from 2 to the round count, the synthesis, the final
   * verdict when there is a member to give it, and then that the debate
   * is complete.
   */
  lemma DebateSignals(opts: Options, so: StreamOracle, k: nat)
    ensures Signals(Orchestrated(opts, so, k))
            == [PhaseCompleteMsg(Opening)]
               + Repeat(PhaseCompleteMsg(Rebuttal), if opts.rounds >= 2 then opts.rounds - 1 else 0)
               + ClosingSignals(opts.members)
  {
    var r := k + |opts.members|;
    var opening := PhaseMsgs(opts.members, Opening, so, k);
    var rebuttals := RebuttalMsgs(opts, 2, so, r);
    PhaseSignals(opts.members, Opening, so, k);
    RebuttalSignals(opts, 2, so, r);
    ClosingSignalled(opts.members, so, r + |RebuttalCalls(opts, 2)|);
    SignalsAppend(opening, rebuttals);
    SignalsAppend(opening + rebuttals, ClosingMsgs(opts.members, so, r + |RebuttalCalls(opts, 2)|));
  }

  lemma {:induction false} RebuttalCallsToMembers(opts: Options, round: int)
    ensures forall j | 0 <= j < |RebuttalCalls(opts, round)| :: RebuttalCalls(opts, round)[j].0 in opts.members
    decreases RoundsLeft(opts, round)
  {
    if round <= opts.rounds {
      RebuttalCallsToMembers(opts, round + 1);
    }
  }

  /** Every call of the debate goes to a member. */
  lemma CallsToMembers(opts: Options)
    ensures forall j | 0 <= j < |DebateCalls(opts)| :: DebateCalls(opts)[j].0 in opts.members
  {
    RebuttalCallsToMembers(opts, 2);
  }

  /** The messages of the debate's phases, sent one phase after another, are the debate's messages. */
  lemma Orchestration(opts: Options, so: StreamOracle, k0: nat, k2: nat,
                      s0: seq<TuiMsg>, s1: seq<TuiMsg>, s2: seq<TuiMsg>, s3: seq<TuiMsg>, s4: seq<TuiMsg>)
    requires k2 == k0 + |opts.members| + |RebuttalCalls(opts, 2)|
    requires s1 == s0 + PhaseMsgs(opts.members, Opening, so, k0)
    requires s2 == s1 + RebuttalMsgs(opts, 2, so, k0 + |opts.members|)
    requires s3 == s2 + PhaseMsgs(opts.members, Synthesis, so, k2)
    requires s4 == s3 + FinalMsgs(opts.members, so, k2 + |opts.members|)
    ensures s4 + [DebateCompleteMsg] == s0 + Orchestrated(opts, so, k0)
  {
    Grouped(s0, s1, s2, s3, s4, PhaseMsgs(opts.members, Opening, so, k0), RebuttalMsgs(opts, 2, so, k0 + |opts.members|),
            PhaseMsgs(opts.members, Synthesis, so, k2), FinalMsgs(opts.members, so, k2 + |opts.members|), [DebateCompleteMsg]);
  }

  /** Five stretches appended one after another, grouped as the debate's phases group them. */
  lemma Grouped<T>(s0: seq<T>, s1: seq<T>, s2: seq<T>, s3: seq<T>, s4: seq<T>,
                   a: seq<T>, b: seq<T>, p: seq<T>, f: seq<T>, d: seq<T>)
    requires s1 == s0 + a && s2 == s1 + b && s3 == s2 + p && s4 == s3 + f
    ensures s4 + d == s0 + (a + b + (p + f + d))
  {
    AppendAssoc(a + b, p + f, d);
  }

  // ---------------------------------------------------------------------
  // The runner

  /** tui.Runner: the messages sent to the screen, and the port its calls go through. */
  class Runner {
    const port: ModelPort<TuiAsk>
    var sent: seq<TuiMsg>

    constructor (port: ModelPort<TuiAsk>)
      ensures this.port == port && sent == []
    {
      this.port := port;
      sent := [];
    }

    /** streamAI: one streamed call; the screen gets the stream's messages. */
    method StreamAI(aiId: string, ask: TuiAsk)
      modifies this, port
      ensures port.calls == old(port.calls) + [(aiId, ask)]
      ensures sent == old(sent) + StreamMsgs(aiId, port.stream(|old(port.calls)|))
    {
      sent := sent + [Blank(aiId)];
      var reply := port.Stream(aiId, ask);
      if reply.StreamFailed? {
        sent := sent + [Broken(aiId, reply.err)];
        return;
      }
      ForwardChunks(aiId, reply.chunks);
    }

    /** The chunk loop of streamAI: what each chunk gives the screen, up to an error or done chunk. */
    method ForwardChunks(aiId: string, chunks: seq<StreamChunk>)
      modifies this
      ensures sent == old(sent) + Forward(aiId, chunks)
    {
      ghost var whole := old(sent) + Forward(aiId, chunks);
      var i := 0;
      while i < |chunks|
        invariant 0 <= i <= |chunks|
        invariant sent + Forward(aiId, chunks[i..]) == whole
        modifies this
      {
        var c := chunks[i];
        ForwardAt(aiId, chunks, i);
        if c.error.Some? {
          sent := sent + [Broken(aiId, c.error.value)];
          return;
        }
        var head := if c.content != "" then [Piece(aiId, c.content)] else [];
        ghost var tail := if c.done then [Finished(aiId)] else Forward(aiId, chunks[i + 1..]);
        AppendAssoc(sent, head, tail);
        sent := sent + head;
        if c.done {
          sent := sent + [Finished(aiId)];
          return;
        }
        i := i + 1;
      }
      sent := sent + [Finished(aiId)];
    }

    /** The reset message for every member, in roster order. */
    method SendResets(members: seq<string>)
      modifies this
      ensures sent == old(sent) + Resets(members)
    {
      ghost var whole := sent + Resets(members);
      var i := 0;
      while i < |members|
        invariant 0 <= i <= |members|
        invariant sent + Resets(members[i..]) == whole
      {
        assert members[i..][0] == members[i] && members[i..][1..] == members[i + 1..];
        AppendAssoc(sent, [Blank(members[i])], Resets(members[i + 1..]));
        sent := sent + [Blank(members[i])];
        i := i + 1;
      }
    }

    /** One stream per member, in roster order. */
    method StreamAll(members: seq<string>, ask: TuiAsk)
      modifies this, port
      ensures port.calls == old(port.calls) + Asked(members, ask)
      ensures sent == old(sent) + Streams(members, port.stream, |old(port.calls)|)
    {
      ghost var k0 := |port.calls|;
      ghost var whole := sent + Streams(members, port.stream, k0);
      ghost var allCalls := port.calls + Asked(members, ask);
      var i := 0;
      while i < |members|
        invariant 0 <= i <= |members|
        invariant |port.calls| == k0 + i
        invariant port.calls + Asked(members[i..], ask) == allCalls
        invariant sent + Streams(members[i..], port.stream, k0 + i) == whole
      {
        assert members[i..][0] == members[i] && members[i..][1..] == members[i + 1..];
        AppendAssoc(port.calls, [(members[i], ask)], Asked(members[i + 1..], ask));
        AppendAssoc(sent, StreamMsgs(members[i], port.stream(k0 + i)), Streams(members[i + 1..], port.stream, k0 + i + 1));
        StreamAI(members[i], ask);
        i := i + 1;
      }
    }

    /** runPhase: reset every member's panel, stream every member in roster order, then report the phase. */
    method RunPhase(members: seq<string>, phase: Phase, ask: TuiAsk)
      modifies this, port
      ensures port.calls == old(port.calls) + Asked(members, ask)
      ensures sent == old(sent) + PhaseMsgs(members, phase, port.stream, |old(port.calls)|)
    {
      SendResets(members);
      StreamAll(members, ask);
      sent := sent + [PhaseCompleteMsg(phase)];
    }

    /** runFinalPhase: the first member gives the verdict; with no members nothing is sent. */
    method RunFinalPhase(members: seq<string>, topic: string)
      modifies this, port
      ensures port.calls == old(port.calls) + FinalCalls(members, topic)
      ensures sent == old(sent) + FinalMsgs(members, port.stream, |old(port.calls)|)
    {
      if |members| == 0 {
        return;
      }
      StreamAI(members[0], FinalAsk(topic));
      sent := sent + [PhaseCompleteMsg(Final)];
    }

    /** The rebuttal rounds from 2 to the round count. */
    method RunRebuttals(opts: Options)
      modifies this, port
      ensures port.calls == old(port.calls) + RebuttalCalls(opts, 2)
      ensures sent == old(sent) + RebuttalMsgs(opts, 2, port.stream, |old(port.calls)|)
    {
      hide PhaseMsgs, Asked;
      ghost var allCalls := port.calls + RebuttalCalls(opts, 2);
      ghost var whole := sent + RebuttalMsgs(opts, 2, port.stream, |port.calls|);
      var round := 2;
      while round <= opts.rounds
        invariant 2 <= round
        invariant port.calls + RebuttalCalls(opts, round) == allCalls
        invariant sent + RebuttalMsgs(opts, round, port.stream, |port.calls|) == whole
        decreases RoundsLeft(opts, round)
      {
        ghost var k := |port.calls|;
        ghost var phase := PhaseMsgs(opts.members, Rebuttal, port.stream, k);
        AppendAssoc(port.calls, Asked(opts.members, RebuttalAsk(opts.topic, opts.mode, round)), RebuttalCalls(opts, round + 1));
        AppendAssoc(sent, phase, RebuttalMsgs(opts, round + 1, port.stream, k + |opts.members|));
        RunPhase(opts.members, Rebuttal, RebuttalAsk(opts.topic, opts.mode, round));
        round := round + 1;
      }
    }

    /**
     * orchestrateDebate: the opening round, rebuttal rounds 2 to the round
     * count, the synthesis, the verdict, then the debate-complete message.
     */
    method OrchestrateDebate(opts: Options)
      modifies this, port
      ensures port.calls == old(port.calls) + DebateCalls(opts)
      ensures sent == old(sent) + Orchestrated(opts, port.stream, |old(port.calls)|)
    {
      ghost var s0, k0 := sent, |port.calls|;
      var ms := opts.members;
      RunPhase(ms, Opening, OpeningAsk(opts.topic, opts.mode));
      ghost var s1 := sent;
      RunRebuttals(opts);
      ghost var s2, k2 := sent, |port.calls|;
      RunPhase(ms, Synthesis, SynthesisAsk(opts.topic));
      ghost var s3 := sent;
      RunFinalPhase(ms, opts.topic);
      ghost var s4 := sent;
      sent := sent + [DebateCompleteMsg];
      Orchestration(opts, port.stream, k0, k2, s0, s1, s2, s3, s4);
      AppendAssoc(old(port.calls), Asked(ms, OpeningAsk(opts.topic, opts.mode)), RebuttalCalls(opts, 2));
      AppendAssoc(old(port.calls) + Asked(ms, OpeningAsk(opts.topic, opts.mode)) + RebuttalCalls(opts, 2),
                  Asked(ms, SynthesisAsk(opts.topic)), FinalCalls(ms, opts.topic));
      AppendAssoc(old(port.calls), Asked(ms, OpeningAsk(opts.topic, opts.mode)) + RebuttalCalls(opts, 2),
                  Asked(ms, SynthesisAsk(opts.topic)) + FinalCalls(ms, opts.topic));
    }
  }
}
