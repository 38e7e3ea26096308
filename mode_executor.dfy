/**
 * The mode executor: runs the session's work mode through the model port,
 * emitting task events to the runner's event channel. Each method is proved
 * to make exactly the calls, emit exactly the events and return exactly the
 * result that the mode's specification function describes for the replies
 * the port gives.
 */
module ModeExecution {
  import opened Results
  import opened Text
  import opened TeamTypes
  import opened TeamEvents
  import opened Artifacts
  import opened Port
  import opened EventBus
  import opened Modes

  /**
   * A divide-and-conquer run in progress: the calls made and to be made add
   * up to the whole run's, offering the events emitted and to be emitted
   * fills the channel as offering the whole run's would, and the results
   * gathered and to be gathered are the whole run's.
   */
  predicate Working(c0: seq<(string, Ask)>, b0: seq<Event>, whole: Subtasks,
                    calls: seq<(string, Ask)>, buffer: seq<Event>, done: seq<string>, rest: Subtasks)
  {
    && c0 + whole.calls == calls + rest.calls
    && OfferAll(b0, whole.events) == OfferAll(buffer, rest.events)
    && whole.results == done + rest.results
  }

  /**
   * Making the first subtask's call and emitting its events leaves the
   * others to run, with the first's result gathered.
   */
  lemma WorkingThen(c0: seq<(string, Ask)>, b0: seq<Event>, whole: Subtasks, calls: seq<(string, Ask)>,
                    buffer: seq<Event>, done: seq<string>, call: (string, Ask), es: seq<Event>, result: string,
                    rest: Subtasks, calls2: seq<(string, Ask)>, buffer2: seq<Event>)
    requires Working(c0, b0, whole, calls, buffer, done,
                     Subtasks([call] + rest.calls, es + rest.events, [result] + rest.results))
    requires calls2 == calls + [call] && buffer2 == OfferAll(buffer, es)
    ensures Working(c0, b0, whole, calls2, buffer2, done + [result], rest)
  {
    assert calls + ([call] + rest.calls) == calls2 + rest.calls;
    OfferAllAppend(buffer, es, rest.events);
  }

  class ModeExecutor {
    const port: ModelPort<Ask>
    const queue: EventQueue
    const session: Session

    /** NewModeExecutor, with the event channel the runner attaches to it. */
    constructor (port: ModelPort<Ask>, queue: EventQueue, session: Session)
      ensures this.port == port && this.queue == queue && this.session == session
    {
      this.port := port;
      this.queue := queue;
      this.session := session;
    }

    /**
     * One turn of pair programming in a run in progress: the driver writes,
     * and if that call fails the run ends with the driver's error; otherwise
     * the navigator reviews, the work grows by the driver's output and the
     * review (unless the review's call failed), and the run goes on with the
     * roles swapped.
     */
    method PairTurn(driver: string, navigator: string, i: nat, work: string,
                    ghost c0: seq<(string, Ask)>, ghost whole: Outcome<string>) returns (r: Result<string>)
      requires i < 3
      requires Continues(c0, whole, port.calls, PairTurns(port.invoke, |port.calls|, session.task, driver, navigator, i, work))
      modifies port
      ensures r.Failure? ==> c0 + whole.calls == port.calls && whole.result == r
      ensures r.Success? ==>
                Continues(c0, whole, port.calls, PairTurns(port.invoke, |port.calls|, session.task, navigator, driver, i + 1, r.value))
    {
      PairTurnsResume(port.invoke, session.task, driver, navigator, i, work, c0, whole, port.calls);
      var reply := port.Invoke(driver, DriverTurn(session.task, work, i));
      if reply.CallFailed? {
        return Failure(DriverFailed(reply.err));
      }
      var review := port.Invoke(navigator, NavigatorReview(session.task, reply.content));
      var next := work + DriverHeader + reply.content;
      if review.Reply? {
        next := next + NavigatorHeader + review.content;
      }
      assert next == PairWork(work, reply.content, review);
      r := Success(next);
    }

    /** executePairProgramming */
    method PairProgramming() returns (r: Result<seq<Artifact>>)
      modifies port
      ensures var t := PairRun(port.invoke, |old(port.calls)|, session);
              port.calls == old(port.calls) + t.calls && r == t.result
    {
      if |session.members| < 2 {
        return Failure(PairTooSmall);
      }
      ghost var c0 := port.calls;
      var driver, navigator := session.members[0], Navigator(session);
      var work := "";
      var i: nat := 0;
      ghost var whole := PairTurns(port.invoke, |c0|, session.task, driver, navigator, 0, "");
      while i < 3
        invariant i <= 3
        invariant Continues(c0, whole, port.calls, PairTurns(port.invoke, |port.calls|, session.task, driver, navigator, i, work))
      {
        var turn := PairTurn(driver, navigator, i, work, c0, whole);
        if turn.Failure? {
          return Failure(turn.error);
        }
        work := turn.value;
        driver, navigator := navigator, driver;
        i := i + 1;
      }
      r := Success([PairArtifact(session, work)]);
    }

    /**
     * One step of the consultation loop in progress: the PM is skipped; any
     * other member is consulted with the context so far, and a reply that
     * arrives is added under the member's display name.
     */
    method ConsultMember(ms: seq<string>, context: string, ghost c0: seq<(string, Ask)>, ghost whole: Gather)
      returns (next: string)
      requires |ms| > 0
      requires Gathering(c0, whole, port.calls, ConsultLoop(port.invoke, |port.calls|, session, ms, context))
      modifies port
      ensures Gathering(c0, whole, port.calls, ConsultLoop(port.invoke, |port.calls|, session, ms[1..], next))
    {
      var member := ms[0];
      if member == session.pm {
        return context;
      }
      ghost var calls := port.calls;
      var q := Consult(context, session.task);
      var reply := port.Invoke(member, q);
      next := context;
      if reply.Reply? {
        next := context + ConsultHeader(DisplayName(session.names, member)) + reply.content;
      }
      assert next == AddReply(context, reply, ConsultHeader(DisplayName(session.names, member)), "");
      ghost var rest := ConsultLoop(port.invoke, |port.calls|, session, ms[1..], next);
      assert calls + ([(member, q)] + rest.calls) == port.calls + rest.calls;
    }

    /** executeConsultation */
    method Consultation() returns (r: Result<seq<Artifact>>)
      modifies port
      ensures var t := ConsultRun(port.invoke, |old(port.calls)|, session);
              port.calls == old(port.calls) + t.calls && r == t.result
    {
      var initial := port.Invoke(session.pm, InitialApproach(session.task));
      if initial.CallFailed? {
        return Failure(initial.err);
      }
      var context := InitialHeader + initial.content;
      ghost var c1 := port.calls;
      ghost var whole := ConsultLoop(port.invoke, |c1|, session, session.members, context);
      var j := 0;
      while j < |session.members|
        invariant j <= |session.members|
        invariant Gathering(c1, whole, port.calls, ConsultLoop(port.invoke, |port.calls|, session, session.members[j..], context))
      {
        context := ConsultMember(session.members[j..], context, c1, whole);
        assert session.members[j..][1..] == session.members[j + 1..];
        j := j + 1;
      }
      var final := port.Invoke(session.pm, ConsultFinal(context, session.task));
      assert port.calls == c1 + whole.calls + [(session.pm, ConsultFinal(context, session.task))];
      if final.CallFailed? {
        return Failure(final.err);
      }
      r := Success([ConsultArtifact(session, final.content)]);
    }

    /**
     * One contribution of a round in progress: the member is given the text
     * so far, and a reply that arrives is added under the member's display
     * name and the round number.
     */
    method RoundMember(round: nat, ms: seq<string>, acc: string, ghost c0: seq<(string, Ask)>, ghost whole: Gather)
      returns (next: string)
      requires |ms| > 0
      requires Gathering(c0, whole, port.calls, RoundLoop(port.invoke, |port.calls|, session, round, ms, acc))
      modifies port
      ensures Gathering(c0, whole, port.calls, RoundLoop(port.invoke, |port.calls|, session, round, ms[1..], next))
    {
      var member := ms[0];
      ghost var calls := port.calls;
      var q := Contribute(session.task, acc);
      var reply := port.Invoke(member, q);
      next := acc;
      if reply.Reply? {
        next := acc + RoundHeader(DisplayName(session.names, member), round) + reply.content;
      }
      assert Gathering(c0, whole, port.calls, RoundLoop(port.invoke, |port.calls|, session, round, ms[1..], next)) by {
        assert next == AddReply(acc, reply, RoundHeader(DisplayName(session.names, member), round), "");
        ghost var rest := RoundLoop(port.invoke, |port.calls|, session, round, ms[1..], next);
        assert calls + ([(member, q)] + rest.calls) == port.calls + rest.calls;
      }
    }

    /** One round of round robin: every member contributes in turn. */
    method Round(round: nat, acc: string) returns (text: string)
      modifies port
      ensures var g := RoundLoop(port.invoke, |old(port.calls)|, session, round, session.members, acc);
              port.calls == old(port.calls) + g.calls && text == g.text
    {
      ghost var c0 := port.calls;
      ghost var whole := RoundLoop(port.invoke, |c0|, session, round, session.members, acc);
      text := acc;
      var j := 0;
      while j < |session.members|
        invariant j <= |session.members|
        invariant Gathering(c0, whole, port.calls, RoundLoop(port.invoke, |port.calls|, session, round, session.members[j..], text))
      {
        text := RoundMember(round, session.members[j..], text, c0, whole);
        assert session.members[j..][1..] == session.members[j + 1..];
        j := j + 1;
      }
    }

    /** The next round of a round robin in progress. */
    method NextRound(round: nat, acc: string, ghost c0: seq<(string, Ask)>, ghost whole: Gather)
      returns (next: string)
      requires round < 3
      requires Gathering(c0, whole, port.calls, RoundsFrom(port.invoke, |port.calls|, session, round, acc))
      modifies port
      ensures Gathering(c0, whole, port.calls, RoundsFrom(port.invoke, |port.calls|, session, round + 1, next))
    {
      ghost var before := port.calls;
      next := Round(round, acc);
      ghost var g := RoundLoop(port.invoke, |before|, session, round, session.members, acc);
      assert port.calls == before + g.calls && next == g.text;
      assert |port.calls| == |before| + |g.calls|;
      GatheringThen(c0, whole, before, g, RoundsFrom(port.invoke, |before| + |g.calls|, session, round + 1, g.text), port.calls);
    }

    /** executeRoundRobin */
    method RoundRobin() returns (r: Result<seq<Artifact>>)
      modifies port
      ensures var t := RoundRobinRun(port.invoke, |old(port.calls)|, session);
              port.calls == old(port.calls) + t.calls && r == t.result
    {
      ghost var c0 := port.calls;
      ghost var whole := RoundsFrom(port.invoke, |c0|, session, 1, "");
      var accumulated := "";
      var round: nat := 1;
      while round <= 2
        invariant 1 <= round <= 3
        invariant Gathering(c0, whole, port.calls, RoundsFrom(port.invoke, |port.calls|, session, round, accumulated))
      {
        accumulated := NextRound(round, accumulated, c0, whole);
        round := round + 1;
      }
      r := Success([RoundRobinArtifact(session, accumulated)]);
    }

    /**
     * One thought of the brainstorm in progress: the member is asked about
     * the task, and a reply that arrives is added under the member's display
     * name, followed by a blank line.
     */
    method BrainstormMember(ms: seq<string>, discussion: string, ghost c0: seq<(string, Ask)>, ghost whole: Gather)
      returns (next: string)
      requires |ms| > 0
      requires Gathering(c0, whole, port.calls, BrainstormLoop(port.invoke, |port.calls|, session, ms, discussion))
      modifies port
      ensures Gathering(c0, whole, port.calls, BrainstormLoop(port.invoke, |port.calls|, session, ms[1..], next))
    {
      var member := ms[0];
      ghost var calls := port.calls;
      var reply := port.Invoke(member, Brainstorm(session.task));
      next := discussion;
      if reply.Reply? {
        next := discussion + BrainstormHeader(DisplayName(session.names, member)) + reply.content + "\n\n";
      }
      assert Gathering(c0, whole, port.calls, BrainstormLoop(port.invoke, |port.calls|, session, ms[1..], next)) by {
        assert next == AddReply(discussion, reply, BrainstormHeader(DisplayName(session.names, member)), "\n\n");
        ghost var rest := BrainstormLoop(port.invoke, |port.calls|, session, ms[1..], next);
        assert calls + ([(member, Brainstorm(session.task))] + rest.calls) == port.calls + rest.calls;
      }
    }

    /** executeFreeForm */
    method FreeForm() returns (r: Result<seq<Artifact>>)
      modifies port
      ensures var t := FreeFormRun(port.invoke, |old(port.calls)|, session);
              port.calls == old(port.calls) + t.calls && r == t.result
    {
      ghost var c0 := port.calls;
      ghost var whole := BrainstormLoop(port.invoke, |c0|, session, session.members, "");
      var discussion := "";
      var j := 0;
      while j < |session.members|
        invariant j <= |session.members|
        invariant Gathering(c0, whole, port.calls, BrainstormLoop(port.invoke, |port.calls|, session, session.members[j..], discussion))
      {
        discussion := BrainstormMember(session.members[j..], discussion, c0, whole);
        assert session.members[j..][1..] == session.members[j + 1..];
        j := j + 1;
      }
      var sq := Synthesis(discussion, session.task);
      var synthesis := port.Invoke(session.pm, sq);
      assert port.calls == c0 + whole.calls + [(session.pm, sq)];
      if synthesis.CallFailed? {
        return Failure(synthesis.err);
      }
      var fq := FinalOutput(discussion, synthesis.content);
      var final := port.Invoke(session.pm, fq);
      assert port.calls == c0 + (whole.calls + [(session.pm, sq), (session.pm, fq)]);
      if final.CallFailed? {
        return Failure(final.err);
      }
      r := Success([FreeFormArtifact(session, final.content)]);
    }

    /**
     * Reading an opened stream: every chunk's content is appended and
     * reported as progress, until the chunks run out (giving the content)
     * or a chunk carries an error (giving none).
     */
    method ReadStream(chunks: seq<StreamChunk>, tid: string, m: string) returns (content: Option<string>)
      requires queue.Valid()
      modifies queue
      ensures queue.Valid()
      ensures var st := ReadChunks(chunks, tid, m, "");
              queue.buffer == OfferAll(old(queue.buffer), st.events) && content == st.content
    {
      ghost var b0 := queue.buffer;
      ghost var whole := ReadChunks(chunks, tid, m, "");
      var acc := "";
      var i: nat := 0;
      while i < |chunks|
        invariant i <= |chunks| && queue.Valid()
        invariant var rest := ReadChunks(chunks[i..], tid, m, acc);
                  OfferAll(b0, whole.events) == OfferAll(queue.buffer, rest.events) && whole.content == rest.content
      {
        var chunk := chunks[i];
        if chunk.error.Some? {
          return None;
        }
        ghost var before := queue.buffer;
        var e := NewTaskEvent(TaskProgress, tid, m, TaskProgressData(chunk.content, 0.5));
        queue.Emit(e);
        acc := acc + chunk.content;
        assert chunks[i..][1..] == chunks[i + 1..];
        OfferAllAppend(before, [e], ReadChunks(chunks[i + 1..], tid, m, acc).events);
        i := i + 1;
      }
      content := Some(acc);
    }

    /**
     * One member's subtask after its TaskStarted event, given what opening
     * its stream gave: a failed open is reported as an Error event; an
     * opened stream is read, and when no chunk carried an error the result
     * is recorded and TaskCompleted emitted.
     */
    method FinishSubtask(reply: StreamReply, i: nat, m: string) returns (result: string)
      requires queue.Valid()
      modifies queue
      ensures queue.Valid()
      ensures var out := SubtaskOutcome(reply, session, i, m);
              queue.buffer == OfferAll(old(queue.buffer), out.0) && result == out.1
    {
      var tid := SubtaskId(i);
      if reply.StreamFailed? {
        queue.Emit(NewTaskEvent(Error, tid, m, ErrorData(Some(reply.err), tid, "")));
        return "";
      }
      var content := ReadStream(reply.chunks, tid, m);
      if content.None? {
        return "";
      }
      ghost var before := queue.buffer;
      result := SubtaskResult(DisplayName(session.names, m), i, content.value);
      var done := NewTaskEvent(TaskCompleted, tid, m, NoData);
      queue.Emit(done);
      OfferAllAppend(old(queue.buffer), ReadChunks(reply.chunks, tid, m, "").events, [done]);
    }

    /**
     * The subtask of the member at roster position j in a run in progress:
     * TaskStarted is emitted, the member's stream is opened with its
     * numbered subtask and the breakdown, and the outcome is recorded.
     */
    method RunSubtask(j: nat, breakdown: string, ghost c0: seq<(string, Ask)>, ghost b0: seq<Event>,
                      ghost whole: Subtasks, ghost done: seq<string>) returns (result: string)
      requires j < |session.members| && queue.Valid()
      requires var ms := session.members[j..];
               Working(c0, b0, whole, port.calls, queue.buffer, done,
                       Assemble(session.task, j, ms, breakdown, SubtaskOutcomes(port.stream, |port.calls|, session, j, ms)))
      modifies port, queue
      ensures queue.Valid()
      ensures var ms := session.members[j + 1..];
              Working(c0, b0, whole, port.calls, queue.buffer, done + [result],
                      Assemble(session.task, j + 1, ms, breakdown, SubtaskOutcomes(port.stream, |port.calls|, session, j + 1, ms)))
    {
      var m := session.members[j];
      ghost var ms := session.members[j..];
      ghost var calls, b1 := port.calls, queue.buffer;
      var started := NewTaskEvent(TaskStarted, SubtaskId(j), m, NoData);
      queue.Emit(started);
      var q := Subtask(session.task, j + 1, breakdown);
      var reply := port.Stream(m, q);
      ghost var b2 := queue.buffer;
      result := FinishSubtask(reply, j, m);
      ghost var out := SubtaskOutcome(reply, session, j, m);
      AssembleFirst(port.stream, |calls|, session, j, ms, breakdown);
      OfferAllAppend(b1, [started], out.0);
      assert ms[1..] == session.members[j + 1..];
      WorkingThen(c0, b0, whole, calls, b1, done, (m, q), [started] + out.0, result,
                  Assemble(session.task, j + 1, ms[1..], breakdown, SubtaskOutcomes(port.stream, |calls| + 1, session, j + 1, ms[1..])),
                  port.calls, queue.buffer);
    }

    /** The subtasks of the whole roster, in roster order, with the results gathered per member. */
    method RunSubtasks(breakdown: string) returns (results: seq<string>)
      requires queue.Valid()
      modifies port, queue
      ensures queue.Valid()
      ensures var st := Assemble(session.task, 0, session.members, breakdown,
                                 SubtaskOutcomes(port.stream, |old(port.calls)|, session, 0, session.members));
              port.calls == old(port.calls) + st.calls && queue.buffer == OfferAll(old(queue.buffer), st.events)
              && results == st.results
    {
      ghost var c0, b0 := port.calls, queue.buffer;
      ghost var whole := Assemble(session.task, 0, session.members, breakdown,
                                  SubtaskOutcomes(port.stream, |c0|, session, 0, session.members));
      results := [];
      var j: nat := 0;
      while j < |session.members|
        invariant j <= |session.members| && queue.Valid()
        invariant var ms := session.members[j..];
                  Working(c0, b0, whole, port.calls, queue.buffer, results,
                          Assemble(session.task, j, ms, breakdown, SubtaskOutcomes(port.stream, |port.calls|, session, j, ms)))
      {
        var result := RunSubtask(j, breakdown, c0, b0, whole, results);
        results := results + [result];
        j := j + 1;
      }
      assert results == whole.results;
    }

    /** The merge prompt's input, gathered from the results in roster order. */
    method GatherResults(results: seq<string>) returns (all: string)
      ensures all == MergeInput(results)
    {
      all := "";
      var j: nat := 0;
      while j < |results|
        invariant j <= |results|
        invariant all == MergeInput(results[..j])
      {
        assert results[..j + 1][..j] == results[..j];
        if results[j] != "" {
          all := all + results[j] + "\n\n";
        }
        j := j + 1;
      }
      assert results[..j] == results;
    }

    /**
     * The merge that ends divide and conquer, after the calls `head` and the
     * subtasks `st`: the PM is given the results that arrived.
     */
    method MergeResults(ghost head: seq<(string, Ask)>, ghost st: Subtasks, results: seq<string>)
      returns (r: Result<seq<Artifact>>)
      requires results == st.results
      modifies port
      ensures var t := MergeOutcome(port.invoke, |old(port.calls)|, session, head, st);
              old(port.calls) + [t.calls[|t.calls| - 1]] == port.calls && r == t.result
    {
      var all := GatherResults(results);
      var merged := port.Invoke(session.pm, Merge(all, session.task));
      if merged.CallFailed? {
        return Failure(merged.err);
      }
      r := Success([MergedArtifact(session, merged.content)]);
    }

    /** executeDivideConquer */
    method DivideConquer() returns (r: Result<seq<Artifact>>)
      requires queue.Valid()
      modifies port, queue
      ensures queue.Valid()
      ensures var t := DivideConquerRun(port.invoke, port.stream, |old(port.calls)|, session);
              port.calls == old(port.calls) + t.calls && queue.buffer == OfferAll(old(queue.buffer), t.events)
              && r == t.result
    {
      var dq := Divide(|session.members|, session.task);
      var divide := port.Invoke(session.pm, dq);
      if divide.CallFailed? {
        DivideConquerResult(port.invoke, port.stream, |old(port.calls)|, session);
        return Failure(divide.err);
      }
      ghost var c1 := port.calls;
      assert |c1| == |old(port.calls)| + 1;
      var results := RunSubtasks(divide.content);
      ghost var st := Assemble(session.task, 0, session.members, divide.content,
                               SubtaskOutcomes(port.stream, |c1|, session, 0, session.members));
      ghost var c2 := port.calls;
      assert |c2| == |old(port.calls)| + 1 + |session.members|;
      r := MergeResults([(session.pm, dq)], st, results);
      DivideConquerDivided(port.invoke, port.stream, |old(port.calls)|, session, divide.content, st);
      ghost var t := MergeOutcome(port.invoke, |c2|, session, [(session.pm, dq)], st);
      MergeOutcomeShape(port.invoke, |c2|, session, [(session.pm, dq)], st);
      Regroup(old(port.calls), [(session.pm, dq)], st.calls, [t.calls[|t.calls| - 1]]);
    }

    /** Execute: the session's mode, with free form for any mode not recognised. */
    method Execute() returns (r: Result<seq<Artifact>>)
      requires queue.Valid()
      modifies port, queue
      ensures queue.Valid()
      ensures var t := ExecuteRun(port.invoke, port.stream, |old(port.calls)|, session);
              port.calls == old(port.calls) + t.calls && queue.buffer == OfferAll(old(queue.buffer), t.events)
              && r == t.result
    {
      if session.mode == ModePairProgramming {
        r := PairProgramming();
      } else if session.mode == ModeConsultation {
        r := Consultation();
      } else if session.mode == ModeRoundRobin {
        r := RoundRobin();
      } else if session.mode == ModeDivideConquer {
        r := DivideConquer();
      } else {
        r := FreeForm();
      }
    }
  }
}
