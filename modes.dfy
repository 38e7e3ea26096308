/**
 * The five work modes of the execution phase. Each mode is a sequence of
 * model calls through the port. Prompts are structured requests (`Ask`)
 * that carry what the prompt is built from, not its wording. Each mode is
 * specified by a recursive function that follows the mode's loops from a
 * given state. The function yields the calls made, the events emitted and
 * the mode's result. The executor's methods are proved to make exactly those
 * calls and return exactly that result.
 */
module Modes {
  import opened Results
  import opened Text
  import opened TeamTypes
  import opened TeamEvents
  import opened Artifacts
  import opened Port
  import opened EventBus

  /**
   * A request to a model, by what its prompt is built from. A driver's
   * prompt embeds BuildContext(work, iteration).
   */
  datatype Ask =
    | DriverTurn(task: string, work: string, iteration: nat)
    | NavigatorReview(task: string, driverOutput: string)
    | InitialApproach(task: string)
    | Consult(approach: string, task: string)
    | ConsultFinal(consultations: string, task: string)
    | Contribute(task: string, previous: string)
    | Divide(parts: nat, task: string)
    | Subtask(task: string, number: nat, breakdown: string)
    | Merge(results: string, task: string)
    | Brainstorm(task: string)
    | Synthesis(discussion: string, task: string)
    | FinalOutput(discussion: string, direction: string)
    | CreatePlan(task: string, members: string)
    | ReviewWork(task: string, artifacts: string)

  /**
   * The parts of a session the modes read, with the display name the
   * configuration gives each model that has one.
   */
  datatype Session = Session(task: string, pm: string, mode: string, members: seq<string>, names: map<string, string>)

  /** What a run of calls did: the calls in order, the events emitted in order, and the result. */
  datatype Outcome<T> = Outcome(calls: seq<(string, Ask)>, events: seq<Event>, result: Result<T>)

  /** What a loop that skips failed calls gathered: the calls in order and the accumulated text. */
  datatype Gather = Gather(calls: seq<(string, Ask)>, text: string)

  /** The reply to the last of some calls made from call k on. */
  function LastReply(o: Oracle, k: nat, calls: seq<(string, Ask)>): Reply
    requires |calls| >= 1
  {
    o(k + |calls| - 1)
  }

  /** The AI IDs of some calls, in order. */
  function Ids(calls: seq<(string, Ask)>): (r: seq<string>)
    ensures |r| == |calls|
  {
    if |calls| == 0 then [] else [calls[0].0] + Ids(calls[1..])
  }

  lemma {:induction false} IdsAppend(a: seq<(string, Ask)>, b: seq<(string, Ask)>)
    ensures Ids(a + b) == Ids(a) + Ids(b)
  {
    if |a| == 0 {
      assert a + b == b;
    } else {
      assert (a + b)[1..] == a[1..] + b;
      IdsAppend(a[1..], b);
      calc {
        Ids(a + b);
        [a[0].0] + Ids(a[1..] + b);
        [a[0].0] + (Ids(a[1..]) + Ids(b));
        ([a[0].0] + Ids(a[1..])) + Ids(b);
      }
    }
  }

  /** The IDs of one call followed by more. */
  lemma IdsCons(c: (string, Ask), rest: seq<(string, Ask)>)
    ensures Ids([c] + rest) == [c.0] + Ids(rest)
  {
    assert ([c] + rest)[1..] == rest;
  }

  /** The roster without one member, order kept. */
  function Without(members: seq<string>, x: string): (r: seq<string>)
    ensures x !in r
    ensures forall m | m in r :: m in members
  {
    if |members| == 0 then []
    else (if members[0] == x then [] else [members[0]]) + Without(members[1..], x)
  }

  const StartMessage: string := "This is the start. Begin the implementation."
  const TruncatedMark: string := "\n... (truncated)"

  /** buildContext: the fixed start message iff there is no work yet, else the work framed by the iteration. */
  function BuildContext(current: string, iteration: int): (r: string)
    ensures r == StartMessage <==> current == ""
    ensures current != "" ==> HasPrefix(r, "Current progress (iteration ")
  {
    if current == "" then StartMessage
    else
      var r := "Current progress (iteration " + IntToString(iteration) + "):\n" + current + "\n\nContinue from here.";
      assert r[0] == 'C' != StartMessage[0];
      r
  }

  /** truncateOutput: short text unchanged; longer text cut to maxLen bytes and marked. */
  function TruncateOutput(s: string, maxLen: nat): (r: string)
    ensures |s| <= maxLen ==> r == s
    ensures |s| > maxLen ==> |r| == maxLen + |TruncatedMark| && s[..maxLen] == r[..maxLen]
                             && r[maxLen..] == TruncatedMark
  {
    if |s| <= maxLen then s else s[..maxLen] + TruncatedMark
  }

  /**
   * The text a mode accumulates after one call: unchanged when the call
   * failed, else extended by a header, the reply and a trailer.
   */
  function AddReply(acc: string, reply: Reply, header: string, trailer: string): (r: string)
    ensures HasPrefix(r, acc)
    ensures reply.CallFailed? ==> r == acc
  {
    match reply
    case CallFailed(_) => acc
    case Reply(c) =>
      var r := acc + header + c + trailer;
      assert r[..|acc|] == acc;
      r
  }

  /** Text extended twice still starts with the original. */
  lemma PrefixTrans(a: string, b: string, c: string)
    requires HasPrefix(b, a) && HasPrefix(c, b)
    ensures HasPrefix(c, a)
  {
    assert c[..|a|] == c[..|b|][..|a|];
  }

  const DriverHeader: string := "\n\n### Driver Output:\n"
  const NavigatorHeader: string := "\n\n### Navigator Review:\n"

  function ConsultHeader(name: string): string { "\n\n" + name + "'s Input:\n" }

  function RoundHeader(name: string, round: nat): string { "\n\n### " + name + " (Round " + NatToString(round) + "):\n" }

  function BrainstormHeader(name: string): string { "### " + name + ":\n" }


  // ---------------------------------------------------------------------
  // Pair programming

  const PairTooSmall: string := "pair programming requires at least 2 team members"

  /** The error a failed driver call is reported as. */
  function DriverFailed(err: string): string { "driver failed: " + err }

  /** The navigator: Members[1], or Members[2] when the first member is the PM and a third exists. */
  function Navigator(s: Session): (r: string)
    requires |s.members| >= 2
    ensures r == s.members[1] || (|s.members| > 2 && r == s.members[2] && s.members[0] == s.pm)
  {
    if s.members[0] == s.pm && |s.members| > 2 then s.members[2] else s.members[1]
  }

  /**
   * Turns i..2 of pair programming, call k onwards: the driver writes, the
   * navigator reviews, and the two swap. A failed driver call ends the mode;
   * a failed review only leaves the review out of the work.
   */
  function PairTurns(o: Oracle, k: nat, task: string, driver: string, navigator: string, i: nat, work: string): (t: Outcome<string>)
    requires i <= 3
    ensures t.events == []
    decreases 3 - i
  {
    if i == 3 then Outcome([], [], Success(work))
    else
      var dq := DriverTurn(task, work, i);
      match o(k)
      case CallFailed(err) => Outcome([(driver, dq)], [], Failure(DriverFailed(err)))
      case Reply(c) =>
        var nq := NavigatorReview(task, c);
        var rest := PairTurns(o, k + 2, task, navigator, driver, i + 1, PairWork(work, c, o(k + 1)));
        Outcome([(driver, dq), (navigator, nq)] + rest.calls, [], rest.result)
  }

  /** The work after a turn: the driver's output, then the review unless its call failed. */
  function PairWork(work: string, driverOutput: string, review: Reply): (r: string)
  {
    AddReply(AddReply(work, Reply(driverOutput), DriverHeader, ""), review, NavigatorHeader, "")
  }

  /** A turn whose driver call succeeds makes two calls and hands over to the next turn with roles swapped. */
  lemma PairTurnStep(o: Oracle, k: nat, task: string, d: string, n: string, i: nat, w: string)
    requires i < 3 && o(k).Reply?
    ensures var c := o(k).content;
            var nq := NavigatorReview(task, c);
            var rest := PairTurns(o, k + 2, task, n, d, i + 1, PairWork(w, c, o(k + 1)));
            PairTurns(o, k, task, d, n, i, w) == Outcome([(d, DriverTurn(task, w, i)), (n, nq)] + rest.calls, [], rest.result)
  {
  }

  function PairArtifact(s: Session, work: string): Artifact
    requires |s.members| >= 2
  {
    Artifact("pair_output.md", CodeKind, work, "Pair programming session output",
             s.members[0] + ", " + s.members[1], ZeroTime, "")
  }

  /** executePairProgramming from call k. */
  function PairRun(o: Oracle, k: nat, s: Session): (t: Outcome<seq<Artifact>>)
    ensures t.events == []
  {
    if |s.members| < 2 then Outcome([], [], Failure(PairTooSmall))
    else
      var t := PairTurns(o, k, s.task, s.members[0], Navigator(s), 0, "");
      match t.result
      case Failure(e) => Outcome(t.calls, [], Failure(e))
      case Success(w) => Outcome(t.calls, [], Success([PairArtifact(s, w)]))
  }

  /**
   * A run in progress: the calls made so far, after the calls `c0` made
   * before it started, followed by what remains of it, are the calls made
   * before it followed by the whole run; and what remains ends as the whole.
   */
  predicate Continues<T(==)>(c0: seq<(string, Ask)>, whole: Outcome<T>, calls: seq<(string, Ask)>, rest: Outcome<T>)
  {
    c0 + whole.calls == calls + rest.calls && whole.result == rest.result
  }

  /** A gathering loop in progress, in the sense of Continues. */
  predicate Gathering(c0: seq<(string, Ask)>, whole: Gather, calls: seq<(string, Ask)>, rest: Gather)
  {
    c0 + whole.calls == calls + rest.calls && whole.text == rest.text
  }

  /** Calls made in four stretches, regrouped. */
  lemma Regroup<T>(a: seq<T>, b: seq<T>, c: seq<T>, d: seq<T>)
    ensures a + b + c + d == a + (b + c + d)
  {
    assert a + b + c + d == a + (b + c) + d;
  }

  /** Making the calls of a leading part of what remains leaves the rest of it to be made. */
  lemma GatheringThen(c0: seq<(string, Ask)>, whole: Gather, calls: seq<(string, Ask)>, g: Gather, rest: Gather,
                      after: seq<(string, Ask)>)
    requires Gathering(c0, whole, calls, Gather(g.calls + rest.calls, rest.text))
    requires after == calls + g.calls
    ensures Gathering(c0, whole, after, rest)
  {
    assert calls + (g.calls + rest.calls) == after + rest.calls;
  }

  /**
   * One more turn of a run in progress: a failed driver call ends the whole
   * run there with the driver's error, otherwise the run continues with the
   * next turn after both calls.
   */
  lemma PairTurnsResume(o: Oracle, task: string, d: string, n: string, i: nat, w: string,
                        c0: seq<(string, Ask)>, whole: Outcome<string>, calls: seq<(string, Ask)>)
    requires i < 3 && Continues(c0, whole, calls, PairTurns(o, |calls|, task, d, n, i, w))
    ensures o(|calls|).CallFailed? ==>
              c0 + whole.calls == calls + [(d, DriverTurn(task, w, i))]
              && whole.result == Failure(DriverFailed(o(|calls|).err))
    ensures o(|calls|).Reply? ==>
              var c := o(|calls|).content;
              Continues(c0, whole, calls + [(d, DriverTurn(task, w, i))] + [(n, NavigatorReview(task, c))],
                        PairTurns(o, |calls| + 2, task, n, d, i + 1, PairWork(w, c, o(|calls| + 1))))
  {
    if o(|calls|).Reply? {
      var c := o(|calls|).content;
      var rest := PairTurns(o, |calls| + 2, task, n, d, i + 1, PairWork(w, c, o(|calls| + 1)));
      PairTurnStep(o, |calls|, task, d, n, i, w);
      assert calls + ([(d, DriverTurn(task, w, i)), (n, NavigatorReview(task, c))] + rest.calls)
          == calls + [(d, DriverTurn(task, w, i))] + [(n, NavigatorReview(task, c))] + rest.calls;
    }
  }

  /** Each call as (AI ID, whether it is a driver's turn). */
  function Roles(calls: seq<(string, Ask)>): (r: seq<(string, bool)>)
    ensures |r| == |calls|
  {
    if |calls| == 0 then [] else [(calls[0].0, calls[0].1.DriverTurn?)] + Roles(calls[1..])
  }

  /** The intended schedule: d drives and n reviews, then the roles swap, for the given number of turns. */
  function PairSchedule(d: string, n: string, turns: nat): (r: seq<(string, bool)>)
    ensures |r| == 2 * turns
    decreases turns
  {
    if turns == 0 then [] else [(d, true), (n, false)] + PairSchedule(n, d, turns - 1)
  }

  /** Roles of two calls followed by more. */
  lemma RolesPair(a: (string, Ask), b: (string, Ask), rest: seq<(string, Ask)>)
    ensures Roles([a, b] + rest) == [(a.0, a.1.DriverTurn?), (b.0, b.1.DriverTurn?)] + Roles(rest)
  {
    assert ([a, b] + rest)[1..] == [b] + rest;
    assert ([b] + rest)[1..] == rest;
  }

  /** The calls follow the schedule of the remaining turns, as far as they go. */
  lemma {:induction false} PairTurnsRoles(o: Oracle, k: nat, task: string, d: string, n: string, i: nat, w: string)
    requires i <= 3
    ensures Roles(PairTurns(o, k, task, d, n, i, w).calls) <= PairSchedule(d, n, 3 - i)
    decreases 3 - i
  {
    if i < 3 && o(k).Reply? {
      var c := o(k).content;
      var w2 := PairWork(w, c, o(k + 1));
      var rest := PairTurns(o, k + 2, task, n, d, i + 1, w2);
      PairTurnsRoles(o, k + 2, task, n, d, i + 1, w2);
      PairTurnStep(o, k, task, d, n, i, w);
      RolesPair((d, DriverTurn(task, w, i)), (n, NavigatorReview(task, c)), rest.calls);
    }
  }

  /** Turns that run to the end make all their calls and keep the work so far at the front. */
  lemma {:induction false} PairTurnsSuccess(o: Oracle, k: nat, task: string, d: string, n: string, i: nat, w: string)
    requires i <= 3
    ensures var t := PairTurns(o, k, task, d, n, i, w);
            t.result.Success? ==> |t.calls| == 2 * (3 - i) && HasPrefix(t.result.value, w)
    decreases 3 - i
  {
    if i < 3 {
      var dq := DriverTurn(task, w, i);
      if o(k).Reply? {
        var c := o(k).content;
        var w2 := PairWork(w, c, o(k + 1));
        var rest := PairTurns(o, k + 2, task, n, d, i + 1, w2);
        PairTurnsSuccess(o, k + 2, task, n, d, i + 1, w2);
        PairTurnStep(o, k, task, d, n, i, w);
        if rest.result.Success? {
          PrefixTrans(w, AddReply(w, Reply(c), DriverHeader, ""), w2);
          PrefixTrans(w, w2, rest.result.value);
        }
      }
    }
  }

  /**
   * Turns that fail stop right after a driver's turn whose call failed, and
   * report the driver's failure: a failed review never ends them.
   */
  lemma {:induction false} PairTurnsFailure(o: Oracle, k: nat, task: string, d: string, n: string, i: nat, w: string)
    requires i <= 3
    ensures var t := PairTurns(o, k, task, d, n, i, w);
            t.result.Failure? ==>
              |t.calls| >= 1 && t.calls[|t.calls| - 1].1.DriverTurn?
              && LastReply(o, k, t.calls).CallFailed?
              && t.result.error == DriverFailed(LastReply(o, k, t.calls).err)
    decreases 3 - i
  {
    if i < 3 {
      var dq := DriverTurn(task, w, i);
      if o(k).Reply? {
        var c := o(k).content;
        var nq := NavigatorReview(task, c);
        var w2 := PairWork(w, c, o(k + 1));
        var rest := PairTurns(o, k + 2, task, n, d, i + 1, w2);
        PairTurnsFailure(o, k + 2, task, n, d, i + 1, w2);
        PairTurnStep(o, k, task, d, n, i, w);
        var t := PairTurns(o, k, task, d, n, i, w);
        if rest.result.Failure? {
          assert t.calls[|t.calls| - 1] == rest.calls[|rest.calls| - 1];
        }
      }
    }
  }

  /**
   * Pair programming fails at once, without a call, with fewer than two
   * members. Otherwise Members[0] drives first and the navigator reviews
   * first, the roles swapping each turn; the mode ends early only on a failed
   * driver's turn, and on success it has made all six calls and delivers one
   * code artifact credited to the first two members.
   */
  lemma PairRunShape(o: Oracle, k: nat, s: Session)
    ensures var t := PairRun(o, k, s);
            && (|s.members| < 2 ==> t.calls == [] && t.result == Failure(PairTooSmall))
            && (|s.members| >= 2 ==>
                  var m0, nav := s.members[0], Navigator(s);
                  && 1 <= |t.calls|
                  && Roles(t.calls) <= [(m0, true), (nav, false), (nav, true), (m0, false), (m0, true), (nav, false)]
                  && (t.result.Failure? ==> LastReply(o, k, t.calls).CallFailed? && t.calls[|t.calls| - 1].1.DriverTurn?)
                  && (t.result.Success? ==>
                        |t.calls| == 6 && |t.result.value| == 1
                        && t.result.value[0].name == "pair_output.md"
                        && t.result.value[0].kind == CodeKind
                        && t.result.value[0].createdBy == s.members[0] + ", " + s.members[1]))
  {
    if |s.members| >= 2 {
      var m0, nav := s.members[0], Navigator(s);
      PairTurnsRoles(o, k, s.task, m0, nav, 0, "");
      PairTurnsSuccess(o, k, s.task, m0, nav, 0, "");
      PairTurnsFailure(o, k, s.task, m0, nav, 0, "");
      assert PairSchedule(m0, nav, 1) == [(m0, true), (nav, false)];
      assert PairSchedule(nav, m0, 2) == [(nav, true), (m0, false), (m0, true), (nav, false)];
      assert PairSchedule(m0, nav, 3) == [(m0, true), (nav, false), (nav, true), (m0, false), (m0, true), (nav, false)];
    }
  }

  // ---------------------------------------------------------------------
  // Consultation

  const InitialHeader: string := "PM Initial Approach:\n"

  /**
   * The consultation loop over members ms, call k onwards: every member but
   * the PM is consulted with the context so far, and a reply that arrives is
   * appended under the member's display name; a failed call is skipped.
   */
  function ConsultLoop(o: Oracle, k: nat, s: Session, ms: seq<string>, context: string): (g: Gather)
    decreases |ms|
  {
    if |ms| == 0 then Gather([], context)
    else if ms[0] == s.pm then ConsultLoop(o, k, s, ms[1..], context)
    else
      var next := AddReply(context, o(k), ConsultHeader(DisplayName(s.names, ms[0])), "");
      var rest := ConsultLoop(o, k + 1, s, ms[1..], next);
      Gather([(ms[0], Consult(context, s.task))] + rest.calls, rest.text)
  }

  function ConsultArtifact(s: Session, content: string): Artifact
  {
    Artifact("consultation_output.md", DocumentKind, content, "Final output from consultation", s.pm, ZeroTime, "")
  }

  /**
   * executeConsultation from call k: the PM's initial approach, then the
   * consultations, then the PM's final deliverable. A failure of either PM
   * call ends the mode with that call's error.
   */
  function ConsultRun(o: Oracle, k: nat, s: Session): (t: Outcome<seq<Artifact>>)
    ensures t.events == []
  {
    var iq := InitialApproach(s.task);
    match o(k)
    case CallFailed(e) => Outcome([(s.pm, iq)], [], Failure(e))
    case Reply(c) =>
      var g := ConsultLoop(o, k + 1, s, s.members, InitialHeader + c);
      var calls := [(s.pm, iq)] + g.calls + [(s.pm, ConsultFinal(g.text, s.task))];
      match o(k + 1 + |g.calls|)
      case CallFailed(e) => Outcome(calls, [], Failure(e))
      case Reply(f) => Outcome(calls, [], Success([ConsultArtifact(s, f)]))
  }

  /**
   * The loop consults exactly the members other than the PM, once each and
   * in roster order, and only ever extends the context.
   */
  lemma {:induction false} ConsultLoopCalls(o: Oracle, k: nat, s: Session, ms: seq<string>, context: string)
    ensures var g := ConsultLoop(o, k, s, ms, context);
            Ids(g.calls) == Without(ms, s.pm) && HasPrefix(g.text, context)
    decreases |ms|
  {
    if |ms| > 0 {
      assert ms == [ms[0]] + ms[1..];
      if ms[0] == s.pm {
        ConsultLoopCalls(o, k, s, ms[1..], context);
      } else {
        var next := AddReply(context, o(k), ConsultHeader(DisplayName(s.names, ms[0])), "");
        var rest := ConsultLoop(o, k + 1, s, ms[1..], next);
        ConsultLoopCalls(o, k + 1, s, ms[1..], next);
        IdsCons((ms[0], Consult(context, s.task)), rest.calls);
        PrefixTrans(context, next, rest.text);
      }
    }
  }

  /**
   * Consultation asks the PM first and last and every other member once in
   * between. It fails exactly when the first or the last call fails, with
   * that call's error; otherwise its one document is the PM's final reply,
   * credited to the PM, and that reply was asked for with a context that
   * opens with the PM's initial approach.
   */
  lemma ConsultRunShape(o: Oracle, k: nat, s: Session)
    ensures var t := ConsultRun(o, k, s);
            && (o(k).CallFailed? ==> t.calls == [(s.pm, InitialApproach(s.task))] && t.result == Failure(o(k).err))
            && (o(k).Reply? ==>
                  && Ids(t.calls) == [s.pm] + Without(s.members, s.pm) + [s.pm]
                  && var last := LastReply(o, k, t.calls);
                  && t.calls[|t.calls| - 1].1.ConsultFinal?
                  && HasPrefix(t.calls[|t.calls| - 1].1.consultations, InitialHeader + o(k).content)
                  && (last.CallFailed? ==> t.result == Failure(last.err))
                  && (last.Reply? ==> t.result == Success([ConsultArtifact(s, last.content)])))
  {
    if o(k).Reply? {
      var c := o(k).content;
      var g := ConsultLoop(o, k + 1, s, s.members, InitialHeader + c);
      ConsultLoopCalls(o, k + 1, s, s.members, InitialHeader + c);
      var fin := (s.pm, ConsultFinal(g.text, s.task));
      IdsAppend([(s.pm, InitialApproach(s.task))] + g.calls, [fin]);
      IdsAppend([(s.pm, InitialApproach(s.task))], g.calls);
    }
  }

  // ---------------------------------------------------------------------
  // Round robin

  /**
   * One round over members ms, call k onwards: each member contributes in
   * turn given everything so far, and a reply that arrives is appended
   * under the member's display name and the round number; a failed call is
   * skipped.
   */
  function RoundLoop(o: Oracle, k: nat, s: Session, round: nat, ms: seq<string>, acc: string): (g: Gather)
    decreases |ms|
  {
    if |ms| == 0 then Gather([], acc)
    else
      var next := AddReply(acc, o(k), RoundHeader(DisplayName(s.names, ms[0]), round), "");
      var rest := RoundLoop(o, k + 1, s, round, ms[1..], next);
      Gather([(ms[0], Contribute(s.task, acc))] + rest.calls, rest.text)
  }

  function RoundRobinArtifact(s: Session, content: string): Artifact
  {
    Artifact("round_robin_output.md", DocumentKind, content, "Combined round-robin contributions",
             Join(s.members, ", "), ZeroTime, "")
  }

  /** Rounds `round` to 2, call k onwards, each building on the text so far. */
  function RoundsFrom(o: Oracle, k: nat, s: Session, round: nat, acc: string): (g: Gather)
    requires round <= 3
    decreases 3 - round
  {
    if round == 3 then Gather([], acc)
    else
      var g := RoundLoop(o, k, s, round, s.members, acc);
      var rest := RoundsFrom(o, k + |g.calls|, s, round + 1, g.text);
      Gather(g.calls + rest.calls, rest.text)
  }

  /** executeRoundRobin from call k: rounds 1 and 2, then the combined contributions. */
  function RoundRobinRun(o: Oracle, k: nat, s: Session): (t: Outcome<seq<Artifact>>)
    ensures t.events == [] && t.result.Success?
  {
    var g := RoundsFrom(o, k, s, 1, "");
    Outcome(g.calls, [], Success([RoundRobinArtifact(s, g.text)]))
  }

  /** A round asks every member once, in roster order, and only ever extends the text. */
  lemma {:induction false} RoundLoopCalls(o: Oracle, k: nat, s: Session, round: nat, ms: seq<string>, acc: string)
    ensures var g := RoundLoop(o, k, s, round, ms, acc);
            Ids(g.calls) == ms && HasPrefix(g.text, acc)
    decreases |ms|
  {
    if |ms| > 0 {
      var next := AddReply(acc, o(k), RoundHeader(DisplayName(s.names, ms[0]), round), "");
      var rest := RoundLoop(o, k + 1, s, round, ms[1..], next);
      RoundLoopCalls(o, k + 1, s, round, ms[1..], next);
      IdsCons((ms[0], Contribute(s.task, acc)), rest.calls);
      PrefixTrans(acc, next, rest.text);
      assert ms == [ms[0]] + ms[1..];
    }
  }

  /**
   * What a round adds to the text, as a reference: for each member in
   * roster order whose call succeeded, its round header and its reply.
   */
  function RoundBlocks(o: Oracle, k: nat, s: Session, round: nat, ms: seq<string>): string
    decreases |ms|
  {
    if |ms| == 0 then ""
    else
      (if o(k).Reply? then RoundHeader(DisplayName(s.names, ms[0]), round) + o(k).content else "")
      + RoundBlocks(o, k + 1, s, round, ms[1..])
  }

  /** A round's text is the text it was given followed by that round's blocks. */
  lemma {:induction false} RoundLoopText(o: Oracle, k: nat, s: Session, round: nat, ms: seq<string>, acc: string)
    ensures RoundLoop(o, k, s, round, ms, acc).text == acc + RoundBlocks(o, k, s, round, ms)
    decreases |ms|
  {
    if |ms| > 0 {
      var header := RoundHeader(DisplayName(s.names, ms[0]), round);
      var block := if o(k).Reply? then header + o(k).content else "";
      var next := AddReply(acc, o(k), header, "");
      if o(k).Reply? {
        AppendAssoc(acc, header, o(k).content);
        assert next == acc + block;
      } else {
        assert next == acc + block;
      }
      RoundLoopText(o, k + 1, s, round, ms[1..], next);
      AppendAssoc(acc, block, RoundBlocks(o, k + 1, s, round, ms[1..]));
    }
  }

  /**
   * Round robin never fails: it asks the whole roster twice, in order, and
   * its one document, credited to all members, starts with the first
   * round's text.
   */
  lemma RoundRobinShape(o: Oracle, k: nat, s: Session)
    ensures var t := RoundRobinRun(o, k, s);
            var r1 := RoundLoop(o, k, s, 1, s.members, "");
            && Ids(t.calls) == s.members + s.members
            && |t.result.value| == 1
            && HasPrefix(t.result.value[0].content, r1.text)
            && t.result.value[0].createdBy == Join(s.members, ", ")
  {
    var r1 := RoundLoop(o, k, s, 1, s.members, "");
    var r2 := RoundLoop(o, k + |r1.calls|, s, 2, s.members, r1.text);
    RoundLoopCalls(o, k, s, 1, s.members, "");
    RoundLoopCalls(o, k + |r1.calls|, s, 2, s.members, r1.text);
    assert RoundsFrom(o, k + |r1.calls|, s, 2, r1.text).calls == r2.calls + [];
    assert r2.calls + [] == r2.calls;
    PrefixTrans(r1.text, r2.text, RoundsFrom(o, k + |r1.calls|, s, 2, r1.text).text);
    IdsAppend(r1.calls, r2.calls);
  }

  /**
   * The round-robin document is exactly the first round's blocks followed
   * by the second's: each block a successful member's header and reply, in
   * roster order, and nothing else.
   */
  lemma RoundRobinContent(o: Oracle, k: nat, s: Session)
    ensures RoundRobinRun(o, k, s).result.value[0].content
            == RoundBlocks(o, k, s, 1, s.members) + RoundBlocks(o, k + |s.members|, s, 2, s.members)
  {
    var r1 := RoundLoop(o, k, s, 1, s.members, "");
    var r2 := RoundLoop(o, k + |r1.calls|, s, 2, s.members, r1.text);
    RoundLoopCalls(o, k, s, 1, s.members, "");
    RoundLoopText(o, k, s, 1, s.members, "");
    RoundLoopText(o, k + |r1.calls|, s, 2, s.members, r1.text);
    assert RoundsFrom(o, k + |r1.calls|, s, 2, r1.text).text == r2.text;
    assert "" + RoundBlocks(o, k, s, 1, s.members) == RoundBlocks(o, k, s, 1, s.members);
  }

  // ---------------------------------------------------------------------
  // Free form

  /**
   * The brainstorm over members ms, call k onwards: each member shares
   * thoughts on the task, and a reply that arrives is appended under the
   * member's display name and followed by a blank line; a failed call is
   * skipped.
   */
  function BrainstormLoop(o: Oracle, k: nat, s: Session, ms: seq<string>, discussion: string): (g: Gather)
    decreases |ms|
  {
    if |ms| == 0 then Gather([], discussion)
    else
      var next := AddReply(discussion, o(k), BrainstormHeader(DisplayName(s.names, ms[0])), "\n\n");
      var rest := BrainstormLoop(o, k + 1, s, ms[1..], next);
      Gather([(ms[0], Brainstorm(s.task))] + rest.calls, rest.text)
  }

  function FreeFormArtifact(s: Session, content: string): Artifact
  {
    Artifact("freeform_output.md", DocumentKind, content, "Free-form collaboration output",
             Join(s.members, ", "), ZeroTime, "")
  }

  /**
   * executeFreeForm from call k: the brainstorm, the PM's synthesis of the
   * discussion, then the PM's final deliverable from the discussion and the
   * direction. A failure of either PM call ends the mode with its error.
   */
  function FreeFormRun(o: Oracle, k: nat, s: Session): (t: Outcome<seq<Artifact>>)
    ensures t.events == []
  {
    var g := BrainstormLoop(o, k, s, s.members, "");
    var k1 := k + |g.calls|;
    var sq := (s.pm, Synthesis(g.text, s.task));
    match o(k1)
    case CallFailed(e) => Outcome(g.calls + [sq], [], Failure(e))
    case Reply(d) =>
      var calls := g.calls + [sq, (s.pm, FinalOutput(g.text, d))];
      match o(k1 + 1)
      case CallFailed(e) => Outcome(calls, [], Failure(e))
      case Reply(f) => Outcome(calls, [], Success([FreeFormArtifact(s, f)]))
  }

  /** The brainstorm asks every member once, in roster order, and only ever extends the discussion. */
  lemma {:induction false} BrainstormLoopCalls(o: Oracle, k: nat, s: Session, ms: seq<string>, discussion: string)
    ensures var g := BrainstormLoop(o, k, s, ms, discussion);
            Ids(g.calls) == ms && HasPrefix(g.text, discussion)
    decreases |ms|
  {
    if |ms| > 0 {
      var next := AddReply(discussion, o(k), BrainstormHeader(DisplayName(s.names, ms[0])), "\n\n");
      var rest := BrainstormLoop(o, k + 1, s, ms[1..], next);
      BrainstormLoopCalls(o, k + 1, s, ms[1..], next);
      IdsCons((ms[0], Brainstorm(s.task)), rest.calls);
      PrefixTrans(discussion, next, rest.text);
      assert ms == [ms[0]] + ms[1..];
    }
  }

  /**
   * Free form asks every member once, then the PM for a synthesis and, if
   * that arrives, the PM again for the final output.
   */
  lemma FreeFormCalls(o: Oracle, k: nat, s: Session)
    ensures var t := FreeFormRun(o, k, s);
            var n := |s.members|;
            && (o(k + n).CallFailed? ==> Ids(t.calls) == s.members + [s.pm])
            && (o(k + n).Reply? ==> Ids(t.calls) == s.members + [s.pm, s.pm])
  {
    var g := BrainstormLoop(o, k, s, s.members, "");
    var t := FreeFormRun(o, k, s);
    var sq := (s.pm, Synthesis(g.text, s.task));
    assert Ids(g.calls) == s.members && |g.calls| == |s.members| by {
      BrainstormLoopCalls(o, k, s, s.members, "");
    }
    if o(k + |s.members|).Reply? {
      var calls := [sq, (s.pm, FinalOutput(g.text, o(k + |s.members|).content))];
      assert t.calls == g.calls + calls;
      assert Ids(g.calls + calls) == s.members + [s.pm, s.pm] by {
        IdsAppend(g.calls, calls);
        assert Ids(calls) == [s.pm, s.pm];
      }
    } else {
      assert t.calls == g.calls + [sq];
      assert Ids(g.calls + [sq]) == s.members + [s.pm] by {
        IdsAppend(g.calls, [sq]);
      }
    }
  }

  /**
   * Free form fails exactly when one of the two PM calls fails, with that
   * call's error; otherwise its one document is the final reply, credited
   * to all members.
   */
  lemma FreeFormResult(o: Oracle, k: nat, s: Session)
    ensures var t := FreeFormRun(o, k, s);
            var n := |s.members|;
            && (o(k + n).CallFailed? ==> t.result == Failure(o(k + n).err))
            && (o(k + n).Reply? && o(k + n + 1).CallFailed? ==> t.result == Failure(o(k + n + 1).err))
            && (o(k + n).Reply? && o(k + n + 1).Reply? ==> t.result == Success([FreeFormArtifact(s, o(k + n + 1).content)]))
  {
    BrainstormLoopCalls(o, k, s, s.members, "");
  }

  // ---------------------------------------------------------------------
  // Divide and conquer

  /** The task ID of the subtask at roster position i (from 0): subtask_1, subtask_2, ... */
  function SubtaskId(i: nat): (r: string)
    ensures HasPrefix(r, "subtask_") && r[8..] == NatToString(i + 1)
  {
    "subtask_" + NatToString(i + 1)
  }

  /** What reading a stream gave: the events emitted, and the content or None when a chunk carried an error. */
  datatype Streamed = Streamed(events: seq<Event>, content: Option<string>)

  /**
   * Reading a stream's chunks onto `acc`: each chunk's content is appended
   * and reported as progress 0.5; a chunk carrying an error stops the read
   * and loses the content. A done marker does not stop the read: the stream
   * ends when its chunks run out.
   */
  function ReadChunks(chunks: seq<StreamChunk>, tid: string, m: string, acc: string): (r: Streamed)
    decreases |chunks|
  {
    if |chunks| == 0 then Streamed([], Some(acc))
    else if chunks[0].error.Some? then Streamed([], None)
    else
      var rest := ReadChunks(chunks[1..], tid, m, acc + chunks[0].content);
      Streamed([NewTaskEvent(TaskProgress, tid, m, TaskProgressData(chunks[0].content, 0.5))] + rest.events, rest.content)
  }

  /** No chunk of the stream carries an error. */
  predicate Clean(chunks: seq<StreamChunk>)
  {
    forall j | 0 <= j < |chunks| :: chunks[j].error.None?
  }

  /** The contents of the chunks, concatenated. */
  function ChunkText(chunks: seq<StreamChunk>): string
    decreases |chunks|
  {
    if |chunks| == 0 then "" else chunks[0].content + ChunkText(chunks[1..])
  }

  /** The task IDs of the events of one kind, in order. */
  function KindIds(events: seq<Event>, kind: EventType): (r: seq<string>)
    ensures |r| <= |events|
  {
    if |events| == 0 then []
    else (if events[0].kind == kind then [events[0].taskId] else []) + KindIds(events[1..], kind)
  }

  lemma {:induction false} KindIdsAppend(a: seq<Event>, b: seq<Event>, kind: EventType)
    ensures KindIds(a + b, kind) == KindIds(a, kind) + KindIds(b, kind)
  {
    if |a| == 0 {
      assert a + b == b;
      assert KindIds(a, kind) == [];
    } else {
      var head := if a[0].kind == kind then [a[0].taskId] else [];
      assert (a + b)[0] == a[0] && (a + b)[1..] == a[1..] + b;
      assert KindIds(a + b, kind) == head + KindIds(a[1..] + b, kind);
      KindIdsAppend(a[1..], b, kind);
      assert KindIds(a, kind) == head + KindIds(a[1..], kind);
      assert head + (KindIds(a[1..], kind) + KindIds(b, kind)) == (head + KindIds(a[1..], kind)) + KindIds(b, kind);
    }
  }

  /**
   * A read yields content exactly when no chunk carries an error, and then
   * it is `acc` followed by every chunk's content, with one progress event
   * per chunk; every event it emits is progress on the given task by the
   * given member.
   */
  lemma {:induction false} ReadChunksSpec(chunks: seq<StreamChunk>, tid: string, m: string, acc: string)
    ensures var r := ReadChunks(chunks, tid, m, acc);
            && (r.content.Some? <==> Clean(chunks))
            && (Clean(chunks) ==> r.content.value == acc + ChunkText(chunks) && |r.events| == |chunks|)
            && (forall e | e in r.events :: e.kind == TaskProgress && e.taskId == tid && e.actor == m)
    decreases |chunks|
  {
    if |chunks| > 0 {
      if chunks[0].error.None? {
        ReadChunksSpec(chunks[1..], tid, m, acc + chunks[0].content);
        assert Clean(chunks) <==> Clean(chunks[1..]) by {
          if Clean(chunks[1..]) {
            forall j | 0 <= j < |chunks| ensures chunks[j].error.None? {
              if j > 0 { assert chunks[j] == chunks[1..][j - 1]; }
            }
          }
        }
      } else {
        assert !Clean(chunks);
      }
    }
  }

  /** Events none of which is of a kind contribute no task IDs for it. */
  lemma {:induction false} KindIdsNone(events: seq<Event>, kind: EventType)
    requires forall e | e in events :: e.kind != kind
    ensures KindIds(events, kind) == []
  {
    if |events| > 0 {
      assert events[0] in events;
      KindIdsNone(events[1..], kind);
    }
  }

  /** The result text of a finished subtask. */
  function SubtaskResult(name: string, i: nat, content: string): (r: string)
    ensures HasPrefix(r, "### ")
  {
    "### " + name + " (Subtask " + NatToString(i + 1) + "):\n" + content
  }

  /**
   * One member's subtask after its TaskStarted event, given what opening
   * its stream yielded: the events and the result, which is empty when the
   * stream failed to open (reported as an Error event) or a chunk carried
   * an error (reported by no event); otherwise the read is followed by a
   * TaskCompleted event.
   */
  function SubtaskOutcome(reply: StreamReply, s: Session, i: nat, m: string): (seq<Event>, string)
  {
    var tid := SubtaskId(i);
    match reply
    case StreamFailed(err) => ([NewTaskEvent(Error, tid, m, ErrorData(Some(err), tid, ""))], "")
    case StreamOpened(chunks) =>
      var st := ReadChunks(chunks, tid, m, "");
      match st.content
      case None => (st.events, "")
      case Some(c) => (st.events + [NewTaskEvent(TaskCompleted, tid, m, NoData)], SubtaskResult(DisplayName(s.names, m), i, c))
  }

  /** What the subtasks gave: the calls, the events in order, and one result per member. */
  datatype Subtasks = Subtasks(calls: seq<(string, Ask)>, events: seq<Event>, results: seq<string>)

  /**
   * Each member's subtask outcome depends only on what its own stream
   * yields: the j-th member of ms, at roster position i + j, reads the
   * stream opened by call k + j.
   */
  function SubtaskOutcomes(so: StreamOracle, k: nat, s: Session, i: nat, ms: seq<string>): (outs: seq<(seq<Event>, string)>)
    ensures |outs| == |ms|
  {
    seq(|ms|, j requires 0 <= j < |ms| => SubtaskOutcome(so(k + j), s, i + j, ms[j]))
  }

  /** The first outcome is the first member's, from call k; the others are those of the rest, from call k + 1. */
  lemma SubtaskOutcomesFirst(so: StreamOracle, k: nat, s: Session, i: nat, ms: seq<string>)
    requires |ms| > 0
    ensures var outs := SubtaskOutcomes(so, k, s, i, ms);
            outs[0] == SubtaskOutcome(so(k), s, i, ms[0]) && outs[1..] == SubtaskOutcomes(so, k + 1, s, i + 1, ms[1..])
  {
    var outs := SubtaskOutcomes(so, k, s, i, ms);
    var tail := SubtaskOutcomes(so, k + 1, s, i + 1, ms[1..]);
    forall j | 0 <= j < |tail| ensures outs[1..][j] == tail[j] {
      assert outs[1..][j] == outs[j + 1];
      assert ms[1..][j] == ms[j + 1];
      assert k + 1 + j == k + (j + 1) && i + 1 + j == i + (j + 1);
    }
  }

  /**
   * The subtasks of members ms, the first at roster position i, with their
   * outcomes, put in roster order: each member is announced with TaskStarted
   * and given its numbered subtask and the breakdown, and its outcome's
   * events follow. Go runs the subtasks concurrently, so its events
   * may interleave; here they come one member after another.
   */
  function Assemble(task: string, i: nat, ms: seq<string>, breakdown: string, outs: seq<(seq<Event>, string)>): (r: Subtasks)
    requires |outs| == |ms|
    ensures |r.calls| == |ms| && |r.results| == |ms|
    decreases |ms|
  {
    if |ms| == 0 then Subtasks([], [], [])
    else
      var rest := Assemble(task, i + 1, ms[1..], breakdown, outs[1..]);
      Subtasks([(ms[0], Subtask(task, i + 1, breakdown))] + rest.calls,
               [NewTaskEvent(TaskStarted, SubtaskId(i), ms[0], NoData)] + outs[0].0 + rest.events,
               [outs[0].1] + rest.results)
  }

  /**
   * The first of the subtasks of ms, from call k: the member's call, its
   * TaskStarted event and its outcome, then the subtasks of the others
   * from call k + 1.
   */
  lemma AssembleFirst(so: StreamOracle, k: nat, s: Session, j: nat, ms: seq<string>, breakdown: string)
    requires |ms| > 0
    ensures var out := SubtaskOutcome(so(k), s, j, ms[0]);
            var rest := Assemble(s.task, j + 1, ms[1..], breakdown, SubtaskOutcomes(so, k + 1, s, j + 1, ms[1..]));
            Assemble(s.task, j, ms, breakdown, SubtaskOutcomes(so, k, s, j, ms))
            == Subtasks([(ms[0], Subtask(s.task, j + 1, breakdown))] + rest.calls,
                        [NewTaskEvent(TaskStarted, SubtaskId(j), ms[0], NoData)] + out.0 + rest.events,
                        [out.1] + rest.results)
  {
    SubtaskOutcomesFirst(so, k, s, j, ms);
  }

  /** The merge prompt's input: each non-empty result followed by a blank line. */
  function MergeInput(results: seq<string>): string
  {
    if |results| == 0 then ""
    else
      var last := results[|results| - 1];
      MergeInput(results[..|results| - 1]) + (if last == "" then "" else last + "\n\n")
  }

  function MergedArtifact(s: Session, content: string): Artifact
  {
    Artifact("merged_output.md", DocumentKind, content, "Merged divide-and-conquer output", s.pm, ZeroTime, "")
  }

  /**
   * The merge that ends a divide-and-conquer run, as call k, after the
   * calls `head` and the subtasks `st`: the PM merges the results that
   * arrived, and the mode ends with the merge call's error or the merged
   * document.
   */
  function MergeOutcome(o: Oracle, k: nat, s: Session, head: seq<(string, Ask)>, st: Subtasks): (t: Outcome<seq<Artifact>>)
  {
    var calls := head + st.calls + [(s.pm, Merge(MergeInput(st.results), s.task))];
    match o(k)
    case CallFailed(e) => Outcome(calls, st.events, Failure(e))
    case Reply(c) => Outcome(calls, st.events, Success([MergedArtifact(s, c)]))
  }

  /**
   * executeDivideConquer from call k: the PM divides the task into as many
   * parts as there are members, the members work their subtasks, and the PM
   * merges the results that arrived. A failure of either PM call ends the
   * mode with its error; failed subtasks only leave their result out.
   */
  function DivideConquerRun(o: Oracle, so: StreamOracle, k: nat, s: Session): (t: Outcome<seq<Artifact>>)
  {
    var dq := Divide(|s.members|, s.task);
    match o(k)
    case CallFailed(e) => Outcome([(s.pm, dq)], [], Failure(e))
    case Reply(b) =>
      MergeOutcome(o, k + 1 + |s.members|, s, [(s.pm, dq)],
                   Assemble(s.task, 0, s.members, b, SubtaskOutcomes(so, k + 1, s, 0, s.members)))
  }

  /** Once the division b has arrived, the run is the subtasks followed by the merge. */
  lemma DivideConquerDivided(o: Oracle, so: StreamOracle, k: nat, s: Session, b: string, st: Subtasks)
    requires o(k) == Reply(b)
    requires st == Assemble(s.task, 0, s.members, b, SubtaskOutcomes(so, k + 1, s, 0, s.members))
    ensures DivideConquerRun(o, so, k, s) == MergeOutcome(o, k + 1 + |s.members|, s, [(s.pm, Divide(|s.members|, s.task))], st)
  {
  }

  /**
   * A subtask has a result exactly when its stream opened and no chunk
   * carried an error; the result then holds everything streamed, under the
   * member's display name and subtask number.
   */
  lemma SubtaskOutcomeResult(reply: StreamReply, s: Session, i: nat, m: string)
    ensures var res := SubtaskOutcome(reply, s, i, m).1;
            && (res != "" <==> reply.StreamOpened? && Clean(reply.chunks))
            && (res != "" ==> res == SubtaskResult(DisplayName(s.names, m), i, ChunkText(reply.chunks)))
  {
    if reply.StreamOpened? {
      ReadChunksSpec(reply.chunks, SubtaskId(i), m, "");
    }
  }

  /**
   * A subtask's events never include a TaskStarted, and include one
   * TaskCompleted, for its own task, exactly when it has a result.
   */
  lemma SubtaskOutcomeReported(reply: StreamReply, s: Session, i: nat, m: string)
    ensures Reported(SubtaskOutcome(reply, s, i, m), i)
  {
    var tid := SubtaskId(i);
    match reply
    case StreamFailed(err) =>
      var e := NewTaskEvent(Error, tid, m, ErrorData(Some(err), tid, ""));
      KindIdsNone([e], TaskStarted);
      KindIdsNone([e], TaskCompleted);
    case StreamOpened(chunks) =>
      var st := ReadChunks(chunks, tid, m, "");
      ReadChunksSpec(chunks, tid, m, "");
      KindIdsNone(st.events, TaskStarted);
      KindIdsNone(st.events, TaskCompleted);
      if st.content.Some? {
        var done := NewTaskEvent(TaskCompleted, tid, m, NoData);
        KindIdsAppend(st.events, [done], TaskStarted);
        KindIdsAppend(st.events, [done], TaskCompleted);
      }
  }

  /** The task IDs of n subtasks numbered from roster position i. */
  function SubtaskIds(i: nat, n: nat): (r: seq<string>)
    ensures |r| == n
    decreases n
  {
    if n == 0 then [] else [SubtaskId(i)] + SubtaskIds(i + 1, n - 1)
  }

  /** The task IDs of the subtasks, numbered from position i, whose result is not empty. */
  function FinishedIds(i: nat, results: seq<string>): seq<string>
    decreases |results|
  {
    if |results| == 0 then []
    else (if results[0] != "" then [SubtaskId(i)] else []) + FinishedIds(i + 1, results[1..])
  }

  /** What a member's outcome events promise: no TaskStarted, and TaskCompleted only for a result. */
  predicate Reported(out: (seq<Event>, string), i: nat)
  {
    && KindIds(out.0, TaskStarted) == []
    && KindIds(out.0, TaskCompleted) == (if out.1 != "" then [SubtaskId(i)] else [])
  }

  /** Every outcome, the first at roster position i, reports as it should. */
  predicate AllReported(outs: seq<(seq<Event>, string)>, i: nat)
    decreases |outs|
  {
    |outs| == 0 || (Reported(outs[0], i) && AllReported(outs[1..], i + 1))
  }

  /** The subtask outcomes all report as they should. */
  lemma {:induction false} SubtaskOutcomesReported(so: StreamOracle, k: nat, s: Session, i: nat, ms: seq<string>)
    ensures AllReported(SubtaskOutcomes(so, k, s, i, ms), i)
    decreases |ms|
  {
    if |ms| > 0 {
      SubtaskOutcomeReported(so(k), s, i, ms[0]);
      SubtaskOutcomesReported(so, k + 1, s, i + 1, ms[1..]);
      SubtaskOutcomesFirst(so, k, s, i, ms);
    }
  }

  /** Assembling gives each member one subtask, in roster order. */
  lemma {:induction false} AssembleIds(task: string, i: nat, ms: seq<string>, breakdown: string, outs: seq<(seq<Event>, string)>)
    requires |outs| == |ms|
    ensures Ids(Assemble(task, i, ms, breakdown, outs).calls) == ms
    decreases |ms|
  {
    if |ms| > 0 {
      var rest := Assemble(task, i + 1, ms[1..], breakdown, outs[1..]);
      AssembleIds(task, i + 1, ms[1..], breakdown, outs[1..]);
      IdsCons((ms[0], Subtask(task, i + 1, breakdown)), rest.calls);
      assert ms == [ms[0]] + ms[1..];
    }
  }

  /** The task IDs of one kind in three runs of events, run by run. */
  lemma KindIds3(a: seq<Event>, b: seq<Event>, c: seq<Event>, kind: EventType)
    ensures KindIds(a + b + c, kind) == KindIds(a, kind) + KindIds(b, kind) + KindIds(c, kind)
  {
    KindIdsAppend(a + b, c, kind);
    KindIdsAppend(a, b, kind);
  }

  /** When no outcome reports a start, assembling announces every subtask as started, in order. */
  lemma {:induction false} AssembleStarted(task: string, i: nat, ms: seq<string>, breakdown: string, outs: seq<(seq<Event>, string)>)
    requires |outs| == |ms| && AllReported(outs, i)
    ensures KindIds(Assemble(task, i, ms, breakdown, outs).events, TaskStarted) == SubtaskIds(i, |ms|)
    decreases |ms|
  {
    if |ms| > 0 {
      var rest := Assemble(task, i + 1, ms[1..], breakdown, outs[1..]);
      AssembleStarted(task, i + 1, ms[1..], breakdown, outs[1..]);
      var started := NewTaskEvent(TaskStarted, SubtaskId(i), ms[0], NoData);
      KindIds3([started], outs[0].0, rest.events, TaskStarted);
      assert KindIds([started], TaskStarted) == [SubtaskId(i)];
    }
  }

  /**
   * When each outcome reports completion exactly for a result, assembling
   * reports as completed exactly the subtasks that have a result.
   */
  lemma {:induction false} AssembleCompleted(task: string, i: nat, ms: seq<string>, breakdown: string, outs: seq<(seq<Event>, string)>)
    requires |outs| == |ms| && AllReported(outs, i)
    ensures var r := Assemble(task, i, ms, breakdown, outs);
            KindIds(r.events, TaskCompleted) == FinishedIds(i, r.results)
    decreases |ms|
  {
    if |ms| > 0 {
      var rest := Assemble(task, i + 1, ms[1..], breakdown, outs[1..]);
      var r := Assemble(task, i, ms, breakdown, outs);
      AssembleCompleted(task, i + 1, ms[1..], breakdown, outs[1..]);
      var started := NewTaskEvent(TaskStarted, SubtaskId(i), ms[0], NoData);
      KindIds3([started], outs[0].0, rest.events, TaskCompleted);
      assert KindIds([started], TaskCompleted) == [];
      assert r.results[1..] == rest.results;
    }
  }

  /** The j-th member gets subtask i + j + 1, and its result is its outcome's. */
  lemma {:induction false} AssembleAt(task: string, i: nat, ms: seq<string>, breakdown: string, outs: seq<(seq<Event>, string)>, j: nat)
    requires |outs| == |ms| && j < |ms|
    ensures var r := Assemble(task, i, ms, breakdown, outs);
            r.calls[j] == (ms[j], Subtask(task, i + j + 1, breakdown)) && r.results[j] == outs[j].1
    decreases j
  {
    if j > 0 {
      AssembleAt(task, i + 1, ms[1..], breakdown, outs[1..], j - 1);
    }
  }

  /**
   * The merge is the last call, made by the PM on the results that arrived,
   * after the calls before it; the mode fails exactly when the merge call
   * fails, with its error, and otherwise delivers the merged reply as one
   * document by the PM.
   */
  lemma MergeOutcomeShape(o: Oracle, k: nat, s: Session, head: seq<(string, Ask)>, st: Subtasks)
    ensures var t := MergeOutcome(o, k, s, head, st);
            && Ids(t.calls) == Ids(head) + Ids(st.calls) + [s.pm]
            && t.calls[|t.calls| - 1] == (s.pm, Merge(MergeInput(st.results), s.task))
            && t.events == st.events
            && (o(k).CallFailed? ==> t.result == Failure(o(k).err))
            && (o(k).Reply? ==> t.result == Success([MergedArtifact(s, o(k).content)]))
  {
    var last := [(s.pm, Merge(MergeInput(st.results), s.task))];
    IdsAppend(head + st.calls, last);
    IdsAppend(head, st.calls);
  }

  /**
   * Divide and conquer asks the PM to divide the task into one part per
   * member; if that fails, the mode fails at once with its error, having
   * made no other call and emitted no event. Otherwise the mode fails
   * exactly when the merge call fails, with its error, and otherwise
   * delivers the merged reply as one document by the PM.
   */
  lemma DivideConquerResult(o: Oracle, so: StreamOracle, k: nat, s: Session)
    ensures var t := DivideConquerRun(o, so, k, s);
            && (o(k).CallFailed? ==> t.calls == [(s.pm, Divide(|s.members|, s.task))] && t.events == [] && t.result == Failure(o(k).err))
            && (o(k).Reply? ==>
                  var last := o(k + 1 + |s.members|);
                  && (last.CallFailed? ==> t.result == Failure(last.err))
                  && (last.Reply? ==> t.result == Success([MergedArtifact(s, last.content)])))
  {
    if o(k).Reply? {
      var st := Assemble(s.task, 0, s.members, o(k).content, SubtaskOutcomes(so, k + 1, s, 0, s.members));
      DivideConquerDivided(o, so, k, s, o(k).content, st);
      MergeOutcomeShape(o, k + 1 + |s.members|, s, [(s.pm, Divide(|s.members|, s.task))], st);
    }
  }

  /**
   * Once the division has arrived, the PM is called, then each member in
   * roster order with one subtask, then the PM again to merge the results
   * that arrived.
   */
  lemma DivideConquerCalls(o: Oracle, so: StreamOracle, k: nat, s: Session)
    requires o(k).Reply?
    ensures var t := DivideConquerRun(o, so, k, s);
            var st := Assemble(s.task, 0, s.members, o(k).content, SubtaskOutcomes(so, k + 1, s, 0, s.members));
            && Ids(t.calls) == [s.pm] + s.members + [s.pm]
            && t.calls[|t.calls| - 1] == (s.pm, Merge(MergeInput(st.results), s.task))
  {
    var b := o(k).content;
    var outs := SubtaskOutcomes(so, k + 1, s, 0, s.members);
    var st := Assemble(s.task, 0, s.members, b, outs);
    DivideConquerDivided(o, so, k, s, b, st);
    AssembleIds(s.task, 0, s.members, b, outs);
    MergeCalls(o, k + 1 + |s.members|, s, Divide(|s.members|, s.task), st);
  }

  /** When the subtasks call the members in roster order, the run calls the PM, the members, the PM. */
  lemma MergeCalls(o: Oracle, k: nat, s: Session, dq: Ask, st: Subtasks)
    requires Ids(st.calls) == s.members
    ensures var t := MergeOutcome(o, k, s, [(s.pm, dq)], st);
            && Ids(t.calls) == [s.pm] + s.members + [s.pm]
            && t.calls[|t.calls| - 1] == (s.pm, Merge(MergeInput(st.results), s.task))
  {
    MergeOutcomeShape(o, k, s, [(s.pm, dq)], st);
    assert Ids([(s.pm, dq)]) == [s.pm];
  }

  /**
   * Once the division has arrived, every subtask is announced as started,
   * in order, and exactly the finished ones are reported as completed.
   */
  lemma DivideConquerEvents(o: Oracle, so: StreamOracle, k: nat, s: Session)
    requires o(k).Reply?
    ensures var t := DivideConquerRun(o, so, k, s);
            var st := Assemble(s.task, 0, s.members, o(k).content, SubtaskOutcomes(so, k + 1, s, 0, s.members));
            && t.events == st.events
            && KindIds(t.events, TaskStarted) == SubtaskIds(0, |s.members|)
            && KindIds(t.events, TaskCompleted) == FinishedIds(0, st.results)
  {
    var outs := SubtaskOutcomes(so, k + 1, s, 0, s.members);
    SubtaskOutcomesReported(so, k + 1, s, 0, s.members);
    AssembleStarted(s.task, 0, s.members, o(k).content, outs);
    AssembleCompleted(s.task, 0, s.members, o(k).content, outs);
  }

  /**
   * The j-th subtask (from 0) is asked for with its number and the
   * breakdown, and has a result exactly when its stream opened and no chunk
   * carried an error; the result then holds everything streamed under the
   * member's display name and subtask number.
   */
  lemma DivideConquerSubtask(so: StreamOracle, k: nat, s: Session, breakdown: string, j: nat)
    requires j < |s.members|
    ensures var st := Assemble(s.task, 0, s.members, breakdown, SubtaskOutcomes(so, k, s, 0, s.members));
            var reply := so(k + j);
            && st.calls[j] == (s.members[j], Subtask(s.task, j + 1, breakdown))
            && (st.results[j] != "" <==> reply.StreamOpened? && Clean(reply.chunks))
            && (st.results[j] != "" ==> st.results[j] == SubtaskResult(DisplayName(s.names, s.members[j]), j, ChunkText(reply.chunks)))
  {
    AssembleAt(s.task, 0, s.members, breakdown, SubtaskOutcomes(so, k, s, 0, s.members), j);
    SubtaskOutcomeResult(so(k + j), s, j, s.members[j]);
  }

  /** The events a work mode emits: all of them are tagged with a subtask. */
  predicate SubtaskKind(e: Event)
  {
    && (e.kind == TaskStarted || e.kind == TaskProgress || e.kind == TaskCompleted || e.kind == Error)
    && e.taskId != ""
  }

  /** Every event of a subtask's outcome is of a subtask kind. */
  lemma SubtaskOutcomeKinds(reply: StreamReply, s: Session, i: nat, m: string)
    ensures forall e | e in SubtaskOutcome(reply, s, i, m).0 :: SubtaskKind(e)
  {
    if reply.StreamOpened? {
      ReadChunksSpec(reply.chunks, SubtaskId(i), m, "");
    }
  }

  /** Putting outcomes whose events are of subtask kinds together adds only TaskStarted events. */
  lemma {:induction false} AssembleKinds(task: string, i: nat, ms: seq<string>, breakdown: string, outs: seq<(seq<Event>, string)>)
    requires |outs| == |ms|
    requires forall j | 0 <= j < |outs| :: forall e | e in outs[j].0 :: SubtaskKind(e)
    ensures forall e | e in Assemble(task, i, ms, breakdown, outs).events :: SubtaskKind(e)
    decreases |ms|
  {
    if |ms| > 0 {
      assert forall j | 0 <= j < |outs[1..]| :: outs[1..][j] == outs[j + 1];
      AssembleKinds(task, i + 1, ms[1..], breakdown, outs[1..]);
    }
  }

  /** Whatever the mode and the replies, the execution phase emits only subtask events. */
  lemma ExecuteKinds(o: Oracle, so: StreamOracle, k: nat, s: Session)
    ensures forall e | e in ExecuteRun(o, so, k, s).events :: SubtaskKind(e)
  {
    if s.mode == ModeDivideConquer && o(k).Reply? {
      var outs := SubtaskOutcomes(so, k + 1, s, 0, s.members);
      forall j | 0 <= j < |outs| ensures forall e | e in outs[j].0 :: SubtaskKind(e) {
        SubtaskOutcomeKinds(so(k + 1 + j), s, j, s.members[j]);
      }
      AssembleKinds(s.task, 0, s.members, o(k).content, outs);
      DivideConquerDivided(o, so, k, s, o(k).content, Assemble(s.task, 0, s.members, o(k).content, outs));
    }
  }

  // ---------------------------------------------------------------------
  // Dispatch

  /**
   * Execute from call k: the session's mode, with free form for any mode not
   * recognised. Only divide and conquer emits events.
   */
  function ExecuteRun(o: Oracle, so: StreamOracle, k: nat, s: Session): (t: Outcome<seq<Artifact>>)
    ensures s.mode != ModeDivideConquer ==> t.events == []
    ensures !IsKnownMode(s.mode) ==> t == FreeFormRun(o, k, s)
  {
    if s.mode == ModePairProgramming then PairRun(o, k, s)
    else if s.mode == ModeConsultation then ConsultRun(o, k, s)
    else if s.mode == ModeRoundRobin then RoundRobinRun(o, k, s)
    else if s.mode == ModeDivideConquer then DivideConquerRun(o, so, k, s)
    else FreeFormRun(o, k, s)
  }
}
