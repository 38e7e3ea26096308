/**
 * The council debate: members known to the registry give opening
 * statements, then rebuttals for rounds 2 to the configured count, then
 * individual syntheses, and the first member writes the final verdict.
 * A member whose call fails is skipped for that round. Each call's request
 * is recorded by what it asks for; the wording of prompts is not modelled,
 * but the debate history each one carries is. The runner's methods are
 * proved to make exactly the calls, and build exactly the transcript, that
 * the specification functions below describe for the port's replies.
 */
module Debate {
  import opened Results
  import opened Text
  import opened Port
  import Config
  import Providers

  /** debate.Options. */
  datatype Options = Options(topic: string, mode: string, rounds: int, members: seq<string>,
                             stream: bool, verbose: bool, outputDir: string)

  /** debate.Response (without its timestamp). */
  datatype Response = Response(aiId: string, aiName: string, content: string, round: int, phase: string)

  /** debate.Transcript (without its start and end times). */
  datatype Transcript = Transcript(topic: string, mode: string, members: seq<string>,
                                   rounds: seq<seq<Response>>, synthesis: seq<Response>, final: string)

  /** What a call asks for, with the part of the debate its prompt quotes. */
  datatype Ask =
    | Opening(topic: string)
    | Rebuttal(topic: string, round: int, history: seq<Response>)
    | Synthesis(topic: string, history: seq<Response>)
    | Verdict(topic: string, syntheses: seq<Response>)

  /** A request: what is asked, and the kind of discussion the system prompt describes. */
  datatype Request = Request(ask: Ask, discussion: string)

  /** getSystemPrompt: the mode's description ("collaborative discussion" for any unknown mode). */
  function ModeDescription(mode: string): (d: string)
    ensures mode == "adversarial" ==> d == "adversarial debate"
    ensures mode == "socratic" ==> d == "Socratic dialogue"
    ensures mode != "adversarial" && mode != "socratic" ==> d == "collaborative discussion"
  {
    if mode == "adversarial" then "adversarial debate"
    else if mode == "socratic" then "Socratic dialogue"
    else "collaborative discussion"
  }

  /** All responses of the rounds, round after round, each in member order. */
  function Flatten(rounds: seq<seq<Response>>): seq<Response>
  {
    if |rounds| == 0 then [] else Flatten(rounds[..|rounds| - 1]) + rounds[|rounds| - 1]
  }

  /**
   * What a stream delivers: the concatenated content, or the first error
   * chunk's error.
   */
  function Collected(chunks: seq<StreamChunk>): Result<string>
  {
    if |chunks| == 0 then Success("")
    else if chunks[0].error.Some? then Failure(chunks[0].error.value)
    else
      match Collected(chunks[1..])
      case Failure(e) => Failure(e)
      case Success(rest) => Success(chunks[0].content + rest)
  }

  /** The text read so far put in front of what the rest of a stream delivers. */
  function After(content: string, rest: Result<string>): Result<string>
  {
    match rest
    case Failure(e) => Failure(e)
    case Success(text) => Success(content + text)
  }

  lemma AfterThen(content: string, more: string, rest: Result<string>)
    ensures After(content, After(more, rest)) == After(content + more, rest)
  {
    if rest.Success? {
      assert content + (more + rest.value) == content + more + rest.value;
    }
  }

  /** The outcome of the k-th call: invoked, or streamed and collected. */
  function Answer(o: Oracle, so: StreamOracle, stream: bool, k: nat): Result<string>
  {
    if stream then
      match so(k)
      case StreamFailed(e) => Failure(e)
      case StreamOpened(chunks) => Collected(chunks)
    else
      match o(k)
      case CallFailed(e) => Failure(e)
      case Reply(c) => Success(c)
  }

  /** A round's outcome: the responses kept and the calls made. */
  datatype Round = Round(responses: seq<Response>, calls: seq<(string, Request)>)

  /**
   * A round over members `ms` from call k: a member without a configured
   * model is skipped without a call; any other is asked, and kept with its
   * display name, the round number and phase when its call succeeds.
   */
  function RoundFrom(o: Oracle, so: StreamOracle, k: nat, opts: Options, models: map<string, Config.ModelConfig>,
                     ask: Ask, round: int, phase: string, ms: seq<string>): Round
    decreases |ms|
  {
    if |ms| == 0 then Round([], [])
    else if ms[0] !in models then RoundFrom(o, so, k, opts, models, ask, round, phase, ms[1..])
    else
      var rest := RoundFrom(o, so, k + 1, opts, models, ask, round, phase, ms[1..]);
      var kept := match Answer(o, so, opts.stream, k)
                  case Failure(_) => []
                  case Success(c) => [Response(ms[0], Config.DisplayName(models, ms[0]), c, round, phase)];
      Round(kept + rest.responses, [(ms[0], Request(ask, ModeDescription(opts.mode)))] + rest.calls)
  }

  /** The rebuttal rounds from `round` on, after the rounds so far. */
  datatype Rounds = Rounds(rounds: seq<seq<Response>>, calls: seq<(string, Request)>)

  function RebuttalsFrom(o: Oracle, so: StreamOracle, k: nat, opts: Options, models: map<string, Config.ModelConfig>,
                         round: int, rounds: seq<seq<Response>>): Rounds
    decreases opts.rounds - round + 1
  {
    if round > opts.rounds then Rounds(rounds, [])
    else
      var r := RoundFrom(o, so, k, opts, models, Rebuttal(opts.topic, round, Flatten(rounds)), round, "rebuttal", opts.members);
      var rest := RebuttalsFrom(o, so, k + |r.calls|, opts, models, round + 1, rounds + [r.responses]);
      Rounds(rest.rounds, r.calls + rest.calls)
  }

  /** A debate's outcome: the transcript or the error, and the calls made. */
  datatype Outcome = Outcome(result: Result<Transcript>, calls: seq<(string, Request)>)

  /**
   * The syntheses and the verdict after the rounds: everyone synthesises the
   * whole history, then the first member is asked for the verdict over the
   * syntheses; a verdict that cannot be had fails the debate.
   */
  function Concluded(o: Oracle, so: StreamOracle, k: nat, opts: Options, models: map<string, Config.ModelConfig>,
                     rounds: seq<seq<Response>>): Outcome
    requires |opts.members| > 0
  {
    var s := RoundFrom(o, so, k, opts, models, Synthesis(opts.topic, Flatten(rounds)), 0, "synthesis", opts.members);
    var judge := opts.members[0];
    if judge !in models then
      Outcome(Failure("final verdict: model " + Providers.Quote(judge) + " not found in config"), s.calls)
    else
      var call := (judge, Request(Verdict(opts.topic, s.responses), ModeDescription(opts.mode)));
      match Answer(o, so, opts.stream, k + |s.calls|)
      case Failure(e) => Outcome(Failure("final verdict: " + e), s.calls + [call])
      case Success(final) =>
        Outcome(Success(Transcript(opts.topic, opts.mode, opts.members, rounds, s.responses, final)), s.calls + [call])
  }

  /** The first member the registry cannot place, as the run's error. */
  function FirstUnknown(reg: Providers.Registry, ms: seq<string>): Option<string>
    reads reg
  {
    if |ms| == 0 then None
    else match reg.GetForModel(ms[0])
      case Failure(e) => Some("member " + Providers.Quote(ms[0]) + ": " + e)
      case Success(_) => FirstUnknown(reg, ms[1..])
  }

  /**
   * A debate among members that all passed validation, from call k. The
   * round count is not negative here: Run panics before validation otherwise.
   */
  function Debated(o: Oracle, so: StreamOracle, k: nat, opts: Options, models: map<string, Config.ModelConfig>): Outcome
    requires |opts.members| > 0 && opts.rounds >= 0
  {
    var opening := RoundFrom(o, so, k, opts, models, Opening(opts.topic), 1, "opening", opts.members);
    var rebuttals := RebuttalsFrom(o, so, k + |opening.calls|, opts, models, 2, [opening.responses]);
    var end := Concluded(o, so, k + |opening.calls| + |rebuttals.calls|, opts, models, rebuttals.rounds);
    Outcome(end.result, opening.calls + rebuttals.calls + end.calls)
  }

  /** How Run ends: it returns (an error, or the transcript it built), or the Go runtime panics. */
  datatype Exit = Returned(result: Result<Transcript>) | Panicked(reason: string)

  /** How Run ends, and the calls it made. */
  datatype Ran = Ran(exit: Exit, calls: seq<(string, Request)>)

  /** The panic of `make` with a negative capacity, which Run's round slice gets for a negative round count. */
  const CapOutOfRange := "makeslice: cap out of range"

  /**
   * Run from call k: the transcript's round slice is allocated with the
   * round count as its capacity, then every member is validated, then the
   * debate runs.
   */
  function DebateRun(o: Oracle, so: StreamOracle, k: nat, opts: Options, models: map<string, Config.ModelConfig>,
                     reg: Providers.Registry): (d: Ran)
    requires |opts.members| > 0
    reads reg
    ensures d.exit.Panicked? <==> opts.rounds < 0
    ensures d.exit.Panicked? ==> d.calls == []
    ensures opts.rounds >= 0 && FirstUnknown(reg, opts.members).Some? ==>
              d.exit == Returned(Failure(FirstUnknown(reg, opts.members).value)) && d.calls == []
  {
    if opts.rounds < 0 then Ran(Panicked(CapOutOfRange), [])
    else match FirstUnknown(reg, opts.members)
      case Some(e) => Ran(Returned(Failure(e)), [])
      case None =>
        var d := Debated(o, so, k, opts, models);
        Ran(Returned(d.result), d.calls)
  }

  class DebateRunner {
    const port: ModelPort<Request>
    const registry: Providers.Registry
    /** The configured models, by AI ID. */
    const models: map<string, Config.ModelConfig>

    /** NewRunner. */
    constructor (port: ModelPort<Request>, registry: Providers.Registry, models: map<string, Config.ModelConfig>)
      ensures this.port == port && this.registry == registry && this.models == models
    {
      this.port := port;
      this.registry := registry;
      this.models := models;
    }

    /** invokeStreaming's read loop: the content of the chunks up to the first error. */
    method Collect(chunks: seq<StreamChunk>) returns (r: Result<string>)
      ensures r == Collected(chunks)
    {
      var content := "";
      var i := 0;
      assert chunks[0..] == chunks;
      assert Collected(chunks) == After("", Collected(chunks[0..])) by {
        if Collected(chunks).Success? {
          assert "" + Collected(chunks).value == Collected(chunks).value;
        }
      }
      while i < |chunks|
        invariant 0 <= i <= |chunks|
        invariant Collected(chunks) == After(content, Collected(chunks[i..]))
      {
        assert chunks[i..][1..] == chunks[i + 1..];
        if chunks[i].error.Some? {
          assert Collected(chunks[i..]) == Failure(chunks[i].error.value);
          return Failure(chunks[i].error.value);
        }
        assert Collected(chunks[i..]) == After(chunks[i].content, Collected(chunks[i + 1..]));
        AfterThen(content, chunks[i].content, Collected(chunks[i + 1..]));
        assert content + "" == content;
        if chunks[i].content != "" {
          content := content + chunks[i].content;
        }
        i := i + 1;
      }
      assert chunks[i..] == [] && content + "" == content;
      r := Success(content);
    }

    /**
     * invokeAI: a member without a configured model fails without a call;
     * otherwise the member is called once, by invocation or by stream.
     */
    method InvokeAI(aiId: string, ask: Ask, opts: Options) returns (r: Result<string>)
      modifies port
      ensures aiId !in models ==>
                r == Failure("model " + Providers.Quote(aiId) + " not found in config") && port.calls == old(port.calls)
      ensures aiId in models ==>
                && port.calls == old(port.calls) + [(aiId, Request(ask, ModeDescription(opts.mode)))]
                && r == Answer(port.invoke, port.stream, opts.stream, |old(port.calls)|)
    {
      if aiId !in models {
        return Failure("model " + Providers.Quote(aiId) + " not found in config");
      }
      var req := Request(ask, ModeDescription(opts.mode));
      if opts.stream {
        var reply := port.Stream(aiId, req);
        if reply.StreamFailed? {
          return Failure(reply.err);
        }
        r := Collect(reply.chunks);
      } else {
        var reply := port.Invoke(aiId, req);
        r := if reply.CallFailed? then Failure(reply.err) else Success(reply.content);
      }
    }

    /** One member's turn in a round in progress. */
    method RoundMember(opts: Options, ask: Ask, round: int, phase: string, ms: seq<string>, kept: seq<Response>,
                       ghost c0: seq<(string, Request)>, ghost whole: Round) returns (next: seq<Response>)
      requires |ms| > 0
      requires var rest := RoundFrom(port.invoke, port.stream, |port.calls|, opts, models, ask, round, phase, ms);
               c0 + whole.calls == port.calls + rest.calls && whole.responses == kept + rest.responses
      modifies port
      ensures var rest := RoundFrom(port.invoke, port.stream, |port.calls|, opts, models, ask, round, phase, ms[1..]);
              c0 + whole.calls == port.calls + rest.calls && whole.responses == next + rest.responses
    {
      ghost var before := port.calls;
      var answer := InvokeAI(ms[0], ask, opts);
      next := kept;
      if answer.Success? {
        next := kept + [Response(ms[0], Config.DisplayName(models, ms[0]), answer.value, round, phase)];
      }
      ghost var rest := RoundFrom(port.invoke, port.stream, |port.calls|, opts, models, ask, round, phase, ms[1..]);
      if ms[0] in models {
        assert before + ([(ms[0], Request(ask, ModeDescription(opts.mode)))] + rest.calls) == port.calls + rest.calls;
      }
    }

    /** runOpeningRound, runRebuttalRound and runSynthesisRound: every member in turn. */
    method RunRound(opts: Options, ask: Ask, round: int, phase: string) returns (responses: seq<Response>)
      modifies port
      ensures var r := RoundFrom(port.invoke, port.stream, |old(port.calls)|, opts, models, ask, round, phase, opts.members);
              port.calls == old(port.calls) + r.calls && responses == r.responses
    {
      ghost var c0 := port.calls;
      ghost var whole := RoundFrom(port.invoke, port.stream, |c0|, opts, models, ask, round, phase, opts.members);
      responses := [];
      var j := 0;
      while j < |opts.members|
        invariant j <= |opts.members|
        invariant var rest := RoundFrom(port.invoke, port.stream, |port.calls|, opts, models, ask, round, phase, opts.members[j..]);
                  c0 + whole.calls == port.calls + rest.calls && whole.responses == responses + rest.responses
      {
        responses := RoundMember(opts, ask, round, phase, opts.members[j..], responses, c0, whole);
        assert opts.members[j..][1..] == opts.members[j + 1..];
        j := j + 1;
      }
    }

    /** The next rebuttal round of a run in progress. */
    method NextRebuttal(opts: Options, round: int, rounds: seq<seq<Response>>,
                        ghost c0: seq<(string, Request)>, ghost whole: Rounds) returns (next: seq<seq<Response>>)
      requires round <= opts.rounds
      requires var rest := RebuttalsFrom(port.invoke, port.stream, |port.calls|, opts, models, round, rounds);
               c0 + whole.calls == port.calls + rest.calls && whole.rounds == rest.rounds
      modifies port
      ensures var rest := RebuttalsFrom(port.invoke, port.stream, |port.calls|, opts, models, round + 1, next);
              c0 + whole.calls == port.calls + rest.calls && whole.rounds == rest.rounds
    {
      ghost var before := port.calls;
      var responses := RunRound(opts, Rebuttal(opts.topic, round, Flatten(rounds)), round, "rebuttal");
      next := rounds + [responses];
      ghost var r := RoundFrom(port.invoke, port.stream, |before|, opts, models, Rebuttal(opts.topic, round, Flatten(rounds)),
                               round, "rebuttal", opts.members);
      ghost var rest := RebuttalsFrom(port.invoke, port.stream, |before| + |r.calls|, opts, models, round + 1, next);
      assert |port.calls| == |before| + |r.calls|;
      assert before + (r.calls + rest.calls) == port.calls + rest.calls;
    }

    /** runSynthesisRound then runFinalVerdict, after the rounds. */
    method Conclude(opts: Options, rounds: seq<seq<Response>>) returns (r: Result<Transcript>)
      requires |opts.members| > 0
      modifies port
      ensures var e := Concluded(port.invoke, port.stream, |old(port.calls)|, opts, models, rounds);
              port.calls == old(port.calls) + e.calls && r == e.result
    {
      var syntheses := RunRound(opts, Synthesis(opts.topic, Flatten(rounds)), 0, "synthesis");
      var verdict := InvokeAI(opts.members[0], Verdict(opts.topic, syntheses), opts);
      if verdict.Failure? {
        return Failure("final verdict: " + verdict.error);
      }
      r := Success(Transcript(opts.topic, opts.mode, opts.members, rounds, syntheses, verdict.value));
    }

    /** Checks every member against the registry, in order. */
    method Validate(members: seq<string>) returns (err: Option<string>)
      ensures err == FirstUnknown(registry, members)
    {
      var i := 0;
      while i < |members|
        invariant 0 <= i <= |members|
        invariant FirstUnknown(registry, members[i..]) == FirstUnknown(registry, members)
      {
        assert members[i..][1..] == members[i + 1..];
        var found := registry.GetForModel(members[i]);
        if found.Failure? {
          return Some("member " + Providers.Quote(members[i]) + ": " + found.error);
        }
        i := i + 1;
      }
      return None;
    }

    /**
     * Run. The members are never empty here: the council falls back to the
     * configured default council, which is never empty. A negative round
     * count makes the allocation of the round slice panic before anything
     * else happens.
     */
    method Run(opts: Options) returns (exit: Exit)
      requires |opts.members| > 0
      modifies port
      ensures var d := DebateRun(port.invoke, port.stream, |old(port.calls)|, opts, models, registry);
              port.calls == old(port.calls) + d.calls && exit == d.exit
    {
      if opts.rounds < 0 {
        return Panicked(CapOutOfRange);
      }
      var err := Validate(opts.members);
      if err.Some? {
        return Returned(Failure(err.value));
      }
      var r := RunDebate(opts);
      exit := Returned(r);
    }

    /** The rounds after validation: opening, rebuttals, syntheses, verdict. */
    method RunDebate(opts: Options) returns (r: Result<Transcript>)
      requires |opts.members| > 0 && opts.rounds >= 0
      modifies port
      ensures var d := Debated(port.invoke, port.stream, |old(port.calls)|, opts, models);
              port.calls == old(port.calls) + d.calls && r == d.result
    {
      ghost var c0 := port.calls;
      var openings := RunRound(opts, Opening(opts.topic), 1, "opening");
      ghost var c1 := port.calls;
      var rounds := RunRebuttals(opts, openings);
      ghost var c2 := port.calls;
      r := Conclude(opts, rounds);
      DebatedFrom(port.invoke, port.stream, opts, models, c0, c1, c2, port.calls, openings, rounds, r);
    }

    /** The rebuttal rounds, 2 to the configured count, after the openings. */
    method RunRebuttals(opts: Options, openings: seq<Response>) returns (rounds: seq<seq<Response>>)
      modifies port
      ensures var w := RebuttalsFrom(port.invoke, port.stream, |old(port.calls)|, opts, models, 2, [openings]);
              port.calls == old(port.calls) + w.calls && rounds == w.rounds
    {
      ghost var c1 := port.calls;
      ghost var whole := RebuttalsFrom(port.invoke, port.stream, |c1|, opts, models, 2, [openings]);
      rounds := [openings];
      var round := 2;
      while round <= opts.rounds
        invariant var rest := RebuttalsFrom(port.invoke, port.stream, |port.calls|, opts, models, round, rounds);
                  c1 + whole.calls == port.calls + rest.calls && whole.rounds == rest.rounds
        decreases opts.rounds - round
      {
        rounds := NextRebuttal(opts, round, rounds, c1, whole);
        round := round + 1;
      }
    }
  }

  /** A debate is its three stretches of calls, one after the other. */
  lemma DebatedFrom(o: Oracle, so: StreamOracle, opts: Options, models: map<string, Config.ModelConfig>,
                    c0: seq<(string, Request)>, c1: seq<(string, Request)>, c2: seq<(string, Request)>,
                    c3: seq<(string, Request)>, openings: seq<Response>, rounds: seq<seq<Response>>,
                    r: Result<Transcript>)
    requires |opts.members| > 0 && opts.rounds >= 0
    requires var opening := RoundFrom(o, so, |c0|, opts, models, Opening(opts.topic), 1, "opening", opts.members);
             c1 == c0 + opening.calls && openings == opening.responses
    requires var w := RebuttalsFrom(o, so, |c1|, opts, models, 2, [openings]);
             c2 == c1 + w.calls && rounds == w.rounds
    requires var e := Concluded(o, so, |c2|, opts, models, rounds);
             c3 == c2 + e.calls && r == e.result
    ensures var d := Debated(o, so, |c0|, opts, models);
            c3 == c0 + d.calls && r == d.result
  {
    var opening := RoundFrom(o, so, |c0|, opts, models, Opening(opts.topic), 1, "opening", opts.members);
    var w := RebuttalsFrom(o, so, |c1|, opts, models, 2, [openings]);
    var e := Concluded(o, so, |c2|, opts, models, rounds);
    assert c3 == c0 + (opening.calls + w.calls + e.calls);
  }

  // ---------------------------------------------------------------------
  // Properties of a debate

  /** The members with a configured model, in order. */
  function Configured(ms: seq<string>, models: map<string, Config.ModelConfig>): seq<string>
  {
    if |ms| == 0 then [] else (if ms[0] in models then [ms[0]] else []) + Configured(ms[1..], models)
  }

  /** Of the IDs called from call k on, those whose call succeeded, in order. */
  function Succeeded(o: Oracle, so: StreamOracle, stream: bool, k: nat, ids: seq<string>): seq<string>
    decreases |ids|
  {
    if |ids| == 0 then []
    else (if Answer(o, so, stream, k).Success? then [ids[0]] else []) + Succeeded(o, so, stream, k + 1, ids[1..])
  }

  function Ids(rs: seq<Response>): seq<string>
  {
    seq(|rs|, i requires 0 <= i < |rs| => rs[i].aiId)
  }

  function Callees(calls: seq<(string, Request)>): seq<string>
  {
    seq(|calls|, i requires 0 <= i < |calls| => calls[i].0)
  }

  /**
   * A round calls each member that has a configured model exactly once, in
   * member order, always with the round's request.
   */
  lemma {:induction false} RoundCalls(o: Oracle, so: StreamOracle, k: nat, opts: Options,
                                      models: map<string, Config.ModelConfig>, ask: Ask, round: int, phase: string,
                                      ms: seq<string>)
    ensures var r := RoundFrom(o, so, k, opts, models, ask, round, phase, ms);
            && Callees(r.calls) == Configured(ms, models)
            && forall i | 0 <= i < |r.calls| :: r.calls[i].1 == Request(ask, ModeDescription(opts.mode))
    decreases |ms|
  {
    if |ms| > 0 {
      var k' := if ms[0] in models then k + 1 else k;
      RoundCalls(o, so, k', opts, models, ask, round, phase, ms[1..]);
      var rest := RoundFrom(o, so, k', opts, models, ask, round, phase, ms[1..]);
      var r := RoundFrom(o, so, k, opts, models, ask, round, phase, ms);
      if ms[0] in models {
        assert r.calls == [(ms[0], Request(ask, ModeDescription(opts.mode)))] + rest.calls;
        assert Callees(r.calls) == [ms[0]] + Callees(rest.calls);
      }
    }
  }

  /**
   * A round keeps a response exactly for the calls that succeeded, in call
   * order, each tagged with the round, the phase and the member's display
   * name.
   */
  lemma {:induction false} RoundResponses(o: Oracle, so: StreamOracle, k: nat, opts: Options,
                                          models: map<string, Config.ModelConfig>, ask: Ask, round: int, phase: string,
                                          ms: seq<string>)
    ensures var r := RoundFrom(o, so, k, opts, models, ask, round, phase, ms);
            && Ids(r.responses) == Succeeded(o, so, opts.stream, k, Callees(r.calls))
            && forall i | 0 <= i < |r.responses| ::
                 && r.responses[i].round == round && r.responses[i].phase == phase
                 && r.responses[i].aiName == Config.DisplayName(models, r.responses[i].aiId)
    decreases |ms|
  {
    if |ms| > 0 {
      var k' := if ms[0] in models then k + 1 else k;
      RoundResponses(o, so, k', opts, models, ask, round, phase, ms[1..]);
      var rest := RoundFrom(o, so, k', opts, models, ask, round, phase, ms[1..]);
      var r := RoundFrom(o, so, k, opts, models, ask, round, phase, ms);
      if ms[0] in models {
        var kept: seq<Response> := match Answer(o, so, opts.stream, k)
                    case Failure(_) => []
                    case Success(c) => [Response(ms[0], Config.DisplayName(models, ms[0]), c, round, phase)];
        assert r.responses == kept + rest.responses;
        assert Callees(r.calls)[1..] == Callees(rest.calls);
        assert Ids(r.responses) == Ids(kept) + Ids(rest.responses);
      }
    }
  }

  /**
   * The rebuttal rounds from `round` on: one per round up to the configured
   * count, each tagged with its number, and every rebuttal call carrying all
   * responses of the earlier rounds, round after round.
   */
  lemma {:induction false} RebuttalRounds(o: Oracle, so: StreamOracle, k: nat, opts: Options,
                                          models: map<string, Config.ModelConfig>, round: int,
                                          rounds: seq<seq<Response>>)
    requires round >= 2 && |rounds| == round - 1
    ensures var w := RebuttalsFrom(o, so, k, opts, models, round, rounds);
            && |w.rounds| == (if opts.rounds >= round then opts.rounds else round - 1)
            && w.rounds[..|rounds|] == rounds
            && (forall i, j | |rounds| <= i < |w.rounds| && 0 <= j < |w.rounds[i]| ::
                  w.rounds[i][j].round == i + 1 && w.rounds[i][j].phase == "rebuttal")
            && (forall c | c in w.calls ::
                  && c.1.ask.Rebuttal? && round <= c.1.ask.round <= opts.rounds
                  && c.1.ask.history == Flatten(w.rounds[..c.1.ask.round - 1]))
    decreases opts.rounds - round + 1
  {
    if round <= opts.rounds {
      var ask := Rebuttal(opts.topic, round, Flatten(rounds));
      var r := RoundFrom(o, so, k, opts, models, ask, round, "rebuttal", opts.members);
      RoundCalls(o, so, k, opts, models, ask, round, "rebuttal", opts.members);
      RoundResponses(o, so, k, opts, models, ask, round, "rebuttal", opts.members);
      var next := rounds + [r.responses];
      RebuttalRounds(o, so, k + |r.calls|, opts, models, round + 1, next);
      var w := RebuttalsFrom(o, so, k, opts, models, round, rounds);
      assert w.rounds[..|next|] == next;
      assert w.rounds[..|rounds|] == next[..|rounds|] == rounds;
      assert w.rounds[|rounds|] == r.responses;
      forall c | c in r.calls
        ensures c.1.ask == ask
      {
        var i :| 0 <= i < |r.calls| && r.calls[i] == c;
      }
    }
  }

  /**
   * The syntheses and the verdict: the transcript keeps the rounds, the
   * syntheses are tagged round 0, the verdict is asked last of the first
   * member over the syntheses, and a failure can only be the verdict's.
   */
  lemma ConcludedShape(o: Oracle, so: StreamOracle, k: nat, opts: Options, models: map<string, Config.ModelConfig>,
                       rounds: seq<seq<Response>>)
    requires |opts.members| > 0
    ensures var e := Concluded(o, so, k, opts, models, rounds);
            e.result.Failure? ==> HasPrefix(e.result.error, "final verdict: ")
    ensures var e := Concluded(o, so, k, opts, models, rounds);
            e.result.Success? ==>
              && e.result.value.rounds == rounds
              && e.result.value.topic == opts.topic && e.result.value.mode == opts.mode
              && e.result.value.members == opts.members
              && (forall j | 0 <= j < |e.result.value.synthesis| ::
                    e.result.value.synthesis[j].round == 0 && e.result.value.synthesis[j].phase == "synthesis")
              && |e.calls| > 0
              && e.calls[|e.calls| - 1]
                 == (opts.members[0], Request(Verdict(opts.topic, e.result.value.synthesis), ModeDescription(opts.mode)))
  {
    RoundResponses(o, so, k, opts, models, Synthesis(opts.topic, Flatten(rounds)), 0, "synthesis", opts.members);
  }

  /**
   * A debate that completes has the opening round and a round for each
   * rebuttal, every response tagged with its round and phase; a debate
   * after validation fails only at the verdict.
   */
  lemma DebateShape(o: Oracle, so: StreamOracle, k: nat, opts: Options, models: map<string, Config.ModelConfig>)
    requires |opts.members| > 0 && opts.rounds >= 0
    ensures var d := Debated(o, so, k, opts, models);
            d.result.Failure? ==> HasPrefix(d.result.error, "final verdict: ")
    ensures var d := Debated(o, so, k, opts, models);
            d.result.Success? ==>
              && |d.result.value.rounds| == (if opts.rounds >= 2 then opts.rounds else 1)
              && forall i, j | 0 <= i < |d.result.value.rounds| && 0 <= j < |d.result.value.rounds[i]| ::
                   && d.result.value.rounds[i][j].round == i + 1
                   && d.result.value.rounds[i][j].phase == (if i == 0 then "opening" else "rebuttal")
  {
    var opening := RoundFrom(o, so, k, opts, models, Opening(opts.topic), 1, "opening", opts.members);
    RoundResponses(o, so, k, opts, models, Opening(opts.topic), 1, "opening", opts.members);
    var w := RebuttalsFrom(o, so, k + |opening.calls|, opts, models, 2, [opening.responses]);
    RebuttalRounds(o, so, k + |opening.calls|, opts, models, 2, [opening.responses]);
    assert w.rounds[0] == [opening.responses][0];
    ConcludedShape(o, so, k + |opening.calls| + |w.calls|, opts, models, w.rounds);
  }

  /** Validation finds nothing exactly when the registry places every member. */
  lemma {:induction false} FirstUnknownNone(reg: Providers.Registry, ms: seq<string>)
    ensures FirstUnknown(reg, ms).None? <==> forall i | 0 <= i < |ms| :: reg.GetForModel(ms[i]).Success?
    decreases |ms|
  {
    if |ms| > 0 && reg.GetForModel(ms[0]).Success? {
      FirstUnknownNone(reg, ms[1..]);
      assert forall i | 0 < i < |ms| :: ms[i] == ms[1..][i - 1];
    }
  }

  /** Validation's error names the first member the registry cannot place. */
  lemma {:induction false} FirstUnknownIsFirst(reg: Providers.Registry, ms: seq<string>)
    requires FirstUnknown(reg, ms).Some?
    ensures exists i | 0 <= i < |ms| ::
              && reg.GetForModel(ms[i]).Failure?
              && (forall j | 0 <= j < i :: reg.GetForModel(ms[j]).Success?)
              && FirstUnknown(reg, ms).value == "member " + Providers.Quote(ms[i]) + ": " + reg.GetForModel(ms[i]).error
    decreases |ms|
  {
    if reg.GetForModel(ms[0]).Success? {
      var rest := ms[1..];
      FirstUnknownIsFirst(reg, rest);
      var i :| 0 <= i < |rest| && reg.GetForModel(rest[i]).Failure?
               && (forall j | 0 <= j < i :: reg.GetForModel(rest[j]).Success?)
               && FirstUnknown(reg, rest).value == "member " + Providers.Quote(rest[i]) + ": " + reg.GetForModel(rest[i]).error;
      assert forall j | 0 < j <= i :: ms[j] == rest[j - 1];
      assert ms[i + 1] == rest[i];
    }
  }

  // ---------------------------------------------------------------------
  // Transcript file name

  /** The bytes a sanitised topic keeps. */
  predicate SafeChar(c: char)
  {
    ('a' <= c <= 'z') || ('A' <= c <= 'Z') || ('0' <= c <= '9') || c == '_' || c == '-'
  }

  /** strings.Map with the sanitiser's mapping: spaces become '_', safe bytes stay, all else is dropped. */
  function MapTopic(topic: string): (r: string)
    ensures |r| <= |topic|
    ensures forall i | 0 <= i < |r| :: SafeChar(r[i])
  {
    if |topic| == 0 then ""
    else
      var head := if topic[0] == ' ' then "_" else if SafeChar(topic[0]) then [topic[0]] else "";
      head + MapTopic(topic[1..])
  }

  /** The sanitised topic: mapped, then cut to its first 50 bytes. */
  function SanitizeTopic(topic: string): (r: string)
    ensures |r| <= 50
    ensures forall i | 0 <= i < |r| :: SafeChar(r[i])
    ensures |r| == if |MapTopic(topic)| > 50 then 50 else |MapTopic(topic)|
    ensures r == MapTopic(topic)[..|r|]
  {
    var m := MapTopic(topic);
    if |m| > 50 then m[..50] else m
  }

  /**
   * The transcript's file name: start time, '_', sanitised topic, ".md".
   * Whatever the topic, the part between the timestamp and the extension is
   * at most 50 bytes, all of them safe, so it adds no separator, dot or
   * space to the name.
   */
  function TranscriptFileName(timestamp: string, topic: string): (name: string)
    ensures HasPrefix(name, timestamp + "_")
    ensures |timestamp| + 4 <= |name| <= |timestamp| + 54
    ensures name[|name| - 3..] == ".md"
    ensures forall i | |timestamp| + 1 <= i < |name| - 3 :: SafeChar(name[i])
  {
    timestamp + "_" + SanitizeTopic(topic) + ".md"
  }

  /** A topic made only of safe bytes maps to itself. */
  lemma {:induction false} MapSafe(s: string)
    requires forall i | 0 <= i < |s| :: SafeChar(s[i])
    ensures MapTopic(s) == s
  {
    if |s| > 0 {
      MapSafe(s[1..]);
    }
  }

  /** Sanitising a sanitised topic changes nothing. */
  lemma SanitizeIdempotent(topic: string)
    ensures SanitizeTopic(SanitizeTopic(topic)) == SanitizeTopic(topic)
  {
    MapSafe(SanitizeTopic(topic));
  }

  /** Safe bytes keep their order, and nothing else survives but spaces turned into '_'. */
  lemma {:induction false} MapKeepsSafe(topic: string, c: char)
    requires SafeChar(c) && c != '_'
    ensures c in MapTopic(topic) <==> c in topic
  {
    if |topic| > 0 {
      MapKeepsSafe(topic[1..], c);
      var head := if topic[0] == ' ' then "_" else if SafeChar(topic[0]) then [topic[0]] else "";
      assert MapTopic(topic) == head + MapTopic(topic[1..]);
      assert topic == [topic[0]] + topic[1..];
    }
  }
}
