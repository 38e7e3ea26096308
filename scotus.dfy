/**
 * The judicial debate mode. A case is heard by a panel of justices:
 * the resolution is taken from the topic or derived by a clerk, a Chief
 * Justice is forced or selected, every justice gives an opening analysis,
 * the Chief Justice poses questions, deliberation runs for rounds 2 to the
 * configured count, every justice votes, opinions are assigned, the Chief
 * Justice writes the majority opinion and the first dissenter the dissent,
 * and the ruling is read from the vote count. Model calls are answered by
 * the port's oracle; prompts are recorded by what they ask.
 */
module Scotus {
  import opened Results
  import opened Text
  import opened Port
  import Config
  import ChiefSelector
  import Selection

  /** scotus.Opinion; Unassigned is the empty opinion a vote has before opinions are written. */
  datatype Opinion = Unassigned | Majority | Concurrence | Dissent

  /** scotus.Vote: position true means affirm. */
  datatype Vote = Vote(justiceId: string, position: bool, opinion: Opinion, reasoning: string)

  /** scotus.Resolution. */
  datatype Resolution = Resolution(original: string, formal: string, keyDimensions: seq<string>)

  /** scotus.Options. */
  datatype Options = Options(topic: string, justices: seq<string>, chiefJustice: string, rounds: int,
                             deriveResolution: bool, verbose: bool, outputDir: string)

  /** The system prompt's role for a call. */
  datatype Role = Clerk | JusticeRole(name: string) | ChiefRole | MajorityAuthor | DissentAuthor

  /** What a call asks for, with the values its prompt quotes. */
  datatype Ask =
    | Derive(topic: string)
    | Open(formal: string, original: string)
    | Question(formal: string)
    | Deliberate(round: int, formal: string)
    | CastVote(formal: string)
    | WriteMajority(formal: string, affirm: nat, reject: nat, affirmed: bool)
    | WriteDissent(formal: string, voted: bool, majority: bool)

  datatype Request = Request(ask: Ask, role: Role)

  type Call = (string, Request)

  // ---------------------------------------------------------------------
  // Line parsing

  /** A line that, trimmed, starts with `key`. */
  predicate KeyLine(line: string, key: string)
  {
    HasPrefix(TrimSpace(line), key)
  }

  /**
   * The index of the last line carrying `key`, or -1: every later line
   * lacks the key, and -1 means no line has it.
   */
  function LastKeyIndex(lines: seq<string>, key: string): (r: int)
    ensures -1 <= r < |lines|
    ensures r >= 0 ==> KeyLine(lines[r], key)
    ensures forall j | r < j < |lines| :: !KeyLine(lines[j], key)
  {
    if |lines| == 0 then -1
    else if KeyLine(lines[|lines| - 1], key) then |lines| - 1
    else
      var r := LastKeyIndex(lines[..|lines| - 1], key);
      assert forall j | r < j < |lines| - 1 :: lines[..|lines| - 1][j] == lines[j];
      r
  }

  /** The trimmed text after `key` on a trimmed line. */
  function FieldValue(line: string, key: string): string
  {
    TrimSpace(TrimPrefix(TrimSpace(line), key))
  }

  /** The value of the last trimmed line starting with `key`. */
  function LastField(lines: seq<string>, key: string): Option<string>
  {
    if |lines| == 0 then None
    else if KeyLine(lines[|lines| - 1], key) then Some(FieldValue(lines[|lines| - 1], key))
    else LastField(lines[..|lines| - 1], key)
  }

  /** A dimension line: trimmed, it starts with "- " (and so not with "RESOLUTION:"). */
  predicate DimensionLine(line: string)
  {
    !KeyLine(line, "RESOLUTION:") && KeyLine(line, "- ")
  }

  /** The trimmed lines starting with "- ", without that prefix, in order. */
  function Dimensions(lines: seq<string>): seq<string>
  {
    if |lines| == 0 then []
    else Dimensions(lines[..|lines| - 1])
         + (if DimensionLine(lines[|lines| - 1]) then [TrimPrefix(TrimSpace(lines[|lines| - 1]), "- ")] else [])
  }

  /**
   * The resolution a clerk's reply gives: the last RESOLUTION line, or the
   * topic when there is none or it is empty; the "- " lines as dimensions.
   */
  function ResolutionOf(topic: string, content: string): (r: Resolution)
    ensures r.original == topic
    ensures r.formal == "" ==> topic == ""
    ensures var f := LastField(Split(content, '\n'), "RESOLUTION:");
            (f == None || f == Some("") ==> r.formal == topic) && (r.formal != topic ==> f == Some(r.formal))
  {
    var lines := Split(content, '\n');
    var formal := match LastField(lines, "RESOLUTION:") case None => "" case Some(f) => f;
    Resolution(topic, if formal == "" then topic else formal, Dimensions(lines))
  }

  /** A vote affirms when the text after the last "VOTE:" contains AFFIRM in any case. */
  predicate Affirms(content: string)
  {
    match LastField(Split(content, '\n'), "VOTE:")
    case None => false
    case Some(v) => Contains(ToUpper(v), "AFFIRM")
  }

  /** The vote a justice's reply gives, its opinion not yet assigned. */
  function VoteOf(justice: string, content: string): (v: Vote)
    ensures v.justiceId == justice
  {
    var reasoning := match LastField(Split(content, '\n'), "REASONING:") case None => "" case Some(r) => r;
    Vote(justice, Affirms(content), Unassigned, reasoning)
  }

  /** The derivation loop of deriveResolution. */
  method ParseResolution(topic: string, content: string) returns (r: Resolution)
    ensures r == ResolutionOf(topic, content)
  {
    var lines := Split(content, '\n');
    var formal := "";
    var dims: seq<string> := [];
    var i := 0;
    while i < |lines|
      invariant 0 <= i <= |lines|
      invariant formal == match LastField(lines[..i], "RESOLUTION:") case None => "" case Some(f) => f
      invariant dims == Dimensions(lines[..i])
    {
      hide TrimSpace, TrimPrefix, HasPrefix, LastField, Dimensions;
      LastFieldStep(lines, i, "RESOLUTION:");
      DimensionsStep(lines, i);
      var line := TrimSpace(lines[i]);
      if HasPrefix(line, "RESOLUTION:") {
        formal := TrimSpace(TrimPrefix(line, "RESOLUTION:"));
      } else if HasPrefix(line, "- ") {
        dims := dims + [TrimPrefix(line, "- ")];
      }
      i := i + 1;
    }
    assert lines[..i] == lines;
    if formal == "" {
      formal := topic;
    }
    r := Resolution(topic, formal, dims);
  }

  /** The vote-parsing loop of collectVotes. */
  method ParseVote(justice: string, content: string) returns (v: Vote)
    ensures v == VoteOf(justice, content)
  {
    var lines := Split(content, '\n');
    v := Vote(justice, false, Unassigned, "");
    var i := 0;
    while i < |lines|
      invariant 0 <= i <= |lines|
      invariant v.justiceId == justice && v.opinion == Unassigned
      invariant v.position == match LastField(lines[..i], "VOTE:")
                              case None => false case Some(s) => Contains(ToUpper(s), "AFFIRM")
      invariant v.reasoning == match LastField(lines[..i], "REASONING:") case None => "" case Some(s) => s
    {
      LastFieldStep(lines, i, "VOTE:");
      LastFieldStep(lines, i, "REASONING:");
      var line := TrimSpace(lines[i]);
      if HasPrefix(line, "VOTE:") {
        var text := ToUpper(TrimSpace(TrimPrefix(line, "VOTE:")));
        v := v.(position := Contains(text, "AFFIRM"));
        assert !HasPrefix(line, "REASONING:");
      } else if HasPrefix(line, "REASONING:") {
        v := v.(reasoning := TrimSpace(TrimPrefix(line, "REASONING:")));
      }
      i := i + 1;
    }
    assert lines[..i] == lines;
  }

  /** One more line: it wins when it carries the key. */
  lemma LastFieldStep(lines: seq<string>, i: nat, key: string)
    requires i < |lines|
    ensures LastField(lines[..i + 1], key)
            == if KeyLine(lines[i], key) then Some(FieldValue(lines[i], key)) else LastField(lines[..i], key)
  {
    assert lines[..i + 1][..i] == lines[..i];
  }

  /** The last line with the key wins: the value is that of the line at LastKeyIndex, and none without one. */
  lemma {:induction false} LastFieldIsLast(lines: seq<string>, key: string)
    ensures var i := LastKeyIndex(lines, key);
            LastField(lines, key) == if i < 0 then None else Some(FieldValue(lines[i], key))
    decreases |lines|
  {
    if |lines| > 0 && !KeyLine(lines[|lines| - 1], key) {
      var init := lines[..|lines| - 1];
      LastFieldIsLast(init, key);
      var i := LastKeyIndex(init, key);
      if i >= 0 {
        assert init[i] == lines[i];
      }
    }
  }

  /** One more line: its text is added when it is a dimension line. */
  lemma DimensionsStep(lines: seq<string>, i: nat)
    requires i < |lines|
    ensures Dimensions(lines[..i + 1])
            == Dimensions(lines[..i]) + (if DimensionLine(lines[i]) then [TrimPrefix(TrimSpace(lines[i]), "- ")] else [])
  {
    assert lines[..i + 1][..i] == lines[..i];
  }

  // ---------------------------------------------------------------------
  // Votes, majority and opinions

  /** How many votes affirm. */
  function AffirmCount(votes: seq<Vote>): (n: nat)
    ensures n <= |votes|
  {
    if |votes| == 0 then 0 else AffirmCount(votes[..|votes| - 1]) + (if votes[|votes| - 1].position then 1 else 0)
  }

  /** majorityPosition: affirm when more than half (rounded down) of the votes affirm. */
  predicate MajorityAffirms(votes: seq<Vote>)
  {
    AffirmCount(votes) > |votes| / 2
  }

  /** The majority affirms exactly when strictly more votes affirm than reject: ties and no votes reject. */
  lemma MajorityRule(votes: seq<Vote>)
    ensures MajorityAffirms(votes) <==> AffirmCount(votes) > |votes| - AffirmCount(votes)
    ensures |votes| == 0 ==> !MajorityAffirms(votes)
  {
    var a := AffirmCount(votes);
    var n := |votes|;
    assert n == 2 * (n / 2) + n % 2 && 0 <= n % 2 < 2;
  }

  /** The opinion of a vote: majority side by the Chief Justice, majority side by others, or dissent. */
  function OpinionOf(v: Vote, majority: bool, chief: string): (op: Opinion)
    ensures op == Dissent <==> v.position != majority
    ensures op == Majority <==> v.position == majority && v.justiceId == chief
    ensures op != Unassigned
  {
    if v.position == majority then (if v.justiceId == chief then Majority else Concurrence) else Dissent
  }

  /** The votes with their opinions assigned, nothing else changed. */
  function Assigned(votes: seq<Vote>, majority: bool, chief: string): (r: seq<Vote>)
    ensures |r| == |votes|
  {
    if |votes| == 0 then []
    else
      var n := |votes| - 1;
      Assigned(votes[..n], majority, chief) + [votes[n].(opinion := OpinionOf(votes[n], majority, chief))]
  }

  /** Each vote keeps its place and gets the opinion the majority rule gives it. */
  lemma {:induction false} AssignedAt(votes: seq<Vote>, majority: bool, chief: string)
    ensures forall i | 0 <= i < |votes| ::
              Assigned(votes, majority, chief)[i] == votes[i].(opinion := OpinionOf(votes[i], majority, chief))
  {
    if |votes| > 0 {
      AssignedAt(votes[..|votes| - 1], majority, chief);
    }
  }

  /** The index of the first dissenting vote. */
  function FirstDissent(votes: seq<Vote>): (r: Option<nat>)
    ensures r.Some? ==> r.value < |votes| && votes[r.value].opinion == Dissent
  {
    if |votes| == 0 then None
    else if votes[0].opinion == Dissent then Some(0)
    else match FirstDissent(votes[1..])
      case None => None
      case Some(i) => Some(i + 1)
  }

  /** The dissent found is the first one: no vote before it dissents, and none at all when none is found. */
  lemma {:induction false} FirstDissentIsFirst(votes: seq<Vote>)
    ensures var r := FirstDissent(votes);
            && (r.Some? ==> forall j | 0 <= j < r.value :: votes[j].opinion != Dissent)
            && (r.None? ==> forall j | 0 <= j < |votes| :: votes[j].opinion != Dissent)
  {
    if |votes| > 0 && votes[0].opinion != Dissent {
      FirstDissentIsFirst(votes[1..]);
      assert forall j | 1 <= j < |votes| :: votes[j] == votes[1..][j - 1];
    }
  }

  /** After assignment, the first dissenter is the first vote against the majority. */
  lemma DissenterIsFirstAgainst(votes: seq<Vote>, majority: bool, chief: string)
    ensures var r := FirstDissent(Assigned(votes, majority, chief));
            && (r.None? <==> forall j | 0 <= j < |votes| :: votes[j].position == majority)
            && (r.Some? ==> votes[r.value].position != majority
                            && forall j | 0 <= j < r.value :: votes[j].position == majority)
  {
    var a := Assigned(votes, majority, chief);
    FirstDissentIsFirst(a);
    AssignedAt(votes, majority, chief);
    assert forall j | 0 <= j < |votes| :: a[j].opinion == Dissent <==> votes[j].position != majority;
  }

  // ---------------------------------------------------------------------
  // The hearing, as a function of the oracle

  /** The call a justice gets in a round. */
  function JusticeCall(justice: string, ask: Ask, models: map<string, Config.ModelConfig>): Call
  {
    (justice, Request(ask, JusticeRole(Config.DisplayName(models, justice))))
  }

  /** One call per justice, in roster order, each with the justice's own system prompt. */
  function JusticeRound(justices: seq<string>, ask: Ask, models: map<string, Config.ModelConfig>): (calls: seq<Call>)
    ensures |calls| == |justices|
  {
    if |justices| == 0 then []
    else JusticeRound(justices[..|justices| - 1], ask, models) + [JusticeCall(justices[|justices| - 1], ask, models)]
  }

  /** A round calls each justice once, in roster order, with the round's request. */
  lemma {:induction false} JusticeRoundCalls(justices: seq<string>, ask: Ask, models: map<string, Config.ModelConfig>)
    ensures forall i | 0 <= i < |justices| :: JusticeRound(justices, ask, models)[i] == JusticeCall(justices[i], ask, models)
    decreases |justices|
  {
    if |justices| > 0 {
      var init := justices[..|justices| - 1];
      JusticeRoundCalls(init, ask, models);
      assert forall i | 0 <= i < |init| :: init[i] == justices[i];
    }
  }

  /** The deliberation rounds from `round` to `last`. */
  function Deliberations(justices: seq<string>, formal: string, models: map<string, Config.ModelConfig>,
                         round: int, last: int): seq<Call>
    decreases last - round + 1
  {
    if round > last then []
    else JusticeRound(justices, Deliberate(round, formal), models) + Deliberations(justices, formal, models, round + 1, last)
  }

  lemma JusticeRoundStep(justices: seq<string>, i: nat, ask: Ask, models: map<string, Config.ModelConfig>)
    requires i < |justices|
    ensures JusticeRound(justices[..i + 1], ask, models) == JusticeRound(justices[..i], ask, models) + [JusticeCall(justices[i], ask, models)]
  {
    assert justices[..i + 1][..i] == justices[..i];
  }

  /** The vote a justice's reply yields: none when the call failed. */
  function VoteFrom(reply: Reply, justice: string): (vs: seq<Vote>)
    ensures |vs| <= 1
  {
    match reply
    case CallFailed(_) => []
    case Reply(c) => [VoteOf(justice, c)]
  }

  /** The votes of a voting round whose first call is call k: one per successful call, in roster order. */
  function VotesFrom(o: Oracle, k: nat, justices: seq<string>): seq<Vote>
  {
    if |justices| == 0 then []
    else
      var n := |justices| - 1;
      VotesFrom(o, k, justices[..n]) + VoteFrom(o(k + n), justices[n])
  }

  lemma VotesStep(o: Oracle, k: nat, justices: seq<string>, i: nat)
    requires i < |justices|
    ensures VotesFrom(o, k, justices[..i + 1]) == VotesFrom(o, k, justices[..i]) + VoteFrom(o(k + i), justices[i])
  {
    hide VoteFrom;
    assert justices[..i + 1][..i] == justices[..i];
  }

  /** A voting round's calls after one more justice, in the shape CastOne leaves them. */
  lemma CallsStep(c0: seq<Call>, justices: seq<string>, i: nat, ask: Ask, models: map<string, Config.ModelConfig>)
    requires i < |justices|
    ensures (c0 + JusticeRound(justices[..i], ask, models)) + [JusticeCall(justices[i], ask, models)]
            == c0 + JusticeRound(justices[..i + 1], ask, models)
  {
    JusticeRoundStep(justices, i, ask, models);
  }

  /** A voting round's votes after one more justice, in the shape CastOne leaves them. */
  lemma VotesAppend(o: Oracle, k: nat, v0: seq<Vote>, justices: seq<string>, i: nat)
    requires i < |justices|
    ensures (v0 + VotesFrom(o, k, justices[..i])) + VoteFrom(o(k + i), justices[i])
            == v0 + VotesFrom(o, k, justices[..i + 1])
  {
    VotesStep(o, k, justices, i);
  }

  /** Rounds r to R of deliberation: one call per justice per round, every one a deliberation of a round in range. */
  lemma {:induction false} DeliberationShape(justices: seq<string>, formal: string, models: map<string, Config.ModelConfig>,
                                             r: int, last: int)
    ensures |Deliberations(justices, formal, models, r, last)| == if r > last then 0 else (last - r + 1) * |justices|
    ensures forall c | c in Deliberations(justices, formal, models, r, last) ::
              c.0 in justices && c.1.ask.Deliberate? && c.1.ask.formal == formal && r <= c.1.ask.round <= last
    decreases last - r + 1
  {
    if r <= last {
      DeliberationShape(justices, formal, models, r + 1, last);
      JusticeRoundCalls(justices, Deliberate(r, formal), models);
      var round := JusticeRound(justices, Deliberate(r, formal), models);
      assert (last - r + 1) * |justices| == |justices| + (last - r) * |justices|;
      forall c | c in round
        ensures c.0 in justices && c.1.ask == Deliberate(r, formal)
      {
        var i :| 0 <= i < |round| && round[i] == c;
      }
    }
  }

  /** The votes of a voting round: at most one per justice, each from the roster with its opinion still unassigned. */
  lemma {:induction false} VotesShape(o: Oracle, k: nat, justices: seq<string>)
    ensures |VotesFrom(o, k, justices)| <= |justices|
    ensures forall v | v in VotesFrom(o, k, justices) :: v.justiceId in justices && v.opinion == Unassigned
    decreases |justices|
  {
    if |justices| > 0 {
      var n := |justices| - 1;
      VotesShape(o, k, justices[..n]);
      assert forall j | j in justices[..n] :: j in justices;
    }
  }

  /** The justices whose vote call succeeded, in roster order. */
  function Voters(o: Oracle, k: nat, justices: seq<string>): (vs: seq<string>)
    ensures |vs| <= |justices|
  {
    if |justices| == 0 then []
    else
      var n := |justices| - 1;
      Voters(o, k, justices[..n]) + (if o(k + n).Reply? then [justices[n]] else [])
  }

  /** The votes of a voting round come from exactly the justices whose call succeeded, in roster order. */
  lemma {:induction false} VotesOfVoters(o: Oracle, k: nat, justices: seq<string>)
    ensures |VotesFrom(o, k, justices)| == |Voters(o, k, justices)|
    ensures forall i | 0 <= i < |VotesFrom(o, k, justices)| :: VotesFrom(o, k, justices)[i].justiceId == Voters(o, k, justices)[i]
    decreases |justices|
  {
    hide VoteOf;
    if |justices| > 0 {
      var n := |justices| - 1;
      VotesOfVoters(o, k, justices[..n]);
    }
  }

  /** When every call of a voting round succeeds, every justice votes. */
  lemma {:induction false} AllVoted(o: Oracle, k: nat, justices: seq<string>)
    requires forall j | k <= j < k + |justices| :: o(j).Reply?
    ensures Voters(o, k, justices) == justices
    decreases |justices|
  {
    if |justices| > 0 {
      var n := |justices| - 1;
      AllVoted(o, k, justices[..n]);
      assert o(k + n).Reply?;
      assert justices[..n] + [justices[n]] == justices;
    }
  }

  /** What writing the opinions leaves: an error, the votes, the two opinions, and the calls. */
  datatype Written = Written(err: Option<string>, votes: seq<Vote>, majority: string, dissent: string, calls: seq<Call>)

  /**
   * writeOpinions from call k, on a session whose opinions so far are
   * `majority0` and `dissent0`: opinions assigned by the majority rule, the
   * Chief Justice asked for the majority opinion (its failure is the run's
   * error), then the first dissenter, if any, asked for the dissent (its
   * failure leaves the dissent as it was).
   */
  function Opinions(o: Oracle, k: nat, formal: string, chief: string, votes: seq<Vote>,
                    majority0: string, dissent0: string): Written
  {
    var majority := MajorityAffirms(votes);
    var opined := Assigned(votes, majority, chief);
    var affirm := AffirmCount(votes);
    var majorityCall := (chief, Request(WriteMajority(formal, affirm, |votes| - affirm, majority), MajorityAuthor));
    match o(k)
    case CallFailed(e) => Written(Some(e), opined, majority0, dissent0, [majorityCall])
    case Reply(text) =>
      match FirstDissent(opined)
      case None => Written(None, opined, text, dissent0, [majorityCall])
      case Some(i) =>
        var dissentCall := (opined[i].justiceId, Request(WriteDissent(formal, opined[i].position, majority), DissentAuthor));
        var dissent := match o(k + 1) case CallFailed(_) => dissent0 case Reply(d) => d;
        Written(None, opined, text, dissent, [majorityCall, dissentCall])
  }

  /** The session's observable state. */
  datatype Record = Record(resolution: Resolution, chiefJustice: string, justices: seq<string>,
                           votes: seq<Vote>, majorityOpinion: string, dissentOpinion: string)

  /** A run's outcome: its error, the session it leaves, and the calls it made. */
  datatype Outcome = Outcome(err: Option<string>, record: Record, calls: seq<Call>)

  /** selectChiefJustice: the forced Chief Justice, else the selector's choice for the resolution. */
  function ChiefOf(opts: Options, formal: string): (cj: string)
    ensures opts.chiefJustice != "" ==> cj == opts.chiefJustice
  {
    if opts.chiefJustice != "" then opts.chiefJustice
    else Selection.Choice(ToLower(formal), ChiefSelector.JusticeTable, ChiefSelector.CaseCategories, opts.justices, "claude")
  }

  /** The voting and the opinions, from call k. */
  function Decided(o: Oracle, k: nat, justices: seq<string>, models: map<string, Config.ModelConfig>,
                   res: Resolution, cj: string): Outcome
  {
    var votes := VotesFrom(o, k, justices);
    var w := Opinions(o, k + |justices|, res.formal, cj, votes, "", "");
    Outcome(if w.err.Some? then Some("writing opinions: " + w.err.value) else None,
            Record(res, cj, justices, w.votes, w.majority, w.dissent),
            JusticeRound(justices, CastVote(res.formal), models) + w.calls)
  }

  /** Decided from call k: the voting round's calls, then the opinions' calls; the error and session come from the opinions. */
  lemma DecidedIs(o: Oracle, k: nat, justices: seq<string>, models: map<string, Config.ModelConfig>, res: Resolution, cj: string)
    ensures var w := Opinions(o, k + |justices|, res.formal, cj, VotesFrom(o, k, justices), "", "");
            var d := Decided(o, k, justices, models, res, cj);
            && d.err == (if w.err.Some? then Some("writing opinions: " + w.err.value) else None)
            && d.record == Record(res, cj, justices, w.votes, w.majority, w.dissent)
            && d.calls == JusticeRound(justices, CastVote(res.formal), models) + w.calls
  {
  }

  /** The hearing after the resolution, from call k, presided over by `cj`. */
  function Heard(o: Oracle, k: nat, opts: Options, models: map<string, Config.ModelConfig>, res: Resolution, cj: string): Outcome
  {
    var opening := JusticeRound(opts.justices, Open(res.formal, res.original), models);
    var question := (cj, Request(Question(res.formal), ChiefRole));
    match o(k + |opts.justices|)
    case CallFailed(e) =>
      Outcome(Some("CJ questioning: " + e), Record(res, cj, opts.justices, [], "", ""), opening + [question])
    case Reply(_) => Proceeded(o, k, opts, models, res, cj)
  }

  /** The hearing once the questioning call has succeeded: the deliberation rounds, then the decision. */
  function Proceeded(o: Oracle, k: nat, opts: Options, models: map<string, Config.ModelConfig>, res: Resolution, cj: string): Outcome
  {
    var opening := JusticeRound(opts.justices, Open(res.formal, res.original), models);
    var question := (cj, Request(Question(res.formal), ChiefRole));
    var rounds := Deliberations(opts.justices, res.formal, models, 2, opts.rounds);
    Continued(opening + [question] + rounds, Decided(o, k + |opts.justices| + 1 + |rounds|, opts.justices, models, res, cj))
  }

  /** An outcome `d` reached after the calls `before`. */
  function Continued(before: seq<Call>, d: Outcome): (r: Outcome)
    ensures r.err == d.err && r.record == d.record && r.calls == before + d.calls
  {
    Outcome(d.err, d.record, before + d.calls)
  }

  /**
   * A hearing whose questioning call succeeds: once the calls up to the
   * decision are `cb`, the decision's error, record and calls are the hearing's.
   */
  lemma ProceedStep(o: Oracle, c0: seq<Call>, opts: Options, models: map<string, Config.ModelConfig>, res: Resolution, cj: string,
                    cb: seq<Call>, err: Option<string>, rec: Record, calls: seq<Call>)
    requires o(|c0| + |opts.justices|).Reply?
    requires cb == c0 + JusticeRound(opts.justices, Open(res.formal, res.original), models)
                  + [(cj, Request(Question(res.formal), ChiefRole))] + Deliberations(opts.justices, res.formal, models, 2, opts.rounds)
    requires var d := Decided(o, |cb|, opts.justices, models, res, cj);
             err == d.err && rec == d.record && calls == cb + d.calls
    ensures var h := Heard(o, |c0|, opts, models, res, cj);
            err == h.err && rec == h.record && calls == c0 + h.calls
  {
    var opening := JusticeRound(opts.justices, Open(res.formal, res.original), models);
    var question := (cj, Request(Question(res.formal), ChiefRole));
    var rounds := Deliberations(opts.justices, res.formal, models, 2, opts.rounds);
    hide Decided;
    assert |cb| == |c0| + |opts.justices| + 1 + |rounds|;
    var d := Decided(o, |cb|, opts.justices, models, res, cj);
    HeardCase(o, |c0|, opts, models, res, cj, rounds);
    Stitch(c0, opening, [question], rounds, d.calls);
  }

  /** Calls recorded in five stretches, regrouped as the spec functions group them. */
  lemma Stitch<T>(c0: seq<T>, a: seq<T>, b: seq<T>, c: seq<T>, d: seq<T>)
    ensures c0 + a + b + c + d == c0 + (a + b + c + d)
  {
    AppendAssoc(c0, a, b);
    AppendAssoc(c0, a + b, c);
    AppendAssoc(c0, a + b + c, d);
  }

  /** Every vote carries an opinion and comes from a justice on the roster. */
  predicate Opined(votes: seq<Vote>, justices: seq<string>)
  {
    forall v | v in votes :: v.justiceId in justices && v.opinion != Unassigned
  }

  /** The decision records every vote with an opinion, each from a justice on the roster. */
  lemma DecidedVotes(o: Oracle, k: nat, justices: seq<string>, models: map<string, Config.ModelConfig>, res: Resolution, cj: string)
    ensures Opined(Decided(o, k, justices, models, res, cj).record.votes, justices)
  {
    var votes := VotesFrom(o, k, justices);
    VotesShape(o, k, justices);
    var opined := Assigned(votes, MajorityAffirms(votes), cj);
    AssignedAt(votes, MajorityAffirms(votes), cj);
    forall v | v in opined
      ensures v.justiceId in justices && v.opinion != Unassigned
    {
      var i :| 0 <= i < |opined| && opined[i] == v;
      assert votes[i] in votes;
    }
  }

  /**
   * The decision's only error is the majority opinion's; its record holds
   * the resolution, the Chief Justice and the roster; and it makes one call
   * per justice and then one or two opinion calls.
   */
  lemma DecidedRecord(o: Oracle, k: nat, justices: seq<string>, models: map<string, Config.ModelConfig>, res: Resolution, cj: string)
    ensures var d := Decided(o, k, justices, models, res, cj);
            && (d.err.Some? ==> HasPrefix(d.err.value, "writing opinions: "))
            && d.record.resolution == res && d.record.chiefJustice == cj && d.record.justices == justices
            && |justices| + 1 <= |d.calls| <= |justices| + 2
  {
    var d := Decided(o, k, justices, models, res, cj);
    if d.err.Some? {
      var e := Opinions(o, k + |justices|, res.formal, cj, VotesFrom(o, k, justices), "", "").err.value;
      assert d.err.value == "writing opinions: " + e;
      assert ("writing opinions: " + e)[..|"writing opinions: "|] == "writing opinions: ";
    }
  }


  /** A hearing whose questioning call fails stops there, after the opening round and that call. */
  lemma HeardStops(o: Oracle, k: nat, opts: Options, models: map<string, Config.ModelConfig>, res: Resolution, cj: string)
    requires o(k + |opts.justices|).CallFailed?
    ensures var h := Heard(o, k, opts, models, res, cj);
            && h.err == Some("CJ questioning: " + o(k + |opts.justices|).err)
            && h.record == Record(res, cj, opts.justices, [], "", "")
            && h.calls == JusticeRound(opts.justices, Open(res.formal, res.original), models) + [(cj, Request(Question(res.formal), ChiefRole))]
  {
  }

  /** A hearing whose questioning call succeeds ends as its decision does. */
  lemma HeardGoesOn(o: Oracle, k: nat, opts: Options, models: map<string, Config.ModelConfig>, res: Resolution, cj: string,
                    rounds: seq<Call>)
    requires o(k + |opts.justices|).Reply?
    requires rounds == Deliberations(opts.justices, res.formal, models, 2, opts.rounds)
    ensures Heard(o, k, opts, models, res, cj).err == Decided(o, k + |opts.justices| + 1 + |rounds|, opts.justices, models, res, cj).err
    ensures Heard(o, k, opts, models, res, cj).record == Decided(o, k + |opts.justices| + 1 + |rounds|, opts.justices, models, res, cj).record
  {
    HeardCase(o, k, opts, models, res, cj, rounds);
  }

  /** The outcome of a hearing whose questioning call succeeds, spelled out. */
  lemma HeardCase(o: Oracle, k: nat, opts: Options, models: map<string, Config.ModelConfig>, res: Resolution, cj: string,
                  rounds: seq<Call>)
    requires o(k + |opts.justices|).Reply?
    requires rounds == Deliberations(opts.justices, res.formal, models, 2, opts.rounds)
    ensures var d := Decided(o, k + |opts.justices| + 1 + |rounds|, opts.justices, models, res, cj);
            var h := Heard(o, k, opts, models, res, cj);
            && h.err == d.err && h.record == d.record
            && h.calls == JusticeRound(opts.justices, Open(res.formal, res.original), models)
                          + [(cj, Request(Question(res.formal), ChiefRole))] + rounds + d.calls
  {
    hide Decided;
    assert Heard(o, k, opts, models, res, cj) == Proceeded(o, k, opts, models, res, cj);
  }

  /** A hearing whose questioning call succeeds begins its calls with the opening round. */
  lemma HeardGoesOnOpens(o: Oracle, k: nat, opts: Options, models: map<string, Config.ModelConfig>, res: Resolution, cj: string)
    requires o(k + |opts.justices|).Reply?
    ensures var h := Heard(o, k, opts, models, res, cj);
            var opening := JusticeRound(opts.justices, Open(res.formal, res.original), models);
            |h.calls| > |opening| && h.calls[..|opening|] == opening
  {
    var rounds := Deliberations(opts.justices, res.formal, models, 2, opts.rounds);
    HeardCase(o, k, opts, models, res, cj, rounds);
    hide Heard, Decided, Deliberations;
    var d := Decided(o, k + |opts.justices| + 1 + |rounds|, opts.justices, models, res, cj);
    var opening := JusticeRound(opts.justices, Open(res.formal, res.original), models);
    PrefixOf(opening, [(cj, Request(Question(res.formal), ChiefRole))], rounds, d.calls);
  }

  /** Every vote the hearing records carries an opinion and comes from a justice on the roster. */
  lemma HeardVotes(o: Oracle, k: nat, opts: Options, models: map<string, Config.ModelConfig>, res: Resolution, cj: string)
    ensures Opined(Heard(o, k, opts, models, res, cj).record.votes, opts.justices)
  {
    if o(k + |opts.justices|).CallFailed? {
      HeardStops(o, k, opts, models, res, cj);
    } else {
      var rounds := Deliberations(opts.justices, res.formal, models, 2, opts.rounds);
      HeardGoesOn(o, k, opts, models, res, cj, rounds);
      DecidedVotes(o, k + |opts.justices| + 1 + |rounds|, opts.justices, models, res, cj);
    }
  }

  /** The hearing fails only at the questioning or at the majority opinion, and its error says which. */
  lemma HeardError(o: Oracle, k: nat, opts: Options, models: map<string, Config.ModelConfig>, res: Resolution, cj: string)
    ensures var err := Heard(o, k, opts, models, res, cj).err;
            err.Some? ==> HasPrefix(err.value, "CJ questioning: ") || HasPrefix(err.value, "writing opinions: ")
  {
    if o(k + |opts.justices|).CallFailed? {
      HeardStops(o, k, opts, models, res, cj);
      var e := o(k + |opts.justices|).err;
      assert ("CJ questioning: " + e)[..|"CJ questioning: "|] == "CJ questioning: ";
    } else {
      var rounds := Deliberations(opts.justices, res.formal, models, 2, opts.rounds);
      HeardGoesOn(o, k, opts, models, res, cj, rounds);
      DecidedRecord(o, k + |opts.justices| + 1 + |rounds|, opts.justices, models, res, cj);
    }
  }

  /** The hearing records its resolution and its Chief Justice, and its calls begin with the opening round. */
  lemma HeardOpens(o: Oracle, k: nat, opts: Options, models: map<string, Config.ModelConfig>, res: Resolution, cj: string)
    ensures var h := Heard(o, k, opts, models, res, cj);
            && h.record.resolution == res && h.record.chiefJustice == cj
            && |h.calls| > |opts.justices|
            && h.calls[..|opts.justices|] == JusticeRound(opts.justices, Open(res.formal, res.original), models)
  {
    var opening := JusticeRound(opts.justices, Open(res.formal, res.original), models);
    var question := (cj, Request(Question(res.formal), ChiefRole));
    if o(k + |opts.justices|).CallFailed? {
      HeardStops(o, k, opts, models, res, cj);
      assert (opening + [question])[..|opening|] == opening;
    } else {
      var rounds := Deliberations(opts.justices, res.formal, models, 2, opts.rounds);
      HeardGoesOn(o, k, opts, models, res, cj, rounds);
      HeardGoesOnOpens(o, k, opts, models, res, cj);
    }
  }

  /** The clerk's call that derives the resolution, when derivation is on. */
  function DerivationCalls(opts: Options): (calls: seq<Call>)
    ensures |calls| == if opts.deriveResolution then 1 else 0
  {
    if opts.deriveResolution then [("claude", Request(Derive(opts.topic), Clerk))] else []
  }

  /**
   * Step 1 of Run from call k: the clerk's reply parsed, or the call's
   * error; without derivation, the topic itself.
   */
  function Resolved(o: Oracle, k: nat, opts: Options): Result<Resolution>
  {
    if opts.deriveResolution then
      match o(k)
      case CallFailed(e) => Failure(e)
      case Reply(c) => Success(ResolutionOf(opts.topic, c))
    else Success(Resolution(opts.topic, opts.topic, []))
  }

  /** Run from call k. */
  function ScotusRun(o: Oracle, k: nat, opts: Options, models: map<string, Config.ModelConfig>): Outcome
  {
    var derivation := DerivationCalls(opts);
    match Resolved(o, k, opts)
    case Failure(e) =>
      Outcome(Some("deriving resolution: " + e), Record(Resolution("", "", []), "", opts.justices, [], "", ""), derivation)
    case Success(res) =>
      var h := Heard(o, k + |derivation|, opts, models, res, ChiefOf(opts, res.formal));
      Outcome(h.err, h.record, derivation + h.calls)
  }
  /** A run whose resolution stands goes on to the hearing, after the clerk's call if any. */
  lemma RunGoesOn(o: Oracle, k: nat, opts: Options, models: map<string, Config.ModelConfig>)
    requires Resolved(o, k, opts).Success?
    ensures var res := Resolved(o, k, opts).value;
            var h := Heard(o, k + |DerivationCalls(opts)|, opts, models, res, ChiefOf(opts, res.formal));
            var out := ScotusRun(o, k, opts, models);
            out.err == h.err && out.record == h.record && out.calls == DerivationCalls(opts) + h.calls
  {
  }

  /** A run whose resolution could not be derived stops after the clerk's call, with no votes. */
  lemma RunStops(o: Oracle, k: nat, opts: Options, models: map<string, Config.ModelConfig>)
    requires Resolved(o, k, opts).Failure?
    ensures var out := ScotusRun(o, k, opts, models);
            && out.err == Some("deriving resolution: " + Resolved(o, k, opts).error)
            && out.record.votes == [] && out.calls == DerivationCalls(opts)
  {
  }

  /** What the hearing's votes satisfy, the run's votes satisfy. */
  lemma RunKeepsVotes(o: Oracle, k: nat, opts: Options, models: map<string, Config.ModelConfig>, res: Resolution)
    requires Resolved(o, k, opts) == Success(res)
    requires Opined(Heard(o, k + |DerivationCalls(opts)|, opts, models, res, ChiefOf(opts, res.formal)).record.votes, opts.justices)
    ensures Opined(ScotusRun(o, k, opts, models).record.votes, opts.justices)
  {
    RunGoesOn(o, k, opts, models);
  }

  /** Every vote a run records carries an opinion and comes from a justice on the roster. */
  lemma RunVotes(o: Oracle, k: nat, opts: Options, models: map<string, Config.ModelConfig>)
    ensures Opined(ScotusRun(o, k, opts, models).record.votes, opts.justices)
  {
    if Resolved(o, k, opts).Failure? {
      RunStops(o, k, opts, models);
    } else {
      var res := Resolved(o, k, opts).value;
      HeardVotes(o, k + |DerivationCalls(opts)|, opts, models, res, ChiefOf(opts, res.formal));
      RunKeepsVotes(o, k, opts, models, res);
    }
  }

  /** A run's error names the step that failed. */
  lemma RunError(o: Oracle, k: nat, opts: Options, models: map<string, Config.ModelConfig>)
    ensures var err := ScotusRun(o, k, opts, models).err;
            err.Some? ==>
              || HasPrefix(err.value, "deriving resolution: ")
              || HasPrefix(err.value, "CJ questioning: ")
              || HasPrefix(err.value, "writing opinions: ")
  {
    match Resolved(o, k, opts)
    case Failure(e) =>
      assert ("deriving resolution: " + e)[..|"deriving resolution: "|] == "deriving resolution: ";
    case Success(res) =>
      RunGoesOn(o, k, opts, models);
      HeardError(o, k + |DerivationCalls(opts)|, opts, models, res, ChiefOf(opts, res.formal));
  }

  /** What the hearing's calls and record show, the run's show after the clerk's call. */
  lemma RunKeepsOpening(o: Oracle, k: nat, opts: Options, models: map<string, Config.ModelConfig>, res: Resolution)
    requires Resolved(o, k, opts) == Success(res)
    requires var h := Heard(o, k + |DerivationCalls(opts)|, opts, models, res, ChiefOf(opts, res.formal));
             && h.record.resolution == res && h.record.chiefJustice == ChiefOf(opts, res.formal)
             && |h.calls| > |opts.justices|
             && h.calls[..|opts.justices|] == JusticeRound(opts.justices, Open(res.formal, res.original), models)
    ensures var out := ScotusRun(o, k, opts, models);
            var d := |DerivationCalls(opts)|;
            && (opts.deriveResolution ==> |out.calls| > 0 && out.calls[0] == ("claude", Request(Derive(opts.topic), Clerk)))
            && out.record.resolution == res && out.record.chiefJustice == ChiefOf(opts, res.formal)
            && |out.calls| > d + |opts.justices|
            && out.calls[d..d + |opts.justices|] == JusticeRound(opts.justices, Open(res.formal, res.original), models)
  {
    var derivation := DerivationCalls(opts);
    var h := Heard(o, k + |derivation|, opts, models, res, ChiefOf(opts, res.formal));
    RunGoesOn(o, k, opts, models);
    Port.SliceAfter(derivation, h.calls, |opts.justices|);
  }

  /**
   * A run's calls begin with the clerk's, when derivation is on; once the
   * resolution stands, the opening round follows and the record holds the
   * resolution and the Chief Justice chosen for it.
   */
  lemma RunOpens(o: Oracle, k: nat, opts: Options, models: map<string, Config.ModelConfig>)
    ensures var out := ScotusRun(o, k, opts, models);
            && (opts.deriveResolution ==> |out.calls| > 0 && out.calls[0] == ("claude", Request(Derive(opts.topic), Clerk)))
            && (Resolved(o, k, opts).Success? ==>
                  var res := Resolved(o, k, opts).value;
                  var d := |DerivationCalls(opts)|;
                  && out.record.resolution == res && out.record.chiefJustice == ChiefOf(opts, res.formal)
                  && |out.calls| > d + |opts.justices|
                  && out.calls[d..d + |opts.justices|] == JusticeRound(opts.justices, Open(res.formal, res.original), models))
  {
    if Resolved(o, k, opts).Failure? {
      RunStops(o, k, opts, models);
    } else {
      var res := Resolved(o, k, opts).value;
      HeardOpens(o, k + |DerivationCalls(opts)|, opts, models, res, ChiefOf(opts, res.formal));
      RunKeepsOpening(o, k, opts, models, res);
    }
  }

  /** deliverRuling: the decision and the vote count. */
  datatype Ruling = Ruling(decision: string, affirm: nat, reject: nat)

  // ---------------------------------------------------------------------
  // The runner

  /** scotus.Session (without its ID and start time). */
  class Session {
    var resolution: Resolution
    var chiefJustice: string
    const justices: seq<string>
    var votes: seq<Vote>
    var majorityOpinion: string
    var dissentOpinion: string

    constructor (justices: seq<string>)
      ensures Snapshot() == Record(Resolution("", "", []), "", justices, [], "", "")
    {
      this.justices := justices;
      resolution := Resolution("", "", []);
      chiefJustice := "";
      votes := [];
      majorityOpinion := "";
      dissentOpinion := "";
    }

    function Snapshot(): Record
      reads this
    {
      Record(resolution, chiefJustice, justices, votes, majorityOpinion, dissentOpinion)
    }
  }

  class Runner {
    const port: ModelPort<Request>
    const models: map<string, Config.ModelConfig>

    constructor (port: ModelPort<Request>, models: map<string, Config.ModelConfig>)
      ensures this.port == port && this.models == models
    {
      this.port := port;
      this.models := models;
    }

    /** Run: a fresh session, the resolution derived or taken from the topic, then the hearing. */
    method Run(opts: Options) returns (err: Option<string>, session: Session)
      modifies port
      ensures fresh(session)
      ensures var out := ScotusRun(port.invoke, |old(port.calls)|, opts, models);
              && err == out.err && session.Snapshot() == out.record && port.calls == old(port.calls) + out.calls
    {
      ghost var o := port.invoke;
      ghost var c0 := port.calls;
      session := new Session(opts.justices);
      var resolved := Resolve(opts);
      if resolved.Failure? {
        return Some("deriving resolution: " + resolved.error), session;
      }
      session.resolution := resolved.value;
      ghost var h := Heard(o, |port.calls|, opts, models, resolved.value, ChiefOf(opts, resolved.value.formal));
      err := Hear(session, opts);
      AppendAssoc(c0, DerivationCalls(opts), h.calls);
    }

    /** Step 1 of Run: deriveResolution when derivation is on, else the topic as it stands. */
    method Resolve(opts: Options) returns (r: Result<Resolution>)
      modifies port
      ensures port.calls == old(port.calls) + DerivationCalls(opts)
      ensures r == Resolved(port.invoke, |old(port.calls)|, opts)
    {
      if opts.deriveResolution {
        r := DeriveResolution(opts.topic);
      } else {
        r := Success(Resolution(opts.topic, opts.topic, []));
      }
    }

    /** deriveResolution: the clerk's reply parsed, or the call's error. */
    method DeriveResolution(topic: string) returns (r: Result<Resolution>)
      modifies port
      ensures port.calls == old(port.calls) + [("claude", Request(Derive(topic), Clerk))]
      ensures match port.invoke(|old(port.calls)|)
              case CallFailed(e) => r == Failure(e)
              case Reply(c) => r == Success(ResolutionOf(topic, c))
    {
      var reply := port.Invoke("claude", Request(Derive(topic), Clerk));
      if reply.CallFailed? {
        return Failure(reply.err);
      }
      var resolution := ParseResolution(topic, reply.content);
      return Success(resolution);
    }

    /** selectChiefJustice: the forced Chief Justice, else the selector's choice. */
    method SelectChiefJustice(opts: Options, formal: string) returns (cj: string)
      ensures cj == ChiefOf(opts, formal)
      ensures opts.chiefJustice == "" && |opts.justices| > 0 ==> cj in opts.justices
    {
      if opts.chiefJustice != "" {
        return opts.chiefJustice;
      }
      cj := ChiefSelector.Select(formal, opts.justices);
    }

    /** runCJQuestioning: one call to the Chief Justice; its failure is the error. */
    method CJQuestioning(session: Session) returns (err: Option<string>)
      modifies port
      ensures port.calls == old(port.calls) + [(session.chiefJustice, Request(Question(session.resolution.formal), ChiefRole))]
      ensures err == match port.invoke(|old(port.calls)|) case CallFailed(e) => Some(e) case Reply(_) => None
    {
      var reply := port.Invoke(session.chiefJustice, Request(Question(session.resolution.formal), ChiefRole));
      err := if reply.CallFailed? then Some(reply.err) else None;
    }

    /** Steps 2 to 8 of Run, on a session that holds its resolution and nothing else yet. */
    method Hear(session: Session, opts: Options) returns (err: Option<string>)
      requires session.justices == opts.justices && session.votes == []
      requires session.majorityOpinion == "" && session.dissentOpinion == ""
      modifies port, session
      ensures var h := Heard(port.invoke, |old(port.calls)|, opts, models, old(session.resolution),
                             ChiefOf(opts, old(session.resolution).formal));
              && err == h.err && session.Snapshot() == h.record && port.calls == old(port.calls) + h.calls
    {
      ghost var c0 := port.calls;
      var res := session.resolution;
      var cj := SelectChiefJustice(opts, res.formal);
      session.chiefJustice := cj;
      ghost var opening := JusticeRound(opts.justices, Open(res.formal, res.original), models);
      ghost var question := (cj, Request(Question(res.formal), ChiefRole));
      RunJusticeRound(session.justices, Open(res.formal, res.original));
      err := CJQuestioning(session);
      if err.Some? {
        HeardStops(port.invoke, |c0|, opts, models, res, cj);
        err := Some("CJ questioning: " + err.value);
        AppendAssoc(c0, opening, [question]);
        return;
      }
      err := Proceed(session, opts, c0, res, cj);
    }

    /**
     * Steps 5 to 8 of Run, once the questioning has succeeded: the
     * deliberation rounds, then the decision. The ghost parameters name the
     * calls before the hearing, the resolution and the Chief Justice.
     */
    method Proceed(session: Session, opts: Options, ghost c0: seq<Call>, ghost res: Resolution, ghost cj: string)
      returns (err: Option<string>)
      requires session.justices == opts.justices && session.votes == []
      requires session.majorityOpinion == "" && session.dissentOpinion == ""
      requires session.resolution == res && session.chiefJustice == cj
      requires port.calls == c0 + JusticeRound(opts.justices, Open(res.formal, res.original), models)
                             + [(cj, Request(Question(res.formal), ChiefRole))]
      requires port.invoke(|c0| + |opts.justices|).Reply?
      modifies port, session
      ensures var h := Heard(port.invoke, |c0|, opts, models, res, cj);
              && err == h.err && session.Snapshot() == h.record && port.calls == c0 + h.calls
    {
      ghost var o := port.invoke;
      RunDeliberations(session.justices, session.resolution.formal, opts.rounds);
      ghost var cb := port.calls;
      err := Decide(session);
      ProceedStep(o, c0, opts, models, res, cj, cb, err, session.Snapshot(), port.calls);
    }

    /** Steps 6 to 8 of Run: the votes, the opinions and the ruling. */
    method Decide(session: Session) returns (err: Option<string>)
      requires session.votes == [] && session.majorityOpinion == "" && session.dissentOpinion == ""
      modifies port, session
      ensures var d := Decided(port.invoke, |old(port.calls)|, session.justices, models, old(session.resolution), old(session.chiefJustice));
              && err == d.err && session.Snapshot() == d.record && port.calls == old(port.calls) + d.calls
    {
      hide Decided, Opinions, VotesFrom;
      ghost var o := port.invoke;
      ghost var c0 := port.calls;
      ghost var js := session.justices;
      ghost var res := session.resolution;
      ghost var cj := session.chiefJustice;
      ghost var votes := VotesFrom(o, |c0|, js);
      ghost var voting := JusticeRound(js, CastVote(res.formal), models);
      CollectVotes(session);
      assert session.votes == votes;
      ghost var c1 := port.calls;
      assert c1 == c0 + voting;
      assert |c1| == |c0| + |js|;
      assert session.resolution == res && session.chiefJustice == cj;
      assert session.majorityOpinion == "" && session.dissentOpinion == "";
      err := WriteOpinions(session);
      ghost var w := Opinions(o, |c0| + |js|, res.formal, cj, votes, "", "");
      assert port.calls == c1 + w.calls;
      assert session.votes == w.votes && session.majorityOpinion == w.majority && session.dissentOpinion == w.dissent;
      assert err == w.err;
      if err.Some? {
        err := Some("writing opinions: " + err.value);
      }
      var _ := DeliverRuling(session);
      DecidedIs(o, |c0|, js, models, res, cj);
      AppendAssoc(c0, voting, w.calls);
    }

    /** runOpeningArguments and runDeliberationRound: every justice in turn; failures are skipped. */
    method RunJusticeRound(justices: seq<string>, ask: Ask)
      modifies port
      ensures port.calls == old(port.calls) + JusticeRound(justices, ask, models)
    {
      var i := 0;
      while i < |justices|
        invariant 0 <= i <= |justices|
        invariant port.calls == old(port.calls) + JusticeRound(justices[..i], ask, models)
      {
        var _ := port.Invoke(justices[i], Request(ask, JusticeRole(Config.DisplayName(models, justices[i]))));
        JusticeRoundStep(justices, i, ask, models);
        i := i + 1;
      }
      assert justices[..i] == justices;
    }

    /** The deliberation rounds 2 to the configured count. */
    method RunDeliberations(justices: seq<string>, formal: string, last: int)
      modifies port
      ensures port.calls == old(port.calls) + Deliberations(justices, formal, models, 2, last)
    {
      var round := 2;
      while round <= last
        invariant port.calls + Deliberations(justices, formal, models, round, last)
                  == old(port.calls) + Deliberations(justices, formal, models, 2, last)
        decreases last - round
      {
        RunJusticeRound(justices, Deliberate(round, formal));
        round := round + 1;
      }
    }

    /** One justice's vote: one call, and a vote appended when it succeeds. */
    method CastOne(session: Session, justice: string, formal: string)
      modifies port, session`votes
      ensures port.calls == old(port.calls) + [JusticeCall(justice, CastVote(formal), models)]
      ensures session.votes == old(session.votes) + VoteFrom(port.invoke(|old(port.calls)|), justice)
    {
      var reply := port.Invoke(justice, Request(CastVote(formal), JusticeRole(Config.DisplayName(models, justice))));
      if reply.Reply? {
        var vote := ParseVote(justice, reply.content);
        session.votes := session.votes + [vote];
      }
    }

    /** collectVotes: a vote for each justice whose call succeeded, appended in roster order. */
    method CollectVotes(session: Session)
      modifies port, session`votes
      ensures port.calls == old(port.calls) + JusticeRound(session.justices, CastVote(session.resolution.formal), models)
      ensures session.votes == old(session.votes) + VotesFrom(port.invoke, |old(port.calls)|, session.justices)
    {
      hide VoteFrom;
      var js := session.justices;
      var formal := session.resolution.formal;
      ghost var o := port.invoke;
      ghost var c0 := port.calls;
      ghost var v0 := session.votes;
      var i := 0;
      while i < |js|
        invariant 0 <= i <= |js|
        invariant port.calls == c0 + JusticeRound(js[..i], CastVote(formal), models)
        invariant session.votes == v0 + VotesFrom(o, |c0|, js[..i])
      {
        CallsStep(c0, js, i, CastVote(formal), models);
        VotesAppend(o, |c0|, v0, js, i);
        CastOne(session, js[i], formal);
        i := i + 1;
      }
      assert js[..i] == js;
    }

    /** The counting loop of writeOpinions and deliverRuling. */
    method CountAffirms(votes: seq<Vote>) returns (affirm: nat)
      ensures affirm == AffirmCount(votes)
    {
      affirm := 0;
      var i := 0;
      while i < |votes|
        invariant 0 <= i <= |votes|
        invariant affirm == AffirmCount(votes[..i])
      {
        assert votes[..i + 1][..i] == votes[..i];
        if votes[i].position {
          affirm := affirm + 1;
        }
        i := i + 1;
      }
      assert votes[..i] == votes;
    }

    /** The assignment loop of writeOpinions, in place. */
    method AssignOpinions(session: Session, majority: bool)
      modifies session
      ensures session.votes == Assigned(old(session.votes), majority, session.chiefJustice)
      ensures session.resolution == old(session.resolution) && session.chiefJustice == old(session.chiefJustice)
      ensures session.majorityOpinion == old(session.majorityOpinion) && session.dissentOpinion == old(session.dissentOpinion)
    {
      ghost var v0 := session.votes;
      var i := 0;
      while i < |session.votes|
        invariant 0 <= i <= |session.votes| == |v0|
        invariant forall j | 0 <= j < i :: session.votes[j] == v0[j].(opinion := OpinionOf(v0[j], majority, session.chiefJustice))
        invariant forall j | i <= j < |v0| :: session.votes[j] == v0[j]
        invariant session.resolution == old(session.resolution) && session.chiefJustice == old(session.chiefJustice)
        invariant session.majorityOpinion == old(session.majorityOpinion) && session.dissentOpinion == old(session.dissentOpinion)
      {
        var v := session.votes[i];
        var op := if v.position == majority then (if v.justiceId == session.chiefJustice then Majority else Concurrence) else Dissent;
        session.votes := session.votes[i := v.(opinion := op)];
        i := i + 1;
      }
      AssignedAt(v0, majority, session.chiefJustice);
    }

    /** The dissenter search of writeOpinions: the first vote with a dissenting opinion. */
    method FindDissenter(votes: seq<Vote>) returns (r: Option<nat>)
      ensures r == FirstDissent(votes)
    {
      var i := 0;
      while i < |votes|
        invariant 0 <= i <= |votes|
        invariant FirstDissent(votes) == (match FirstDissent(votes[i..]) case None => None case Some(j) => Some(i + j))
      {
        assert votes[i..][1..] == votes[i + 1..];
        if votes[i].opinion == Dissent {
          return Some(i);
        }
        i := i + 1;
      }
      assert votes[i..] == [];
      return None;
    }

    /** writeOpinions. */
    method WriteOpinions(session: Session) returns (err: Option<string>)
      modifies port, session
      ensures var w := Opinions(port.invoke, |old(port.calls)|, session.resolution.formal, session.chiefJustice,
                                old(session.votes), old(session.majorityOpinion), old(session.dissentOpinion));
              && port.calls == old(port.calls) + w.calls && err == w.err
              && session.votes == w.votes && session.majorityOpinion == w.majority && session.dissentOpinion == w.dissent
      ensures session.resolution == old(session.resolution) && session.chiefJustice == old(session.chiefJustice)
    {
      var affirm := CountAffirms(session.votes);
      var majority := affirm > |session.votes| / 2;
      AssignOpinions(session, majority);
      var reply := port.Invoke(session.chiefJustice,
        Request(WriteMajority(session.resolution.formal, affirm, |session.votes| - affirm, majority), MajorityAuthor));
      if reply.CallFailed? {
        return Some(reply.err);
      }
      session.majorityOpinion := reply.content;
      var found := FindDissenter(session.votes);
      if found.Some? {
        var v := session.votes[found.value];
        var dissent := port.Invoke(v.justiceId, Request(WriteDissent(session.resolution.formal, v.position, majority), DissentAuthor));
        if dissent.Reply? {
          session.dissentOpinion := dissent.content;
        }
      }
      err := None;
    }

    /** deliverRuling: AFFIRMED exactly when more than half (rounded down) of the votes affirm. */
    method DeliverRuling(session: Session) returns (r: Ruling)
      ensures r.decision == (if MajorityAffirms(session.votes) then "AFFIRMED" else "REJECTED")
      ensures r.affirm == AffirmCount(session.votes) && r.affirm + r.reject == |session.votes|
    {
      var affirm := CountAffirms(session.votes);
      var decision := "REJECTED";
      if affirm > |session.votes| / 2 {
        decision := "AFFIRMED";
      }
      r := Ruling(decision, affirm, |session.votes| - affirm);
    }
  }
}
