/**
 * Dynamic personas: the personas a debate can draw on, which persona each
 * AI currently plays, the moderator's suggestions to switch, and the
 * history of switches applied. The moderator is asked through the model
 * port; its reply is parsed line by line into switch records.
 */
module Personas {
  import opened Results
  import opened Text
  import opened Port

  /** persona.Persona */
  datatype Persona = Persona(id: string, name: string, description: string, systemPrompt: string,
                             traits: seq<string>, style: string)

  /** persona.PersonaSwitch */
  datatype PersonaSwitch = PersonaSwitch(aiId: string, fromPersona: string, toPersona: string, reason: string, round: int)

  /** config.Persona: a persona as read from a YAML file. */
  datatype PersonaFile = PersonaFile(name: string, description: string, systemPrompt: string,
                                     traits: seq<string>, debateStyle: string)

  /** The persona a file describes, keyed by the file's name. */
  function FromFile(id: string, f: PersonaFile): (p: Persona)
    ensures p.id == id && p.systemPrompt == f.systemPrompt && p.style == f.debateStyle
  {
    Persona(id, f.name, f.description, f.systemPrompt, f.traits, f.debateStyle)
  }

  /** The system prompts of the built-in personas, one literal per line of text. */
  const AnalyticalPrompt: string :=
    "You are an analytical debater who prioritizes:\n" +
    "- Logical reasoning and evidence-based arguments\n" +
    "- Identifying assumptions and testing them\n" +
    "- Structured analysis of pros and cons\n" +
    "- Quantitative data when available"

  const DevilsAdvocatePrompt: string :=
    "You are a devil's advocate who:\n" +
    "- Questions commonly held assumptions\n" +
    "- Presents counterarguments to prevailing views\n" +
    "- Highlights potential flaws in popular positions\n" +
    "- Ensures all perspectives are thoroughly examined"

  const SynthesizerPrompt: string :=
    "You are a synthesizer who:\n" +
    "- Identifies areas of agreement among different positions\n" +
    "- Builds bridges between opposing views\n" +
    "- Proposes integrative solutions\n" +
    "- Focuses on constructive outcomes"

  const PragmatistPrompt: string :=
    "You are a pragmatist who:\n" +
    "- Evaluates ideas based on practical feasibility\n" +
    "- Considers real-world constraints and trade-offs\n" +
    "- Focuses on actionable recommendations\n" +
    "- Prioritizes what works over what's ideal"

  const VisionaryPrompt: string :=
    "You are a visionary who:\n" +
    "- Thinks beyond current constraints\n" +
    "- Explores long-term implications\n" +
    "- Proposes innovative solutions\n" +
    "- Challenges the status quo"

  /**
   * GetDefaultPersonas: the five built-in personas. Each system prompt is
   * an opening line followed by four bulleted lines, each introduced by
   * a newline and "- ".
   */
  function DefaultPersonas(): seq<Persona>
  {
    [ Persona("analytical", "Analytical Debater",
              "Focuses on logical analysis and evidence",
              AnalyticalPrompt,
              ["logical", "evidence-based", "systematic"], "analytical"),
      Persona("devils_advocate", "Devil's Advocate",
              "Challenges assumptions and popular positions",
              DevilsAdvocatePrompt,
              ["contrarian", "challenging", "thorough"], "adversarial"),
      Persona("synthesizer", "Synthesizer",
              "Finds common ground and integrates perspectives",
              SynthesizerPrompt,
              ["integrative", "diplomatic", "constructive"], "collaborative"),
      Persona("pragmatist", "Pragmatist",
              "Focuses on practical implementation",
              PragmatistPrompt,
              ["practical", "realistic", "action-oriented"], "practical"),
      Persona("visionary", "Visionary",
              "Explores bold possibilities and future implications",
              VisionaryPrompt,
              ["innovative", "forward-thinking", "bold"], "visionary") ]
  }

  /** No two personas in the list share an ID. */
  predicate DistinctIds(ps: seq<Persona>)
  {
    forall i, j | 0 <= i < j < |ps| :: ps[i].id != ps[j].id
  }

  /** The IDs of a list of personas, in order. */
  function Ids(ps: seq<Persona>): (ids: seq<string>)
    ensures |ids| == |ps| && forall i | 0 <= i < |ps| :: ids[i] == ps[i].id
  {
    if |ps| == 0 then [] else [ps[0].id] + Ids(ps[1..])
  }

  /** The built-in personas have distinct IDs, so registering them all keeps each one. */
  lemma DefaultIdsDistinct()
    ensures DistinctIds(DefaultPersonas())
  {
    var ps := DefaultPersonas();
    var ids := Ids(ps);
    assert ids[0] == "analytical" && ids[1] == "devils_advocate" && ids[2] == "synthesizer"
           && ids[3] == "pragmatist" && ids[4] == "visionary";
    FiveInitials(ids);
  }

  /** Five IDs with five different first letters are five different IDs. */
  lemma FiveInitials(ids: seq<string>)
    requires |ids| == 5 && forall i | 0 <= i < 5 :: |ids[i]| > 0
    requires ids[0][0] == 'a' && ids[1][0] == 'd' && ids[2][0] == 's' && ids[3][0] == 'p' && ids[4][0] == 'v'
    ensures forall i, j | 0 <= i < j < |ids| :: ids[i] != ids[j]
  {
    forall i, j | 0 <= i < j < |ids|
      ensures ids[i] != ids[j]
    {
      assert ids[i][0] != ids[j][0];
    }
  }

  // ---------------------------------------------------------------------
  // Parsing the moderator's reply

  /** The record being filled and the records already emitted. */
  datatype Scan = Scan(current: PersonaSwitch, switches: seq<PersonaSwitch>)

  /** A record is emitted only when it names an AI and a persona to switch to. */
  predicate Complete(sw: PersonaSwitch)
  {
    sw.aiId != "" && sw.toPersona != ""
  }

  /** A fresh record for the round. */
  function Blank(round: int): (sw: PersonaSwitch)
    ensures !Complete(sw) && sw.round == round
  {
    PersonaSwitch("", "", "", "", round)
  }

  /** The emitted records, with the record being filled added when it is complete. */
  function Flush(st: Scan): (r: seq<PersonaSwitch>)
    ensures r == st.switches || r == st.switches + [st.current]
    ensures |r| == |st.switches| + 1 <==> Complete(st.current)
  {
    if Complete(st.current) then st.switches + [st.current] else st.switches
  }

  /** A trimmed line's value after its key, trimmed. */
  function ValueAfter(line: string, key: string): string
  {
    TrimSpace(TrimPrefix(line, key))
  }

  /** A line that opens a record. */
  predicate AgentLine(raw: string)
  {
    HasPrefix(TrimSpace(raw), "AI:")
  }

  /**
   * One line of the reply: an `AI:` line emits the record being filled (if
   * complete) and starts a new one for that AI; a `FROM:`, `TO:` or
   * `REASON:` line overwrites that field of the record being filled; any
   * other line changes nothing.
   */
  function StepLine(st: Scan, raw: string, round: int): (r: Scan)
    ensures AgentLine(raw) ==> r == Scan(Blank(round).(aiId := ValueAfter(TrimSpace(raw), "AI:")), Flush(st))
    ensures !AgentLine(raw) ==> r.switches == st.switches && r.current.aiId == st.current.aiId
                                && r.current.round == st.current.round
    ensures !AgentLine(raw) && HasPrefix(TrimSpace(raw), "TO:") ==> r.current.toPersona == ValueAfter(TrimSpace(raw), "TO:")
  {
    var line := TrimSpace(raw);
    if HasPrefix(line, "AI:") then Scan(Blank(round).(aiId := ValueAfter(line, "AI:")), Flush(st))
    else if HasPrefix(line, "FROM:") then st.(current := st.current.(fromPersona := ValueAfter(line, "FROM:")))
    else if HasPrefix(line, "TO:") then st.(current := st.current.(toPersona := ValueAfter(line, "TO:")))
    else if HasPrefix(line, "REASON:") then st.(current := st.current.(reason := ValueAfter(line, "REASON:")))
    else st
  }

  /** The scan after the given lines, in order, from a blank record and no emitted records. */
  function ScanLines(lines: seq<string>, round: int): Scan
    decreases |lines|
  {
    if |lines| == 0 then Scan(Blank(round), [])
    else
      var n := |lines| - 1;
      StepLine(ScanLines(lines[..n], round), lines[n], round)
  }

  /** The number of lines that open a record. */
  function AgentLines(lines: seq<string>): (n: nat)
    ensures n <= |lines|
    decreases |lines|
  {
    if |lines| == 0 then 0
    else
      var n := |lines| - 1;
      AgentLines(lines[..n]) + (if AgentLine(lines[n]) then 1 else 0)
  }

  /** The AIs named by the lines that open a record. */
  function AgentNames(lines: seq<string>): set<string>
    decreases |lines|
  {
    if |lines| == 0 then {}
    else
      var n := |lines| - 1;
      AgentNames(lines[..n]) + (if AgentLine(lines[n]) then {ValueAfter(TrimSpace(lines[n]), "AI:")} else {})
  }

  /**
   * parseSuggestions: nothing when the reply says "NO_CHANGES_NEEDED"
   * anywhere; otherwise the complete records, in the order of their lines.
   */
  function Suggestions(content: string, round: int): (r: seq<PersonaSwitch>)
    ensures Contains(content, "NO_CHANGES_NEEDED") ==> r == []
  {
    if Contains(content, "NO_CHANGES_NEEDED") then []
    else Flush(ScanLines(Split(content, '\n'), round))
  }

  /** One line keeps every emitted record complete and of the round, and the pending record of the round. */
  lemma StepRound(st: Scan, raw: string, round: int)
    requires st.current.round == round && forall s | s in st.switches :: Complete(s) && s.round == round
    ensures var r := StepLine(st, raw, round);
            r.current.round == round && forall s | s in r.switches :: Complete(s) && s.round == round
  {
  }

  /** Only a line that opens a record adds to the records emitted or pending. */
  lemma StepCount(st: Scan, raw: string, round: int, k: nat)
    requires |st.switches| + (if st.current.aiId != "" then 1 else 0) <= k
    ensures var r := StepLine(st, raw, round);
            |r.switches| + (if r.current.aiId != "" then 1 else 0) <= k + (if AgentLine(raw) then 1 else 0)
  {
  }

  /** Only a line that opens a record brings in a new AI, the one it names. */
  lemma StepNames(st: Scan, raw: string, round: int, names: set<string>)
    requires forall s | s in st.switches :: s.aiId in names
    requires st.current.aiId != "" ==> st.current.aiId in names
    ensures var r := StepLine(st, raw, round);
            var after := names + (if AgentLine(raw) then {ValueAfter(TrimSpace(raw), "AI:")} else {});
            && (forall s | s in r.switches :: s.aiId in after)
            && (r.current.aiId != "" ==> r.current.aiId in after)
  {
  }

  /** Lines read one at a time: the scan of all but the last, then the last. */
  lemma ScanLast(lines: seq<string>, round: int)
    requires |lines| > 0
    ensures ScanLines(lines, round) == StepLine(ScanLines(lines[..|lines| - 1], round), lines[|lines| - 1], round)
    ensures AgentLines(lines) == AgentLines(lines[..|lines| - 1]) + (if AgentLine(lines[|lines| - 1]) then 1 else 0)
  {
  }

  /** Every emitted record is complete and of the round, and so is the pending record's round. */
  lemma {:induction false} ScanRound(lines: seq<string>, round: int)
    ensures var st := ScanLines(lines, round);
            st.current.round == round && forall s | s in st.switches :: Complete(s) && s.round == round
    decreases |lines|
  {
    if |lines| > 0 {
      var n := |lines| - 1;
      ScanRound(lines[..n], round);
      ScanLast(lines, round);
      StepRound(ScanLines(lines[..n], round), lines[n], round);
    }
  }

  /** No more records are emitted or pending than there are `AI:` lines. */
  lemma {:induction false} ScanCount(lines: seq<string>, round: int)
    ensures var st := ScanLines(lines, round);
            |st.switches| + (if st.current.aiId != "" then 1 else 0) <= AgentLines(lines)
    decreases |lines|
  {
    if |lines| > 0 {
      var n := |lines| - 1;
      ScanCount(lines[..n], round);
      ScanLast(lines, round);
      StepCount(ScanLines(lines[..n], round), lines[n], round, AgentLines(lines[..n]));
    }
  }

  /** Every record, emitted or pending, names an AI from some `AI:` line. */
  lemma {:induction false} ScanNames(lines: seq<string>, round: int)
    ensures var st := ScanLines(lines, round);
            && (forall s | s in st.switches :: s.aiId in AgentNames(lines))
            && (st.current.aiId != "" ==> st.current.aiId in AgentNames(lines))
    decreases |lines|
  {
    if |lines| > 0 {
      var n := |lines| - 1;
      ScanNames(lines[..n], round);
      ScanLast(lines, round);
      StepNames(ScanLines(lines[..n], round), lines[n], round, AgentNames(lines[..n]));
    }
  }

  /** One more line never removes or reorders a record already emitted. */
  lemma StepExtends(st: Scan, raw: string, round: int)
    ensures st.switches <= StepLine(st, raw, round).switches
  {
    var r := StepLine(st, raw, round);
    assert r.switches == st.switches || r.switches == st.switches + [st.current];
  }

  /** A prefix of a prefix is a prefix. */
  lemma PrefixOfPrefix<T>(a: seq<T>, b: seq<T>, c: seq<T>)
    requires a <= b && b <= c
    ensures a <= c
  {
    assert c[..|b|][..|a|] == c[..|a|];
  }

  /** Lines read later never remove or reorder a record already emitted. */
  lemma {:induction false} ScanExtends(lines: seq<string>, i: nat, round: int)
    requires i <= |lines|
    ensures ScanLines(lines[..i], round).switches <= ScanLines(lines, round).switches
    decreases |lines|
  {
    if i < |lines| {
      var n := |lines| - 1;
      assert lines[..n][..i] == lines[..i];
      ScanExtends(lines[..n], i, round);
      ScanLast(lines, round);
      StepExtends(ScanLines(lines[..n], round), lines[n], round);
      PrefixOfPrefix(ScanLines(lines[..i], round).switches, ScanLines(lines[..n], round).switches,
                     ScanLines(lines, round).switches);
    } else {
      assert lines[..i] == lines;
    }
  }

  /**
   * The parsed switches: each names an AI from an `AI:` line and a persona,
   * and carries the round asked about; there are no more of them than
   * `AI:` lines, so a reply without one yields none.
   */
  lemma SuggestionsShape(content: string, round: int)
    ensures var r := Suggestions(content, round);
            && (forall s | s in r :: Complete(s) && s.round == round && s.aiId in AgentNames(Split(content, '\n')))
            && |r| <= AgentLines(Split(content, '\n'))
  {
    if !Contains(content, "NO_CHANGES_NEEDED") {
      var lines := Split(content, '\n');
      ScanRound(lines, round);
      ScanCount(lines, round);
      ScanNames(lines, round);
    }
  }

  /** parseSuggestions, line by line. */
  method ParseSuggestions(content: string, round: int) returns (switches: seq<PersonaSwitch>)
    ensures switches == Suggestions(content, round)
  {
    if Contains(content, "NO_CHANGES_NEEDED") {
      return [];
    }
    var lines := Split(content, '\n');
    var current := Blank(round);
    switches := [];
    var i := 0;
    while i < |lines|
      invariant 0 <= i <= |lines|
      invariant Scan(current, switches) == ScanLines(lines[..i], round)
    {
      assert lines[..i + 1][..i] == lines[..i];
      var line := TrimSpace(lines[i]);
      if HasPrefix(line, "AI:") {
        if current.aiId != "" && current.toPersona != "" {
          switches := switches + [current];
        }
        current := Blank(round);
        current := current.(aiId := TrimSpace(TrimPrefix(line, "AI:")));
      } else if HasPrefix(line, "FROM:") {
        current := current.(fromPersona := TrimSpace(TrimPrefix(line, "FROM:")));
      } else if HasPrefix(line, "TO:") {
        current := current.(toPersona := TrimSpace(TrimPrefix(line, "TO:")));
      } else if HasPrefix(line, "REASON:") {
        current := current.(reason := TrimSpace(TrimPrefix(line, "REASON:")));
      }
      i := i + 1;
    }
    assert lines[..i] == lines;
    if current.aiId != "" && current.toPersona != "" {
      switches := switches + [current];
    }
  }

  // ---------------------------------------------------------------------
  // The manager

  /** What the moderator is asked: the topic, the round and the recent responses. */
  datatype SuggestAsk = SuggestAsk(topic: string, round: int, responses: seq<string>)

  /** persona.DynamicPersonaManager; the registry is the model port. */
  class PersonaManager {
    const port: ModelPort<SuggestAsk>
    var personas: map<string, Persona>
    /** AI ID to the ID of the persona it currently plays. */
    var assignments: map<string, string>
    var history: seq<PersonaSwitch>
    var enabled: bool

    /** NewDynamicPersonaManager: nothing registered or assigned, switching on. */
    constructor (port: ModelPort<SuggestAsk>)
      ensures this.port == port
      ensures personas == map[] && assignments == map[] && history == [] && enabled
    {
      this.port := port;
      personas := map[];
      assignments := map[];
      history := [];
      enabled := true;
    }

    /** RegisterPersona: keyed by ID, so a second persona with the same ID replaces the first. */
    method RegisterPersona(p: Persona)
      modifies this
      ensures personas == old(personas)[p.id := p]
      ensures assignments == old(assignments) && history == old(history) && enabled == old(enabled)
    {
      personas := personas[p.id := p];
    }

    /** AssignPersona: the AI plays the persona from now on, registered or not. */
    method AssignPersona(aiId: string, personaId: string)
      modifies this
      ensures assignments == old(assignments)[aiId := personaId]
      ensures personas == old(personas) && history == old(history) && enabled == old(enabled)
    {
      assignments := assignments[aiId := personaId];
    }

    /** GetPersona: none when the AI has no assignment or its persona is not registered. */
    function GetPersona(aiId: string): (r: Option<Persona>)
      reads this
      ensures r.Some? <==> aiId in assignments && assignments[aiId] in personas
      ensures r.Some? ==> r.value == personas[assignments[aiId]]
    {
      if aiId !in assignments then None
      else if assignments[aiId] !in personas then None
      else Some(personas[assignments[aiId]])
    }

    /** GetSystemPrompt: the persona's prompt, or "" when the AI has no persona. */
    function GetSystemPrompt(aiId: string): (prompt: string)
      reads this
      ensures GetPersona(aiId).None? ==> prompt == ""
      ensures GetPersona(aiId).Some? ==> prompt == GetPersona(aiId).value.systemPrompt
    {
      match GetPersona(aiId)
      case None => ""
      case Some(p) => p.systemPrompt
    }

    /**
     * SuggestSwitch: when switching is off, no suggestions and no call;
     * otherwise one call to the moderator ("claude"), whose error is passed
     * on and whose reply is parsed.
     */
    method SuggestSwitch(round: int, topic: string, responses: seq<string>) returns (r: Result<seq<PersonaSwitch>>)
      modifies port
      ensures !enabled ==> r == Success([]) && port.calls == old(port.calls)
      ensures enabled ==> port.calls == old(port.calls) + [("claude", SuggestAsk(topic, round, responses))]
      ensures enabled ==> match port.invoke(|old(port.calls)|)
                          case CallFailed(e) => r == Failure(e)
                          case Reply(c) => r == Success(Suggestions(c, round))
    {
      if !enabled {
        return Success([]);
      }
      var reply := port.Invoke("claude", SuggestAsk(topic, round, responses));
      if reply.CallFailed? {
        return Failure(reply.err);
      }
      var switches := ParseSuggestions(reply.content, round);
      return Success(switches);
    }

    /** ApplySwitch: the AI now plays the suggested persona, and the switch is logged. */
    method ApplySwitch(sw: PersonaSwitch)
      modifies this
      ensures assignments == old(assignments)[sw.aiId := sw.toPersona]
      ensures history == old(history) + [sw]
      ensures personas == old(personas) && enabled == old(enabled)
      ensures GetPersona(sw.aiId) == if sw.toPersona in personas then Some(personas[sw.toPersona]) else None
      ensures forall ai | ai != sw.aiId :: GetPersona(ai) == old(GetPersona(ai))
    {
      assignments := assignments[sw.aiId := sw.toPersona];
      history := history + [sw];
    }

    /** GetHistory */
    method GetHistory() returns (h: seq<PersonaSwitch>)
      ensures h == history
    {
      h := history;
    }

    /** Enable */
    method Enable()
      modifies this
      ensures enabled
      ensures personas == old(personas) && assignments == old(assignments) && history == old(history)
    {
      enabled := true;
    }

    /** Disable */
    method Disable()
      modifies this
      ensures !enabled
      ensures personas == old(personas) && assignments == old(assignments) && history == old(history)
    {
      enabled := false;
    }

    /** IsEnabled */
    function IsEnabled(): (on: bool)
      reads this
      ensures on <==> enabled
    {
      enabled
    }

    /**
     * LoadPersonasFromConfig, given what loading the directory gave: its
     * error, with nothing registered; or every loaded persona registered
     * under its file key, whatever order the keys are visited in.
     */
    method LoadPersonasFromConfig(loaded: Result<map<string, PersonaFile>>) returns (err: Option<string>)
      modifies this
      ensures loaded.Failure? ==> err == Some(loaded.error) && personas == old(personas)
      ensures loaded.Success? ==> err == None
      ensures loaded.Success? ==>
                && (forall id | id in loaded.value :: id in personas && personas[id] == FromFile(id, loaded.value[id]))
                && (forall id | id in old(personas) && id !in loaded.value :: id in personas && personas[id] == old(personas)[id])
                && personas.Keys == old(personas).Keys + loaded.value.Keys
      ensures assignments == old(assignments) && history == old(history) && enabled == old(enabled)
    {
      if loaded.Failure? {
        return Some(loaded.error);
      }
      var files := loaded.value;
      var left := files.Keys;
      while left != {}
        invariant left <= files.Keys
        invariant forall id | id in files && id !in left :: id in personas && personas[id] == FromFile(id, files[id])
        invariant forall id | id in old(personas) && (id !in files || id in left) :: id in personas && personas[id] == old(personas)[id]
        invariant personas.Keys == old(personas).Keys + (files.Keys - left)
        invariant assignments == old(assignments) && history == old(history) && enabled == old(enabled)
        decreases left
      {
        var id :| id in left;
        RegisterPersona(FromFile(id, files[id]));
        left := left - {id};
      }
      return None;
    }

    /**
     * Registering a list of personas in order: with distinct IDs, each is
     * kept under its ID, and every other registered persona stays.
     */
    method RegisterAll(ps: seq<Persona>)
      requires DistinctIds(ps)
      modifies this
      ensures forall p | p in ps :: p.id in personas && personas[p.id] == p
      ensures forall id | id in old(personas) && (forall p | p in ps :: p.id != id) :: id in personas && personas[id] == old(personas)[id]
      ensures forall id | id in personas :: id in old(personas) || exists j | 0 <= j < |ps| :: ps[j].id == id
      ensures assignments == old(assignments) && history == old(history) && enabled == old(enabled)
    {
      var i := 0;
      while i < |ps|
        invariant 0 <= i <= |ps|
        invariant forall j | 0 <= j < i :: ps[j].id in personas && personas[ps[j].id] == ps[j]
        invariant forall id | id in old(personas) && (forall j | 0 <= j < i :: ps[j].id != id) :: id in personas && personas[id] == old(personas)[id]
        invariant forall id | id in personas :: id in old(personas) || exists j | 0 <= j < i :: ps[j].id == id
        invariant assignments == old(assignments) && history == old(history) && enabled == old(enabled)
      {
        RegisterPersona(ps[i]);
        i := i + 1;
      }
    }

    /** InitializeDefaults: the five built-in personas are registered, each under its ID. */
    method InitializeDefaults()
      modifies this
      ensures forall p | p in DefaultPersonas() :: p.id in personas && personas[p.id] == p
      ensures forall id | id in old(personas) && (forall p | p in DefaultPersonas() :: p.id != id) :: id in personas && personas[id] == old(personas)[id]
      ensures forall id | id in personas :: id in old(personas) || exists j | 0 <= j < |DefaultPersonas()| :: DefaultPersonas()[j].id == id
      ensures assignments == old(assignments) && history == old(history) && enabled == old(enabled)
    {
      DefaultIdsDistinct();
      RegisterAll(DefaultPersonas());
    }
  }
}
