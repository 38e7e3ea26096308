/**
 * Application configuration: the settings read from the configuration
 * file, the defaults filled in for every setting left unset, the model
 * table and default council, and the loading of persona and role files
 * from a directory. Reading and decoding files is outside the model: a
 * directory listing and the decoding of one file are given to it.
 */
module Config {
  import opened Results
  import opened Text
  import TeamTypes

  datatype DebateConfig = DebateConfig(defaultRounds: int, turnTimeout: int, maxResponseWords: int,
                                       summarizeAfterRound: bool)
  datatype ExecutionConfig = ExecutionConfig(parallelOpening: bool, retryOnFailure: bool, maxRetries: int, retryDelay: int)
  datatype OutputConfig = OutputConfig(format: string, saveDebates: bool, debatesDir: string, useColors: bool, verbose: bool)
  datatype ContextConfig = ContextConfig(maxContextChars: int, includeFullHistory: bool)
  datatype TeamConfig = TeamConfig(projectsDir: string, defaultCheckpointLevel: string, defaultShowCosts: bool)

  /** The settings that have defaults, grouped as in the configuration file. */
  datatype Settings = Settings(debate: DebateConfig, execution: ExecutionConfig, output: OutputConfig,
                               context: ContextConfig, team: TeamConfig)

  /** One model's entry in the model table. */
  datatype ModelConfig = ModelConfig(provider: string, model: string, displayName: string, endpoint: string,
                                     authEnvVar: string)

  const DefaultRounds: int := 3
  const DefaultTurnTimeout: int := 180
  const DefaultMaxResponseWords: int := 400
  const DefaultMaxRetries: int := 2
  const DefaultRetryDelay: int := 5
  const DefaultFormat: string := "markdown"
  const DefaultDebatesDir: string := "./debates"
  const DefaultMaxContextChars: int := 8000
  const DefaultProjectsDir: string := "./projects"
  const DefaultCheckpointLevel: string := "all"
  const FallbackCouncil: seq<string> := ["claude", "gpt", "gemini"]

  /** A setting with a default: its value when set, the default when zero. */
  function OrInt(v: int, d: int): int { if v == 0 then d else v }
  function OrString(v: string, d: string): string { if v == "" then d else v }

  /** Each group of settings with its zero-valued defaulted fields replaced by their defaults. */
  function DebateDefaults(d: DebateConfig): DebateConfig
  {
    d.(defaultRounds := OrInt(d.defaultRounds, DefaultRounds),
       turnTimeout := OrInt(d.turnTimeout, DefaultTurnTimeout),
       maxResponseWords := OrInt(d.maxResponseWords, DefaultMaxResponseWords))
  }

  function ExecutionDefaults(e: ExecutionConfig): ExecutionConfig
  {
    e.(maxRetries := OrInt(e.maxRetries, DefaultMaxRetries), retryDelay := OrInt(e.retryDelay, DefaultRetryDelay))
  }

  function OutputDefaults(o: OutputConfig): OutputConfig
  {
    o.(format := OrString(o.format, DefaultFormat), debatesDir := OrString(o.debatesDir, DefaultDebatesDir))
  }

  function TeamDefaults(t: TeamConfig): TeamConfig
  {
    t.(projectsDir := OrString(t.projectsDir, DefaultProjectsDir),
       defaultCheckpointLevel := OrString(t.defaultCheckpointLevel, DefaultCheckpointLevel))
  }

  /** The settings with every zero-valued defaulted field replaced by its default. */
  function WithDefaults(s: Settings): Settings
  {
    Settings(DebateDefaults(s.debate), ExecutionDefaults(s.execution), OutputDefaults(s.output),
             s.context.(maxContextChars := OrInt(s.context.maxContextChars, DefaultMaxContextChars)),
             TeamDefaults(s.team))
  }

  /** No defaulted field is left at its zero value. */
  predicate Complete(s: Settings)
  {
    && s.debate.defaultRounds != 0 && s.debate.turnTimeout != 0 && s.debate.maxResponseWords != 0
    && s.execution.maxRetries != 0 && s.execution.retryDelay != 0
    && s.output.format != "" && s.output.debatesDir != ""
    && s.context.maxContextChars != 0
    && s.team.projectsDir != "" && s.team.defaultCheckpointLevel != ""
  }

  /**
   * Defaulting leaves no zero field, gives each zero field its listed
   * default, keeps each set field, and touches nothing else.
   */
  lemma DefaultsFill(s: Settings)
    ensures var r := WithDefaults(s);
            && Complete(r)
            && (s.debate.defaultRounds == 0 ==> r.debate.defaultRounds == 3)
            && (s.debate.turnTimeout == 0 ==> r.debate.turnTimeout == 180)
            && (s.debate.maxResponseWords == 0 ==> r.debate.maxResponseWords == 400)
            && (s.execution.maxRetries == 0 ==> r.execution.maxRetries == 2)
            && (s.execution.retryDelay == 0 ==> r.execution.retryDelay == 5)
            && (s.output.format == "" ==> r.output.format == "markdown")
            && (s.output.debatesDir == "" ==> r.output.debatesDir == "./debates")
            && (s.context.maxContextChars == 0 ==> r.context.maxContextChars == 8000)
            && (s.team.projectsDir == "" ==> r.team.projectsDir == "./projects")
            && (s.team.defaultCheckpointLevel == "" ==> r.team.defaultCheckpointLevel == "all")
            && r.debate.summarizeAfterRound == s.debate.summarizeAfterRound
            && r.execution.parallelOpening == s.execution.parallelOpening
            && r.execution.retryOnFailure == s.execution.retryOnFailure
            && r.output.saveDebates == s.output.saveDebates && r.output.useColors == s.output.useColors
            && r.output.verbose == s.output.verbose
            && r.context.includeFullHistory == s.context.includeFullHistory
            && r.team.defaultShowCosts == s.team.defaultShowCosts
  {
  }

  /** Settings with no zero field are left exactly as they are. */
  lemma DefaultsKeepComplete(s: Settings)
    requires Complete(s)
    ensures WithDefaults(s) == s
  {
  }

  /** Filling in the defaults twice is the same as once. */
  lemma DefaultsIdempotent(s: Settings)
    ensures WithDefaults(WithDefaults(s)) == WithDefaults(s)
  {
    DefaultsFill(s);
    DefaultsKeepComplete(WithDefaults(s));
  }

  /** Each configured model's display name, by model ID. */
  function DisplayNames(models: map<string, ModelConfig>): (names: map<string, string>)
    ensures names.Keys == models.Keys
    ensures forall id | id in models :: names[id] == models[id].displayName
  {
    map id | id in models :: models[id].displayName
  }

  /**
   * getDisplayName of the debate and court runners: the configured display
   * name of a model when it has one, else the AI ID itself.
   */
  function DisplayName(models: map<string, ModelConfig>, aiId: string): (name: string)
    ensures aiId in models && models[aiId].displayName != "" ==> name == models[aiId].displayName
    ensures aiId !in models || models[aiId].displayName == "" ==> name == aiId
  {
    if aiId in models && models[aiId].displayName != "" then models[aiId].displayName else aiId
  }

  /** It is the team runner's getDisplayName applied to the configured names. */
  lemma DisplayNameIsTeamDisplayName(models: map<string, ModelConfig>, aiId: string)
    ensures DisplayName(models, aiId) == TeamTypes.DisplayName(DisplayNames(models), aiId)
  {
  }

  /** The whole configuration. */
  class AppConfig {
    var settings: Settings
    var models: map<string, ModelConfig>
    var defaultCouncil: seq<string>

    /** What decoding the configuration file yields, before defaults. */
    constructor (settings: Settings, models: map<string, ModelConfig>, defaultCouncil: seq<string>)
      ensures this.settings == settings && this.models == models && this.defaultCouncil == defaultCouncil
    {
      this.settings := settings;
      this.models := models;
      this.defaultCouncil := defaultCouncil;
    }

    /** setDefaults: each zero-valued defaulted field in turn receives its default. */
    method SetDefaults()
      modifies this
      ensures settings == WithDefaults(old(settings))
      ensures models == old(models) && defaultCouncil == old(defaultCouncil)
    {
      var debate, execution, output, context, team :=
        settings.debate, settings.execution, settings.output, settings.context, settings.team;
      if debate.defaultRounds == 0 {
        debate := debate.(defaultRounds := DefaultRounds);
      }
      if debate.turnTimeout == 0 {
        debate := debate.(turnTimeout := DefaultTurnTimeout);
      }
      if debate.maxResponseWords == 0 {
        debate := debate.(maxResponseWords := DefaultMaxResponseWords);
      }
      assert debate == DebateDefaults(settings.debate);
      if execution.maxRetries == 0 {
        execution := execution.(maxRetries := DefaultMaxRetries);
      }
      if execution.retryDelay == 0 {
        execution := execution.(retryDelay := DefaultRetryDelay);
      }
      assert execution == ExecutionDefaults(settings.execution);
      if output.format == "" {
        output := output.(format := DefaultFormat);
      }
      if output.debatesDir == "" {
        output := output.(debatesDir := DefaultDebatesDir);
      }
      assert output == OutputDefaults(settings.output);
      if context.maxContextChars == 0 {
        context := context.(maxContextChars := DefaultMaxContextChars);
      }
      if team.projectsDir == "" {
        team := team.(projectsDir := DefaultProjectsDir);
      }
      if team.defaultCheckpointLevel == "" {
        team := team.(defaultCheckpointLevel := DefaultCheckpointLevel);
      }
      assert team == TeamDefaults(settings.team);
      settings := Settings(debate, execution, output, context, team);
    }

    /** GetModel: the model's entry, if the table has one. */
    function GetModel(aiId: string): (r: Option<ModelConfig>)
      reads this
      ensures r.Some? <==> aiId in models
      ensures r.Some? ==> r.value == models[aiId]
    {
      if aiId in models then Some(models[aiId]) else None
    }

    /** GetCouncilMembers: the configured default council, or claude, gpt and gemini when none is set. */
    function CouncilMembers(): (r: seq<string>)
      reads this
      ensures |defaultCouncil| > 0 ==> r == defaultCouncil
      ensures |defaultCouncil| == 0 ==> r == ["claude", "gpt", "gemini"]
      ensures |r| > 0
    {
      if |defaultCouncil| == 0 then FallbackCouncil else defaultCouncil
    }
  }

  /** What decoding a configuration file yields: settings, model table and default council. */
  type Decoded = (Settings, map<string, ModelConfig>, seq<string>)

  /**
   * Load: reading the file, decoding it, and filling in the defaults;
   * a read or decode error is reported with what failed.
   */
  method Load(file: Result<string>, decode: string -> Result<Decoded>) returns (r: Result<AppConfig>)
    ensures file.Failure? ==> r == Failure("reading config file: " + file.error)
    ensures file.Success? && decode(file.value).Failure? ==>
              r == Failure("parsing config file: " + decode(file.value).error)
    ensures file.Success? && decode(file.value).Success? ==>
              var d := decode(file.value).value;
              && r.Success? && fresh(r.value)
              && r.value.settings == WithDefaults(d.0) && Complete(r.value.settings)
              && r.value.models == d.1 && r.value.defaultCouncil == d.2
  {
    if file.Failure? {
      return Failure("reading config file: " + file.error);
    }
    var decoded := decode(file.value);
    if decoded.Failure? {
      return Failure("parsing config file: " + decoded.error);
    }
    DefaultsFill(decoded.value.0);
    var cfg := new AppConfig(decoded.value.0, decoded.value.1, decoded.value.2);
    cfg.SetDefaults();
    r := Success(cfg);
  }

  // ---------------------------------------------------------------------
  // Persona and role directories

  /** A directory entry: its name and whether it is itself a directory. */
  datatype Entry = Entry(name: string, isDir: bool)

  /** Reading a directory: it does not exist, it cannot be read, or its entries. */
  datatype Listing = Missing | Unreadable(err: string) | Listed(entries: seq<Entry>)

  predicate HasSuffix(s: string, suffix: string)
  {
    |suffix| <= |s| && s[|s| - |suffix|..] == suffix
  }

  /**
   * The extension of a file name is ".yaml" exactly when the name ends
   * with it: the last dot of such a name is the one five bytes from the end.
   */
  predicate IsYaml(e: Entry)
  {
    !e.isDir && HasSuffix(e.name, ".yaml")
  }

  /** The key of a YAML file: its name without the last five bytes. */
  function YamlKey(name: string): (key: string)
    requires HasSuffix(name, ".yaml")
    ensures key + ".yaml" == name
  {
    name[..|name| - 5]
  }

  /**
   * Loading the entries in order: skip directories and non-YAML names,
   * decode the rest, stop at the first that fails, and otherwise key each
   * decoded value by its file name without the extension.
   */
  function LoadedEntries<T>(entries: seq<Entry>, decode: string -> Result<T>, kind: string, acc: map<string, T>): Result<map<string, T>>
    decreases |entries|
  {
    if |entries| == 0 then Success(acc)
    else
      var e := entries[0];
      if !IsYaml(e) then LoadedEntries(entries[1..], decode, kind, acc)
      else
        match decode(e.name)
        case Failure(err) => Failure("loading " + kind + " " + e.name + ": " + err)
        case Success(v) => LoadedEntries(entries[1..], decode, kind, acc[YamlKey(e.name) := v])
  }

  /**
   * LoadPersonasFromDir and LoadRolesFromDir: a missing directory gives
   * nothing loaded, an unreadable one an error, and otherwise the YAML
   * files are loaded one after another.
   */
  method LoadYamlDir<T>(listing: Listing, decode: string -> Result<T>, kind: string) returns (r: Result<map<string, T>>)
    ensures listing.Missing? ==> r == Success(map[])
    ensures listing.Unreadable? ==> r == Failure("reading " + kind + "s directory: " + listing.err)
    ensures listing.Listed? ==> r == LoadedEntries(listing.entries, decode, kind, map[])
  {
    if listing.Missing? {
      return Success(map[]);
    }
    if listing.Unreadable? {
      return Failure("reading " + kind + "s directory: " + listing.err);
    }
    var entries := listing.entries;
    var loaded: map<string, T> := map[];
    var i := 0;
    while i < |entries|
      invariant 0 <= i <= |entries|
      invariant LoadedEntries(entries[i..], decode, kind, loaded) == LoadedEntries(entries, decode, kind, map[])
    {
      var e := entries[i];
      assert entries[i..][1..] == entries[i + 1..];
      if e.isDir || !HasSuffix(e.name, ".yaml") {
        i := i + 1;
        continue;
      }
      var value := decode(e.name);
      if value.Failure? {
        return Failure("loading " + kind + " " + e.name + ": " + value.error);
      }
      loaded := loaded[YamlKey(e.name) := value.value];
      i := i + 1;
    }
    r := Success(loaded);
  }

  /**
   * A successful load keys exactly the YAML files, each by its name
   * without ".yaml", and every key holds what decoding the last file with
   * that key gave.
   */
  lemma {:induction false} LoadedKeys<T>(entries: seq<Entry>, decode: string -> Result<T>, kind: string, acc: map<string, T>)
    requires LoadedEntries(entries, decode, kind, acc).Success?
    ensures var m := LoadedEntries(entries, decode, kind, acc).value;
            forall key :: key in m <==>
              key in acc || exists i | 0 <= i < |entries| :: IsYaml(entries[i]) && YamlKey(entries[i].name) == key
    decreases |entries|
  {
    if |entries| > 0 {
      var e := entries[0];
      var rest := entries[1..];
      var acc' := if IsYaml(e) then acc[YamlKey(e.name) := decode(e.name).value] else acc;
      LoadedKeys(rest, decode, kind, acc');
      var m := LoadedEntries(entries, decode, kind, acc).value;
      forall key
        ensures key in m <==>
                key in acc || exists i | 0 <= i < |entries| :: IsYaml(entries[i]) && YamlKey(entries[i].name) == key
      {
        if exists j | 0 <= j < |rest| :: IsYaml(rest[j]) && YamlKey(rest[j].name) == key {
          var j :| 0 <= j < |rest| && IsYaml(rest[j]) && YamlKey(rest[j].name) == key;
          assert entries[j + 1] == rest[j];
        }
        if exists i | 0 <= i < |entries| :: IsYaml(entries[i]) && YamlKey(entries[i].name) == key {
          var i :| 0 <= i < |entries| && IsYaml(entries[i]) && YamlKey(entries[i].name) == key;
          if i > 0 {
            assert rest[i - 1] == entries[i];
          }
        }
      }
    }
  }

  /** A load fails exactly when decoding some YAML file fails. */
  lemma {:induction false} LoadedFails<T>(entries: seq<Entry>, decode: string -> Result<T>, kind: string, acc: map<string, T>)
    ensures LoadedEntries(entries, decode, kind, acc).Failure? <==>
            exists i | 0 <= i < |entries| :: IsYaml(entries[i]) && decode(entries[i].name).Failure?
    decreases |entries|
  {
    if |entries| > 0 {
      var e := entries[0];
      var rest := entries[1..];
      var acc' := if IsYaml(e) && decode(e.name).Success? then acc[YamlKey(e.name) := decode(e.name).value] else acc;
      LoadedFails(rest, decode, kind, acc');
      if exists j | 0 <= j < |rest| :: IsYaml(rest[j]) && decode(rest[j].name).Failure? {
        var j :| 0 <= j < |rest| && IsYaml(rest[j]) && decode(rest[j].name).Failure?;
        assert entries[j + 1] == rest[j];
      }
      if exists i | 0 <= i < |entries| :: IsYaml(entries[i]) && decode(entries[i].name).Failure? {
        var i :| 0 <= i < |entries| && IsYaml(entries[i]) && decode(entries[i].name).Failure?;
        if i > 0 {
          assert rest[i - 1] == entries[i];
        }
      }
    }
  }
}
