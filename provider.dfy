/**
 * The provider layer's request validation and registry. A provider is
 * known by its name; the registry maps provider names to adapters and AI
 * IDs to model configurations, and routes a call for an AI ID to the
 * provider its model names, falling back to a provider of that name.
 * What an adapter does with a request (network calls, subprocesses) is a
 * parameter of the routing functions.
 */
module Providers {
  import opened Results
  import opened Text
  import Config

  /** The largest prompt, and the largest system prompt, a request may carry: 1 MB. */
  const MaxPromptLength: nat := 1000000

  /** provider.Request; the temperature is a real number (NaN is not modelled). */
  datatype Request = Request(prompt: string, systemPrompt: string, maxTokens: int, temperature: real)

  /** provider.Response. */
  datatype Response = Response(content: string, model: string, finishReason: string, tokensUsed: int)

  /**
   * Request.Validate: None when the request is acceptable, else the error of
   * the first check that fails, in the order prompt length, system prompt
   * length, temperature range.
   */
  function Validate(req: Request): (err: Option<string>)
    ensures err.None? <==>
              |req.prompt| <= MaxPromptLength && |req.systemPrompt| <= MaxPromptLength
              && 0.0 <= req.temperature <= 2.0
    ensures |req.prompt| > MaxPromptLength ==>
              err == Some("prompt too long: " + NatToString(|req.prompt|) + " bytes (max: 1000000)")
    ensures |req.prompt| <= MaxPromptLength && |req.systemPrompt| > MaxPromptLength ==>
              err == Some("system prompt too long: " + NatToString(|req.systemPrompt|) + " bytes (max: 1000000)")
    ensures |req.prompt| <= MaxPromptLength && |req.systemPrompt| <= MaxPromptLength
            && (req.temperature < 0.0 || req.temperature > 2.0) ==>
              err == Some("temperature must be between 0 and 2")
  {
    if |req.prompt| > MaxPromptLength then
      Some("prompt too long: " + NatToString(|req.prompt|) + " bytes (max: 1000000)")
    else if |req.systemPrompt| > MaxPromptLength then
      Some("system prompt too long: " + NatToString(|req.systemPrompt|) + " bytes (max: 1000000)")
    else if req.temperature < 0.0 || req.temperature > 2.0 then
      Some("temperature must be between 0 and 2")
    else
      None
  }

  /** The bounds are inclusive: a request exactly at every limit is accepted. */
  lemma ValidateAtLimits(prompt: string, systemPrompt: string, maxTokens: int)
    requires |prompt| == MaxPromptLength && |systemPrompt| == MaxPromptLength
    ensures Validate(Request(prompt, systemPrompt, maxTokens, 0.0)).None?
    ensures Validate(Request(prompt, systemPrompt, maxTokens, 2.0)).None?
    ensures Validate(Request(prompt + " ", systemPrompt, maxTokens, 0.0)).Some?
    ensures Validate(Request(prompt, systemPrompt, maxTokens, 2.5)).Some?
  {
    assert |prompt + " "| == MaxPromptLength + 1;
  }

  /** Lower-case hexadecimal digit of `d`. */
  function HexDigit(d: nat): char
    requires d < 16
  {
    if d < 10 then ('0' as int + d) as char else ('a' as int + d - 10) as char
  }

  /** Value of a lower-case hexadecimal digit. */
  function HexValue(c: char): Option<nat>
  {
    if '0' <= c <= '9' then Some(c as int - '0' as int)
    else if 'a' <= c <= 'f' then Some(c as int - 'a' as int + 10)
    else None
  }

  /** Whether %q writes `c` as itself: printable ASCII other than the quote and the backslash, or non-ASCII. */
  predicate Plain(c: char)
  {
    (' ' <= c < '\U{7F}' || '\U{7F}' < c) && c != '"' && c != '\\'
  }

  /** The letter of a one-letter escape (\a \b \f \n \r \t \v \\ \"), if `c` has one. */
  function EscapeLetter(c: char): Option<char>
  {
    if c == '\U{7}' then Some('a')
    else if c == '\U{8}' then Some('b')
    else if c == '\U{C}' then Some('f')
    else if c == '\n' then Some('n')
    else if c == '\r' then Some('r')
    else if c == '\t' then Some('t')
    else if c == '\U{B}' then Some('v')
    else if c == '\\' then Some('\\')
    else if c == '"' then Some('"')
    else None
  }

  /** The character a one-letter escape stands for. */
  function LetterValue(l: char): Option<char>
  {
    if l == 'a' then Some('\U{7}')
    else if l == 'b' then Some('\U{8}')
    else if l == 'f' then Some('\U{C}')
    else if l == 'n' then Some('\n')
    else if l == 'r' then Some('\r')
    else if l == 't' then Some('\t')
    else if l == 'v' then Some('\U{B}')
    else if l == '\\' then Some('\\')
    else if l == '"' then Some('"')
    else None
  }

  /** How strconv.Quote writes one character: itself, a one-letter escape, or \x and two hex digits. */
  function EscapeChar(c: char): (e: string)
    ensures |e| > 0 && (e[0] == '\\' <==> !Plain(c))
  {
    if Plain(c) then [c]
    else if EscapeLetter(c).Some? then ['\\', EscapeLetter(c).value]
    else
      var b := c as int % 256;
      ['\\', 'x', HexDigit(b / 16), HexDigit(b % 16)]
  }

  /** The body of a %q string: each character escaped in turn. */
  function Escape(s: string): (e: string)
    ensures |e| >= |s|
  {
    if |s| == 0 then "" else EscapeChar(s[0]) + Escape(s[1..])
  }

  /** A string as %q writes it: escaped, between double quotes. */
  function Quote(s: string): (q: string)
    ensures |q| >= |s| + 2 && q[0] == '"' && q[|q| - 1] == '"'
  {
    "\"" + Escape(s) + "\""
  }

  /**
   * Reads back the body of a %q string: None when it holds a bare double
   * quote, a bare backslash or an escape %q does not write.
   */
  function Unescape(e: string): (r: Option<string>)
    decreases |e|
  {
    if |e| == 0 then Some("")
    else if e[0] == '"' then None
    else if e[0] != '\\' then
      match Unescape(e[1..])
      case Some(rest) => Some([e[0]] + rest)
      case None => None
    else if |e| >= 2 && LetterValue(e[1]).Some? then
      match Unescape(e[2..])
      case Some(rest) => Some([LetterValue(e[1]).value] + rest)
      case None => None
    else if |e| >= 4 && e[1] == 'x' && HexValue(e[2]).Some? && HexValue(e[3]).Some? then
      match Unescape(e[4..])
      case Some(rest) => Some([(HexValue(e[2]).value * 16 + HexValue(e[3]).value) as char] + rest)
      case None => None
    else None
  }

  lemma HexRoundTrip(d: nat)
    requires d < 16
    ensures HexValue(HexDigit(d)) == Some(d)
  {
  }

  /** Reading back one escaped character gives the character, whatever follows. */
  lemma UnescapeChar(c: char, rest: string)
    ensures Unescape(EscapeChar(c) + rest) ==
              match Unescape(rest)
              case Some(r) => Some([c] + r)
              case None => None
  {
    var e := EscapeChar(c) + rest;
    if Plain(c) {
      assert e[1..] == rest;
    } else if EscapeLetter(c).Some? {
      assert LetterValue(EscapeLetter(c).value) == Some(c);
      assert e[2..] == rest;
    } else {
      var b := c as int % 256;
      assert c as int < 32 || c as int == 127;
      HexRoundTrip(b / 16);
      HexRoundTrip(b % 16);
      assert e[4..] == rest;
    }
  }

  /** The body of %q reads back as the string it was written from. */
  lemma {:induction false} UnescapeEscape(s: string)
    ensures Unescape(Escape(s)) == Some(s)
  {
    if |s| > 0 {
      UnescapeEscape(s[1..]);
      UnescapeChar(s[0], Escape(s[1..]));
      assert [s[0]] + s[1..] == s;
    }
  }

  /** A string with nothing to escape is quoted as itself between double quotes. */
  lemma {:induction false} QuotePlain(s: string)
    requires forall i | 0 <= i < |s| :: Plain(s[i])
    ensures Quote(s) == "\"" + s + "\""
    ensures Escape(s) == s
  {
    if |s| > 0 {
      QuotePlain(s[1..]);
      assert [s[0]] + s[1..] == s;
    }
  }

  /** A provider adapter, known by its name; `instance` tells apart adapters that share a name. */
  datatype Adapter = Adapter(name: string, instance: nat)

  /** provider.Registry. */
  class Registry {
    var providers: map<string, Adapter>
    var models: map<string, Config.ModelConfig>

    /** NewRegistry: nothing registered. */
    constructor ()
      ensures providers == map[] && models == map[]
    {
      providers := map[];
      models := map[];
    }

    /** Register keys the adapter by its name, replacing any adapter of that name. */
    method Register(p: Adapter)
      modifies this
      ensures providers == old(providers)[p.name := p]
      ensures models == old(models)
    {
      providers := providers[p.name := p];
    }

    /** RegisterModel keys the configuration by the AI ID, replacing any earlier one. */
    method RegisterModel(aiId: string, cfg: Config.ModelConfig)
      modifies this
      ensures models == old(models)[aiId := cfg]
      ensures providers == old(providers)
    {
      models := models[aiId := cfg];
    }

    /**
     * RegisterModels registers every entry of the given table, in no
     * particular order; entries of the table win over earlier ones.
     */
    method RegisterModels(table: map<string, Config.ModelConfig>)
      modifies this
      ensures models == old(models) + table
      ensures providers == old(providers)
    {
      var rest := table.Keys;
      while rest != {}
        invariant rest <= table.Keys
        invariant models == old(models) + map k | k in table.Keys - rest :: table[k]
        invariant providers == old(providers)
        decreases rest
      {
        var aiId :| aiId in rest;
        RegisterModel(aiId, table[aiId]);
        rest := rest - {aiId};
      }
      assert table.Keys - rest == table.Keys;
      assert (map k | k in table.Keys :: table[k]) == table;
    }

    /** Get: the adapter registered under a name. */
    function Get(name: string): (r: Option<Adapter>)
      reads this
      ensures r.Some? <==> name in providers
      ensures r.Some? ==> r.value == providers[name]
    {
      if name in providers then Some(providers[name]) else None
    }

    /**
     * GetForModel: the adapter named by the model's provider field, with
     * the model's configuration; an unknown AI ID and an unregistered
     * provider are reported as such.
     */
    function GetForModel(aiId: string): (r: Result<(Adapter, Config.ModelConfig)>)
      reads this
      ensures r.Success? <==> aiId in models && models[aiId].provider in providers
      ensures r.Success? ==> r.value == (providers[models[aiId].provider], models[aiId])
      ensures aiId !in models ==> r == Failure("model " + Quote(aiId) + " not found in registry")
      ensures aiId in models && models[aiId].provider !in providers ==>
                r == Failure("provider " + Quote(models[aiId].provider) + " not registered for model " + Quote(aiId))
    {
      if aiId !in models then
        Failure("model " + Quote(aiId) + " not found in registry")
      else
        var cfg := models[aiId];
        match Get(cfg.provider)
        case None => Failure("provider " + Quote(cfg.provider) + " not registered for model " + Quote(aiId))
        case Some(p) => Success((p, cfg))
    }

    /**
     * The lookup Invoke and Stream share: the model's provider first, else
     * a provider registered under the AI ID itself (as CLI providers are).
     */
    function Route(aiId: string): (r: Result<Adapter>)
      reads this
      ensures r.Failure? <==> GetForModel(aiId).Failure? && aiId !in providers
      ensures GetForModel(aiId).Success? ==> r == Success(GetForModel(aiId).value.0)
      ensures GetForModel(aiId).Failure? && aiId in providers ==> r == Success(providers[aiId])
      ensures r.Failure? ==> r.error == "no provider found for " + Quote(aiId)
    {
      match GetForModel(aiId)
      case Success(found) => Success(found.0)
      case Failure(_) =>
        match Get(aiId)
        case None => Failure("no provider found for " + Quote(aiId))
        case Some(p) => Success(p)
    }

    /**
     * Invoke and Stream: route the AI ID and hand the request to the
     * adapter found, whose own call is `send`.
     */
    function Dispatch<R>(aiId: string, send: Adapter -> Result<R>): (r: Result<R>)
      reads this
      ensures Route(aiId).Failure? ==> r == Failure("no provider found for " + Quote(aiId))
      ensures Route(aiId).Success? ==> r == send(Route(aiId).value)
    {
      match Route(aiId)
      case Failure(e) => Failure(e)
      case Success(p) => send(p)
    }

    /** ListProviders: every registered provider name once, in no particular order. */
    method ListProviders() returns (names: seq<string>)
      ensures forall n :: n in names <==> n in providers
      ensures |names| == |providers|
      ensures forall i, j | 0 <= i < j < |names| :: names[i] != names[j]
    {
      names := KeysOf(providers.Keys);
    }

    /** ListModels: every registered AI ID once, in no particular order. */
    method ListModels() returns (ids: seq<string>)
      ensures forall id :: id in ids <==> id in models
      ensures |ids| == |models|
      ensures forall i, j | 0 <= i < j < |ids| :: ids[i] != ids[j]
    {
      ids := KeysOf(models.Keys);
    }
  }

  /** The members of a finite set, each once, in an order the set does not fix. */
  method KeysOf(keys: set<string>) returns (ks: seq<string>)
    ensures forall k :: k in ks <==> k in keys
    ensures |ks| == |keys|
    ensures forall i, j | 0 <= i < j < |ks| :: ks[i] != ks[j]
  {
    ks := [];
    var rest := keys;
    while rest != {}
      invariant rest <= keys
      invariant forall k :: k in ks <==> k in keys - rest
      invariant |ks| + |rest| == |keys|
      invariant forall i, j | 0 <= i < j < |ks| :: ks[i] != ks[j]
      decreases rest
    {
      var k :| k in rest;
      ks := ks + [k];
      rest := rest - {k};
    }
  }
}
