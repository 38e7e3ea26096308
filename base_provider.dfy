/**
 * The parts of the HTTP-based providers that do not touch the network:
 * construction defaults, the API key read from the environment, and the
 * loop that turns the lines of a streamed response into chunks. The
 * stream follows the event-stream format of the WHATWG HTML Living
 * Standard, section 9.2 (Server-sent events), only partly: a data line
 * must start with "data: " including the space, lines starting with ':'
 * are comments, other fields are ignored, and the payload "[DONE]" ends
 * the stream. The environment is a map, and decoding one payload is a
 * parameter.
 */
module BaseProviders {
  import opened Results
  import opened Text
  import opened Port

  /** One second, in nanoseconds (a time.Duration). */
  const Second: int := 1000000000
  const DefaultTimeout: int := 180 * Second
  const DefaultMaxTokens: int := 4096

  /** provider.BaseConfig; the timeout is in nanoseconds. */
  datatype BaseConfig = BaseConfig(name: string, apiKeyEnv: string, baseUrl: string, model: string,
                                   maxTokens: int, timeout: int)

  /** os.Getenv: the variable's value, or "" when it is unset. */
  function Getenv(env: map<string, string>, key: string): (v: string)
    ensures key in env ==> v == env[key]
    ensures key !in env ==> v == ""
  {
    if key in env then env[key] else ""
  }

  /** provider.BaseProvider (the HTTP client itself is not modelled). */
  class BaseProvider {
    const name: string
    var apiKey: string
    const apiKeyEnv: string
    const baseUrl: string
    var model: string
    const maxTokens: int
    const timeout: int

    /**
     * NewBaseProvider: a zero timeout becomes 180 s and zero max tokens
     * 4096; the key is read from the named variable when one is named.
     */
    constructor (cfg: BaseConfig, env: map<string, string>)
      ensures name == cfg.name && apiKeyEnv == cfg.apiKeyEnv && baseUrl == cfg.baseUrl && model == cfg.model
      ensures timeout == if cfg.timeout == 0 then 180 * Second else cfg.timeout
      ensures maxTokens == if cfg.maxTokens == 0 then 4096 else cfg.maxTokens
      ensures apiKey == if cfg.apiKeyEnv != "" then Getenv(env, cfg.apiKeyEnv) else ""
    {
      var t := cfg.timeout;
      if t == 0 {
        t := DefaultTimeout;
      }
      var m := cfg.maxTokens;
      if m == 0 {
        m := DefaultMaxTokens;
      }
      var key := "";
      if cfg.apiKeyEnv != "" {
        key := Getenv(env, cfg.apiKeyEnv);
      }
      name := cfg.name;
      apiKey := key;
      apiKeyEnv := cfg.apiKeyEnv;
      baseUrl := cfg.baseUrl;
      model := cfg.model;
      maxTokens := m;
      timeout := t;
    }

    /**
     * GetAPIKey: the cached key; an empty key is re-read from the
     * environment when a variable is named, and the result is cached.
     */
    method GetAPIKey(env: map<string, string>) returns (key: string)
      modifies this
      ensures old(apiKey) == "" && apiKeyEnv != "" ==> apiKey == Getenv(env, apiKeyEnv)
      ensures old(apiKey) != "" || apiKeyEnv == "" ==> apiKey == old(apiKey)
      ensures key == apiKey && model == old(model)
    {
      if apiKey == "" && apiKeyEnv != "" {
        apiKey := Getenv(env, apiKeyEnv);
      }
      key := apiKey;
    }

    /**
     * CheckAPIKeyRequired: an error exactly when a variable is named and
     * the key, after the re-read GetAPIKey does, is still empty.
     */
    method CheckAPIKeyRequired(env: map<string, string>) returns (err: Option<string>)
      modifies this
      ensures err.Some? <==> apiKeyEnv != "" && apiKey == ""
      ensures err.Some? ==> err.value == "API key not set: please set " + apiKeyEnv + " environment variable"
      ensures apiKeyEnv != "" && old(apiKey) == "" ==> apiKey == Getenv(env, apiKeyEnv)
      ensures apiKeyEnv == "" || old(apiKey) != "" ==> apiKey == old(apiKey)
      ensures model == old(model)
    {
      err := None;
      if apiKeyEnv != "" {
        var key := GetAPIKey(env);
        if key == "" {
          err := Some("API key not set: please set " + apiKeyEnv + " environment variable");
        }
      }
    }

    /** SetModel overrides the model; nothing else changes. */
    method SetModel(m: string)
      modifies this
      ensures model == m && apiKey == old(apiKey)
    {
      model := m;
    }
  }

  // ---------------------------------------------------------------------
  // Stream framing

  /** What decoding one payload gives: its content and done flag, or an error. */
  datatype Decoded = Decoded(content: string, done: bool) | DecodeError(err: string)

  function ContentChunk(content: string): StreamChunk { StreamChunk(content, false, None) }
  const DoneChunk: StreamChunk := StreamChunk("", true, None)
  function ErrorChunk(err: string): StreamChunk { StreamChunk("", false, Some(err)) }

  /** A chunk that ends the stream: a done marker or an error. */
  predicate Terminal(c: StreamChunk)
  {
    c.done || c.error.Some?
  }

  /** A line carries a payload when it is non-empty, not a comment, and starts with "data: ". */
  predicate IsDataLine(line: string)
  {
    |line| > 0 && line[0] != ':' && HasPrefix(line, "data: ")
  }

  /** A data line whose payload ends the stream: "[DONE]", a decode error, or the done flag. */
  predicate Ends(line: string, decode: string -> Decoded)
  {
    IsDataLine(line) &&
    var data := line[6..];
    data == "[DONE]" || decode(data).DecodeError? || decode(data).done
  }

  /**
   * The chunks the lines give, in order, when the scanner delivers all of
   * `lines` and then stops with `scanErr` (None at the end of input).
   */
  function Framed(lines: seq<string>, decode: string -> Decoded, scanErr: Option<string>): seq<StreamChunk>
    decreases |lines|
  {
    if |lines| == 0 then
      if scanErr.Some? then [ErrorChunk("reading stream: " + scanErr.value)] else []
    else if !IsDataLine(lines[0]) then
      Framed(lines[1..], decode, scanErr)
    else
      var data := lines[0][6..];
      if data == "[DONE]" then [DoneChunk]
      else
        match decode(data)
        case DecodeError(e) => [ErrorChunk(e)]
        case Decoded(content, done) =>
          (if content != "" then [ContentChunk(content)] else [])
          + (if done then [DoneChunk] else Framed(lines[1..], decode, scanErr))
  }

  /** ReadSSEStream: the chunks sent on the output channel before it is closed. */
  method ReadStream(lines: seq<string>, decode: string -> Decoded, scanErr: Option<string>)
    returns (out: seq<StreamChunk>)
    ensures out == Framed(lines, decode, scanErr)
  {
    out := [];
    var i := 0;
    while i < |lines|
      invariant 0 <= i <= |lines|
      invariant out + Framed(lines[i..], decode, scanErr) == Framed(lines, decode, scanErr)
    {
      var line := lines[i];
      assert lines[i..][0] == line && lines[i..][1..] == lines[i + 1..];
      if |line| == 0 || line[0] == ':' {
        i := i + 1;
        continue;
      }
      if !HasPrefix(line, "data: ") {
        i := i + 1;
        continue;
      }
      var data := line[6..];
      if data == "[DONE]" {
        out := out + [DoneChunk];
        return;
      }
      var decoded := decode(data);
      if decoded.DecodeError? {
        out := out + [ErrorChunk(decoded.err)];
        return;
      }
      if decoded.content != "" {
        out := out + [ContentChunk(decoded.content)];
      }
      if decoded.done {
        out := out + [DoneChunk];
        return;
      }
      i := i + 1;
    }
    assert lines[i..] == [];
    if scanErr.Some? {
      out := out + [ErrorChunk("reading stream: " + scanErr.value)];
    }
  }

  /** At most one chunk ends the stream, and when one does it is the last. */
  lemma {:induction false} TerminalOnlyLast(lines: seq<string>, decode: string -> Decoded, scanErr: Option<string>)
    ensures forall i | 0 <= i < |Framed(lines, decode, scanErr)| - 1 :: !Terminal(Framed(lines, decode, scanErr)[i])
    decreases |lines|
  {
    if |lines| > 0 {
      TerminalOnlyLast(lines[1..], decode, scanErr);
      var data := if IsDataLine(lines[0]) then lines[0][6..] else "";
      if IsDataLine(lines[0]) && data != "[DONE]" && decode(data).Decoded? {
        var rest := Framed(lines[1..], decode, scanErr);
        var head: seq<StreamChunk> := if decode(data).content != "" then [ContentChunk(decode(data).content)] else [];
        var tail := if decode(data).done then [DoneChunk] else rest;
        assert Framed(lines, decode, scanErr) == head + tail;
        forall i | 0 <= i < |head + tail| - 1
          ensures !Terminal((head + tail)[i])
        {
          if i < |head| {
            assert (head + tail)[i] == ContentChunk(decode(data).content);
          } else if !decode(data).done {
            assert (head + tail)[i] == rest[i - |head|];
          }
        }
      }
    }
  }

  /**
   * The stream ends with a terminal chunk exactly when some data line ends
   * it or the scanner reports an error: input that runs out without a
   * terminator and without an error ends with no terminal chunk at all.
   */
  lemma {:induction false} EndsTerminal(lines: seq<string>, decode: string -> Decoded, scanErr: Option<string>)
    ensures var out := Framed(lines, decode, scanErr);
            (|out| > 0 && Terminal(out[|out| - 1])) <==>
            (scanErr.Some? || exists i | 0 <= i < |lines| :: Ends(lines[i], decode))
    decreases |lines|
  {
    if |lines| > 0 {
      var rest := lines[1..];
      assert forall i | 0 <= i < |rest| :: rest[i] == lines[i + 1];
      if Ends(lines[0], decode) {
      } else {
        EndsTerminal(rest, decode, scanErr);
        if exists i | 0 <= i < |lines| :: Ends(lines[i], decode) {
          var i :| 0 <= i < |lines| && Ends(lines[i], decode);
          assert i > 0 && Ends(rest[i - 1], decode);
        }
        if IsDataLine(lines[0]) {
          var content := decode(lines[0][6..]).content;
          if content != "" {
            var out' := Framed(rest, decode, scanErr);
            assert Framed(lines, decode, scanErr) == [ContentChunk(content)] + out';
            if |out'| == 0 {
              assert !Terminal(ContentChunk(content));
            } else {
              assert ([ContentChunk(content)] + out')[|out'|] == out'[|out'| - 1];
            }
          }
        }
      }
    }
  }

  /** Content is forwarded only when non-empty, and only content chunks carry any. */
  lemma {:induction false} ForwardedContent(lines: seq<string>, decode: string -> Decoded, scanErr: Option<string>)
    ensures forall i | 0 <= i < |Framed(lines, decode, scanErr)| ::
              Framed(lines, decode, scanErr)[i].content != "" <==> !Terminal(Framed(lines, decode, scanErr)[i])
    decreases |lines|
  {
    if |lines| > 0 {
      ForwardedContent(lines[1..], decode, scanErr);
      var data := if IsDataLine(lines[0]) then lines[0][6..] else "";
      if IsDataLine(lines[0]) && data != "[DONE]" && decode(data).Decoded? {
        var rest := Framed(lines[1..], decode, scanErr);
        var head: seq<StreamChunk> := if decode(data).content != "" then [ContentChunk(decode(data).content)] else [];
        var tail := if decode(data).done then [DoneChunk] else rest;
        assert Framed(lines, decode, scanErr) == head + tail;
        forall i | 0 <= i < |head + tail|
          ensures ((head + tail)[i].content != "" <==> !Terminal((head + tail)[i]))
        {
          if i < |head| {
            assert (head + tail)[i] == ContentChunk(decode(data).content);
          } else if !decode(data).done {
            assert (head + tail)[i] == rest[i - |head|];
          } else {
            assert (head + tail)[i] == DoneChunk;
          }
        }
      }
    }
  }
}
