/**
 * A provider that runs a command-line tool: the argument list it builds
 * for a request, how the tool's output becomes a response or a stream of
 * chunks, and the model list it reports. Running the process is outside
 * the model: its outcome is a parameter.
 */
module CliProviders {
  import opened Results
  import opened Text
  import opened Port
  import Providers

  /** provider.CLIProvider (fixed once built, so a value). */
  datatype CliProvider = CliProvider(name: string, command: string, args: seq<string>,
                                     promptFlag: string, systemFlag: string, streamable: bool)

  /** Models: the provider's own name is its one model. */
  function Models(p: CliProvider): (ids: seq<string>)
    ensures ids == [p.name]
  {
    [p.name]
  }

  /**
   * The argument list Invoke and Stream both build: a copy of the base
   * arguments, then the system flag and system prompt when both are set,
   * then the prompt flag when set, and the prompt last.
   */
  method BuildArgs(p: CliProvider, req: Providers.Request) returns (args: seq<string>)
    ensures |args| >= |p.args| + 1 && args[..|p.args|] == p.args
    ensures args[|args| - 1] == req.prompt
    ensures var withSystem := p.systemFlag != "" && req.systemPrompt != "";
            |args| == |p.args| + (if withSystem then 2 else 0) + (if p.promptFlag != "" then 2 else 1)
    ensures p.systemFlag != "" && req.systemPrompt != "" ==>
              args[|p.args|] == p.systemFlag && args[|p.args| + 1] == req.systemPrompt
    ensures p.promptFlag != "" ==> args[|args| - 2] == p.promptFlag
  {
    args := p.args;
    if p.systemFlag != "" && req.systemPrompt != "" {
      args := args + [p.systemFlag, req.systemPrompt];
    }
    if p.promptFlag != "" {
      args := args + [p.promptFlag, req.prompt];
    } else {
      args := args + [req.prompt];
    }
  }

  /** How running the tool to completion ended. */
  datatype RunOutcome = Exited(stdout: string) | RunFailed(err: string, stderr: string)

  /**
   * Invoke: the trimmed standard output with no token count, or an error
   * naming the provider and carrying the tool's standard error.
   */
  function InvokeResult(p: CliProvider, run: RunOutcome): (r: Result<Providers.Response>)
    ensures run.Exited? ==> r.Success? && r.value.content == TrimSpace(run.stdout) && r.value.tokensUsed == 0
    ensures run.RunFailed? ==>
              r == Failure(p.name + " CLI error: " + run.err + " (stderr: " + run.stderr + ")")
  {
    match run
    case Exited(out) => Success(Providers.Response(TrimSpace(out), "", "", 0))
    case RunFailed(err, stderr) => Failure(p.name + " CLI error: " + err + " (stderr: " + stderr + ")")
  }

  /** How starting the tool with its output piped ended. */
  datatype StreamStart = PipeFailed(err: string) | StartFailed(err: string) | Started(lines: seq<string>, scanErr: Option<string>)

  /**
   * Stream: one content chunk per output line, with the newline restored,
   * then an error chunk if reading failed; or the error opening the stream.
   */
  method StreamOutput(p: CliProvider, start: StreamStart) returns (r: StreamReply)
    ensures start.PipeFailed? ==> r == StreamFailed("creating stdout pipe: " + start.err)
    ensures start.StartFailed? ==> r == StreamFailed("starting " + p.name + " CLI: " + start.err)
    ensures start.Started? ==>
              && r.StreamOpened?
              && |r.chunks| == |start.lines| + (if start.scanErr.Some? then 1 else 0)
              && (forall i | 0 <= i < |start.lines| :: r.chunks[i] == StreamChunk(start.lines[i] + "\n", false, None))
              && (start.scanErr.Some? ==> r.chunks[|start.lines|] == StreamChunk("", false, start.scanErr))
  {
    match start
    case PipeFailed(err) =>
      return StreamFailed("creating stdout pipe: " + err);
    case StartFailed(err) =>
      return StreamFailed("starting " + p.name + " CLI: " + err);
    case Started(lines, scanErr) =>
      var chunks: seq<StreamChunk> := [];
      var i := 0;
      while i < |lines|
        invariant 0 <= i <= |lines| && |chunks| == i
        invariant forall j | 0 <= j < i :: chunks[j] == StreamChunk(lines[j] + "\n", false, None)
      {
        chunks := chunks + [StreamChunk(lines[i] + "\n", false, None)];
        i := i + 1;
      }
      if scanErr.Some? {
        chunks := chunks + [StreamChunk("", false, scanErr)];
      }
      return StreamOpened(chunks);
  }

  /**
   * A tool that prints its reply line by line streams back exactly what it
   * printed: joining the chunks' contents gives the output with every line
   * ended by a newline.
   */
  lemma {:induction false} StreamedText(lines: seq<string>, chunks: seq<StreamChunk>)
    requires |chunks| == |lines|
    requires forall i | 0 <= i < |lines| :: chunks[i] == StreamChunk(lines[i] + "\n", false, None)
    ensures Concat(chunks) == Join(lines, "\n") + (if |lines| > 0 then "\n" else "")
  {
    if |lines| > 1 {
      StreamedText(lines[1..], chunks[1..]);
      assert Join(lines, "\n") == lines[0] + "\n" + Join(lines[1..], "\n");
    }
  }

  /** The text a stream delivers, in order. */
  function Concat(chunks: seq<StreamChunk>): string
  {
    if |chunks| == 0 then "" else chunks[0].content + Concat(chunks[1..])
  }
}
