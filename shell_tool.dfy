/** src/tools/shell-tool.ts: the `execute_command` tool, its bounded output buffers and its result. */
module ShellTool {
  import opened Wrappers
  import opened JsString
  import opened FileTools

  /** `MAX_OUTPUT_CHARS`. */
  const MaxOutputChars: nat := 24000

  /** `appendOutputChunk`: add a chunk to a buffer, keeping at most `MaxOutputChars` characters. */
  function AppendOutputChunk(current: string, chunk: string): (r: string)
    ensures |current| <= MaxOutputChars ==> |r| <= MaxOutputChars
    ensures |current| >= MaxOutputChars ==> r == current
    ensures current <= r <= current + chunk
    ensures |current + chunk| <= MaxOutputChars ==> r == current + chunk
  {
    if |current| >= MaxOutputChars then current
    else
      var next := current + chunk;
      if |next| > MaxOutputChars then Slice(next, 0, MaxOutputChars) else next
  }

  /** The first `MaxOutputChars` characters of a text. */
  function Capped(s: string): (r: string)
    ensures r <= s && |r| <= MaxOutputChars
    ensures |r| == MaxOutputChars || r == s
  {
    if |s| <= MaxOutputChars then s else s[..MaxOutputChars]
  }

  /** All chunks, in order, as one text. */
  function Concat(chunks: seq<string>): string {
    if chunks == [] then [] else Concat(chunks[..|chunks| - 1]) + chunks[|chunks| - 1]
  }

  lemma ConcatAppend(chunks: seq<string>, chunk: string)
    ensures Concat(chunks + [chunk]) == Concat(chunks) + chunk
  {
    assert (chunks + [chunk])[..|chunks|] == chunks;
  }

  /** Appending a chunk to the capped output of earlier chunks gives the capped output of all of them. */
  lemma AppendToCapped(s: string, chunk: string)
    ensures AppendOutputChunk(Capped(s), chunk) == Capped(s + chunk)
  {
    if |s| >= MaxOutputChars {
      assert (s + chunk)[..MaxOutputChars] == s[..MaxOutputChars];
    }
  }

  /** What the child process reports, in the order its callbacks fire. */
  datatype ProcessEvent =
    | StdoutData(chunk: string)
    | StderrData(chunk: string)
    | SpawnFailed(message: string)
    | Close(code: Option<int>)

  /** The events that settle the tool's promise. */
  predicate Settles(e: ProcessEvent) {
    e.SpawnFailed? || e.Close?
  }

  /** The position of the event that settles the promise; later `resolve` calls have no effect. */
  function FirstSettling(events: seq<ProcessEvent>): (k: Option<nat>)
    ensures k.Some? ==> k.value < |events| && Settles(events[k.value])
    ensures k.Some? ==> forall j :: 0 <= j < k.value ==> !Settles(events[j])
    ensures k.None? ==> forall j :: 0 <= j < |events| ==> !Settles(events[j])
  {
    if events == [] then None
    else if Settles(events[0]) then Some(0)
    else match FirstSettling(events[1..])
      case None => None
      case Some(k) => Some(k + 1)
  }

  /** The chunks one output stream delivered. */
  function StreamChunks(events: seq<ProcessEvent>, stdout: bool): seq<string> {
    if events == [] then []
    else
      var last := events[|events| - 1];
      StreamChunks(events[..|events| - 1], stdout) +
        (if stdout && last.StdoutData? then [last.chunk]
         else if !stdout && last.StderrData? then [last.chunk]
         else [])
  }

  datatype ShellResult =
    | CwdError(error: string)
    | SpawnError(cwd: string, error: string)
    | Finished(cwd: string, exitCode: int, stdout: string, stderr: string, truncated: bool)
    | Pending

  /** `cwd ? path.resolve(cwd) : process.cwd()`: an absent or empty `cwd` means the process's own. */
  function ResolveCwd(cwd: Option<string>, resolve: string -> Path, processCwd: Path): Path {
    if cwd.Some? && cwd.value != "" then resolve(cwd.value) else processCwd
  }

  /** The result the tool gives once the process has run in directory `cwd`. */
  function Outcome(cwd: string, events: seq<ProcessEvent>): ShellResult {
    match FirstSettling(events)
    case None => Pending
    case Some(k) =>
      var out := Concat(StreamChunks(events[..k], true));
      var err := Concat(StreamChunks(events[..k], false));
      match events[k]
      case SpawnFailed(message) => SpawnError(cwd, message)
      case Close(code) =>
        Finished(cwd, code.GetOr(0), TrimEnd(Capped(out)), TrimEnd(Capped(err)),
                 |out| >= MaxOutputChars || |err| >= MaxOutputChars)
      case _ => Pending
  }

  /** The `execute` body of the tool: the cwd guards, then the process's callbacks in order. */
  method Execute(command: string, cwd: Option<string>, resolve: string -> Path, processCwd: Path,
                 nodes: map<Path, Node>, events: seq<ProcessEvent>) returns (r: ShellResult)
    ensures ResolveCwd(cwd, resolve, processCwd) !in nodes ==>
      r == CwdError("Working directory not found: " + Render(ResolveCwd(cwd, resolve, processCwd)))
    ensures ResolveCwd(cwd, resolve, processCwd) in nodes && nodes[ResolveCwd(cwd, resolve, processCwd)].File? ==>
      r == CwdError("Working directory is not a directory: " + Render(ResolveCwd(cwd, resolve, processCwd)))
    ensures ResolveCwd(cwd, resolve, processCwd) in nodes && nodes[ResolveCwd(cwd, resolve, processCwd)].Dir? ==>
      r == Outcome(Render(ResolveCwd(cwd, resolve, processCwd)), events)
  {
    var resolvedCwd := ResolveCwd(cwd, resolve, processCwd);
    if resolvedCwd !in nodes {
      return CwdError("Working directory not found: " + Render(resolvedCwd));
    }
    if nodes[resolvedCwd].File? {
      return CwdError("Working directory is not a directory: " + Render(resolvedCwd));
    }
    r := RunProcess(Render(resolvedCwd), events);
  }

  /** The spawned process's callbacks, in order: output chunks go to their capped buffers, and the
      first error or close settles the result; what comes after it has no effect on the result. */
  method RunProcess(where: string, events: seq<ProcessEvent>) returns (r: ShellResult)
    ensures r == Outcome(where, events)
  {
    var settling := FirstSettling(events);
    if settling.None? {
      return Pending;
    }
    var k := settling.value;
    var stdout := "";
    var stderr := "";
    for i := 0 to k
      invariant stdout == Fold(StreamChunks(events[..i], true))
      invariant stderr == Fold(StreamChunks(events[..i], false))
    {
      BufferStep(events, i, true);
      BufferStep(events, i, false);
      if events[i].StdoutData? {
        stdout := AppendOutputChunk(stdout, events[i].chunk);
      } else if events[i].StderrData? {
        stderr := AppendOutputChunk(stderr, events[i].chunk);
      }
    }
    BufferIsCappedStream(StreamChunks(events[..k], true));
    BufferIsCappedStream(StreamChunks(events[..k], false));
    if events[k].SpawnFailed? {
      r := SpawnError(where, events[k].message);
    } else {
      r := Finished(where, events[k].code.GetOr(0), TrimEnd(stdout), TrimEnd(stderr),
                    |stdout| >= MaxOutputChars || |stderr| >= MaxOutputChars);
    }
  }

  /** One more event: a chunk of the stream goes through `appendOutputChunk`; anything else
      leaves the stream's buffer as it was. */
  lemma BufferStep(events: seq<ProcessEvent>, i: nat, stdout: bool)
    requires i < |events|
    ensures var before := Fold(StreamChunks(events[..i], stdout));
      Fold(StreamChunks(events[..i + 1], stdout)) ==
        if (stdout && events[i].StdoutData?) || (!stdout && events[i].StderrData?)
        then AppendOutputChunk(before, events[i].chunk) else before
  {
    StreamChunksStep(events, i);
    if (stdout && events[i].StdoutData?) || (!stdout && events[i].StderrData?) {
      var chunks := StreamChunks(events[..i], stdout);
      assert (chunks + [events[i].chunk])[..|chunks|] == chunks;
    }
  }

  /** Extending the seen events by one adds that event's chunk to its stream only. */
  lemma StreamChunksStep(events: seq<ProcessEvent>, i: nat)
    requires i < |events|
    ensures StreamChunks(events[..i + 1], true) ==
      StreamChunks(events[..i], true) + (if events[i].StdoutData? then [events[i].chunk] else [])
    ensures StreamChunks(events[..i + 1], false) ==
      StreamChunks(events[..i], false) + (if events[i].StderrData? then [events[i].chunk] else [])
    ensures !events[i].StdoutData? ==> StreamChunks(events[..i + 1], true) == StreamChunks(events[..i], true)
    ensures !events[i].StderrData? ==> StreamChunks(events[..i + 1], false) == StreamChunks(events[..i], false)
  {
    assert events[..i + 1][..i] == events[..i];
  }

  /** The first settling event is the settling event with no settling event before it. */
  lemma {:induction false} FirstSettlingAt(events: seq<ProcessEvent>, i: nat)
    requires i < |events| && Settles(events[i])
    requires forall j :: 0 <= j < i ==> !Settles(events[j])
    ensures FirstSettling(events) == Some(i)
    decreases i
  {
    if i > 0 {
      FirstSettlingAt(events[1..], i - 1);
    }
  }

  /** A buffer built from an empty start is the capped concatenation of the chunks: earlier output is
      never lost, and the buffer reaches the cap exactly when the stream's total output does. */
  lemma {:induction false} BufferIsCappedStream(chunks: seq<string>)
    ensures Fold(chunks) == Capped(Concat(chunks))
    ensures |Fold(chunks)| >= MaxOutputChars <==> |Concat(chunks)| >= MaxOutputChars
    decreases |chunks|
  {
    if chunks != [] {
      BufferIsCappedStream(chunks[..|chunks| - 1]);
      AppendToCapped(Concat(chunks[..|chunks| - 1]), chunks[|chunks| - 1]);
    }
  }

  /** The buffer after the chunks arrive one by one, starting from "". */
  function Fold(chunks: seq<string>): string {
    if chunks == [] then "" else AppendOutputChunk(Fold(chunks[..|chunks| - 1]), chunks[|chunks| - 1])
  }

  /** `truncated` is reported exactly when one of the streams produced at least `MaxOutputChars`
      characters, and a missing close code is reported as 0. */
  lemma FinishedFacts(cwd: string, events: seq<ProcessEvent>, k: nat)
    requires FirstSettling(events) == Some(k) && events[k].Close?
    ensures Outcome(cwd, events).Finished?
    ensures Outcome(cwd, events).truncated <==>
      |Concat(StreamChunks(events[..k], true))| >= MaxOutputChars ||
      |Concat(StreamChunks(events[..k], false))| >= MaxOutputChars
    ensures events[k].code.None? ==> Outcome(cwd, events).exitCode == 0
    ensures events[k].code.Some? ==> Outcome(cwd, events).exitCode == events[k].code.value
    ensures |Outcome(cwd, events).stdout| <= MaxOutputChars && |Outcome(cwd, events).stderr| <= MaxOutputChars
  {
  }
}
