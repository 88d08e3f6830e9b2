/**
 * The code executor of `internal/executor/docker.go`: the language registry, the syntax check run in a
 * throw-away container, and `Execute`, which stages the code in a resource-bounded container, runs it
 * against a deadline and classifies how it ended.
 *
 * `SyntaxCheckPhase` and `RunPhase` say, as functions of the daemon's replies, what each phase returns
 * and which calls it makes; `ExecuteSpec` strings them together over a daemon script. The methods of
 * `DockerExecutor` do the same work step by step against a `Docker.Client` and are proved to agree with
 * these functions; the lemmas state what the functions guarantee.
 */
module Executor {
  import opened Base
  import opened Text
  import opened Docker

  // ---------------------------------------------------------------- constants

  /** The memory ceiling of the run container, 64 MiB; memory+swap is set to the same value, so no swap. */
  const MemoryLimit: int := 64 * 1024 * 1024
  /** The CPU quota of the run container: 50000 microseconds per default 100ms period, half of one core. */
  const CpuQuota: int := 50000
  /** The image the syntax check runs in. */
  const CheckImage := "python:3.11-alpine"

  const SyntaxCheckFailed := "syntax check failed"
  const SyntaxCheckFailedPrefix := "syntax check failed: "
  const UnsupportedPrefix := "unsupported language: "
  const CreateFailedPrefix := "failed to create container: "
  const StartFailedPrefix := "failed to start container: "
  const WaitFailedPrefix := "failed to wait for container: "
  const TimedOutPrefix := "container execution timed out after "
  const InspectFailedPrefix := "failed to inspect container: "
  const MemoryExceeded := "container exceeded memory limit"
  const NonZeroPrefix := "container exited with non-zero status code: "
  const LogsFailedPrefix := "failed to retrieve container logs: "
  const ReadFailedPrefix := "failed to read container logs: "
  const ExecutionErrorPrefix := "execution error: "

  // ---------------------------------------------------------------- language registry

  /** `getImageForLanguage`. */
  function ImageFor(language: string): string {
    if language == "python" then "python-exec" else ""
  }

  /** `getFileExtensionForLanguage`. */
  function FileExtensionFor(language: string): string {
    if language == "python" then "py" else ""
  }

  /** `getRunCommandForLanguage`; `Execute` never consults it. */
  function RunCommandFor(language: string, fileName: string): string {
    if language == "python" then "python " + fileName else ""
  }

  /** Only Python has a profile; every other language gets the empty string from all three lookups. */
  lemma RegistryBindings(language: string, fileName: string)
    ensures language == "python" ==>
      ImageFor(language) == "python-exec" && FileExtensionFor(language) == "py" &&
      RunCommandFor(language, fileName) == "python " + fileName
    ensures language != "python" ==>
      ImageFor(language) == "" && FileExtensionFor(language) == "" && RunCommandFor(language, fileName) == ""
  {
  }

  // ---------------------------------------------------------------- containers

  /** The program the syntax-check container runs: Python parses `code` without running it. */
  function SyntaxCheckScript(code: string): string {
    "import ast; ast.parse('''" + code + "''')"
  }

  /** The syntax-check container: the lightweight Python image, no host configuration and so no limits. */
  function CheckRequest(code: string): CreateRequest {
    CreateRequest(ContainerConfig(CheckImage, ["python", "-c", SyntaxCheckScript(code)]), None)
  }

  /** The name of the staged source file, `code.<extension>`. */
  function CodeFile(language: string): string {
    "code." + FileExtensionFor(language)
  }

  /** The run container: the language's image, the staged file as command, the file bound under `/app`, and the ceilings. */
  function RunRequest(language: string, hostPath: string): CreateRequest {
    CreateRequest(
      ContainerConfig(ImageFor(language), [CodeFile(language)]),
      Some(HostConfig(Resources(MemoryLimit, MemoryLimit, CpuQuota), [hostPath + ":/app/" + CodeFile(language)])))
  }

  /** The run container of a Python program gets 64 MiB of memory and no swap, half a core, and its code at `/app/code.py`. */
  lemma RunContainerOfPython(hostPath: string)
    ensures RunRequest("python", hostPath) ==
      CreateRequest(
        ContainerConfig("python-exec", ["code.py"]),
        Some(HostConfig(Resources(67108864, 67108864, 50000), [hostPath + ":/app/code.py"])))
  {
    assert CodeFile("python") == "code.py";
    assert MemoryLimit == 67108864;
    assert hostPath + ":/app/" + CodeFile("python") == hostPath + ":/app/code.py";
  }

  // ---------------------------------------------------------------- staging the code (createCodeFile)

  /** Where `createCodeFile` writes the code on the `n`-th call: `code.<ext>` inside a fresh directory `code<n>` of `tempDir`. */
  function CodeFilePath(tempDir: string, n: nat, language: string): string {
    tempDir + "/code" + Decimal(n) + "/" + CodeFile(language)
  }

  /** Two stagings never share a file, whatever their languages: each execution's code lives in a directory of its own. */
  lemma StagedPathsDistinct(tempDir: string, a: nat, b: nat, la: string, lb: string)
    requires a != b
    ensures CodeFilePath(tempDir, a, la) != CodeFilePath(tempDir, b, lb)
  {
    var p := tempDir + "/code";
    var da, db := Decimal(a), Decimal(b);
    var x := CodeFilePath(tempDir, a, la);
    var y := CodeFilePath(tempDir, b, lb);
    assert x == p + da + "/" + CodeFile(la);
    assert y == p + db + "/" + CodeFile(lb);
    if |da| == |db| {
      if da == db {
        DecimalInjective(a, b);
      }
      var k :| 0 <= k < |da| && da[k] != db[k];
      assert x[|p| + k] == da[k] && y[|p| + k] == db[k];
    } else if |da| < |db| {
      assert x[|p| + |da|] == '/' && y[|p| + |da|] == db[|da|];
    } else {
      assert y[|p| + |db|] == '/' && x[|p| + |db|] == da[|db|];
    }
  }

  /** The host's temporary directory, where `createCodeFile` stages source files; `files` maps each written path to its contents. */
  class TempFiles {
    const tempDir: string
    var made: nat
    ghost var files: map<string, string>

    constructor (tempDir: string)
      ensures this.tempDir == tempDir && made == 0 && files == map[] && Valid()
    {
      this.tempDir := tempDir;
      made := 0;
      files := map[];
    }

    /** Every file in the directory was staged by one of the `made` earlier calls. */
    ghost predicate Valid()
      reads this
    {
      forall p :: p in files ==> exists k: nat, l: string :: k < made && p == CodeFilePath(tempDir, k, l)
    }

    /** `createCodeFile`: a fresh directory, and in it `code.<ext>` holding `code`; no earlier file is overwritten. */
    method CreateCodeFile(code: string, language: string) returns (path: string)
      requires Valid()
      modifies this
      ensures Valid()
      ensures path == CodeFilePath(tempDir, old(made), language) && path !in old(files)
      ensures made == old(made) + 1 && files == old(files)[path := code]
    {
      path := CodeFilePath(tempDir, made, language);
      forall p | p in files
        ensures p != path
      {
        var k: nat, l: string :| k < made && p == CodeFilePath(tempDir, k, l);
        StagedPathsDistinct(tempDir, made, k, language, l);
      }
      ghost var before := files;
      made := made + 1;
      files := files[path := code];
      forall p | p in files
        ensures exists k: nat, l: string :: k < made && p == CodeFilePath(tempDir, k, l)
      {
        if p == path {
          assert p == CodeFilePath(tempDir, made - 1, language);
        } else {
          assert p in before;
        }
      }
    }
  }

  // ---------------------------------------------------------------- the syntax-check phase

  /** What `syntaxCheck` returns (`None` for a nil error) and the calls it makes. */
  datatype CheckResult = CheckResult(err: Option<string>, calls: seq<Call>)

  /** `syntaxCheck` when the daemon answers the create, the start and the wait with the given replies. */
  function SyntaxCheckPhase(code: string, language: string, create: CreateReply, start: Option<string>, wait: WaitReply): CheckResult {
    if language == "python" then
      var begun := Create(CheckRequest(code), create);
      match create
      case CreateFailed(e) => CheckResult(Some(e), [begun])
      case Created(id) =>
        if start.Some? then CheckResult(start, [begun, Start(id, start), Remove(id)])
        else
          var verdict :=
            match wait.event
            case WaitFailed(e) => Some(e)
            case WaitNilError => None
            case Exited(status) => if status != 0 then Some(SyntaxCheckFailed) else None;
          CheckResult(verdict, [begun, Start(id, start), Wait(id, wait), Remove(id)])
    else
      CheckResult(Some(UnsupportedPrefix + language), [])
  }

  /** Every language but Python is refused with `unsupported language: <lang>` before any container exists. */
  lemma SyntaxCheckRejectsOtherLanguages(code: string, language: string, create: CreateReply, start: Option<string>, wait: WaitReply)
    requires language != "python"
    ensures SyntaxCheckPhase(code, language, create, start, wait) == CheckResult(Some(UnsupportedPrefix + language), [])
  {
  }

  /**
   * The check passes exactly when the language is Python, the container was created and started, and
   * the wait delivered either a nil error or status 0; it is one scoped container lifetime (or none).
   */
  lemma SyntaxCheckOutcome(code: string, language: string, create: CreateReply, start: Option<string>, wait: WaitReply)
    ensures var r := SyntaxCheckPhase(code, language, create, start, wait);
      r.err.None? <==>
        language == "python" && create.Created? && start.None? &&
        (wait.event.WaitNilError? || wait.event == Exited(0))
    ensures var r := SyntaxCheckPhase(code, language, create, start, wait);
      (r.calls == [] <==> language != "python") &&
      (r.calls != [] ==> Scoped(r.calls) && r.calls[0] == Create(CheckRequest(code), create))
  {
  }

  // ---------------------------------------------------------------- the run phase

  /** What the run phase of `Execute` returns and the calls it makes. */
  datatype RunResult = RunResult(output: string, err: Option<string>, calls: seq<Call>)

  function Failed(message: string, calls: seq<Call>): RunResult {
    RunResult("", Some(message), calls)
  }

  /**
   * The run phase of `Execute` when the daemon answers with the given replies, `hostPath` being the
   * staged file. A wait delivered after the deadline loses the race to it; a nil wait error leaves
   * the exit code at 0.
   */
  function RunPhase(language: string, timeout: int, hostPath: string, create: CreateReply, start: Option<string>,
                    wait: WaitReply, inspect: InspectReply, logs: LogsReply): RunResult
  {
    var begun := Create(RunRequest(language, hostPath), create);
    match create
    case CreateFailed(e) => Failed(CreateFailedPrefix + e, [begun])
    case Created(id) =>
      if start.Some? then Failed(StartFailedPrefix + start.value, [begun, Start(id, start), Remove(id)])
      else
        var rest := Await(id, timeout, wait, inspect, logs);
        RunResult(rest.output, rest.err, [begun, Start(id, start)] + rest.calls)
  }

  /** The run phase from the wait on the started container `id` on, with the calls it makes up to and including the removal. */
  function Await(id: string, timeout: int, wait: WaitReply, inspect: InspectReply, logs: LogsReply): RunResult {
    if wait.afterDeadline then Failed(TimedOutPrefix + DurationString(timeout), [Wait(id, wait), Remove(id)])
    else if wait.event.WaitFailed? then Failed(WaitFailedPrefix + wait.event.waitError, [Wait(id, wait), Remove(id)])
    else
      var exitCode := if wait.event.Exited? then wait.event.statusCode else 0;
      var rest := Conclude(id, exitCode, inspect, logs);
      RunResult(rest.output, rest.err, [Wait(id, wait)] + rest.calls)
  }

  /**
   * The end of the run phase, once container `id` has stopped in time with `exitCode`: the inspection,
   * the logs and the classification, with the calls they make up to and including the removal.
   */
  function Conclude(id: string, exitCode: int, inspect: InspectReply, logs: LogsReply): RunResult {
    var inspected := [Inspect(id, inspect), Remove(id)];
    match inspect
    case InspectFailed(e) => Failed(InspectFailedPrefix + e, inspected)
    case Inspected(oom) =>
      if oom then Failed(MemoryExceeded, inspected)
      else if exitCode != 0 then Failed(NonZeroPrefix + FormatInt(exitCode), inspected)
      else
        var rest := Collect(id, logs);
        RunResult(rest.output, rest.err, [Inspect(id, inspect)] + rest.calls)
  }

  /** The end of a clean run of container `id`: reading its logs and classifying them, with the calls that makes. */
  function Collect(id: string, logs: LogsReply): RunResult {
    match logs
    case LogsFailed(e) => Failed(LogsFailedPrefix + e, [Logs(id, logs), Remove(id)])
    case LogsOpened(stream) =>
      var closed := [Logs(id, logs), CloseLogs(id), Remove(id)];
      match stream
      case Unreadable(e) => Failed(ReadFailedPrefix + e, closed)
      case Demultiplexed(out, errOut) =>
        if |errOut| > 0 then Failed(ExecutionErrorPrefix + errOut, closed)
        else RunResult(TrimSpace(out), None, closed)
  }

  /** The run phase is one scoped container lifetime, begun with the run request for the staged file. */
  lemma RunPhaseIsScoped(language: string, timeout: int, hostPath: string, create: CreateReply, start: Option<string>,
                         wait: WaitReply, inspect: InspectReply, logs: LogsReply)
    ensures var r := RunPhase(language, timeout, hostPath, create, start, wait, inspect, logs);
      Scoped(r.calls) && r.calls[0] == Create(RunRequest(language, hostPath), create)
  {
    var request := RunRequest(language, hostPath);
    if create.Created? {
      var id := create.id;
      var started := if start.Some? then [Remove(id)] else Await(id, timeout, wait, inspect, logs).calls;
      if start.None? {
        AwaitEndsWithRemoval(id, timeout, wait, inspect, logs);
      }
      OnThenEndsWithRemoval(Start(id, start), started, id);
      assert [Start(id, start)] + started == [Start(id, start)] + started;
      CreatedThenEndsWithRemoval(request, id, [Start(id, start)] + started);
      assert RunPhase(language, timeout, hostPath, create, start, wait, inspect, logs).calls ==
        [Create(request, create)] + ([Start(id, start)] + started);
    }
  }

  lemma AwaitEndsWithRemoval(id: string, timeout: int, wait: WaitReply, inspect: InspectReply, logs: LogsReply)
    ensures EndsWithRemoval(Await(id, timeout, wait, inspect, logs).calls, id)
  {
    if !wait.afterDeadline && !wait.event.WaitFailed? {
      var exitCode := if wait.event.Exited? then wait.event.statusCode else 0;
      ConcludeEndsWithRemoval(id, exitCode, inspect, logs);
      OnThenEndsWithRemoval(Wait(id, wait), Conclude(id, exitCode, inspect, logs).calls, id);
    }
  }

  lemma ConcludeEndsWithRemoval(id: string, exitCode: int, inspect: InspectReply, logs: LogsReply)
    ensures EndsWithRemoval(Conclude(id, exitCode, inspect, logs).calls, id)
  {
    if inspect == Inspected(false) && exitCode == 0 {
      var rest := Collect(id, logs).calls;
      assert EndsWithRemoval(rest, id);
      OnThenEndsWithRemoval(Inspect(id, inspect), rest, id);
    }
  }

  /** A failed create returns its error and removes nothing: the create is the only call. */
  lemma FailedCreateRemovesNothing(language: string, timeout: int, hostPath: string, e: string, start: Option<string>,
                                   wait: WaitReply, inspect: InspectReply, logs: LogsReply)
    ensures RunPhase(language, timeout, hostPath, CreateFailed(e), start, wait, inspect, logs) ==
      Failed(CreateFailedPrefix + e, [Create(RunRequest(language, hostPath), CreateFailed(e))])
  {
  }

  /** When the deadline fires first the run times out, whatever inspect and logs would have said: neither is asked. */
  lemma DeadlineWins(language: string, timeout: int, hostPath: string, id: string, event: WaitEvent,
                     inspect: InspectReply, logs: LogsReply)
    ensures var w := WaitReply(event, true);
      RunPhase(language, timeout, hostPath, Created(id), None, w, inspect, logs) ==
      Failed(TimedOutPrefix + DurationString(timeout),
             [Create(RunRequest(language, hostPath), Created(id)), Start(id, None), Wait(id, w), Remove(id)])
  {
  }

  /** An OOM kill is reported as such whatever the exit code, and the logs are not read. */
  lemma OutOfMemoryTakesPrecedence(language: string, timeout: int, hostPath: string, id: string, event: WaitEvent, logs: LogsReply)
    requires !event.WaitFailed?
    ensures var w := WaitReply(event, false);
      RunPhase(language, timeout, hostPath, Created(id), None, w, Inspected(true), logs) ==
      Failed(MemoryExceeded,
             [Create(RunRequest(language, hostPath), Created(id)), Start(id, None), Wait(id, w), Inspect(id, Inspected(true)), Remove(id)])
  {
  }

  /** Without an OOM kill, a non-zero status is reported with its code, and the logs are not read. */
  lemma NonZeroExitReported(language: string, timeout: int, hostPath: string, id: string, status: int, logs: LogsReply)
    requires status != 0
    ensures var w := WaitReply(Exited(status), false);
      RunPhase(language, timeout, hostPath, Created(id), None, w, Inspected(false), logs) ==
      Failed(NonZeroPrefix + FormatInt(status),
             [Create(RunRequest(language, hostPath), Created(id)), Start(id, None), Wait(id, w), Inspect(id, Inspected(false)), Remove(id)])
  {
  }

  /** The status code can be read back from the non-zero-exit message. */
  lemma {:induction false} NonZeroMessageDeterminesStatus(a: int, b: int)
    requires NonZeroPrefix + FormatInt(a) == NonZeroPrefix + FormatInt(b)
    ensures a == b
  {
    assert FormatInt(a) == (NonZeroPrefix + FormatInt(a))[|NonZeroPrefix|..];
    assert FormatInt(b) == (NonZeroPrefix + FormatInt(b))[|NonZeroPrefix|..];
    FormatIntInjective(a, b);
  }

  /** A nil error from the wait is classified exactly like exit status 0. */
  lemma NilWaitErrorIsStatusZero(language: string, timeout: int, hostPath: string, create: CreateReply, start: Option<string>,
                                 late: bool, inspect: InspectReply, logs: LogsReply)
    ensures var nil := RunPhase(language, timeout, hostPath, create, start, WaitReply(WaitNilError, late), inspect, logs);
            var zero := RunPhase(language, timeout, hostPath, create, start, WaitReply(Exited(0), late), inspect, logs);
      nil.output == zero.output && nil.err == zero.err
  {
  }

  /** After a clean exit, anything on stderr makes the run fail with that text. */
  lemma StderrIsFailure(language: string, timeout: int, hostPath: string, id: string, out: string, errOut: string)
    requires errOut != ""
    ensures RunPhase(language, timeout, hostPath, Created(id), None, WaitReply(Exited(0), false), Inspected(false),
                     LogsOpened(Demultiplexed(out, errOut))).err == Some(ExecutionErrorPrefix + errOut)
  {
  }

  /**
   * The run succeeds exactly when every step went well: created, started, stopped before the deadline
   * with status 0 (or a nil wait error), not OOM-killed, logs read, nothing on stderr. Its output is
   * then stdout with the surrounding white space trimmed.
   */
  lemma RunSucceedsExactly(language: string, timeout: int, hostPath: string, create: CreateReply, start: Option<string>,
                           wait: WaitReply, inspect: InspectReply, logs: LogsReply)
    ensures var r := RunPhase(language, timeout, hostPath, create, start, wait, inspect, logs);
      r.err.None? <==>
        create.Created? && start.None? && !wait.afterDeadline &&
        (wait.event.WaitNilError? || wait.event == Exited(0)) &&
        inspect == Inspected(false) && logs.LogsOpened? && logs.stream.Demultiplexed? && logs.stream.stderr == ""
    ensures var r := RunPhase(language, timeout, hostPath, create, start, wait, inspect, logs);
      r.err.None? ==> r.output == TrimSpace(logs.stream.stdout)
  {
    if create.Created? && start.None? && !wait.afterDeadline && !wait.event.WaitFailed? {
      var exitCode := if wait.event.Exited? then wait.event.statusCode else 0;
      ConcludeSucceedsExactly(create.id, exitCode, inspect, logs);
    }
  }

  lemma ConcludeSucceedsExactly(id: string, exitCode: int, inspect: InspectReply, logs: LogsReply)
    ensures var r := Conclude(id, exitCode, inspect, logs);
      r.err.None? <==>
        exitCode == 0 && inspect == Inspected(false) && logs.LogsOpened? && logs.stream.Demultiplexed? && logs.stream.stderr == ""
    ensures var r := Conclude(id, exitCode, inspect, logs);
      r.err.None? ==> r.output == TrimSpace(logs.stream.stdout)
  {
  }

  // ---------------------------------------------------------------- Execute

  /**
   * What `Execute` returns, the calls of its syntax-check phase and of its run phase, and whether it
   * staged the code on the host (which happens once the syntax check has passed).
   */
  datatype Outcome = Outcome(output: string, err: Option<string>, check: seq<Call>, run: seq<Call>, staged: bool)

  /** `Execute` against a daemon answering from `s`, with the code staged at `hostPath`. */
  function ExecuteSpec(code: string, language: string, timeout: int, hostPath: string, s: Script): Outcome {
    var chk := SyntaxCheckPhase(code, language, s.NextCreate(), s.NextStart(), s.NextWait());
    if chk.err.Some? then
      Outcome("", Some(SyntaxCheckFailedPrefix + chk.err.value), chk.calls, [], false)
    else
      var t := Consumed(s, chk.calls);
      var run := RunPhase(language, timeout, hostPath, t.NextCreate(), t.NextStart(), t.NextWait(), t.NextInspect(), t.NextLogs());
      Outcome(run.output, run.err, chk.calls, run.calls, true)
  }

  /** A failed syntax check ends `Execute` with its error behind `syntax check failed: `; no run container is created, nothing is staged. */
  lemma SyntaxFailureStopsExecution(code: string, language: string, timeout: int, hostPath: string, s: Script)
    ensures var chk := SyntaxCheckPhase(code, language, s.NextCreate(), s.NextStart(), s.NextWait());
            var o := ExecuteSpec(code, language, timeout, hostPath, s);
      chk.err.Some? ==>
        o == Outcome("", Some(SyntaxCheckFailedPrefix + chk.err.value), chk.calls, [], false) &&
        forall k :: 0 <= k < |o.check| && o.check[k].Create? ==> o.check[k].request == CheckRequest(code)
  {
  }

  /**
   * Python code that does not parse (the check container exits non-zero) fails with the check's own
   * message wrapped once more: `syntax check failed: syntax check failed`.
   */
  lemma {:induction false} SyntaxErrorMessage(code: string, timeout: int, hostPath: string, s: Script, id: string, status: int)
    requires s.NextCreate() == Created(id) && s.NextStart() == None && s.NextWait().event == Exited(status) && status != 0
    ensures ExecuteSpec(code, "python", timeout, hostPath, s).err == Some("syntax check failed: syntax check failed")
    ensures ExecuteSpec(code, "python", timeout, hostPath, s).run == []
  {
    var chk := SyntaxCheckPhase(code, "python", s.NextCreate(), s.NextStart(), s.NextWait());
    assert chk.err == Some(SyntaxCheckFailed);
    SyntaxFailureStopsExecution(code, "python", timeout, hostPath, s);
    assert SyntaxCheckFailedPrefix + SyntaxCheckFailed == "syntax check failed: syntax check failed";
  }

  /** Any language but Python, JavaScript included, fails without a single call to the daemon. */
  lemma OnlyPythonRuns(code: string, language: string, timeout: int, hostPath: string, s: Script)
    requires language != "python"
    ensures ExecuteSpec(code, language, timeout, hostPath, s) ==
      Outcome("", Some("syntax check failed: unsupported language: " + language), [], [], false)
  {
    var chk := SyntaxCheckPhase(code, language, s.NextCreate(), s.NextStart(), s.NextWait());
    SyntaxCheckRejectsOtherLanguages(code, language, s.NextCreate(), s.NextStart(), s.NextWait());
    assert chk.err.value == UnsupportedPrefix + language && chk.calls == [];
    SyntaxFailureStopsExecution(code, language, timeout, hostPath, s);
    assert SyntaxCheckFailedPrefix + UnsupportedPrefix == "syntax check failed: unsupported language: ";
    assert SyntaxCheckFailedPrefix + (UnsupportedPrefix + language) == SyntaxCheckFailedPrefix + UnsupportedPrefix + language;
  }

  /**
   * Every container `Execute` creates has its removal requested before it returns, on every path: each
   * phase is one scoped lifetime, the run phase exists only after a passed check and for the staged file only.
   */
  lemma ExecuteReleasesContainers(code: string, language: string, timeout: int, hostPath: string, s: Script)
    ensures var o := ExecuteSpec(code, language, timeout, hostPath, s);
      (o.check == [] || Scoped(o.check)) && (o.run == [] || Scoped(o.run)) &&
      (o.run != [] <==> o.staged) &&
      (o.check == [] ==> o.run == []) &&
      (o.run != [] ==> o.run[0].request == RunRequest(language, hostPath))
  {
    var chk := SyntaxCheckPhase(code, language, s.NextCreate(), s.NextStart(), s.NextWait());
    SyntaxCheckOutcome(code, language, s.NextCreate(), s.NextStart(), s.NextWait());
    if chk.err.None? {
      var t := Consumed(s, chk.calls);
      RunPhaseIsScoped(language, timeout, hostPath, t.NextCreate(), t.NextStart(), t.NextWait(), t.NextInspect(), t.NextLogs());
    }
  }

  /**
   * Exactly one of the error and the output carries meaning: every failure comes with a non-empty
   * message and an empty output; a success with output that no white space surrounds, so that trimming
   * it again changes nothing.
   */
  lemma OutcomesAreExclusive(code: string, language: string, timeout: int, hostPath: string, s: Script)
    ensures var o := ExecuteSpec(code, language, timeout, hostPath, s);
      o.err.Some? ==> o.output == "" && |o.err.value| > 0
    ensures var o := ExecuteSpec(code, language, timeout, hostPath, s);
      o.err.None? ==> o.staged && Trimmed(o.output) && TrimSpace(o.output) == o.output
  {
    var o := ExecuteSpec(code, language, timeout, hostPath, s);
    if o.err.None? {
      TrimmedIsFixed(o.output);
    }
  }

  /** The executor: a Docker client and the host directory it stages code in. */
  class DockerExecutor {
    const client: Client
    const files: TempFiles

    constructor (client: Client, files: TempFiles)
      ensures this.client == client && this.files == files
    {
      this.client := client;
      this.files := files;
    }

    /** What `Execute(code, language, timeout)` will do from the present state of the daemon and the host. */
    ghost function Planned(code: string, language: string, timeout: int): Outcome
      reads client, files
    {
      ExecuteSpec(code, language, timeout, CodeFilePath(files.tempDir, files.made, language), client.script)
    }

    /** `syntaxCheck`. */
    method SyntaxCheck(code: string, language: string) returns (err: Option<string>)
      requires client.Valid()
      modifies client
      ensures client.Valid()
      ensures var s := old(client.script);
        var c := SyntaxCheckPhase(code, language, s.NextCreate(), s.NextStart(), s.NextWait());
        err == c.err && client.calls == old(client.calls) + c.calls
    {
      if language == "python" {
        ghost var c0 := client.calls;
        var create := client.ContainerCreate(CheckRequest(code));
        if create.CreateFailed? {
          return Some(create.createError);
        }
        var id := create.id;
        var startErr := client.ContainerStart(id);
        if startErr.Some? {
          client.ContainerRemove(id);
          assert client.calls == c0 + [Create(CheckRequest(code), create), Start(id, startErr), Remove(id)];
          return startErr;
        }
        var wait := client.ContainerWait(id);
        client.ContainerRemove(id);
        assert client.calls == c0 + [Create(CheckRequest(code), create), Start(id, startErr), Wait(id, wait), Remove(id)];
        match wait.event {
          case WaitFailed(e) =>
            return Some(e);
          case WaitNilError =>
          case Exited(status) =>
            if status != 0 {
              return Some(SyntaxCheckFailed);
            }
        }
        return None;
      } else {
        return Some(UnsupportedPrefix + language);
      }
    }

    /** The run phase of `Execute`, from the create of the run container for the file at `hostPath` to the classification of its end. */
    method Run(language: string, timeout: int, hostPath: string) returns (output: string, err: Option<string>)
      requires client.Valid()
      modifies client
      ensures client.Valid()
      ensures var s := old(client.script);
        var r := RunPhase(language, timeout, hostPath, s.NextCreate(), s.NextStart(), s.NextWait(), s.NextInspect(), s.NextLogs());
        output == r.output && err == r.err && client.calls == old(client.calls) + r.calls
    {
      ghost var c0, s0 := client.calls, client.script;
      var request := RunRequest(language, hostPath);
      var create := client.ContainerCreate(request);
      if create.CreateFailed? {
        return "", Some(CreateFailedPrefix + create.createError);
      }
      var id := create.id;
      var startErr := client.ContainerStart(id);
      assert startErr == s0.NextStart();
      ghost var begun := [Create(request, create), Start(id, startErr)];
      assert client.calls == c0 + begun;
      if startErr.Some? {
        client.ContainerRemove(id);
        AppendAssoc(c0, begun, [Remove(id)]);
        return "", Some(StartFailedPrefix + startErr.value);
      }
      ghost var s := client.script;
      assert s.NextWait() == s0.NextWait() && s.NextInspect() == s0.NextInspect() && s.NextLogs() == s0.NextLogs();
      output, err := AwaitExit(id, timeout);
      ghost var rest := Await(id, timeout, s.NextWait(), s.NextInspect(), s.NextLogs());
      AppendAssoc(c0, begun, rest.calls);
    }

    /** The run phase from the wait on the started container `id` on. */
    method AwaitExit(id: string, timeout: int) returns (output: string, err: Option<string>)
      requires client.Valid()
      modifies client
      ensures client.Valid()
      ensures var s := old(client.script);
        var r := Await(id, timeout, s.NextWait(), s.NextInspect(), s.NextLogs());
        output == r.output && err == r.err && client.calls == old(client.calls) + r.calls
    {
      ghost var c0 := client.calls;
      var wait := client.ContainerWait(id);
      if wait.afterDeadline || wait.event.WaitFailed? {
        client.ContainerRemove(id);
        AppendAssoc(c0, [Wait(id, wait)], [Remove(id)]);
        if wait.afterDeadline {
          return "", Some(TimedOutPrefix + DurationString(timeout));
        }
        return "", Some(WaitFailedPrefix + wait.event.waitError);
      }
      var exitCode := if wait.event.Exited? then wait.event.statusCode else 0;
      ghost var s := client.script;
      assert s.NextInspect() == old(client.script).NextInspect() && s.NextLogs() == old(client.script).NextLogs();
      output, err := Finish(id, exitCode);
      ghost var rest := Conclude(id, exitCode, s.NextInspect(), s.NextLogs());
      AppendAssoc(c0, [Wait(id, wait)], rest.calls);
    }

    /** The part of the run phase after container `id` has stopped in time with `exitCode`. */
    method Finish(id: string, exitCode: int) returns (output: string, err: Option<string>)
      requires client.Valid()
      modifies client
      ensures client.Valid()
      ensures var r := Conclude(id, exitCode, old(client.script).NextInspect(), old(client.script).NextLogs());
        output == r.output && err == r.err && client.calls == old(client.calls) + r.calls
    {
      ghost var c0, s0 := client.calls, client.script;
      var inspect := client.ContainerInspect(id);
      ghost var inspected := [Inspect(id, inspect)];
      if inspect.InspectFailed? || inspect.oomKilled || exitCode != 0 {
        client.ContainerRemove(id);
        AppendAssoc(c0, inspected, [Remove(id)]);
        if inspect.InspectFailed? {
          return "", Some(InspectFailedPrefix + inspect.inspectError);
        } else if inspect.oomKilled {
          return "", Some(MemoryExceeded);
        }
        return "", Some(NonZeroPrefix + FormatInt(exitCode));
      }
      ghost var s := client.script;
      assert s.NextLogs() == s0.NextLogs();
      output, err := ReadLogs(id);
      ghost var rest := Collect(id, s.NextLogs());
      AppendAssoc(c0, inspected, rest.calls);
    }

    /** Reading the logs of container `id` after a clean run, and classifying them. */
    method ReadLogs(id: string) returns (output: string, err: Option<string>)
      requires client.Valid()
      modifies client
      ensures client.Valid()
      ensures var r := Collect(id, old(client.script).NextLogs());
        output == r.output && err == r.err && client.calls == old(client.calls) + r.calls
    {
      ghost var c0 := client.calls;
      var logs := client.ContainerLogs(id);
      if logs.LogsFailed? {
        client.ContainerRemove(id);
        assert client.calls == c0 + [Logs(id, logs), Remove(id)];
        return "", Some(LogsFailedPrefix + logs.logsError);
      }
      client.CloseLogStream(id);
      client.ContainerRemove(id);
      assert client.calls == c0 + [Logs(id, logs), CloseLogs(id), Remove(id)];
      match logs.stream {
        case Unreadable(e) =>
          return "", Some(ReadFailedPrefix + e);
        case Demultiplexed(out, errOut) =>
          if |errOut| > 0 {
            return "", Some(ExecutionErrorPrefix + errOut);
          }
          return TrimSpace(out), None;
      }
    }

    /** `Execute`: the syntax check, then the staging of the code in a fresh file of its own, then the run. */
    method Execute(code: string, language: string, timeout: int) returns (output: string, err: Option<string>)
      requires client.Valid() && files.Valid()
      modifies client, files
      ensures client.Valid() && files.Valid()
      ensures output == old(Planned(code, language, timeout)).output
      ensures err == old(Planned(code, language, timeout)).err
      ensures var o := old(Planned(code, language, timeout));
        client.calls == old(client.calls) + o.check + o.run &&
        client.script == Consumed(old(client.script), o.check + o.run)
      ensures var o := old(Planned(code, language, timeout));
        files.made == old(files.made) + (if o.staged then 1 else 0) &&
        files.files == if o.staged then old(files.files)[CodeFilePath(files.tempDir, old(files.made), language) := code]
                       else old(files.files)
      ensures old(Planned(code, language, timeout)).staged ==>
        CodeFilePath(files.tempDir, old(files.made), language) !in old(files.files)
      ensures var o := old(Planned(code, language, timeout));
        (o.check == [] || Scoped(o.check)) && (o.run == [] || Scoped(o.run))
    {
      ghost var o := Planned(code, language, timeout);
      ghost var c0 := client.calls;
      ExecuteReleasesContainers(code, language, timeout, CodeFilePath(files.tempDir, files.made, language), client.script);
      var checkErr := SyntaxCheck(code, language);
      if checkErr.Some? {
        assert o.check + o.run == o.check;
        ConsumedConcat(client.initial, c0, o.check);
        return "", Some(SyntaxCheckFailedPrefix + checkErr.value);
      }
      ConsumedConcat(client.initial, c0, o.check);
      var hostPath := files.CreateCodeFile(code, language);
      output, err := Run(language, timeout, hostPath);
      AppendAssoc(c0, o.check, o.run);
      ConsumedConcat(client.initial, c0, o.check + o.run);
    }
  }
}
