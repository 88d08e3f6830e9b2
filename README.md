# codeexec in Dafny

This is a model of the core of codeexec, an HTTP service that runs untrusted code in Docker containers.
A POST carrying `{"code": …, "language": …}` goes through three layers:

- An optional API-key gate. It either hands the request on or answers it with 500 or 401.
- The handler's guard chain: method, body, language, support, code.
- The executor, which runs two phases:
  - The syntax-check phase parses the code in a throw-away `python:3.11-alpine` container.
  - The run phase stages the code in a host directory and runs it in a container with a 64 MiB memory ceiling, no swap and half a CPU, against a deadline.
  - It then classifies the end: timeout, OOM kill, non-zero status, stderr output, or success with the trimmed stdout.

The modules follow the program's layers:

- `Base` (`base.dfy`): optional values, used for Go's `error`, and Go's map lookup.
- `Text` (`text.dfy`): the standard-library text functions the results depend on. These are `strings.TrimSpace`, `%d` and `time.Duration.String`.
- `Docker` (`docker.dfy`): the daemon as the executor sees it.
  - The `Client` class answers every primitive from a script of replies, one queue per primitive.
  - It records each call with its reply in a ghost trace. The trace is what lets the model state that every container has its removal requested.
- `Executor` (`executor.dfy`): the language registry, the container requests and the staging of code files (`TempFiles`).
  - `SyntaxCheckPhase`, `RunPhase`, `Await`, `Conclude` and `ExecuteSpec` are functions of the daemon's replies. They say what each phase returns and which calls it makes.
  - The methods of `DockerExecutor` do the same work step by step against the client. They are proved equal to those functions.
- `Http` (`http.dfy`): the request as the handler reads it, a response writer, and `errorResponse`.
- `Handler` (`handler.dfy`): the guard chain as the function `Validate`, the `isLanguageSupported` loop, and `ServeHTTP`.
- `Server` (`server.dfy`): the API-key decision and the middleware.

Where the code and its tests or stated intent disagree, the model follows the code:

- `syntaxCheck` refuses every language but Python (`internal/executor/docker.go:140-141`). The handler admits `javascript`, and `tests/executor_test.go:80-86` expects JavaScript to run. The model proves the opposite: a JavaScript request passes every guard and then fails before any container is created (`Handler.JavaScriptIsAcceptedButNeverRuns`).
- An unsupported language is reported as `syntax check failed: unsupported language: <lang>`. So are daemon failures during the check: the check's create, start and wait errors come back unchanged in the same way. A failed parse gives `syntax check failed: syntax check failed`, with no diagnostic text.
- On a timeout the container is not stopped. The deferred removal is only requested, without `Force`, and Docker refuses to remove a container that is still running, so a timed-out container is left behind.
- A non-zero exit is reported with its status code only; the logs are not read. The OOM flag is tested first. Which message a memory blow-up produces depends on what the daemon reports.
- An executor error reaches the client with status 200 and a body whose only key is `error`.

## Model

| member | source | states |
|---|---|---|
| Text.IsSpace | internal/executor/docker.go:106 | `unicode.IsSpace`: the Latin-1 spaces `\t \n \v \f \r`, space, U+0085 and U+00A0, and the other White_Space code points; `TrimSpace`'s contract is stated in its terms |
| Text.FirstNonSpace | internal/executor/docker.go:106 | the index where the leading white space ends: every character before it is white space (`unicode.IsSpace`), and the one at it, if any, is not |
| Text.PastLastNonSpace | internal/executor/docker.go:106 | the index where the trailing white space begins: every character from it on is white space, and the one before it, if past the start, is not |
| Text.TrimSpace | internal/executor/docker.go:106 | `strings.TrimSpace`: the result is a contiguous part of the input with only white space around it, and neither starts nor ends with white space |
| Text.TrimmedIsFixed | internal/executor/docker.go:106 | a string without leading or trailing white space is left unchanged |
| Text.TrimSpaceIdempotent | internal/executor/docker.go:106 | trimming a trimmed output again changes nothing |
| Text.TrimSpaceOfBlank | internal/executor/docker.go:106 | output made only of white space trims to the empty string |
| Text.Decimal | internal/executor/docker.go:86 | the `%d` numeral of a natural number is non-empty, made of digits, with no leading zero |
| Text.FormatInt | internal/executor/docker.go:86 | the `%d` of an integer starts with `-` exactly when it is negative |
| Text.DecimalRoundTrip | internal/executor/docker.go:86 | reading the numeral back gives the number |
| Text.FormatIntRoundTrip | internal/executor/docker.go:86 | reading the signed numeral back gives the integer |
| Text.DecimalInjective | internal/executor/docker.go:86 | distinct natural numbers have distinct numerals |
| Text.FormatIntInjective | internal/executor/docker.go:86 | distinct integers print differently |
| Text.UnsignedDuration | internal/executor/docker.go:74 | `Duration.format` of a non-negative duration; what it prints is stated by `DurationString`, `WholeSeconds`, `WholeMilliseconds` and `FractionDropsZeros` |
| Text.DurationString | internal/executor/docker.go:74 | `time.Duration.String` always ends in an `s` unit and has at least two characters |
| Text.FractionDropsZeros | internal/executor/docker.go:74 | the fraction of a duration omits the trailing zero digits |
| Text.WholeSeconds | internal/executor/docker.go:74 | a whole number of seconds under a minute prints as its numeral followed by `s`, with no fraction |
| Text.WholeMilliseconds | internal/executor/docker.go:74 | a whole number of milliseconds under a second prints as its numeral followed by `ms`, with no fraction |
| Text.DurationExamples | internal/executor/docker.go:74 | the handler's five-second budget prints as `5s` and the tests' 200 ms as `200ms` |
| Docker.ConsumedConcat | internal/executor/docker.go:29-107 | the daemon's replies to two runs of calls are its replies to the concatenated run |
| Docker.ConsumedSnoc | internal/executor/docker.go:29-107 | answering one more call pops exactly that call's reply |
| Docker.ScopedRemovesWhatItCreated | internal/executor/docker.go:53 | in a scoped container lifetime, the removal of the created container is requested last, and the only removal requested is of the container created |
| Docker.Client.constructor | internal/executor/docker.go:21-27 | a client starts with the given daemon script and an empty trace |
| Docker.Client.ContainerCreate | internal/executor/docker.go:37-52 | the reply is the script's next create reply, recorded in the trace, and that reply leaves the script |
| Docker.Client.ContainerStart | internal/executor/docker.go:56-58 | the reply is the script's next start reply, recorded in the trace |
| Docker.Client.ContainerWait | internal/executor/docker.go:64-75 | the reply (error, nil error or status, and whether the deadline came first) is the next wait reply |
| Docker.Client.ContainerInspect | internal/executor/docker.go:78-81 | the reply (OOM flag or error) is the next inspect reply |
| Docker.Client.ContainerLogs | internal/executor/docker.go:90-100 | the reply (demultiplexed streams, read error, or open error) is the next logs reply |
| Docker.Client.CloseLogStream | internal/executor/docker.go:94 | the close is recorded in the trace and consumes no reply |
| Docker.Client.ContainerRemove | internal/executor/docker.go:53 | the removal is recorded in the trace and consumes no reply |
| Executor.ImageFor | internal/executor/docker.go:162-170 | `getImageForLanguage`; `RegistryBindings` states its values |
| Executor.RunCommandFor | internal/executor/docker.go:172-181 | `getRunCommandForLanguage`; `RegistryBindings` states its values |
| Executor.FileExtensionFor | internal/executor/docker.go:183-191 | `getFileExtensionForLanguage`; `RegistryBindings` states its values |
| Executor.RegistryBindings | internal/executor/docker.go:162-191 | python maps to image `python-exec`, extension `py` and command `python <file>`; every other language to `""` in all three |
| Executor.CheckRequest | internal/executor/docker.go:115-118 | the syntax-check container: image `python:3.11-alpine`, the command `python -c` with the `ast.parse` script, no host configuration; `SyntaxFailureStopsExecution` ties every check create to it |
| Executor.RunRequest | internal/executor/docker.go:37-49 | the run container; `RunContainerOfPython` states its fields and `RunPhaseIsScoped` that the run phase creates it |
| Executor.RunContainerOfPython | internal/executor/docker.go:37-49 | the Python run container uses `python-exec`, runs `code.py`, binds the staged file to `/app/code.py`, and gets Memory = MemorySwap = 64 MiB and CPUQuota 50000 |
| Executor.CodeFilePath | internal/executor/docker.go:148-153 | the path of the `n`-th staged file; `StagedPathsDistinct` states that no two stagings share one |
| Executor.StagedPathsDistinct | internal/executor/docker.go:147-160 | two stagings never write the same file, whatever their languages |
| Executor.TempFiles.constructor | internal/executor/docker.go:147-160 | the host directory starts empty |
| Executor.TempFiles.CreateCodeFile | internal/executor/docker.go:147-160 | the code is written to `code.<ext>` in a fresh directory, at a path no earlier file has, and that path is returned; every staged file stays one of the calls' own paths |
| Executor.SyntaxCheckPhase | internal/executor/docker.go:109-145 | `syntaxCheck` as a function of the daemon's replies; `SyntaxCheckRejectsOtherLanguages` and `SyntaxCheckOutcome` state its results and calls |
| Executor.SyntaxCheckRejectsOtherLanguages | internal/executor/docker.go:140-141 | every language but python gets `unsupported language: <lang>` and no container |
| Executor.SyntaxCheckOutcome | internal/executor/docker.go:109-145 | the check passes exactly for Python with a created and started container whose wait gave a nil error or status 0; its calls are one scoped lifetime of the check container, or none |
| Executor.RunPhase | internal/executor/docker.go:35-58 | the run phase as a function of the daemon's replies; `RunPhaseIsScoped`, `FailedCreateRemovesNothing` and `RunSucceedsExactly` state its results and calls |
| Executor.Await | internal/executor/docker.go:60-75 | the wait and the deadline race; `DeadlineWins` and `NilWaitErrorIsStatusZero` state its results |
| Executor.Conclude | internal/executor/docker.go:77-87 | the inspection and the exit classification; `OutOfMemoryTakesPrecedence`, `NonZeroExitReported` and `ConcludeSucceedsExactly` state its results |
| Executor.Collect | internal/executor/docker.go:89-106 | reading and classifying the logs; `StderrIsFailure` and `ConcludeSucceedsExactly` state its results |
| Executor.RunPhaseIsScoped | internal/executor/docker.go:50-53 | the run phase is one scoped lifetime of the run container: the removal comes last on every path after a successful create |
| Executor.FailedCreateRemovesNothing | internal/executor/docker.go:50-52 | a failed create returns `failed to create container: <err>` and makes no other call |
| Executor.DeadlineWins | internal/executor/docker.go:61-75 | when the deadline comes first the error is `container execution timed out after <timeout>`, and neither inspect nor logs is called |
| Executor.OutOfMemoryTakesPrecedence | internal/executor/docker.go:83-84 | an OOM kill gives `container exceeded memory limit` whatever the exit status, and the logs are not read |
| Executor.NonZeroExitReported | internal/executor/docker.go:85-86 | without OOM, a non-zero status gives `container exited with non-zero status code: <code>`, and the logs are not read |
| Executor.NonZeroMessageDeterminesStatus | internal/executor/docker.go:86 | the status code can be recovered from the non-zero-exit message |
| Executor.NilWaitErrorIsStatusZero | internal/executor/docker.go:65-70 | a nil error from the wait is classified exactly like status 0 |
| Executor.StderrIsFailure | internal/executor/docker.go:102-104 | after a clean exit, non-empty stderr gives `execution error: <stderr>` |
| Executor.ConcludeSucceedsExactly | internal/executor/docker.go:78-106 | after the wait, success happens exactly for status 0, no OOM, readable logs and empty stderr, and the output is the trimmed stdout |
| Executor.RunSucceedsExactly | internal/executor/docker.go:35-106 | the run succeeds exactly when every step went well before the deadline, with trimmed stdout as output |
| Executor.ExecuteSpec | internal/executor/docker.go:29-107 | `Execute` as a function of the daemon script; `SyntaxFailureStopsExecution`, `OnlyPythonRuns`, `ExecuteReleasesContainers` and `OutcomesAreExclusive` state its outcomes |
| Executor.SyntaxFailureStopsExecution | internal/executor/docker.go:31-33 | a failed check gives `""` and `syntax check failed: <err>`; nothing is staged and no run container is created |
| Executor.SyntaxErrorMessage | internal/executor/docker.go:31-33 | Python code that does not parse fails with `syntax check failed: syntax check failed` and no run phase |
| Executor.OnlyPythonRuns | internal/executor/docker.go:109-145 | any language but python, javascript included, fails with `syntax check failed: unsupported language: <lang>` and no daemon call |
| Executor.ExecuteReleasesContainers | internal/executor/docker.go:29-145 | every container `Execute` creates has its removal requested, last, on every path; a run phase exists exactly when the code was staged, and only for the staged file |
| Executor.OutcomesAreExclusive | internal/executor/docker.go:29-107 | an error always comes with a non-empty message and an empty output; a success output has no surrounding white space |
| Executor.DockerExecutor.constructor | internal/executor/docker.go:17-27 | the executor holds the given client and host directory |
| Executor.DockerExecutor.SyntaxCheck | internal/executor/docker.go:109-145 | `syntaxCheck` returns the phase's error and makes exactly its calls |
| Executor.DockerExecutor.Run | internal/executor/docker.go:35-107 | the run phase returns the output and error of `RunPhase` for the daemon's replies, and makes exactly its calls |
| Executor.DockerExecutor.AwaitExit | internal/executor/docker.go:60-75 | the wait, the deadline race and everything after it behave as `Await` says |
| Executor.DockerExecutor.Finish | internal/executor/docker.go:77-106 | inspection, logs and classification behave as `Conclude` says |
| Executor.DockerExecutor.ReadLogs | internal/executor/docker.go:89-106 | reading the logs, closing the stream, the stderr test and the trimmed output behave as `Collect` says |
| Executor.DockerExecutor.Execute | internal/executor/docker.go:29-107 | the output and error are those of `ExecuteSpec`; the trace grows by the check and run calls and the script by their replies; the file is staged exactly when the check passed, at a path no earlier staging used; both lifetimes are scoped |
| Http.ErrorBody | internal/handler/handler.go:83-85 | the error object has the single key `error` holding the message |
| Http.ResponseWriter.constructor | internal/handler/handler.go:23 | a fresh writer has no header, no status and no body |
| Http.ResponseWriter.SetHeader | internal/handler/handler.go:87 | `Header().Set` replaces the field's value and touches nothing else |
| Http.ResponseWriter.WriteHeader | internal/handler/handler.go:88 | the first status written wins; later ones change nothing |
| Http.ResponseWriter.Encode | internal/handler/handler.go:89 | encoding appends the object to the body and sends an implicit 200 if no status was sent |
| Http.ErrorResponse | internal/handler/handler.go:82-90 | sets the JSON content type, writes the status (if none was written yet), and appends `{"error": message}`; the identical helper at cmd/api/server/middleware.go:27-35 is this same member |
| Handler.IsLanguageSupported | internal/handler/handler.go:72-80 | the search returns true exactly when the language is in the list, that is, exactly for `python` and `javascript` |
| Handler.Validate | internal/handler/handler.go:23-52 | a non-POST is always rejected with 405, and only non-POSTs get 405; every other rejection is 400; an accepted request has non-empty code and a supported language, read from the decoded body |
| Handler.MethodIsCheckedFirst | internal/handler/handler.go:24-27 | every method but POST gets `method not allowed` with 405, whatever the body |
| Handler.UndecodableBodyIsRefused | internal/handler/handler.go:29-34 | an undecodable body gets `invalid request body` with 400 |
| Handler.BodyGuardsInOrder | internal/handler/handler.go:36-52 | the body guards run in order: a missing language is reported even when the code is missing too, an unsupported language comes before the code check, and missing code comes last |
| Handler.AcceptedExactly | internal/handler/handler.go:23-54 | a request reaches the executor exactly when it is a decodable POST with a supported language and non-empty code |
| Handler.ExecutionBody | internal/handler/handler.go:55-69 | the result body has only `error` when the executor failed, otherwise only `output`, holding the executor's value |
| Handler.JavaScriptIsAcceptedButNeverRuns | internal/handler/handler.go:44-54 | a JavaScript request passes the guards, yet its answer is the error `syntax check failed: unsupported language: javascript`, and no container exists |
| Handler.CodeExecutionHandler.constructor | internal/handler/handler.go:15-21 | the handler holds the given executor and has served nothing |
| Handler.CodeExecutionHandler.ServeHTTP | internal/handler/handler.go:23-70 | a rejected request gets its message and status and leaves the executor untouched; an accepted one runs the executor with the 5 s budget, makes exactly its calls, stages exactly its file, and answers with status 200 and the result body, whether or not execution failed |
| Server.Authorize | cmd/api/server/middleware.go:11-23 | a denial happens only with the check on, and is either 500 `API key not set` (no key configured) or 401 `unauthorized` (a key is configured and a different one was presented) |
| Server.Decide | cmd/api/server/middleware.go:11-13 | the decision for a request, from `API_KEY_CHECK_ENABLED`, `API_KEY` and the `X-Api-Key` header; `Authorize` and `DelegatesExactly` state it |
| Server.CheckOffLetsEverythingThrough | cmd/api/server/middleware.go:11-23 | unless `API_KEY_CHECK_ENABLED` is exactly `true`, every request passes |
| Server.MissingKeyIsServerError | cmd/api/server/middleware.go:13-17 | with the check on and `API_KEY` empty, every request gets 500 `API key not set` |
| Server.WrongKeyIsUnauthorized | cmd/api/server/middleware.go:18-21 | with the check on and a configured key, a different `X-Api-Key` gets 401 `unauthorized` |
| Server.DelegatesExactly | cmd/api/server/middleware.go:10-24 | a request passes exactly when the check is off, or a key is configured and presented |
| Server.AuthMiddleware.constructor | cmd/api/server/middleware.go:9-10 | the middleware wraps the given handler |
| Server.AuthMiddleware.ServeHTTP | cmd/api/server/middleware.go:9-25 | each request has exactly one outcome: it is served once by the next handler and the response, the daemon calls and the staged file are the handler's own (its error answer, or status 200 with the executor's result), or it gets the decision's error response, in which case the next handler is not called and the executor is untouched |

## Left out

- `NewDockerExecutor` and `NewCodeExecutionHandler` connect to the Docker daemon through the environment, and the handler panics when that fails. The model gives the executor its client and the handler its executor.
- The Docker daemon is not modelled. Each primitive answers from a script of replies, and a used-up queue answers a "cannot connect" error.
- The output streams are replies too. `stdcopy.StdCopy` demultiplexing reaches the model only as a reply carrying stdout and stderr, or a read error.
- The meaning of the check container's Python command, `ast.parse` on the code between triple quotes, is left out. Its verdict is the status the script gives for the wait.
- A daemon reply that never comes is not modelled: the script always answers. The syntax-check wait runs on `context.Background()` with no deadline (`internal/executor/docker.go:114`, `internal/executor/docker.go:128`), so a check container that never stops would block `Execute` forever.
- The deadline is not timed. The `select` over the wait's channels and the context is a flag on the wait reply saying whether the deadline fired first, so the script also decides the random choice Go makes when both are ready.
- The failures the expired context can cause in inspect and logs are replies like any other.
- There is no clock: the timeout is a number of nanoseconds.
- `ContainerRemove` is called without `Force` and its result is ignored. The model records the call, not whether Docker removed a still running container.
- Executor.ExecuteReleasesContainers: proves that a removal is requested for every created container. The request is not forced, and Docker refuses to remove a still-running container, so after a timeout the container is not in fact removed.
- Temporary files are never deleted, in the source as in the model.
- `os.MkdirTemp` picks a random directory name, which the model replaces by a counter.
- The `log.Fatalf` exits of `createCodeFile` end the process and are left out.
- The staged files are a ghost map.
- JSON is not encoded or decoded. The request body is the decoded `map[string]string`, or `None` when decoding fails, and the response body is the sequence of encoded objects. The bytes and the trailing newline are not modelled.
- Strings are sequences of code points, while Go's `stdout` and `stderr` are bytes. Trimming is unaffected, since Go reads an invalid byte as a rune that is not white space, and the stderr test only asks whether it is empty. Invalid UTF-8 in the output has no separate model.
- Header keys are not canonicalised; requests carry them under their canonical names.
- The response writer keeps header changes made after the status was sent, which Go does not transmit. No code path in the core changes a header after writing.
- `os.Getenv` is a parameter holding the environment, in which an unset variable reads as `""`.
- Concurrency between requests is left out.
- `cmd/api/main.go` and `cmd/api/server/server.go` are routing and port plumbing. `internal/executor/executor.go` is an interface without logic.
- `getRunCommandForLanguage` is modelled but unused: `Execute` never calls it.
- Text.FormatInt: Go's `int64` status code and `time.Duration` are unbounded integers here. The special formatting of the minimum `int64` duration is not modelled.
- Http.ResponseWriter.WriteHeader: Go's log line for a superfluous `WriteHeader` is not modelled.
