/**
 * The HTTP handler of `internal/handler/handler.go`: a chain of guards on the request, each answering
 * with a fixed message and status, and, once every guard has passed, a call to the executor whose
 * result is sent back as JSON.
 */
module Handler {
  import opened Base
  import opened Text
  import opened Docker
  import opened Executor
  import opened Http

  /** The languages the handler lets through to the executor. */
  const SupportedLanguages: seq<string> := ["python", "javascript"]

  /** The budget the handler gives each execution: five seconds. */
  const Timeout: int := 5 * Second

  /** `isLanguageSupported`: a linear search of the supported languages. */
  method IsLanguageSupported(language: string) returns (supported: bool)
    ensures supported <==> language in SupportedLanguages
    ensures supported <==> language == "python" || language == "javascript"
  {
    for i := 0 to |SupportedLanguages|
      invariant language !in SupportedLanguages[..i]
    {
      if SupportedLanguages[i] == language {
        return true;
      }
    }
    return false;
  }

  /** What the guards of `ServeHTTP` decide: an error answer, or the code and language to execute. */
  datatype Verdict = Rejected(message: string, status: int) | Accepted(code: string, language: string)

  /**
   * The guards of `ServeHTTP`, in their order: the method, the body, the presence of a language,
   * its support, the presence of code. A missing key of the body reads as the empty string.
   */
  function Validate(r: Request): (v: Verdict)
    ensures r.httpMethod != MethodPost ==> v.Rejected?
    ensures v.Rejected? ==> (v.status == StatusMethodNotAllowed <==> r.httpMethod != MethodPost)
    ensures v.Rejected? ==> v.status == StatusMethodNotAllowed || v.status == StatusBadRequest
    ensures v.Accepted? ==>
      v.code != "" && v.language in SupportedLanguages &&
      r.body.Some? && v.code == Lookup(r.body.value, "code") && v.language == Lookup(r.body.value, "language")
  {
    if r.httpMethod != MethodPost then Rejected("method not allowed", StatusMethodNotAllowed)
    else if r.body.None? then Rejected("invalid request body", StatusBadRequest)
    else
      var code := Lookup(r.body.value, "code");
      var language := Lookup(r.body.value, "language");
      if language == "" then Rejected("language not specified", StatusBadRequest)
      else if language !in SupportedLanguages then Rejected("unsupported language: " + language, StatusBadRequest)
      else if code == "" then Rejected("code not provided", StatusBadRequest)
      else Accepted(code, language)
  }

  /** Any method but POST is refused with 405 before the body is looked at. */
  lemma MethodIsCheckedFirst(r: Request)
    requires r.httpMethod != MethodPost
    ensures Validate(r) == Rejected("method not allowed", 405)
  {
  }

  /** A POST whose body does not decode is refused with 400. */
  lemma UndecodableBodyIsRefused(r: Request)
    requires r.httpMethod == MethodPost && r.body.None?
    ensures Validate(r) == Rejected("invalid request body", 400)
  {
  }

  /**
   * The body guards come in a fixed order: a missing language is reported even when the code is
   * missing too, an unsupported language before the code is looked at, and a missing code last.
   */
  lemma BodyGuardsInOrder(r: Request, fields: map<string, string>)
    requires r.httpMethod == MethodPost && r.body == Some(fields)
    ensures Lookup(fields, "language") == "" ==> Validate(r) == Rejected("language not specified", 400)
    ensures var language := Lookup(fields, "language");
      language != "" && language != "python" && language != "javascript" ==>
      Validate(r) == Rejected("unsupported language: " + language, 400)
    ensures var language := Lookup(fields, "language");
      (language == "python" || language == "javascript") && Lookup(fields, "code") == "" ==>
      Validate(r) == Rejected("code not provided", 400)
  {
  }

  /** A request reaches the executor exactly when it is a POST with a decodable body naming a supported language and some code. */
  lemma AcceptedExactly(r: Request)
    ensures Validate(r).Accepted? <==>
      r.httpMethod == MethodPost && r.body.Some? &&
      (Lookup(r.body.value, "language") == "python" || Lookup(r.body.value, "language") == "javascript") &&
      Lookup(r.body.value, "code") != ""
  {
  }

  /** The body the handler sends for an executor result: only `error` when there is an error, otherwise only `output`. */
  function ExecutionBody(output: string, err: Option<string>): (body: map<string, string>)
    ensures err.Some? ==> body.Keys == {"error"} && body["error"] == err.value
    ensures err.None? ==> body.Keys == {"output"} && body["output"] == output
  {
    if err.Some? then ErrorBody(err.value) else map["output" := output]
  }

  /**
   * A JavaScript request passes every guard, yet the executor refuses it before creating any
   * container: the client gets the error `syntax check failed: unsupported language: javascript`.
   */
  lemma {:induction false} JavaScriptIsAcceptedButNeverRuns(r: Request, hostPath: string, s: Script)
    requires Validate(r).Accepted? && Validate(r).language == "javascript"
    ensures var o := ExecuteSpec(Validate(r).code, "javascript", Timeout, hostPath, s);
      ExecutionBody(o.output, o.err) == ErrorBody("syntax check failed: unsupported language: javascript") &&
      o.check == [] && o.run == [] && !o.staged
  {
    OnlyPythonRuns(Validate(r).code, "javascript", Timeout, hostPath, s);
    assert "syntax check failed: unsupported language: " + "javascript" == "syntax check failed: unsupported language: javascript";
  }

  /** What the guards alone write when they reject a request: the JSON content type, the status, the error object. */
  ghost predicate Answered(w: ResponseWriter, header: map<string, string>, status: Option<int>, bodies: seq<map<string, string>>,
                           code: int, body: map<string, string>)
    reads w
  {
    w.header == header[ContentType := ApplicationJson] &&
    w.status == (if status.None? then Some(code) else status) &&
    w.bodies == bodies + [body]
  }

  /** The handler; `served` records the requests it was asked to serve. */
  class CodeExecutionHandler {
    const executor: DockerExecutor
    ghost var served: seq<Request>

    /** `NewCodeExecutionHandler`, given the executor it would construct. */
    constructor (executor: DockerExecutor)
      ensures this.executor == executor && served == []
    {
      this.executor := executor;
      served := [];
    }

    /**
     * `ServeHTTP`. A rejected request gets its error and status and leaves the executor alone; an
     * accepted one is executed with the five-second budget, and its result goes back with status 200
     * whether or not the execution failed.
     */
    method ServeHTTP(w: ResponseWriter, r: Request)
      requires executor.client.Valid() && executor.files.Valid()
      modifies this, w, executor.client, executor.files
      ensures executor.client.Valid() && executor.files.Valid()
      ensures served == old(served) + [r]
      ensures match Validate(r)
        case Rejected(message, status) =>
          Answered(w, old(w.header), old(w.status), old(w.bodies), status, ErrorBody(message)) &&
          unchanged(executor.client, executor.files)
        case Accepted(code, language) =>
          var o := old(executor.Planned(code, language, Timeout));
          Answered(w, old(w.header), old(w.status), old(w.bodies), StatusOK, ExecutionBody(o.output, o.err)) &&
          executor.client.calls == old(executor.client.calls) + o.check + o.run &&
          executor.files.made == old(executor.files.made) + (if o.staged then 1 else 0) &&
          executor.files.files ==
            if o.staged then old(executor.files.files)[CodeFilePath(executor.files.tempDir, old(executor.files.made), language) := code]
            else old(executor.files.files)
    {
      served := served + [r];
      if r.httpMethod != MethodPost {
        ErrorResponse(w, "method not allowed", StatusMethodNotAllowed);
        return;
      }
      if r.body.None? {
        ErrorResponse(w, "invalid request body", StatusBadRequest);
        return;
      }
      var code := Lookup(r.body.value, "code");
      var language := Lookup(r.body.value, "language");
      if language == "" {
        ErrorResponse(w, "language not specified", StatusBadRequest);
        return;
      }
      var supported := IsLanguageSupported(language);
      if !supported {
        ErrorResponse(w, "unsupported language: " + language, StatusBadRequest);
        return;
      }
      if code == "" {
        ErrorResponse(w, "code not provided", StatusBadRequest);
        return;
      }
      var output, err := executor.Execute(code, language, Timeout);
      if err.Some? {
        w.SetHeader(ContentType, ApplicationJson);
        w.Encode(map["error" := err.value]);
        return;
      }
      w.SetHeader(ContentType, ApplicationJson);
      w.Encode(map["output" := output]);
    }
  }
}
