/**
 * The API-key gate of `cmd/api/server/middleware.go`. When the environment switches the check on,
 * a request passes to the handler only if it presents the configured key; otherwise it is answered
 * with an error and never reaches the handler.
 */
module Server {
  import opened Base
  import opened Http
  import opened Executor
  import opened Handler

  /** The environment variable that switches the check on, when it holds exactly `true`. */
  const CheckEnabledVariable := "API_KEY_CHECK_ENABLED"
  /** The environment variable holding the expected key. */
  const ApiKeyVariable := "API_KEY"
  /** The request header carrying the presented key. */
  const ApiKeyHeader := "X-Api-Key"

  /** The middleware's decision: hand the request on, or answer it with an error. */
  datatype Gate = Delegate | Deny(message: string, status: int)

  /** The decision, from the check switch, the expected key and the presented key (each `""` when unset). */
  function Authorize(checkEnabled: string, expected: string, presented: string): (g: Gate)
    ensures g.Deny? ==> checkEnabled == "true"
    ensures g.Deny? ==>
      (g == Deny("API key not set", StatusInternalServerError) && expected == "") ||
      (g == Deny("unauthorized", StatusUnauthorized) && expected != "" && presented != expected)
  {
    if checkEnabled == "true" then
      if expected == "" then Deny("API key not set", StatusInternalServerError)
      else if presented != expected then Deny("unauthorized", StatusUnauthorized)
      else Delegate
    else
      Delegate
  }

  /** Unless the switch holds exactly `true`, every request passes, whatever it presents. */
  lemma CheckOffLetsEverythingThrough(checkEnabled: string, expected: string, presented: string)
    requires checkEnabled != "true"
    ensures Authorize(checkEnabled, expected, presented) == Delegate
  {
  }

  /** With the check on and no expected key configured, every request gets 500 `API key not set`. */
  lemma MissingKeyIsServerError(expected: string, presented: string)
    requires expected == ""
    ensures Authorize("true", expected, presented) == Deny("API key not set", 500)
  {
  }

  /** With the check on and a key configured, a different presented key gets 401 `unauthorized`. */
  lemma WrongKeyIsUnauthorized(expected: string, presented: string)
    requires expected != "" && presented != expected
    ensures Authorize("true", expected, presented) == Deny("unauthorized", 401)
  {
  }

  /** A request passes exactly when the check is off, or a key is configured and the request presents it. */
  lemma DelegatesExactly(checkEnabled: string, expected: string, presented: string)
    ensures Authorize(checkEnabled, expected, presented) == Delegate <==>
      checkEnabled != "true" || (expected != "" && presented == expected)
  {
  }

  /** The decision for request `r` in environment `env`. */
  function Decide(env: map<string, string>, r: Request): Gate {
    Authorize(Lookup(env, CheckEnabledVariable), Lookup(env, ApiKeyVariable), r.HeaderGet(ApiKeyHeader))
  }

  /** `AuthMiddleware(next)`: the handler it wraps. */
  class AuthMiddleware {
    const next: CodeExecutionHandler

    constructor (next: CodeExecutionHandler)
      ensures this.next == next
    {
      this.next := next;
    }

    /**
     * The wrapped handler function, in environment `env`. Each request gets exactly one outcome: it
     * is served by the next handler once, and the response is the handler's alone, or it is answered
     * with the error of the decision, the next handler not being called and the executor left alone.
     */
    method ServeHTTP(w: ResponseWriter, r: Request, env: map<string, string>)
      requires next.executor.client.Valid() && next.executor.files.Valid()
      modifies w, next, next.executor.client, next.executor.files
      ensures next.executor.client.Valid() && next.executor.files.Valid()
      ensures match Decide(env, r)
        case Delegate =>
          next.served == old(next.served) + [r] &&
          (match Validate(r)
           case Rejected(message, status) =>
             Answered(w, old(w.header), old(w.status), old(w.bodies), status, ErrorBody(message)) &&
             unchanged(next.executor.client, next.executor.files)
           case Accepted(code, language) =>
             var o := old(next.executor.Planned(code, language, Timeout));
             Answered(w, old(w.header), old(w.status), old(w.bodies), StatusOK, ExecutionBody(o.output, o.err)) &&
             next.executor.client.calls == old(next.executor.client.calls) + o.check + o.run &&
             next.executor.files.made == old(next.executor.files.made) + (if o.staged then 1 else 0) &&
             next.executor.files.files ==
               if o.staged then
                 old(next.executor.files.files)[CodeFilePath(next.executor.files.tempDir, old(next.executor.files.made), language) := code]
               else old(next.executor.files.files))
        case Deny(message, status) =>
          next.served == old(next.served) &&
          Answered(w, old(w.header), old(w.status), old(w.bodies), status, ErrorBody(message)) &&
          unchanged(next.executor.client, next.executor.files)
    {
      if Lookup(env, CheckEnabledVariable) == "true" {
        var apiKey := r.HeaderGet(ApiKeyHeader);
        var expectedApiKey := Lookup(env, ApiKeyVariable);
        if expectedApiKey == "" {
          ErrorResponse(w, "API key not set", StatusInternalServerError);
          return;
        }
        if apiKey != expectedApiKey {
          ErrorResponse(w, "unauthorized", StatusUnauthorized);
          return;
        }
      }
      next.ServeHTTP(w, r);
    }
  }
}
