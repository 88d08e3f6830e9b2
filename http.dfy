/**
 * The part of `net/http` the handler and the middleware use: the incoming request as they read it, and
 * a response writer that keeps the headers, the status line and the JSON objects encoded into it.
 * `ErrorResponse` is the `errorResponse` helper that `internal/handler/handler.go` and
 * `cmd/api/server/middleware.go` both define, with the same body.
 */
module Http {
  import opened Base

  const StatusOK := 200
  const StatusBadRequest := 400
  const StatusUnauthorized := 401
  const StatusMethodNotAllowed := 405
  const StatusInternalServerError := 500

  const MethodPost := "POST"
  const ContentType := "Content-Type"
  const ApplicationJson := "application/json"

  /**
   * A request: its method, its header fields under their canonical names, and its body as
   * `json.Decoder` decodes it into a `map[string]string`, `None` when decoding fails.
   */
  datatype Request = Request(httpMethod: string, header: map<string, seq<string>>, body: Option<map<string, string>>) {

    /** `Header.Get`: the first value of the field, or the empty string when there is none. */
    function HeaderGet(name: string): string {
      if name in header && |header[name]| > 0 then header[name][0] else ""
    }
  }

  /** The body `errorResponse` encodes: a single `error` key holding the message. */
  function ErrorBody(message: string): (body: map<string, string>)
    ensures body.Keys == {"error"} && body["error"] == message
  {
    map["error" := message]
  }

  /**
   * The response under construction. `status` is the code sent with the header, `None` until it is
   * sent; `bodies` holds the JSON objects encoded into the body, in order.
   */
  class ResponseWriter {
    var header: map<string, string>
    var status: Option<int>
    var bodies: seq<map<string, string>>

    constructor ()
      ensures header == map[] && status == None && bodies == []
    {
      header := map[];
      status := None;
      bodies := [];
    }

    /** The status the client receives: the one sent, or 200 while none has been. */
    function Code(): int
      reads this
    {
      status.GetOr(StatusOK)
    }

    /** `Header().Set`: the field gets the single value `value`. */
    method SetHeader(name: string, value: string)
      modifies this
      ensures header == old(header)[name := value]
      ensures status == old(status) && bodies == old(bodies)
    {
      header := header[name := value];
    }

    /** `WriteHeader`: the first call sends its status; a later one is superfluous and changes nothing. */
    method WriteHeader(code: int)
      modifies this
      ensures status == if old(status).None? then Some(code) else old(status)
      ensures header == old(header) && bodies == old(bodies)
    {
      if status.None? {
        status := Some(code);
      }
    }

    /** `json.NewEncoder(w).Encode(value)`: writing the body sends status 200 first if no status was sent. */
    method Encode(value: map<string, string>)
      modifies this
      ensures status == if old(status).None? then Some(StatusOK) else old(status)
      ensures bodies == old(bodies) + [value]
      ensures header == old(header)
    {
      if status.None? {
        status := Some(StatusOK);
      }
      bodies := bodies + [value];
    }
  }

  /** `errorResponse`: the JSON content type, then the status, then the body `{"error": message}`. */
  method ErrorResponse(w: ResponseWriter, message: string, statusCode: int)
    modifies w
    ensures w.header == old(w.header)[ContentType := ApplicationJson]
    ensures w.status == if old(w.status).None? then Some(statusCode) else old(w.status)
    ensures w.bodies == old(w.bodies) + [ErrorBody(message)]
  {
    w.SetHeader(ContentType, ApplicationJson);
    w.WriteHeader(statusCode);
    w.Encode(ErrorBody(message));
  }
}
