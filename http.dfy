/**
 * The slice of net/http the handlers touch: the incoming request's method,
 * Origin header and query string, a decoded JSON body, and a response writer
 * whose header map and status the handlers update in place.
 */
module Http {
  import opened Wrappers

  const MethodPost: string := "POST"
  const MethodOptions: string := "OPTIONS"

  const StatusOK: int := 200
  const StatusBadRequest: int := 400
  const StatusMethodNotAllowed: int := 405
  const StatusInternalServerError: int := 500

  /**
   * An incoming request: its method (`verb`, since `method` is a keyword), its Origin header ("" when absent) and
   * the first value of each query parameter.
   */
  datatype Request = Request(verb: string, origin: string, query: map<string, string>)

  /** URL.Query().Get: the parameter's value, or "" when it is absent. */
  function QueryGet(query: map<string, string>, key: string): (v: string)
    ensures key !in query ==> v == ""
    ensures key in query ==> v == query[key]
  {
    if key in query then query[key] else ""
  }

  /** The outcome of json.Decoder.Decode on a request body. */
  datatype Decoded<+T> = Malformed | Decoded(value: T)

  /**
   * http.ResponseWriter: a mutable header map, the status once written, and
   * the bytes of the body written so far.
   */
  class ResponseWriter {
    var header: map<string, string>
    var status: Option<int>
    var body: string

    constructor ()
      ensures header == map[] && status == None && body == ""
    {
      header := map[];
      status := None;
      body := "";
    }

    /** Header().Set: replaces any value the key had. */
    method SetHeader(key: string, value: string)
      modifies this
      ensures header == old(header)[key := value]
      ensures status == old(status) && body == old(body)
    {
      header := header[key := value];
    }

    /** WriteHeader: only the first status written takes effect. */
    method WriteHeader(code: int)
      modifies this
      ensures status == if old(status).None? then Some(code) else old(status)
      ensures header == old(header) && body == old(body)
    {
      if status.None? {
        status := Some(code);
      }
    }

    /**
     * http.Error: drops Content-Length, marks the reply as plain text that
     * must not be sniffed, and writes the status (the message text is not
     * part of this model).
     */
    method Error(code: int)
      modifies this
      ensures header == (old(header) - {"Content-Length"})["Content-Type" := "text/plain; charset=utf-8"]["X-Content-Type-Options" := "nosniff"]
      ensures status == if old(status).None? then Some(code) else old(status)
    {
      header := (header - {"Content-Length"})["Content-Type" := "text/plain; charset=utf-8"]["X-Content-Type-Options" := "nosniff"];
      WriteHeader(code);
    }

    /** Write: writing a body without a status first implies status 200. */
    method Write(data: string)
      modifies this
      ensures status == if old(status).None? then Some(StatusOK) else old(status)
      ensures body == old(body) + data && header == old(header)
    {
      WriteHeader(StatusOK);
      body := body + data;
    }
  }
}
