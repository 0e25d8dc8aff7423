/** The slice of net/http that the client touches, as immutable values. */
module Http {
  import opened Results
  import opened Json

  /** The HTTP methods the client issues (http.MethodGet and friends). */
  datatype Method = GET | POST | PUT | PATCH | DELETE {

    /** The method token as it appears on the request line. */
    function Name(): string {
      match this
      case GET => "GET"
      case POST => "POST"
      case PUT => "PUT"
      case PATCH => "PATCH"
      case DELETE => "DELETE"
    }
  }

  const AcceptHeader: string := "Accept"
  const ContentTypeHeader: string := "Content-Type"
  const AuthorizationHeader: string := "Authorization"
  const JsonMediaType: string := "application/json"
  const FormMediaType: string := "application/x-www-form-urlencoded"

  /** Identity of an http.RoundTripper: the platform default or one supplied by the caller. */
  datatype TransportId = DefaultTransport | CustomTransport(id: nat)

  /** An *http.Client, reduced to the two fields the client reads: its timeout
      (nanoseconds) and its transport, `None` standing for a nil Transport field. */
  datatype HttpClient = HttpClient(timeout: int, transport: Option<TransportId>)

  /** An outbound JSON request: header names map to their single value and the
      body, when present, is the JSON document written on the wire. */
  datatype Request = Request(verb: Method, url: string, headers: map<string, string>, body: Option<Json>)
}
