/** The shapes of `net/http` and `context` values the round tripper reads,
    the status-code classes of section 15 of RFC 9110, and the
    OpenTelemetry semantic-convention (v1.18.0) attribute keys it emits. */
module Http {

  import opened Wrappers

  /** A `context.Context`: `Background` is `context.Background()`, any other
      context is identified opaquely. */
  datatype Context = Background | Context(id: nat)

  /** An outgoing `*http.Request`: its rendered URL, its method and the
      context it carries (nil when the request has none). */
  datatype Request = Request(url: string, httpMethod: string, ctx: Option<Context>)

  /** An `*http.Response`: its status code and protocol string ("HTTP/1.1"). */
  datatype Response = Response(statusCode: int, proto: string)

  /** A transport error: whether the first `net.Error` in its wrap chain
      reports `Timeout()`, and the text `Error()` returns. */
  datatype Error = Error(netTimeout: bool, message: string)

  /** The text of `context.Canceled.Error()`. */
  const CanceledMessage: string := "context canceled"

  /** An `http.RoundTripper` value: `http.DefaultTransport` or another one. */
  datatype Transport = DefaultTransport | Transport(id: nat)

  /** `http.StatusMultipleChoices` and `http.StatusBadRequest`. */
  const StatusMultipleChoices: int := 300
  const StatusBadRequest: int := 400

  /** The five status-code classes of section 15 of RFC 9110, named by the
      first digit of the code. */
  datatype StatusClass = Informational | Successful | Redirection | ClientError | ServerError

  /** The class of a status code, or None outside the range 100..599 that
      section 15 of RFC 9110 defines. */
  function ClassOf(code: int): (c: Option<StatusClass>)
    ensures c.Some? <==> 100 <= code <= 599
  {
    if code < 100 || code > 599 then None
    else
      match code / 100
      case 1 => Some(Informational)
      case 2 => Some(Successful)
      case 3 => Some(Redirection)
      case 4 => Some(ClientError)
      case _ => Some(ServerError)
  }

  /** An attribute value: the string and integer kinds the core uses. */
  datatype Value = StringValue(s: string) | IntValue(i: int)

  /** An `attribute.KeyValue`. */
  datatype KeyValue = KeyValue(key: string, value: Value)

  /** Semantic-convention keys (OpenTelemetry semconv v1.18.0). */
  const HttpUrlKey: string := "http.url"
  const HttpMethodKey: string := "http.method"
  const HttpStatusCodeKey: string := "http.status_code"
  const HttpFlavorKey: string := "http.flavor"
}
