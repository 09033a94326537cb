/**
 * Shared data model of the cross-platform HTTP layer: the request
 * description (RequestBuilder), the canonical response, the errors the
 * layer raises or passes on, and the connectivity signal.
 */
module Http {

  datatype Option<+T> = None | Some(value: T) {
    function GetOr(default: T): T {
      match this
      case Some(v) => v
      case None => default
    }
  }

  /** A byte as carried in request and response bodies. */
  type byte = b: int | 0 <= b < 256

  /** The six methods of a RequestBuilder (section 9 of RFC 9110). */
  datatype HttpMethod = GET | POST | PUT | PATCH | DELETE | HEAD

  /** The method's name, as the Kotlin enum constant spells it. */
  function MethodName(m: HttpMethod): string {
    match m
    case GET => "GET"
    case POST => "POST"
    case PUT => "PUT"
    case PATCH => "PATCH"
    case DELETE => "DELETE"
    case HEAD => "HEAD"
  }

  /** What a RequestBuilder's untyped `body` may hold. */
  datatype Body =
    | NoBody
    | ByteArrayBody(bytes: seq<byte>)
    | StringBody(text: string)
    | OtherBody   // an object of any other type: no transport sends it

  /** The cache policy a RequestBuilder may ask for. */
  datatype CachePolicy =
    | UseProtocolCachePolicy
    | ReloadIgnoringCacheData
    | ReturnCacheDataElseLoad
    | ReturnCacheDataDontLoad

  /** The description of one HTTP request. `parameters` keeps insertion order. */
  datatype RequestBuilder = RequestBuilder(
    baseUrl: Option<string>,
    path: Option<string>,
    parameters: seq<(string, string)>,
    headers: map<string, string>,
    httpMethod: HttpMethod,   // `method` in the source
    body: Body,
    timeout: Option<int>,     // seconds
    cachePolicy: CachePolicy)

  /** `RequestBuilder()`: every field at its default. */
  const DefaultRequestBuilder: RequestBuilder :=
    RequestBuilder(None, None, [], map[], GET, NoBody, None, UseProtocolCachePolicy)

  /** The header name the layer reserves for the body's media type (RFC 9110, section 8.3). */
  const ContentType: string := "Content-Type"
  const ApplicationJSON: string := "application/json"
  const ApplicationOctetStream: string := "application/octet-stream"

  /** Where a response came from. */
  datatype ResponseSource = UNKNOWN | CACHE | NETWORK

  /** The canonical response handed to `processResponse`. */
  datatype HttpResponse = HttpResponse(
    statusCode: int,
    bodyByteArray: Option<seq<byte>>,
    headers: map<string, string>,
    source: ResponseSource)

  /** A response as the Android transport delivers it, before wrapping. */
  datatype NativeResponse = NativeResponse(
    status: int,
    headerEntries: seq<(string, string)>,   // the flattened (name, value) entries
    bytes: seq<byte>)

  /** The errors that flow through the layer. */
  datatype Throwable =
    | Exception(message: string)                  // any error the layer does not tell apart
    | KtorRequestTimeoutException(message: string)
    | ResponseException(response: NativeResponse)  // transport error that carries a response
    | HttpRequestTimeoutException(cause: Throwable)
    | HttpResponseNoInternetConnectionException(cause: Throwable)

  /** The single value or single error a request's publisher emits. */
  datatype ExecuteOutcome = Value(response: HttpResponse) | Error(error: Throwable)

  /** The reachability signal; only NONE is told apart by the layer. */
  datatype ConnectivityState = NONE | WIFI | CELLULAR
}
