/**
 * The Android transport: `KtorHttpRequestFactory` turns a RequestBuilder
 * into a Ktor request, sends it through the configured client and
 * classifies what comes back into the single value or error of the
 * request's publisher.
 *
 * The Ktor client is an input: the model describes the request it is
 * handed (`WireRequest`) and the call's result (`KtorCall`), and leaves the
 * network exchange itself to a function parameter.
 */
module KtorRequestFactory {
  import opened Http
  import UrlBuilding

  /** Ktor's methods, each carrying the name sent on the wire. */
  datatype KtorMethod = Get | Post | Put | Patch | Delete | Head {
    function Value(): string {
      match this
      case Get => "GET"
      case Post => "POST"
      case Put => "PUT"
      case Patch => "PATCH"
      case Delete => "DELETE"
      case Head => "HEAD"
    }
  }

  /** `ktorMethod`: each method maps to the Ktor method of the same name. */
  function KtorMethodOf(m: HttpMethod): (k: KtorMethod)
    ensures k.Value() == MethodName(m)
  {
    match m
    case GET => Get
    case DELETE => Delete
    case HEAD => Head
    case PATCH => Patch
    case POST => Post
    case PUT => Put
  }

  /** No two methods share a Ktor method. */
  lemma KtorMethodInjective(a: HttpMethod, b: HttpMethod)
    ensures KtorMethodOf(a) == KtorMethodOf(b) <==> a == b
  {
  }

  /** Every Ktor method is reached. */
  lemma KtorMethodSurjective(k: KtorMethod)
    ensures exists m :: KtorMethodOf(m) == k
  {
    match k
    case Get => assert KtorMethodOf(GET) == k;
    case Post => assert KtorMethodOf(POST) == k;
    case Put => assert KtorMethodOf(PUT) == k;
    case Patch => assert KtorMethodOf(PATCH) == k;
    case Delete => assert KtorMethodOf(DELETE) == k;
    case Head => assert KtorMethodOf(HEAD) == k;
  }

  // ---------------------------------------------------------------------
  // Client configuration
  // ---------------------------------------------------------------------

  /** The part of the Ktor client's configuration the factory sets up. Durations are in milliseconds. */
  datatype ClientConfig = ClientConfig(
    requestTimeoutMillis: int,
    socketTimeoutMillis: int,
    connectTimeoutMillis: int,
    expectSuccess: bool)

  /** `DEFAULT_TIMEOUT_DURATION`: ten seconds. */
  const DefaultTimeoutMillis: int := 10 * 1000

  /**
   * The factory's constructor arguments, in milliseconds; `None` stands for an
   * argument left at its default. Socket and connect timeouts default to the
   * request timeout as finally chosen.
   */
  function Configure(requestTimeout: Option<int>, socketTimeout: Option<int>, connectTimeout: Option<int>): (c: ClientConfig)
    ensures requestTimeout.None? ==> c.requestTimeoutMillis == 10000
    ensures requestTimeout.Some? ==> c.requestTimeoutMillis == requestTimeout.value
    ensures socketTimeout.None? ==> c.socketTimeoutMillis == c.requestTimeoutMillis
    ensures socketTimeout.Some? ==> c.socketTimeoutMillis == socketTimeout.value
    ensures connectTimeout.None? ==> c.connectTimeoutMillis == c.requestTimeoutMillis
    ensures connectTimeout.Some? ==> c.connectTimeoutMillis == connectTimeout.value
    ensures !c.expectSuccess
  {
    var request := requestTimeout.GetOr(DefaultTimeoutMillis);
    ClientConfig(request, socketTimeout.GetOr(request), connectTimeout.GetOr(request), false)
  }

  /** With every argument at its default, all three timeouts are ten seconds. */
  lemma DefaultTimeouts()
    ensures Configure(None, None, None) == ClientConfig(10000, 10000, 10000, false)
  {
  }

  /** Giving only a request timeout sets the other two to it. */
  lemma RequestTimeoutDrivesTheOthers(t: int)
    ensures var c := Configure(Some(t), None, None);
      c.socketTimeoutMillis == t && c.connectTimeoutMillis == t
  {
  }

  /** The factory: its `init` block replaces the client by one configured as above. */
  class KtorHttpRequestFactory {
    var httpClient: ClientConfig

    constructor(requestTimeout: Option<int>, socketTimeout: Option<int>, connectTimeout: Option<int>)
      ensures httpClient == Configure(requestTimeout, socketTimeout, connectTimeout)
    {
      httpClient := Configure(requestTimeout, socketTimeout, connectTimeout);
    }

    /** `request`: a request bound to this factory's client. */
    method Request(requestBuilder: RequestBuilder) returns (r: KTorCoreHttpRequest)
      ensures fresh(r)
      ensures r.requestBuilder == requestBuilder && r.httpClient == httpClient
    {
      r := new KTorCoreHttpRequest(requestBuilder, httpClient);
    }
  }

  // ---------------------------------------------------------------------
  // Request assembly
  // ---------------------------------------------------------------------

  /** The body Ktor sends, with the media type it is labelled with. */
  datatype OutgoingContent =
    | ByteArrayContent(bytes: seq<byte>, contentType: string)
    | TextContent(text: string, contentType: string)

  /** What the request block hands to the client. */
  datatype WireRequest = WireRequest(
    url: string,
    headers: map<string, string>,
    body: Option<OutgoingContent>,
    requestTimeoutMillis: Option<int>,   // None: the client's own timeout applies
    httpMethod: KtorMethod)

  /** The headers set one by one: every header except Content-Type, which travels with the body. */
  function ForwardedHeaders(headers: map<string, string>): (forwarded: map<string, string>)
    ensures forwarded.Keys == headers.Keys - {ContentType}
    ensures forall k :: k in forwarded ==> forwarded[k] == headers[k]
  {
    map k | k in headers && k != ContentType :: headers[k]
  }

  /** The name matching is exact: a header spelled with other letter case is forwarded. */
  lemma ContentTypeMatchIsCaseSensitive(headers: map<string, string>)
    requires "content-type" in headers
    ensures "content-type" in ForwardedHeaders(headers)
  {
  }

  /** The Content-Type a body is labelled with: the explicit header, else the body kind's default. */
  function ContentTypeFor(headers: map<string, string>, default: string): (t: string)
    ensures ContentType in headers ==> t == headers[ContentType]
    ensures ContentType !in headers ==> t == default
  {
    if ContentType in headers then headers[ContentType] else default
  }

  /** The request body: bytes and text are sent, a missing body or one of another type is not. */
  function BodyContent(body: Body, headers: map<string, string>): (c: Option<OutgoingContent>)
    ensures c.Some? <==> body.ByteArrayBody? || body.StringBody?
    ensures body.ByteArrayBody? ==>
      c.value.ByteArrayContent? && c.value.bytes == body.bytes
      && c.value.contentType == ContentTypeFor(headers, ApplicationOctetStream)
    ensures body.StringBody? ==>
      c.value.TextContent? && c.value.text == body.text
      && c.value.contentType == ContentTypeFor(headers, ApplicationJSON)
  {
    match body
    case ByteArrayBody(bytes) => Some(ByteArrayContent(bytes, ContentTypeFor(headers, ApplicationOctetStream)))
    case StringBody(text) => Some(TextContent(text, ContentTypeFor(headers, ApplicationJSON)))
    case _ => None
  }

  /** The per-request timeout, in milliseconds: only a positive number of seconds overrides the client's. */
  function RequestTimeoutMillis(timeout: Option<int>): (millis: Option<int>)
    ensures millis.Some? <==> timeout.Some? && timeout.value > 0
    ensures millis.Some? ==> millis.value == timeout.value * 1000 && millis.value > 0
  {
    match timeout
    case Some(seconds) => if seconds > 0 then Some(seconds * 1000) else None
    case None => None
  }

  /** The request timeout in force for one request under a given client. */
  function EffectiveRequestTimeout(client: ClientConfig, timeout: Option<int>): (millis: int)
    ensures timeout.Some? && timeout.value > 0 ==> millis == timeout.value * 1000
    ensures !(timeout.Some? && timeout.value > 0) ==> millis == client.requestTimeoutMillis
  {
    RequestTimeoutMillis(timeout).GetOr(client.requestTimeoutMillis)
  }

  /** Ktor's mutable request builder, as the request block fills it in. */
  class KtorRequestBuilder {
    var url: string
    var headers: map<string, string>
    var body: Option<OutgoingContent>
    var requestTimeoutMillis: Option<int>
    var httpMethod: KtorMethod

    constructor()
      ensures url == "" && headers == map[] && body == None && requestTimeoutMillis == None && httpMethod == Get
    {
      url := "";
      headers := map[];
      body := None;
      requestTimeoutMillis := None;
      httpMethod := Get;
    }

    /** `header(name, value)`. */
    method Header(name: string, value: string)
      modifies this
      ensures headers == old(headers)[name := value]
      ensures url == old(url) && body == old(body)
      ensures requestTimeoutMillis == old(requestTimeoutMillis) && httpMethod == old(httpMethod)
    {
      headers := headers[name := value];
    }

    function Build(): WireRequest
      reads this
    {
      WireRequest(url, headers, body, requestTimeoutMillis, httpMethod)
    }
  }

  lemma ForwardedHeadersStep(all: map<string, string>, todo: set<string>, k: string)
    requires k in todo && todo <= all.Keys
    ensures k != ContentType ==>
      ForwardedHeaders(all - (todo - {k})) == ForwardedHeaders(all - todo)[k := all[k]]
    ensures k == ContentType ==>
      ForwardedHeaders(all - (todo - {k})) == ForwardedHeaders(all - todo)
  {
    var before := ForwardedHeaders(all - todo);
    var after := ForwardedHeaders(all - (todo - {k}));
    if k != ContentType {
      assert after.Keys == before.Keys + {k};
    } else {
      assert after.Keys == before.Keys;
    }
  }

  /** A request to execute: the builder it was made from and the client it is sent through. */
  class KTorCoreHttpRequest {
    const requestBuilder: RequestBuilder
    const httpClient: ClientConfig

    constructor(requestBuilder: RequestBuilder, httpClient: ClientConfig)
      ensures this.requestBuilder == requestBuilder && this.httpClient == httpClient
    {
      this.requestBuilder := requestBuilder;
      this.httpClient := httpClient;
    }

    /** The request block of `execute`: URL, headers one by one, body, timeout and method. */
    method Assemble() returns (wire: WireRequest)
      ensures wire.url == UrlBuilding.BuildUrl(requestBuilder)
      ensures wire.headers == ForwardedHeaders(requestBuilder.headers)
      ensures wire.body == BodyContent(requestBuilder.body, requestBuilder.headers)
      ensures wire.requestTimeoutMillis == RequestTimeoutMillis(requestBuilder.timeout)
      ensures wire.httpMethod == KtorMethodOf(requestBuilder.httpMethod)
    {
      var builder := new KtorRequestBuilder();
      builder.url := UrlBuilding.BuildUrl(requestBuilder);
      var all := requestBuilder.headers;
      var todo := all.Keys;
      assert all - todo == map[];
      while todo != {}
        invariant todo <= all.Keys
        invariant builder.headers == ForwardedHeaders(all - todo)
        invariant builder.url == UrlBuilding.BuildUrl(requestBuilder)
        invariant builder.body == None && builder.requestTimeoutMillis == None
        decreases todo
      {
        var k :| k in todo;
        ForwardedHeadersStep(all, todo, k);
        if k != ContentType {
          builder.Header(k, all[k]);
        }
        todo := todo - {k};
      }
      assert all - todo == all;
      builder.body := BodyContent(requestBuilder.body, all);
      builder.requestTimeoutMillis := RequestTimeoutMillis(requestBuilder.timeout);
      builder.httpMethod := KtorMethodOf(requestBuilder.httpMethod);
      wire := builder.Build();
    }

    /**
     * `execute`: assemble the request, let the client run it (`send` stands for
     * the network exchange under the given client configuration) and classify
     * the call's result.
     */
    method Execute(send: (ClientConfig, WireRequest) -> KtorCall) returns (outcome: ExecuteOutcome)
      ensures outcome == Classify(send(httpClient, WireRequestFor(requestBuilder)))
    {
      var wire := Assemble();
      outcome := Classify(send(httpClient, wire));
    }
  }

  /** The request the request block produces for a builder. */
  function WireRequestFor(rb: RequestBuilder): WireRequest {
    WireRequest(UrlBuilding.BuildUrl(rb), ForwardedHeaders(rb.headers), BodyContent(rb.body, rb.headers),
                RequestTimeoutMillis(rb.timeout), KtorMethodOf(rb.httpMethod))
  }

  /**
   * An explicit Content-Type is never sent as a plain header. A byte or
   * text body carries it instead; without such a body it is not sent.
   */
  lemma ContentTypeTravelsWithBody(rb: RequestBuilder)
    requires ContentType in rb.headers
    ensures var wire := WireRequestFor(rb);
      && ContentType !in wire.headers
      && (rb.body.ByteArrayBody? || rb.body.StringBody? ==> wire.body.value.contentType == rb.headers[ContentType])
      && (!(rb.body.ByteArrayBody? || rb.body.StringBody?) ==> wire.body.None?)
  {
  }

  // ---------------------------------------------------------------------
  // Responses and outcome classification
  // ---------------------------------------------------------------------

  /** How the Ktor call ended: with a response, or by throwing. */
  datatype KtorCall = Completed(response: NativeResponse) | Threw(exception: Throwable)

  /** `flattenEntries().toMap()`: for a repeated name, the last entry wins. */
  function ToMap(entries: seq<(string, string)>): (m: map<string, string>)
    ensures m.Keys == (set e | e in entries :: e.0)
    ensures forall i :: 0 <= i < |entries| && LastWithName(entries, i) ==> m[entries[i].0] == entries[i].1
  {
    if entries == [] then map[]
    else
      var init := entries[..|entries| - 1];
      var last := entries[|entries| - 1];
      assert entries == init + [last];
      assert forall i :: 0 <= i < |entries| - 1 && LastWithName(entries, i) ==>
        LastWithName(init, i) && init[i] == entries[i];
      ToMap(init)[last.0 := last.1]
  }

  /** No later entry carries the same name as entry `i`. */
  predicate LastWithName(entries: seq<(string, string)>, i: int)
    requires 0 <= i < |entries|
  {
    forall j :: i < j < |entries| ==> entries[j].0 != entries[i].0
  }

  /** `KTorHttpResponse`: status, bytes and headers of a Ktor response; the source is never known. */
  function KTorHttpResponse(response: NativeResponse): (r: HttpResponse)
    ensures r.statusCode == response.status
    ensures r.bodyByteArray == Some(response.bytes)
    ensures r.headers == ToMap(response.headerEntries)
    ensures r.source == UNKNOWN
  {
    HttpResponse(response.status, Some(response.bytes), ToMap(response.headerEntries), UNKNOWN)
  }

  /**
   * The try/catch of `execute`: a response, even one carried by an exception,
   * is a value; a Ktor timeout is re-wrapped; every other exception passes.
   */
  function Classify(call: KtorCall): (outcome: ExecuteOutcome)
    ensures outcome.Value? <==> call.Completed? || call.exception.ResponseException?
    ensures call.Completed? ==> outcome == Value(KTorHttpResponse(call.response))
    ensures call.Threw? && call.exception.ResponseException? ==>
      outcome == Value(KTorHttpResponse(call.exception.response))
    ensures call.Threw? && call.exception.KtorRequestTimeoutException? ==>
      outcome == Error(HttpRequestTimeoutException(call.exception))
    ensures call.Threw? && !call.exception.ResponseException? && !call.exception.KtorRequestTimeoutException? ==>
      outcome == Error(call.exception)
  {
    match call
    case Completed(response) => Value(KTorHttpResponse(response))
    case Threw(ex) =>
      match ex
      case ResponseException(response) => Value(KTorHttpResponse(response))
      case KtorRequestTimeoutException(_) => Error(HttpRequestTimeoutException(ex))
      case _ => Error(ex)
  }

  /** With `expectSuccess` off, a status outside 2xx is still a value, with that status. */
  lemma StatusNeverAnError(response: NativeResponse)
    ensures Classify(Completed(response)) == Value(KTorHttpResponse(response))
    ensures Classify(Completed(response)).response.statusCode == response.status
  {
  }

  /** Every error the request reports is either a re-wrapped Ktor timeout or the exception thrown. */
  lemma ErrorsAreThrownExceptions(call: KtorCall)
    requires Classify(call).Error?
    ensures call.Threw?
    ensures Classify(call).error == call.exception
         || Classify(call).error == HttpRequestTimeoutException(call.exception)
  {
  }
}
