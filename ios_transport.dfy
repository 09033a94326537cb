/**
 * The iOS transport (`TrikotHttpRequest`): a RequestBuilder becomes a
 * Foundation URL request, sent through the shared URL session; the session's
 * completion becomes the single value or error of the request's publisher.
 * The request and its response are written to the log as text.
 *
 * Foundation is an input: whether a string makes a URL is a predicate,
 * the session's exchange is a function from the request to its completion,
 * and the elapsed time is a number handed to the response log.
 */
module IosTransport {
  import opened Http
  import FormEncoding
  import UrlBuilding

  // ---------------------------------------------------------------------
  // Cache policy
  // ---------------------------------------------------------------------

  /** The two Foundation cache policies the mapping produces. */
  datatype NSURLRequestCachePolicy = useProtocolCachePolicy | reloadIgnoringCacheData

  /** `CachePolicy.nsCachePolicy`: only a reload request reloads. */
  function CachePolicyNS(policy: CachePolicy): (ns: NSURLRequestCachePolicy)
    ensures ns == reloadIgnoringCacheData <==> policy == ReloadIgnoringCacheData
  {
    match policy
    case ReloadIgnoringCacheData => reloadIgnoringCacheData
    case _ => useProtocolCachePolicy
  }

  /** The methods whose requests always reload. */
  predicate IsWriteMethod(m: HttpMethod) {
    m == POST || m == PUT || m == DELETE
  }

  /** `RequestBuilder.nsCachePolicy`: POST, PUT and DELETE reload whatever the builder asks. */
  function RequestCachePolicyNS(rb: RequestBuilder): (ns: NSURLRequestCachePolicy)
    ensures IsWriteMethod(rb.httpMethod) ==> ns == reloadIgnoringCacheData
    ensures !IsWriteMethod(rb.httpMethod) ==> ns == CachePolicyNS(rb.cachePolicy)
  {
    match rb.httpMethod
    case POST => reloadIgnoringCacheData
    case PUT => reloadIgnoringCacheData
    case DELETE => reloadIgnoringCacheData
    case _ => CachePolicyNS(rb.cachePolicy)
  }

  /** A request reloads exactly when it writes or asks to reload. */
  lemma ReloadsExactly(rb: RequestBuilder)
    ensures RequestCachePolicyNS(rb) == reloadIgnoringCacheData
        <==> IsWriteMethod(rb.httpMethod) || rb.cachePolicy == ReloadIgnoringCacheData
  {
  }

  /** For a write, the builder's own cache policy has no effect. */
  lemma WritesIgnoreCachePolicy(rb: RequestBuilder, policy: CachePolicy)
    requires IsWriteMethod(rb.httpMethod)
    ensures RequestCachePolicyNS(rb.(cachePolicy := policy)) == RequestCachePolicyNS(rb)
  {
  }

  // ---------------------------------------------------------------------
  // Request assembly
  // ---------------------------------------------------------------------

  /** The URL string: base URL and path, each empty when absent. */
  function URLString(rb: RequestBuilder): (url: string)
    ensures |url| == |rb.baseUrl.GetOr("")| + |rb.path.GetOr("")|
    ensures rb.baseUrl.GetOr("") <= url && url[|rb.baseUrl.GetOr("")|..] == rb.path.GetOr("")
  {
    rb.baseUrl.GetOr("") + rb.path.GetOr("")
  }

  /** The parameters never reach the iOS URL. */
  lemma URLIgnoresParameters(rb: RequestBuilder, parameters: seq<(string, string)>)
    ensures URLString(rb.(parameters := parameters)) == URLString(rb)
  {
  }

  /**
   * Both transports request the same URL when there are no parameters and
   * the base URL is set; without a base URL the Android URL is empty while
   * the iOS URL is the path.
   */
  lemma URLAgreesWithBuildUrl(rb: RequestBuilder)
    requires rb.parameters == []
    ensures rb.baseUrl.GetOr("") != "" ==> URLString(rb) == UrlBuilding.BuildUrl(rb)
    ensures rb.baseUrl.GetOr("") == "" ==> URLString(rb) == rb.path.GetOr("") && UrlBuilding.BuildUrl(rb) == ""
  {
  }

  /** ASCII upper-casing, which is all a method name needs. */
  function UpperChar(c: char): (u: char)
    ensures 'a' <= c <= 'z' ==> u as int == c as int - 32
    ensures !('a' <= c <= 'z') ==> u == c
  {
    if 'a' <= c <= 'z' then (c as int - 32) as char else c
  }

  function Uppercased(s: string): (u: string)
    ensures |u| == |s| && forall i :: 0 <= i < |s| ==> u[i] == UpperChar(s[i])
  {
    if s == [] then [] else [UpperChar(s[0])] + Uppercased(s[1..])
  }

  /**
   * `method.name.uppercased()`. Method names are already upper case, so the
   * request carries the name unchanged.
   */
  function HttpMethodString(m: HttpMethod): (name: string)
    ensures name == MethodName(m)
  {
    var n := MethodName(m);
    assert forall i :: 0 <= i < |n| ==> !('a' <= n[i] <= 'z');
    Uppercased(n)
  }

  /** `httpBody`: a byte array as it is, a string as its UTF-8 bytes, anything else nothing. */
  function HttpBody(body: Body): (b: Option<seq<byte>>)
    ensures b.Some? <==> body.ByteArrayBody? || body.StringBody?
    ensures body.ByteArrayBody? ==> b.value == body.bytes
    ensures body.StringBody? ==> FormEncoding.Utf8Decode(b.value) == Some(body.text)
  {
    match body
    case ByteArrayBody(bytes) => Some(bytes)
    case StringBody(text) =>
      FormEncoding.Utf8RoundTrip(text);
      Some(FormEncoding.Utf8Encode(text))
    case _ => None
  }

  /** A URL request as the session and the log see it. */
  datatype URLRequest = URLRequest(
    url: Option<string>,   // `absoluteString`; None for a request without URL
    cachePolicy: NSURLRequestCachePolicy,
    httpMethod: Option<string>,
    allHTTPHeaderFields: map<string, string>,
    httpBody: Option<seq<byte>>)

  /** The request `execute` sends for a builder whose URL string is valid. */
  function URLRequestFor(rb: RequestBuilder): (r: URLRequest)
    ensures r.url == Some(URLString(rb)) && r.httpMethod == Some(MethodName(rb.httpMethod))
    ensures r.cachePolicy == reloadIgnoringCacheData <==> IsWriteMethod(rb.httpMethod) || rb.cachePolicy == ReloadIgnoringCacheData
    ensures r.allHTTPHeaderFields == rb.headers
    ensures r.httpBody.Some? <==> rb.body.ByteArrayBody? || rb.body.StringBody?
    ensures rb.body.StringBody? ==> FormEncoding.Utf8Decode(r.httpBody.value) == Some(rb.body.text)
  {
    ReloadsExactly(rb);
    URLRequest(Some(URLString(rb)), RequestCachePolicyNS(rb), Some(HttpMethodString(rb.httpMethod)),
               rb.headers, HttpBody(rb.body))
  }

  /** Foundation's mutable request, as `execute` fills it in. */
  class NSMutableURLRequest {
    const url: string
    const cachePolicy: NSURLRequestCachePolicy
    var httpMethod: string
    var allHTTPHeaderFields: map<string, string>
    var httpBody: Option<seq<byte>>

    constructor(url: string, cachePolicy: NSURLRequestCachePolicy)
      ensures this.url == url && this.cachePolicy == cachePolicy
      ensures httpMethod == "GET" && allHTTPHeaderFields == map[] && httpBody == None
    {
      this.url := url;
      this.cachePolicy := cachePolicy;
      httpMethod := "GET";
      allHTTPHeaderFields := map[];
      httpBody := None;
    }

    /** `setValue(_:forHTTPHeaderField:)`. */
    method SetValue(value: string, field: string)
      modifies this
      ensures allHTTPHeaderFields == old(allHTTPHeaderFields)[field := value]
      ensures httpMethod == old(httpMethod) && httpBody == old(httpBody)
    {
      allHTTPHeaderFields := allHTTPHeaderFields[field := value];
    }

    function Snapshot(): URLRequest
      reads this
    {
      URLRequest(Some(url), cachePolicy, Some(httpMethod), allHTTPHeaderFields, httpBody)
    }
  }

  // ---------------------------------------------------------------------
  // Completion
  // ---------------------------------------------------------------------

  datatype URLResponse =
    | HTTPURLResponse(statusCode: int, allHeaderFields: Option<map<string, string>>)  // None: not all strings
    | OtherURLResponse

  /** What the session's completion handler receives; the error as its localized description. */
  datatype Completion = Completion(data: Option<seq<byte>>, urlResponse: Option<URLResponse>, error: Option<string>)

  /** What the request's publisher ends with. */
  datatype IosResult =
    | ResponseValue(data: Option<seq<byte>>, urlResponse: Option<URLResponse>)   // a TrikotHttpResponse
    | ErrorValue(error: Throwable)

  const InvalidUrlMessage: string := "Unable to create a valid URL"

  /** The completion handler: an error wins; otherwise the response is a value, whatever its status. */
  function Complete(c: Completion): (r: IosResult)
    ensures r.ErrorValue? <==> c.error.Some?
    ensures c.error.Some? ==> r.error == Exception(c.error.value)
    ensures c.error.None? ==> r.data == c.data && r.urlResponse == c.urlResponse
  {
    match c.error
    case Some(description) => ErrorValue(Exception(description))
    case None => ResponseValue(c.data, c.urlResponse)
  }

  /** The status code never decides between value and error. */
  lemma StatusNeverAnError(data: Option<seq<byte>>, statusCode: int, headers: Option<map<string, string>>)
    ensures Complete(Completion(data, Some(HTTPURLResponse(statusCode, headers)), None)).ResponseValue?
  {
  }

  // ---------------------------------------------------------------------
  // Log text
  // ---------------------------------------------------------------------

  /** The levels of `TrikotHttpLogLevel` the log tells apart; `basic` stands for every other level. */
  datatype TrikotHttpLogLevel = none | basic | verbose

  /** Decimal text of an integer, as string interpolation writes it. */
  function IntToString(n: int): string {
    if n < 0 then "-" + NatToString(-n) else NatToString(n)
  }

  function NatToString(n: nat): (s: string)
    ensures |s| >= 1 && forall i :: 0 <= i < |s| ==> '0' <= s[i] <= '9'
    decreases n
  {
    if n < 10 then [DigitChar(n)] else NatToString(n / 10) + [DigitChar(n % 10)]
  }

  function DigitChar(d: int): (c: char)
    requires 0 <= d < 10
    ensures '0' <= c <= '9' && c as int - '0' as int == d
  {
    ('0' as int + d) as char
  }

  /** The reading of a decimal numeral, the reference `NatToString` is checked against. */
  function ParseNat(s: string): nat
    requires forall i :: 0 <= i < |s| ==> '0' <= s[i] <= '9'
  {
    if s == [] then 0 else ParseNat(s[..|s| - 1]) * 10 + (s[|s| - 1] as int - '0' as int)
  }

  lemma {:induction false} NatToStringRoundTrip(n: nat)
    ensures ParseNat(NatToString(n)) == n
    decreases n
  {
    if n >= 10 {
      var s := NatToString(n);
      assert s[..|s| - 1] == NatToString(n / 10);
      NatToStringRoundTrip(n / 10);
    }
  }

  function HeaderLine(key: string, value: string): string {
    "  " + key + ": " + value + "\n"
  }

  /** `order` lists every key of `keys` exactly once. */
  predicate IsEnumeration(order: seq<string>, keys: set<string>) {
    && (forall i :: 0 <= i < |order| ==> order[i] in keys)
    && (forall k :: k in keys ==> k in order)
    && (forall i, j :: 0 <= i < j < |order| ==> order[i] != order[j])
  }

  /** One line per header, in the dictionary's iteration order `order`. */
  function HeaderLines(headers: map<string, string>, order: seq<string>): string
    requires forall i :: 0 <= i < |order| ==> order[i] in headers
  {
    if order == [] then "" else HeaderLine(order[0], headers[order[0]]) + HeaderLines(headers, order[1..])
  }

  lemma {:induction false} HeaderLinesSnoc(headers: map<string, string>, order: seq<string>, k: string)
    requires forall i :: 0 <= i < |order| ==> order[i] in headers
    requires k in headers
    ensures HeaderLines(headers, order + [k]) == HeaderLines(headers, order) + HeaderLine(k, headers[k])
  {
    if order != [] {
      assert (order + [k])[1..] == order[1..] + [k];
      HeaderLinesSnoc(headers, order[1..], k);
    } else {
      assert order + [k] == [k];
    }
  }

  /** The lines of `order` split around the line of its `i`-th key. */
  lemma {:induction false} HeaderLinesAround(headers: map<string, string>, order: seq<string>, i: int)
    requires forall j :: 0 <= j < |order| ==> order[j] in headers
    requires 0 <= i < |order|
    ensures HeaderLines(headers, order)
         == HeaderLines(headers, order[..i]) + HeaderLine(order[i], headers[order[i]]) + HeaderLines(headers, order[i + 1..])
  {
    if i > 0 {
      HeaderLinesAround(headers, order[1..], i - 1);
      assert order[1..][..i - 1] == order[1..i];
      assert order[1..][i - 1 + 1..] == order[i + 1..];
      assert order[..i][1..] == order[1..i];
    } else {
      assert order[..0] == [];
    }
  }

  function HeadersSection(headers: map<string, string>, order: seq<string>): string
    requires IsEnumeration(order, headers.Keys)
  {
    if |headers| == 0 then "" else "Headers:\n" + HeaderLines(headers, order)
  }

  function BodySection(body: Option<seq<byte>>): string {
    match body
    case None => ""
    case Some(bytes) => "Body:\n" + FormEncoding.Utf8Decode(bytes).GetOr("<invalid body format>") + "\n"
  }

  /** The first lines of the request log: the tag and `METHOD url`. */
  function RequestLogHead(r: URLRequest): string {
    "<Http Request>\n" + r.httpMethod.GetOr("GET") + " " + r.url.GetOr("<invalid url>") + "\n"
  }

  /** What only the verbose level adds: the headers, when there are any, and the body, when there is one. */
  function RequestLogDetails(level: TrikotHttpLogLevel, r: URLRequest, order: seq<string>): string
    requires IsEnumeration(order, r.allHTTPHeaderFields.Keys)
  {
    if level == verbose then HeadersSection(r.allHTTPHeaderFields, order) + BodySection(r.httpBody) else ""
  }

  /** The `logRequest` text for the request, when the level logs anything. */
  function RequestLogText(level: TrikotHttpLogLevel, r: URLRequest, order: seq<string>): (text: Option<string>)
    requires IsEnumeration(order, r.allHTTPHeaderFields.Keys)
    ensures text.None? <==> level == none
    ensures text.Some? ==> RequestLogHead(r) <= text.value
    ensures text.Some? ==> |text.value| >= 15 && text.value[|text.value| - 15..] == "</Http Request>"
  {
    if level == none then None
    else Some(RequestLogHead(r) + RequestLogDetails(level, r, order) + "</Http Request>")
  }

  /** The headers of an HTTP response whose header fields are all strings; no headers otherwise. */
  function ResponseHeaders(urlResponse: Option<URLResponse>): map<string, string> {
    match urlResponse
    case Some(HTTPURLResponse(_, Some(headers))) => headers
    case _ => map[]
  }

  /** The first lines of the response log: the tag, the URL and the duration. */
  function ResponseLogHead(url: Option<string>, durationMs: int): string {
    "<Http Reponse>\n" + url.GetOr("<invalid url>") + "\n" + "Duration: " + IntToString(durationMs) + "ms\n"
  }

  /** The error line; or, for an HTTP response, the status line and, when verbose, headers and body. */
  function ResponseLogOutcome(level: TrikotHttpLogLevel, c: Completion, order: seq<string>): string
    requires IsEnumeration(order, ResponseHeaders(c.urlResponse).Keys)
  {
    match c.error
    case Some(description) => "Error: " + description + "\n"
    case None =>
      match c.urlResponse
      case Some(HTTPURLResponse(statusCode, _)) =>
        "Status Code: " + IntToString(statusCode) + "\n"
        + (if level == verbose then HeadersSection(ResponseHeaders(c.urlResponse), order) + BodySection(c.data) else "")
      case _ => ""
  }

  /** The `logResponse` text. It is written at every level, `none` included. */
  function ResponseLogText(level: TrikotHttpLogLevel, url: Option<string>, c: Completion, durationMs: int,
                           order: seq<string>): (text: string)
    requires IsEnumeration(order, ResponseHeaders(c.urlResponse).Keys)
    ensures ResponseLogHead(url, durationMs) <= text
    ensures |text| >= 15 && text[|text| - 15..] == "</Http Reponse>"
  {
    ResponseLogHead(url, durationMs) + ResponseLogOutcome(level, c, order) + "</Http Reponse>"
  }

  /** Writes one line per header after `log`, in the order the dictionary yields its keys. */
  method AppendHeaderLines(log: string, headers: map<string, string>) returns (out: string, ghost order: seq<string>)
    ensures IsEnumeration(order, headers.Keys)
    ensures out == log + HeaderLines(headers, order)
    ensures log <= out
    ensures |headers| == 0 <==> out == log
  {
    out, order := log, [];
    var todo := headers.Keys;
    while todo != {}
      invariant todo <= headers.Keys
      invariant forall i :: 0 <= i < |order| ==> order[i] in headers.Keys - todo
      invariant forall k :: k in headers.Keys - todo ==> k in order
      invariant forall i, j :: 0 <= i < j < |order| ==> order[i] != order[j]
      invariant out == log + HeaderLines(headers, order)
      decreases todo
    {
      var k :| k in todo;
      HeaderLinesSnoc(headers, order, k);
      out := out + HeaderLine(k, headers[k]);
      order := order + [k];
      todo := todo - {k};
    }
  }

  /** The headers section of a log, written after `log`: nothing when there are no headers. */
  method AppendHeadersSection(log: string, headers: map<string, string>) returns (out: string, ghost order: seq<string>)
    ensures IsEnumeration(order, headers.Keys)
    ensures out == log + HeadersSection(headers, order)
    ensures log + "Headers:\n" <= out || (|headers| == 0 && out == log)
  {
    if |headers| == 0 {
      order := EnumerationOf(headers.Keys);
      out := log;
      assert log + "" == log;
    } else {
      out := log + "Headers:\n";
      out, order := AppendHeaderLines(out, headers);
      UrlBuilding.AppendAssoc(log, "Headers:\n", HeaderLines(headers, order));
    }
  }

  /** The body section of a log, written after `log`: nothing when there is no body. */
  method AppendBodySection(log: string, body: Option<seq<byte>>) returns (out: string)
    ensures out == log + BodySection(body)
  {
    out := log;
    if body.Some? {
      var decoded := FormEncoding.Utf8Decode(body.value).GetOr("<invalid body format>");
      out := out + "Body:\n";
      out := out + decoded + "\n";
      UrlBuilding.AppendAssoc(log, "Body:\n", decoded);
      UrlBuilding.AppendAssoc(log, "Body:\n" + decoded, "\n");
    } else {
      assert log + "" == log;
    }
  }

  /** `TrikotHttpRequest`: one request and the level it logs at. */
  class TrikotHttpRequest {
    const requestBuilder: RequestBuilder
    const httpLogLevel: TrikotHttpLogLevel

    constructor(requestBuilder: RequestBuilder, httpLogLevel: TrikotHttpLogLevel)
      ensures this.requestBuilder == requestBuilder && this.httpLogLevel == httpLogLevel
    {
      this.requestBuilder := requestBuilder;
      this.httpLogLevel := httpLogLevel;
    }

    method LogRequest(request: URLRequest) returns (log: Option<string>, ghost order: seq<string>)
      ensures IsEnumeration(order, request.allHTTPHeaderFields.Keys)
      ensures log == RequestLogText(httpLogLevel, request, order)
      ensures log.None? <==> httpLogLevel == none
      ensures httpLogLevel == basic ==> log == Some(RequestLogHead(request) + "</Http Request>")
    {
      var headers := request.allHTTPHeaderFields;
      order := EnumerationOf(headers.Keys);
      if httpLogLevel == none {
        return None, order;
      }
      var text := "<Http Request>\n";
      text := text + request.httpMethod.GetOr("GET") + " " + request.url.GetOr("<invalid url>") + "\n";
      ghost var head := text;
      if httpLogLevel == verbose {
        text, order := AppendHeadersSection(text, headers);
        ghost var withHeaders := text;
        text := AppendBodySection(text, request.httpBody);
        UrlBuilding.AppendAssoc(head, HeadersSection(headers, order), BodySection(request.httpBody));
      } else {
        assert text == head + "";
      }
      text := text + "</Http Request>";
      log := Some(text);
    }

    method LogResponse(request: URLRequest, c: Completion, durationMs: int) returns (log: string, ghost order: seq<string>)
      ensures IsEnumeration(order, ResponseHeaders(c.urlResponse).Keys)
      ensures log == ResponseLogText(httpLogLevel, request.url, c, durationMs, order)
      ensures ResponseLogHead(request.url, durationMs) <= log
      ensures c.error.Some? ==>
        log == ResponseLogHead(request.url, durationMs) + ("Error: " + c.error.value + "\n") + "</Http Reponse>"
    {
      var headers := ResponseHeaders(c.urlResponse);
      order := EnumerationOf(headers.Keys);
      var text := "<Http Reponse>\n";
      text := text + request.url.GetOr("<invalid url>") + "\n";
      text := text + "Duration: " + IntToString(durationMs) + "ms\n";
      ghost var head := text;
      if c.error.Some? {
        text := text + "Error: " + c.error.value + "\n";
        UrlBuilding.AppendAssoc(head, "Error: " + c.error.value, "\n");
        UrlBuilding.AppendAssoc(head, "Error: ", c.error.value);
      } else if c.urlResponse.Some? && c.urlResponse.value.HTTPURLResponse? {
        text := text + "Status Code: " + IntToString(c.urlResponse.value.statusCode) + "\n";
        ghost var status := "Status Code: " + IntToString(c.urlResponse.value.statusCode) + "\n";
        UrlBuilding.AppendAssoc(head, "Status Code: " + IntToString(c.urlResponse.value.statusCode), "\n");
        UrlBuilding.AppendAssoc(head, "Status Code: ", IntToString(c.urlResponse.value.statusCode));
        assert text == head + status;
        if httpLogLevel == verbose {
          text, order := AppendHeadersSection(text, headers);
          text := AppendBodySection(text, c.data);
          UrlBuilding.AppendAssoc(head + status, HeadersSection(headers, order), BodySection(c.data));
          UrlBuilding.AppendAssoc(head, status, HeadersSection(headers, order) + BodySection(c.data));
        } else {
          assert text == head + (status + "");
        }
      } else {
        assert text == head + "";
      }
      assert text == head + ResponseLogOutcome(httpLogLevel, c, order);
      text := text + "</Http Reponse>";
      log := text;
    }

    /**
     * `execute`: build the request, log it, hand it to the session and turn
     * the completion into the result, logging the response first. `logs`
     * are the texts printed, in order.
     */
    method Execute(isValidUrl: string -> bool, session: URLRequest -> Completion, durationMs: int)
      returns (sent: Option<URLRequest>, result: IosResult, logs: seq<string>,
               ghost requestOrder: seq<string>, ghost responseOrder: seq<string>)
      ensures !isValidUrl(URLString(requestBuilder)) ==>
        sent == None && result == ErrorValue(Exception(InvalidUrlMessage)) && logs == []
      ensures isValidUrl(URLString(requestBuilder)) ==>
        var request := URLRequestFor(requestBuilder);
        var completion := session(request);
        && sent == Some(request)
        && result == Complete(completion)
        && IsEnumeration(requestOrder, request.allHTTPHeaderFields.Keys)
        && IsEnumeration(responseOrder, ResponseHeaders(completion.urlResponse).Keys)
        && logs == (match RequestLogText(httpLogLevel, request, requestOrder)
                    case Some(text) => [text]
                    case None => [])
                   + [ResponseLogText(httpLogLevel, request.url, completion, durationMs, responseOrder)]
    {
      requestOrder, responseOrder := [], [];
      var url := URLString(requestBuilder);
      if !isValidUrl(url) {
        return None, ErrorValue(Exception(InvalidUrlMessage)), [], requestOrder, responseOrder;
      }
      var urlRequest := new NSMutableURLRequest(url, RequestCachePolicyNS(requestBuilder));
      urlRequest.httpMethod := HttpMethodString(requestBuilder.httpMethod);
      var all := requestBuilder.headers;
      var todo := all.Keys;
      assert all - todo == map[];
      while todo != {}
        invariant todo <= all.Keys
        invariant urlRequest.allHTTPHeaderFields == all - todo
        invariant urlRequest.httpMethod == HttpMethodString(requestBuilder.httpMethod)
        invariant urlRequest.httpBody == None
        decreases todo
      {
        var k :| k in todo;
        assert all - (todo - {k}) == (all - todo)[k := all[k]];
        urlRequest.SetValue(all[k], k);
        todo := todo - {k};
      }
      assert all - todo == all;
      match requestBuilder.body {
        case ByteArrayBody(bytes) => urlRequest.httpBody := Some(bytes);
        case StringBody(text) => urlRequest.httpBody := Some(FormEncoding.Utf8Encode(text));
        case _ =>
      }
      var request := urlRequest.Snapshot();
      assert request == URLRequestFor(requestBuilder);
      var requestLog;
      requestLog, requestOrder := LogRequest(request);
      logs := if requestLog.Some? then [requestLog.value] else [];
      var completion := session(request);
      var responseLog;
      responseLog, responseOrder := LogResponse(request, completion, durationMs);
      logs := logs + [responseLog];
      result := Complete(completion);
      sent := Some(request);
    }
  }

  /** Some enumeration of a finite set of keys. */
  ghost function EnumerationOf(keys: set<string>): (order: seq<string>)
    ensures IsEnumeration(order, keys)
    decreases keys
  {
    if keys == {} then []
    else
      var k :| k in keys;
      var rest := EnumerationOf(keys - {k});
      assert forall i :: 0 <= i < |rest| ==> rest[i] != k;
      [k] + rest
  }

  // ---------------------------------------------------------------------
  // Properties of the log text
  // ---------------------------------------------------------------------

  /** `t` occurs in `s`. */
  ghost predicate Contains(s: string, t: string) {
    exists a: string, b: string {:trigger a + t + b} :: s == a + t + b
  }

  /** Below `verbose`, the request log shows neither headers nor body. */
  lemma BasicRequestLogOmitsHeadersAndBody(r: URLRequest, order: seq<string>)
    requires IsEnumeration(order, r.allHTTPHeaderFields.Keys)
    ensures RequestLogText(basic, r, order) == Some(RequestLogHead(r) + "</Http Request>")
  {
    assert RequestLogHead(r) + "" == RequestLogHead(r);
  }

  /** A verbose log of a request with no headers and no body is the basic one. */
  lemma VerboseWithoutHeadersOrBody(r: URLRequest, order: seq<string>)
    requires r.allHTTPHeaderFields == map[] && r.httpBody == None
    requires IsEnumeration(order, r.allHTTPHeaderFields.Keys)
    ensures RequestLogText(verbose, r, order) == RequestLogText(basic, r, order)
  {
    assert HeadersSection(r.allHTTPHeaderFields, order) + BodySection(r.httpBody) == "";
  }

  lemma ContainsAppend(x: string, y: string, t: string)
    requires Contains(y, t)
    ensures Contains(x + y, t) && Contains(y + x, t)
  {
    var a: string, b: string :| y == a + t + b;
    assert x + y == (x + a) + t + b;
    assert y + x == a + t + (b + x);
  }

  /** A verbose request log has a line for every header, with its value. */
  lemma VerboseRequestLogShowsEveryHeader(r: URLRequest, order: seq<string>, key: string)
    requires IsEnumeration(order, r.allHTTPHeaderFields.Keys)
    requires key in r.allHTTPHeaderFields
    ensures Contains(RequestLogText(verbose, r, order).value, HeaderLine(key, r.allHTTPHeaderFields[key]))
  {
    var headers := r.allHTTPHeaderFields;
    var i :| 0 <= i < |order| && order[i] == key;
    HeaderLinesAround(headers, order, i);
    var line := HeaderLine(key, headers[key]);
    var lines := HeaderLines(headers, order);
    assert Contains(lines, line);
    assert |headers| != 0;
    var section := HeadersSection(headers, order);
    ContainsAppend("Headers:\n", lines, line);
    assert section == "Headers:\n" + lines;
    var details := RequestLogDetails(verbose, r, order);
    ContainsAppend(BodySection(r.httpBody), section, line);
    assert details == section + BodySection(r.httpBody);
    ContainsAppend(RequestLogHead(r), details, line);
    ContainsAppend("</Http Request>", RequestLogHead(r) + details, line);
  }

  /** A request without a method is logged as a GET. */
  lemma RequestLogMethodDefaultsToGet(r: URLRequest)
    requires r.httpMethod == None
    ensures RequestLogHead(r) == RequestLogHead(r.(httpMethod := Some("GET")))
  {
  }

  /** An error replaces the status and everything after it, at every level. */
  lemma ErrorReplacesStatus(level: TrikotHttpLogLevel, url: Option<string>, c: Completion, durationMs: int,
                            order: seq<string>)
    requires c.error.Some?
    requires IsEnumeration(order, ResponseHeaders(c.urlResponse).Keys)
    ensures ResponseLogText(level, url, c, durationMs, order)
         == ResponseLogHead(url, durationMs) + "Error: " + c.error.value + "\n" + "</Http Reponse>"
  {
    assert ResponseLogOutcome(level, c, order) == "Error: " + c.error.value + "\n";
  }

  /** Below `verbose`, the response log of an HTTP response shows only its status. */
  lemma BasicResponseLogShowsStatusOnly(level: TrikotHttpLogLevel, url: Option<string>, data: Option<seq<byte>>,
                                        statusCode: int, headers: Option<map<string, string>>, durationMs: int,
                                        order: seq<string>)
    requires level != verbose
    requires IsEnumeration(order, ResponseHeaders(Some(HTTPURLResponse(statusCode, headers))).Keys)
    ensures ResponseLogText(level, url, Completion(data, Some(HTTPURLResponse(statusCode, headers)), None), durationMs, order)
         == ResponseLogHead(url, durationMs) + "Status Code: " + IntToString(statusCode) + "\n" + "</Http Reponse>"
  {
    var status := "Status Code: " + IntToString(statusCode) + "\n";
    assert status + "" == status;
  }

  /** The response log has no line about a response that is not an HTTP response. */
  lemma NonHttpResponseHasNoStatus(level: TrikotHttpLogLevel, url: Option<string>, c: Completion, durationMs: int)
    requires c.error.None? && (c.urlResponse.None? || c.urlResponse.value.OtherURLResponse?)
    ensures ResponseLogText(level, url, c, durationMs, []) == ResponseLogHead(url, durationMs) + "</Http Reponse>"
  {
    assert ResponseLogHead(url, durationMs) + "" == ResponseLogHead(url, durationMs);
  }
}
