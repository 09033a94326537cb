# trikot.http: a verified model of the request pipeline

trikot.http is a cross-platform HTTP layer. A caller describes a request as a
`RequestBuilder`. `HttpRequestPublisher` asks a header provider for headers and
merges them into a fresh builder. It then executes the request through the
platform transport and turns the outcome into exactly one success or error.
The Android transport uses Ktor (`KtorHttpRequestFactory`) and the iOS
transport uses Foundation (`TrikotHttpRequest`). Process-wide defaults live in
`HttpConfiguration`.

The project models the following, one module per source file:

- `Http` (`http.dfy`): the shared types.
- `FormEncoding` (`form_encoding.dfy`): the form-urlencoded serializer behind `buildUrl`.
- `UrlBuilding` (`url_building.dfy`): `RequestBuilder.buildUrl`, as `RequestBuilderTest.kt` pins it down, with one lemma per test.
- `RequestPublisher` (`request_publisher.dfy`): `HttpRequestPublisher.kt`, as a trace-recording class and its specification function.
- `KtorRequestFactory` (`ktor_request_factory.dfy`): `KtorHttpRequestFactory.kt`, as pure mappings plus classes for the mutable Ktor request builder.
- `IosTransport` (`ios_transport.dfy`): `TrikotHttpRequest.swift`, as pure mappings plus classes for `NSMutableURLRequest` and the log writers.
- `Configuration` (`http_configuration.dfy`): `HttpConfiguration.kt`, as a class of five atomic references.

Notes on the modelling:

- **`buildUrl`.** Its source is not part of this model. `UrlBuilding.BuildUrl` models `buildUrl` as follows:
  - The base URL and the path are concatenated.
  - An empty base URL gives `""`.
  - The parameters follow in insertion order, after `?`, or after `&` when the path already holds a `?`.
  - Names and values are encoded with the application/x-www-form-urlencoded byte serializer of section 5.2 of the WHATWG URL Standard, applied to UTF-8 (RFC 3629).

  The tests in `RequestBuilderTest.kt` fix only five cases:
  - base and path;
  - base alone;
  - a default builder;
  - three parameters;
  - a path with a query.

  Four of these rules are assumptions of the model, and no test fixes them:
  - an empty base URL with a path or parameters;
  - encoding of parameter names, which are all unreserved in the tests;
  - characters other than ASCII letters, space and `{ } " : [ ] ,`;
  - the choice of `&` over `?`, which looks for a `?` in the path only. A `?` in the base URL is not looked at, so base `https://x.com/api?k=v`, no path and one parameter give `https://x.com/api?k=v?p=v`. The tests put the `?` only in the path.

  The query is proved against the standard's parser, which reads the query back to the same parameters.
- **Orchestrator.** `internalRun` becomes `HttpRequestPublisher.InternalRun`. It records every side effect of the callback chain in order:
  - the header request;
  - the executed request;
  - `processHttpError`;
  - the arrival of the connectivity state;
  - `dispatchSuccess` and `dispatchError`.

  The asynchronous inputs become values:
  - the header provider's stream is the sequence of its emissions, of which `first()` keeps the head;
  - the transport's publisher is a function from request to outcome;
  - the connectivity publisher is its first value, if it has one.

  A stream that ends without emitting leaves the run without a result. So does a connectivity publisher without a value.
- **Merged builder.** The merged builder is a fresh `RequestBuilder()`. The caller's `parameters` and `cachePolicy` therefore never reach the request that is executed. `MergeDropsParametersAndCachePolicy` states this.
- **Content-Type on Android.** The check that holds `Content-Type` back uses exact string equality, so a header spelled `content-type` is forwarded as a plain header (`ContentTypeMatchIsCaseSensitive`).
- **Response log tag.** The response log's tag is written `<Http Reponse>`, exactly as the source has it.
- **Setters.** The Kotlin setters read a slot and immediately call `setOrThrow` with that value as the expected one. In a sequential run the compare-and-set therefore always succeeds. Every setter asserts this. A configure-once guard that rejects a second, different value would be stronger than the code. The code instead accepts any later value, and the model follows the code (`LastWriteWins`, `SetBaseUrlTwice`).
- **Dictionary order.** Swift iterates dictionaries in an unspecified order. The log writers therefore return, as a ghost output, the key order they used. Their text is specified for that order, and the lemmas hold for every order.

## Model

| member | source | states |
|---|---|---|
| `FormEncoding.Utf8RoundTrip` | http/src/commonTest/kotlin/com/mirego/trikot/http/RequestBuilderTest.kt:49-54 | Decoding the UTF-8 bytes of any string gives the string back. |
| `FormEncoding.FormEncode` | http/src/commonTest/kotlin/com/mirego/trikot/http/RequestBuilderTest.kt:46-57 | The encoding of a name or value holds only `+`, `%` and unreserved characters, and the form-urlencoded parser reads it back to the original string. |
| `FormEncoding.FormRoundTrip` | http/src/commonTest/kotlin/com/mirego/trikot/http/RequestBuilderTest.kt:46-54 | The form-urlencoded parse of an encoded string is that string, for every string. |
| `FormEncoding.FormEncodeSafe` | http/src/commonTest/kotlin/com/mirego/trikot/http/RequestBuilderTest.kt:49-54 | An encoded string contains only `+`, `%` and unreserved characters, so never `&`, `=` or `?`. |
| `FormEncoding.FormEncodeAppend` | http/src/commonTest/kotlin/com/mirego/trikot/http/RequestBuilderTest.kt:49-54 | Encoding distributes over concatenation. |
| `FormEncoding.FormEncodeChar` | http/src/commonTest/kotlin/com/mirego/trikot/http/RequestBuilderTest.kt:48-54 | An ASCII space becomes `+`. Letters, digits and `*-._` stay as they are. Every other ASCII character becomes `%` and two upper-case hex digits. |
| `FormEncoding.FormEncodeUnreserved` | http/src/commonTest/kotlin/com/mirego/trikot/http/RequestBuilderTest.kt:47 | A string of unreserved characters encodes to itself. |
| `UrlBuilding.QueryRoundTrip` | http/src/commonTest/kotlin/com/mirego/trikot/http/RequestBuilderTest.kt:42-57 | Parsing the query gives back every parameter list, in insertion order, the empty list included. |
| `UrlBuilding.BuildUrl` | http/src/commonTest/kotlin/com/mirego/trikot/http/RequestBuilderTest.kt:14-70 | The URL is empty exactly when there is no base URL. Otherwise it starts with base URL + path, and it extends beyond them exactly when there are parameters. The separator and query are stated by `WithParameters`. |
| `UrlBuilding.EmptyBaseUrl` | http/src/commonTest/kotlin/com/mirego/trikot/http/RequestBuilderTest.kt:35-39 | With no base URL the URL is `""`. The test fixes this for a default builder only. That it holds whatever the path and parameters is an assumption of the model, not a tested fact. |
| `UrlBuilding.NoParameters` | http/src/commonTest/kotlin/com/mirego/trikot/http/RequestBuilderTest.kt:14-32 | Without parameters the URL is exactly base URL + path, with no `?`. |
| `UrlBuilding.WithParameters` | http/src/commonTest/kotlin/com/mirego/trikot/http/RequestBuilderTest.kt:42-69 | With parameters, the URL is base URL + path, then `?` (or `&` when the path already has a `?`), then a query that parses back to the parameters. |
| `UrlBuilding.TestBuildUrl` | http/src/commonTest/kotlin/com/mirego/trikot/http/RequestBuilderTest.kt:14-22 | `testBuildUrl`: the URL is `https://www.url.com/api`. |
| `UrlBuilding.GivenEmptyPathReturnsBaseUrl` | http/src/commonTest/kotlin/com/mirego/trikot/http/RequestBuilderTest.kt:25-32 | With no path, the URL is the base URL. |
| `UrlBuilding.GivenEmptyBaseUrlAndPathReturnsEmptyString` | http/src/commonTest/kotlin/com/mirego/trikot/http/RequestBuilderTest.kt:35-39 | A default builder gives `""`. |
| `UrlBuilding.GivenParametersReturnsUrlWithEncodedParameters` | http/src/commonTest/kotlin/com/mirego/trikot/http/RequestBuilderTest.kt:42-57 | The three parameters, including the JSON value, give exactly the expected URL. |
| `UrlBuilding.GivenPathWithQueryAppendsParameters` | http/src/commonTest/kotlin/com/mirego/trikot/http/RequestBuilderTest.kt:59-70 | A path holding `?foo=bar` gets `&param=value+1` appended. |
| `RequestPublisher.MergeBuilderWithHeaders` | http/src/commonMain/kotlin/com/mirego/trikot/http/requestPublisher/HttpRequestPublisher.kt:83-92 | The merged builder copies base URL, path, body, method and timeout, and has default parameters and cache policy. Its header keys are the union of both key sets: the provider's values win, and caller-only keys keep their values. |
| `RequestPublisher.MergeDropsParametersAndCachePolicy` | http/src/commonMain/kotlin/com/mirego/trikot/http/requestPublisher/HttpRequestPublisher.kt:84-91 | Two builders that differ only in parameters or cache policy merge to the same request. |
| `RequestPublisher.MergeIdempotent` | http/src/commonMain/kotlin/com/mirego/trikot/http/requestPublisher/HttpRequestPublisher.kt:88 | Merging the same provider headers a second time changes nothing. |
| `RequestPublisher.ConnectivityError` | http/src/commonMain/kotlin/com/mirego/trikot/http/requestPublisher/HttpRequestPublisher.kt:56-61 | The error is wrapped in `HttpResponseNoInternetConnectionException` exactly when the state is `NONE`. Otherwise it is the source error itself. |
| `RequestPublisher.HttpRequestPublisher.constructor` | http/src/commonMain/kotlin/com/mirego/trikot/http/requestPublisher/HttpRequestPublisher.kt:19-29 | A new publisher keeps its builder, transform, header provider and request factory, and has an empty trace. |
| `RequestPublisher.RunEvents` | http/src/commonMain/kotlin/com/mirego/trikot/http/requestPublisher/HttpRequestPublisher.kt:32-73 | The reference trace of one run: it starts with the header request and has at most five events. It is that one event exactly when the header stream ends without emitting, and its second event is an executed request exactly when the first emission is a header value. |
| `RequestPublisher.HttpRequestPublisher.InternalRun` | http/src/commonMain/kotlin/com/mirego/trikot/http/requestPublisher/HttpRequestPublisher.kt:32-73 | The run appends to the trace exactly the events that `RunEvents` specifies for the publisher's inputs. |
| `RequestPublisher.RunStartsWithHeaderRequest` | http/src/commonMain/kotlin/com/mirego/trikot/http/requestPublisher/HttpRequestPublisher.kt:33 | Every run starts by asking the header provider, with the caller's builder. |
| `RequestPublisher.OnlyFirstHeaderEmissionUsed` | http/src/commonMain/kotlin/com/mirego/trikot/http/requestPublisher/HttpRequestPublisher.kt:35 | Header emissions after the first change nothing. |
| `RequestPublisher.HeaderErrorIsTerminal` | http/src/commonMain/kotlin/com/mirego/trikot/http/requestPublisher/HttpRequestPublisher.kt:69-71 | A header error is dispatched unchanged and no request is executed. |
| `RequestPublisher.OneRequestPerHeaderValue` | http/src/commonMain/kotlin/com/mirego/trikot/http/requestPublisher/HttpRequestPublisher.kt:37-40 | A header value leads to exactly one executed request, and that request is the merged builder. |
| `RequestPublisher.ResponseOutcome` | http/src/commonMain/kotlin/com/mirego/trikot/http/requestPublisher/HttpRequestPublisher.kt:42-49 | A response ends the run with `processResponse`'s value, or with the `Exception` it throws. A throwable that is not an `Exception` ends it with an uncaught error and no dispatch. |
| `RequestPublisher.UncaughtErrorNoResult` | http/src/commonMain/kotlin/com/mirego/trikot/http/requestPublisher/HttpRequestPublisher.kt:43-49 | `catch (e: Exception)` does not catch a throwable that is not an `Exception`. Such a throwable from `processResponse` escapes: the trace ends with it, and nothing is dispatched. |
| `RequestPublisher.TransportErrorOutcome` | http/src/commonMain/kotlin/com/mirego/trikot/http/requestPublisher/HttpRequestPublisher.kt:51-64 | A transport error first reaches `processHttpError`, with the merged builder and the raw error. Only then is the connectivity state read. The error dispatched is wrapped exactly when the state is `NONE`, and is the raw error otherwise. |
| `RequestPublisher.NoConnectivityNoResult` | http/src/commonMain/kotlin/com/mirego/trikot/http/requestPublisher/HttpRequestPublisher.kt:54-55 | After a transport error, a connectivity publisher that never emits means no result is dispatched. |
| `RequestPublisher.AtMostOneResult` | http/src/commonMain/kotlin/com/mirego/trikot/http/requestPublisher/HttpRequestPublisher.kt:35-72 | A run dispatches at most one result, and only as its last event. It dispatches exactly one when it completes: the header stream emits, `processResponse` throws nothing but an `Exception`, and after a transport error a connectivity value arrives. |
| `KtorRequestFactory.KtorMethodOf` | http/src/androidMain/kotlin/com/mirego/trikot/http/android/requestFactory/KtorHttpRequestFactory.kt:146-154 | Each method maps to the Ktor method whose wire name is the same. |
| `KtorRequestFactory.KtorMethodInjective` | http/src/androidMain/kotlin/com/mirego/trikot/http/android/requestFactory/KtorHttpRequestFactory.kt:146-154 | Two methods map to the same Ktor method only if they are the same method. |
| `KtorRequestFactory.KtorMethodSurjective` | http/src/androidMain/kotlin/com/mirego/trikot/http/android/requestFactory/KtorHttpRequestFactory.kt:146-154 | Every one of Ktor's six methods is reached. |
| `KtorRequestFactory.Configure` | http/src/androidMain/kotlin/com/mirego/trikot/http/android/requestFactory/KtorHttpRequestFactory.kt:45-67 | The request timeout is 10000 ms unless given. Socket and connect timeouts default to the request timeout. `expectSuccess` is off. |
| `KtorRequestFactory.DefaultTimeouts` | http/src/androidMain/kotlin/com/mirego/trikot/http/android/requestFactory/KtorHttpRequestFactory.kt:45-65 | With no arguments, all three timeouts are 10000 ms. |
| `KtorRequestFactory.RequestTimeoutDrivesTheOthers` | http/src/androidMain/kotlin/com/mirego/trikot/http/android/requestFactory/KtorHttpRequestFactory.kt:52-54 | Giving only a request timeout sets the socket and connect timeouts to it. |
| `KtorRequestFactory.KtorHttpRequestFactory.constructor` | http/src/androidMain/kotlin/com/mirego/trikot/http/android/requestFactory/KtorHttpRequestFactory.kt:48-69 | The factory's client is the one `Configure` produces. |
| `KtorRequestFactory.KtorHttpRequestFactory.Request` | http/src/androidMain/kotlin/com/mirego/trikot/http/android/requestFactory/KtorHttpRequestFactory.kt:71-73 | `request` returns a new request bound to the builder and to the factory's client. |
| `KtorRequestFactory.ForwardedHeaders` | http/src/androidMain/kotlin/com/mirego/trikot/http/android/requestFactory/KtorHttpRequestFactory.kt:89-92 | Every header except `Content-Type` is forwarded with its value, and `Content-Type` is never forwarded. |
| `KtorRequestFactory.ContentTypeMatchIsCaseSensitive` | http/src/androidMain/kotlin/com/mirego/trikot/http/android/requestFactory/KtorHttpRequestFactory.kt:89 | A `content-type` header in lower case is forwarded as a plain header. |
| `KtorRequestFactory.ContentTypeFor` | http/src/androidMain/kotlin/com/mirego/trikot/http/android/requestFactory/KtorHttpRequestFactory.kt:96-103 | The body's media type is the explicit `Content-Type` header if present, and the body kind's default otherwise. |
| `KtorRequestFactory.BodyContent` | http/src/androidMain/kotlin/com/mirego/trikot/http/android/requestFactory/KtorHttpRequestFactory.kt:94-106 | A byte body is sent as-is, defaulting to `application/octet-stream`. A text body defaults to `application/json`. A missing body, or a body of any other type, sends nothing. |
| `KtorRequestFactory.RequestTimeoutMillis` | http/src/androidMain/kotlin/com/mirego/trikot/http/android/requestFactory/KtorHttpRequestFactory.kt:108-112 | A per-request timeout applies exactly when it is positive, as seconds × 1000 ms. |
| `KtorRequestFactory.EffectiveRequestTimeout` | http/src/androidMain/kotlin/com/mirego/trikot/http/android/requestFactory/KtorHttpRequestFactory.kt:108-112 | A positive per-request timeout overrides the client's. Otherwise the client default stays. |
| `KtorRequestFactory.KtorRequestBuilder.Header` | http/src/androidMain/kotlin/com/mirego/trikot/http/android/requestFactory/KtorHttpRequestFactory.kt:91 | `header` sets one header and leaves every other field unchanged. |
| `KtorRequestFactory.KTorCoreHttpRequest.Assemble` | http/src/androidMain/kotlin/com/mirego/trikot/http/android/requestFactory/KtorHttpRequestFactory.kt:86-114 | The request block sets the URL (`buildUrl`), the forwarded headers (one at a time, in a loop), the body, the timeout and the method. |
| `KtorRequestFactory.KTorCoreHttpRequest.Execute` | http/src/androidMain/kotlin/com/mirego/trikot/http/android/requestFactory/KtorHttpRequestFactory.kt:81-134 | The outcome is the classification of what the client returns for the assembled request. |
| `KtorRequestFactory.ContentTypeTravelsWithBody` | http/src/androidMain/kotlin/com/mirego/trikot/http/android/requestFactory/KtorHttpRequestFactory.kt:89-106 | An explicit `Content-Type` is never a plain header. It labels a byte or text body, and is not sent without one. |
| `KtorRequestFactory.ToMap` | http/src/androidMain/kotlin/com/mirego/trikot/http/android/requestFactory/KtorHttpRequestFactory.kt:141 | The header map has every flattened header name, and for a repeated name the last value wins. |
| `KtorRequestFactory.KTorHttpResponse` | http/src/androidMain/kotlin/com/mirego/trikot/http/android/requestFactory/KtorHttpRequestFactory.kt:137-143 | The response carries the status value, the bytes and the header map, and its source is always `UNKNOWN`. |
| `KtorRequestFactory.Classify` | http/src/androidMain/kotlin/com/mirego/trikot/http/android/requestFactory/KtorHttpRequestFactory.kt:115-129 | A normal response, or one carried by a `ResponseException`, is a value. A Ktor timeout becomes `HttpRequestTimeoutException(ex)`. Any other exception passes through unchanged. |
| `KtorRequestFactory.StatusNeverAnError` | http/src/androidMain/kotlin/com/mirego/trikot/http/android/requestFactory/KtorHttpRequestFactory.kt:115-118 | Any status, 4xx and 5xx included, is a value with that status. |
| `KtorRequestFactory.ErrorsAreThrownExceptions` | http/src/androidMain/kotlin/com/mirego/trikot/http/android/requestFactory/KtorHttpRequestFactory.kt:119-129 | Every error comes from a thrown exception: either that exception or its timeout wrapper. |
| `IosTransport.CachePolicyNS` | swift-extensions/TrikotHttpRequest.swift:107-113 | Only `reloadIgnoringCacheData` maps to a reloading policy. Every other policy maps to `useProtocolCachePolicy`. |
| `IosTransport.RequestCachePolicyNS` | swift-extensions/TrikotHttpRequest.swift:98-104 | POST, PUT and DELETE always reload. Other methods use the builder's policy. |
| `IosTransport.ReloadsExactly` | swift-extensions/TrikotHttpRequest.swift:99-112 | A request reloads exactly when its method writes or its policy asks to reload. |
| `IosTransport.WritesIgnoreCachePolicy` | swift-extensions/TrikotHttpRequest.swift:101 | For a write, changing the builder's cache policy changes nothing. |
| `IosTransport.URLIgnoresParameters` | swift-extensions/TrikotHttpRequest.swift:16 | The iOS URL never includes the parameters. |
| `IosTransport.URLString` | swift-extensions/TrikotHttpRequest.swift:16 | The URL string is the base URL followed by the path, each empty when absent. |
| `IosTransport.URLAgreesWithBuildUrl` | swift-extensions/TrikotHttpRequest.swift:16 | Without parameters and with a base URL, the iOS URL is the Android one. Without a base URL, the iOS URL is the path while the Android one is empty. |
| `IosTransport.Uppercased` | swift-extensions/TrikotHttpRequest.swift:18 | Upper-casing keeps the length and upper-cases each ASCII letter. |
| `IosTransport.HttpMethodString` | swift-extensions/TrikotHttpRequest.swift:18 | Upper-casing the method name changes nothing, so the method string is the method's name exactly. |
| `IosTransport.HttpBody` | swift-extensions/TrikotHttpRequest.swift:24-28 | A byte body is sent as it is, and a text body as UTF-8 bytes that decode back to the text. Any other body sends nothing. |
| `IosTransport.URLRequestFor` | swift-extensions/TrikotHttpRequest.swift:16-28 | The request sent carries the URL string, the method name and the builder's headers. Its cache policy reloads exactly for writes or a reload policy. It has a body exactly for byte or text bodies, and a text body is bytes that decode back to the text. |
| `IosTransport.NSMutableURLRequest.constructor` | swift-extensions/TrikotHttpRequest.swift:17 | A new request has its URL and cache policy, method `GET`, no headers and no body. |
| `IosTransport.NSMutableURLRequest.SetValue` | swift-extensions/TrikotHttpRequest.swift:21 | `setValue` sets one header and leaves the rest unchanged. |
| `IosTransport.Complete` | swift-extensions/TrikotHttpRequest.swift:34-40 | An error gives an error carrying its description. Otherwise the data and response are the value. |
| `IosTransport.StatusNeverAnError` | swift-extensions/TrikotHttpRequest.swift:36-40 | Any HTTP status without an error is a value. |
| `IosTransport.NatToStringRoundTrip` | swift-extensions/TrikotHttpRequest.swift:75-79 | The decimal text written for a number reads back as that number. |
| `IosTransport.AppendHeaderLines` | swift-extensions/TrikotHttpRequest.swift:58-60 | The loop writes one `  key: value` line per header, for every header exactly once, after the text already written. It writes nothing exactly when there are no headers. |
| `IosTransport.AppendHeadersSection` | swift-extensions/TrikotHttpRequest.swift:56-61 | The headers section is written only when there are headers, and then it starts with `Headers:`. |
| `IosTransport.AppendBodySection` | swift-extensions/TrikotHttpRequest.swift:62-65 | The body section is written only when there is a body: its UTF-8 text, or `<invalid body format>`. |
| `IosTransport.RequestLogText` | swift-extensions/TrikotHttpRequest.swift:50-69 | The request log is absent exactly at level `none`. Otherwise it begins with the tag and `METHOD url` line and ends with `</Http Request>`. |
| `IosTransport.ResponseLogText` | swift-extensions/TrikotHttpRequest.swift:71-95 | The response log begins with the tag, URL and duration lines and ends with `</Http Reponse>`. |
| `IosTransport.TrikotHttpRequest.constructor` | swift-extensions/TrikotHttpRequest.swift:8-11 | The request keeps its builder and log level. |
| `IosTransport.TrikotHttpRequest.LogRequest` | swift-extensions/TrikotHttpRequest.swift:50-69 | The text produced is the request log for the key order used. Nothing is produced exactly at level `none`. At `basic` the text is the tags and the `METHOD url` line only. |
| `IosTransport.TrikotHttpRequest.LogResponse` | swift-extensions/TrikotHttpRequest.swift:71-95 | The text produced is the response log for the key order used, at every level. It begins with the tag, URL and duration, and with an error it holds only the error line after them. |
| `IosTransport.TrikotHttpRequest.Execute` | swift-extensions/TrikotHttpRequest.swift:13-48 | An invalid URL gives the error "Unable to create a valid URL", and nothing is sent or logged. A valid one sends the assembled request, logs it, then logs the response, and publishes the completion's classification. |
| `IosTransport.BasicRequestLogOmitsHeadersAndBody` | swift-extensions/TrikotHttpRequest.swift:53-67 | Below `verbose`, the request log is only the tags and the `METHOD url` line. |
| `IosTransport.VerboseWithoutHeadersOrBody` | swift-extensions/TrikotHttpRequest.swift:55-66 | With no headers and no body, the verbose request log equals the basic one. |
| `IosTransport.VerboseRequestLogShowsEveryHeader` | swift-extensions/TrikotHttpRequest.swift:56-60 | At `verbose`, the request log contains a line for every header. |
| `IosTransport.RequestLogMethodDefaultsToGet` | swift-extensions/TrikotHttpRequest.swift:54 | A request without a method is logged as a GET. |
| `IosTransport.ErrorReplacesStatus` | swift-extensions/TrikotHttpRequest.swift:76-77 | With an error, the response log holds the error line and nothing about status, headers or body, at every level. |
| `IosTransport.BasicResponseLogShowsStatusOnly` | swift-extensions/TrikotHttpRequest.swift:78-80 | Below `verbose`, an HTTP response is logged with its status line only. |
| `IosTransport.NonHttpResponseHasNoStatus` | swift-extensions/TrikotHttpRequest.swift:76-93 | Without an error or an HTTP response, the log holds only the URL and the duration. |
| `Configuration.Apply` | http/src/commonMain/kotlin/com/mirego/trikot/http/HttpConfiguration.kt:31-84 | A setter call puts its value in its slot and leaves the other four unchanged. |
| `Configuration.Current` | http/src/commonMain/kotlin/com/mirego/trikot/http/HttpConfiguration.kt:33-36 | The assignment a setter reads back writes the same slot, and carries the value that slot holds now. |
| `Configuration.SetToCurrentIsIdentity` | http/src/commonMain/kotlin/com/mirego/trikot/http/HttpConfiguration.kt:35-37 | Setting a slot to the value it holds leaves the configuration unchanged. |
| `Configuration.ApplyIdempotent` | http/src/commonMain/kotlin/com/mirego/trikot/http/HttpConfiguration.kt:82-84 | Setting the same value twice is the same as setting it once. |
| `Configuration.DistinctSlotsCommute` | http/src/commonMain/kotlin/com/mirego/trikot/http/HttpConfiguration.kt:17-26 | Setters of different slots commute. |
| `Configuration.LastWriteWins` | http/src/commonMain/kotlin/com/mirego/trikot/http/HttpConfiguration.kt:35-37 | Of two setter calls on one slot, the later one wins. |
| `Configuration.AtomicReference.SetOrThrow` | http/src/commonMain/kotlin/com/mirego/trikot/http/HttpConfiguration.kt:36 | `setOrThrow` succeeds exactly when the value equals the expected one, and then stores the new value. On failure the value is left as it was. |
| `Configuration.HttpConfiguration.constructor` | http/src/commonMain/kotlin/com/mirego/trikot/http/HttpConfiguration.kt:17-26 | The slots start at their defaults, with `baseUrl` `""`. |
| `Configuration.HttpConfiguration.GetHttpRequestFactory` | http/src/commonMain/kotlin/com/mirego/trikot/http/HttpConfiguration.kt:32-34 | The getter returns what the slot holds. After the setter, that is the value set. |
| `Configuration.HttpConfiguration.GetNetworkDispatchQueue` | http/src/commonMain/kotlin/com/mirego/trikot/http/HttpConfiguration.kt:43-45 | Same as above, for the network queue. |
| `Configuration.HttpConfiguration.GetDefaultHttpHeaderProvider` | http/src/commonMain/kotlin/com/mirego/trikot/http/HttpConfiguration.kt:54-56 | Same as above, for the header provider. |
| `Configuration.HttpConfiguration.GetConnectivityPublisher` | http/src/commonMain/kotlin/com/mirego/trikot/http/HttpConfiguration.kt:65-67 | Same as above, for the connectivity publisher. |
| `Configuration.HttpConfiguration.GetBaseUrl` | http/src/commonMain/kotlin/com/mirego/trikot/http/HttpConfiguration.kt:79-81 | Same as above, for the base URL. |
| `Configuration.HttpConfiguration.SetHttpRequestFactory` | http/src/commonMain/kotlin/com/mirego/trikot/http/HttpConfiguration.kt:31-37 | The setter never throws, its getter then returns the new value, and the other slots are unchanged. |
| `Configuration.HttpConfiguration.SetNetworkDispatchQueue` | http/src/commonMain/kotlin/com/mirego/trikot/http/HttpConfiguration.kt:42-48 | Same as above, for the network queue. |
| `Configuration.HttpConfiguration.SetDefaultHttpHeaderProvider` | http/src/commonMain/kotlin/com/mirego/trikot/http/HttpConfiguration.kt:53-59 | Same as above, for the header provider. |
| `Configuration.HttpConfiguration.SetConnectivityPublisher` | http/src/commonMain/kotlin/com/mirego/trikot/http/HttpConfiguration.kt:64-73 | Same as above, for the connectivity publisher. |
| `Configuration.HttpConfiguration.SetBaseUrl` | http/src/commonMain/kotlin/com/mirego/trikot/http/HttpConfiguration.kt:78-84 | Same as above, for the base URL. |
| `Configuration.SetBaseUrlTwice` | http/src/commonMain/kotlin/com/mirego/trikot/http/HttpConfiguration.kt:78-84 | Setting the base URL twice to the same value succeeds, and leaves the defaults elsewhere. |

## Left out

- Queues, cancellation and reactive plumbing are not modelled: dispatch queues, `CancellableManager`, `BaseExecutablePublisher`, behaviour subjects, coroutine `launch` and URL session task scheduling. The orchestrator is a sequential trace, so cancellation and the queue hop before `dispatchSuccess`/`dispatchError` are not represented. The transport is a total function, so every executed request gets exactly one outcome. A transport publisher that completes without a value, or never emits, is not modelled.
- Ktor internals are inputs, not behaviour:
  - `HttpClient.config`;
  - the `Logging` plug-in and its level and logger;
  - `ContentType.parse`, whose media type is kept as the header's text;
  - `readBytes` and `flattenEntries`, whose flattened entries are an input;
  - the exchange itself, a function from client and request to the call's result.
- An exception thrown by `readBytes` inside the catch block is not modelled.
- Foundation internals are inputs, not behaviour:
  - `URL(string:)` validity is a predicate, and `absoluteString` is taken to be the string;
  - the session's completion is a function of the request;
  - `MrFreeze` and `ByteArrayNativeUtils` are not modelled;
  - header names in `setValue` are treated as case-sensitive.
- `KtorRequestFactory.KtorRequestBuilder.Header`: Ktor's `header` appends to a header builder whose names are case-insensitive. The model keys headers by exact strings, so `X-A` and `x-a` stay two separate headers. Ktor would send them as one name with two values.
- `TimeInterval(requestBuilder.timeout)` is floating point and is not modelled. The logged duration, computed from the clock, is an integer input. The `print` calls become the returned log texts.
- `TrikotHttpLogLevel` is not part of this model. Only `.none` and `.verbose` are told apart in the source, and every other level is represented by `basic`.
- The `TrikotHttpResponse` wrapper is not part of this model. The iOS value is the completion's data and response.
- The concurrent path on which `setOrThrow` throws, because another writer got in between, is not modelled: it needs a concurrent write. `AtomicReference` compares by equality here, not by identity.
- The shared `json` configuration of `HttpConfiguration` is not modelled: it is a serializer setting with no logic.
- The objects held by the first four configuration slots are not modelled. Only their identity is kept.
- `UrlBuilding.BuildUrl`: the implementation of `buildUrl` is not part of this model. The model states what the five tests fix, plus four assumptions beyond them:
  - an empty base URL with a non-empty path or parameters;
  - the encoding of parameter names;
  - the encoding of characters outside those the tests use;
  - the separator depends on a `?` in the path only, not in the base URL.
- `FormEncoding.Utf8Encode`: Kotlin and Swift strings are UTF-16 and can hold a lone surrogate. A Dafny `string` holds only Unicode scalar values, so encoding is modelled for scalar values only, and a lone surrogate cannot be expressed.
- `RequestBuilder.parameters` is a sequence of pairs in insertion order. The source's map cannot hold a name twice, and the model does not require distinct names. Every property proved holds for any sequence, the distinct-name case included. For duplicates, `Query` writes each pair in turn.
- `RequestPublisher.AfterHeaders`: the run catches only an `Exception` thrown by `processResponse`. Any other throwable is a `ProcessCrashed` outcome and becomes an `UncaughtError` event, which dispatches nothing. Where that throwable goes after it escapes the operation queue is not modelled.
