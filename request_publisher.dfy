/**
 * `HttpRequestPublisher`: the orchestrator that turns a RequestBuilder
 * into one typed result. It asks the header provider for headers, merges
 * them into a fresh RequestBuilder, executes that request, and either
 * transforms the response with `processResponse` or, on a transport
 * error, notifies the header provider and consults the connectivity state
 * before dispatching the error.
 *
 * The callback chain is modelled as a sequential trace of the side effects
 * it performs, in the order it performs them. The asynchronous inputs are
 * the values they deliver first: the header provider's emissions, the
 * transport's single outcome, and the first connectivity state.
 */
module RequestPublisher {
  import opened Http

  /** One emission of the header provider's stream. */
  datatype HeaderEmission = HeaderValue(headers: map<string, string>) | HeaderError(error: Throwable)

  /**
   * What `processResponse` does with a response: returns a value, throws an
   * `Exception` (which the run catches), or throws a throwable that is not an
   * `Exception`, such as a Kotlin `Error`, which escapes the catch.
   */
  datatype ProcessResult<T> = Processed(value: T) | ProcessFailed(error: Throwable) | ProcessCrashed(error: Throwable)

  /** The side effects of one run, as the callbacks perform them. */
  datatype Event<T> =
    | HeadersRequested(builder: RequestBuilder)                    // headerProvider.headerForURLRequest
    | RequestExecuted(request: RequestBuilder)                     // httpRequestFactory.request(..).execute
    | HttpErrorProcessed(request: RequestBuilder, error: Throwable) // headerProvider.processHttpError
    | ConnectivityReceived(state: ConnectivityState)               // first connectivity value arrives
    | DispatchedSuccess(value: T)
    | DispatchedError(error: Throwable)
    | UncaughtError(error: Throwable)                              // escapes the operation queue's block

  predicate IsTerminal<T>(e: Event<T>) {
    e.DispatchedSuccess? || e.DispatchedError?
  }

  /**
   * `mergeBuilderWithHeaders`: a fresh RequestBuilder that carries over base
   * URL, path, body, method and timeout, with the caller's headers overridden
   * by the provider's. The fields it does not copy keep their defaults.
   */
  function MergeBuilderWithHeaders(builder: RequestBuilder, headers: map<string, string>): (merged: RequestBuilder)
    ensures merged.baseUrl == builder.baseUrl && merged.path == builder.path && merged.body == builder.body
    ensures merged.httpMethod == builder.httpMethod && merged.timeout == builder.timeout
    ensures merged.parameters == DefaultRequestBuilder.parameters
    ensures merged.cachePolicy == DefaultRequestBuilder.cachePolicy
    ensures merged.headers.Keys == builder.headers.Keys + headers.Keys
    ensures forall k :: k in headers ==> merged.headers[k] == headers[k]
    ensures forall k :: k in builder.headers && k !in headers ==> merged.headers[k] == builder.headers[k]
  {
    DefaultRequestBuilder.(
      baseUrl := builder.baseUrl,
      path := builder.path,
      body := builder.body,
      headers := builder.headers + headers,
      httpMethod := builder.httpMethod,
      timeout := builder.timeout)
  }

  /** The error dispatched after a transport error, once the connectivity state is known. */
  function ConnectivityError(state: ConnectivityState, sourceError: Throwable): (e: Throwable)
    ensures state == NONE <==> e == HttpResponseNoInternetConnectionException(sourceError)
    ensures state != NONE ==> e == sourceError
  {
    match state
    case NONE => HttpResponseNoInternetConnectionException(sourceError)
    case _ =>
      assert sourceError < HttpResponseNoInternetConnectionException(sourceError);
      sourceError
  }

  /** What happens after a header value arrives: `RequestExecuted` and what follows it. */
  function AfterHeaders<T>(request: RequestBuilder, processResponse: HttpResponse -> ProcessResult<T>,
                           transport: RequestBuilder -> ExecuteOutcome,
                           connectivity: Option<ConnectivityState>): seq<Event<T>>
  {
    [RequestExecuted(request)] +
    match transport(request)
    case Value(response) =>
      (match processResponse(response)
       case Processed(v) => [DispatchedSuccess(v)]
       case ProcessFailed(e) => [DispatchedError(e)]
       case ProcessCrashed(e) => [UncaughtError(e)])
    case Error(sourceError) =>
      [HttpErrorProcessed(request, sourceError)] +
      match connectivity
      case None => []
      case Some(state) => [ConnectivityReceived(state), DispatchedError(ConnectivityError(state, sourceError))]
  }

  /**
   * The whole trace of `internalRun`. Only the first emission of the header
   * stream is looked at; a stream that ends without emitting leaves the run
   * without a result, as does a connectivity publisher that never emits.
   */
  function RunEvents<T>(builder: RequestBuilder, processResponse: HttpResponse -> ProcessResult<T>,
                        headerStream: seq<HeaderEmission>, transport: RequestBuilder -> ExecuteOutcome,
                        connectivity: Option<ConnectivityState>): (trace: seq<Event<T>>)
    ensures 1 <= |trace| <= 5 && trace[0] == HeadersRequested(builder)
    ensures |trace| == 1 <==> headerStream == []
    ensures |trace| >= 2 ==> (trace[1].RequestExecuted? <==> headerStream[0].HeaderValue?)
  {
    [HeadersRequested(builder)] +
    if headerStream == [] then []
    else match headerStream[0]
      case HeaderError(e) => [DispatchedError(e)]
      case HeaderValue(headers) =>
        AfterHeaders(MergeBuilderWithHeaders(builder, headers), processResponse, transport, connectivity)
  }

  /** The publisher; its dispatched events and side effects are recorded in `trace`. */
  class HttpRequestPublisher<T> {
    const builder: RequestBuilder
    const processResponse: HttpResponse -> ProcessResult<T>
    /** The header provider's stream for a request (`headerForURLRequest`). */
    const headerForURLRequest: RequestBuilder -> seq<HeaderEmission>
    /** The single outcome the request factory's request delivers when executed. */
    const execute: RequestBuilder -> ExecuteOutcome
    var trace: seq<Event<T>>

    constructor(builder: RequestBuilder, processResponse: HttpResponse -> ProcessResult<T>,
                headerForURLRequest: RequestBuilder -> seq<HeaderEmission>,
                execute: RequestBuilder -> ExecuteOutcome)
      ensures this.builder == builder && this.processResponse == processResponse
      ensures this.headerForURLRequest == headerForURLRequest && this.execute == execute
      ensures trace == []
    {
      this.builder := builder;
      this.processResponse := processResponse;
      this.headerForURLRequest := headerForURLRequest;
      this.execute := execute;
      trace := [];
    }

    method Record(e: Event<T>)
      modifies this
      ensures trace == old(trace) + [e]
    {
      trace := trace + [e];
    }

    /** `connectivity` is the first state the connectivity publisher emits, if it emits one. */
    method InternalRun(connectivity: Option<ConnectivityState>)
      modifies this
      ensures trace == old(trace) + RunEvents(builder, processResponse, headerForURLRequest(builder), execute, connectivity)
    {
      Record(HeadersRequested(builder));
      var headerStream := headerForURLRequest(builder);
      if headerStream == [] {
        return;
      }
      match headerStream[0]
      case HeaderError(e) =>
        Record(DispatchedError(e));
      case HeaderValue(headers) =>
        var requestBuilder := MergeBuilderWithHeaders(builder, headers);
        Record(RequestExecuted(requestBuilder));
        match execute(requestBuilder)
        case Value(response) =>
          match processResponse(response) {
            case Processed(v) => Record(DispatchedSuccess(v));
            case ProcessFailed(e) => Record(DispatchedError(e));
            case ProcessCrashed(e) => Record(UncaughtError(e));
          }
        case Error(sourceError) =>
          Record(HttpErrorProcessed(requestBuilder, sourceError));
          match connectivity
          case None =>
          case Some(state) =>
            Record(ConnectivityReceived(state));
            Record(DispatchedError(ConnectivityError(state, sourceError)));
    }
  }

  // ---------------------------------------------------------------------
  // Counting events
  // ---------------------------------------------------------------------

  function TerminalCount<T>(trace: seq<Event<T>>): nat {
    if trace == [] then 0
    else (if IsTerminal(trace[0]) then 1 else 0) + TerminalCount(trace[1..])
  }

  function RequestCount<T>(trace: seq<Event<T>>): nat {
    if trace == [] then 0
    else (if trace[0].RequestExecuted? then 1 else 0) + RequestCount(trace[1..])
  }

  lemma {:induction false} TerminalCountAppend<T>(a: seq<Event<T>>, b: seq<Event<T>>)
    ensures TerminalCount(a + b) == TerminalCount(a) + TerminalCount(b)
  {
    if a == [] {
      assert a + b == b;
    } else {
      assert (a + b)[1..] == a[1..] + b;
      TerminalCountAppend(a[1..], b);
    }
  }

  lemma {:induction false} RequestCountAppend<T>(a: seq<Event<T>>, b: seq<Event<T>>)
    ensures RequestCount(a + b) == RequestCount(a) + RequestCount(b)
  {
    if a == [] {
      assert a + b == b;
    } else {
      assert (a + b)[1..] == a[1..] + b;
      RequestCountAppend(a[1..], b);
    }
  }

  // ---------------------------------------------------------------------
  // Properties
  // ---------------------------------------------------------------------

  /** The caller's parameters and cache policy never reach the executed request. */
  lemma MergeDropsParametersAndCachePolicy(b1: RequestBuilder, b2: RequestBuilder, headers: map<string, string>)
    requires b1.baseUrl == b2.baseUrl && b1.path == b2.path && b1.body == b2.body
    requires b1.httpMethod == b2.httpMethod && b1.timeout == b2.timeout && b1.headers == b2.headers
    ensures MergeBuilderWithHeaders(b1, headers) == MergeBuilderWithHeaders(b2, headers)
  {
  }

  /** Merging the same provider headers again changes nothing. */
  lemma MergeIdempotent(builder: RequestBuilder, headers: map<string, string>)
    ensures MergeBuilderWithHeaders(MergeBuilderWithHeaders(builder, headers), headers)
            == MergeBuilderWithHeaders(builder, headers)
  {
    var once := MergeBuilderWithHeaders(builder, headers);
    assert once.headers + headers == once.headers;
  }

  /** Every run starts by asking the header provider, with the caller's own builder. */
  lemma RunStartsWithHeaderRequest<T>(builder: RequestBuilder, processResponse: HttpResponse -> ProcessResult<T>,
                                      headerStream: seq<HeaderEmission>, transport: RequestBuilder -> ExecuteOutcome,
                                      connectivity: Option<ConnectivityState>)
    ensures var trace := RunEvents(builder, processResponse, headerStream, transport, connectivity);
      |trace| >= 1 && trace[0] == HeadersRequested(builder)
  {
  }

  /** Emissions after the first are ignored. */
  lemma OnlyFirstHeaderEmissionUsed<T>(builder: RequestBuilder, processResponse: HttpResponse -> ProcessResult<T>,
                                       first: HeaderEmission, rest: seq<HeaderEmission>,
                                       transport: RequestBuilder -> ExecuteOutcome,
                                       connectivity: Option<ConnectivityState>)
    ensures RunEvents(builder, processResponse, [first] + rest, transport, connectivity)
         == RunEvents(builder, processResponse, [first], transport, connectivity)
  {
  }

  /** A header error is dispatched as it is, and no request is executed. */
  lemma HeaderErrorIsTerminal<T>(builder: RequestBuilder, processResponse: HttpResponse -> ProcessResult<T>,
                                 headerStream: seq<HeaderEmission>, transport: RequestBuilder -> ExecuteOutcome,
                                 connectivity: Option<ConnectivityState>)
    requires headerStream != [] && headerStream[0].HeaderError?
    ensures var trace := RunEvents(builder, processResponse, headerStream, transport, connectivity);
      && trace == [HeadersRequested(builder), DispatchedError(headerStream[0].error)]
      && RequestCount(trace) == 0
  {
    var trace := RunEvents(builder, processResponse, headerStream, transport, connectivity);
    NoRequestIn(trace);
  }

  /** A header value leads to exactly one request, the merged builder. */
  lemma OneRequestPerHeaderValue<T>(builder: RequestBuilder, processResponse: HttpResponse -> ProcessResult<T>,
                                    headerStream: seq<HeaderEmission>, transport: RequestBuilder -> ExecuteOutcome,
                                    connectivity: Option<ConnectivityState>)
    requires headerStream != [] && headerStream[0].HeaderValue?
    ensures var trace := RunEvents(builder, processResponse, headerStream, transport, connectivity);
      && RequestCount(trace) == 1
      && trace[1] == RequestExecuted(MergeBuilderWithHeaders(builder, headerStream[0].headers))
  {
    var request := MergeBuilderWithHeaders(builder, headerStream[0].headers);
    var tail := AfterHeaders(request, processResponse, transport, connectivity);
    var rest := tail[1..];
    assert tail == [RequestExecuted(request)] + rest;
    assert forall i :: 0 <= i < |rest| ==> !rest[i].RequestExecuted?;
    NoRequestIn(rest);
    RequestCountAppend([RequestExecuted(request)], rest);
    RequestCountAppend([HeadersRequested(builder)], tail);
  }

  lemma {:induction false} NoRequestIn<T>(trace: seq<Event<T>>)
    requires forall i :: 0 <= i < |trace| ==> !trace[i].RequestExecuted?
    ensures RequestCount(trace) == 0
  {
    if trace != [] {
      assert forall i :: 0 <= i < |trace[1..]| ==> !trace[1..][i].RequestExecuted? by {
        forall i | 0 <= i < |trace[1..]| ensures !trace[1..][i].RequestExecuted? {
          assert trace[1..][i] == trace[i + 1];
        }
      }
      NoRequestIn(trace[1..]);
    }
  }

  /**
   * A transport response ends in the value `processResponse` returns, or in
   * the `Exception` it throws; any other throwable escapes undispatched.
   */
  lemma ResponseOutcome<T>(builder: RequestBuilder, processResponse: HttpResponse -> ProcessResult<T>,
                           headers: map<string, string>, rest: seq<HeaderEmission>,
                           transport: RequestBuilder -> ExecuteOutcome,
                           connectivity: Option<ConnectivityState>)
    requires transport(MergeBuilderWithHeaders(builder, headers)).Value?
    ensures var request := MergeBuilderWithHeaders(builder, headers);
      var trace := RunEvents(builder, processResponse, [HeaderValue(headers)] + rest, transport, connectivity);
      var last := match processResponse(transport(request).response)
        case Processed(v) => DispatchedSuccess(v)
        case ProcessFailed(e) => DispatchedError(e)
        case ProcessCrashed(e) => UncaughtError(e);
      trace == [HeadersRequested(builder), RequestExecuted(request), last]
  {
  }

  /**
   * A transport error is reported to the header provider, with the merged
   * request and the untouched error, before the connectivity state is read;
   * the error dispatched is wrapped exactly when that state is NONE.
   */
  lemma TransportErrorOutcome<T>(builder: RequestBuilder, processResponse: HttpResponse -> ProcessResult<T>,
                                 headers: map<string, string>, rest: seq<HeaderEmission>,
                                 transport: RequestBuilder -> ExecuteOutcome, state: ConnectivityState)
    requires transport(MergeBuilderWithHeaders(builder, headers)).Error?
    ensures var request := MergeBuilderWithHeaders(builder, headers);
      var sourceError := transport(request).error;
      var trace := RunEvents(builder, processResponse, [HeaderValue(headers)] + rest, transport, Some(state));
      && trace == [HeadersRequested(builder), RequestExecuted(request), HttpErrorProcessed(request, sourceError),
                   ConnectivityReceived(state), DispatchedError(ConnectivityError(state, sourceError))]
      && (state == NONE <==> trace[4].error == HttpResponseNoInternetConnectionException(sourceError))
      && (state != NONE ==> trace[4].error == sourceError)
  {
  }

  /** Without a connectivity value, a transport error leaves the run without a result. */
  lemma NoConnectivityNoResult<T>(builder: RequestBuilder, processResponse: HttpResponse -> ProcessResult<T>,
                                  headerStream: seq<HeaderEmission>, transport: RequestBuilder -> ExecuteOutcome)
    requires headerStream != [] && headerStream[0].HeaderValue?
    requires transport(MergeBuilderWithHeaders(builder, headerStream[0].headers)).Error?
    ensures TerminalCount(RunEvents(builder, processResponse, headerStream, transport, None)) == 0
  {
    var request := MergeBuilderWithHeaders(builder, headerStream[0].headers);
    var sourceError := transport(request).error;
    var trace := RunEvents(builder, processResponse, headerStream, transport, None);
    var e0: Event<T>, e1: Event<T>, e2: Event<T> :=
      HeadersRequested(builder), RequestExecuted(request), HttpErrorProcessed(request, sourceError);
    assert trace == [e0] + ([e1] + [e2]);
    TerminalCountAppend([e0], [e1] + [e2]);
    TerminalCountAppend([e1], [e2]);
  }

  /**
   * A throwable from `processResponse` that is not an `Exception` escapes the
   * operation queue's block: nothing is dispatched.
   */
  lemma UncaughtErrorNoResult<T>(builder: RequestBuilder, processResponse: HttpResponse -> ProcessResult<T>,
                                 headerStream: seq<HeaderEmission>, transport: RequestBuilder -> ExecuteOutcome,
                                 connectivity: Option<ConnectivityState>)
    requires headerStream != [] && headerStream[0].HeaderValue?
    requires transport(MergeBuilderWithHeaders(builder, headerStream[0].headers)).Value?
    requires processResponse(transport(MergeBuilderWithHeaders(builder, headerStream[0].headers)).response).ProcessCrashed?
    ensures var request := MergeBuilderWithHeaders(builder, headerStream[0].headers);
      var trace := RunEvents(builder, processResponse, headerStream, transport, connectivity);
      && trace == [HeadersRequested(builder), RequestExecuted(request),
                   UncaughtError(processResponse(transport(request).response).error)]
      && TerminalCount(trace) == 0
  {
    var request := MergeBuilderWithHeaders(builder, headerStream[0].headers);
    var e0: Event<T>, e1: Event<T>, e2: Event<T> :=
      HeadersRequested(builder), RequestExecuted(request), UncaughtError(processResponse(transport(request).response).error);
    assert RunEvents(builder, processResponse, headerStream, transport, connectivity) == [e0] + ([e1] + [e2]);
    TerminalCountAppend([e0], [e1] + [e2]);
    TerminalCountAppend([e1], [e2]);
  }

  /**
   * A run dispatches at most one result, and it is the last event. A run
   * completes, dispatching exactly one, whenever the header stream emits,
   * `processResponse` throws nothing but an `Exception`, and, after a
   * transport error, the connectivity publisher emits.
   */
  lemma AtMostOneResult<T>(builder: RequestBuilder, processResponse: HttpResponse -> ProcessResult<T>,
                           headerStream: seq<HeaderEmission>, transport: RequestBuilder -> ExecuteOutcome,
                           connectivity: Option<ConnectivityState>)
    ensures var trace := RunEvents(builder, processResponse, headerStream, transport, connectivity);
      && TerminalCount(trace) <= 1
      && (TerminalCount(trace) == 1 ==> IsTerminal(trace[|trace| - 1]))
      && (forall i :: 0 <= i < |trace| - 1 ==> !IsTerminal(trace[i]))
      && (Completes(builder, processResponse, headerStream, transport, connectivity) <==> TerminalCount(trace) == 1)
  {
    var trace := RunEvents(builder, processResponse, headerStream, transport, connectivity);
    var body := trace[..|trace| - 1];
    var last := trace[|trace| - 1];
    assert trace == body + [last];
    assert forall i :: 0 <= i < |body| ==> !IsTerminal(body[i]);
    NoTerminalIn(body);
    TerminalCountAppend(body, [last]);
    assert TerminalCount([last]) == if IsTerminal(last) then 1 else 0 by {
      assert [last][1..] == [];
    }
  }

  /**
   * The run reaches a dispatch: the header stream emits; a response is not
   * met by an uncaught throwable; and a transport error meets a connectivity
   * value.
   */
  predicate Completes<T>(builder: RequestBuilder, processResponse: HttpResponse -> ProcessResult<T>,
                         headerStream: seq<HeaderEmission>, transport: RequestBuilder -> ExecuteOutcome,
                         connectivity: Option<ConnectivityState>)
  {
    && headerStream != []
    && (headerStream[0].HeaderValue? ==>
          var outcome := transport(MergeBuilderWithHeaders(builder, headerStream[0].headers));
          if outcome.Value? then !processResponse(outcome.response).ProcessCrashed? else connectivity.Some?)
  }

  lemma {:induction false} NoTerminalIn<T>(trace: seq<Event<T>>)
    requires forall i :: 0 <= i < |trace| ==> !IsTerminal(trace[i])
    ensures TerminalCount(trace) == 0
  {
    if trace != [] {
      assert forall i :: 0 <= i < |trace[1..]| ==> !IsTerminal(trace[1..][i]) by {
        forall i | 0 <= i < |trace[1..]| ensures !IsTerminal(trace[1..][i]) {
          assert trace[1..][i] == trace[i + 1];
        }
      }
      NoTerminalIn(trace[1..]);
    }
  }
}
