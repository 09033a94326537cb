/**
 * `HttpConfiguration`: the process-wide settings of the HTTP layer. It has
 * five slots: the request factory, the network dispatch queue, the default
 * header provider, the connectivity publisher and the base URL. Each slot
 * lives in its own atomic reference. A getter reads the slot's value. A
 * setter reads the value and then replaces it with a compare-and-set that
 * expects the value it just read.
 *
 * The objects held in the first four slots are described only by their
 * identity: their default kind, or some other instance.
 */
module Configuration {

  /** A request factory: the default `EmptyHttpRequestFactory`, or another one. */
  datatype HttpRequestFactory = EmptyHttpRequestFactory | RequestFactory(id: nat)

  /** A dispatch queue: the default `OperationDispatchQueue`, or another one. */
  datatype DispatchQueue = OperationDispatchQueue | OtherDispatchQueue(id: nat)

  /** A header provider: the default `DefaultHttpHeaderProvider`, or another one. */
  datatype HttpHeaderProvider = DefaultHttpHeaderProvider | HeaderProvider(id: nat)

  /** A connectivity publisher: the default behaviour subject with no value yet, or another one. */
  datatype ConnectivityPublisher = EmptyBehaviorSubject | OtherConnectivityPublisher(id: nat)

  /** The five slots' values at one moment. */
  datatype Settings = Settings(
    httpRequestFactory: HttpRequestFactory,
    networkDispatchQueue: DispatchQueue,
    defaultHttpHeaderProvider: HttpHeaderProvider,
    connectivityPublisher: ConnectivityPublisher,
    baseUrl: string)

  /** What the slots hold before any setter runs. */
  const DefaultSettings: Settings :=
    Settings(EmptyHttpRequestFactory, OperationDispatchQueue, DefaultHttpHeaderProvider, EmptyBehaviorSubject, "")

  /** One setter call: the slot it writes and the value. */
  datatype Assignment =
    | SetHttpRequestFactory(factory: HttpRequestFactory)
    | SetNetworkDispatchQueue(queue: DispatchQueue)
    | SetDefaultHttpHeaderProvider(provider: HttpHeaderProvider)
    | SetConnectivityPublisher(publisher: ConnectivityPublisher)
    | SetBaseUrl(url: string)

  /** The settings after one successful setter call: its slot holds the new value, the other four are unchanged. */
  function Apply(s: Settings, a: Assignment): (r: Settings)
    ensures a.SetHttpRequestFactory? ==> r.httpRequestFactory == a.factory
    ensures a.SetNetworkDispatchQueue? ==> r.networkDispatchQueue == a.queue
    ensures a.SetDefaultHttpHeaderProvider? ==> r.defaultHttpHeaderProvider == a.provider
    ensures a.SetConnectivityPublisher? ==> r.connectivityPublisher == a.publisher
    ensures a.SetBaseUrl? ==> r.baseUrl == a.url
    ensures !a.SetHttpRequestFactory? ==> r.httpRequestFactory == s.httpRequestFactory
    ensures !a.SetNetworkDispatchQueue? ==> r.networkDispatchQueue == s.networkDispatchQueue
    ensures !a.SetDefaultHttpHeaderProvider? ==> r.defaultHttpHeaderProvider == s.defaultHttpHeaderProvider
    ensures !a.SetConnectivityPublisher? ==> r.connectivityPublisher == s.connectivityPublisher
    ensures !a.SetBaseUrl? ==> r.baseUrl == s.baseUrl
  {
    match a
    case SetHttpRequestFactory(f) => s.(httpRequestFactory := f)
    case SetNetworkDispatchQueue(q) => s.(networkDispatchQueue := q)
    case SetDefaultHttpHeaderProvider(p) => s.(defaultHttpHeaderProvider := p)
    case SetConnectivityPublisher(p) => s.(connectivityPublisher := p)
    case SetBaseUrl(u) => s.(baseUrl := u)
  }

  /** The value a setter call would read back from its slot. */
  function Current(s: Settings, a: Assignment): (same: Assignment)
    ensures same.SetHttpRequestFactory? == a.SetHttpRequestFactory?
    ensures same.SetNetworkDispatchQueue? == a.SetNetworkDispatchQueue?
    ensures same.SetDefaultHttpHeaderProvider? == a.SetDefaultHttpHeaderProvider?
    ensures same.SetConnectivityPublisher? == a.SetConnectivityPublisher?
    ensures same.SetBaseUrl? == a.SetBaseUrl?
    ensures a.SetHttpRequestFactory? ==> same.factory == s.httpRequestFactory
    ensures a.SetNetworkDispatchQueue? ==> same.queue == s.networkDispatchQueue
    ensures a.SetDefaultHttpHeaderProvider? ==> same.provider == s.defaultHttpHeaderProvider
    ensures a.SetConnectivityPublisher? ==> same.publisher == s.connectivityPublisher
    ensures a.SetBaseUrl? ==> same.url == s.baseUrl
  {
    match a
    case SetHttpRequestFactory(_) => SetHttpRequestFactory(s.httpRequestFactory)
    case SetNetworkDispatchQueue(_) => SetNetworkDispatchQueue(s.networkDispatchQueue)
    case SetDefaultHttpHeaderProvider(_) => SetDefaultHttpHeaderProvider(s.defaultHttpHeaderProvider)
    case SetConnectivityPublisher(_) => SetConnectivityPublisher(s.connectivityPublisher)
    case SetBaseUrl(_) => SetBaseUrl(s.baseUrl)
  }

  /** Setting a slot to the value it holds leaves the whole configuration unchanged. */
  lemma SetToCurrentIsIdentity(s: Settings, a: Assignment)
    ensures Apply(s, Current(s, a)) == s
  {
  }

  /** Setting the same value twice is the same as setting it once. */
  lemma ApplyIdempotent(s: Settings, a: Assignment)
    ensures Apply(Apply(s, a), a) == Apply(s, a)
  {
  }

  /** Both setter calls write the same slot. */
  predicate SameSlot(a: Assignment, b: Assignment) {
    && a.SetHttpRequestFactory? == b.SetHttpRequestFactory?
    && a.SetNetworkDispatchQueue? == b.SetNetworkDispatchQueue?
    && a.SetDefaultHttpHeaderProvider? == b.SetDefaultHttpHeaderProvider?
    && a.SetConnectivityPublisher? == b.SetConnectivityPublisher?
    && a.SetBaseUrl? == b.SetBaseUrl?
  }

  /** Setters of different slots do not interfere: their order does not matter. */
  lemma DistinctSlotsCommute(s: Settings, a: Assignment, b: Assignment)
    requires !SameSlot(a, b)
    ensures Apply(Apply(s, a), b) == Apply(Apply(s, b), a)
  {
  }

  /** Of two setter calls on one slot, the later wins. */
  lemma LastWriteWins(s: Settings, a: Assignment, b: Assignment)
    requires SameSlot(a, b)
    ensures Apply(Apply(s, a), b) == Apply(s, b)
  {
  }

  /** A value that can be read and replaced by compare-and-set. */
  class AtomicReference<T(==)> {
    var value: T

    constructor(value: T)
      ensures this.value == value
    {
      this.value := value;
    }

    /**
     * `setOrThrow`: replaces the value when it still equals `expected`.
     * `succeeded` is false where the source throws; the value is then left as it was.
     */
    method SetOrThrow(expected: T, newValue: T) returns (succeeded: bool)
      modifies this
      ensures succeeded <==> old(value) == expected
      ensures value == if succeeded then newValue else old(value)
    {
      succeeded := value == expected;
      if succeeded {
        value := newValue;
      }
    }
  }

  /** The configuration object: five atomic references. */
  class HttpConfiguration {
    const internalHttpRequestFactory: AtomicReference<HttpRequestFactory>
    const internalNetworkDispatchQueue: AtomicReference<DispatchQueue>
    const internalDefaultHeaderProvider: AtomicReference<HttpHeaderProvider>
    const internalConnectivityStatePublisher: AtomicReference<ConnectivityPublisher>
    const internalBaseUrl: AtomicReference<string>

    constructor()
      ensures Snapshot() == DefaultSettings
      ensures fresh(internalHttpRequestFactory) && fresh(internalNetworkDispatchQueue)
      ensures fresh(internalDefaultHeaderProvider) && fresh(internalConnectivityStatePublisher)
      ensures fresh(internalBaseUrl)
    {
      internalHttpRequestFactory := new AtomicReference(EmptyHttpRequestFactory);
      internalNetworkDispatchQueue := new AtomicReference(OperationDispatchQueue);
      internalDefaultHeaderProvider := new AtomicReference(DefaultHttpHeaderProvider);
      internalConnectivityStatePublisher := new AtomicReference(EmptyBehaviorSubject);
      internalBaseUrl := new AtomicReference("");
    }

    /** The five getters at once. */
    function Snapshot(): Settings
      reads internalHttpRequestFactory, internalNetworkDispatchQueue, internalDefaultHeaderProvider,
            internalConnectivityStatePublisher, internalBaseUrl
    {
      Settings(GetHttpRequestFactory(), GetNetworkDispatchQueue(), GetDefaultHttpHeaderProvider(),
               GetConnectivityPublisher(), GetBaseUrl())
    }

    function GetHttpRequestFactory(): (current: HttpRequestFactory)
      reads internalHttpRequestFactory
      ensures current == internalHttpRequestFactory.value
    {
      internalHttpRequestFactory.value
    }

    function GetNetworkDispatchQueue(): (current: DispatchQueue)
      reads internalNetworkDispatchQueue
      ensures current == internalNetworkDispatchQueue.value
    {
      internalNetworkDispatchQueue.value
    }

    function GetDefaultHttpHeaderProvider(): (current: HttpHeaderProvider)
      reads internalDefaultHeaderProvider
      ensures current == internalDefaultHeaderProvider.value
    {
      internalDefaultHeaderProvider.value
    }

    function GetConnectivityPublisher(): (current: ConnectivityPublisher)
      reads internalConnectivityStatePublisher
      ensures current == internalConnectivityStatePublisher.value
    {
      internalConnectivityStatePublisher.value
    }

    function GetBaseUrl(): (current: string)
      reads internalBaseUrl
      ensures current == internalBaseUrl.value
    {
      internalBaseUrl.value
    }

    // Each setter expects the value it has just read, so in a sequential
    // run its compare-and-set cannot fail.

    method SetHttpRequestFactory(value: HttpRequestFactory)
      modifies internalHttpRequestFactory
      ensures Snapshot() == Apply(old(Snapshot()), Assignment.SetHttpRequestFactory(value))
    {
      var succeeded := internalHttpRequestFactory.SetOrThrow(internalHttpRequestFactory.value, value);
      assert succeeded;
    }

    method SetNetworkDispatchQueue(value: DispatchQueue)
      modifies internalNetworkDispatchQueue
      ensures Snapshot() == Apply(old(Snapshot()), Assignment.SetNetworkDispatchQueue(value))
    {
      var succeeded := internalNetworkDispatchQueue.SetOrThrow(internalNetworkDispatchQueue.value, value);
      assert succeeded;
    }

    method SetDefaultHttpHeaderProvider(value: HttpHeaderProvider)
      modifies internalDefaultHeaderProvider
      ensures Snapshot() == Apply(old(Snapshot()), Assignment.SetDefaultHttpHeaderProvider(value))
    {
      var succeeded := internalDefaultHeaderProvider.SetOrThrow(internalDefaultHeaderProvider.value, value);
      assert succeeded;
    }

    method SetConnectivityPublisher(value: ConnectivityPublisher)
      modifies internalConnectivityStatePublisher
      ensures Snapshot() == Apply(old(Snapshot()), Assignment.SetConnectivityPublisher(value))
    {
      var succeeded := internalConnectivityStatePublisher.SetOrThrow(internalConnectivityStatePublisher.value, value);
      assert succeeded;
    }

    method SetBaseUrl(value: string)
      modifies internalBaseUrl
      ensures Snapshot() == Apply(old(Snapshot()), Assignment.SetBaseUrl(value))
    {
      var succeeded := internalBaseUrl.SetOrThrow(internalBaseUrl.value, value);
      assert succeeded;
    }
  }

  /**
   * A fresh configuration, with the base URL set to the same value twice:
   * neither call throws, the getter returns the value, and the other slots
   * keep their defaults.
   */
  method SetBaseUrlTwice(value: string) returns (settings: Settings)
    ensures settings == DefaultSettings.(baseUrl := value)
  {
    var configuration := new HttpConfiguration();
    configuration.SetBaseUrl(value);
    configuration.SetBaseUrl(value);
    settings := configuration.Snapshot();
  }
}
