/** The client object (client.go, dialers.go, requests.go): its fields, the
    construction path New -> newDefaultClient -> setOptions -> init, the
    dial hook it installs in its transport, and the request methods. */
module Clients {
  import opened Wrappers
  import opened Errors
  import opened HttpHeader
  import opened Net
  import opened ClientConfig
  import opened ClientOptions
  import opened Dialers
  import opened RequestOptions
  import opened Responses
  import opened Requests

  // ---------------------------------------------------------------------
  // Specification of New
  // ---------------------------------------------------------------------

  /** What New(options...) yields: the error of the first failing option,
      or the client that init builds from the configured defaults. */
  function NewOutcome(options: seq<Option<ClientOption>>): (r: Result<Realised, Error>)
    ensures r.Failure? <==> SetOptions(DefaultConfig, options).1.Some?
    ensures r.Failure? ==> r.error == SetOptions(DefaultConfig, options).1.value
    ensures r.Success? ==> r.value == Realise(SetOptions(DefaultConfig, options).0)
  {
    var (c, e) := SetOptions(DefaultConfig, options);
    if e.Some? then Failure(e.value) else Success(Realise(c))
  }

  /** New with no options: a pooled transport with the library's defaults,
      fifteen idle connections per host as in the whole pool, the default
      redirect policy, no default headers, and a dialer with a 10 s timeout
      and a 90 s keep-alive. */
  lemma NewWithoutOptions()
    ensures NewOutcome([]).Success?
    ensures var r := NewOutcome([]).value;
            && r.transport == Transport(false, false, 0, 15, 15, 30 * Second, 10 * Second, true)
            && r.client == NetHttpClient(PooledTransport(r.transport), Some(DefaultRedirectPolicy))
            && r.config.headers == map[] && r.config.logPrefix == "[httpclient]: "
            && DialerFor(r.config.dialTimeout, r.config.disableKeepAlive, r.config.keepAliveTimeout)
               == Dialer(10 * Second, 90 * Second)
  {
  }

  /** The idle limits a successfully built transport gets are never
      negative, whatever options were given. */
  lemma NewLimitsNonNegative(options: seq<Option<ClientOption>>)
    ensures NewOutcome(options).Success? ==>
              NewOutcome(options).value.transport.maxIdleConns >= 0 &&
              NewOutcome(options).value.transport.maxIdleConnsPerHost >= 0
  {
    SetOptionsKeepsLimitsSane(DefaultConfig, options);
  }

  /** Without a MaxIdleConnsPerHost option the per-host limit is the pool
      limit. */
  lemma NewPerHostFollowsPoolLimit(options: seq<Option<ClientOption>>)
    requires forall i :: 0 <= i < |options| && options[i].Some? ==> !options[i].value.MaxIdleConnsPerHost?
    requires NewOutcome(options).Success?
    ensures NewOutcome(options).value.transport.maxIdleConnsPerHost ==
            NewOutcome(options).value.transport.maxIdleConns
  {
    SetOptionsKeepsPerHost(DefaultConfig, options);
  }

  /** A negative idle limit anywhere in the options makes New fail, with the
      invalid-value error when no earlier option failed. */
  lemma NewRejectsNegativeLimit(options: seq<Option<ClientOption>>, i: nat)
    requires i < |options| && options[i].Some? && Invalid(options[i].value)
    ensures NewOutcome(options).Failure?
    ensures SetOptions(DefaultConfig, options[..i]).1.None? ==> NewOutcome(options).error == InvalidOptionValue
  {
    NegativeCountRejected(DefaultConfig, options, i);
  }

  /** DisableKeepAlive anywhere in the options of a successful New turns off
      keep-alive in the transport and leaves the dialer's keep-alive period
      at zero; DisableHTTP2 stops the transport from attempting HTTP/2. */
  lemma NewHonoursDisablingOptions(options: seq<Option<ClientOption>>, i: nat)
    requires i < |options| && options[i] in {Some(DisableKeepAlive), Some(DisableHTTP2)}
    requires NewOutcome(options).Success?
    ensures var r := NewOutcome(options).value;
            options[i] == Some(DisableKeepAlive) ==>
              r.transport.disableKeepAlives &&
              DialerFor(r.config.dialTimeout, r.config.disableKeepAlive, r.config.keepAliveTimeout).keepAlive == 0
    ensures options[i] == Some(DisableHTTP2) ==> !NewOutcome(options).value.transport.forceAttemptHTTP2
  {
    SetOptionsAppliesFlag(DefaultConfig, options, i);
  }

  /** The rejections of the library's own client test: a caller option that
      fails with "badd", MaxIdleConns(-1) and MaxIdleConnsPerHost(-2). */
  lemma NewRejections()
    ensures NewOutcome([Some(UserOption(Some(Other("badd"))))]) == Failure(Other("badd"))
    ensures NewOutcome([Some(MaxIdleConns(-1))]) == Failure(InvalidOptionValue)
    ensures NewOutcome([Some(MaxIdleConnsPerHost(-2))]) == Failure(InvalidOptionValue)
    ensures Message(InvalidOptionValue) == "invalid value for option"
  {
    var none: seq<Option<ClientOption>> := [];
    assert [Some(UserOption(Some(Other("badd"))))][..0] == none;
    assert [Some(MaxIdleConns(-1))][..0] == none;
    assert [Some(MaxIdleConnsPerHost(-2))][..0] == none;
  }

  /** A client built with WithRoundTripper sends every request through that
      round tripper; with NoopResponseHandler, Get returns the error the round
      tripper reports, after exactly one dispatch. */
  lemma CustomRoundTripperErrorReachesCaller(headers: Header, rt: RoundTripper, e: Error, url: string,
                                             newRequest: NewRequestFunc, roundTrip: RoundTripFunc,
                                             defaultOrder: seq<string>)
    requires newRequest("GET", url).None?
    requires forall hc: NetHttpClient, rv: RequestValue :: hc.transport == rt ==> roundTrip(hc, rv) == Exchange(None, Some(e))
    requires Enumerates(defaultOrder, headers.Keys)
    ensures var options := [Some(Headers(headers)), Some(WithRoundTripper(Some(rt)))];
            && NewOutcome(options).Success?
            && NewOutcome(options).value.client.transport == rt
            && var r := NewOutcome(options).value;
               var (err, trace) := DoOutcome(r.config.headers, r.client, Background, NoopResponseHandler,
                                             "GET", url, None, [], newRequest, roundTrip, defaultOrder, [], false);
               err == Some(e) && |trace| == 2 && trace[0].Dispatched? && trace[1] == Handled(Background, None, Some(e))
  {
    var options := [Some(Headers(headers)), Some(WithRoundTripper(Some(rt)))];
    var none: seq<Option<ClientOption>> := [];
    assert options[..1] == [Some(Headers(headers))] && options[..1][..0] == none;
    assert SetOptions(DefaultConfig, options[..1][..0]) == (DefaultConfig, None);
    var first := ApplyOption(DefaultConfig, Headers(headers));
    assert SetOptions(DefaultConfig, options[..1]) == first;
    assert SetOptions(DefaultConfig, options) == ApplyOption(first.0, WithRoundTripper(Some(rt)));
  }

  // ---------------------------------------------------------------------
  // The client object
  // ---------------------------------------------------------------------

  class Client {
    var client: Option<NetHttpClient>
    var currentConnID: int
    var customRoundTripper: Option<RoundTripper>
    var dialTimeout: Duration
    var disableHTTP2: bool
    var disableKeepAlive: bool
    var headers: Header
    var idleConnTimeout: Duration
    var keepAliveTimeout: Duration
    var log: Option<Logger>
    var logPrefix: string
    var logWriter: Option<Writer>
    var maxIdleConns: int
    var maxIdleConnsPerHost: int
    var redirectFunc: Option<RedirectFunc>
    var responseHeaderTimeout: Duration
    var tlsHandshakeTimeout: Duration
    var transport: Option<Transport>
    /** How many times the transport was asked to close its idle connections. */
    ghost var idleDrains: nat

    /** The configurable fields, as a value. */
    function Snapshot(): Config
      reads this
    {
      Config(customRoundTripper, dialTimeout, disableHTTP2, disableKeepAlive, headers, idleConnTimeout,
             keepAliveTimeout, logPrefix, logWriter, maxIdleConns, maxIdleConnsPerHost, redirectFunc,
             responseHeaderTimeout, tlsHandshakeTimeout)
    }

    /** new(client): every field zero. */
    constructor ()
      ensures Snapshot() == ZeroConfig
      ensures client == None && transport == None && log == None && currentConnID == 0 && idleDrains == 0
    {
      client, currentConnID, customRoundTripper, log := None, 0, None, None;
      dialTimeout, disableHTTP2, disableKeepAlive, headers := 0, false, false, map[];
      idleConnTimeout, keepAliveTimeout, logPrefix, logWriter := 0, 0, "", None;
      maxIdleConns, maxIdleConnsPerHost, redirectFunc := 0, 0, None;
      responseHeaderTimeout, tlsHandshakeTimeout, transport := 0, 0, None;
      idleDrains := 0;
    }

    /** setDefaults, as written: the logger is created from the prefix field
        before that field is given the default. The fields it does not name
        keep their values. */
    method SetDefaults()
      modifies this`dialTimeout, this`headers, this`keepAliveTimeout, this`log, this`logPrefix, this`maxIdleConns
      modifies this`maxIdleConnsPerHost, this`redirectFunc, this`responseHeaderTimeout, this`tlsHandshakeTimeout
      ensures dialTimeout == DefaultDialTimeout && headers == map[] && keepAliveTimeout == DefaultKeepAliveTimeout
      ensures log == Some(DefaultLoggerAsWritten(old(Snapshot())))
      ensures logPrefix == DefaultLogPrefix && maxIdleConns == DefaultMaxIdleConns
      ensures maxIdleConnsPerHost == UnsetPerHost && redirectFunc == Some(DefaultRedirectPolicy)
      ensures responseHeaderTimeout == DefaultResponseHeaderTimeout && tlsHandshakeTimeout == DefaultTLSHandshakeTimeout
    {
      dialTimeout := DefaultDialTimeout;
      headers := map[];
      keepAliveTimeout := DefaultKeepAliveTimeout;
      log := Some(Logger.Logger(output := None, prefix := logPrefix));
      logPrefix := DefaultLogPrefix;
      maxIdleConns := DefaultMaxIdleConns;
      maxIdleConnsPerHost := UnsetPerHost;
      redirectFunc := Some(DefaultRedirectPolicy);
      responseHeaderTimeout := DefaultResponseHeaderTimeout;
      tlsHandshakeTimeout := DefaultTLSHandshakeTimeout;
    }

    /** newDefaultClient */
    static method NewDefaultClient() returns (c: Client)
      ensures fresh(c)
      ensures c.Snapshot() == DefaultConfig
      ensures c.log == Some(DefaultLoggerAsWritten(ZeroConfig))
      ensures c.client == None && c.transport == None && c.currentConnID == 0 && c.idleDrains == 0
    {
      c := new Client();
      c.SetDefaults();
    }

    /** The loop of the Headers option: each key is bound to its list. */
    method MergeHeaders(src: Header)
      modifies this`headers
      ensures headers == Overwrite(old(headers), src)
    {
      var remaining := src.Keys;
      ghost var done: set<string> := {};
      while remaining != {}
        invariant done + remaining == src.Keys
        invariant headers == Overwrite(old(headers), Restrict(src, done))
        decreases |remaining|
      {
        var k :| k in remaining;
        OverwriteStep(old(headers), src, done, k);
        headers := headers[k := src[k]];
        remaining, done := remaining - {k}, done + {k};
      }
      assert Restrict(src, done) == src;
    }

    // The closures the Option constructors return, one method each: the
    // plain ones write their field and return nil.

    method ApplyDialTimeout(t: Duration) returns (err: Option<Error>)
      modifies this`dialTimeout
      ensures Snapshot() == old(Snapshot()).(dialTimeout := t) && err == None
    {
      dialTimeout := t;
      return None;
    }

    method ApplyDisableHTTP2() returns (err: Option<Error>)
      modifies this`disableHTTP2
      ensures Snapshot() == old(Snapshot()).(disableHTTP2 := true) && err == None
    {
      disableHTTP2 := true;
      return None;
    }

    method ApplyDisableKeepAlive() returns (err: Option<Error>)
      modifies this`disableKeepAlive
      ensures Snapshot() == old(Snapshot()).(disableKeepAlive := true) && err == None
    {
      disableKeepAlive := true;
      return None;
    }

    method ApplyIdleConnTimeout(t: Duration) returns (err: Option<Error>)
      modifies this`idleConnTimeout
      ensures Snapshot() == old(Snapshot()).(idleConnTimeout := t) && err == None
    {
      idleConnTimeout := t;
      return None;
    }

    method ApplyKeepAliveTimeout(t: Duration) returns (err: Option<Error>)
      modifies this`keepAliveTimeout
      ensures Snapshot() == old(Snapshot()).(keepAliveTimeout := t) && err == None
    {
      keepAliveTimeout := t;
      return None;
    }

    method ApplyLogger(w: Option<Writer>) returns (err: Option<Error>)
      modifies this`logWriter
      ensures Snapshot() == old(Snapshot()).(logWriter := w) && err == None
    {
      logWriter := w;
      return None;
    }

    method ApplyLogPrefix(p: string) returns (err: Option<Error>)
      modifies this`logPrefix
      ensures Snapshot() == old(Snapshot()).(logPrefix := p) && err == None
    {
      logPrefix := p;
      return None;
    }

    method ApplyRedirectPolicy(f: Option<RedirectFunc>) returns (err: Option<Error>)
      modifies this`redirectFunc
      ensures Snapshot() == old(Snapshot()).(redirectFunc := f) && err == None
    {
      redirectFunc := f;
      return None;
    }

    method ApplyTLSHandshakeTimeout(t: Duration) returns (err: Option<Error>)
      modifies this`tlsHandshakeTimeout
      ensures Snapshot() == old(Snapshot()).(tlsHandshakeTimeout := t) && err == None
    {
      tlsHandshakeTimeout := t;
      return None;
    }

    method ApplyResponseHeaderTimeout(t: Duration) returns (err: Option<Error>)
      modifies this`responseHeaderTimeout
      ensures Snapshot() == old(Snapshot()).(responseHeaderTimeout := t) && err == None
    {
      responseHeaderTimeout := t;
      return None;
    }

    method ApplyWithRoundTripper(rt: Option<RoundTripper>) returns (err: Option<Error>)
      modifies this`customRoundTripper
      ensures Snapshot() == old(Snapshot()).(customRoundTripper := rt) && err == None
    {
      customRoundTripper := rt;
      return None;
    }

    /** The count options refuse a negative value and then leave the client
        as it was. */
    method ApplyMaxIdleConns(n: int) returns (err: Option<Error>)
      modifies this`maxIdleConns
      ensures n < 0 ==> Snapshot() == old(Snapshot()) && err == Some(InvalidOptionValue)
      ensures n >= 0 ==> Snapshot() == old(Snapshot()).(maxIdleConns := n) && err == None
    {
      if n < 0 {
        return Some(InvalidOptionValue);
      }
      maxIdleConns := n;
      return None;
    }

    method ApplyMaxIdleConnsPerHost(n: int) returns (err: Option<Error>)
      modifies this`maxIdleConnsPerHost
      ensures n < 0 ==> Snapshot() == old(Snapshot()) && err == Some(InvalidOptionValue)
      ensures n >= 0 ==> Snapshot() == old(Snapshot()).(maxIdleConnsPerHost := n) && err == None
    {
      if n < 0 {
        return Some(InvalidOptionValue);
      }
      maxIdleConnsPerHost := n;
      return None;
    }

    /** Headers: each key of the argument is bound to its list in the
        client's default headers. */
    method ApplyHeaders(h: Header) returns (err: Option<Error>)
      modifies this`headers
      ensures Snapshot() == old(Snapshot()).(headers := Overwrite(old(headers), h)) && err == None
    {
      MergeHeaders(h);
      return None;
    }

    /** Run one option on this client. */
    method ApplyOption(opt: ClientOption) returns (err: Option<Error>)
      modifies this`customRoundTripper, this`dialTimeout, this`disableHTTP2, this`disableKeepAlive, this`headers
      modifies this`idleConnTimeout, this`keepAliveTimeout, this`logPrefix, this`logWriter, this`maxIdleConns
      modifies this`maxIdleConnsPerHost, this`redirectFunc, this`responseHeaderTimeout, this`tlsHandshakeTimeout
      ensures (Snapshot(), err) == ClientOptions.ApplyOption(old(Snapshot()), opt)
    {
      // The outcome, named once for all the cases below.
      ghost var expected := ClientOptions.ApplyOption(Snapshot(), opt);
      match opt
      case DialTimeout(t) => err := ApplyDialTimeout(t);
      case DisableHTTP2 => err := ApplyDisableHTTP2();
      case DisableKeepAlive => err := ApplyDisableKeepAlive();
      case Headers(h) => err := ApplyHeaders(h);
      case IdleConnTimeout(t) => err := ApplyIdleConnTimeout(t);
      case KeepAliveTimeout(t) => err := ApplyKeepAliveTimeout(t);
      case Logger(w) => err := ApplyLogger(w);
      case LogPrefix(p) => err := ApplyLogPrefix(p);
      case MaxIdleConns(n) => err := ApplyMaxIdleConns(n);
      case MaxIdleConnsPerHost(n) => err := ApplyMaxIdleConnsPerHost(n);
      case RedirectPolicy(f) => err := ApplyRedirectPolicy(f);
      case TLSHandshakeTimeout(t) => err := ApplyTLSHandshakeTimeout(t);
      case ResponseHeaderTimeout(t) => err := ApplyResponseHeaderTimeout(t);
      case WithRoundTripper(rt) => err := ApplyWithRoundTripper(rt);
      case UserOption(e) => err := e;
    }

    /** setOptions */
    method SetOptions(opts: seq<Option<ClientOption>>) returns (err: Option<Error>)
      modifies this`customRoundTripper, this`dialTimeout, this`disableHTTP2, this`disableKeepAlive, this`headers
      modifies this`idleConnTimeout, this`keepAliveTimeout, this`logPrefix, this`logWriter, this`maxIdleConns
      modifies this`maxIdleConnsPerHost, this`redirectFunc, this`responseHeaderTimeout, this`tlsHandshakeTimeout
      ensures (Snapshot(), err) == ClientOptions.SetOptions(old(Snapshot()), opts)
    {
      var i := 0;
      while i < |opts|
        invariant 0 <= i <= |opts|
        invariant (Snapshot(), None) == ClientOptions.SetOptions(old(Snapshot()), opts[..i])
      {
        assert opts[..i + 1][..i] == opts[..i];
        if opts[i].Some? {
          var e := ApplyOption(opts[i].value);
          if e.Some? {
            SetOptionsConcat(old(Snapshot()), opts[..i + 1], opts[i + 1..]);
            assert opts[..i + 1] + opts[i + 1..] == opts;
            return e;
          }
        }
        i := i + 1;
      }
      assert opts[..|opts|] == opts;
      return None;
    }

    /** The logger part of init. */
    method ConfigureLogger()
      requires log.Some?
      modifies this`log
      ensures log == Some(InitLogger(old(log.value), Snapshot()))
    {
      if logWriter.Some? {
        log := Some(log.value.(output := logWriter));
      }
      if logPrefix != DefaultLogPrefix {
        log := Some(log.value.(prefix := logPrefix));
      }
    }

    /** init: set up the logger, resolve the per-host limit, build the
        transport and the *http.Client. */
    method Init() returns (err: Option<Error>)
      requires log.Some?
      modifies this`log, this`maxIdleConnsPerHost, this`transport, this`customRoundTripper, this`client
      ensures log == Some(InitLogger(old(log.value), old(Snapshot())))
      ensures Snapshot() == Realise(old(Snapshot())).config
      ensures transport == Some(Realise(old(Snapshot())).transport)
      ensures client == Some(Realise(old(Snapshot())).client)
      ensures err == None
    {
      ConfigureLogger();
      if maxIdleConnsPerHost < 0 {
        maxIdleConnsPerHost := maxIdleConns;
      }
      assert Realise(Snapshot()) == Realise(old(Snapshot()));
      BuildClient();
      return None;
    }

    /** The transport and *http.Client part of init, once the per-host limit
        is resolved. */
    method BuildClient()
      requires ResolvedPerHost(maxIdleConnsPerHost, maxIdleConns) == maxIdleConnsPerHost
      modifies this`transport, this`customRoundTripper, this`client
      ensures Snapshot() == Realise(old(Snapshot())).config
      ensures transport == Some(Realise(old(Snapshot())).transport)
      ensures client == Some(Realise(old(Snapshot())).client)
    {
      ghost var r := Realise(Snapshot());
      var tr := Transport(
        disableCompression := false,
        disableKeepAlives := disableKeepAlive,
        idleConnTimeout := idleConnTimeout,
        maxIdleConns := maxIdleConns,
        maxIdleConnsPerHost := maxIdleConnsPerHost,
        responseHeaderTimeout := responseHeaderTimeout,
        tlsHandshakeTimeout := tlsHandshakeTimeout,
        forceAttemptHTTP2 := !disableHTTP2);
      transport := Some(tr);
      if customRoundTripper == None {
        customRoundTripper := Some(PooledTransport(tr));
      }
      assert tr == r.transport;
      assert Snapshot() == r.config;
      var hc := NetHttpClient(customRoundTripper.value, None);
      if redirectFunc != None {
        hc := hc.(checkRedirect := redirectFunc);
      }
      client := Some(hc);
    }

    /** New(options...): nil and the error of the first failing option, or
        the initialised client. */
    static method New(options: seq<Option<ClientOption>>) returns (c: Client?, err: Option<Error>)
      ensures NewOutcome(options).Failure? ==> c == null && err == Some(NewOutcome(options).error)
      ensures NewOutcome(options).Success? ==>
                && c != null && fresh(c) && err == None
                && c.Snapshot() == NewOutcome(options).value.config
                && c.transport == Some(NewOutcome(options).value.transport)
                && c.client == Some(NewOutcome(options).value.client)
                && c.log == Some(InitLogger(DefaultLoggerAsWritten(ZeroConfig), NewOutcome(options).value.config))
                && c.log.value.output == NewOutcome(options).value.config.logWriter
                && c.log.value.prefix ==
                     (if NewOutcome(options).value.config.logPrefix == DefaultLogPrefix then ""
                      else NewOutcome(options).value.config.logPrefix)
                && c.currentConnID == 0
    {
      var d := NewDefaultClient();
      var e := d.SetOptions(options);
      if e.Some? {
        return null, e;
      }
      LoggerAsWritten(d.Snapshot());
      err := d.Init();
      c := d;
    }

    /** Client(): the *http.Client built by init. */
    function HttpClient(): (hc: Option<NetHttpClient>)
      reads this
      ensures hc == client
    {
      client
    }

    /** Close: the transport closes its idle connections. It is only
        reachable on a client that went through init. */
    method Close()
      requires transport.Some?
      modifies this`idleDrains
      ensures idleDrains == old(idleDrains) + 1
    {
      idleDrains := idleDrains + 1;
    }

    /** nextConnID: the atomic 64-bit increment of the connection counter. */
    method NextConnID() returns (id: int)
      modifies this`currentConnID
      ensures id == WrapInt64(old(currentConnID) + 1) && currentConnID == id
    {
      currentConnID := WrapInt64(currentConnID + 1);
      id := currentConnID;
    }

    /** dialContext: take the next connection id, dial with the client's
        timeout and keep-alive, and wrap a successful connection so that its
        Close runs a hook carrying the id, network and address. */
    method DialContext(ctx: Context, network: string, addr: string, dial: DialFunc)
      returns (conn: Conn, err: Option<Error>)
      modifies this`currentConnID
      ensures currentConnID == WrapInt64(old(currentConnID) + 1)
      ensures var d := dial(ctx, network, addr, DialerFor(dialTimeout, disableKeepAlive, keepAliveTimeout));
              && (d.Failure? ==> conn == NoConn && err == Some(d.error))
              && (d.Success? ==>
                    && err == None && conn.Wrapped? && fresh(conn.wrapper)
                    && conn.wrapper.conn == d.value
                    && conn.wrapper.onClose == CloseHook(currentConnID, network, addr)
                    && conn.wrapper.steps == [] && conn.wrapper.closes == 0)
    {
      var connID := NextConnID();
      var dialer := Dialer(timeout := dialTimeout, keepAlive := 0);
      if !disableKeepAlive {
        dialer := dialer.(keepAlive := keepAliveTimeout);
      }
      var d := dial(ctx, network, addr, dialer);
      if d.Failure? {
        return NoConn, Some(d.error);
      }
      var w := new ConnWrapper(d.value, CloseHook(connID, network, addr));
      return Wrapped(w), None;
    }

    /** Do: build the request, give it the caller's context, copy the default
        headers, run the options as written (stopping at the first error),
        dispatch, and return what the handler makes of the outcome; the body
        is closed after the handler returns. The orders in which Go visits the keys of
        the default headers and of each AddHeaders argument are returned
        as ghost values. */
    method Do(ctx: Context, onResponse: ResponseHandler, httpMethod: string, url: string,
              body: Option<Reader>, opts: seq<RequestOption>,
              newRequest: NewRequestFunc, roundTrip: RoundTripFunc)
      returns (err: Option<Error>, trace: seq<Event>, ghost defaultOrder: seq<string>, ghost orders: seq<seq<string>>)
      requires client.Some?
      ensures Enumerates(defaultOrder, headers.Keys) && OrdersFit(opts, orders)
      ensures (err, trace) == DoOutcome(headers, client.value, ctx, onResponse, httpMethod, url, body, opts,
                                        newRequest, roundTrip, defaultOrder, orders, false)
      ensures trace != [] <==>
                newRequest(httpMethod, url).None? &&
                forall i :: 0 <= i < |opts| && opts[i].UserRequestOption? ==> opts[i].result.None?
    {
      defaultOrder := Enumeration(headers.Keys);
      orders := SomeOrders(opts);
      trace := [];
      err := newRequest(httpMethod, url);
      if err.Some? {
        DoDispatchesOnce(headers, client.value, ctx, onResponse, httpMethod, url, body, opts,
                         newRequest, roundTrip, defaultOrder, orders, false);
        return;
      }
      var req := new Request(httpMethod, url, body);
      req.ctx := ctx;
      defaultOrder := AddHeaderValues(req, headers);
      ghost var start := req.header;
      var i := 0;
      while i < |opts|
        invariant 0 <= i <= |opts|
        invariant OrdersFit(opts, orders)
        invariant (req.header, None) == ApplyAll(start, opts[..i], orders[..i], false)
        invariant req.ctx == ctx && req.httpMethod == httpMethod && req.url == url && req.body == body
      {
        assert opts[..i + 1][..i] == opts[..i];
        var e;
        ghost var order;
        e, order := Apply(req, opts[i], false);
        orders := orders[i := order];
        assert orders[..i + 1][..i] == orders[..i];
        if e.Some? {
          ApplyAllStopsAtFirstError(start, opts, orders, false, i);
          DoDispatchesOnce(headers, client.value, ctx, onResponse, httpMethod, url, body, opts,
                           newRequest, roundTrip, defaultOrder, orders, false);
          return e, [], defaultOrder, orders;
        }
        i := i + 1;
      }
      assert opts[..|opts|] == opts && orders[..|orders|] == orders;
      assert PreparedHeader(headers, opts, defaultOrder, orders, false) == (req.header, None);
      var hc := client.value;
      var x := roundTrip(hc, req.Value());
      assert req.Value() == RequestValue(httpMethod, url, body, ctx, req.header);
      trace := [Dispatched(hc, req.Value()), Handled(ctx, x.response, x.err)];
      err := onResponse(ctx, x.response, x.err);
      if x.response.Some? && x.response.value.body.Some? {
        trace := trace + [BodyClosed(x.response.value.body.value)];
      }
      assert trace == [Dispatched(hc, req.Value()), Handled(ctx, x.response, x.err)] + BodyCloses(x.response);
      DoDispatchesOnce(headers, client.value, ctx, onResponse, httpMethod, url, body, opts,
                       newRequest, roundTrip, defaultOrder, orders, false);
    }

    /** Get: Do with "GET" and no body. */
    method Get(ctx: Context, onResponse: ResponseHandler, url: string, opts: seq<RequestOption>,
               newRequest: NewRequestFunc, roundTrip: RoundTripFunc)
      returns (err: Option<Error>, trace: seq<Event>, ghost defaultOrder: seq<string>, ghost orders: seq<seq<string>>)
      requires client.Some?
      ensures Enumerates(defaultOrder, headers.Keys) && OrdersFit(opts, orders)
      ensures (err, trace) == DoOutcome(headers, client.value, ctx, onResponse, "GET", url, None, opts,
                                        newRequest, roundTrip, defaultOrder, orders, false)
      ensures trace != [] <==>
                newRequest("GET", url).None? &&
                forall i :: 0 <= i < |opts| && opts[i].UserRequestOption? ==> opts[i].result.None?
    {
      err, trace, defaultOrder, orders := Do(ctx, onResponse, "GET", url, None, opts, newRequest, roundTrip);
    }

    /** Post: Do with "POST" and the given body. */
    method Post(ctx: Context, onResponse: ResponseHandler, url: string, body: Option<Reader>,
                opts: seq<RequestOption>, newRequest: NewRequestFunc, roundTrip: RoundTripFunc)
      returns (err: Option<Error>, trace: seq<Event>, ghost defaultOrder: seq<string>, ghost orders: seq<seq<string>>)
      requires client.Some?
      ensures Enumerates(defaultOrder, headers.Keys) && OrdersFit(opts, orders)
      ensures (err, trace) == DoOutcome(headers, client.value, ctx, onResponse, "POST", url, body, opts,
                                        newRequest, roundTrip, defaultOrder, orders, false)
      ensures trace != [] <==>
                newRequest("POST", url).None? &&
                forall i :: 0 <= i < |opts| && opts[i].UserRequestOption? ==> opts[i].result.None?
    {
      err, trace, defaultOrder, orders := Do(ctx, onResponse, "POST", url, body, opts, newRequest, roundTrip);
    }
  }
}
