/** The client's configuration (client.go): the default values, the fields
    the options write, and how `init` resolves them into the transport and
    the *http.Client it builds. */
module ClientConfig {
  import opened Wrappers
  import opened HttpHeader
  import opened Net

  const DefaultDialTimeout: Duration := 10 * Second
  const DefaultTLSHandshakeTimeout: Duration := 10 * Second
  const DefaultResponseHeaderTimeout: Duration := 30 * Second
  const DefaultMaxIdleConns: int := 15
  const DefaultKeepAliveTimeout: Duration := 90 * Second
  const DefaultLogPrefix: string := "[httpclient]: "

  /** A per-host idle limit below zero means "not set". */
  const UnsetPerHost: int := -1

  /** The configurable fields of a client. */
  datatype Config = Config(
    customRoundTripper: Option<RoundTripper>,
    dialTimeout: Duration,
    disableHTTP2: bool,
    disableKeepAlive: bool,
    headers: Header,
    idleConnTimeout: Duration,
    keepAliveTimeout: Duration,
    logPrefix: string,
    logWriter: Option<Writer>,
    maxIdleConns: int,
    maxIdleConnsPerHost: int,
    redirectFunc: Option<RedirectFunc>,
    responseHeaderTimeout: Duration,
    tlsHandshakeTimeout: Duration)

  /** The fields of a client just allocated with new(client): all zero. */
  const ZeroConfig: Config :=
    Config(None, 0, false, false, map[], 0, 0, "", None, 0, 0, None, 0, 0)

  /** setDefaults: the fields it assigns take the default values, the others
      keep what they had. */
  function WithDefaults(c: Config): (d: Config)
    ensures d.dialTimeout == 10 * Second && d.keepAliveTimeout == 90 * Second
    ensures d.responseHeaderTimeout == 30 * Second && d.tlsHandshakeTimeout == 10 * Second
    ensures d.maxIdleConns == 15 && d.maxIdleConnsPerHost < 0
    ensures d.headers == map[] && d.redirectFunc == Some(DefaultRedirectPolicy)
    ensures d.logPrefix == DefaultLogPrefix
    ensures d.idleConnTimeout == c.idleConnTimeout && d.disableHTTP2 == c.disableHTTP2
    ensures d.disableKeepAlive == c.disableKeepAlive && d.logWriter == c.logWriter
    ensures d.customRoundTripper == c.customRoundTripper
  {
    c.(dialTimeout := DefaultDialTimeout,
       headers := map[],
       keepAliveTimeout := DefaultKeepAliveTimeout,
       logPrefix := DefaultLogPrefix,
       maxIdleConns := DefaultMaxIdleConns,
       maxIdleConnsPerHost := UnsetPerHost,
       redirectFunc := Some(DefaultRedirectPolicy),
       responseHeaderTimeout := DefaultResponseHeaderTimeout,
       tlsHandshakeTimeout := DefaultTLSHandshakeTimeout)
  }

  /** The configuration of a client made by newDefaultClient. */
  const DefaultConfig: Config := WithDefaults(ZeroConfig)

  /** A *log.Logger as the client configures it: where it writes (None is
      ioutil.Discard) and the prefix of its lines. */
  datatype Logger = Logger(output: Option<Writer>, prefix: string)

  /** The logger setDefaults creates, as written: it is built from the
      prefix field before that field receives its default, so from the
      prefix the client had until then. */
  function DefaultLoggerAsWritten(before: Config): (l: Logger)
    ensures l.output == None && l.prefix == before.logPrefix
  {
    Logger(None, before.logPrefix)
  }

  /** The logger setDefaults creates, corrected: built once the prefix field
      holds the default prefix. */
  function DefaultLogger(): (l: Logger)
    ensures l.output == None && l.prefix == DefaultLogPrefix
  {
    Logger(None, DefaultLogPrefix)
  }

  /** The logger after init: it writes to the configured writer, if any, and
      takes the configured prefix unless that is the default one. */
  function InitLogger(l: Logger, c: Config): (r: Logger)
    ensures r.output == if c.logWriter.Some? then c.logWriter else l.output
    ensures r.prefix == if c.logPrefix == DefaultLogPrefix then l.prefix else c.logPrefix
  {
    var l := if c.logWriter.Some? then l.(output := c.logWriter) else l;
    if c.logPrefix != DefaultLogPrefix then l.(prefix := c.logPrefix) else l
  }

  /** As written, a client left with the default prefix logs with no prefix
      at all: the default prefix never reaches its logger. */
  lemma DefaultPrefixLostAsWritten()
    ensures InitLogger(DefaultLoggerAsWritten(ZeroConfig), DefaultConfig).prefix == ""
    ensures DefaultConfig.logPrefix == "[httpclient]: "
  {
  }

  /** As written, every client's logger writes where the configuration
      says, but a client on the default prefix logs with the empty one. */
  lemma LoggerAsWritten(c: Config)
    ensures InitLogger(DefaultLoggerAsWritten(ZeroConfig), c) ==
            Logger(c.logWriter, if c.logPrefix == DefaultLogPrefix then "" else c.logPrefix)
  {
  }

  /** With the corrected setDefaults, the logger always writes where the
      configuration says and with the configured prefix, default or not. */
  lemma LoggerFollowsConfig(c: Config)
    ensures InitLogger(DefaultLogger(), c) == Logger(c.logWriter, c.logPrefix)
  {
  }

  /** A negative per-host idle limit is replaced by the pool-wide one. */
  function ResolvedPerHost(perHost: int, maxIdle: int): (r: int)
    ensures perHost >= 0 ==> r == perHost
    ensures perHost < 0 ==> r == maxIdle
    ensures maxIdle >= 0 ==> r >= 0
  {
    if perHost < 0 then maxIdle else perHost
  }

  /** The *http.Transport built by init from a resolved configuration. */
  function BuildTransport(c: Config): (t: Transport)
    ensures t.forceAttemptHTTP2 == !c.disableHTTP2 && t.disableKeepAlives == c.disableKeepAlive
    ensures t.maxIdleConns == c.maxIdleConns && t.maxIdleConnsPerHost == c.maxIdleConnsPerHost
    ensures t.idleConnTimeout == c.idleConnTimeout && t.tlsHandshakeTimeout == c.tlsHandshakeTimeout
    ensures t.responseHeaderTimeout == c.responseHeaderTimeout
    ensures !t.disableCompression
  {
    Transport(
      disableCompression := false,
      disableKeepAlives := c.disableKeepAlive,
      idleConnTimeout := c.idleConnTimeout,
      maxIdleConns := c.maxIdleConns,
      maxIdleConnsPerHost := c.maxIdleConnsPerHost,
      responseHeaderTimeout := c.responseHeaderTimeout,
      tlsHandshakeTimeout := c.tlsHandshakeTimeout,
      forceAttemptHTTP2 := !c.disableHTTP2)
  }

  /** What init leaves behind: the resolved configuration, the transport and
      the *http.Client. */
  datatype Realised = Realised(config: Config, transport: Transport, client: NetHttpClient)

  /** init: resolve the per-host limit, build the transport, use it as the
      round tripper unless a custom one was given, and install the redirect
      function when there is one. */
  function Realise(c: Config): (r: Realised)
    ensures r.config.maxIdleConnsPerHost == ResolvedPerHost(c.maxIdleConnsPerHost, c.maxIdleConns)
    ensures r.transport == BuildTransport(r.config)
    ensures c.customRoundTripper.Some? ==> r.client.transport == c.customRoundTripper.value
    ensures c.customRoundTripper.None? ==> r.client.transport == PooledTransport(r.transport)
    ensures r.config.customRoundTripper == Some(r.client.transport)
    ensures r.client.checkRedirect == c.redirectFunc
    ensures r.config == c.(maxIdleConnsPerHost := r.config.maxIdleConnsPerHost,
                           customRoundTripper := r.config.customRoundTripper)
  {
    var resolved := c.(maxIdleConnsPerHost := ResolvedPerHost(c.maxIdleConnsPerHost, c.maxIdleConns));
    var tr := BuildTransport(resolved);
    var rt := if resolved.customRoundTripper.None? then PooledTransport(tr) else resolved.customRoundTripper.value;
    var checkRedirect := if resolved.redirectFunc.Some? then resolved.redirectFunc else None;
    Realised(resolved.(customRoundTripper := Some(rt)), tr, NetHttpClient(rt, checkRedirect))
  }

  /** The limits init resolves are never negative when the pool-wide limit is
      not and the per-host one is either unset or valid. */
  lemma RealiseLimitsNonNegative(c: Config)
    requires c.maxIdleConns >= 0
    ensures Realise(c).transport.maxIdleConns >= 0 && Realise(c).transport.maxIdleConnsPerHost >= 0
  {
  }
}
