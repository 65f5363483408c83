/** Stand-ins for the parts of Go's standard library (net/http, context, io,
    time) the client touches. Only what the library reads or writes is kept:
    durations are opaque integers, readers, writers and contexts are
    identities, and the request is an object whose header is edited in place. */
module Net {
  import opened Wrappers
  import opened HttpHeader
  import opened Errors

  /** time.Duration: a count of nanoseconds. */
  type Duration = int

  const Second: Duration := 1000000000

  /** context.Context, by identity. */
  datatype Context = Background | Context(id: nat)

  /** An io.Reader / io.ReadCloser, by identity. */
  datatype Reader = Reader(id: nat)

  /** An io.Writer, by identity. */
  datatype Writer = Writer(id: nat)

  /** *http.Response: the status and the body, if any. */
  datatype Response = Response(status: int, body: Option<Reader>)

  /** What a request carries when it is dispatched. */
  datatype RequestValue = RequestValue(
    httpMethod: string, url: string, body: Option<Reader>, ctx: Context, header: Header)

  /** *http.Request as built by http.NewRequest: an empty header and the
      background context. */
  class Request {
    const httpMethod: string
    const url: string
    const body: Option<Reader>
    var ctx: Context
    var header: Header

    constructor (httpMethod: string, url: string, body: Option<Reader>)
      ensures this.httpMethod == httpMethod && this.url == url && this.body == body
      ensures ctx == Background && header == map[]
    {
      this.httpMethod, this.url, this.body := httpMethod, url, body;
      ctx := Background;
      header := map[];
    }

    function Value(): RequestValue
      reads this
    {
      RequestValue(httpMethod, url, body, ctx, header)
    }
  }

  /** A redirect check function: the library's default policy or one the
      caller supplied. */
  datatype RedirectFunc = DefaultRedirectPolicy | UserRedirectPolicy(id: nat)

  /** The fields the library sets on an *http.Transport. Its DialContext is
      always the client's own dialer. */
  datatype Transport = Transport(
    disableCompression: bool,
    disableKeepAlives: bool,
    idleConnTimeout: Duration,
    maxIdleConns: int,
    maxIdleConnsPerHost: int,
    responseHeaderTimeout: Duration,
    tlsHandshakeTimeout: Duration,
    forceAttemptHTTP2: bool)

  /** An http.RoundTripper: a pooled transport or one the caller supplied. */
  datatype RoundTripper = PooledTransport(transport: Transport) | UserRoundTripper(id: nat)

  /** The fields the library sets on an *http.Client. */
  datatype NetHttpClient = NetHttpClient(transport: RoundTripper, checkRedirect: Option<RedirectFunc>)

  /** What `(*http.Client).Do` reports: a response, an error, or both. */
  datatype Exchange = Exchange(response: Option<Response>, err: Option<Error>)
}
