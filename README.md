# httpclient, modelled in Dafny

This project models the core of `httpclient`, a small Go library that wraps
`net/http`. The library lets a caller do four things:

- build a client with functional options (`New(options...)`);
- send requests through it (`Do`, `Get`, `Post`), with per-request options
  that edit headers (`AddHeaders`, `DelHeaders`, `SetHeaders`);
- follow redirects under a default policy;
- count and wrap the connections the transport dials.

The modules follow the Go files:

| module | file | what it holds |
|---|---|---|
| `Errors` | client.go, redirect.go | the library's own errors and their texts |
| `HttpHeader` | `http.Header` as the library uses it | `Add` and `Del` (which canonicalise the name), plain assignment (which does not), and folds over map iteration order |
| `Net` | the `net/http` values the library touches | `*http.Request` as a class, the transport fields it sets, `*http.Client` |
| `RequestOptions` | request_option.go | the three header options, as methods on a request and as functions |
| `Responses` | response.go | `ResponseHandler` and `NoopResponseHandler` |
| `Redirect` | redirect.go | `defaultRedirectPolicy` |
| `ClientConfig` | client.go | the defaults, `setDefaults`, the logger set-up and what `init` builds |
| `ClientOptions` | client_option.go | every client `Option` and `setOptions` |
| `Dialers` | dialers.go | the 64-bit connection counter, the dialer, and the `connWrapper` class |
| `Requests` | requests.go | the specification of `Do`: the events it causes and what it returns |
| `Clients` | client.go, dialers.go, requests.go | the `client` struct as a class, with `New`, `init`, `dialContext`, `Do`, `Get` and `Post` |

Go visits map keys in no fixed order. Every loop over a map picks its next key
with `:|`. Where the order can be seen, in the AddHeaders loops (`AddHeaderValues`,
`ApplyAddHeaders`, `Apply` and `Do`), the methods return the order they took as
a ghost value and their contracts tie the result to a fold over that order.
Lemmas then show when the order does not matter: keys that do not collide
after canonicalisation. A further lemma shows a collision where the order does
matter. The loops that delete or assign keys (DelHeaders, SetHeaders, the
redirect copy and the Headers option) cannot be told apart by their order;
their contracts name the result directly.

Three places where the code does not do what it evidently means are modelled
as written, with a corrected version beside each: see "## Findings". The
request pipeline takes a `corrected` flag for SetHeaders; `Client.Do` runs it
as written.

Some things the library calls cannot be seen: `http.NewRequest`'s parsing,
`(*http.Client).Do`, the response handler and `(*net.Dialer).DialContext`.
Each one is a function parameter, so every contract holds for any behaviour
of theirs.

## Model

| member | source | states |
|---|---|---|
| Errors.Message | client.go:35 | `ErrInvalidOptionValue` reads "invalid value for option"; the redirect error reads "too many redirects"; any other error keeps its own text |
| HttpHeader.Canonical | request_option.go:15 | canonicalising a header name keeps its length and leaves a name with a non-token character unchanged |
| HttpHeader.CanonicalFromKeepsToken | request_option.go:15 | canonicalising a token yields a token |
| HttpHeader.CanonicalFromIdempotent | request_option.go:15 | canonicalising the rest of a name twice is the same as once |
| HttpHeader.CanonicalIdempotent | request_option.go:15 | a canonical name is its own canonical form |
| HttpHeader.AddEachAppends | request_option.go:14-16 | adding a list of values under one name appends exactly that list to the canonical name's values, and touches nothing when the list is empty |
| HttpHeader.AddAll | request_option.go:13-17 | the fold of Header.Add over the keys of an argument in a given visiting order, each key's values in list order; its properties are the lemmas below |
| HttpHeader.AddAllByName | request_option.go:13-17 | after adding every key of a header in a given order, each name holds its old values followed by the values of the keys that canonicalise to it, in visiting order |
| HttpHeader.ContributionOfKey | request_option.go:13-17 | when no two keys collide, the values a key contributes under its canonical name are exactly its own list |
| HttpHeader.AddAllOrderIndependent | request_option.go:13-17 | when no two keys collide after canonicalisation, the order Go visits them in does not change the result |
| HttpHeader.AddAllAppendsEachKey | request_option.go:13-17 | for collision-free keys, each canonical name gets its old values plus the key's list, and every other name is untouched |
| HttpHeader.AddAllKeepsOldValues | request_option.go:13-17 | adding never removes a name or a value that was already there |
| HttpHeader.CollidingKeysMakeOrderVisible | request_option.go:13-17 | `x-a` and `X-A` in one argument give `X-A: 1, 2` or `X-A: 2, 1` depending on the visiting order |
| HttpHeader.DelAll | request_option.go:26-28 | deleting every key of an argument removes each canonical name, keeps every other name with its values, and adds nothing |
| HttpHeader.DelAllIdempotent | request_option.go:26-28 | deleting the same names twice is the same as once |
| HttpHeader.Overwrite | client_option.go:47-49 | assigning every key of a source binds each source key to its list exactly, and keeps every other key as it was |
| HttpHeader.OverwriteIdempotent | redirect.go:15-17 | assigning the same keys twice is the same as once |
| RequestOptions.GoCopy | request_option.go:39 | Go's `copy` keeps the destination's length and replaces its first min(len) elements with the source's |
| RequestOptions.SetAllAsWritten | request_option.go:37-41 | SetHeaders as written binds each named key to an empty list and keeps every other key |
| RequestOptions.ApplyTo | request_option.go:11-44 | the built-in options never fail and a caller's option leaves the header alone and returns its own error; SetHeaders binds each named key to an empty list as written, or to the given values when corrected; DelHeaders and SetHeaders add no other key |
| RequestOptions.ApplyAll | requests.go:31-35 | the options run in turn on the header, stopping at the first error; its properties are the two lemmas below |
| RequestOptions.ApplyAllStopsAtFirstError | requests.go:31-35 | once an option fails, the options after it change nothing, and its error is the result |
| RequestOptions.ApplyAllFailsOnlyByUserOption | requests.go:31-35 | applying the options fails exactly when some caller-supplied option returns an error, and the error is one of theirs |
| RequestOptions.AddValues | request_option.go:14-16 | the inner loop appends the key's values, in order, under its canonical name, and leaves the context alone |
| RequestOptions.AddHeaderValues | request_option.go:13-17 | the loop adds every value of every key, in a visiting order that enumerates the keys, and leaves the context alone |
| RequestOptions.ApplyAddHeaders | request_option.go:11-20 | the AddHeaders closure leaves the request header equal to the fold over its visiting order, and returns nil |
| RequestOptions.ApplyDelHeaders | request_option.go:24-31 | the DelHeaders closure removes the canonical form of every named key, whatever values it lists, and returns nil |
| RequestOptions.ApplySetHeaders | request_option.go:35-44 | the corrected SetHeaders closure binds each named key to a copy of its values and keeps the rest |
| RequestOptions.ApplySetHeadersAsWritten | request_option.go:35-44 | the SetHeaders closure as written binds each named key to what `copy` into a nil slice leaves: an empty list |
| RequestOptions.Apply | requests.go:32 | running one option on a request leaves the header and error of ApplyTo, with SetHeaders as written unless the corrected closure is asked for |
| RequestOptions.DelHeadersRemovesNamedKeys | request_option.go:24-31 | DelHeaders removes every named key, even one listed with no values, keeps all others, and is idempotent |
| RequestOptions.SetHeadersReplaces | request_option.go:33-44 | with SetHeaders, each named key holds exactly the given values whatever it held before, and other keys are kept |
| RequestOptions.SetHeadersAsWrittenDropsValues | request_option.go:38-40 | as written, `X-Test: TestClient` with SetHeaders(`X-Test: Override`) leaves `X-Test` empty instead of `Override` |
| Responses.NoopResponseHandler | response.go:13-15 | the no-op handler returns the error it is given |
| Redirect.PolicyOutcome | redirect.go:8-19 | the policy fails iff more than ten requests came before, and then changes nothing; with none it changes nothing; otherwise it assigns the original request's headers and keeps the others |
| Redirect.CopyHeaders | redirect.go:14-18 | the copy loop assigns every header of the original request, by its key as written, and keeps the request's other headers and its context |
| Redirect.DefaultRedirectPolicy | redirect.go:8-19 | the method's new header and error are the policy outcome for the chain's length and its first request's header, and the context is unchanged |
| Redirect.PolicyIdempotent | redirect.go:13-18 | applying the policy again with the same chain changes nothing |
| Redirect.PolicyKeepsOriginalNames | redirect.go:14-18 | after an accepted redirect the request carries every header name of the original and every name of its own |
| Redirect.PolicyBoundary | redirect.go:9-11 | a chain of ten earlier requests is accepted and one of eleven is refused with the redirect error |
| ClientConfig.WithDefaults | client.go:114-129 | setDefaults gives the documented defaults: 10 s dial, 90 s keep-alive, 30 s response header, 10 s TLS handshake, 15 idle connections, per-host unset, empty headers, default redirect policy and prefix; every other field keeps its value |
| ClientConfig.DefaultLoggerAsWritten | client.go:118-122 | as written, the logger is made with discarded output and the prefix the field held before the default was assigned |
| ClientConfig.DefaultLogger | client.go:118-123 | corrected, the logger is made with discarded output and the default prefix |
| ClientConfig.DefaultPrefixLostAsWritten | client.go:118-139 | as written, a client left on the default prefix logs with the empty prefix, though its prefix field holds "[httpclient]: " |
| ClientConfig.InitLogger | client.go:133-139 | init gives the logger the configured writer when one is set, and the configured prefix only when it is not the default |
| ClientConfig.LoggerAsWritten | client.go:118-139 | as written, every client's logger writes to the configured writer, and its prefix is the configured one unless that is the default, in which case it is empty |
| ClientConfig.LoggerFollowsConfig | client.go:133-139 | with the corrected logger, init leaves it writing to the configured writer with the configured prefix, default or not |
| ClientConfig.ResolvedPerHost | client.go:140-143 | a negative per-host limit becomes the pool limit, and any other value is kept |
| ClientConfig.BuildTransport | client.go:145-155 | the transport takes each limit and timeout from the configuration, attempts HTTP/2 unless it is disabled, and leaves compression on |
| ClientConfig.Realise | client.go:132-172 | init resolves the per-host limit and uses the built transport unless a custom round tripper is set; the http.Client gets that round tripper and the redirect function; nothing else changes |
| ClientConfig.RealiseLimitsNonNegative | client.go:141-155 | with a non-negative pool limit, both idle limits of the transport are non-negative |
| ClientOptions.ApplyOption | client_option.go:15-167 | each option changes only its own field; it fails iff it is a negative idle count (invalid value, client untouched) or a caller option that errs; on success its field holds its argument; Headers assigns each given key |
| ClientOptions.SetOptions | client_option.go:170-180 | the options run in list order on the configuration, nil skipped, stopping at the first error; its properties are the lemmas below |
| ClientOptions.SetOptionsConcat | client_option.go:170-180 | running two lists of options is running the first, then the second unless the first failed |
| ClientOptions.SetOptionsSkipsNil | client_option.go:172-175 | a nil option is skipped |
| ClientOptions.SetOptionsStopsAtFirstError | client_option.go:176-178 | the first failing option's result is the result, and later options are not run |
| ClientOptions.SetOptionsSucceedsIffEachSucceeds | client_option.go:170-180 | setOptions succeeds iff every non-nil option succeeds on the configuration its predecessors left |
| ClientOptions.NegativeCountRejected | client_option.go:101-123 | a negative MaxIdleConns or MaxIdleConnsPerHost anywhere makes setOptions fail, with the invalid-value error when nothing earlier failed |
| ClientOptions.ValidOptionsSucceed | client_option.go:170-180 | options with no negative count and no failing caller option always succeed |
| ClientOptions.SetOptionsKeepsLimitsSane | client_option.go:101-123 | from sane limits (pool ≥ 0, per-host ≥ 0 or unset) the options keep them sane |
| ClientOptions.SetOptionsKeepsPerHost | client_option.go:115-123 | without a MaxIdleConnsPerHost option the per-host limit is unchanged |
| ClientOptions.SetOptionsKeepsFlags | client_option.go:25-39 | no option turns a disabling flag off again |
| ClientOptions.SetOptionsAppliesFlag | client_option.go:25-39 | after successful options, DisableKeepAlive or DisableHTTP2 anywhere leaves its flag set |
| Dialers.WrapInt64 | dialers.go:10 | the 64-bit increment is in range, keeps in-range values, wraps the maximum to the minimum, and agrees with the unbounded sum modulo 2^64 |
| Dialers.CounterAfter | dialers.go:9-11 | after n calls to nextConnID the counter is an int64 congruent to its start plus n modulo 2^64 |
| Dialers.ConnIDsCount | dialers.go:9-11 | from a fresh client the n-th id is n until the counter wraps |
| Dialers.ConnIDsDistinct | dialers.go:9-11 | no two of the first 2^63-1 ids repeat |
| Dialers.ConnIDWraps | dialers.go:10 | the id after the largest int64 is the smallest |
| Dialers.DialerFor | dialers.go:15-20 | each dial uses the client's dial timeout, and its keep-alive period unless keep-alive is disabled, when the field stays zero |
| Dialers.ProbePeriod | dialers.go:15-20 | a dialer's connections get keep-alive probes at the default 15 s period when the field is zero, at the field's period when it is positive, and none when it is negative |
| Dialers.DisabledKeepAliveStillProbes | dialers.go:15-20 | as written, with DisableKeepAlive the dialer's field is zero, so connections still get probes every 15 s |
| Dialers.CorrectedDialerFor | client_option.go:32-39 | corrected, a disabled keep-alive gives the dialer a negative period; otherwise the client's period |
| Dialers.CorrectedDialerHonoursDisable | client_option.go:32-39 | with the corrected dialer, DisableKeepAlive means no probes, and without it the dialer is the one as written |
| Dialers.ConnWrapper.constructor | dialers.go:37-39 | newConn keeps the connection and the hook and has closed nothing |
| Dialers.ConnWrapper.Close | dialers.go:46-49 | Close runs the hook, then closes the wrapped connection once more, and returns the error that connection gives for this Close, which may differ from an earlier one's |
| Requests.PreparedHeader | requests.go:24-35 | the request's header: the client's defaults added to an empty header in a visiting order, then the options run in turn |
| Requests.DoOutcome | requests.go:12-44 | Do's result and events: the build error, or the first caller option's error, or one dispatch, one handler call and the body's close; its properties are the lemmas below |
| Requests.BodyCloses | requests.go:38-42 | the body is closed once, when there is a response with a body, and never otherwise |
| Requests.DoReportsBuildError | requests.go:19-22 | when the request cannot be built, Do returns that error and does nothing else |
| Requests.DoDispatchesOnce | requests.go:12-44 | Do dispatches exactly once and calls the handler exactly once iff the request builds and no caller option fails; the request carries the method, URL, body, caller's context and prepared header; Do returns the handler's result; otherwise the error is the build error or a caller option's |
| Requests.DoWithNoopReturnsDispatchError | requests.go:37-43 | with the no-op handler, Do returns the dispatch's error |
| Requests.AddHeadersAppendAfterDefaults | requests.go:25-35 | AddHeaders appends its values after the client's default values under each name |
| Requests.SetHeadersOverridesDefault | request_option_test.go:14-74 | with a default `k: dv` and SetHeaders(`k: sv`), the request with SetHeaders corrected goes out with `k: sv` only |
| Requests.SetHeadersEmptiesDefaultAsWritten | request_option.go:38-40 | as written, the same request goes out with `k` bound to an empty list: both the default and the option's value are lost |
| Clients.NewOutcome | client.go:98-104 | New fails iff the options fail, with their error; otherwise it is init applied to the configured defaults |
| Clients.NewWithoutOptions | client.go:13-31 | with no options, New builds the documented transport (15 idle connections, 15 per host, 30 s and 10 s timeouts, HTTP/2 attempted), the default redirect policy, no headers, the default prefix, and a 10 s / 90 s dialer |
| Clients.NewLimitsNonNegative | client.go:140-155 | whatever the options, a built transport never has a negative idle limit |
| Clients.NewPerHostFollowsPoolLimit | client.go:140-143 | without MaxIdleConnsPerHost, the per-host limit equals the pool limit |
| Clients.NewRejectsNegativeLimit | client_option.go:101-123 | a negative idle limit anywhere makes New fail, with the invalid-value error when nothing earlier failed |
| Clients.NewHonoursDisablingOptions | client.go:145-155 | DisableKeepAlive turns keep-alive off in the transport and leaves the dialer's keep-alive period at zero; DisableHTTP2 stops the HTTP/2 attempt |
| Clients.NewRejections | client_test.go:37-50 | New with a failing caller option returns its error "badd"; MaxIdleConns(-1) and MaxIdleConnsPerHost(-2) return the invalid-value error |
| Clients.CustomRoundTripperErrorReachesCaller | round_tripper_test.go:11-30 | with WithRoundTripper, requests go through that round tripper, and Get with a pass-through handler returns its error after exactly one dispatch |
| Clients.Client.constructor | client.go:108 | `new(client)` has every field at its zero value |
| Clients.Client.SetDefaults | client.go:114-129 | setDefaults assigns the defaults, and makes the logger from the prefix the field held before the default was assigned |
| Clients.Client.NewDefaultClient | client.go:107-111 | a new default client's configuration is the default configuration, and its logger has the empty prefix |
| Clients.Client.MergeHeaders | client_option.go:47-49 | the Headers loop leaves the client's headers equal to the old headers with each given key assigned |
| Clients.Client.ApplyDialTimeout | client_option.go:15-20 | sets the dial timeout only, and returns nil |
| Clients.Client.ApplyDisableHTTP2 | client_option.go:25-30 | sets the HTTP/2 flag only, and returns nil |
| Clients.Client.ApplyDisableKeepAlive | client_option.go:34-39 | sets the keep-alive flag only, and returns nil |
| Clients.Client.ApplyIdleConnTimeout | client_option.go:58-63 | sets the idle timeout only, and returns nil |
| Clients.Client.ApplyKeepAliveTimeout | client_option.go:71-76 | sets the keep-alive period only, and returns nil |
| Clients.Client.ApplyLogger | client_option.go:81-86 | sets the log writer only, and returns nil |
| Clients.Client.ApplyLogPrefix | client_option.go:91-96 | sets the log prefix only, and returns nil |
| Clients.Client.ApplyRedirectPolicy | client_option.go:129-134 | sets the redirect function only, and returns nil |
| Clients.Client.ApplyTLSHandshakeTimeout | client_option.go:138-143 | sets the TLS handshake timeout only, and returns nil |
| Clients.Client.ApplyResponseHeaderTimeout | client_option.go:147-152 | sets the response header timeout only, and returns nil |
| Clients.Client.ApplyWithRoundTripper | client_option.go:162-167 | sets the custom round tripper only, and returns nil |
| Clients.Client.ApplyMaxIdleConns | client_option.go:101-109 | a negative count leaves the client unchanged and returns the invalid-value error; otherwise sets the pool limit only |
| Clients.Client.ApplyMaxIdleConnsPerHost | client_option.go:115-123 | a negative count leaves the client unchanged and returns the invalid-value error; otherwise sets the per-host limit only |
| Clients.Client.ApplyHeaders | client_option.go:45-52 | assigns each given key in the client's headers, changes nothing else, and returns nil |
| Clients.Client.ApplyOption | client_option.go:176-178 | running an option on the client gives the configuration and error of the option's specification |
| Clients.Client.SetOptions | client_option.go:170-180 | the loop leaves the configuration and error of the setOptions specification: nil skipped, first error returned |
| Clients.Client.ConfigureLogger | client.go:133-139 | the logger takes the writer if one is set, and the prefix if it is not the default |
| Clients.Client.Init | client.go:132-172 | init leaves the configuration, transport and http.Client that the specification of init gives, and returns nil |
| Clients.Client.BuildClient | client.go:144-169 | the transport and http.Client are those of the specification, once the per-host limit is resolved |
| Clients.Client.New | client.go:98-139 | New returns nil and the first option error, or a fresh initialised client with the specified configuration, transport and http.Client and the counter at zero; its logger writes to the configured writer, with the configured prefix unless that is the default, in which case with none |
| Clients.Client.HttpClient | client.go:87-89 | Client() returns the http.Client built by init |
| Clients.Client.Close | client.go:92-95 | Close asks the transport to drop its idle connections once |
| Clients.Client.NextConnID | dialers.go:9-11 | the counter moves to its 64-bit wrapped successor, and that is the id returned |
| Clients.Client.DialContext | dialers.go:13-34 | each dial takes the next id and dials with the client's dialer; a failure is returned as is; a success comes back wrapped, with a hook carrying the id, network and address |
| Clients.Client.Do | requests.go:12-44 | Do's error and events are those of the Do specification with SetHeaders as written, for the orders in which Go visits the header keys; it dispatches iff the request builds and no caller option fails |
| Clients.Client.Get | requests.go:47-54 | Get is Do with "GET" and no body, and dispatches iff the request builds and no caller option fails |
| Clients.Client.Post | requests.go:58-66 | Post is Do with "POST" and the given body, and dispatches iff the request builds and no caller option fails |

## Left out

- Logging: the lines the client writes (`Printf` in init, dialContext, the close hook and Close) are not modelled. The logger is modelled only as its output writer and prefix.
- Log flags: the flags passed to `log.New` are not modelled, because they only format output.
- Concurrency: the atomic counter is modelled as a plain 64-bit wrap-around increment, and concurrent use of a client is not modelled.
- net/http internals: URL parsing in `http.NewRequest`, the round trip, the response handler and `net.Dialer.DialContext` are function parameters with any behaviour.
- `WithContext`: the shallow copy it makes of the request is modelled as setting the request's context in place. No one else holds the request, so the difference cannot be seen.
- Aliasing: Go slices and maps are shared by reference, for example the header lists the Headers option and the redirect policy assign. The model uses values, so a later change through another alias is not captured.
- Caller-supplied options: a caller's client `Option` or `RequestOption` is modelled as returning a fixed error and changing nothing. What such a function may do to the client or request is not modelled.
- Clients.Client.Close: the transport's `CloseIdleConnections` is modelled only as a count of calls.
- Close on a client without a transport: this nil dereference is outside the model. Close requires a transport, which every client from New has.
- Clients.Client.Do, Get, Post: they require the http.Client that init builds. Every client returned by New has one.
- Clients.Client.Do: a nil entry among the request options, a nil response handler or a nil context makes the Go code panic (requests.go:23, 32 and 43); unlike setOptions, Do does not skip nil options. The model's types have no nil for these, so those calls and their panics are not modelled.
- Dialers.DialerFor: its contract spells out the dialer, which reads like its body. Its partners are Clients.NewWithoutOptions, Clients.NewHonoursDisablingOptions and Dialers.DisabledKeepAliveStillProbes. What `net.Dialer` does with the period is modelled only as Dialers.ProbePeriod, as net.Dialer documents it.
- Clients.Client.DialContext: when the dial fails, the result carries no connection. The Go code returns whatever connection the dialer gave alongside the error, which for `net.Dialer` is nil.
- Custom round-tripper errors: net/http wraps these in a `*url.Error`, whose text contains the round tripper's. That wrapping is part of the dispatch parameter.
- AddHeaders with colliding keys: when two keys canonicalise to the same name, the resulting order of values depends on Go's map iteration. The model states this for a given visiting order and exhibits the effect, but does not fix the order.
- Invalid-value error: client_option.go returns `ErrInvalidValue`, which is not defined in the files modelled. It is taken to be `ErrInvalidOptionValue` (client.go:35), as client_test.go:42-43 expects.
- Old files: do.go, get.go and post.go are not part of this model. They define an older `Client` type whose methods duplicate requests.go.
- Tracing: the tracing option exercised in client_test.go is not part of this model.

## Findings

| source | as written | input that shows it | evidently intended | confidence | as-written member | corrected member |
|---|---|---|---|---|---|---|
| request_option.go:38-40 | `copy` into a nil slice copies nothing, so SetHeaders binds every named key to an empty list | a client default `X-Test: TestClient` and `SetHeaders(X-Test: Override)`: the request carries `X-Test` with no value | each named key holds exactly the given values (request_option.go:33-34, request_option_test.go:14-74) | high, not executed | RequestOptions.ApplySetHeadersAsWritten, RequestOptions.SetHeadersAsWrittenDropsValues, Requests.SetHeadersEmptiesDefaultAsWritten | RequestOptions.ApplySetHeaders, RequestOptions.SetHeadersReplaces, Requests.SetHeadersOverridesDefault |
| client.go:118-123 | setDefaults makes the logger from `c.logPrefix` before assigning it the default, so the logger's prefix is empty. init then skips `SetPrefix` because the field equals the default | `New()` with no LogPrefix option: the client logs with the empty prefix instead of "[httpclient]: " | the logger uses the configured prefix, the default one included | high, not executed | ClientConfig.DefaultLoggerAsWritten, ClientConfig.DefaultPrefixLostAsWritten, ClientConfig.LoggerAsWritten | ClientConfig.DefaultLogger, ClientConfig.LoggerFollowsConfig |
| dialers.go:15-20 | with DisableKeepAlive the dialer's KeepAlive is left at zero, which net.Dialer reads as "use the default period", so TCP keep-alive probes are still sent | `New(DisableKeepAlive())`, then any dial: the connection sends keep-alive probes every 15 s | DisableKeepAlive "disables KeepAlive for the tcp connection" (client_option.go:32-33), which net.Dialer does for a negative KeepAlive | medium, not executed | Dialers.DialerFor, Dialers.DisabledKeepAliveStillProbes | Dialers.CorrectedDialerFor, Dialers.CorrectedDialerHonoursDisable |
