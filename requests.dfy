/** Making a request (requests.go): build the request, give it the caller's
    context, copy the client's default headers, run the request options,
    dispatch, hand the outcome to the response handler, and close the
    response body afterwards. */
module Requests {
  import opened Wrappers
  import opened Errors
  import opened HttpHeader
  import opened Net
  import opened RequestOptions
  import opened Responses

  /** What a call to Do does that is visible outside it, in order. */
  datatype Event =
    | Dispatched(client: NetHttpClient, request: RequestValue)
    | Handled(ctx: Context, response: Option<Response>, err: Option<Error>)
    | BodyClosed(body: Reader)

  /** The deferred close of the response body, when there is a body. */
  function BodyCloses(res: Option<Response>): (es: seq<Event>)
    ensures |es| <= 1
    ensures es != [] <==> res.Some? && res.value.body.Some?
    ensures es != [] ==> es[0] == BodyClosed(res.value.body.value)
  {
    if res.Some? && res.value.body.Some? then [BodyClosed(res.value.body.value)] else []
  }

  /** `http.NewRequest`, outside the model: the error it reports for a
      method or URL it cannot parse. */
  type NewRequestFunc = (string, string) -> Option<Error>

  /** `(*http.Client).Do`, outside the model: what dispatching a request with
      a given client reports. */
  type RoundTripFunc = (NetHttpClient, RequestValue) -> Exchange

  /** The header a request is dispatched with: the client's defaults added in
      `defaultOrder`, then the options run in turn (SetHeaders as written, or
      corrected when `corrected` holds). */
  function PreparedHeader(defaults: Header, opts: seq<RequestOption>, defaultOrder: seq<string>,
                          orders: seq<seq<string>>, corrected: bool): (Header, Option<Error>)
    requires |orders| == |opts|
  {
    ApplyAll(AddAll(map[], defaults, defaultOrder), opts, orders, corrected)
  }

  /** What Do returns and the events it causes. */
  function DoOutcome(defaults: Header, hc: NetHttpClient, ctx: Context, onResponse: ResponseHandler,
                     httpMethod: string, url: string, body: Option<Reader>, opts: seq<RequestOption>,
                     newRequest: NewRequestFunc, roundTrip: RoundTripFunc,
                     defaultOrder: seq<string>, orders: seq<seq<string>>, corrected: bool): (r: (Option<Error>, seq<Event>))
    requires |orders| == |opts|
  {
    var built := newRequest(httpMethod, url);
    if built.Some? then (built, [])
    else
      var (h, e) := PreparedHeader(defaults, opts, defaultOrder, orders, corrected);
      if e.Some? then (e, [])
      else
        var rv := RequestValue(httpMethod, url, body, ctx, h);
        var x := roundTrip(hc, rv);
        (onResponse(ctx, x.response, x.err),
         [Dispatched(hc, rv), Handled(ctx, x.response, x.err)] + BodyCloses(x.response))
  }

  /** When the request cannot be built, Do returns that error at once. */
  lemma DoReportsBuildError(defaults: Header, hc: NetHttpClient, ctx: Context, onResponse: ResponseHandler,
                            httpMethod: string, url: string, body: Option<Reader>, opts: seq<RequestOption>,
                            newRequest: NewRequestFunc, roundTrip: RoundTripFunc,
                            defaultOrder: seq<string>, orders: seq<seq<string>>, corrected: bool)
    requires |orders| == |opts|
    requires newRequest(httpMethod, url).Some?
    ensures DoOutcome(defaults, hc, ctx, onResponse, httpMethod, url, body, opts, newRequest, roundTrip,
                      defaultOrder, orders, corrected) == (newRequest(httpMethod, url), [])
  {
  }

  /** The request is dispatched, and the handler called, exactly when it can
      be built and no request option fails; then the first event is the one
      dispatch, the second the one call of the handler, whose result Do
      returns, and the rest is at most the close of the body. Otherwise
      nothing is dispatched and the error is that of NewRequest or of a
      caller-supplied option. */
  lemma DoDispatchesOnce(defaults: Header, hc: NetHttpClient, ctx: Context, onResponse: ResponseHandler,
                         httpMethod: string, url: string, body: Option<Reader>, opts: seq<RequestOption>,
                         newRequest: NewRequestFunc, roundTrip: RoundTripFunc,
                         defaultOrder: seq<string>, orders: seq<seq<string>>, corrected: bool)
    requires |orders| == |opts|
    ensures var (err, trace) := DoOutcome(defaults, hc, ctx, onResponse, httpMethod, url, body, opts,
                                          newRequest, roundTrip, defaultOrder, orders, corrected);
            && (trace != [] <==>
                  newRequest(httpMethod, url).None? &&
                  forall i :: 0 <= i < |opts| && opts[i].UserRequestOption? ==> opts[i].result.None?)
            && (trace != [] ==>
                  && 2 <= |trace| <= 3
                  && trace[0].Dispatched? && trace[0].client == hc
                  && trace[1].Handled? && trace[1].ctx == ctx
                  && trace[0].request.ctx == ctx && trace[0].request.httpMethod == httpMethod
                  && trace[0].request.url == url && trace[0].request.body == body
                  && trace[0].request.header == PreparedHeader(defaults, opts, defaultOrder, orders, corrected).0
                  && (trace[1].response, trace[1].err) == (roundTrip(hc, trace[0].request).response, roundTrip(hc, trace[0].request).err)
                  && err == onResponse(ctx, trace[1].response, trace[1].err)
                  && (forall i :: 2 <= i < |trace| ==> trace[i].BodyClosed?))
            && (trace == [] ==>
                  err == newRequest(httpMethod, url) ||
                  exists i :: 0 <= i < |opts| && opts[i] == UserRequestOption(err) && err.Some?)
  {
    ApplyAllFailsOnlyByUserOption(AddAll(map[], defaults, defaultOrder), opts, orders, corrected);
  }

  /** With NoopResponseHandler, Do returns exactly the error of the dispatch
      (a custom round tripper's error, for one). */
  lemma DoWithNoopReturnsDispatchError(defaults: Header, hc: NetHttpClient, ctx: Context,
                                       httpMethod: string, url: string, body: Option<Reader>,
                                       opts: seq<RequestOption>, newRequest: NewRequestFunc,
                                       roundTrip: RoundTripFunc,
                                       defaultOrder: seq<string>, orders: seq<seq<string>>, corrected: bool)
    requires |orders| == |opts|
    requires newRequest(httpMethod, url).None?
    requires PreparedHeader(defaults, opts, defaultOrder, orders, corrected).1.None?
    ensures var rv := RequestValue(httpMethod, url, body, ctx, PreparedHeader(defaults, opts, defaultOrder, orders, corrected).0);
            DoOutcome(defaults, hc, ctx, NoopResponseHandler, httpMethod, url, body, opts, newRequest, roundTrip,
                      defaultOrder, orders, corrected).0 == roundTrip(hc, rv).err
  {
  }

  /** The client's default headers come first: an AddHeaders option appends
      its values after them under each name, when its keys do not collide
      after canonicalisation. */
  lemma AddHeadersAppendAfterDefaults(defaults: Header, arg: Header, defaultOrder: seq<string>,
                                      order: seq<string>, corrected: bool, k: string)
    requires Enumerates(order, arg.Keys) && CollisionFree(arg) && k in arg
    ensures var h := PreparedHeader(defaults, [AddHeaders(arg)], defaultOrder, [order], corrected);
            h.1 == None &&
            Values(h.0, Canonical(k)) == Values(AddAll(map[], defaults, defaultOrder), Canonical(k)) + arg[k]
  {
    var base := AddAll(map[], defaults, defaultOrder);
    assert ApplyAll(base, [AddHeaders(arg)], [order], corrected) == (AddAll(base, arg, order), None) by {
      assert [AddHeaders(arg)][..0] == [] && [order][..0] == [];
    }
    AddAllByName(base, arg, order, Canonical(k));
    ContributionOfKey(arg, order, k);
  }

  /** Header.Add on an empty header. */
  lemma AddToEmpty(k: string, v: string)
    ensures Add(map[], k, v) == map[Canonical(k) := [v]]
  {
    var none: seq<string> := [];
    assert Values(map[], Canonical(k)) == none;
    assert none + [v] == [v];
  }

  /** The default header of a client made with one Header.Add, merged into a
      request in any order. */
  lemma OneDefaultMerged(k: string, dv: string, defaultOrder: seq<string>)
    requires Enumerates(defaultOrder, {Canonical(k)})
    ensures AddAll(map[], Add(map[], k, dv), defaultOrder) == map[Canonical(k) := [dv]]
  {
    var name := Canonical(k);
    var defaults := Add(map[], k, dv);
    AddToEmpty(k, dv);
    CanonicalIdempotent(k);
    AddAllOrderIndependent(map[], defaults, defaultOrder, [name]);
    assert [name][..0] == [];
    assert AddEach(map[], name, [dv]) == Add(map[], name, dv) by {
      assert [dv][..0] == [];
    }
    AddToEmpty(name, dv);
  }

  /** With SetHeaders corrected, a request option replaces a default: with
      a default header `k: dv` and SetHeaders(`k: sv`), both built with
      Header.Add (as `X-Test: TestClient` and `X-Test: Override`), the
      request goes out with `k: sv` only. */
  lemma SetHeadersOverridesDefault(k: string, dv: string, sv: string, defaultOrder: seq<string>)
    requires Enumerates(defaultOrder, {Canonical(k)})
    ensures var defaults := Add(map[], k, dv);
            var arg := Add(map[], k, sv);
            PreparedHeader(defaults, [SetHeaders(arg)], defaultOrder, [[]], true) == (arg, None) &&
            arg == map[Canonical(k) := [sv]]
  {
    var arg := Add(map[], k, sv);
    AddToEmpty(k, sv);
    OneDefaultMerged(k, dv, defaultOrder);
    var base := AddAll(map[], Add(map[], k, dv), defaultOrder);
    assert ApplyAll(base, [SetHeaders(arg)], [[]], true) == (Overwrite(base, arg), None) by {
      assert [SetHeaders(arg)][..0] == [];
      var noOrders: seq<seq<string>> := [];
      assert [[]][..0] == noOrders;
    }
    assert base.Keys == arg.Keys;
    assert Overwrite(base, arg) == arg;
  }

  /** As written, the same call sends the header with no value at all: the
      default `k: dv` and the option's `k: sv` are both lost. */
  lemma SetHeadersEmptiesDefaultAsWritten(k: string, dv: string, sv: string, defaultOrder: seq<string>)
    requires Enumerates(defaultOrder, {Canonical(k)})
    ensures var defaults := Add(map[], k, dv);
            var arg := Add(map[], k, sv);
            PreparedHeader(defaults, [SetHeaders(arg)], defaultOrder, [[]], false) == (map[Canonical(k) := []], None)
  {
    var arg := Add(map[], k, sv);
    AddToEmpty(k, sv);
    OneDefaultMerged(k, dv, defaultOrder);
    var base := AddAll(map[], Add(map[], k, dv), defaultOrder);
    assert ApplyAll(base, [SetHeaders(arg)], [[]], false) == (SetAllAsWritten(base, arg), None) by {
      assert [SetHeaders(arg)][..0] == [];
      var noOrders: seq<seq<string>> := [];
      assert [[]][..0] == noOrders;
    }
    assert base.Keys == arg.Keys;
    assert SetAllAsWritten(base, arg) == map[Canonical(k) := []];
  }
}
