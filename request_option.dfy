/** Per-request options (request_option.go): transforms applied to a built
    request before it is dispatched. Each built-in option edits the request's
    header in place and returns nil. */
module RequestOptions {
  import opened Wrappers
  import opened Errors
  import opened HttpHeader
  import opened Net

  /** A RequestOption value. `UserRequestOption` is any other
      `func(*http.Request) error` a caller passes; only the error it returns
      is modelled. */
  datatype RequestOption =
    | AddHeaders(headers: Header)
    | DelHeaders(headers: Header)
    | SetHeaders(headers: Header)
    | UserRequestOption(result: Option<Error>)

  // ---------------------------------------------------------------------
  // Specification
  // ---------------------------------------------------------------------

  /** Go's `copy(dst, src)`: the first min(len(dst), len(src)) elements of
      `dst` are replaced by those of `src`; `dst` keeps its length. */
  function GoCopy(dst: seq<string>, src: seq<string>): (r: seq<string>)
    ensures |r| == |dst|
    ensures forall i :: 0 <= i < |r| ==> r[i] == if i < |src| then src[i] else dst[i]
  {
    var n := if |dst| < |src| then |dst| else |src|;
    src[..n] + dst[n..]
  }

  /** SetHeaders as written: each key is bound to what `copy` leaves in a nil
      slice, which is always the empty list. */
  function SetAllAsWritten(h: Header, arg: Header): (r: Header)
    ensures forall k :: k in arg ==> k in r && r[k] == []
    ensures forall k :: k !in arg ==> (k in r <==> k in h) && (k in h ==> r[k] == h[k])
  {
    Overwrite(h, Emptied(arg))
  }

  /** The effect of one option on a header; `order` is the order in which
      an AddHeaders option visits the keys of its argument. SetHeaders runs
      as written (every named key emptied) unless `corrected` asks for the
      intended replacement. */
  function ApplyTo(h: Header, opt: RequestOption, order: seq<string>, corrected: bool): (r: (Header, Option<Error>))
    ensures !opt.UserRequestOption? ==> r.1 == None
    ensures opt.UserRequestOption? ==> r == (h, opt.result)
    ensures opt.SetHeaders? ==> forall k :: k in opt.headers ==> k in r.0 && r.0[k] == (if corrected then opt.headers[k] else [])
    ensures opt.SetHeaders? || opt.DelHeaders? ==> forall k :: k !in opt.headers && k in r.0 ==> k in h
  {
    match opt
    case AddHeaders(arg) => (AddAll(h, arg, order), None)
    case DelHeaders(arg) => (DelAll(h, arg), None)
    case SetHeaders(arg) => (if corrected then Overwrite(h, arg) else SetAllAsWritten(h, arg), None)
    case UserRequestOption(e) => (h, e)
  }

  /** Every AddHeaders option has a visiting order for its keys. */
  predicate OrdersFit(opts: seq<RequestOption>, orders: seq<seq<string>>) {
    && |orders| == |opts|
    && forall i :: 0 <= i < |opts| && opts[i].AddHeaders? ==> Enumerates(orders[i], opts[i].headers.Keys)
  }

  /** Some visiting order for every option. */
  ghost function SomeOrders(opts: seq<RequestOption>): (orders: seq<seq<string>>)
    ensures OrdersFit(opts, orders)
  {
    seq(|opts|, i requires 0 <= i < |opts| => if opts[i].AddHeaders? then Enumeration(opts[i].headers.Keys) else [])
  }

  /** The options applied in order, each to the header the previous one left,
      stopping at the first that fails: the header at that point and the
      error, or the final header and nil. */
  function ApplyAll(h: Header, opts: seq<RequestOption>, orders: seq<seq<string>>, corrected: bool): (Header, Option<Error>)
    requires |orders| == |opts|
    decreases |opts|
  {
    if opts == [] then (h, None)
    else
      var n := |opts| - 1;
      var (before, e) := ApplyAll(h, opts[..n], orders[..n], corrected);
      if e.Some? then (before, e) else ApplyTo(before, opts[n], orders[n], corrected)
  }

  /** Once an option fails, the options after it change nothing: the fold
      reports the first failure and the header as it was then. */
  lemma {:induction false} ApplyAllStopsAtFirstError(h: Header, opts: seq<RequestOption>, orders: seq<seq<string>>,
                                                     corrected: bool, i: nat)
    requires |orders| == |opts| && i < |opts|
    requires ApplyAll(h, opts[..i], orders[..i], corrected).1 == None
    requires ApplyTo(ApplyAll(h, opts[..i], orders[..i], corrected).0, opts[i], orders[i], corrected).1.Some?
    ensures ApplyAll(h, opts, orders, corrected) ==
            ApplyTo(ApplyAll(h, opts[..i], orders[..i], corrected).0, opts[i], orders[i], corrected)
    decreases |opts|
  {
    var n := |opts| - 1;
    if i == n {
      assert opts[..n] == opts[..i] && orders[..n] == orders[..i];
    } else {
      assert opts[..n][..i] == opts[..i] && orders[..n][..i] == orders[..i];
      assert opts[..n][i] == opts[i] && orders[..n][i] == orders[i];
      ApplyAllStopsAtFirstError(h, opts[..n], orders[..n], corrected, i);
    }
  }

  /** The fold fails exactly when some caller-supplied option returns an
      error, and then with that option's error: the built-in options never
      fail. */
  lemma {:induction false} ApplyAllFailsOnlyByUserOption(h: Header, opts: seq<RequestOption>, orders: seq<seq<string>>,
                                                         corrected: bool)
    requires |orders| == |opts|
    ensures ApplyAll(h, opts, orders, corrected).1.Some? <==>
            exists i :: 0 <= i < |opts| && opts[i].UserRequestOption? && opts[i].result.Some?
    ensures ApplyAll(h, opts, orders, corrected).1.Some? ==>
            exists i :: 0 <= i < |opts| && opts[i] == UserRequestOption(ApplyAll(h, opts, orders, corrected).1)
    decreases |opts|
  {
    if opts != [] {
      var n := |opts| - 1;
      ApplyAllFailsOnlyByUserOption(h, opts[..n], orders[..n], corrected);
      if exists i :: 0 <= i < n && opts[..n][i].UserRequestOption? && opts[..n][i].result.Some? {
        var i :| 0 <= i < n && opts[..n][i].UserRequestOption? && opts[..n][i].result.Some?;
        assert opts[i] == opts[..n][i];
      }
      if ApplyAll(h, opts[..n], orders[..n], corrected).1.Some? {
        var i :| 0 <= i < n && opts[..n][i] == UserRequestOption(ApplyAll(h, opts[..n], orders[..n], corrected).1);
        assert opts[i] == opts[..n][i];
      }
      forall i | 0 <= i < n ensures opts[..n][i] == opts[i] { }
    }
  }

  // ---------------------------------------------------------------------
  // The options as they run on a request
  // ---------------------------------------------------------------------

  /** `for _, dv := range values { req.Header.Add(k, dv) }` */
  method AddValues(req: Request, k: string, values: seq<string>)
    modifies req
    ensures req.header == AddEach(old(req.header), k, values)
    ensures req.ctx == old(req.ctx)
  {
    var i := 0;
    while i < |values|
      invariant 0 <= i <= |values|
      invariant req.header == AddEach(old(req.header), k, values[..i])
      invariant req.ctx == old(req.ctx)
    {
      req.header := Add(req.header, k, values[i]);
      assert values[..i + 1][..i] == values[..i];
      i := i + 1;
    }
    assert values[..|values|] == values;
  }

  /** `for k, v := range src { for _, dv := range v { req.Header.Add(k, dv) } }`,
      the keys visited in the order Go picks; returns that order. */
  method AddHeaderValues(req: Request, src: Header) returns (ghost order: seq<string>)
    modifies req
    ensures Enumerates(order, src.Keys)
    ensures req.header == AddAll(old(req.header), src, order)
    ensures req.ctx == old(req.ctx)
  {
    var remaining := src.Keys;
    order := [];
    while remaining != {}
      invariant remaining <= src.Keys
      invariant Enumerates(order, src.Keys - remaining)
      invariant req.header == AddAll(old(req.header), src, order)
      invariant req.ctx == old(req.ctx)
      decreases |remaining|
    {
      var k :| k in remaining;
      AddValues(req, k, src[k]);
      assert (order + [k])[..|order|] == order;
      remaining := remaining - {k};
      order := order + [k];
    }
  }

  /** The closure returned by AddHeaders(headers). */
  method ApplyAddHeaders(req: Request, headers: Header) returns (err: Option<Error>, ghost order: seq<string>)
    modifies req
    ensures Enumerates(order, headers.Keys)
    ensures req.header == AddAll(old(req.header), headers, order)
    ensures req.ctx == old(req.ctx) && err == None
  {
    order := AddHeaderValues(req, headers);
    err := None;
  }

  /** The closure returned by DelHeaders(headers): every named header goes,
      whatever values the argument lists for it. */
  method ApplyDelHeaders(req: Request, headers: Header) returns (err: Option<Error>)
    modifies req
    ensures req.header == DelAll(old(req.header), headers)
    ensures req.ctx == old(req.ctx) && err == None
  {
    var remaining := headers.Keys;
    ghost var done: set<string> := {};
    while remaining != {}
      invariant done + remaining == headers.Keys
      invariant req.header == old(req.header) - CanonicalNames(done)
      invariant req.ctx == old(req.ctx)
      decreases |remaining|
    {
      var k :| k in remaining;
      DelStep(old(req.header), done, k);
      req.header := Del(req.header, k);
      remaining, done := remaining - {k}, done + {k};
    }
    assert done == headers.Keys;
    err := None;
  }

  /** The closure returned by SetHeaders(headers), corrected so that each
      named key ends up bound to a copy of the argument's values. */
  method ApplySetHeaders(req: Request, headers: Header) returns (err: Option<Error>)
    modifies req
    ensures req.header == Overwrite(old(req.header), headers)
    ensures req.ctx == old(req.ctx) && err == None
  {
    var remaining := headers.Keys;
    ghost var done: set<string> := {};
    while remaining != {}
      invariant done + remaining == headers.Keys
      invariant req.header == Overwrite(old(req.header), Restrict(headers, done))
      invariant req.ctx == old(req.ctx)
      decreases |remaining|
    {
      var k :| k in remaining;
      var values := headers[k];
      var copied := GoCopy(values, values);
      assert copied == values;
      OverwriteStep(old(req.header), headers, done, k);
      req.header := req.header[k := copied];
      remaining, done := remaining - {k}, done + {k};
    }
    assert Restrict(headers, done) == headers;
    err := None;
  }

  /** SetHeaders as written binds each key to what `copy` leaves in a nil slice. */
  function Emptied(arg: Header): Header {
    map k | k in arg :: GoCopy([], arg[k])
  }

  /** The closure returned by SetHeaders(headers), as written: the copy goes
      into a nil slice, so each named key is bound to an empty list. */
  method ApplySetHeadersAsWritten(req: Request, headers: Header) returns (err: Option<Error>)
    modifies req
    ensures req.header == SetAllAsWritten(old(req.header), headers)
    ensures req.ctx == old(req.ctx) && err == None
  {
    var remaining := headers.Keys;
    ghost var done: set<string> := {};
    while remaining != {}
      invariant done + remaining == headers.Keys
      invariant req.header == Overwrite(old(req.header), Restrict(Emptied(headers), done))
      invariant req.ctx == old(req.ctx)
      decreases |remaining|
    {
      var k :| k in remaining;
      var val: seq<string> := [];
      val := GoCopy(val, headers[k]);
      OverwriteStep(old(req.header), Emptied(headers), done, k);
      req.header := req.header[k := val];
      remaining, done := remaining - {k}, done + {k};
    }
    assert Restrict(Emptied(headers), done) == Emptied(headers);
    err := None;
  }

  /** Run one option on a request, `opt(req)`: SetHeaders as written, or
      its corrected closure when `corrected` holds. */
  method Apply(req: Request, opt: RequestOption, corrected: bool) returns (err: Option<Error>, ghost order: seq<string>)
    modifies req
    ensures opt.AddHeaders? ==> Enumerates(order, opt.headers.Keys)
    ensures (req.header, err) == ApplyTo(old(req.header), opt, order, corrected)
    ensures req.ctx == old(req.ctx)
  {
    order := [];
    match opt
    case AddHeaders(arg) => err, order := ApplyAddHeaders(req, arg);
    case DelHeaders(arg) => err := ApplyDelHeaders(req, arg);
    case SetHeaders(arg) =>
      if corrected {
        err := ApplySetHeaders(req, arg);
      } else {
        err := ApplySetHeadersAsWritten(req, arg);
      }
    case UserRequestOption(e) => err := e;
  }

  // ---------------------------------------------------------------------
  // Properties
  // ---------------------------------------------------------------------

  /** DelHeaders removes every key it names, even one listed with the value
      "", leaves every other key alone, and is idempotent. */
  lemma DelHeadersRemovesNamedKeys(h: Header, arg: Header)
    ensures forall k :: k in arg ==> Canonical(k) !in DelAll(h, arg)
    ensures forall name :: name in h && (forall k :: k in arg ==> Canonical(k) != name) ==>
              name in DelAll(h, arg) && DelAll(h, arg)[name] == h[name]
    ensures DelAll(DelAll(h, arg), arg) == DelAll(h, arg)
  {
    forall name | name in h && (forall k :: k in arg ==> Canonical(k) != name)
      ensures name !in CanonicalNames(arg.Keys)
    {
    }
  }

  /** The corrected SetHeaders replaces: every named key holds exactly the
      given values, whatever it held before; other keys are kept. */
  lemma SetHeadersReplaces(h: Header, arg: Header)
    ensures forall k :: k in arg ==> Values(Overwrite(h, arg), k) == arg[k]
    ensures forall k :: k !in arg ==> Values(Overwrite(h, arg), k) == Values(h, k)
  {
  }

  /** SetHeaders as written drops the values it was given: with the client
      default `X-Test: TestClient` and `SetHeaders(X-Test: Override)`, the
      request carries an empty `X-Test` list instead of `Override`. */
  lemma SetHeadersAsWrittenDropsValues()
    ensures var h: Header := map["X-Test" := ["TestClient"]];
            var arg: Header := map["X-Test" := ["Override"]];
            SetAllAsWritten(h, arg)["X-Test"] == [] &&
            Overwrite(h, arg)["X-Test"] == ["Override"]
  {
  }
}
