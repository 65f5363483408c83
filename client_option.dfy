/** Client options (client_option.go): each option writes one field of the
    client being built; the count-valued ones refuse negative values; the
    list is applied in order, nil entries skipped, stopping at the first
    error. */
module ClientOptions {
  import opened Wrappers
  import opened Errors
  import opened HttpHeader
  import opened Net
  import opened ClientConfig

  /** An Option value. `UserOption` is any other `func(*client) error` a
      caller passes; only the error it returns is modelled. */
  datatype ClientOption =
    | DialTimeout(t: Duration)
    | DisableHTTP2
    | DisableKeepAlive
    | Headers(headers: Header)
    | IdleConnTimeout(t: Duration)
    | KeepAliveTimeout(t: Duration)
    | Logger(w: Option<Writer>)
    | LogPrefix(p: string)
    | MaxIdleConns(n: int)
    | MaxIdleConnsPerHost(n: int)
    | RedirectPolicy(f: Option<RedirectFunc>)
    | TLSHandshakeTimeout(t: Duration)
    | ResponseHeaderTimeout(t: Duration)
    | WithRoundTripper(rt: Option<RoundTripper>)
    | UserOption(result: Option<Error>)

  /** The fields of a configuration, by name. */
  datatype Field =
    | CustomRoundTripperField | DialTimeoutField | DisableHTTP2Field | DisableKeepAliveField
    | HeadersField | IdleConnTimeoutField | KeepAliveTimeoutField | LogPrefixField
    | LogWriterField | MaxIdleConnsField | MaxIdleConnsPerHostField | RedirectFuncField
    | ResponseHeaderTimeoutField | TLSHandshakeTimeoutField

  /** The field an option writes (none for a caller-supplied option). */
  function FieldOf(opt: ClientOption): Option<Field> {
    match opt
    case DialTimeout(_) => Some(DialTimeoutField)
    case DisableHTTP2 => Some(DisableHTTP2Field)
    case DisableKeepAlive => Some(DisableKeepAliveField)
    case Headers(_) => Some(HeadersField)
    case IdleConnTimeout(_) => Some(IdleConnTimeoutField)
    case KeepAliveTimeout(_) => Some(KeepAliveTimeoutField)
    case Logger(_) => Some(LogWriterField)
    case LogPrefix(_) => Some(LogPrefixField)
    case MaxIdleConns(_) => Some(MaxIdleConnsField)
    case MaxIdleConnsPerHost(_) => Some(MaxIdleConnsPerHostField)
    case RedirectPolicy(_) => Some(RedirectFuncField)
    case TLSHandshakeTimeout(_) => Some(TLSHandshakeTimeoutField)
    case ResponseHeaderTimeout(_) => Some(ResponseHeaderTimeoutField)
    case WithRoundTripper(_) => Some(CustomRoundTripperField)
    case UserOption(_) => None
  }

  /** `a` and `b` agree on every field except possibly `f`. */
  predicate AgreeExcept(a: Config, b: Config, f: Option<Field>) {
    && (f != Some(CustomRoundTripperField) ==> a.customRoundTripper == b.customRoundTripper)
    && (f != Some(DialTimeoutField) ==> a.dialTimeout == b.dialTimeout)
    && (f != Some(DisableHTTP2Field) ==> a.disableHTTP2 == b.disableHTTP2)
    && (f != Some(DisableKeepAliveField) ==> a.disableKeepAlive == b.disableKeepAlive)
    && (f != Some(HeadersField) ==> a.headers == b.headers)
    && (f != Some(IdleConnTimeoutField) ==> a.idleConnTimeout == b.idleConnTimeout)
    && (f != Some(KeepAliveTimeoutField) ==> a.keepAliveTimeout == b.keepAliveTimeout)
    && (f != Some(LogPrefixField) ==> a.logPrefix == b.logPrefix)
    && (f != Some(LogWriterField) ==> a.logWriter == b.logWriter)
    && (f != Some(MaxIdleConnsField) ==> a.maxIdleConns == b.maxIdleConns)
    && (f != Some(MaxIdleConnsPerHostField) ==> a.maxIdleConnsPerHost == b.maxIdleConnsPerHost)
    && (f != Some(RedirectFuncField) ==> a.redirectFunc == b.redirectFunc)
    && (f != Some(ResponseHeaderTimeoutField) ==> a.responseHeaderTimeout == b.responseHeaderTimeout)
    && (f != Some(TLSHandshakeTimeoutField) ==> a.tlsHandshakeTimeout == b.tlsHandshakeTimeout)
  }

  /** The field an option writes holds the option's value. The Headers
      option binds each of its keys to its list, keeping other keys. */
  predicate Holds(c: Config, opt: ClientOption) {
    match opt
    case DialTimeout(t) => c.dialTimeout == t
    case DisableHTTP2 => c.disableHTTP2
    case DisableKeepAlive => c.disableKeepAlive
    case Headers(h) => forall k :: k in h ==> k in c.headers && c.headers[k] == h[k]
    case IdleConnTimeout(t) => c.idleConnTimeout == t
    case KeepAliveTimeout(t) => c.keepAliveTimeout == t
    case Logger(w) => c.logWriter == w
    case LogPrefix(p) => c.logPrefix == p
    case MaxIdleConns(n) => c.maxIdleConns == n
    case MaxIdleConnsPerHost(n) => c.maxIdleConnsPerHost == n
    case RedirectPolicy(f) => c.redirectFunc == f
    case TLSHandshakeTimeout(t) => c.tlsHandshakeTimeout == t
    case ResponseHeaderTimeout(t) => c.responseHeaderTimeout == t
    case WithRoundTripper(rt) => c.customRoundTripper == rt
    case UserOption(_) => true
  }

  /** An option refuses its value: a negative connection count. */
  predicate Invalid(opt: ClientOption) {
    (opt.MaxIdleConns? || opt.MaxIdleConnsPerHost?) && opt.n < 0
  }

  /** Running one option on a configuration: the new configuration and the
      error the option returns. */
  function ApplyOption(c: Config, opt: ClientOption): (r: (Config, Option<Error>))
    ensures AgreeExcept(c, r.0, FieldOf(opt))
    ensures r.1.Some? <==> Invalid(opt) || (opt.UserOption? && opt.result.Some?)
    ensures Invalid(opt) ==> r == (c, Some(InvalidOptionValue))
    ensures opt.UserOption? ==> r == (c, opt.result)
    ensures r.1.None? ==> Holds(r.0, opt)
    ensures opt.Headers? ==> r.0.headers == Overwrite(c.headers, opt.headers)
  {
    match opt
    case DialTimeout(t) => (c.(dialTimeout := t), None)
    case DisableHTTP2 => (c.(disableHTTP2 := true), None)
    case DisableKeepAlive => (c.(disableKeepAlive := true), None)
    case Headers(h) => (c.(headers := Overwrite(c.headers, h)), None)
    case IdleConnTimeout(t) => (c.(idleConnTimeout := t), None)
    case KeepAliveTimeout(t) => (c.(keepAliveTimeout := t), None)
    case Logger(w) => (c.(logWriter := w), None)
    case LogPrefix(p) => (c.(logPrefix := p), None)
    case MaxIdleConns(n) =>
      if n < 0 then (c, Some(InvalidOptionValue)) else (c.(maxIdleConns := n), None)
    case MaxIdleConnsPerHost(n) =>
      if n < 0 then (c, Some(InvalidOptionValue)) else (c.(maxIdleConnsPerHost := n), None)
    case RedirectPolicy(f) => (c.(redirectFunc := f), None)
    case TLSHandshakeTimeout(t) => (c.(tlsHandshakeTimeout := t), None)
    case ResponseHeaderTimeout(t) => (c.(responseHeaderTimeout := t), None)
    case WithRoundTripper(rt) => (c.(customRoundTripper := rt), None)
    case UserOption(e) => (c, e)
  }

  /** setOptions: the options in list order, nil entries skipped, stopping at
      the first that returns an error. The configuration is the one the
      options left behind. */
  function SetOptions(c: Config, opts: seq<Option<ClientOption>>): (Config, Option<Error>)
    decreases |opts|
  {
    if opts == [] then (c, None)
    else
      var n := |opts| - 1;
      var (before, e) := SetOptions(c, opts[..n]);
      if e.Some? then (before, e)
      else match opts[n]
        case None => (before, None)
        case Some(opt) => ApplyOption(before, opt)
  }

  /** Running `a ++ b` is running `a`, then, if it succeeded, `b`. */
  lemma {:induction false} SetOptionsConcat(c: Config, a: seq<Option<ClientOption>>, b: seq<Option<ClientOption>>)
    ensures SetOptions(c, a + b) ==
            if SetOptions(c, a).1.Some? then SetOptions(c, a) else SetOptions(SetOptions(c, a).0, b)
    decreases |b|
  {
    if b == [] {
      assert a + b == a;
    } else {
      var n := |b| - 1;
      assert (a + b)[..|a + b| - 1] == a + b[..n];
      assert (a + b)[|a + b| - 1] == b[n];
      SetOptionsConcat(c, a, b[..n]);
    }
  }

  /** A nil entry anywhere in the list is skipped. */
  lemma SetOptionsSkipsNil(c: Config, a: seq<Option<ClientOption>>, b: seq<Option<ClientOption>>)
    ensures SetOptions(c, a + [None] + b) == SetOptions(c, a + b)
  {
    SetOptionsConcat(c, a + [None], b);
    SetOptionsConcat(c, a, [None]);
    SetOptionsConcat(c, a, b);
    assert (a + [None])[..|a|] == a;
  }

  /** The first option that fails stops the list: its error is returned and
      no later option runs. */
  lemma SetOptionsStopsAtFirstError(c: Config, a: seq<Option<ClientOption>>, opt: ClientOption, rest: seq<Option<ClientOption>>)
    requires SetOptions(c, a).1 == None
    requires ApplyOption(SetOptions(c, a).0, opt).1.Some?
    ensures SetOptions(c, a + [Some(opt)] + rest) == ApplyOption(SetOptions(c, a).0, opt)
  {
    SetOptionsConcat(c, a + [Some(opt)], rest);
    SetOptionsConcat(c, a, [Some(opt)]);
    assert [Some(opt)][..0] == [];
  }

  /** The prefixes of a prefix are prefixes of the whole list. */
  lemma PrefixSlices(opts: seq<Option<ClientOption>>, n: nat)
    requires n <= |opts|
    ensures forall i :: 0 <= i < n ==> opts[..n][..i] == opts[..i] && opts[..n][i] == opts[i]
  {
  }

  /** Every non-nil option of the list returns nil when its turn comes. */
  ghost predicate EachSucceeds(c: Config, opts: seq<Option<ClientOption>>) {
    forall i :: 0 <= i < |opts| && opts[i].Some? ==> ApplyOption(SetOptions(c, opts[..i]).0, opts[i].value).1.None?
  }

  /** `EachSucceeds` of a list is that of all but its last entry, and the
      last entry's success. */
  lemma EachSucceedsStep(c: Config, opts: seq<Option<ClientOption>>)
    requires opts != []
    ensures var n := |opts| - 1;
            EachSucceeds(c, opts) <==>
              EachSucceeds(c, opts[..n]) &&
              (opts[n].Some? ==> ApplyOption(SetOptions(c, opts[..n]).0, opts[n].value).1.None?)
  {
    PrefixSlices(opts, |opts| - 1);
  }

  /** setOptions returns nil exactly when every non-nil option returns nil
      when its turn comes. */
  lemma {:induction false} SetOptionsSucceedsIffEachSucceeds(c: Config, opts: seq<Option<ClientOption>>)
    ensures SetOptions(c, opts).1.None? <==>
            forall i :: 0 <= i < |opts| && opts[i].Some? ==> ApplyOption(SetOptions(c, opts[..i]).0, opts[i].value).1.None?
    decreases |opts|
  {
    if opts != [] {
      SetOptionsSucceedsIffEachSucceeds(c, opts[..|opts| - 1]);
      EachSucceedsStep(c, opts);
    }
    assert SetOptions(c, opts).1.None? <==> EachSucceeds(c, opts);
  }

  /** A negative connection count anywhere in the list makes setOptions fail;
      when nothing before it failed, the error is the invalid-value error. */
  lemma NegativeCountRejected(c: Config, opts: seq<Option<ClientOption>>, i: nat)
    requires i < |opts| && opts[i].Some? && Invalid(opts[i].value)
    ensures SetOptions(c, opts).1.Some?
    ensures SetOptions(c, opts[..i]).1.None? ==> SetOptions(c, opts).1 == Some(InvalidOptionValue)
  {
    var before, rest := opts[..i], opts[i + 1..];
    if SetOptions(c, before).1.None? {
      assert opts == before + [opts[i]] + rest;
      SetOptionsStopsAtFirstError(c, before, opts[i].value, rest);
    } else {
      assert opts == before + opts[i..];
      SetOptionsConcat(c, before, opts[i..]);
    }
  }

  /** A list of library options with valid counts, and caller-supplied
      options that return nil, always succeeds. */
  lemma {:induction false} ValidOptionsSucceed(c: Config, opts: seq<Option<ClientOption>>)
    requires forall i :: 0 <= i < |opts| && opts[i].Some? ==>
               !Invalid(opts[i].value) && !(opts[i].value.UserOption? && opts[i].value.result.Some?)
    ensures SetOptions(c, opts).1 == None
    decreases |opts|
  {
    if opts != [] {
      var n := |opts| - 1;
      assert forall i :: 0 <= i < n ==> opts[..n][i] == opts[i];
      ValidOptionsSucceed(c, opts[..n]);
    }
  }

  /** The invariant setOptions keeps on the idle limits: the pool-wide one is
      never negative, the per-host one is unset (-1) or never negative. */
  ghost predicate LimitsSane(c: Config) {
    c.maxIdleConns >= 0 && c.maxIdleConnsPerHost >= UnsetPerHost
  }

  lemma {:induction false} SetOptionsKeepsLimitsSane(c: Config, opts: seq<Option<ClientOption>>)
    requires LimitsSane(c)
    ensures LimitsSane(SetOptions(c, opts).0)
    decreases |opts|
  {
    if opts != [] {
      SetOptionsKeepsLimitsSane(c, opts[..|opts| - 1]);
    }
  }

  /** Without a MaxIdleConnsPerHost option the per-host limit is untouched. */
  lemma {:induction false} SetOptionsKeepsPerHost(c: Config, opts: seq<Option<ClientOption>>)
    requires forall i :: 0 <= i < |opts| && opts[i].Some? ==> !opts[i].value.MaxIdleConnsPerHost?
    ensures SetOptions(c, opts).0.maxIdleConnsPerHost == c.maxIdleConnsPerHost
    decreases |opts|
  {
    if opts != [] {
      var n := |opts| - 1;
      assert forall i :: 0 <= i < n ==> opts[..n][i] == opts[i];
      SetOptionsKeepsPerHost(c, opts[..n]);
    }
  }

  /** No option turns a disabling flag back off. */
  lemma {:induction false} SetOptionsKeepsFlags(c: Config, opts: seq<Option<ClientOption>>)
    ensures c.disableKeepAlive ==> SetOptions(c, opts).0.disableKeepAlive
    ensures c.disableHTTP2 ==> SetOptions(c, opts).0.disableHTTP2
    decreases |opts|
  {
    if opts != [] {
      SetOptionsKeepsFlags(c, opts[..|opts| - 1]);
    }
  }

  /** When setOptions succeeds, every option in the list ran: DisableKeepAlive
      and DisableHTTP2 anywhere in it leave their flag set. */
  lemma SetOptionsAppliesFlag(c: Config, opts: seq<Option<ClientOption>>, i: nat)
    requires i < |opts| && opts[i] in {Some(DisableKeepAlive), Some(DisableHTTP2)}
    requires SetOptions(c, opts).1.None?
    ensures opts[i] == Some(DisableKeepAlive) ==> SetOptions(c, opts).0.disableKeepAlive
    ensures opts[i] == Some(DisableHTTP2) ==> SetOptions(c, opts).0.disableHTTP2
  {
    var upto := opts[..i + 1];
    SetOptionsConcat(c, upto, opts[i + 1..]);
    assert upto + opts[i + 1..] == opts;
    assert upto[..i] == opts[..i] && upto[i] == opts[i];
    var mid := SetOptions(c, upto).0;
    assert SetOptions(c, opts) == SetOptions(mid, opts[i + 1..]);
    SetOptionsKeepsFlags(mid, opts[i + 1..]);
  }
}
