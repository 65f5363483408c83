/** The dialer side of the client (dialers.go): connection ids handed out by
    an atomic 64-bit counter, the net.Dialer each dial uses, and the wrapper
    that runs a hook before closing a connection. */
module Dialers {
  import opened Wrappers
  import opened Errors
  import opened Net

  const MinInt64: int := -0x8000_0000_0000_0000
  const MaxInt64: int := 0x7fff_ffff_ffff_ffff
  const TwoTo64: int := 0x1_0000_0000_0000_0000

  predicate InInt64(n: int) {
    MinInt64 <= n <= MaxInt64
  }

  /** The int64 that holds `n` after two's-complement wrap-around, as
      `atomic.AddInt64` produces it. */
  function WrapInt64(n: int): (r: int)
    ensures InInt64(r)
    ensures InInt64(n) ==> r == n
    ensures n == MaxInt64 + 1 ==> r == MinInt64
    ensures (r - n) % TwoTo64 == 0
  {
    var m := (n - MinInt64) % TwoTo64;
    assert n - MinInt64 == TwoTo64 * ((n - MinInt64) / TwoTo64) + m;
    m + MinInt64
  }

  /** The counter after `calls` further calls to nextConnID from `start`. */
  function CounterAfter(start: int, calls: nat): (r: int)
    ensures calls > 0 ==> InInt64(r)
    ensures (r - start - calls) % TwoTo64 == 0
  {
    if calls == 0 then start
    else
      var before := CounterAfter(start, calls - 1);
      var r := WrapInt64(before + 1);
      assert r - start - calls == (r - (before + 1)) + (before - start - (calls - 1));
      r
  }

  /** From a fresh client the ids are 1, 2, 3, ... with no repeat for as long
      as the counter does not wrap. */
  lemma {:induction false} ConnIDsCount(calls: nat)
    requires calls <= MaxInt64
    ensures CounterAfter(0, calls) == calls
  {
    if calls > 0 {
      ConnIDsCount(calls - 1);
    }
  }

  lemma ConnIDsDistinct(i: nat, j: nat)
    requires 0 < i < j <= MaxInt64
    ensures CounterAfter(0, i) != CounterAfter(0, j)
  {
    ConnIDsCount(i);
    ConnIDsCount(j);
  }

  /** The id after the largest int64 is the smallest one. */
  lemma ConnIDWraps()
    ensures CounterAfter(MaxInt64, 1) == MinInt64
  {
  }

  /** The net.Dialer fields the client sets. */
  datatype Dialer = Dialer(timeout: Duration, keepAlive: Duration)

  /** The dialer of one dial: the client's dial timeout, and its keep-alive
      period unless keep-alive is disabled, in which case the field stays
      zero. */
  function DialerFor(dialTimeout: Duration, disableKeepAlive: bool, keepAliveTimeout: Duration): (d: Dialer)
    ensures d.timeout == dialTimeout
    ensures d.keepAlive == (if disableKeepAlive then 0 else keepAliveTimeout)
  {
    var d := Dialer(timeout := dialTimeout, keepAlive := 0);
    if !disableKeepAlive then d.(keepAlive := keepAliveTimeout) else d
  }

  /** The period net.Dialer uses for TCP keep-alive probes when its
      KeepAlive field is zero. */
  const DefaultProbePeriod: Duration := 15 * Second

  /** The TCP keep-alive probes a dialer's connections get, as net.Dialer
      documents its KeepAlive field: zero means the default period, a
      negative value means no probes. */
  function ProbePeriod(d: Dialer): (p: Option<Duration>)
    ensures p.None? <==> d.keepAlive < 0
    ensures d.keepAlive == 0 ==> p == Some(DefaultProbePeriod)
    ensures d.keepAlive > 0 ==> p == Some(d.keepAlive)
  {
    if d.keepAlive < 0 then None
    else if d.keepAlive == 0 then Some(DefaultProbePeriod)
    else Some(d.keepAlive)
  }

  /** As written, DisableKeepAlive leaves the dialer's field at zero, so its
      connections still send keep-alive probes, every 15 seconds. */
  lemma DisabledKeepAliveStillProbes(dialTimeout: Duration, keepAliveTimeout: Duration)
    ensures DialerFor(dialTimeout, true, keepAliveTimeout).keepAlive == 0
    ensures ProbePeriod(DialerFor(dialTimeout, true, keepAliveTimeout)) == Some(15 * Second)
  {
  }

  /** The dialer corrected so that DisableKeepAlive turns the probes off:
      a negative KeepAlive when keep-alive is disabled. */
  function CorrectedDialerFor(dialTimeout: Duration, disableKeepAlive: bool, keepAliveTimeout: Duration): (d: Dialer)
    ensures d.timeout == dialTimeout
    ensures disableKeepAlive ==> d.keepAlive < 0
    ensures !disableKeepAlive ==> d.keepAlive == keepAliveTimeout
  {
    Dialer(timeout := dialTimeout, keepAlive := if disableKeepAlive then -1 else keepAliveTimeout)
  }

  /** With the corrected dialer, DisableKeepAlive means no probes, and
      without it the probes are those of the dialer as written. */
  lemma CorrectedDialerHonoursDisable(dialTimeout: Duration, disableKeepAlive: bool, keepAliveTimeout: Duration)
    ensures disableKeepAlive ==> ProbePeriod(CorrectedDialerFor(dialTimeout, disableKeepAlive, keepAliveTimeout)) == None
    ensures !disableKeepAlive ==>
              CorrectedDialerFor(dialTimeout, disableKeepAlive, keepAliveTimeout) ==
              DialerFor(dialTimeout, disableKeepAlive, keepAliveTimeout)
  {
  }

  /** A connection returned by the dialer: an identity and what its Close
      returns, call by call: `closeResults(n)` is the error of the Close made
      after `n` earlier ones (a connection closed twice reports an error the
      second time). */
  datatype RawConn = RawConn(handle: nat, closeResults: nat -> Option<Error>)

  /** The hook a wrapper runs on Close: it logs the connection id, network
      and address captured when the connection was dialled. */
  datatype CloseHook = CloseHook(connID: int, network: string, addr: string)

  /** What closing a wrapper does, step by step. */
  datatype CloseStep = HookRan(hook: CloseHook) | Delegated(handle: nat)

  /** connWrapper: the dialled connection and its close hook. `steps`
      records what each Close did, and `closes` counts the Closes the wrapped
      connection has seen. */
  class ConnWrapper {
    const conn: RawConn
    const onClose: CloseHook
    var steps: seq<CloseStep>
    var closes: nat

    /** newConn(conn, onClose) */
    constructor (conn: RawConn, onClose: CloseHook)
      ensures this.conn == conn && this.onClose == onClose && steps == [] && closes == 0
    {
      this.conn, this.onClose := conn, onClose;
      steps, closes := [], 0;
    }

    /** Close runs the hook, then closes the wrapped connection and returns
        its error. Nothing stops a second Close from running the hook again
        and closing the connection again. */
    method Close() returns (err: Option<Error>)
      modifies this
      ensures steps == old(steps) + [HookRan(onClose), Delegated(conn.handle)]
      ensures closes == old(closes) + 1
      ensures err == conn.closeResults(old(closes))
    {
      steps := steps + [HookRan(onClose)];
      steps := steps + [Delegated(conn.handle)];
      err := conn.closeResults(closes);
      closes := closes + 1;
    }
  }

  /** What dialContext returns: no connection (the dial failed) or a wrapped
      one. */
  datatype Conn = NoConn | Wrapped(wrapper: ConnWrapper)

  /** The dial itself (`(*net.Dialer).DialContext`), outside the model. */
  type DialFunc = (Context, string, string, Dialer) -> Result<RawConn, Error>
}
