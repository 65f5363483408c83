/** The default redirect policy (redirect.go): refuse a chain of more than
    ten prior requests, otherwise copy every header of the original request
    onto the next one. */
module Redirect {
  import opened Wrappers
  import opened Errors
  import opened HttpHeader
  import opened Net

  /** The most prior requests the default policy accepts. */
  const MaxRedirects := 10

  /** The next request's header and the policy's verdict, given the number
      of prior requests and the header of the original one: nothing else
      about the chain is read. */
  function PolicyOutcome(h: Header, hops: nat, original: Header): (r: (Header, Option<Error>))
    ensures r.1.Some? <==> hops > MaxRedirects
    ensures r.1.Some? ==> r.1 == Some(TooManyRedirects) && r.0 == h
    ensures hops == 0 ==> r == (h, None)
    ensures 0 < hops <= MaxRedirects ==>
              (forall k :: k in original ==> k in r.0 && r.0[k] == original[k]) &&
              (forall k :: k !in original ==> (k in r.0 <==> k in h) && (k in h ==> r.0[k] == h[k]))
  {
    if hops > MaxRedirects then (h, Some(TooManyRedirects))
    else if hops > 0 then (Overwrite(h, original), None)
    else (h, None)
  }

  /** The copy loop: each header of the original request is assigned, by
      its key as written, to the next one. */
  method CopyHeaders(req: Request, original: Header)
    modifies req
    ensures req.header == Overwrite(old(req.header), original)
    ensures req.ctx == old(req.ctx)
  {
    var remaining := original.Keys;
    ghost var done: set<string> := {};
    while remaining != {}
      invariant done + remaining == original.Keys
      invariant req.header == Overwrite(old(req.header), Restrict(original, done))
      invariant req.ctx == old(req.ctx)
      decreases |remaining|
    {
      var k :| k in remaining;
      OverwriteStep(old(req.header), original, done, k);
      req.header := req.header[k := original[k]];
      remaining, done := remaining - {k}, done + {k};
    }
    assert Restrict(original, done) == original;
  }

  /** defaultRedirectPolicy(req, via) */
  method DefaultRedirectPolicy(req: Request, via: seq<Request>) returns (err: Option<Error>)
    modifies req
    ensures (req.header, err) == PolicyOutcome(old(req.header), |via|, if |via| > 0 then old(via[0].header) else map[])
    ensures req.ctx == old(req.ctx)
  {
    if |via| > MaxRedirects {
      return Some(TooManyRedirects);
    }
    if |via| > 0 {
      CopyHeaders(req, via[0].header);
    }
    return None;
  }

  /** Running the policy a second time with the same chain changes nothing. */
  lemma PolicyIdempotent(h: Header, hops: nat, original: Header)
    ensures PolicyOutcome(PolicyOutcome(h, hops, original).0, hops, original) == PolicyOutcome(h, hops, original)
  {
    if 0 < hops <= MaxRedirects {
      OverwriteIdempotent(h, original);
    }
  }

  /** After a successful redirect the next request carries at least the
      header names of the original one, whatever it had of its own. */
  lemma PolicyKeepsOriginalNames(h: Header, hops: nat, original: Header)
    requires 0 < hops <= MaxRedirects
    ensures original.Keys <= PolicyOutcome(h, hops, original).0.Keys
    ensures h.Keys <= PolicyOutcome(h, hops, original).0.Keys
  {
  }

  /** The boundary: ten prior requests are accepted, eleven are not. */
  lemma PolicyBoundary(h: Header, original: Header)
    ensures PolicyOutcome(h, 10, original).1 == None
    ensures PolicyOutcome(h, 11, original).1 == Some(TooManyRedirects)
  {
  }
}
