/** HTTP header multimaps as net/http keeps them: a field name maps to its
    ordered list of values (repeated field lines, section 5.3 of RFC 9110).
    `Add` and `Del` canonicalise the name; a direct index write does not.

    Go visits the keys of a map in an unspecified order. A loop over a map is
    modelled as a fold over an `order` that enumerates the keys; the lemmas
    below say what the fold does for every order, and show that it does not
    depend on the order when no two keys share a canonical form. */
module HttpHeader {

  type Header = map<string, seq<string>>

  // ---------------------------------------------------------------------
  // Canonical field names (net/textproto CanonicalMIMEHeaderKey)
  // ---------------------------------------------------------------------

  /** The bytes a header field name may hold (a token, section 5.6.2 of RFC 9110). */
  predicate IsTokenChar(c: char) {
    ('a' <= c <= 'z') || ('A' <= c <= 'Z') || ('0' <= c <= '9') || c in {'!', '#', '$', '%', '&', '\'', '*', '+', '-', '.', '^', '_', '`', '|', '~'}
  }

  predicate IsToken(s: string) {
    forall i :: 0 <= i < |s| ==> IsTokenChar(s[i])
  }

  function ToUpper(c: char): char {
    if 'a' <= c <= 'z' then (c as int - 32) as char else c
  }

  function ToLower(c: char): char {
    if 'A' <= c <= 'Z' then (c as int + 32) as char else c
  }

  /** Upper-case the first letter and every letter after a hyphen, lower-case the rest. */
  function CanonicalFrom(s: string, upper: bool): (r: string)
    ensures |r| == |s|
  {
    if s == [] then []
    else
      var c := if upper then ToUpper(s[0]) else ToLower(s[0]);
      [c] + CanonicalFrom(s[1..], c == '-')
  }

  /** The canonical form of a field name; a name that is not a token is left as it is. */
  function Canonical(name: string): (r: string)
    ensures |r| == |name|
    ensures !IsToken(name) ==> r == name
  {
    if IsToken(name) then CanonicalFrom(name, true) else name
  }

  lemma {:induction false} CanonicalFromKeepsToken(s: string, upper: bool)
    requires IsToken(s)
    ensures IsToken(CanonicalFrom(s, upper))
  {
    if s != [] {
      assert IsTokenChar(s[0]);
      assert IsToken(s[1..]) by { forall i | 0 <= i < |s[1..]| ensures IsTokenChar(s[1..][i]) { assert s[1..][i] == s[i + 1]; } }
      var c := if upper then ToUpper(s[0]) else ToLower(s[0]);
      CanonicalFromKeepsToken(s[1..], c == '-');
      var r := CanonicalFrom(s, upper);
      assert r == [c] + CanonicalFrom(s[1..], c == '-');
      forall i | 0 <= i < |r| ensures IsTokenChar(r[i]) {
        if i > 0 { assert r[i] == CanonicalFrom(s[1..], c == '-')[i - 1]; }
      }
    }
  }

  lemma {:induction false} CanonicalFromIdempotent(s: string, upper: bool)
    ensures CanonicalFrom(CanonicalFrom(s, upper), upper) == CanonicalFrom(s, upper)
  {
    if s != [] {
      var c := if upper then ToUpper(s[0]) else ToLower(s[0]);
      var r := CanonicalFrom(s, upper);
      assert r[0] == c && r[1..] == CanonicalFrom(s[1..], c == '-');
      var c' := if upper then ToUpper(c) else ToLower(c);
      assert c' == c;
      CanonicalFromIdempotent(s[1..], c == '-');
    }
  }

  /** Canonicalising a canonical name changes nothing. */
  lemma CanonicalIdempotent(name: string)
    ensures Canonical(Canonical(name)) == Canonical(name)
  {
    if IsToken(name) {
      CanonicalFromKeepsToken(name, true);
      CanonicalFromIdempotent(name, true);
    }
  }

  // ---------------------------------------------------------------------
  // net/http Header.Add, Header.Del and the values of a name
  // ---------------------------------------------------------------------

  /** The values a header holds for `name` (none when absent). */
  function Values(h: Header, name: string): seq<string> {
    if name in h then h[name] else []
  }

  /** `h.Add(k, v)`: append `v` to the values of the canonical name of `k`. */
  function Add(h: Header, k: string, v: string): Header {
    h[Canonical(k) := Values(h, Canonical(k)) + [v]]
  }

  /** `h.Del(k)`: drop the canonical name of `k` with all its values. */
  function Del(h: Header, k: string): Header {
    h - {Canonical(k)}
  }

  /** `for _, v := range vs { h.Add(k, v) }` */
  function AddEach(h: Header, k: string, vs: seq<string>): Header
    decreases |vs|
  {
    if vs == [] then h else Add(AddEach(h, k, vs[..|vs| - 1]), k, vs[|vs| - 1])
  }

  /** Adding the values of one key one by one appends all of them, in order,
      after the values already held for its canonical name; adding none
      leaves the header alone. */
  lemma {:induction false} AddEachAppends(h: Header, k: string, vs: seq<string>)
    ensures AddEach(h, k, vs) == if vs == [] then h else h[Canonical(k) := Values(h, Canonical(k)) + vs]
    decreases |vs|
  {
    if vs != [] {
      var init := vs[..|vs| - 1];
      var name := Canonical(k);
      AddEachAppends(h, k, init);
      if init != [] {
        var mid := h[name := Values(h, name) + init];
        assert Values(mid, name) + [vs[|vs| - 1]] == Values(h, name) + vs by {
          assert init + [vs[|vs| - 1]] == vs;
        }
        assert mid[name := Values(mid, name) + [vs[|vs| - 1]]] == h[name := Values(h, name) + vs];
      } else {
        assert vs == [vs[0]];
      }
    }
  }

  // ---------------------------------------------------------------------
  // Loops over the keys of a header
  // ---------------------------------------------------------------------

  /** `order` lists every key of `keys` exactly once. */
  predicate Enumerates(order: seq<string>, keys: set<string>) {
    && (forall i, j :: 0 <= i < j < |order| ==> order[i] != order[j])
    && (forall k :: k in order ==> k in keys)
    && (forall k :: k in keys ==> k in order)
  }

  /** Some enumeration of a finite set of keys. */
  ghost function Enumeration(keys: set<string>): (order: seq<string>)
    ensures Enumerates(order, keys)
    decreases |keys|
  {
    if keys == {} then []
    else
      var k :| k in keys;
      var rest := Enumeration(keys - {k});
      [k] + rest
  }

  /** No two keys of `arg` share a canonical name. This always holds for a
      header built with `Add`, whose keys are already canonical. */
  ghost predicate CollisionFree(arg: Header) {
    forall k1, k2 :: k1 in arg && k2 in arg && Canonical(k1) == Canonical(k2) ==> k1 == k2
  }

  /** `for k, v := range arg { for _, dv := range v { h.Add(k, dv) } }`, with
      the keys of `arg` visited in `order`. */
  function AddAll(h: Header, arg: Header, order: seq<string>): Header
    decreases |order|
  {
    if order == [] then h
    else
      var k := order[|order| - 1];
      AddEach(AddAll(h, arg, order[..|order| - 1]), k, Values(arg, k))
  }

  /** The values `AddAll` appends under `name`: those of every visited key
      whose canonical name is `name`, in visiting order. */
  function Contribution(arg: Header, order: seq<string>, name: string): seq<string>
    decreases |order|
  {
    if order == [] then []
    else
      var k := order[|order| - 1];
      var before := Contribution(arg, order[..|order| - 1], name);
      if Canonical(k) == name then before + Values(arg, k) else before
  }

  /** What adding the values of one key does to a given name. */
  lemma AddEachByName(h: Header, k: string, vs: seq<string>, name: string)
    ensures Canonical(k) == name ==> Values(AddEach(h, k, vs), name) == Values(h, name) + vs
    ensures Canonical(k) != name ==> Values(AddEach(h, k, vs), name) == Values(h, name)
    ensures name in AddEach(h, k, vs) <==> name in h || (Canonical(k) == name && vs != [])
  {
    AddEachAppends(h, k, vs);
  }

  /** One step of `AddAll`, for a name whose values so far are `kept + added`. */
  lemma AddEachAfter(h: Header, k: string, vs: seq<string>, name: string, kept: seq<string>, added: seq<string>)
    requires Values(h, name) == kept + added
    ensures Canonical(k) == name ==> Values(AddEach(h, k, vs), name) == kept + (added + vs)
    ensures Canonical(k) != name ==> Values(AddEach(h, k, vs), name) == kept + added
  {
    AddEachByName(h, k, vs, name);
    assert (kept + added) + vs == kept + (added + vs);
  }

  /** The values `AddAll` leaves under a name: the old ones, then the
      contributed ones. */
  lemma {:induction false} AddAllValues(h: Header, arg: Header, order: seq<string>, name: string)
    ensures Values(AddAll(h, arg, order), name) == Values(h, name) + Contribution(arg, order, name)
    decreases |order|
  {
    if order == [] {
      assert Values(h, name) + [] == Values(h, name);
    } else {
      var init := order[..|order| - 1];
      var k := order[|order| - 1];
      AddAllValues(h, arg, init, name);
      AddEachAfter(AddAll(h, arg, init), k, Values(arg, k), name, Values(h, name), Contribution(arg, init, name));
    }
  }

  /** A name is present after `AddAll` exactly when it was before or
      something was contributed to it. */
  lemma {:induction false} AddAllHasName(h: Header, arg: Header, order: seq<string>, name: string)
    ensures name in AddAll(h, arg, order) <==> name in h || Contribution(arg, order, name) != []
    decreases |order|
  {
    if order != [] {
      var init := order[..|order| - 1];
      var k := order[|order| - 1];
      AddAllHasName(h, arg, init, name);
      AddEachByName(AddAll(h, arg, init), k, Values(arg, k), name);
    }
  }

  /** What `AddAll` does to each name, for every visiting order: the old
      values are kept and the contributed ones follow them; a name is present
      afterwards exactly when it was before or something was added to it. */
  lemma AddAllByName(h: Header, arg: Header, order: seq<string>, name: string)
    ensures Values(AddAll(h, arg, order), name) == Values(h, name) + Contribution(arg, order, name)
    ensures name in AddAll(h, arg, order) <==> name in h || Contribution(arg, order, name) != []
  {
    AddAllValues(h, arg, order, name);
    AddAllHasName(h, arg, order, name);
  }

  /** A name that no visited key canonicalises to receives nothing. */
  lemma {:induction false} ContributionOfUnnamed(arg: Header, order: seq<string>, name: string)
    requires forall k :: k in order ==> Canonical(k) != name
    ensures Contribution(arg, order, name) == []
    decreases |order|
  {
    if order != [] {
      ContributionOfUnnamed(arg, order[..|order| - 1], name);
    }
  }

  /** Without collisions, the canonical name of a visited key receives
      exactly that key's values. */
  lemma {:induction false} ContributionOfKey(arg: Header, order: seq<string>, k: string)
    requires CollisionFree(arg)
    requires forall j :: j in order ==> j in arg
    requires forall i, j :: 0 <= i < j < |order| ==> order[i] != order[j]
    requires k in order
    ensures Contribution(arg, order, Canonical(k)) == arg[k]
    decreases |order|
  {
    var init := order[..|order| - 1];
    var last := order[|order| - 1];
    if last == k {
      assert forall j :: j in init ==> Canonical(j) != Canonical(k) by {
        forall j | j in init ensures Canonical(j) != Canonical(k) {
          var i :| 0 <= i < |init| && init[i] == j;
          assert order[i] == j;
        }
      }
      ContributionOfUnnamed(arg, init, Canonical(k));
    } else {
      assert k in init by {
        var i :| 0 <= i < |order| && order[i] == k;
        assert i < |order| - 1;
        assert init[i] == k;
      }
      assert Canonical(last) != Canonical(k) by { assert last in arg; }
      ContributionOfKey(arg, init, k);
    }
  }

  /** AddHeaders, and the merge of a client's default headers, give the same
      result whatever order Go visits the keys in, provided no two keys of
      the argument share a canonical name. */
  lemma AddAllOrderIndependent(h: Header, arg: Header, o1: seq<string>, o2: seq<string>)
    requires CollisionFree(arg)
    requires Enumerates(o1, arg.Keys) && Enumerates(o2, arg.Keys)
    ensures AddAll(h, arg, o1) == AddAll(h, arg, o2)
  {
    var r1, r2 := AddAll(h, arg, o1), AddAll(h, arg, o2);
    forall name ensures Values(r1, name) == Values(r2, name) && (name in r1 <==> name in r2) {
      AddAllByName(h, arg, o1, name);
      AddAllByName(h, arg, o2, name);
      if k :| k in arg && Canonical(k) == name {
        ContributionOfKey(arg, o1, k);
        ContributionOfKey(arg, o2, k);
      } else {
        ContributionOfUnnamed(arg, o1, name);
        ContributionOfUnnamed(arg, o2, name);
      }
    }
    assert r1.Keys == r2.Keys;
    forall name | name in r1 ensures r1[name] == r2[name] {
      assert Values(r1, name) == r1[name] && Values(r2, name) == r2[name];
    }
  }

  /** Without collisions, AddAll appends every value of each argument key, in
      order, after the old values of its canonical name, and leaves every
      other name as it was. */
  lemma AddAllAppendsEachKey(h: Header, arg: Header, order: seq<string>)
    requires CollisionFree(arg)
    requires Enumerates(order, arg.Keys)
    ensures forall k :: k in arg ==> Values(AddAll(h, arg, order), Canonical(k)) == Values(h, Canonical(k)) + arg[k]
    ensures forall name :: (forall k :: k in arg ==> Canonical(k) != name) ==>
              (name in AddAll(h, arg, order) <==> name in h) && Values(AddAll(h, arg, order), name) == Values(h, name)
  {
    forall k | k in arg
      ensures Values(AddAll(h, arg, order), Canonical(k)) == Values(h, Canonical(k)) + arg[k]
    {
      AddAllByName(h, arg, order, Canonical(k));
      ContributionOfKey(arg, order, k);
    }
    forall name | forall k :: k in arg ==> Canonical(k) != name
      ensures (name in AddAll(h, arg, order) <==> name in h) && Values(AddAll(h, arg, order), name) == Values(h, name)
    {
      AddAllByName(h, arg, order, name);
      ContributionOfUnnamed(arg, order, name);
    }
  }

  /** AddAll never removes a value: what a name held before is a prefix of
      what it holds afterwards, for every visiting order. */
  lemma AddAllKeepsOldValues(h: Header, arg: Header, order: seq<string>, name: string)
    ensures Values(h, name) <= Values(AddAll(h, arg, order), name)
    ensures name in h ==> name in AddAll(h, arg, order)
  {
    AddAllByName(h, arg, order, name);
  }

  /** "x-a" and "X-A" share the canonical name "X-A". */
  lemma SharedCanonicalName()
    ensures Canonical("x-a") == "X-A" && Canonical("X-A") == "X-A"
  {
    var lower, upper := "x-a", "X-A";
    assert IsToken(lower) && IsToken(upper);
    assert CanonicalFrom("-a", false) == "-A" by { assert "-a"[1..] == "a"; assert CanonicalFrom("a", true) == "A"; }
    assert CanonicalFrom("-A", false) == "-A" by { assert "-A"[1..] == "A"; assert CanonicalFrom("A", true) == "A"; }
    assert Canonical(lower) == upper by { assert lower[1..] == "-a"; }
    assert Canonical(upper) == upper by { assert upper[1..] == "-A"; }
  }

  /** Two keys that share a canonical name make the visiting order visible. */
  lemma CollidingKeysMakeOrderVisible()
    ensures var arg: Header := map["x-a" := ["1"], "X-A" := ["2"]];
            AddAll(map[], arg, ["x-a", "X-A"]) != AddAll(map[], arg, ["X-A", "x-a"])
  {
    var arg: Header := map["x-a" := ["1"], "X-A" := ["2"]];
    var lower, upper := "x-a", "X-A";
    SharedCanonicalName();
    assert Values(arg, lower) == ["1"] && Values(arg, upper) == ["2"];
    var o1, o2 := [lower, upper], [upper, lower];
    assert o1[..1] == [lower] && o2[..1] == [upper];
    var none: seq<string> := [];
    assert Contribution(arg, [lower], upper) == ["1"] by { assert [lower][..0] == none; }
    assert Contribution(arg, [upper], upper) == ["2"] by { assert [upper][..0] == none; }
    assert Contribution(arg, o1, upper) == ["1", "2"];
    assert Contribution(arg, o2, upper) == ["2", "1"];
    AddAllByName(map[], arg, o1, upper);
    AddAllByName(map[], arg, o2, upper);
  }

  // ---------------------------------------------------------------------
  // Deleting and overwriting
  // ---------------------------------------------------------------------

  /** The canonical names of a set of keys. */
  function CanonicalNames(keys: set<string>): set<string> {
    set k | k in keys :: Canonical(k)
  }

  /** `for k := range arg { h.Del(k) }`: the order does not matter. */
  function DelAll(h: Header, arg: Header): (r: Header)
    ensures forall k :: k in arg ==> Canonical(k) !in r
    ensures forall name :: name in h && name !in CanonicalNames(arg.Keys) ==> name in r && r[name] == h[name]
    ensures r.Keys <= h.Keys
  {
    h - CanonicalNames(arg.Keys)
  }

  /** Deleting the same names twice is deleting them once. */
  lemma DelAllIdempotent(h: Header, arg: Header)
    ensures DelAll(DelAll(h, arg), arg) == DelAll(h, arg)
  {
  }

  /** `for k, v := range src { h[k] = v }`: each key of `src` is bound to
      exactly its list in `src`, every other key keeps its list. */
  function Overwrite(h: Header, src: Header): (r: Header)
    ensures forall k :: k in src ==> k in r && r[k] == src[k]
    ensures forall k :: k !in src ==> (k in r <==> k in h) && (k in h ==> r[k] == h[k])
  {
    h + src
  }

  /** The part of `h` on the keys `keys`. */
  function Restrict(h: Header, keys: set<string>): Header {
    map k | k in keys && k in h :: h[k]
  }

  /** One more key of `src` written into a header. */
  lemma OverwriteStep(h: Header, src: Header, done: set<string>, k: string)
    requires k in src
    ensures Overwrite(h, Restrict(src, done))[k := src[k]] == Overwrite(h, Restrict(src, done + {k}))
  {
    var l, r := Overwrite(h, Restrict(src, done))[k := src[k]], Overwrite(h, Restrict(src, done + {k}));
    assert l.Keys == r.Keys;
  }

  /** One step of the DelHeaders loop: deleting one more key removes one
      more canonical name. */
  lemma DelStep(h: Header, done: set<string>, k: string)
    ensures Del(h - CanonicalNames(done), k) == h - CanonicalNames(done + {k})
  {
    assert CanonicalNames(done + {k}) == CanonicalNames(done) + {Canonical(k)};
  }

  /** Overwriting twice with the same source is overwriting once. */
  lemma OverwriteIdempotent(h: Header, src: Header)
    ensures Overwrite(Overwrite(h, src), src) == Overwrite(h, src)
  {
  }
}
