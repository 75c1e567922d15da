/**
 Provider route references (internal/env/router.go, snapshot.go, snapshot_restore.go).
 Providers are opaque; what they can do is a parameter.
 */
module Router {
  import Base64Url
  import opened Bytes
  import opened Wrappers

  datatype Error = InvalidArgument | AlreadyExists | NotFound | IncompatibleState | Unsupported | CapabilityStale
          | Failed(code: int)

  const COLON: byte := 58

  /** `haco-runtime-v1:` */
  const PREFIX: seq<byte> := [104, 97, 99, 111, 45, 114, 117, 110, 116, 105, 109, 101, 45, 118, 49, 58]

  /** `runtime.incus` */
  const PROVIDER_INCUS: seq<byte> := [114, 117, 110, 116, 105, 109, 101, 46, 105, 110, 99, 117, 115]

  // ---------------------------------------------------------------------
  // White space, in UTF-8

  predicate Space1(a: byte) {
    9 <= a <= 13 || a == 32
  }

  predicate Space2(a: byte, b: byte) {
    a == 0xC2 && (b == 0x85 || b == 0xA0)
  }

  predicate Space3(a: byte, b: byte, c: byte) {
    || (a == 0xE1 && b == 0x9A && c == 0x80)
    || (a == 0xE2 && b == 0x80 && (0x80 <= c <= 0x8A || c == 0xA8 || c == 0xA9 || c == 0xAF))
    || (a == 0xE2 && b == 0x81 && c == 0x9F)
    || (a == 0xE3 && b == 0x80 && c == 0x80)
  }

  /** The length of the white space character a string starts with, or 0. */
  function Leading(s: seq<byte>): (n: nat)
    ensures n <= |s|
  {
    if |s| >= 1 && Space1(s[0]) then 1
    else if |s| >= 2 && Space2(s[0], s[1]) then 2
    else if |s| >= 3 && Space3(s[0], s[1], s[2]) then 3
    else 0
  }

  /** The length of the white space character a string ends with, or 0. */
  function Trailing(s: seq<byte>): (n: nat)
    ensures n <= |s|
  {
    var k := |s|;
    if k >= 1 && Space1(s[k - 1]) then 1
    else if k >= 2 && Space2(s[k - 2], s[k - 1]) then 2
    else if k >= 3 && Space3(s[k - 3], s[k - 2], s[k - 1]) then 3
    else 0
  }

  function TrimLeft(s: seq<byte>): seq<byte> {
    if Leading(s) == 0 then s else TrimLeft(s[Leading(s)..])
  }

  function TrimRight(s: seq<byte>): seq<byte> {
    if Trailing(s) == 0 then s else TrimRight(s[..|s| - Trailing(s)])
  }

  function TrimSpace(s: seq<byte>): seq<byte> {
    TrimRight(TrimLeft(s))
  }

  // ---------------------------------------------------------------------
  // The registry

  datatype Registration<+P> = Registration(id: seq<byte>, provider: Option<P>)

  datatype Router<+P> = Router(defaultProvider: seq<byte>, providers: map<seq<byte>, P>)

  predicate AcceptableID(id: seq<byte>) {
    id != [] && TrimSpace(id) == id && COLON !in id && 13 !in id && 10 !in id && 0 !in id
  }

  predicate Acceptable<P>(r: Registration<P>) {
    AcceptableID(r.id) && r.provider.Some?
  }

  /** The first `n` registrations are acceptable and name different providers. */
  predicate Registered<P>(rs: seq<Registration<P>>, n: nat)
    requires n <= |rs|
  {
    && (forall i :: 0 <= i < n ==> Acceptable(rs[i]))
    && (forall i, j :: 0 <= i < j < n ==> rs[i].id != rs[j].id)
  }

  predicate Names<P>(rs: seq<Registration<P>>, id: seq<byte>) {
    exists i :: 0 <= i < |rs| && rs[i].id == id
  }

  ghost predicate RefusedAt<P>(rs: seq<Registration<P>>, n: nat, error: Error) {
    && n < |rs| && Registered(rs, n) && !Registered(rs, n + 1)
    && error == if Acceptable(rs[n]) then AlreadyExists else InvalidArgument
  }

  /** The map holds the first `n` registrations and nothing else. */
  ghost predicate Holds<P>(m: map<seq<byte>, P>, rs: seq<Registration<P>>, n: nat)
    requires n <= |rs| && Registered(rs, n)
  {
    && (forall i :: 0 <= i < n ==> rs[i].id in m && m[rs[i].id] == rs[i].provider.value)
    && (forall id :: id in m ==> exists i :: 0 <= i < n && rs[i].id == id)
  }

  /** The loop of `NewRouter`. */
  method Register<P>(rs: seq<Registration<P>>) returns (r: Result<map<seq<byte>, P>, Error>)
    ensures r.Ok? <==> Registered(rs, |rs|)
    ensures r.Ok? ==> Holds(r.value, rs, |rs|)
    ensures r.Err? ==> exists n :: RefusedAt(rs, n, r.error)
  {
    var registered: map<seq<byte>, P> := map[];
    for n := 0 to |rs|
      invariant Registered(rs, n) && Holds(registered, rs, n)
    {
      if !Acceptable(rs[n]) {
        assert RefusedAt(rs, n, InvalidArgument);
        return Err(InvalidArgument);
      }
      if rs[n].id in registered {
        assert RefusedAt(rs, n, AlreadyExists);
        return Err(AlreadyExists);
      }
      registered := registered[rs[n].id := rs[n].provider.value];
    }
    r := Ok(registered);
  }

  /** `NewRouter` */
  method NewRouter<P>(defaultProvider: seq<byte>, rs: seq<Registration<P>>) returns (r: Result<Router<P>, Error>)
    ensures r.Ok? <==> TrimSpace(defaultProvider) != [] && Registered(rs, |rs|) && Names(rs, TrimSpace(defaultProvider))
    ensures r.Ok? ==> r.value.defaultProvider == TrimSpace(defaultProvider) && Holds(r.value.providers, rs, |rs|)
    ensures r.Err? ==> || (TrimSpace(defaultProvider) == [] && r.error == InvalidArgument)
                       || (exists n :: RefusedAt(rs, n, r.error))
                       || (Registered(rs, |rs|) && r.error == NotFound)
  {
    var name := TrimSpace(defaultProvider);
    if name == [] {
      return Err(InvalidArgument);
    }
    var registered := Register(rs);
    if registered.Err? {
      return Err(registered.error);
    }
    if name !in registered.value {
      return Err(NotFound);
    }
    r := Ok(Router(name, registered.value));
  }

  // ---------------------------------------------------------------------
  // References

  datatype Route = Route(id: seq<byte>, native: seq<byte>)

  function EncodeRouteRef(id: seq<byte>, native: seq<byte>): seq<byte> {
    PREFIX + (id + ([COLON] + Base64Url.Encode(native)))
  }

  /** The first colon, or the length when there is none. */
  function Cut(s: seq<byte>): (n: nat)
    ensures n <= |s| && COLON !in s[..n] && (n < |s| ==> s[n] == COLON)
  {
    if s == [] || s[0] == COLON then 0
    else
      var n := Cut(s[1..]);
      assert s[..n + 1] == [s[0]] + s[1..][..n];
      n + 1
  }

  function Payload(rest: seq<byte>): seq<byte>
    requires Cut(rest) < |rest|
  {
    rest[Cut(rest) + 1..]
  }

  function DecodeRouteRef(raw: seq<byte>): Result<Route, Error> {
    if !(PREFIX <= raw) then
      if TrimSpace(raw) == [] then Err(IncompatibleState) else Ok(Route(PROVIDER_INCUS, raw))
    else
      var rest := raw[|PREFIX|..];
      var cut := Cut(rest);
      if cut == 0 || cut >= |rest| - 1 then Err(IncompatibleState)
      else
        match Base64Url.Decode(Payload(rest))
        case None => Err(IncompatibleState)
        case Some(native) => if native == [] then Err(IncompatibleState) else Ok(Route(rest[..cut], native))
  }

  predicate MatchesRuntimeRef(raw: seq<byte>, id: seq<byte>, native: seq<byte>) {
    && DecodeRouteRef(raw).Ok? && id != [] && native != []
    && DecodeRouteRef(raw).value == Route(id, native)
  }

  lemma CutAfter(id: seq<byte>, payload: seq<byte>)
    requires COLON !in id
    ensures var rest := id + ([COLON] + payload); Cut(rest) == |id| && Payload(rest) == payload
  {
    var rest := id + ([COLON] + payload);
    assert rest[|id|] == COLON;
    assert rest[|id| + 1..] == payload;
  }

  lemma EncodedIsNotEmpty(native: seq<byte>)
    requires native != []
    ensures Base64Url.Encode(native) != []
  {
  }

  lemma RouteComesBack(id: seq<byte>, native: seq<byte>)
    requires id != [] && COLON !in id && native != []
    ensures DecodeRouteRef(EncodeRouteRef(id, native)) == Ok(Route(id, native))
  {
    var payload := Base64Url.Encode(native);
    var rest := id + ([COLON] + payload);
    assert EncodeRouteRef(id, native)[|PREFIX|..] == rest;
    CutAfter(id, payload);
    EncodedIsNotEmpty(native);
    Base64Url.RoundTrip(native);
    assert rest[..|id|] == id;
  }

  /** For every acceptable provider and nonempty native reference, the pair comes back. */
  lemma RouteRoundTrip(id: seq<byte>, native: seq<byte>)
    requires AcceptableID(id) && native != []
    ensures DecodeRouteRef(EncodeRouteRef(id, native)) == Ok(Route(id, native))
  {
    RouteComesBack(id, native);
  }

  /** The reference matches that pair and no other. */
  lemma MatchesOnlyItsPair(id: seq<byte>, native: seq<byte>, id': seq<byte>, native': seq<byte>)
    requires AcceptableID(id) && native != []
    ensures MatchesRuntimeRef(EncodeRouteRef(id, native), id', native') <==> id' == id && native' == native
  {
    RouteComesBack(id, native);
  }

  lemma RoutesAreWellFormed(raw: seq<byte>)
    requires DecodeRouteRef(raw).Ok?
    ensures var route := DecodeRouteRef(raw).value; route.id != [] && COLON !in route.id && route.native != []
  {
    if !(PREFIX <= raw) {
      assert raw != [];
    }
  }

  /** What a reference decodes to encodes back to it exactly when its payload is canonical. */
  lemma ReencodesIffCanonical(raw: seq<byte>)
    requires PREFIX <= raw && DecodeRouteRef(raw).Ok?
    ensures var route := DecodeRouteRef(raw).value;
            raw == EncodeRouteRef(route.id, route.native) <==> Base64Url.Canonical(Payload(raw[|PREFIX|..]))
  {
    var rest := raw[|PREFIX|..];
    var route := DecodeRouteRef(raw).value;
    var payload := Payload(rest);
    Base64Url.CanonicalIff(payload);
    assert raw == PREFIX + rest && rest == route.id + ([COLON] + payload);
    Rejoin(route.id, payload, Base64Url.Encode(route.native));
  }

  lemma Rejoin(id: seq<byte>, a: seq<byte>, b: seq<byte>)
    ensures PREFIX + (id + ([COLON] + a)) == PREFIX + (id + ([COLON] + b)) <==> a == b
  {
    var x, y := PREFIX + (id + ([COLON] + a)), PREFIX + (id + ([COLON] + b));
    assert x[|PREFIX| + |id| + 1..] == a && y[|PREFIX| + |id| + 1..] == b;
  }

  lemma EncodeRouteInjective(id: seq<byte>, a: seq<byte>, b: seq<byte>)
    ensures EncodeRouteRef(id, a) == EncodeRouteRef(id, b) <==> a == b
  {
    Rejoin(id, Base64Url.Encode(a), Base64Url.Encode(b));
    if Base64Url.Encode(a) == Base64Url.Encode(b) {
      Base64Url.EncodeInjective(a, b);
    }
  }

  /** The router itself takes every spelling of a runtime reference: these two differ and resolve alike. */
  lemma LenientSpelling(id: seq<byte>)
    requires AcceptableID(id)
    ensures var a, b := PREFIX + (id + ([COLON] + [81, 81])), PREFIX + (id + ([COLON] + [81, 82]));
            a != b && DecodeRouteRef(a) == DecodeRouteRef(b) == Ok(Route(id, [65]))
  {
    Base64Url.DecoderIsLenient();
    Rejoin(id, [81, 81], [81, 82]);
    Spelling(id, [81, 81]);
    Spelling(id, [81, 82]);
  }

  lemma Spelling(id: seq<byte>, payload: seq<byte>)
    requires AcceptableID(id) && payload != [] && Base64Url.Decode(payload).Some?
    requires Base64Url.Decode(payload).value != []
    ensures DecodeRouteRef(PREFIX + (id + ([COLON] + payload))) == Ok(Route(id, Base64Url.Decode(payload).value))
  {
    var rest := id + ([COLON] + payload);
    assert (PREFIX + rest)[|PREFIX|..] == rest;
    CutAfter(id, payload);
    assert rest[..|id|] == id;
  }

  // ---------------------------------------------------------------------
  // Resolution

  /** `resolveWithID`: the provider is `r.providers[route.id]`. */
  function Resolve<P>(r: Router<P>, raw: seq<byte>): Result<Route, Error> {
    match DecodeRouteRef(raw)
    case Err(e) => Err(e)
    case Ok(route) => if route.id in r.providers then Ok(route) else Err(Unsupported)
  }

  datatype Component = Component(binding: string, role: string, nativeRef: seq<byte>, owner: string, state: string)

  /** `snapshotBackend` and `restoreBackend`, which differ in the interface `capable` they ask of the provider. */
  function Backend<P>(r: Router<P>, capable: P -> bool, c: Component): Result<Route, Error> {
    if !(PREFIX <= c.nativeRef) then Err(IncompatibleState)
    else
      match Resolve(r, c.nativeRef)
      case Err(e) => Err(e)
      case Ok(route) =>
        if c.nativeRef != EncodeRouteRef(route.id, route.native) then Err(IncompatibleState)
        else if !capable(r.providers[route.id]) then Err(Unsupported)
        else Ok(route)
  }

  /** Exactly the canonical references of capable registered providers are accepted. */
  lemma AcceptedIffCanonical<P>(r: Router<P>, capable: P -> bool, c: Component)
    ensures Backend(r, capable, c).Ok? <==>
            && PREFIX <= c.nativeRef && DecodeRouteRef(c.nativeRef).Ok?
            && DecodeRouteRef(c.nativeRef).value.id in r.providers
            && Base64Url.Canonical(Payload(c.nativeRef[|PREFIX|..]))
            && capable(r.providers[DecodeRouteRef(c.nativeRef).value.id])
  {
    if PREFIX <= c.nativeRef && DecodeRouteRef(c.nativeRef).Ok? {
      ReencodesIffCanonical(c.nativeRef);
    }
  }

  /** Two accepted references to the same provider object are the same reference. */
  lemma AcceptedReferencesAreUnique<P>(r: Router<P>, capable: P -> bool, capable': P -> bool, a: Component,
          b: Component)
    requires Backend(r, capable, a).Ok? && Backend(r, capable', b).Ok?
    ensures Backend(r, capable, a) == Backend(r, capable', b) <==> a.nativeRef == b.nativeRef
  {
  }

  // ---------------------------------------------------------------------
  // Planning and unplanning a snapshot

  /** A native reference the provider may return from a plan. */
  predicate Plain(c: Component) {
    c.nativeRef != [] && !(PREFIX <= c.nativeRef)
  }

  function Qualify(id: seq<byte>, c: Component): Component {
    c.(nativeRef := EncodeRouteRef(id, c.nativeRef))
  }

  function Qualified(id: seq<byte>, cs: seq<Component>): seq<Component> {
    seq(|cs|, i requires 0 <= i < |cs| => Qualify(id, cs[i]))
  }

  /** What `PlanSnapshot` comes to, where `plan` is the provider's own plan for its native reference. */
  function Planned<P>(r: Router<P>, capable: P -> bool, plan: seq<byte> -> Result<seq<Component>, Error>,
          raw: seq<byte>): Result<seq<Component>, Error> {
    match Resolve(r, raw)
    case Err(e) => Err(e)
    case Ok(route) =>
      if !capable(r.providers[route.id]) then Err(Unsupported)
      else
        match plan(route.native)
        case Err(e) => Err(e)
        case Ok(cs) => if forall i :: 0 <= i < |cs| ==> Plain(cs[i]) then Ok(Qualified(route.id, cs))
            else Err(IncompatibleState)
  }

  method PlanSnapshot<P>(r: Router<P>, capable: P -> bool, plan: seq<byte> -> Result<seq<Component>, Error>,
          raw: seq<byte>)
    returns (out: Result<seq<Component>, Error>)
    ensures out == Planned(r, capable, plan, raw)
  {
    var resolved := Resolve(r, raw);
    if resolved.Err? {
      return Err(resolved.error);
    }
    var route := resolved.value;
    if !capable(r.providers[route.id]) {
      return Err(Unsupported);
    }
    var planned := plan(route.native);
    if planned.Err? {
      return planned;
    }
    var cs := planned.value;
    var result := cs;
    for i := 0 to |cs|
      invariant |result| == |cs| && result[i..] == cs[i..]
      invariant forall k :: 0 <= k < i ==> Plain(cs[k]) && result[k] == Qualified(route.id, cs)[k]
    {
      assert result[i] == result[i..][0] == cs[i..][0];
      if result[i].nativeRef == [] || PREFIX <= result[i].nativeRef {
        assert !Plain(cs[i]);
        return Err(IncompatibleState);
      }
      var before := result;
      result := result[i := result[i].(nativeRef := EncodeRouteRef(route.id, result[i].nativeRef))];
      assert result[i + 1..] == before[i..][1..];
    }
    assert result == Qualified(route.id, cs);
    out := Ok(result);
  }

  datatype Snapshot = Snapshot(id: string, state: string, runtimeRef: seq<byte>, components: seq<Component>)

  /** One step of `nativeSavedSnapshot`. */
  function Native<P>(r: Router<P>, capable: P -> bool, expected: seq<byte>): Component -> Result<Component, Error> {
    (c: Component) =>
      match Backend(r, capable, c)
      case Err(e) => Err(e)
      case Ok(route) => if route.id != expected then Err(CapabilityStale) else Ok(c.(nativeRef := route.native))
  }

  /** `f` of every element from the `i`-th on, or the first error among them. */
  function Each<A, B>(f: A -> Result<B, Error>, xs: seq<A>, i: nat): (out: Result<seq<B>, Error>)
    requires i <= |xs|
    ensures out.Ok? ==> |out.value| == |xs| - i
    decreases |xs| - i
  {
    if i == |xs| then Ok([])
    else
      match f(xs[i])
      case Err(e) => Err(e)
      case Ok(y) =>
        match Each(f, xs, i + 1)
        case Err(e) => Err(e)
        case Ok(rest) => Ok([y] + rest)
  }

  lemma {:induction false} EachSucceeds<A, B>(f: A -> Result<B, Error>, xs: seq<A>, ys: seq<B>, i: nat)
    requires |ys| == |xs| && i <= |xs| && forall k :: 0 <= k < |xs| ==> f(xs[k]) == Ok(ys[k])
    ensures Each(f, xs, i) == Ok(ys[i..])
    decreases |xs| - i
  {
    if i == |xs| {
    } else {
      EachSucceeds(f, xs, ys, i + 1);
      assert [ys[i]] + ys[i + 1..] == ys[i..];
    }
  }

  lemma {:induction false} EachSucceeded<A, B>(f: A -> Result<B, Error>, xs: seq<A>, i: nat, k: nat)
    requires i <= k < |xs| && Each(f, xs, i).Ok?
    ensures f(xs[k]) == Ok(Each(f, xs, i).value[k - i])
    decreases |xs| - i
  {
    if i == k {
    } else {
      EachSucceeded(f, xs, i + 1, k);
    }
  }

  function Unplanned<P>(r: Router<P>, capable: P -> bool, s: Snapshot, expected: seq<byte>): Result<Snapshot, Error> {
    match Resolve(r, s.runtimeRef)
    case Err(e) => Err(e)
    case Ok(route) =>
      if route.id != expected then Err(CapabilityStale)
      else
        match Each(Native(r, capable, expected), s.components, 0)
        case Err(e) => Err(e)
        case Ok(cs) => Ok(s.(runtimeRef := route.native, components := cs))
  }

  /** The first `i` elements are rewritten in place; `whole` is what the rest of the loop makes of it. */
  ghost predicate Rewritten<A, B>(whole: Result<seq<B>, Error>, done: seq<B>, f: A -> Result<B, Error>,
          xs: seq<A>, i: nat) {
    i <= |xs| &&
    var rest := Each(f, xs, i);
    whole == if rest.Ok? then Ok(done + rest.value) else rest
  }

  lemma RewriteOne<A, B>(whole: Result<seq<B>, Error>, done: seq<B>, f: A -> Result<B, Error>, xs: seq<A>, i: nat)
    requires i < |xs| && Rewritten(whole, done, f, xs, i)
    ensures f(xs[i]).Err? ==> whole == Err(f(xs[i]).error)
    ensures f(xs[i]).Ok? ==> Rewritten(whole, done + [f(xs[i]).value], f, xs, i + 1)
  {
    var rest := Each(f, xs, i + 1);
    if f(xs[i]).Ok? && rest.Ok? {
      var y := f(xs[i]).value;
      assert done + ([y] + rest.value) == done + [y] + rest.value;
    }
  }

  /** The loop that rewrites a copied slice element by element, and returns on the first error. */
  method RewriteEach<A>(f: A -> Result<A, Error>, xs: seq<A>) returns (out: Result<seq<A>, Error>)
    ensures out == Each(f, xs, 0)
  {
    var copy := xs;
    ghost var whole := Each(f, xs, 0);
    assert whole.Ok? ==> [] + whole.value == whole.value;
    for i := 0 to |xs|
      invariant |copy| == |xs| && forall k :: i <= k < |xs| ==> copy[k] == xs[k]
      invariant Rewritten(whole, copy[..i], f, xs, i)
    {
      RewriteOne(whole, copy[..i], f, xs, i);
      var x := f(copy[i]);
      if x.Err? {
        return Err(x.error);
      }
      ghost var before := copy[..i];
      copy := copy[i := x.value];
      assert copy[..i + 1] == before + [x.value];
    }
    assert copy[..|xs|] + [] == copy;
    out := Ok(copy);
  }

  method NativeSavedSnapshot<P>(r: Router<P>, capable: P -> bool, s: Snapshot,
          expected: seq<byte>) returns (out: Result<Snapshot, Error>)
    ensures out == Unplanned(r, capable, s, expected)
  {
    var resolved := Resolve(r, s.runtimeRef);
    if resolved.Err? {
      return Err(resolved.error);
    }
    if resolved.value.id != expected {
      return Err(CapabilityStale);
    }
    var components := RewriteEach(Native(r, capable, expected), s.components);
    if components.Err? {
      return Err(components.error);
    }
    out := Ok(s.(runtimeRef := resolved.value.native, components := components.value));
  }

  lemma QualifiedIsNative<P>(r: Router<P>, capable: P -> bool, id: seq<byte>, c: Component)
    requires id in r.providers && capable(r.providers[id]) && id != [] && COLON !in id && Plain(c)
    ensures Native(r, capable, id)(Qualify(id, c)) == Ok(c)
  {
    RouteComesBack(id, c.nativeRef);
  }

  lemma QualifiedComesBack<P>(r: Router<P>, capable: P -> bool, id: seq<byte>, cs: seq<Component>)
    requires id in r.providers && capable(r.providers[id]) && id != [] && COLON !in id
    requires forall k :: 0 <= k < |cs| ==> Plain(cs[k])
    ensures Each(Native(r, capable, id), Qualified(id, cs), 0) == Ok(cs)
  {
    var f := Native(r, capable, id);
    forall k | 0 <= k < |cs|
      ensures f(Qualified(id, cs)[k]) == Ok(cs[k])
    {
      QualifiedIsNative(r, capable, id, cs[k]);
    }
    EachSucceeds(f, Qualified(id, cs), cs, 0);
    assert cs[0..] == cs;
  }

  /** For every planned list, `nativeSavedSnapshot` undoes `PlanSnapshot`: the provider's own components, in order. */
  lemma UnplanUndoesPlan<P>(r: Router<P>, capable: P -> bool, plan: seq<byte> -> Result<seq<Component>, Error>,
          s: Snapshot)
    requires Planned(r, capable, plan, s.runtimeRef) == Ok(s.components)
    ensures var route := Resolve(r, s.runtimeRef).value;
            plan(route.native).Ok? &&
            Unplanned(r, capable, s, route.id) ==
              Ok(s.(runtimeRef := route.native, components := plan(route.native).value))
  {
    var route := Resolve(r, s.runtimeRef).value;
    RoutesAreWellFormed(s.runtimeRef);
    QualifiedComesBack(r, capable, route.id, plan(route.native).value);
  }

  lemma RequalifyEach(f: Component -> Result<Component, Error>, id: seq<byte>, cs: seq<Component>)
    requires forall c :: f(c).Ok? ==> Qualify(id, f(c).value) == c
    requires Each(f, cs, 0).Ok?
    ensures Qualified(id, Each(f, cs, 0).value) == cs
  {
    forall k | 0 <= k < |cs|
      ensures Qualified(id, Each(f, cs, 0).value)[k] == cs[k]
    {
      EachSucceeded(f, cs, 0, k);
    }
  }

  /** Conversely, every saved list that is accepted is the qualified form of its native one. */
  lemma AcceptedIsQualified<P>(r: Router<P>, capable: P -> bool, s: Snapshot, expected: seq<byte>)
    requires Unplanned(r, capable, s, expected).Ok?
    ensures Qualified(expected, Unplanned(r, capable, s, expected).value.components) == s.components
  {
    RequalifyEach(Native(r, capable, expected), expected, s.components);
  }
}
