/** The membrane of solutions/6-tc39-unit-test-example-revocable, after the
    identity-preserving membrane of the ECMAScript proxies proposal.
    Directions are the numbers `wet2dry = 0` and `dry2wet = 1`, and
    `maps` holds one WeakMap per direction. Each map's values are strong,
    so a lookup with a live key always finds its entry: the pair behaves
    as the identity cache of module IdentityCache with nothing collected
    (`Cache` is that view). A membrane-wide `revoked` flag makes every
    trap lookup throw `Error("revoked")`, and `RevokeFnCache.revokeAll`
    empties its list after calling the live revoke functions.

    Host operations (`Reflect.apply`, `Reflect.construct`, `Reflect[key]`)
    are an input `raw`, and garbage collection is an input `collected` of
    `revokeAll`. */
module Tc39Membrane {
  import opened Js
  import opened IdentityCache
  import opened RevokeRegistry

  /** The directions the code uses: `wet2dry = 0` and `dry2wet = 1`. */
  type Dir = d: int | 0 <= d < 2

  const WetToDry: Dir := 0
  const DryToWet: Dir := 1

  /** `flip(dir)`: `(dir + 1) % 2`, which on 0 and 1 agrees with the
      truncating remainder of the source. */
  function FlipDir(dir: Dir): (r: Dir)
    ensures r != dir
    ensures dir == WetToDry <==> r == DryToWet
  {
    (dir + 1) % 2
  }

  lemma FlipDirInvolution(dir: Dir)
    ensures FlipDir(FlipDir(dir)) == dir
  {
  }

  /** The side a direction moves objects from: `wet2dry` wraps wet
      objects for the dry side. */
  function AsDirection(dir: Dir): (d: Direction)
    ensures d == Wet <==> dir == WetToDry
  {
    if dir == WetToDry then Wet else Dry
  }

  /** Numeric flipping is the flipping of the other variants. */
  lemma FlipAgrees(dir: Dir)
    ensures AsDirection(FlipDir(dir)) == Flip(AsDirection(dir))
  {
  }

  /** `maps[0]` and `maps[1]` as the identity cache they implement. */
  function Cache(maps: seq<map<JsObject, JsObject>>): (c: CacheMaps)
    requires |maps| == 2
    ensures c.For(Wet) == maps[WetToDry] && c.For(Dry) == maps[DryToWet]
  {
    CacheMaps(maps[DryToWet], maps[WetToDry])
  }

  /** `maps[dir].set(obj, proxy); maps[flip(dir)].set(proxy, obj)` is the
      identity cache's `add(obj, proxy, dir)`. */
  lemma {:induction false} SetBothIsAdd(maps: seq<map<JsObject, JsObject>>, obj: JsObject, proxy: JsObject, dir: Dir)
    requires |maps| == 2
    ensures var m1 := maps[dir := maps[dir][obj := proxy]];
            var m2 := m1[FlipDir(dir) := m1[FlipDir(dir)][proxy := obj]];
            |m2| == 2 && Cache(m2) == Cache(maps).Add(obj, proxy, AsDirection(dir))
  {
    var m1 := maps[dir := maps[dir][obj := proxy]];
    var m2 := m1[FlipDir(dir) := m1[FlipDir(dir)][proxy := obj]];
    if dir == WetToDry {
      assert m2[WetToDry] == maps[WetToDry][obj := proxy];
      assert m2[DryToWet] == maps[DryToWet][proxy := obj];
    } else {
      assert m2[DryToWet] == maps[DryToWet][obj := proxy];
      assert m2[WetToDry] == maps[WetToDry][proxy := obj];
    }
  }

  /** What the handler closure of a proxy captured: the object it forwards
      to and the `dir` of the `wrap` call that made it. */
  datatype Handler = Handler(obj: JsObject, dir: Dir)

  /** Every listed revoke function is the WeakMap entry of its proxy, and
      no proxy is listed twice; until `revoke()` has run (`revoked` is
      false) every proxy of the WeakMap is listed exactly once. */
  ghost predicate Listed(m: map<JsObject, RevokeFn>, refs: seq<RevokeFn>, revoked: bool)
  {
    (forall i :: 0 <= i < |refs| ==> refs[i].proxy in m) &&
    (forall p :: p in m ==> m[p] == RevokeFn(p) && Occurrences(refs, p) <= 1) &&
    (!revoked ==> m.Keys == Proxies(refs))
  }

  lemma ListNewKeepsListed(m: map<JsObject, RevokeFn>, refs: seq<RevokeFn>, proxy: JsObject, revoked: bool)
    requires Listed(m, refs, revoked) && proxy !in m
    ensures Listed(m[proxy := RevokeFn(proxy)], refs + [RevokeFn(proxy)], revoked)
    ensures Occurrences(refs + [RevokeFn(proxy)], proxy) == 1
  {
    forall p | p in m
      ensures Occurrences(refs + [RevokeFn(proxy)], p) == Occurrences(refs, p)
    {
      RegisterOnce(refs, proxy, p);
    }
    RegisterOnce(refs, proxy, proxy);
    var refs' := refs + [RevokeFn(proxy)];
    assert refs'[|refs|].proxy == proxy;
    assert forall i :: 0 <= i < |refs| ==> refs'[i] == refs[i];
  }

  /** Every proxy made so far is found on `maps[flip(dir)]`, for the `dir`
      it was made with, as the object it was made for: handed back across
      the membrane it unwraps instead of being wrapped again. */
  ghost predicate Unwraps(maps: seq<map<JsObject, JsObject>>, h: map<JsObject, Handler>)
    requires |maps| == 2
  {
    forall p {:trigger maps[FlipDir(h[p].dir)][p]} ::
      p in h ==> p in maps[FlipDir(h[p].dir)] && maps[FlipDir(h[p].dir)][p] == h[p].obj
  }

  /** One proxy's reverse entry. */
  lemma UnwrapsAt(maps: seq<map<JsObject, JsObject>>, h: map<JsObject, Handler>, p: JsObject)
    requires |maps| == 2 && Unwraps(maps, h) && p in h
    ensures p in maps[FlipDir(h[p].dir)] && maps[FlipDir(h[p].dir)][p] == h[p].obj
  {
  }

  /** A miss of `wrap(dir, obj)` that makes the unknown proxy `w` keeps
      every proxy unwrapping, `w` included: the two writes only add keys. */
  lemma AddKeepsUnwraps(maps: seq<map<JsObject, JsObject>>, h: map<JsObject, Handler>,
                        obj: JsObject, w: JsObject, dir: Dir)
    requires |maps| == 2 && Unwraps(maps, h)
    requires obj !in maps[dir] && Cache(maps).Unknown(w) && w != obj && w !in h
    ensures var m1 := maps[dir := maps[dir][obj := w]];
            var m2 := m1[FlipDir(dir) := m1[FlipDir(dir)][w := obj]];
            Unwraps(m2, h[w := Handler(obj, dir)])
  {
    var m1 := maps[dir := maps[dir][obj := w]];
    var m2 := m1[FlipDir(dir) := m1[FlipDir(dir)][w := obj]];
    var h' := h[w := Handler(obj, dir)];
    forall p | p in h'
      ensures p in m2[FlipDir(h'[p].dir)] && m2[FlipDir(h'[p].dir)][p] == h'[p].obj
    {
      if p != w {
        // an old proxy is a key of its flipped map, and the miss wrote
        // only `obj`, absent from `maps[dir]`, and the new `w`
        UnwrapsAt(maps, h, p);
      }
    }
  }

  /** Both maps exist, every entry has its reverse on the other map, and
      every proxy made so far unwraps. */
  ghost predicate MapsSound(maps: seq<map<JsObject, JsObject>>, h: map<JsObject, Handler>)
  {
    |maps| == 2 && Cache(maps).Paired() && Unwraps(maps, h)
  }

  /** A miss of `wrap(dir, obj)` that makes the unknown proxy `w` keeps
      the maps sound. */
  lemma NewProxyKeepsMapsSound(maps: seq<map<JsObject, JsObject>>, h: map<JsObject, Handler>,
                               obj: JsObject, w: JsObject, dir: Dir,
                               maps': seq<map<JsObject, JsObject>>, h': map<JsObject, Handler>)
    requires MapsSound(maps, h)
    requires obj !in maps[dir] && Cache(maps).Unknown(w) && w != obj && w !in h
    requires maps' == var m1 := maps[dir := maps[dir][obj := w]]; m1[FlipDir(dir) := m1[FlipDir(dir)][w := obj]]
    requires h' == h[w := Handler(obj, dir)]
    ensures MapsSound(maps', h')
  {
    SetBothIsAdd(maps, obj, w, dir);
    AddKeepsPaired(Cache(maps), obj, w, AsDirection(dir));
    AddKeepsUnwraps(maps, h, obj, w, dir);
  }

  /** The membrane's invariant: the maps are sound, and every proxy made
      so far forwards to its handler's object and owns the WeakMap entry
      of its revoke function.
      Until `revoke()` has run every proxy made so far has its revoke
      function listed exactly once; afterwards only those made since. */
  ghost predicate Consistent(maps: seq<map<JsObject, JsObject>>, h: map<JsObject, Handler>,
                             revokeFns: map<JsObject, RevokeFn>, refs: seq<RevokeFn>, revoked: bool)
  {
    MapsSound(maps, h) && Listed(revokeFns, refs, revoked) &&
    revokeFns.Keys == h.Keys && (forall p :: p in h ==> p.target == h[p].obj)
  }

  /** A miss of `wrap(dir, obj)` that makes the unknown proxy `w` for `obj`
      keeps the invariant. */
  lemma NewProxyKeepsConsistent(maps: seq<map<JsObject, JsObject>>, h: map<JsObject, Handler>,
                                revokeFns: map<JsObject, RevokeFn>, refs: seq<RevokeFn>,
                                obj: JsObject, w: JsObject, dir: Dir, revoked: bool,
                                maps': seq<map<JsObject, JsObject>>, h': map<JsObject, Handler>,
                                revokeFns': map<JsObject, RevokeFn>, refs': seq<RevokeFn>)
    requires Consistent(maps, h, revokeFns, refs, revoked)
    requires obj !in maps[dir] && Cache(maps).Unknown(w) && w != obj
    requires w !in h && w.target == obj
    requires maps' == var m1 := maps[dir := maps[dir][obj := w]]; m1[FlipDir(dir) := m1[FlipDir(dir)][w := obj]]
    requires h' == h[w := Handler(obj, dir)] && revokeFns' == revokeFns[w := RevokeFn(w)]
    requires refs' == refs + [RevokeFn(w)]
    ensures Consistent(maps', h', revokeFns', refs', revoked)
  {
    NewProxyKeepsMapsSound(maps, h, obj, w, dir, maps', h');
    ListNewKeepsListed(revokeFns, refs, w, revoked);
  }

  /** No double wrapping: a proxy made by `wrap(dir, obj)`, looked up in
      the flipped direction, is found as `obj`. */
  lemma UnwrapsRoundTrip(maps: seq<map<JsObject, JsObject>>, h: map<JsObject, Handler>,
                         revokeFns: map<JsObject, RevokeFn>, refs: seq<RevokeFn>, revoked: bool, p: JsObject)
    requires Consistent(maps, h, revokeFns, refs, revoked) && p in h
    ensures Cache(maps).Get(p, Flip(AsDirection(h[p].dir)), {}) == Some(h[p].obj)
  {
    UnwrapsAt(maps, h, p);
    FlipAgrees(h[p].dir);
  }

  /** The state change of one miss of `wrap(dir, t)` that made proxy `w`. */
  ghost predicate MadeProxy(s: CacheMaps, h: map<JsObject, Handler>, refs: seq<RevokeFn>,
                            s': CacheMaps, h': map<JsObject, Handler>, refs': seq<RevokeFn>,
                            t: JsObject, w: JsObject, dir: Dir)
  {
    h' == h[w := Handler(t, dir)] && s' == s.Add(t, w, AsDirection(dir)) && refs' == refs + [RevokeFn(w)]
  }

  /** What a call of `wrap` keeps: every entry answers as before and every
      proxy keeps its handler. */
  ghost predicate Grows(s: CacheMaps, h: map<JsObject, Handler>, s': CacheMaps, h': map<JsObject, Handler>)
  {
    Extends(s, s', {}) && (forall q :: q in h ==> q in h' && h'[q] == h[q])
  }

  lemma GrowsTransitive(s1: CacheMaps, h1: map<JsObject, Handler>, s2: CacheMaps, h2: map<JsObject, Handler>,
                        s3: CacheMaps, h3: map<JsObject, Handler>)
    requires Grows(s1, h1, s2, h2) && Grows(s2, h2, s3, h3)
    ensures Grows(s1, h1, s3, h3)
  {
    ExtendsTransitive(s1, s2, s3, {});
  }

  /** `c` is how a trap's `try` block completes when the host operation
      ended with `raw`: the result wrapped in `d`, or the error rethrown
      as `wrap(dir, e)`. */
  ghost predicate Settled(s: CacheMaps, d: Direction, raw: Outcome, c: Completion)
  {
    match raw
    case Returned(v) => c.Normal? && Represents(s, v, d, c.value, {})
    case Threw(e) => c.Thrown? && Represents(s, e, d, c.exn, {})
  }

  /** `RevokeFnCache`: a WeakMap from each proxy to its revoke function
      and a list of WeakRefs to the functions, emptied by `revokeAll`. */
  class RevokeFnCache {
    var revokeFnWeakRefs: seq<RevokeFn>
    var proxyToRevokeFn: map<JsObject, RevokeFn>

    constructor ()
      ensures revokeFnWeakRefs == [] && proxyToRevokeFn == map[]
    {
      revokeFnWeakRefs := [];
      proxyToRevokeFn := map[];
    }

    /** `add(revokeFn, proxy)`. */
    method Add(revokeFn: RevokeFn, proxy: JsObject)
      modifies this
      ensures proxyToRevokeFn == old(proxyToRevokeFn)[proxy := revokeFn]
      ensures revokeFnWeakRefs == old(revokeFnWeakRefs) + [revokeFn]
    {
      proxyToRevokeFn := proxyToRevokeFn[proxy := revokeFn];
      revokeFnWeakRefs := revokeFnWeakRefs + [revokeFn];
    }

    /** `revokeAll()`: calls every revoke function whose WeakRef still
        resolves, in order, then drops the whole list, so a second call
        calls nothing. */
    method RevokeAll(collected: set<JsObject>) returns (fired: seq<RevokeFn>)
      modifies this, Proxies(revokeFnWeakRefs)
      ensures fired == Live(old(revokeFnWeakRefs), collected)
      ensures forall p :: p in Proxies(old(revokeFnWeakRefs)) && p !in collected ==> p.revoked
      ensures revokeFnWeakRefs == [] && proxyToRevokeFn == old(proxyToRevokeFn)
    {
      fired := FireLive(revokeFnWeakRefs, collected);
      revokeFnWeakRefs := [];
    }
  }

  /** The closure state of one `createMembrane(target)` call. */
  class Membrane {
    var maps: seq<map<JsObject, JsObject>>
    var revoked: bool
    const revokeFnCache: RevokeFnCache
    var handlers: map<JsObject, Handler>
    /** The `membrane` field of the frozen object `createMembrane` returns. */
    var membrane: Value

    ghost predicate Valid()
      reads this, revokeFnCache
    {
      Consistent(maps, handlers, revokeFnCache.proxyToRevokeFn, revokeFnCache.revokeFnWeakRefs, revoked)
    }

    /** `createMembrane(target)`: two empty maps, `revoked = false`, an
        empty revoke cache, and the root wrapped with `wet2dry`. */
    constructor Create(target: Value)
      ensures Valid() && !revoked && fresh(revokeFnCache)
      ensures IsPrimitive(target) ==> membrane == target && handlers == map[]
                                      && maps == [map[], map[]] && revokeFnCache.revokeFnWeakRefs == []
      ensures target.Ref? ==>
                membrane.Ref? && fresh(membrane.obj) && membrane.obj.target == target.obj && !membrane.obj.revoked
                && handlers == map[membrane.obj := Handler(target.obj, WetToDry)]
                && maps == [map[target.obj := membrane.obj], map[membrane.obj := target.obj]]
                && revokeFnCache.revokeFnWeakRefs == [RevokeFn(membrane.obj)]
    {
      maps := [map[], map[]];
      revoked := false;
      revokeFnCache := new RevokeFnCache();
      handlers := map[];
      membrane := Undefined;
      new;
      membrane := Wrap(WetToDry, target);
      if target.Ref? {
        assert Cache(maps) == CacheMaps(map[], map[]).Add(target.obj, membrane.obj, Wet);
      }
    }

    /** `wrap(dir, obj)`: a value that differs from `Object(obj)` is
        returned as is, an existing `maps[dir]` entry is returned, and
        otherwise one new revocable proxy is made and recorded. */
    method Wrap(dir: Dir, v: Value) returns (r: Value)
      requires Valid()
      modifies this`maps, this`handlers, revokeFnCache
      ensures Valid()
      ensures Represents(Cache(maps), v, AsDirection(dir), r, {})
      ensures IsPrimitive(v) ==> r == v
      ensures IsPrimitive(v) || v.obj in old(maps[dir]) ==> unchanged(this, revokeFnCache)
      ensures !IsPrimitive(v) && v.obj in old(maps[dir]) ==> r == Ref(old(maps[dir][v.obj]))
      ensures !IsPrimitive(v) && v.obj !in old(maps[dir]) ==>
                r.Ref? && fresh(r.obj) && r.obj.target == v.obj && !r.obj.revoked
                && MadeProxy(old(Cache(maps)), old(handlers), old(revokeFnCache.revokeFnWeakRefs),
                             Cache(maps), handlers, revokeFnCache.revokeFnWeakRefs, v.obj, r.obj, dir)
      ensures Grows(old(Cache(maps)), old(handlers), Cache(maps), handlers)
    {
      var primitive := DiffersFromObjectOf(v);
      if primitive {
        return v;
      }
      if v.obj in maps[dir] {
        return Ref(maps[dir][v.obj]);
      }
      var proxy := NewProxy(v.obj, dir);
      r := Ref(proxy);
    }

    /** The miss path of `wrap`: `Proxy.revocable(obj, handler)`, the two
        map writes and `revokeFnCache.add(revoke, proxy)`. */
    method NewProxy(obj: JsObject, dir: Dir) returns (proxy: JsObject)
      requires Valid() && obj !in maps[dir]
      modifies this`maps, this`handlers, revokeFnCache
      ensures Valid()
      ensures fresh(proxy) && proxy.target == obj && !proxy.revoked
      ensures handlers == old(handlers)[proxy := Handler(obj, dir)]
      ensures Cache(maps) == old(Cache(maps)).Add(obj, proxy, AsDirection(dir))
      ensures revokeFnCache.proxyToRevokeFn == old(revokeFnCache.proxyToRevokeFn)[proxy := RevokeFn(proxy)]
      ensures revokeFnCache.revokeFnWeakRefs == old(revokeFnCache.revokeFnWeakRefs) + [RevokeFn(proxy)]
      ensures maps[dir][obj] == proxy && maps[FlipDir(dir)][proxy] == obj
      ensures Grows(old(Cache(maps)), old(handlers), Cache(maps), handlers)
    {
      proxy := new JsObject.Revocable(obj);
      ghost var before := Cache(maps);
      assert before.Unknown(proxy);
      ghost var maps0, h0, fns0, refs0 := maps, handlers, revokeFnCache.proxyToRevokeFn, revokeFnCache.revokeFnWeakRefs;
      AddExtends(before, obj, proxy, AsDirection(dir), {});
      maps := maps[dir := maps[dir][obj := proxy]];
      maps := maps[FlipDir(dir) := maps[FlipDir(dir)][proxy := obj]];
      revokeFnCache.Add(RevokeFn(proxy), proxy);
      handlers := handlers[proxy := Handler(obj, dir)];
      NewProxyKeepsConsistent(maps0, h0, fns0, refs0, obj, proxy, dir, revoked,
                              maps, handlers, revokeFnCache.proxyToRevokeFn, revokeFnCache.revokeFnWeakRefs);
    }

    /** No double wrapping: `wrap(flip(dir), p)` of a proxy `p` made by
        `wrap(dir, obj)` is the cache hit `maps[flip(dir)][p]`, so it
        returns `obj` and changes nothing. */
    method WrapBack(p: JsObject) returns (r: Value)
      requires Valid() && p in handlers
      modifies this`maps, this`handlers, revokeFnCache
      ensures Valid()
      ensures r == Ref(old(handlers[p].obj))
      ensures unchanged(this, revokeFnCache)
    {
      r := Wrap(FlipDir(handlers[p].dir), Ref(p));
    }

    /** `args.map((x) => wrap(dir, x))`. */
    method WrapAll(dir: Dir, args: seq<Value>) returns (out: seq<Value>)
      requires Valid()
      modifies this`maps, this`handlers, revokeFnCache
      ensures Valid()
      ensures AllRepresent(Cache(maps), args, AsDirection(dir), out, {})
      ensures Grows(old(Cache(maps)), old(handlers), Cache(maps), handlers)
    {
      ghost var s0, h0 := Cache(maps), handlers;
      out := [];
      var i := 0;
      while i < |args|
        invariant 0 <= i <= |args|
        invariant Valid()
        invariant AllRepresent(Cache(maps), args[..i], AsDirection(dir), out, {})
        invariant Grows(s0, h0, Cache(maps), handlers)
      {
        ghost var s1, h1 := Cache(maps), handlers;
        var r := Wrap(dir, args[i]);
        GrowsTransitive(s0, h0, s1, h1, Cache(maps), handlers);
        AllRepresentSnoc(s1, Cache(maps), args, i, AsDirection(dir), out, r, {});
        out := out + [r];
        i := i + 1;
      }
      assert args[..i] == args;
    }

    /** The `try`/`catch` around each trap body: `wrap(dir, <host result>)`,
        or `throw wrap(dir, e)`. */
    method Settle(dir: Dir, raw: Outcome) returns (c: Completion)
      requires Valid()
      modifies this`maps, this`handlers, revokeFnCache
      ensures Valid()
      ensures Settled(Cache(maps), AsDirection(dir), raw, c)
      ensures Grows(old(Cache(maps)), old(handlers), Cache(maps), handlers)
    {
      match raw {
        case Returned(v) =>
          var r := Wrap(dir, v);
          c := Normal(r);
        case Threw(e) =>
          var r := Wrap(dir, e);
          c := Thrown(r);
      }
    }

    /** The check every trap makes first: the engine rejects a revoked
        proxy, then the handler's `get` throws once `revoked` is set. */
    function Refusal(p: JsObject): (c: Option<Completion>)
      reads this, p
      ensures c.Some? <==> p.revoked || revoked
      ensures c == Some(RevokedProxy) <==> p.revoked
    {
      if p.revoked then Some(RevokedProxy) else if revoked then Some(RevokedMembrane) else None
    }

    /** The "apply" trap: `that`, then every argument, wrapped with
        `flip(dir)`; the result or the error wrapped with `dir`. */
    method ApplyTrap(p: JsObject, that: Value, args: seq<Value>, raw: Outcome)
      returns (forwardedThis: Value, forwardedArgs: seq<Value>, c: Completion)
      requires Valid() && p in handlers
      modifies this`maps, this`handlers, revokeFnCache
      ensures Valid()
      ensures old(Refusal(p)).Some? ==> c == old(Refusal(p)).value && unchanged(this, revokeFnCache)
      ensures old(Refusal(p)).None? ==>
                Represents(Cache(maps), that, AsDirection(FlipDir(old(handlers[p]).dir)), forwardedThis, {})
                && AllRepresent(Cache(maps), args, AsDirection(FlipDir(old(handlers[p]).dir)), forwardedArgs, {})
                && Settled(Cache(maps), AsDirection(old(handlers[p]).dir), raw, c)
      ensures Grows(old(Cache(maps)), old(handlers), Cache(maps), handlers)
    {
      var refusal := Refusal(p);
      if refusal.Some? {
        return Undefined, [], refusal.value;
      }
      var dir := handlers[p].dir;
      ghost var s0, h0 := Cache(maps), handlers;
      forwardedThis := Wrap(FlipDir(dir), that);
      ghost var s1, h1 := Cache(maps), handlers;
      forwardedArgs := WrapAll(FlipDir(dir), args);
      ghost var s2, h2 := Cache(maps), handlers;
      c := Settle(dir, raw);
      ExtendsKeepsRepresents(s1, s2, that, AsDirection(FlipDir(dir)), forwardedThis, {});
      GrowsTransitive(s0, h0, s1, h1, s2, h2);
      ForwardedStillRepresent(s2, Cache(maps), that, forwardedThis, args, forwardedArgs,
                              AsDirection(FlipDir(dir)), {});
      GrowsTransitive(s0, h0, s2, h2, Cache(maps), handlers);
    }

    /** The "construct" trap: every argument, then `newTarget`, wrapped
        with `flip(dir)`; the result or the error wrapped with `dir`. */
    method ConstructTrap(p: JsObject, args: seq<Value>, newTarget: Value, raw: Outcome)
      returns (forwardedArgs: seq<Value>, forwardedNewTarget: Value, c: Completion)
      requires Valid() && p in handlers
      modifies this`maps, this`handlers, revokeFnCache
      ensures Valid()
      ensures old(Refusal(p)).Some? ==> c == old(Refusal(p)).value && unchanged(this, revokeFnCache)
      ensures old(Refusal(p)).None? ==>
                AllRepresent(Cache(maps), args, AsDirection(FlipDir(old(handlers[p]).dir)), forwardedArgs, {})
                && Represents(Cache(maps), newTarget, AsDirection(FlipDir(old(handlers[p]).dir)), forwardedNewTarget, {})
                && Settled(Cache(maps), AsDirection(old(handlers[p]).dir), raw, c)
      ensures Grows(old(Cache(maps)), old(handlers), Cache(maps), handlers)
    {
      var refusal := Refusal(p);
      if refusal.Some? {
        return [], Undefined, refusal.value;
      }
      var dir := handlers[p].dir;
      ghost var s0, h0 := Cache(maps), handlers;
      forwardedArgs := WrapAll(FlipDir(dir), args);
      ghost var s1, h1 := Cache(maps), handlers;
      forwardedNewTarget := Wrap(FlipDir(dir), newTarget);
      ghost var s2, h2 := Cache(maps), handlers;
      c := Settle(dir, raw);
      ExtendsKeepsAllRepresent(s1, s2, args, AsDirection(FlipDir(dir)), forwardedArgs, {});
      GrowsTransitive(s0, h0, s1, h1, s2, h2);
      ForwardedStillRepresent(s2, Cache(maps), newTarget, forwardedNewTarget, args, forwardedArgs,
                              AsDirection(FlipDir(dir)), {});
      GrowsTransitive(s0, h0, s2, h2, Cache(maps), handlers);
    }

    /** Every other trap: `wrap(dir, Reflect[key](obj, ...args.map(wrap
        flipped)))`, errors rethrown wrapped with `dir`. */
    method DefaultTrap(p: JsObject, args: seq<Value>, raw: Outcome) returns (forwardedArgs: seq<Value>, c: Completion)
      requires Valid() && p in handlers
      modifies this`maps, this`handlers, revokeFnCache
      ensures Valid()
      ensures old(Refusal(p)).Some? ==> c == old(Refusal(p)).value && unchanged(this, revokeFnCache)
      ensures old(Refusal(p)).None? ==>
                AllRepresent(Cache(maps), args, AsDirection(FlipDir(old(handlers[p]).dir)), forwardedArgs, {})
                && Settled(Cache(maps), AsDirection(old(handlers[p]).dir), raw, c)
      ensures Grows(old(Cache(maps)), old(handlers), Cache(maps), handlers)
    {
      var refusal := Refusal(p);
      if refusal.Some? {
        return [], refusal.value;
      }
      var dir := handlers[p].dir;
      ghost var s0, h0 := Cache(maps), handlers;
      forwardedArgs := WrapAll(FlipDir(dir), args);
      ghost var s1, h1 := Cache(maps), handlers;
      c := Settle(dir, raw);
      ExtendsKeepsAllRepresent(s1, Cache(maps), args, AsDirection(FlipDir(dir)), forwardedArgs, {});
      GrowsTransitive(s0, h0, s1, h1, Cache(maps), handlers);
    }

    /** The membrane's `revoke()`: `revoked = true`, then
        `revokeFnCache.revokeAll()`. */
    method Revoke(collected: set<JsObject>) returns (fired: seq<RevokeFn>)
      requires Valid()
      modifies this`revoked, revokeFnCache, Proxies(revokeFnCache.revokeFnWeakRefs)
      ensures Valid() && revoked
      ensures fired == Live(old(revokeFnCache.revokeFnWeakRefs), collected)
      ensures forall p :: p in Proxies(old(revokeFnCache.revokeFnWeakRefs)) && p !in collected ==> p.revoked
      ensures !old(revoked) ==> forall p :: p in handlers && p !in collected ==> p.revoked
      ensures forall q: JsObject :: Refusal(q).Some?
      ensures revokeFnCache.revokeFnWeakRefs == []
    {
      revoked := true;
      fired := revokeFnCache.RevokeAll(collected);
    }
  }
}
