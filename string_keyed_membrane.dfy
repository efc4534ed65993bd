/** The identity-preserving membrane of solutions/3-preserve-identity.
    Directions are strings and the identity cache finds its map as
    `this[direction + "Map"]`, so only "dry" and "wet" name a map; with any
    other direction `get` finds nothing and the corresponding `set` is
    skipped by `?.`. The maps are WeakMaps with strong values, so a lookup
    with a live key always finds its entry. The root is wrapped in "dry".

    The "apply" trap wraps `this` with `wrapper(thisArg,
    proxyIdentityCache, flippedDirection)`: the cache object lands in the
    direction parameter and converts to the string "[object Object]", the
    third argument is dropped. */
module StringKeyedMembrane {
  import opened Js
  import opened IdentityCache
  import opened RevokeRegistry

  /** What a plain object such as `proxyIdentityCache` converts to when it
      is concatenated with a string. */
  const CacheObjectString: string := "[object Object]"

  /** The property name `direction + "Map"` under which the cache looks for
      the map of a direction. */
  function MapKey(direction: string): (key: string)
    ensures |key| == |direction| + 3 && key[..|direction|] == direction && key[|direction|..] == "Map"
  {
    direction + "Map"
  }

  /** The map `this[direction + "Map"]` finds, as a direction of the cache:
      only "dryMap" and "wetMap" are properties holding a map. */
  function DirectionNamed(direction: string): (r: Option<Direction>)
    ensures r.Some? ==> DirectionName(r.value) == direction
  {
    var key := MapKey(direction);
    if key == "dryMap" then
      assert direction == key[..|direction|];
      Some(Dry)
    else if key == "wetMap" then
      assert direction == key[..|direction|];
      Some(Wet)
    else None
  }

  /** Exactly "dry" and "wet" name a map, and they name the map of the
      direction they spell. */
  lemma {:induction false} DirectionNamedExactly(direction: string)
    ensures DirectionNamed(direction) == Some(Dry) <==> direction == "dry"
    ensures DirectionNamed(direction) == Some(Wet) <==> direction == "wet"
    ensures DirectionNamed(direction).Some? ==> DirectionName(DirectionNamed(direction).value) == direction
  {
    var key := MapKey(direction);
    if key == "dryMap" {
      assert direction == key[..|direction|] == "dry";
    } else if key == "wetMap" {
      assert direction == key[..|direction|] == "wet";
    }
  }

  /** The names the other variants use are read back as their directions. */
  lemma NamesRoundTrip(d: Direction)
    ensures DirectionNamed(DirectionName(d)) == Some(d)
  {
    DirectionNamedExactly(DirectionName(d));
  }

  /** `flipDirection(direction)`: "dry" becomes "wet" and anything else,
      the cache object included, becomes "dry". */
  function FlipDirection(direction: string): (r: string)
    ensures r == "dry" || r == "wet"
    ensures direction == "dry" <==> r == "wet"
  {
    if direction == "dry" then "wet" else "dry"
  }

  /** On "dry" and "wet" flipping is an involution and agrees with `Flip`;
      on the cache object it is not one. */
  lemma FlipDirectionInvolution(direction: string)
    requires direction == "dry" || direction == "wet"
    ensures FlipDirection(FlipDirection(direction)) == direction
    ensures DirectionNamed(FlipDirection(direction)) == Some(Flip(DirectionNamed(direction).value))
  {
    DirectionNamedExactly(direction);
    DirectionNamedExactly(FlipDirection(direction));
  }

  lemma CacheObjectNamesNoMap()
    ensures DirectionNamed(CacheObjectString) == None
    ensures FlipDirection(CacheObjectString) == "dry"
    ensures FlipDirection(FlipDirection(CacheObjectString)) != CacheObjectString
  {
    DirectionNamedExactly(CacheObjectString);
  }

  /** The direction a flipped direction names: always a real one. */
  function Flipped(direction: string): (d: Direction)
    ensures DirectionNamed(FlipDirection(direction)) == Some(d)
    ensures DirectionName(d) == FlipDirection(direction)
  {
    DirectionNamedExactly(FlipDirection(direction));
    if direction == "dry" then Wet else Dry
  }

  /** `get(target, direction)`: `this[direction + "Map"]?.get(target)`. */
  function NamedGet(c: CacheMaps, target: JsObject, direction: string): (r: Option<JsObject>)
    ensures DirectionNamed(direction).None? ==> r.None?
    ensures DirectionNamed(direction).Some? ==> r == c.Get(target, DirectionNamed(direction).value, {})
  {
    match DirectionNamed(direction)
    case None => None
    case Some(d) => if target in c.For(d) then Some(c.For(d)[target]) else None
  }

  /** `this[direction + "Map"]?.set(k, v)`. */
  function SetNamed(c: CacheMaps, direction: string, k: JsObject, v: JsObject): (r: CacheMaps)
    ensures DirectionNamed(direction).None? ==> r == c
    ensures DirectionNamed(direction).Some? ==>
              var d := DirectionNamed(direction).value;
              r.For(d) == c.For(d)[k := v] && r.For(Flip(d)) == c.For(Flip(d))
  {
    match DirectionNamed(direction)
    case None => c
    case Some(Dry) => c.(dryMap := c.dryMap[k := v])
    case Some(Wet) => c.(wetMap := c.wetMap[k := v])
  }

  /** `add(target, wrapper, direction)`: the forward entry, then the
      reverse entry on `flipDirection(direction)`. */
  function AddNamed(c: CacheMaps, target: JsObject, wrapper: JsObject, direction: string): (r: CacheMaps)
    ensures wrapper in r.For(Flipped(direction)) && r.For(Flipped(direction))[wrapper] == target
    ensures DirectionNamed(direction).Some? ==>
              target in r.For(DirectionNamed(direction).value)
              && r.For(DirectionNamed(direction).value)[target] == wrapper
  {
    SetNamed(SetNamed(c, direction, target, wrapper), FlipDirection(direction), wrapper, target)
  }

  /** With a real direction `add` is the identity cache's `add`, so `get`
      then finds the wrapper and, flipped, the target. */
  lemma AddNamedIsAdd(c: CacheMaps, t: JsObject, w: JsObject, direction: string)
    requires direction == "dry" || direction == "wet"
    ensures AddNamed(c, t, w, direction) == c.Add(t, w, DirectionNamed(direction).value)
    ensures NamedGet(AddNamed(c, t, w, direction), t, direction) == Some(w)
    ensures NamedGet(AddNamed(c, t, w, direction), w, FlipDirection(direction)) == Some(t)
  {
    FlipDirectionInvolution(direction);
    AddThenGet(c, t, w, DirectionNamed(direction).value, {});
  }

  /** The cache `createMembrane` leaves behind finds the root's proxy in
      "dry" and the root in "wet", and nothing else. */
  lemma RootFoundBothWays(root: JsObject, w: JsObject, k: JsObject, direction: string)
    requires root != w
    ensures var c := AddNamed(CacheMaps(map[], map[]), root, w, "dry");
            NamedGet(c, root, "dry") == Some(w) && NamedGet(c, w, "wet") == Some(root)
            && (NamedGet(c, k, direction).Some? ==> (k == root && direction == "dry") || (k == w && direction == "wet"))
  {
    AddNamedIsAdd(CacheMaps(map[], map[]), root, w, "dry");
    DirectionNamedExactly(direction);
  }

  /** With the cache object as direction `add` writes only the reverse
      entry, into the dry map. */
  lemma AddWithCacheObject(c: CacheMaps, t: JsObject, w: JsObject)
    ensures AddNamed(c, t, w, CacheObjectString) == c.(dryMap := c.dryMap[w := t])
    ensures NamedGet(AddNamed(c, t, w, CacheObjectString), t, CacheObjectString) == None
  {
    CacheObjectNamesNoMap();
    NamesRoundTrip(Dry);
  }

  /** What `set` on a named map changes for a later `get`. */
  lemma SetNamedGet(c: CacheMaps, direction: string, k: JsObject, v: JsObject, k': JsObject, n: string)
    ensures NamedGet(SetNamed(c, direction, k, v), k', n) ==
            if DirectionNamed(direction).Some? && DirectionNamed(n) == DirectionNamed(direction) && k' == k
            then Some(v) else NamedGet(c, k', n)
  {
  }

  /** What the handler closure of a proxy captured: its target and the
      direction string of the `wrapper` call that made it. */
  datatype Handler = Handler(target: JsObject, direction: string)

  /** Every proxy made so far is found again, as its target, by `get` with
      its flipped direction: the reverse entry `add` wrote. */
  ghost predicate Unwraps(c: CacheMaps, h: map<JsObject, Handler>)
  {
    forall q :: q in h ==> NamedGet(c, q, FlipDirection(h[q].direction)) == Some(h[q].target)
  }

  /** A miss followed by `add` of a new proxy keeps every proxy unwrapping
      and makes the new one unwrap to its target. */
  lemma {:induction false} AddKeepsUnwraps(c: CacheMaps, h: map<JsObject, Handler>, t: JsObject, w: JsObject,
                                           direction: string)
    requires Unwraps(c, h)
    requires NamedGet(c, t, direction).None?
    requires w !in h
    ensures Unwraps(AddNamed(c, t, w, direction), h[w := Handler(t, direction)])
  {
    var c1 := SetNamed(c, direction, t, w);
    var c2 := SetNamed(c1, FlipDirection(direction), w, t);
    var h' := h[w := Handler(t, direction)];
    forall q | q in h'
      ensures NamedGet(c2, q, FlipDirection(h'[q].direction)) == Some(h'[q].target)
    {
      var n := FlipDirection(h'[q].direction);
      SetNamedGet(c1, FlipDirection(direction), w, t, q, n);
      SetNamedGet(c, direction, t, w, q, n);
      if q != w {
        assert NamedGet(c, q, n) == Some(h[q].target);
      } else {
        assert DirectionNamed(FlipDirection(direction)).Some? by {
          DirectionNamedExactly(FlipDirection(direction));
        }
      }
    }
  }

  /** The membrane's invariant: every proxy forwards to its handler's
      target, its revoke function is registered exactly once, and it
      unwraps to its target. */
  ghost predicate Consistent(c: CacheMaps, h: map<JsObject, Handler>,
                             revokeFns: map<JsObject, RevokeFn>, refs: seq<RevokeFn>)
  {
    Registered(revokeFns, refs) &&
    revokeFns.Keys == h.Keys &&
    (forall p :: p in h ==> p.target == h[p].target) &&
    Unwraps(c, h)
  }

  lemma NewProxyKeepsConsistent(c: CacheMaps, h: map<JsObject, Handler>,
                                revokeFns: map<JsObject, RevokeFn>, refs: seq<RevokeFn>,
                                t: JsObject, w: JsObject, direction: string)
    requires Consistent(c, h, revokeFns, refs)
    requires NamedGet(c, t, direction).None?
    requires w !in h && w.target == t
    ensures Consistent(AddNamed(c, t, w, direction), h[w := Handler(t, direction)],
                       revokeFns[w := RevokeFn(w)], refs + [RevokeFn(w)])
  {
    RegisterKeepsRegistered(revokeFns, refs, w);
    AddKeepsUnwraps(c, h, t, w, direction);
  }

  /** A miss followed by `add` of a new proxy keeps every lookup that hit. */
  lemma AddNamedExtends(c: CacheMaps, t: JsObject, w: JsObject, direction: string)
    requires NamedGet(c, t, direction).None?
    requires c.Unknown(w)
    ensures Extends(c, AddNamed(c, t, w, direction), {})
  {
    if direction == "dry" || direction == "wet" {
      AddNamedIsAdd(c, t, w, direction);
      AddExtends(c, t, w, DirectionNamed(direction).value, {});
    } else {
      DirectionNamedExactly(direction);
      AddWithCacheObject(c, t, w);
      assert DirectionNamed(direction).None?;
      assert AddNamed(c, t, w, direction) == c.(dryMap := c.dryMap[w := t]) by {
        CacheObjectNamesNoMap();
      }
    }
  }

  /** The state change of one miss of `wrapper(t, direction)` that made
      proxy `w`. */
  ghost predicate MadeProxy(c: CacheMaps, h: map<JsObject, Handler>, refs: seq<RevokeFn>,
                            c': CacheMaps, h': map<JsObject, Handler>, refs': seq<RevokeFn>,
                            t: JsObject, w: JsObject, direction: string)
  {
    h' == h[w := Handler(t, direction)] && c' == AddNamed(c, t, w, direction) && refs' == refs + [RevokeFn(w)]
  }

  /** What a call of `wrapper` keeps: every hit stays a hit on the same
      proxy, and every proxy keeps its handler. */
  ghost predicate Grows(c: CacheMaps, h: map<JsObject, Handler>, c': CacheMaps, h': map<JsObject, Handler>)
  {
    Extends(c, c', {}) && (forall q :: q in h ==> q in h' && h'[q] == h[q])
  }

  lemma GrowsTransitive(c1: CacheMaps, h1: map<JsObject, Handler>, c2: CacheMaps, h2: map<JsObject, Handler>,
                        c3: CacheMaps, h3: map<JsObject, Handler>)
    requires Grows(c1, h1, c2, h2) && Grows(c2, h2, c3, h3)
    ensures Grows(c1, h1, c3, h3)
  {
    ExtendsTransitive(c1, c2, c3, {});
  }

  /** `r` is what `wrapper(v, direction)` hands out with cache `c`: the
      primitive itself, or the object `get(v, direction)` finds; with a
      direction that names no map, some object. */
  ghost predicate RepresentsNamed(c: CacheMaps, v: Value, direction: string, r: Value)
  {
    match DirectionNamed(direction)
    case Some(d) => Represents(c, v, d, r, {})
    case None => if IsPrimitive(v) then r == v else r.Ref?
  }

  /** `c` is how a trap completes when the host operation ended with `raw`:
      the result wrapped in `direction`, or the host's error unchanged. */
  ghost predicate Settled(c: CacheMaps, direction: string, raw: Outcome, comp: Completion)
  {
    match raw
    case Returned(v) => comp.Normal? && RepresentsNamed(c, v, direction, comp.value)
    case Threw(e) => comp == Thrown(e)
  }

  class ProxyIdentityCache {
    var dryMap: map<JsObject, JsObject>
    var wetMap: map<JsObject, JsObject>

    function State(): CacheMaps
      reads this
    {
      CacheMaps(dryMap, wetMap)
    }

    constructor ()
      ensures dryMap == map[] && wetMap == map[]
    {
      dryMap := map[];
      wetMap := map[];
    }

    /** `get(target, direction)`. */
    function Get(target: JsObject, direction: string): (r: Option<JsObject>)
      reads this
      ensures r == NamedGet(State(), target, direction)
      ensures r.Some? ==> direction == "dry" || direction == "wet"
    {
      DirectionNamedExactly(direction);
      if MapKey(direction) == "dryMap" then (if target in dryMap then Some(dryMap[target]) else None)
      else if MapKey(direction) == "wetMap" then (if target in wetMap then Some(wetMap[target]) else None)
      else None
    }

    /** `add(target, wrapper, direction)`. */
    method Add(target: JsObject, wrapper: JsObject, direction: string)
      modifies this
      ensures State() == AddNamed(old(State()), target, wrapper, direction)
    {
      if MapKey(direction) == "dryMap" {
        dryMap := dryMap[target := wrapper];
      } else if MapKey(direction) == "wetMap" {
        wetMap := wetMap[target := wrapper];
      }
      var flipped := FlipDirection(direction);
      if MapKey(flipped) == "dryMap" {
        dryMap := dryMap[wrapper := target];
      } else if MapKey(flipped) == "wetMap" {
        wetMap := wetMap[wrapper := target];
      }
    }
  }

  /** The closure state of one `createMembrane(target)` call. */
  class Membrane {
    const identity: ProxyIdentityCache
    const revokes: RevokeFnsCache
    var handlers: map<JsObject, Handler>
    /** The `target` field of the object `createMembrane` returns. */
    var target: Value

    ghost predicate Valid()
      reads this, identity, revokes
    {
      Consistent(identity.State(), handlers, revokes.proxyToRevokeFn, revokes.revokeFnWeakRefs)
    }

    /** `createMembrane(target)`: fresh caches and the root wrapped in
        "dry"; the `direction` argument of `createRevocableProxy` is never
        read. */
    constructor Create(root: Value)
      ensures Valid() && fresh(identity) && fresh(revokes)
      ensures IsPrimitive(root) ==> target == root && handlers == map[]
                                    && identity.State() == CacheMaps(map[], map[]) && revokes.revokeFnWeakRefs == []
      ensures root.Ref? ==>
                target.Ref? && fresh(target.obj) && target.obj.target == root.obj && !target.obj.revoked
                && handlers == map[target.obj := Handler(root.obj, "dry")]
                && revokes.revokeFnWeakRefs == [RevokeFn(target.obj)]
                && identity.State() == AddNamed(CacheMaps(map[], map[]), root.obj, target.obj, "dry")
    {
      identity := new ProxyIdentityCache();
      revokes := new RevokeFnsCache();
      handlers := map[];
      target := Undefined;
      new;
      target := Wrapper(root, "dry");
    }

    /** `wrapper(target, direction)`: a primitive passes unchanged, a hit
        returns the cached proxy and changes nothing, and a miss makes one
        new revocable proxy. */
    method Wrapper(v: Value, direction: string) returns (r: Value)
      requires Valid()
      modifies this`handlers, identity, revokes
      ensures Valid()
      ensures RepresentsNamed(identity.State(), v, direction, r)
      ensures IsPrimitive(v) ==> r == v
      ensures IsPrimitive(v) || old(identity.Get(v.obj, direction)).Some? ==> unchanged(this, identity, revokes)
      ensures !IsPrimitive(v) && old(identity.Get(v.obj, direction)).Some? ==>
                r == Ref(old(identity.Get(v.obj, direction)).value)
      ensures !IsPrimitive(v) && old(identity.Get(v.obj, direction)).None? ==>
                r.Ref? && fresh(r.obj) && r.obj.target == v.obj && !r.obj.revoked
                && MadeProxy(old(identity.State()), old(handlers), old(revokes.revokeFnWeakRefs),
                             identity.State(), handlers, revokes.revokeFnWeakRefs, v.obj, r.obj, direction)
      ensures Grows(old(identity.State()), old(handlers), identity.State(), handlers)
    {
      if IsPrimitive(v) {
        return v;
      }
      var cached := identity.Get(v.obj, direction);
      if cached.Some? {
        return Ref(cached.value);
      }
      var proxy := NewProxy(v.obj, direction);
      r := Ref(proxy);
      if direction == "dry" || direction == "wet" {
        AddNamedIsAdd(old(identity.State()), v.obj, proxy, direction);
      }
    }

    /** The miss path of `wrapper`: `Proxy.revocable`, `add` on the
        identity cache and `add` on the revoke cache. */
    method NewProxy(t: JsObject, direction: string) returns (proxy: JsObject)
      requires Valid()
      requires identity.Get(t, direction).None?
      modifies this`handlers, identity, revokes
      ensures Valid()
      ensures fresh(proxy) && proxy.target == t && !proxy.revoked
      ensures handlers == old(handlers)[proxy := Handler(t, direction)]
      ensures identity.State() == AddNamed(old(identity.State()), t, proxy, direction)
      ensures revokes.proxyToRevokeFn == old(revokes.proxyToRevokeFn)[proxy := RevokeFn(proxy)]
      ensures revokes.revokeFnWeakRefs == old(revokes.revokeFnWeakRefs) + [RevokeFn(proxy)]
      ensures Grows(old(identity.State()), old(handlers), identity.State(), handlers)
    {
      proxy := new JsObject.Revocable(t);
      ghost var before := identity.State();
      assert before.Unknown(proxy);
      assert proxy !in handlers && proxy !in revokes.proxyToRevokeFn;
      NewProxyKeepsConsistent(before, handlers, revokes.proxyToRevokeFn, revokes.revokeFnWeakRefs, t, proxy, direction);
      AddNamedExtends(before, t, proxy, direction);
      identity.Add(t, proxy, direction);
      revokes.Add(proxy, RevokeFn(proxy));
      handlers := handlers[proxy := Handler(t, direction)];
    }

    /** `argArray.map((arg) => wrapper(arg, flippedDirection))`; the
        flipped direction is always "dry" or "wet", here `d`. */
    method WrapAll(args: seq<Value>, d: Direction) returns (out: seq<Value>)
      requires Valid()
      modifies this`handlers, identity, revokes
      ensures Valid()
      ensures AllRepresent(identity.State(), args, d, out, {})
      ensures Grows(old(identity.State()), old(handlers), identity.State(), handlers)
    {
      NamesRoundTrip(d);
      ghost var s0, h0 := identity.State(), handlers;
      out := [];
      var i := 0;
      while i < |args|
        invariant 0 <= i <= |args|
        invariant Valid()
        invariant AllRepresent(identity.State(), args[..i], d, out, {})
        invariant Grows(s0, h0, identity.State(), handlers)
      {
        ghost var s1, h1 := identity.State(), handlers;
        var r := Wrapper(args[i], DirectionName(d));
        GrowsTransitive(s0, h0, s1, h1, identity.State(), handlers);
        AllRepresentSnoc(s1, identity.State(), args, i, d, out, r, {});
        out := out + [r];
        i := i + 1;
      }
      assert args[..i] == args;
    }

    /** `wrapper(<host result>, direction)`; a host error propagates. */
    method Settle(direction: string, raw: Outcome) returns (c: Completion)
      requires Valid()
      modifies this`handlers, identity, revokes
      ensures Valid()
      ensures Settled(identity.State(), direction, raw, c)
      ensures Grows(old(identity.State()), old(handlers), identity.State(), handlers)
    {
      match raw {
        case Returned(v) =>
          var r := Wrapper(v, direction);
          c := Normal(r);
        case Threw(e) =>
          c := Thrown(e);
      }
    }

    /** The "get" trap: `wrapper(Reflect.get(target, name), direction)`. */
    method GetTrap(p: JsObject, raw: Outcome) returns (c: Completion)
      requires Valid() && p in handlers
      modifies this`handlers, identity, revokes
      ensures Valid()
      ensures old(p.revoked) ==> c == RevokedProxy && unchanged(this, identity, revokes)
      ensures !old(p.revoked) ==> Settled(identity.State(), old(handlers[p]).direction, raw, c)
      ensures Grows(old(identity.State()), old(handlers), identity.State(), handlers)
    {
      if p.revoked {
        return RevokedProxy;
      }
      var direction := handlers[p].direction;
      c := Settle(direction, raw);
    }

    /** The "apply" trap as written: `this` is wrapped with the cache
        object as its direction, so the lookup always misses and `this`
        always reaches the target as a new proxy of itself, even when it
        is a proxy of this membrane that stands for an object of the
        target's side; the arguments are wrapped in the flipped direction
        and the result in the proxy's direction. */
    method ApplyTrap(p: JsObject, thisArg: Value, args: seq<Value>, raw: Outcome)
      returns (forwardedThis: Value, forwardedArgs: seq<Value>, c: Completion)
      requires Valid() && p in handlers
      modifies this`handlers, identity, revokes
      ensures Valid()
      ensures old(p.revoked) ==> c == RevokedProxy && unchanged(this, identity, revokes)
      ensures !old(p.revoked) && IsPrimitive(thisArg) ==> forwardedThis == thisArg
      ensures !old(p.revoked) && !IsPrimitive(thisArg) ==>
                forwardedThis.Ref? && fresh(forwardedThis.obj) && forwardedThis.obj.target == thisArg.obj
      ensures !old(p.revoked) && thisArg.Ref? && thisArg.obj in old(handlers) ==>
                forwardedThis != Ref(old(handlers[thisArg.obj]).target)
      ensures !old(p.revoked) ==>
                AllRepresent(identity.State(), args, Flipped(old(handlers[p]).direction), forwardedArgs, {})
                && Settled(identity.State(), old(handlers[p]).direction, raw, c)
      ensures Grows(old(identity.State()), old(handlers), identity.State(), handlers)
    {
      if p.revoked {
        return Undefined, [], RevokedProxy;
      }
      var direction := handlers[p].direction;
      ghost var s0, h0 := identity.State(), handlers;
      CacheObjectNamesNoMap();
      forwardedThis := Wrapper(thisArg, CacheObjectString);
      ghost var s1, h1 := identity.State(), handlers;
      forwardedArgs := WrapAll(args, Flipped(direction));
      ghost var s2, h2 := identity.State(), handlers;
      c := Settle(direction, raw);
      ExtendsKeepsAllRepresent(s2, identity.State(), args, Flipped(direction), forwardedArgs, {});
      GrowsTransitive(s0, h0, s1, h1, s2, h2);
      GrowsTransitive(s0, h0, s2, h2, identity.State(), handlers);
    }

    /** The "apply" trap as evidently intended, `wrapper(thisArg,
        flippedDirection)`: a proxy of this membrane passed as `this` by
        the side it was handed to reaches the target as the object it
        stands for. */
    method ApplyTrapIntended(p: JsObject, thisArg: Value, args: seq<Value>, raw: Outcome)
      returns (forwardedThis: Value, forwardedArgs: seq<Value>, c: Completion)
      requires Valid() && p in handlers
      modifies this`handlers, identity, revokes
      ensures Valid()
      ensures old(p.revoked) ==> c == RevokedProxy && unchanged(this, identity, revokes)
      ensures !old(p.revoked) && thisArg.Ref? && thisArg.obj in old(handlers)
              && old(handlers[thisArg.obj]).direction == old(handlers[p]).direction ==>
                forwardedThis == Ref(old(handlers[thisArg.obj]).target)
      ensures !old(p.revoked) ==>
                Represents(identity.State(), thisArg, Flipped(old(handlers[p]).direction), forwardedThis, {})
                && AllRepresent(identity.State(), args, Flipped(old(handlers[p]).direction), forwardedArgs, {})
                && Settled(identity.State(), old(handlers[p]).direction, raw, c)
      ensures Grows(old(identity.State()), old(handlers), identity.State(), handlers)
    {
      if p.revoked {
        return Undefined, [], RevokedProxy;
      }
      var direction := handlers[p].direction;
      ghost var s0, h0 := identity.State(), handlers;
      forwardedThis := Wrapper(thisArg, FlipDirection(direction));
      ghost var s1, h1 := identity.State(), handlers;
      forwardedArgs := WrapAll(args, Flipped(direction));
      ghost var s2, h2 := identity.State(), handlers;
      c := Settle(direction, raw);
      ForwardedStillRepresent(s1, identity.State(), thisArg, forwardedThis, [], [], Flipped(direction), {});
      ExtendsKeepsAllRepresent(s2, identity.State(), args, Flipped(direction), forwardedArgs, {});
      GrowsTransitive(s0, h0, s1, h1, s2, h2);
      GrowsTransitive(s0, h0, s2, h2, identity.State(), handlers);
    }

    /** The membrane's `revoke()`: `revokeFnsCache.revokeAll()`. */
    method Revoke(collected: set<JsObject>) returns (fired: seq<RevokeFn>)
      modifies Proxies(revokes.revokeFnWeakRefs)
      ensures fired == Live(revokes.revokeFnWeakRefs, collected)
      ensures forall p :: p in Proxies(revokes.revokeFnWeakRefs) && p !in collected ==> p.revoked
    {
      fired := revokes.RevokeAll(collected);
    }
  }
}
