/** The identity-preserving membrane of solutions/8-preserve-identity and
    solutions/7-preserve-identity, which share `createMembrane`, `wrapper`,
    `RevokeFnsCache` and `ProxyIdentityCache` line for line and differ only
    in the handler each proxy gets (modules MetaHandler8 and Handler7).
    `wrapper(target, direction)` passes primitives through, returns the
    cached proxy on a hit, and otherwise makes one revocable proxy, adds it
    to the identity cache in both directions and registers its revoke
    function. `revoke()` is `revokeFnsCache.revokeAll()`. */
module PreserveIdentity {
  import opened Js
  import opened IdentityCache
  import opened RevokeRegistry

  /** What the handler closure of a proxy captured: the target it forwards
      to and the direction of `wrapper` that created it. */
  datatype Handler = Handler(target: JsObject, direction: Direction)

  /** `k -> v` on direction `e` is the forward entry of the proxy `v` made
      for `k` in direction `e`, or the reverse entry of the proxy `k` made
      for `v` in the flipped direction. */
  ghost predicate Linked(h: map<JsObject, Handler>, k: JsObject, v: JsObject, e: Direction)
  {
    (v in h && h[v] == Handler(k, e)) || (k in h && h[k] == Handler(v, Flip(e)))
  }

  /** Every identity cache entry joins a proxy with the target it was made
      for. */
  ghost predicate CacheLinked(m: CacheMaps, h: map<JsObject, Handler>)
  {
    forall e: Direction, k: JsObject :: k in m.For(e) ==> Linked(h, k, m.For(e)[k], e)
  }

  /** Recording a new proxy's handler together with its two cache entries
      keeps every entry linked. */
  lemma AddKeepsLinked(m: CacheMaps, h: map<JsObject, Handler>, t: JsObject, w: JsObject, d: Direction)
    requires CacheLinked(m, h)
    requires w !in h
    ensures CacheLinked(m.Add(t, w, d), h[w := Handler(t, d)])
  {
    var m', h' := m.Add(t, w, d), h[w := Handler(t, d)];
    assert m'.For(d) == m.For(d)[t := w];
    assert m'.For(Flip(d)) == m.For(Flip(d))[w := t];
    forall e: Direction, k: JsObject | k in m'.For(e)
      ensures Linked(h', k, m'.For(e)[k], e)
    {
      FlipInvolution(d);
      if e == d && k == t {
        assert m'.For(e)[k] == w;
      } else if e == Flip(d) && k == w {
        assert m'.For(e)[k] == t;
      } else {
        assert k in m.For(e) && m'.For(e)[k] == m.For(e)[k];
        assert Linked(h, k, m.For(e)[k], e);
      }
    }
  }

  /** The membrane's invariant over its caches and handlers: every proxy
      made so far forwards to its handler's target, its revoke function is
      registered exactly once, and every identity cache entry joins a proxy
      with the target it was made for. */
  ghost predicate Consistent(m: CacheMaps, h: map<JsObject, Handler>,
                             revokeFns: map<JsObject, RevokeFn>, refs: seq<RevokeFn>)
  {
    Registered(revokeFns, refs) &&
    revokeFns.Keys == h.Keys &&
    (forall p :: p in h ==> p.target == h[p].target) &&
    CacheLinked(m, h)
  }

  /** A cache miss that makes proxy `w` for `t` keeps the invariant. */
  lemma NewProxyKeepsConsistent(m: CacheMaps, h: map<JsObject, Handler>,
                                revokeFns: map<JsObject, RevokeFn>, refs: seq<RevokeFn>,
                                t: JsObject, w: JsObject, d: Direction)
    requires Consistent(m, h, revokeFns, refs)
    requires w !in h && w.target == t
    ensures Consistent(m.Add(t, w, d), h[w := Handler(t, d)],
                       revokeFns[w := RevokeFn(w)], refs + [RevokeFn(w)])
  {
    RegisterKeepsRegistered(revokeFns, refs, w);
    AddKeepsLinked(m, h, t, w, d);
  }

  /** Every proxy in `live` unwraps: the identity cache maps it, on the
      direction opposite to the one it was made in, back to the target it
      was made for. This is what rules out double wrapping. */
  ghost predicate Unwraps(m: CacheMaps, h: map<JsObject, Handler>, live: set<JsObject>)
  {
    forall p :: p in h && p in live ==>
      p in m.For(Flip(h[p].direction)) && m.For(Flip(h[p].direction))[p] == h[p].target
  }

  /** What the collector cannot reclaim: a proxy that is alive and not
      revoked (in `live`) holds its target strongly, so the target is alive
      too. */
  ghost predicate HoldsTargets(h: map<JsObject, Handler>, live: set<JsObject>, collected: set<JsObject>)
  {
    forall p :: p in h && p in live && p !in collected ==> h[p].target !in collected
  }

  /** A miss of `wrapper(t, d)` that makes the new proxy `w` keeps every
      live proxy unwrapping, `w` included: the only entry the miss could
      overwrite is the reverse entry of a proxy whose target is collected,
      which a live proxy does not allow. */
  lemma NewProxyKeepsUnwraps(m: CacheMaps, h: map<JsObject, Handler>, live: set<JsObject>,
                             t: JsObject, w: JsObject, d: Direction, collected: set<JsObject>)
    requires Unwraps(m, h, live) && HoldsTargets(h, live, collected)
    requires m.Get(t, d, collected).None? && t !in collected
    requires w !in h
    ensures Unwraps(m.Add(t, w, d), h[w := Handler(t, d)], live + {w})
    ensures HoldsTargets(h[w := Handler(t, d)], live + {w}, collected)
  {
    var m', h' := m.Add(t, w, d), h[w := Handler(t, d)];
    assert m'.For(d) == m.For(d)[t := w];
    assert m'.For(Flip(d)) == m.For(Flip(d))[w := t];
    forall p | p in h' && p in live + {w}
      ensures p in m'.For(Flip(h'[p].direction)) && m'.For(Flip(h'[p].direction))[p] == h'[p].target
    {
      // the miss could only overwrite the reverse entry of a proxy t
      // made in the other direction, if t's target were collected
      if p != w {
        assert p in m.For(Flip(h[p].direction));
      }
    }
  }

  /** No double wrapping: wrapping a live, unrevoked proxy in the
      direction opposite to the one it was made in finds its target. */
  lemma UnwrapsRoundTrip(m: CacheMaps, h: map<JsObject, Handler>, live: set<JsObject>, p: JsObject,
                         collected: set<JsObject>)
    requires Unwraps(m, h, live) && HoldsTargets(h, live, collected)
    requires p in h && p in live && p !in collected
    ensures m.Get(p, Flip(h[p].direction), collected) == Some(h[p].target)
  {
  }

  /** Proxies keep their handlers: `after` only adds new ones. */
  ghost predicate KeepsHandlers(before: map<JsObject, Handler>, after: map<JsObject, Handler>)
  {
    forall q :: q in before ==> q in after && after[q] == before[q]
  }

  /** The state change of one cache miss that made proxy `w` for `t` in
      direction `d`: its handler is recorded, the identity cache gains the
      entries `t -> w` on `d` and `w -> t` on the flipped direction, and
      one revoke function is registered for it. */
  ghost predicate MadeProxy(s: CacheMaps, h: map<JsObject, Handler>, refs: seq<RevokeFn>,
                            s': CacheMaps, h': map<JsObject, Handler>, refs': seq<RevokeFn>,
                            t: JsObject, w: JsObject, d: Direction)
  {
    h' == h[w := Handler(t, d)] && s' == s.Add(t, w, d) && refs' == refs + [RevokeFn(w)]
  }

  /** What a call of `wrapper` keeps, from cache `s` and handlers `h` to
      `s'` and `h'`: every lookup that hit still hits the same proxy, every
      proxy keeps its handler, and a paired cache without dead entries
      stays so. */
  ghost predicate Grows(s: CacheMaps, h: map<JsObject, Handler>, s': CacheMaps, h': map<JsObject, Handler>,
                        collected: set<JsObject>)
  {
    Extends(s, s', collected) && KeepsHandlers(h, h') &&
    (s.Paired() && s.NoDeadEntries(collected) ==> s'.Paired() && s'.NoDeadEntries(collected))
  }

  lemma GrowsTransitive(s1: CacheMaps, h1: map<JsObject, Handler>, s2: CacheMaps, h2: map<JsObject, Handler>,
                        s3: CacheMaps, h3: map<JsObject, Handler>, collected: set<JsObject>)
    requires Grows(s1, h1, s2, h2, collected) && Grows(s2, h2, s3, h3, collected)
    ensures Grows(s1, h1, s3, h3, collected)
  {
    ExtendsTransitive(s1, s2, s3, collected);
  }

  /** The state `createMembrane` sets up: the two caches, shared by every
      proxy the membrane makes, and the handler of each proxy. */
  class Membrane {
    const identity: ProxyIdentityCache
    const revokes: RevokeFnsCache
    var handlers: map<JsObject, Handler>
    /** The `membrane` field of the object `createMembrane` returns. */
    var membrane: Value
    /** The proxies made so far that `revoke()` has not revoked: every other
        proxy made is revoked. */
    ghost var unrevoked: set<JsObject>

    /** Every proxy made so far: it forwards to its handler's target, its
        revoke function is registered exactly once, and every identity
        cache entry joins a proxy with the target it was made for; every
        proxy not yet revoked unwraps to its target. */
    ghost predicate Valid()
      reads this, identity, revokes, handlers.Keys
    {
      Consistent(identity.State(), handlers, revokes.proxyToRevokeFn, revokes.revokeFnWeakRefs)
      && Unwraps(identity.State(), handlers, unrevoked)
      && (forall p :: p in handlers && p !in unrevoked ==> p.revoked)
    }

    /** The collector has not reclaimed the target of a proxy that is alive
        and not revoked: such a proxy holds its target strongly. */
    ghost predicate TargetsHeld(collected: set<JsObject>)
      reads this
    {
      HoldsTargets(handlers, unrevoked, collected)
    }

    /** `r` is what `wrapper(v, d)` hands out now. */
    ghost predicate Represents(v: Value, d: Direction, r: Value, collected: set<JsObject>)
      reads this, identity
    {
      IdentityCache.Represents(identity.State(), v, d, r, collected)
    }

    /** No double wrapping: a proxy of this membrane that is alive and not
        revoked, handed to `wrapper` in the direction opposite to the one it
        was made in, is a cache hit on the target it was made for, so
        `wrapper` returns that target (Wrapper's hit case) instead of
        wrapping the proxy again. */
    lemma UnwrapsToTarget(p: JsObject, collected: set<JsObject>)
      requires Valid() && TargetsHeld(collected)
      requires p in handlers && !p.revoked && p !in collected
      ensures identity.Get(p, Flip(handlers[p].direction), collected) == Some(handlers[p].target)
    {
      UnwrapsRoundTrip(identity.State(), handlers, unrevoked, p, collected);
    }

    /** `createMembrane(target)`: fresh, empty caches and the root wrapped
        in direction "wet". */
    constructor Create(target: Value, collected: set<JsObject>)
      requires Alive(target, collected)
      ensures Valid()
      ensures fresh(identity) && fresh(revokes)
      ensures TargetsHeld(collected)
      ensures IsPrimitive(target) ==> membrane == target && handlers == map[]
                                      && identity.State() == CacheMaps(map[], map[])
                                      && revokes.revokeFnWeakRefs == []
      ensures target.Ref? ==>
                membrane.Ref? && fresh(membrane.obj) && membrane.obj.target == target.obj
                && !membrane.obj.revoked
                && handlers == map[membrane.obj := Handler(target.obj, Wet)]
                && revokes.revokeFnWeakRefs == [RevokeFn(membrane.obj)]
                && identity.Get(target.obj, Wet, collected) == Some(membrane.obj)
                && identity.Get(membrane.obj, Dry, collected) == Some(target.obj)
    {
      identity := new ProxyIdentityCache();
      revokes := new RevokeFnsCache();
      handlers := map[];
      unrevoked := {};
      membrane := Undefined;
      new;
      membrane := Wrapper(target, Wet, collected);
    }

    /** `wrapper(target, direction)`: a primitive passes unchanged, a cache
        hit returns the cached proxy and changes nothing, and a miss makes
        one new revocable proxy (see NewProxy). */
    method Wrapper(v: Value, d: Direction, collected: set<JsObject>) returns (r: Value)
      requires Valid() && TargetsHeld(collected)
      requires Alive(v, collected)
      modifies this`handlers, this`unrevoked, identity, revokes
      ensures Valid() && TargetsHeld(collected)
      ensures Alive(r, collected)
      ensures Represents(v, d, r, collected)
      ensures IsPrimitive(v) ==> r == v
      ensures IsPrimitive(v) || old(identity.Get(v.obj, d, collected)).Some? ==>
                unchanged(this, identity, revokes)
      ensures !IsPrimitive(v) && old(identity.Get(v.obj, d, collected)).Some? ==>
                r == Ref(old(identity.Get(v.obj, d, collected)).value)
      ensures !IsPrimitive(v) && old(identity.Get(v.obj, d, collected)).None? ==>
                r.Ref? && fresh(r.obj) && r.obj.target == v.obj && !r.obj.revoked
                && MadeProxy(old(identity.State()), old(handlers), old(revokes.revokeFnWeakRefs),
                             identity.State(), handlers, revokes.revokeFnWeakRefs, v.obj, r.obj, d)
      ensures Grows(old(identity.State()), old(handlers), identity.State(), handlers, collected)
    {
      if IsPrimitive(v) {
        return v;
      }
      var cached := identity.Get(v.obj, d, collected);
      if cached.Some? {
        return Ref(cached.value);
      }
      var proxy := NewProxy(v.obj, d, collected);
      r := Ref(proxy);
    }

    /** The miss path of `wrapper`: `Proxy.revocable(target, handler)`,
        `proxyIdentityCache.add(target, proxy, direction)` and
        `revokeFnsCache.add(proxy, revoke)`. */
    method NewProxy(t: JsObject, d: Direction, collected: set<JsObject>) returns (proxy: JsObject)
      requires Valid() && TargetsHeld(collected)
      requires t !in collected
      requires identity.Get(t, d, collected).None?
      modifies this`handlers, this`unrevoked, identity, revokes
      ensures Valid() && TargetsHeld(collected)
      ensures proxy !in collected
      ensures fresh(proxy) && proxy.target == t && !proxy.revoked
      ensures handlers == old(handlers)[proxy := Handler(t, d)] && unrevoked == old(unrevoked) + {proxy}
      ensures identity.State() == old(identity.State()).Add(t, proxy, d)
      ensures revokes.proxyToRevokeFn == old(revokes.proxyToRevokeFn)[proxy := RevokeFn(proxy)]
      ensures revokes.revokeFnWeakRefs == old(revokes.revokeFnWeakRefs) + [RevokeFn(proxy)]
      ensures identity.Get(t, d, collected) == Some(proxy)
      ensures identity.Get(proxy, Flip(d), collected) == Some(t)
      ensures Extends(old(identity.State()), identity.State(), collected)
      ensures old(identity.State().Paired() && identity.State().NoDeadEntries(collected)) ==>
                identity.State().Paired() && identity.State().NoDeadEntries(collected)
    {
      proxy := new JsObject.Revocable(t);
      ghost var before := identity.State();
      assert before.Unknown(proxy);
      assert proxy !in handlers && proxy !in revokes.proxyToRevokeFn;
      NewProxyKeepsConsistent(before, handlers, revokes.proxyToRevokeFn, revokes.revokeFnWeakRefs, t, proxy, d);
      NewProxyKeepsUnwraps(before, handlers, unrevoked, t, proxy, d, collected);
      MissThenAdd(before, t, proxy, d, collected);
      handlers := handlers[proxy := Handler(t, d)];
      unrevoked := unrevoked + {proxy};
      identity.Add(t, proxy, d);
      revokes.Add(proxy, RevokeFn(proxy));
    }

    /** `argArray.map((arg) => wrapper(arg, d))`: each argument is wrapped
        in turn, and every result is what the cache holds afterwards. */
    method WrapAll(args: seq<Value>, d: Direction, collected: set<JsObject>) returns (out: seq<Value>)
      requires Valid() && TargetsHeld(collected)
      requires forall i :: 0 <= i < |args| ==> Alive(args[i], collected)
      modifies this`handlers, this`unrevoked, identity, revokes
      ensures Valid() && TargetsHeld(collected)
      ensures AllRepresent(identity.State(), args, d, out, collected)
      ensures Grows(old(identity.State()), old(handlers), identity.State(), handlers, collected)
    {
      ghost var s0, h0 := identity.State(), handlers;
      out := [];
      var i := 0;
      while i < |args|
        invariant 0 <= i <= |args|
        invariant Valid() && TargetsHeld(collected)
        invariant AllRepresent(identity.State(), args[..i], d, out, collected)
        invariant Grows(s0, h0, identity.State(), handlers, collected)
      {
        ghost var s1, h1 := identity.State(), handlers;
        var r := Wrapper(args[i], d, collected);
        GrowsTransitive(s0, h0, s1, h1, identity.State(), handlers, collected);
        AllRepresentSnoc(s1, identity.State(), args, i, d, out, r, collected);
        out := out + [r];
        i := i + 1;
      }
      assert args[..i] == args;
    }

    /** Handing a live, unrevoked proxy back across the membrane:
        `wrapper(p, flip(direction))` returns the target `p` was made for
        and changes nothing. */
    method WrapBack(p: JsObject, collected: set<JsObject>) returns (r: Value)
      requires Valid() && TargetsHeld(collected)
      requires p in handlers && !p.revoked && p !in collected
      modifies this`handlers, this`unrevoked, identity, revokes
      ensures r == Ref(old(handlers[p]).target)
      ensures unchanged(this, identity, revokes)
    {
      UnwrapsToTarget(p, collected);
      r := Wrapper(Ref(p), Flip(handlers[p].direction), collected);
    }

    /** The forwarding part of the "apply" trap: `wrapper(thisArg, d)`,
        then `argArray.map((arg) => wrapper(arg, d))`. */
    method WrapCall(thisArg: Value, args: seq<Value>, d: Direction, collected: set<JsObject>)
      returns (fThis: Value, fArgs: seq<Value>)
      requires Valid() && TargetsHeld(collected)
      requires Alive(thisArg, collected) && forall i :: 0 <= i < |args| ==> Alive(args[i], collected)
      modifies this`handlers, this`unrevoked, identity, revokes
      ensures Valid() && TargetsHeld(collected)
      ensures IdentityCache.Represents(identity.State(), thisArg, d, fThis, collected)
      ensures AllRepresent(identity.State(), args, d, fArgs, collected)
      ensures Grows(old(identity.State()), old(handlers), identity.State(), handlers, collected)
    {
      ghost var s0, h0 := identity.State(), handlers;
      fThis := Wrapper(thisArg, d, collected);
      ghost var s1, h1 := identity.State(), handlers;
      fArgs := WrapAll(args, d, collected);
      GrowsTransitive(s0, h0, s1, h1, identity.State(), handlers, collected);
      ExtendsKeepsRepresents(s1, identity.State(), thisArg, d, fThis, collected);
    }

    /** The membrane's `revoke()`: `revokeFnsCache.revokeAll()`, which
        revokes every proxy that has not been collected and keeps the list. */
    method Revoke(collected: set<JsObject>) returns (fired: seq<RevokeFn>)
      requires Valid()
      modifies this`unrevoked, Proxies(revokes.revokeFnWeakRefs)
      ensures Valid()
      ensures fired == Live(revokes.revokeFnWeakRefs, collected)
      ensures forall p :: p in handlers && p !in collected ==> p.revoked
      ensures unrevoked == old(unrevoked) * collected
    {
      RegisteredListsAll(revokes.proxyToRevokeFn, revokes.revokeFnWeakRefs);
      fired := revokes.RevokeAll(collected);
      unrevoked := unrevoked * collected;
    }
  }
}
