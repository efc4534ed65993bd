/** The membrane of solutions/2-store-revoke-in-weakrefs: the baseline's
    traps (a new revocable proxy for every object that comes out of the
    target, `this` and the arguments passed unwrapped, no cache), with the
    revoke functions kept in a `RevokeFnsCache` instead of a strong array,
    so that a proxy the program has dropped can be collected. `revoke()`
    calls the functions whose WeakRefs still resolve and keeps the list. */
module WeakRevokeMembrane {
  import opened Js
  import opened RevokeRegistry

  /** The closure state of one `createMembrane(target)` call. */
  class Membrane {
    const revokes: RevokeFnsCache
    /** The `membrane` (TypeScript) or `target` (JavaScript) field of the
        returned object. */
    var membrane: JsObject

    ghost predicate Valid()
      reads this, revokes
    {
      revokes.Valid()
    }

    /** The proxies made so far: the keys of the WeakMap. */
    ghost function Made(): set<JsObject>
      reads this, revokes
    {
      revokes.proxyToRevokeFn.Keys
    }

    /** How a trap completes when the host operation ended with `raw`: an
        object result becomes a new proxy registered once in the cache, a
        primitive result passes unchanged, and a host error propagates. */
    twostate predicate Settled(raw: Outcome, new c: Completion)
      reads this, revokes
    {
      match raw
      case Threw(e) => c == Thrown(e) && revokes.revokeFnWeakRefs == old(revokes.revokeFnWeakRefs) && Made() == old(Made())
      case Returned(v) =>
        if IsObject(v) then
          c.Normal? && c.value.Ref? && fresh(c.value.obj) && c.value.obj.target == v.obj
          && revokes.revokeFnWeakRefs == old(revokes.revokeFnWeakRefs) + [RevokeFn(c.value.obj)]
          && Made() == old(Made()) + {c.value.obj}
        else
          c == Normal(v) && revokes.revokeFnWeakRefs == old(revokes.revokeFnWeakRefs) && Made() == old(Made())
    }

    /** `createMembrane(target)`: an empty cache and the target wrapped in
        the first proxy. */
    constructor Create(target: JsObject)
      ensures Valid() && fresh(revokes)
      ensures fresh(membrane) && membrane.target == target && !membrane.revoked
      ensures revokes.revokeFnWeakRefs == [RevokeFn(membrane)] && Made() == {membrane}
    {
      revokes := new RevokeFnsCache();
      membrane := target;
      new;
      membrane := CreateRevocableProxy(target);
    }

    /** `createRevocableProxy(target, revokeFnsCache)`: `Proxy.revocable`
        and `revokeFnsCache.add(proxy, revoke)`. */
    method CreateRevocableProxy(target: JsObject) returns (proxy: JsObject)
      requires Valid()
      modifies revokes
      ensures Valid()
      ensures fresh(proxy) && proxy.target == target && !proxy.revoked
      ensures revokes.revokeFnWeakRefs == old(revokes.revokeFnWeakRefs) + [RevokeFn(proxy)]
      ensures Made() == old(Made()) + {proxy}
    {
      proxy := new JsObject.Revocable(target);
      revokes.Add(proxy, RevokeFn(proxy));
    }

    /** `isObject(value) ? createRevocableProxy(value, revokeFnsCache) :
        value` on the host's result (`isPrimitive` with the branches
        swapped in the JavaScript twin). */
    method Settle(raw: Outcome) returns (c: Completion)
      requires Valid()
      modifies revokes
      ensures Valid()
      ensures Settled(raw, c)
    {
      match raw {
        case Threw(e) =>
          c := Thrown(e);
        case Returned(v) =>
          if IsObject(v) {
            var proxy := CreateRevocableProxy(v.obj);
            c := Normal(Ref(proxy));
          } else {
            c := Normal(v);
          }
      }
    }

    /** The "get" trap: `Reflect.get(target, name)`, then `Settle`. */
    method GetTrap(p: JsObject, raw: Outcome) returns (c: Completion)
      requires Valid() && p in Made()
      modifies revokes
      ensures Valid()
      ensures old(p.revoked) ==> c == RevokedProxy && unchanged(revokes)
      ensures !old(p.revoked) ==> Settled(raw, c)
    {
      if p.revoked {
        return RevokedProxy;
      }
      c := Settle(raw);
    }

    /** The "apply" trap: `Reflect.apply(target, thisArg, argArray)` with
        `this` and the arguments as they came, then `Settle`. */
    method ApplyTrap(p: JsObject, thisArg: Value, args: seq<Value>, raw: Outcome)
      returns (forwardedThis: Value, forwardedArgs: seq<Value>, c: Completion)
      requires Valid() && p in Made()
      modifies revokes
      ensures Valid()
      ensures old(p.revoked) ==> c == RevokedProxy && unchanged(revokes)
      ensures !old(p.revoked) ==> forwardedThis == thisArg && forwardedArgs == args && Settled(raw, c)
    {
      if p.revoked {
        return thisArg, args, RevokedProxy;
      }
      forwardedThis, forwardedArgs := thisArg, args;
      c := Settle(raw);
    }

    /** The membrane's `revoke()`: `revokeFnsCache.revokeAll()`. Every
        proxy not yet collected is revoked, and the list is kept, so a
        second call walks it again. */
    method Revoke(collected: set<JsObject>) returns (fired: seq<RevokeFn>)
      requires Valid()
      modifies Made()
      ensures fired == Live(revokes.revokeFnWeakRefs, collected)
      ensures forall p :: p in Made() && p !in collected ==> p.revoked
      ensures collected == {} ==> fired == revokes.revokeFnWeakRefs
    {
      RegisteredListsAll(revokes.proxyToRevokeFn, revokes.revokeFnWeakRefs);
      LiveWhenNothingCollected(revokes.revokeFnWeakRefs);
      fired := revokes.RevokeAll(collected);
    }
  }
}
