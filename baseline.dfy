/** The baseline membrane of solutions/1-baseline and solution.js: every
    object that comes out of the target through a "get" or an "apply" trap
    is wrapped in a brand-new revocable proxy, whose revoke function is
    pushed onto one strong array. Nothing is cached, `this` and the
    arguments of a call go to the target unwrapped, and `revoke()` calls
    every revoke function pushed so far, in order, without emptying the
    array. */
module Baseline {
  import opened Js
  import opened RevokeRegistry

  /** Every pushed revoke function belongs to a proxy made by the membrane,
      and every such proxy's function was pushed exactly once. */
  ghost predicate PushedOnce(proxies: set<JsObject>, revokeFns: seq<RevokeFn>)
  {
    (forall i :: 0 <= i < |revokeFns| ==> revokeFns[i].proxy in proxies) &&
    (forall p :: p in proxies ==> Occurrences(revokeFns, p) == 1)
  }

  /** Pushing the revoke function of a proxy not made before keeps every
      proxy pushed exactly once. */
  lemma PushKeepsPushedOnce(proxies: set<JsObject>, revokeFns: seq<RevokeFn>, proxy: JsObject)
    requires PushedOnce(proxies, revokeFns)
    requires proxy !in proxies
    ensures PushedOnce(proxies + {proxy}, revokeFns + [RevokeFn(proxy)])
  {
    forall p | p in proxies
      ensures Occurrences(revokeFns + [RevokeFn(proxy)], p) == 1
    {
      RegisterOnce(revokeFns, proxy, p);
    }
    RegisterOnce(revokeFns, proxy, proxy);
  }

  /** Every proxy the membrane made has its revoke function in the array. */
  lemma PushedOnceListsAll(proxies: set<JsObject>, revokeFns: seq<RevokeFn>)
    requires PushedOnce(proxies, revokeFns)
    ensures proxies == Proxies(revokeFns)
  {
    forall p | p in proxies
      ensures p in Proxies(revokeFns)
    {
      OccurrencesZero(revokeFns, p);
    }
  }

  /** `revokeFns.forEach((revoke) => revoke())`: `fired` lists the calls in
      order, one per element. */
  method FireAll(revokeFns: seq<RevokeFn>) returns (fired: seq<RevokeFn>)
    modifies Proxies(revokeFns)
    ensures fired == revokeFns
    ensures forall p :: p in Proxies(revokeFns) ==> p.revoked
  {
    fired := [];
    for i := 0 to |revokeFns|
      invariant fired == revokeFns[..i]
      invariant forall j :: 0 <= j < i ==> revokeFns[j].proxy.revoked
    {
      Invoke(revokeFns[i]);
      fired := fired + [revokeFns[i]];
    }
  }

  /** The closure state of one `createMembrane(target)` call. */
  class Membrane {
    var revokeFns: seq<RevokeFn>
    /** The proxies made so far: the ones the traps can run for. */
    ghost var proxies: set<JsObject>
    /** The `membrane` (TypeScript) or `target` (JavaScript) field of the
        returned object. */
    var membrane: JsObject

    ghost predicate Valid()
      reads this
    {
      PushedOnce(proxies, revokeFns)
    }

    /** How a trap completes when the host operation ended with `raw`: an
        object result becomes a new proxy whose revoke function is pushed,
        a primitive result passes unchanged, and a host error propagates. */
    twostate predicate Settled(raw: Outcome, new c: Completion)
      reads this
    {
      match raw
      case Threw(e) => c == Thrown(e) && revokeFns == old(revokeFns) && proxies == old(proxies)
      case Returned(v) =>
        if IsObject(v) then
          c.Normal? && c.value.Ref? && fresh(c.value.obj) && c.value.obj.target == v.obj
          && revokeFns == old(revokeFns) + [RevokeFn(c.value.obj)] && proxies == old(proxies) + {c.value.obj}
        else
          c == Normal(v) && revokeFns == old(revokeFns) && proxies == old(proxies)
    }

    /** `createMembrane(target)`: the target wrapped in the first proxy. */
    constructor Create(target: JsObject)
      ensures Valid()
      ensures fresh(membrane) && membrane.target == target && !membrane.revoked
      ensures revokeFns == [RevokeFn(membrane)] && proxies == {membrane}
    {
      revokeFns := [];
      proxies := {};
      membrane := target;
      new;
      membrane := CreateRevocableProxy(target);
    }

    /** `createRevocableProxy(target, revokeFns)`: `Proxy.revocable` and
        one push. */
    method CreateRevocableProxy(target: JsObject) returns (proxy: JsObject)
      requires Valid()
      modifies this`revokeFns, this`proxies
      ensures Valid()
      ensures fresh(proxy) && proxy.target == target && !proxy.revoked
      ensures revokeFns == old(revokeFns) + [RevokeFn(proxy)] && proxies == old(proxies) + {proxy}
    {
      proxy := new JsObject.Revocable(target);
      PushKeepsPushedOnce(proxies, revokeFns, proxy);
      revokeFns := revokeFns + [RevokeFn(proxy)];
      proxies := proxies + {proxy};
    }

    /** `isObject(value) ? createRevocableProxy(value, revokeFns) : value`
        on the host's result. */
    method Settle(raw: Outcome) returns (c: Completion)
      requires Valid()
      modifies this`revokeFns, this`proxies
      ensures Valid()
      ensures Settled(raw, c)
    {
      match raw {
        case Threw(e) =>
          c := Thrown(e);
        case Returned(v) =>
          if IsObject(v) {
            var proxy := CreateRevocableProxy(v.obj);
            c := Normal(Ref(proxy));
          } else {
            c := Normal(v);
          }
      }
    }

    /** The "get" trap: `Reflect.get(target, name)`, then `Settle`. */
    method GetTrap(p: JsObject, raw: Outcome) returns (c: Completion)
      requires Valid() && p in proxies
      modifies this`revokeFns, this`proxies
      ensures Valid()
      ensures old(p.revoked) ==> c == RevokedProxy && revokeFns == old(revokeFns) && proxies == old(proxies)
      ensures !old(p.revoked) ==> Settled(raw, c)
    {
      if p.revoked {
        return RevokedProxy;
      }
      c := Settle(raw);
    }

    /** The "apply" trap: `Reflect.apply(target, thisArg, argArray)` with
        `this` and the arguments as they came, then `Settle`. */
    method ApplyTrap(p: JsObject, thisArg: Value, args: seq<Value>, raw: Outcome)
      returns (forwardedThis: Value, forwardedArgs: seq<Value>, c: Completion)
      requires Valid() && p in proxies
      modifies this`revokeFns, this`proxies
      ensures Valid()
      ensures old(p.revoked) ==> c == RevokedProxy && revokeFns == old(revokeFns) && proxies == old(proxies)
      ensures !old(p.revoked) ==> forwardedThis == thisArg && forwardedArgs == args && Settled(raw, c)
    {
      if p.revoked {
        return thisArg, args, RevokedProxy;
      }
      forwardedThis, forwardedArgs := thisArg, args;
      c := Settle(raw);
    }

    /** Reading the same object through a proxy twice yields two different
        proxies of it: the baseline does not preserve identity. */
    method GetTwice(p: JsObject, raw: Outcome) returns (c1: Completion, c2: Completion)
      requires Valid() && p in proxies
      requires raw.Returned? && raw.value.Ref?
      modifies this`revokeFns, this`proxies
      ensures Valid()
      ensures !old(p.revoked) ==>
                c1.Normal? && c2.Normal? && c1.value.Ref? && c2.value.Ref?
                && c1.value != c2.value && c1.value.obj.target == c2.value.obj.target == raw.value.obj
                && |revokeFns| == |old(revokeFns)| + 2
    {
      c1 := GetTrap(p, raw);
      c2 := GetTrap(p, raw);
    }

    /** The membrane's `revoke()`: every proxy made so far is revoked, the
        functions are called in push order, and the array is kept, so a
        second call calls them all again. */
    method Revoke() returns (fired: seq<RevokeFn>)
      requires Valid()
      modifies proxies
      ensures fired == revokeFns
      ensures forall p :: p in proxies ==> p.revoked
    {
      PushedOnceListsAll(proxies, revokeFns);
      fired := FireAll(revokeFns);
    }
  }
}
