# Object membranes, modelled in Dafny

The repository is a series of JavaScript implementations of an object
**membrane**. Every object that crosses from one object graph (the "wet"
side) to another (the "dry" side), or back, is wrapped in a revocable
proxy. One call to `revoke()` then cuts the two graphs apart. This
project models the bookkeeping around those proxies:

- the wrap algorithm: primitives pass, a cache hit is reused, a miss makes
  and registers a new proxy;
- the direction flip for `this` and arguments;
- the bidirectional identity cache;
- the revocation registry.

Each implementation is modelled separately:

| module | file | implementation |
|---|---|---|
| `Js` | js.dfy | values, objects and proxies, `typeof`, `isPrimitive`/`isObject`, directions, completions |
| `RevokeRegistry` | revoke_registry.dfy | the weak `RevokeFnsCache` of solutions 2, 3, 7 and 8 |
| `IdentityCache` | identity_cache.dfy | the weak two-map `ProxyIdentityCache` of solutions 7 and 8 |
| `PreserveIdentity` | preserve_identity.dfy | `createMembrane` and `wrapper` of solutions 7 and 8 |
| `MetaHandler8` | meta_handler8.dfy | the meta-handler traps and `handleErrors` of solution 8 |
| `Handler7` | handler7.dfy | the `get`/`apply` handler of solution 7 |
| `Tc39Membrane` | tc39_membrane.dfy | solution 6: `maps[dir]`, `flip`, the `revoked` flag, `RevokeFnCache` |
| `StringKeyedMembrane` | string_keyed_membrane.dfy | solution 3: string directions and strong `dryMap`/`wetMap` |
| `WeakRevokeMembrane` | weak_revoke_membrane.dfy | solution 2 (TypeScript and JavaScript twins): no cache, weak registry |
| `Baseline` | baseline.dfy | solution 1 and solution.js: no cache, a strong array of revoke functions |

## Modelling choices

- **Objects and proxies.** Heap objects and proxies are instances of the
  class `Js.JsObject`. A proxy's `target` is constant and its `revoked`
  flag is set by its revoke function. Allocating with `new` gives each
  proxy its fresh identity.
- **Host operations.** What `Reflect.get`, `Reflect.apply`,
  `Reflect.construct` or `Reflect[name]` produced is an input `raw` to
  each trap method: a returned value or a thrown one. The trap returns
  what it forwards (the wrapped `this` and arguments) and how it completes.
- **Revoked proxies.** An operation on a revoked proxy throws the engine's
  TypeError before any trap runs; this is the completion `RevokedProxy`.
  Solution 6's `throw new Error("revoked")` is `RevokedMembrane`.
- **Garbage collection.** Collection is an input
  `collected: set<JsObject>`. A `WeakRef` resolves exactly when its
  referent is not in it.
  - Values handed to a trap are reachable, so they are required to be
    alive.
  - In solution 6 the cache maps hold strong values, so `{}` is used.
  - In solution 3 the cache maps hold strong values, so `{}` is used.
- **What a trap returns.** The `Js.Completion` a trap method returns is
  how the trap ends for its caller: it returns a value, it throws a value,
  or the engine or the membrane refuses the operation on a revoked proxy.
  The trap's host input `raw` is an `Outcome`: what the host operation
  returned or threw, before the membrane wraps it.
- **Live proxies hold their targets.** For solutions 7 and 8 the ghost
  set `unrevoked` records the proxies made since the last `revoke()`.
  Every proxy outside it has been revoked. A proxy that is alive and not
  revoked holds its target strongly, so the collector cannot have
  reclaimed that target. The membrane's methods and traps require this
  of the `collected` input and keep it, as the predicate `TargetsHeld`.
  It is what makes the reverse cache entry of such a proxy still
  resolve, so handing the proxy back is a hit on its target and never
  wraps it twice.
- **Directions.**
  - Solutions 7 and 8 type their directions as `"dry" | "wet"`; they are
    the datatype `Direction`.
  - Solution 6 uses the integers 0 and 1 (`Tc39Membrane.Dir`).
  - Solution 3 does not type them, and one call site passes the cache
    object itself. Its directions are therefore strings, and the cache
    object is the string it converts to, `"[object Object]"`.

## Model

| member | source | states |
|---|---|---|
| Js.JsObject.Revocable | solutions/8-preserve-identity/index.ts:68 | `Proxy.revocable` gives a new, unrevoked proxy of its target, callable exactly when the target is |
| Js.TypeOf | solutions/8-preserve-identity/index.ts:77-80 | `typeof` is "object" exactly for null and non-callable objects and "function" exactly for callable ones |
| Js.IsPrimitive | solutions/8-preserve-identity/index.ts:77-80 | `isPrimitive` holds exactly for values that are not object references, null included |
| Js.IsObject | solutions/2-store-revoke-in-weakrefs/index.ts:28-31 | `isObject` holds exactly for non-null objects and functions |
| Js.ObjectIsNotPrimitive | solutions/1-baseline/index.ts:28-31 | `isObject` and the `isPrimitive` of the JavaScript twins are exact complements |
| Js.DiffersFromObjectOf | solutions/6-tc39-unit-test-example-revocable/index.ts:46 | `obj !== Object(obj)` holds exactly for primitives |
| Js.Flip | solutions/8-preserve-identity/index.ts:121-123 | flipping always changes the direction: dry becomes wet and wet becomes dry |
| Js.FlipInvolution | solutions/7-preserve-identity/index.ts:92-94 | flipping twice gives the direction back |
| Js.DirectionName | solutions/8-preserve-identity/index.ts:105 | the strings "dry" and "wet" name exactly the two directions |
| Js.Invoke | solutions/8-preserve-identity/index.ts:68 | calling a revoke function leaves its proxy revoked |
| RevokeRegistry.Deref | solutions/8-preserve-identity/index.ts:100 | a WeakRef to a revoke function resolves, to that function, exactly when its proxy has not been collected |
| RevokeRegistry.Live | solutions/8-preserve-identity/index.ts:99-101 | the walk calls no more functions than are listed, and only listed functions whose proxy was not collected |
| RevokeRegistry.LiveMembership | solutions/8-preserve-identity/index.ts:99-101 | `revokeAll` calls a function exactly when it is listed and its proxy was not collected |
| RevokeRegistry.LiveAppend | solutions/8-preserve-identity/index.ts:97-100 | the walk over a list extended by pushes calls the earlier entries first, in insertion order |
| RevokeRegistry.LiveWhenNothingCollected | solutions/8-preserve-identity/index.ts:99-101 | with nothing collected, `revokeAll` calls every listed function in insertion order |
| RevokeRegistry.OccurrencesAppend | solutions/8-preserve-identity/index.ts:97 | one push adds one listing for its own proxy and none for any other |
| RevokeRegistry.OccurrencesZero | solutions/8-preserve-identity/index.ts:94 | a proxy is listed zero times exactly when no listed function belongs to it |
| RevokeRegistry.RegisterOnce | solutions/8-preserve-identity/index.ts:95-98 | registering a proxy not yet listed lists it exactly once and changes no other proxy's count |
| RevokeRegistry.RegisterKeepsRegistered | solutions/8-preserve-identity/index.ts:95-98 | `add` for a new proxy keeps every proxy mapped to its own revoke function and listed exactly once |
| RevokeRegistry.RegisteredListsAll | solutions/2-store-revoke-in-weakrefs/index.ts:44-48 | the proxies in the WeakMap are exactly those whose functions are listed |
| RevokeRegistry.FireLive | solutions/8-preserve-identity/index.ts:99-101 | the walk calls exactly the live functions in order, revokes every live proxy and leaves collected ones untouched |
| RevokeRegistry.RevokeFnsCache.constructor | solutions/8-preserve-identity/index.ts:93-94 | a new cache has an empty WeakMap and an empty list |
| RevokeRegistry.RevokeFnsCache.Add | solutions/8-preserve-identity/index.ts:95-98 | `add` sets one WeakMap entry and pushes one WeakRef, and keeps every proxy registered exactly once when the proxy is new |
| RevokeRegistry.RevokeFnsCache.RevokeAll | solutions/7-preserve-identity/index.ts:70-72 | `revokeAll` calls the live functions in insertion order and revokes every proxy not collected; it does not clear the list |
| IdentityCache.CacheMaps.For | solutions/8-preserve-identity/index.ts:124-126 | `getMapForDirection` gives `dryMap` for dry and `wetMap` for wet |
| IdentityCache.CacheMaps.Get | solutions/8-preserve-identity/index.ts:114-116 | `get` finds a proxy exactly when the map of the direction has an entry whose WeakRef still resolves, and returns that entry |
| IdentityCache.CacheMaps.Add | solutions/8-preserve-identity/index.ts:117-120 | `add` leaves `getMapForDirection(d)` mapping the target to the wrapper and the flipped direction's map mapping the wrapper back to the target |
| IdentityCache.AddThenGet | solutions/8-preserve-identity/index.ts:117-120 | after `add(t, w, d)`, with both alive, `get(t, d)` is `w` and `get(w, flip(d))` is `t` |
| IdentityCache.AddKeepsHits | solutions/8-preserve-identity/index.ts:117-120 | `add` after a miss, for a new proxy, changes no lookup that already hit |
| IdentityCache.AddKeepsPaired | solutions/8-preserve-identity/index.ts:117-120 | `add` after a miss keeps every entry matched by its reverse entry in the other map |
| IdentityCache.AddExtends | solutions/8-preserve-identity/index.ts:117-120 | `add` after a miss keeps every hit of every direction |
| IdentityCache.AddKeepsPairedLive | solutions/8-preserve-identity/index.ts:117-120 | `add` of live objects after a miss keeps the maps paired and free of entries to collected proxies |
| IdentityCache.MissThenAdd | solutions/8-preserve-identity/index.ts:68-69 | a miss followed by `add` makes both lookups hit and keeps every earlier hit and the pairing |
| IdentityCache.ExtendsKeepsRepresents | solutions/8-preserve-identity/index.ts:22 | a value handed out for `v` still stands for `v` after the cache grows |
| IdentityCache.ExtendsTransitive | solutions/8-preserve-identity/index.ts:22 | keeping every hit is transitive over successive wraps |
| IdentityCache.ExtendsKeepsAllRepresent | solutions/8-preserve-identity/index.ts:51 | wrapped arguments still stand for their originals after the cache grows |
| IdentityCache.AllRepresentSnoc | solutions/8-preserve-identity/index.ts:51 | wrapping one more argument extends the list of wrapped arguments by its wrapper |
| IdentityCache.ForwardedStillRepresent | solutions/8-preserve-identity/index.ts:50-51 | wrapped `this` and arguments still stand for their originals after the result is wrapped |
| IdentityCache.PairedRoundTrip | solutions/8-preserve-identity/index.ts:119 | no double wrapping: the proxy found for `t` in direction `d` is found as `t` in the flipped direction |
| IdentityCache.ProxyIdentityCache.constructor | solutions/8-preserve-identity/index.ts:110-113 | a new cache has two empty maps |
| IdentityCache.ProxyIdentityCache.Get | solutions/7-preserve-identity/index.ts:85-87 | `get` dereferences the entry of the direction's map and finds it exactly when it is present and alive |
| IdentityCache.ProxyIdentityCache.Add | solutions/7-preserve-identity/index.ts:88-91 | `add` writes the forward entry and the reverse entry in the flipped map |
| PreserveIdentity.AddKeepsLinked | solutions/8-preserve-identity/index.ts:69 | every cache entry links a proxy with its handler's target in its direction or the flipped one, and `add` keeps that |
| PreserveIdentity.NewProxyKeepsConsistent | solutions/8-preserve-identity/index.ts:68-70 | creating a proxy after a miss keeps the membrane invariant: proxies forward to their handler's targets, are registered once, and every cache entry is linked to a handler |
| PreserveIdentity.NewProxyKeepsUnwraps | solutions/8-preserve-identity/index.ts:68-70 | a miss that makes a new proxy keeps every live, unrevoked proxy mapped back to its target on the flipped map, the new one included, and keeps live proxies holding their targets |
| PreserveIdentity.UnwrapsRoundTrip | solutions/8-preserve-identity/index.ts:119 | a live, unrevoked proxy is found, in the direction opposite to the one it was made in, as the target it was made for |
| PreserveIdentity.GrowsTransitive | solutions/8-preserve-identity/index.ts:22 | keeping every hit and every handler is transitive over successive wraps |
| PreserveIdentity.Membrane.Create | solutions/8-preserve-identity/index.ts:1-11 | `createMembrane` starts from empty caches and wraps the root in "wet": one unrevoked proxy, registered once, found both ways; a primitive root is returned as is and leaves the caches empty |
| PreserveIdentity.Membrane.Wrapper | solutions/8-preserve-identity/index.ts:18-23 | `wrapper` returns a primitive unchanged; a hit returns the cached proxy and changes nothing; a miss makes one new proxy of the value, adds both cache entries and registers one revoke function |
| PreserveIdentity.Membrane.NewProxy | solutions/8-preserve-identity/index.ts:68-71 | the miss path makes a fresh proxy of the target, after which `get` finds it in the direction and finds the target in the flipped direction |
| PreserveIdentity.Membrane.UnwrapsToTarget | solutions/8-preserve-identity/index.ts:22 | no double wrapping: in the membrane's state, `get` of a live, unrevoked proxy in the flipped direction is its target |
| PreserveIdentity.Membrane.WrapBack | solutions/8-preserve-identity/index.ts:18-23 | `wrapper` of a live, unrevoked proxy in the direction opposite to the one it was made in returns the proxy's target and changes nothing |
| PreserveIdentity.Membrane.WrapAll | solutions/8-preserve-identity/index.ts:51 | every argument comes out as what `wrapper` hands out for it in the direction |
| PreserveIdentity.Membrane.WrapCall | solutions/7-preserve-identity/index.ts:33-34 | `this` and every argument are wrapped in the given direction |
| PreserveIdentity.Membrane.Revoke | solutions/8-preserve-identity/index.ts:7-9 | `revoke` is `revokeAll`: it calls the live functions in order, and every proxy the membrane made that was not collected ends revoked |
| MetaHandler8.Rethrown | solutions/8-preserve-identity/index.ts:36 | what `handleErrors` throws as written is the direction string itself, "wet" exactly for wet |
| MetaHandler8.RethrownLosesError | solutions/8-preserve-identity/index.ts:36 | the rethrown value does not depend on the error, and an error object is never rethrown as itself or a proxy |
| MetaHandler8.Settle | solutions/8-preserve-identity/index.ts:31-39 | a host result is wrapped in the proxy's direction; a host error becomes the rethrown direction string |
| MetaHandler8.GetTrap | solutions/8-preserve-identity/index.ts:41-44 | the "get" case wraps the value read in the proxy's direction; a revoked proxy does nothing |
| MetaHandler8.ApplyTrap | solutions/8-preserve-identity/index.ts:45-55 | the "apply" case wraps `this` and every argument in the flipped direction and the result in the proxy's direction |
| MetaHandler8.DefaultTrap | solutions/8-preserve-identity/index.ts:56-63 | every other trap wraps all its arguments flipped and its result in the proxy's direction |
| MetaHandler8.RethrowWrapped | solutions/8-preserve-identity/index.ts:36 | the intended rethrow hands out the error as the membrane hands out any value in the proxy's direction |
| Handler7.Settle | solutions/7-preserve-identity/index.ts:27 | a host result is wrapped in the proxy's direction, and a host error propagates unchanged |
| Handler7.GetTrap | solutions/7-preserve-identity/index.ts:26-28 | the "get" trap wraps the value read in the same direction |
| Handler7.ApplyTrap | solutions/7-preserve-identity/index.ts:29-38 | the "apply" trap wraps `this` and the arguments flipped and the result in the proxy's direction |
| Tc39Membrane.FlipDir | solutions/6-tc39-unit-test-example-revocable/index.ts:36-38 | `(dir + 1) % 2` swaps 0 and 1 |
| Tc39Membrane.FlipDirInvolution | solutions/6-tc39-unit-test-example-revocable/index.ts:36-38 | `flip(flip(dir)) == dir` |
| Tc39Membrane.AsDirection | solutions/6-tc39-unit-test-example-revocable/index.ts:33-34 | `wet2dry` (0) carries wet objects and `dry2wet` (1) carries dry ones |
| Tc39Membrane.FlipAgrees | solutions/6-tc39-unit-test-example-revocable/index.ts:36-38 | the integer flip is the direction flip |
| Tc39Membrane.Cache | solutions/6-tc39-unit-test-example-revocable/index.ts:40 | `maps[dir]` is the identity cache's map for the direction `dir` carries |
| Tc39Membrane.SetBothIsAdd | solutions/6-tc39-unit-test-example-revocable/index.ts:101-102 | the two `set` calls are the identity cache's `add` |
| Tc39Membrane.ListNewKeepsListed | solutions/6-tc39-unit-test-example-revocable/index.ts:119-122 | `add` of a new proxy lists it exactly once and changes no other proxy's count |
| Tc39Membrane.AddKeepsUnwraps | solutions/6-tc39-unit-test-example-revocable/index.ts:101-102 | the two `set` calls after a miss keep every proxy made so far on `maps[flip(dir)]` as the object it was made for, the new proxy included |
| Tc39Membrane.NewProxyKeepsMapsSound | solutions/6-tc39-unit-test-example-revocable/index.ts:101-102 | the two `set` calls after a miss keep the maps paired and every proxy unwrapping |
| Tc39Membrane.NewProxyKeepsConsistent | solutions/6-tc39-unit-test-example-revocable/index.ts:100-103 | creating a proxy after a miss keeps the maps paired, every proxy unwrapping and forwarding to its target, listed at most once, and, until `revoke()`, every proxy listed exactly once |
| Tc39Membrane.UnwrapsRoundTrip | solutions/6-tc39-unit-test-example-revocable/index.ts:47-48 | no double wrapping: in the membrane's invariant, a proxy made by `wrap(dir, obj)` is found in the flipped direction as `obj` |
| Tc39Membrane.GrowsTransitive | solutions/6-tc39-unit-test-example-revocable/index.ts:48-49 | keeping every hit and every handler is transitive over successive wraps |
| Tc39Membrane.RevokeFnCache.constructor | solutions/6-tc39-unit-test-example-revocable/index.ts:116-118 | a new cache is empty |
| Tc39Membrane.RevokeFnCache.Add | solutions/6-tc39-unit-test-example-revocable/index.ts:119-122 | `add(revokeFn, proxy)` sets one WeakMap entry and pushes one WeakRef |
| Tc39Membrane.RevokeFnCache.RevokeAll | solutions/6-tc39-unit-test-example-revocable/index.ts:123-131 | `revokeAll` calls the live functions in order, revokes every live proxy, then empties the list, so a second call calls nothing |
| Tc39Membrane.Membrane.Create | solutions/6-tc39-unit-test-example-revocable/index.ts:32-113 | `createMembrane` starts unrevoked with empty maps and an empty revoke cache, and wraps the root with `wet2dry` into one unrevoked proxy; a primitive root is returned as is and leaves maps and list empty |
| Tc39Membrane.Membrane.Wrap | solutions/6-tc39-unit-test-example-revocable/index.ts:45-50 | `wrap` returns a non-object unchanged, returns an existing `maps[dir]` entry and changes nothing, or makes one new proxy |
| Tc39Membrane.Membrane.NewProxy | solutions/6-tc39-unit-test-example-revocable/index.ts:100-104 | after creating a proxy, `maps[dir][obj] == proxy` and `maps[flip(dir)][proxy] == obj`, and one revoke function is registered |
| Tc39Membrane.Membrane.WrapBack | solutions/6-tc39-unit-test-example-revocable/index.ts:44-48 | `wrap(flip(dir), p)` of a proxy made by `wrap(dir, obj)` is a hit that returns `obj` and changes nothing |
| Tc39Membrane.Membrane.WrapAll | solutions/6-tc39-unit-test-example-revocable/index.ts:65 | every argument comes out as what `wrap` hands out for it in the given direction |
| Tc39Membrane.Membrane.Settle | solutions/6-tc39-unit-test-example-revocable/index.ts:59-70 | a host result is wrapped with `dir`, and a host error is rethrown as `wrap(dir, e)` |
| Tc39Membrane.Membrane.Refusal | solutions/6-tc39-unit-test-example-revocable/index.ts:55 | an operation is refused exactly when the proxy or the membrane is revoked, with the engine's error first |
| Tc39Membrane.Membrane.ApplyTrap | solutions/6-tc39-unit-test-example-revocable/index.ts:57-71 | the apply trap wraps `that` and the arguments with `flip(dir)` and the result or error with `dir` |
| Tc39Membrane.Membrane.ConstructTrap | solutions/6-tc39-unit-test-example-revocable/index.ts:72-86 | the construct trap wraps the arguments and `newTarget` with `flip(dir)` and the result or error with `dir` |
| Tc39Membrane.Membrane.DefaultTrap | solutions/6-tc39-unit-test-example-revocable/index.ts:87-94 | every other trap wraps its arguments with `flip(dir)` and its result or error with `dir` |
| Tc39Membrane.Membrane.Revoke | solutions/6-tc39-unit-test-example-revocable/index.ts:109-112 | `revoke` sets `revoked`, calls the live functions in order, empties the list, and afterwards every trap lookup is refused; the first call revokes every proxy the membrane made that was not collected |
| StringKeyedMembrane.MapKey | solutions/3-preserve-identity/index.js:77 | the property name is the direction followed by "Map" |
| StringKeyedMembrane.DirectionNamed | solutions/3-preserve-identity/index.js:77 | a direction that finds a map is the name of that map's direction |
| StringKeyedMembrane.DirectionNamedExactly | solutions/3-preserve-identity/index.js:77 | `this[direction + "Map"]` is a map exactly for "dry" and "wet", and each names the map of its own direction |
| StringKeyedMembrane.NamesRoundTrip | solutions/3-preserve-identity/index.js:77 | the name of a direction finds that direction's map |
| StringKeyedMembrane.FlipDirection | solutions/3-preserve-identity/index.js:83-85 | `flipDirection` gives "wet" exactly for "dry" and "dry" for anything else |
| StringKeyedMembrane.FlipDirectionInvolution | solutions/3-preserve-identity/index.js:83-85 | on "dry" and "wet", `flipDirection` is an involution and agrees with the direction flip |
| StringKeyedMembrane.CacheObjectNamesNoMap | solutions/3-preserve-identity/index.js:29 | the cache object, as a direction, names no map, flips to "dry" and does not flip back |
| StringKeyedMembrane.Flipped | solutions/3-preserve-identity/index.js:19 | a flipped direction always names a map |
| StringKeyedMembrane.NamedGet | solutions/3-preserve-identity/index.js:76-78 | `get` finds nothing for a direction that names no map, and otherwise reads that direction's map |
| StringKeyedMembrane.SetNamed | solutions/3-preserve-identity/index.js:80-81 | `this[direction + "Map"]?.set(k, v)` writes `k` to `v` in the named map, leaves the other map alone, and does nothing when no map is named |
| StringKeyedMembrane.AddNamed | solutions/3-preserve-identity/index.js:79-82 | `add` always leaves the wrapper mapped to the target in the map its flipped direction names, and, when its direction names a map, the target mapped to the wrapper there |
| StringKeyedMembrane.AddNamedIsAdd | solutions/3-preserve-identity/index.js:79-82 | with "dry" or "wet", `add` then `get` finds the wrapper forward and the target backward |
| StringKeyedMembrane.AddWithCacheObject | solutions/3-preserve-identity/index.js:79-82 | with the cache object as direction, `add` writes only `dryMap[wrapper] = target`, so the lookup still misses |
| StringKeyedMembrane.SetNamedGet | solutions/3-preserve-identity/index.js:80-81 | one `set` on a named map changes only that map's lookup of that key |
| StringKeyedMembrane.AddKeepsUnwraps | solutions/3-preserve-identity/index.js:79-82 | `add` after a miss keeps every proxy found, as its target, with its flipped direction, and makes the new one so |
| StringKeyedMembrane.NewProxyKeepsConsistent | solutions/3-preserve-identity/index.js:36-37 | creating a proxy after a miss keeps the invariant: forwarding, registration once, and unwrapping |
| StringKeyedMembrane.AddNamedExtends | solutions/3-preserve-identity/index.js:79-82 | `add` after a miss, with any direction, keeps every hit |
| StringKeyedMembrane.GrowsTransitive | solutions/3-preserve-identity/index.js:18 | keeping every hit and every handler is transitive over successive wraps |
| StringKeyedMembrane.ProxyIdentityCache.constructor | solutions/3-preserve-identity/index.js:72-75 | a new cache has two empty maps |
| StringKeyedMembrane.ProxyIdentityCache.Get | solutions/3-preserve-identity/index.js:76-78 | `get` reads `this[direction + "Map"]`, and only "dry" and "wet" can hit |
| StringKeyedMembrane.ProxyIdentityCache.Add | solutions/3-preserve-identity/index.js:79-82 | `add` sets the forward and the reverse strong entry wherever `direction + "Map"` names a map |
| StringKeyedMembrane.Membrane.Create | solutions/3-preserve-identity/index.js:1-11 | `createMembrane` starts from empty caches, wraps the root in "dry" (never in the `direction` argument) and returns `{target, revoke}` with one registered proxy; a primitive root leaves the caches empty |
| StringKeyedMembrane.RootFoundBothWays | solutions/3-preserve-identity/index.js:41 | after `createMembrane` the cache finds the root's proxy in "dry" and the root in "wet", and nothing else |
| StringKeyedMembrane.Membrane.Wrapper | solutions/3-preserve-identity/index.js:14-19 | `wrapper` returns a primitive unchanged; a hit returns the cached proxy and changes nothing; a miss makes one new proxy and registers it once |
| StringKeyedMembrane.Membrane.NewProxy | solutions/3-preserve-identity/index.js:21-38 | the miss path makes a fresh proxy, adds it to the cache and registers one revoke function |
| StringKeyedMembrane.Membrane.WrapAll | solutions/3-preserve-identity/index.js:30 | every argument comes out as what `wrapper` hands out for it in the flipped direction |
| StringKeyedMembrane.Membrane.Settle | solutions/3-preserve-identity/index.js:26-33 | a host result is wrapped in the proxy's direction, and a host error propagates unchanged |
| StringKeyedMembrane.Membrane.GetTrap | solutions/3-preserve-identity/index.js:22-24 | the "get" trap wraps the value read in the proxy's direction |
| StringKeyedMembrane.Membrane.ApplyTrap | solutions/3-preserve-identity/index.js:25-34 | as written, `this` always reaches the target as a new proxy of itself, never as the object a membrane proxy stands for; the arguments are wrapped flipped and the result in the proxy's direction |
| StringKeyedMembrane.Membrane.ApplyTrapIntended | solutions/3-preserve-identity/index.js:29 | wrapped in the flipped direction, a membrane proxy passed as `this` by the side it was given to reaches the target as the object it stands for |
| StringKeyedMembrane.Membrane.Revoke | solutions/3-preserve-identity/index.js:7-9 | `revoke` is `revokeAll`: every live registered proxy ends revoked |
| WeakRevokeMembrane.Membrane.Create | solutions/2-store-revoke-in-weakrefs/index.ts:1-11 | `createMembrane` starts with an empty cache and one proxy of the target, registered once |
| WeakRevokeMembrane.Membrane.CreateRevocableProxy | solutions/2-store-revoke-in-weakrefs/index.ts:13-26 | every creation makes a fresh proxy and adds exactly one WeakMap entry and one WeakRef |
| WeakRevokeMembrane.Membrane.Settle | solutions/2-store-revoke-in-weakrefs/index.js:15-22 | an object result becomes a brand-new proxy; a primitive result and a host error pass unchanged |
| WeakRevokeMembrane.Membrane.GetTrap | solutions/2-store-revoke-in-weakrefs/index.ts:15-18 | the "get" trap returns a primitive unchanged and a new proxy for every object |
| WeakRevokeMembrane.Membrane.ApplyTrap | solutions/2-store-revoke-in-weakrefs/index.ts:19-22 | the "apply" trap forwards `this` and the arguments unwrapped and wraps only object results |
| WeakRevokeMembrane.Membrane.Revoke | solutions/2-store-revoke-in-weakrefs/index.ts:7-9 | `revoke` calls the live functions in insertion order, revokes every proxy not collected and keeps the list |
| Baseline.PushKeepsPushedOnce | solutions/1-baseline/index.ts:24 | every proxy's revoke function is pushed exactly once |
| Baseline.PushedOnceListsAll | solutions/1-baseline/index.ts:2-3 | every proxy the membrane made has its revoke function in the array |
| Baseline.FireAll | solution.js:8 | `forEach` calls every stored revoke function, in push order, and revokes every proxy |
| Baseline.Membrane.Create | solutions/1-baseline/index.ts:1-11 | `createMembrane` starts with an array holding only the first proxy's revoke function |
| Baseline.Membrane.CreateRevocableProxy | solutions/1-baseline/index.ts:13-26 | every creation makes a fresh proxy and pushes exactly one revoke function |
| Baseline.Membrane.Settle | solutions/1-baseline/index.ts:17 | an object result becomes a brand-new proxy; a primitive result and a host error pass unchanged |
| Baseline.Membrane.GetTrap | solutions/1-baseline/index.ts:15-18 | the "get" trap passes primitives and makes a new proxy for every object read |
| Baseline.Membrane.ApplyTrap | solutions/1-baseline/index.ts:19-22 | the "apply" trap forwards `this` and the arguments unwrapped and wraps object results |
| Baseline.Membrane.GetTwice | solution.js:15-18 | reading the same object twice gives two different proxies of it and two more revoke functions |
| Baseline.Membrane.Revoke | solutions/1-baseline/index.ts:7-9 | `revoke` calls every stored function in push order and revokes every proxy; the array is kept |

## Left out

- Host `Proxy` and `Reflect` semantics are not modelled. This includes the
  engine's invariants for non-configurable and non-writable properties,
  and property keys and descriptors, which the traps only pass to the
  host. A host operation's outcome is an input.
- Operations that solutions 1, 2, 3 and 7 do not trap go straight to the
  target without wrapping. That is host behaviour and is not modelled.
- Solution 8 dispatches by trap name through a meta-handler proxy. Here
  each case is its own method: `GetTrap`, `ApplyTrap` and `DefaultTrap`.
  Its `construct` trap falls under `DefaultTrap`.
- When garbage collection happens is not modelled. Collection is an input
  set, and no lifetime or retention property is claimed.
- `Object.freeze` of solution 6's result is not modelled: the returned
  object has no fields here.
- Numbers are integers, because no membrane looks inside a primitive.
- Baseline.Membrane.Create: takes an object target. With a primitive
  target, `Proxy.revocable` in solution.js throws a TypeError, and that
  error path is not modelled. The TypeScript version's type allows only
  objects.
- WeakRevokeMembrane.Membrane.Create: takes an object target, for the same
  reason as the baseline.
- jest.setup.ts is not part of this model. Its adapter uses
  `IS_PROXY_SYMBOL` and an options argument that the shown solution 8
  does not have.
- The test suites, the DOM fixture and the demo UI are not part of this
  model: test/*, tests/*, helpers/*, index.js, iframe.js and scenarios/*.
- The solutions the tests import but that are not shown are not part of
  this model: 3-harmony-reflect-example, 4-harmony-reflect-example-revocable,
  5-tc39-unit-test-example and 7-es-membrane-example.

## Findings

| source | as written | input that shows it | evidently intended | confidence | as-written member | corrected member |
|---|---|---|---|---|---|---|
| solutions/8-preserve-identity/index.ts:36 | `throw wrapper(direction, e)` wraps the direction string, a primitive, so every error a trap catches is rethrown as the string "wet" or "dry" | a wet function that throws `new Error("x")`, called through the membrane: the dry caller catches the string "wet" | `throw wrapper(e, direction)`: the error wrapped like any other value coming out of the target | not executed | MetaHandler8.RethrownLosesError | MetaHandler8.RethrowWrapped |
| solutions/3-preserve-identity/index.js:29 | `wrapper(thisArg, proxyIdentityCache, flippedDirection)` puts the cache object in the direction slot, so the lookup always misses and `this` is always wrapped in a new proxy | `createMembrane({ f() { return this; } }).target.f()`: inside `f`, `this` is a proxy of the membrane's root proxy rather than the target itself, and each call makes one more | `wrapper(thisArg, flippedDirection)`, which hands the target back its own object | not executed | StringKeyedMembrane.Membrane.ApplyTrap | StringKeyedMembrane.Membrane.ApplyTrapIntended |
