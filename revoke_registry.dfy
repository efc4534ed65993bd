/** `RevokeFnsCache`, the revocation registry shared verbatim by the
    weak-reference variants (2, 3, 7 and 8): a WeakMap from each proxy to
    its revoke function, which keeps the function alive exactly as long as
    the proxy, and a list of WeakRefs to the functions, which can be walked.

    Garbage collection is an input: `collected` is the set of proxies the
    collector has reclaimed. The WeakMap entry ties a revoke function's
    lifetime to its proxy's, so a WeakRef to it resolves exactly when its
    proxy is not in `collected`. */
module RevokeRegistry {
  import opened Js

  /** `WeakRef.prototype.deref` on a reference to a revoke function. */
  function Deref(f: RevokeFn, collected: set<JsObject>): (r: Option<RevokeFn>)
    ensures r.Some? <==> f.proxy !in collected
    ensures r.Some? ==> r.value == f
  {
    if f.proxy in collected then None else Some(f)
  }

  /** The revoke functions a walk over `refs` calls, in the order it calls
      them: those whose WeakRef still resolves. */
  function Live(refs: seq<RevokeFn>, collected: set<JsObject>): (r: seq<RevokeFn>)
    ensures |r| <= |refs|
    ensures forall i :: 0 <= i < |r| ==> r[i] in refs && r[i].proxy !in collected
  {
    if refs == [] then []
    else (match Deref(refs[0], collected) case Some(f) => [f] case None => [])
         + Live(refs[1..], collected)
  }

  /** A revoke function is called by the walk exactly when it was
      registered and its proxy is still alive. */
  lemma {:induction false} LiveMembership(refs: seq<RevokeFn>, collected: set<JsObject>, f: RevokeFn)
    ensures f in Live(refs, collected) <==> f in refs && f.proxy !in collected
  {
    if refs != [] {
      LiveMembership(refs[1..], collected, f);
      assert refs == [refs[0]] + refs[1..];
    }
  }

  /** Walking two lists one after the other calls what walking their
      concatenation calls, in the same order. */
  lemma {:induction false} LiveAppend(a: seq<RevokeFn>, b: seq<RevokeFn>, collected: set<JsObject>)
    ensures Live(a + b, collected) == Live(a, collected) + Live(b, collected)
  {
    if a == [] {
      assert a + b == b;
    } else {
      assert (a + b)[1..] == a[1..] + b;
      LiveAppend(a[1..], b, collected);
    }
  }

  /** With nothing collected, the walk calls every registered function in
      insertion order. */
  lemma {:induction false} LiveWhenNothingCollected(refs: seq<RevokeFn>)
    ensures Live(refs, {}) == refs
  {
    if refs != [] {
      LiveWhenNothingCollected(refs[1..]);
      assert refs == [refs[0]] + refs[1..];
    }
  }

  /** How many registered revoke functions belong to proxy `p`. */
  function Occurrences(refs: seq<RevokeFn>, p: JsObject): nat
  {
    if refs == [] then 0
    else (if refs[0].proxy == p then 1 else 0) + Occurrences(refs[1..], p)
  }

  lemma {:induction false} OccurrencesAppend(refs: seq<RevokeFn>, f: RevokeFn, p: JsObject)
    ensures Occurrences(refs + [f], p) == Occurrences(refs, p) + (if f.proxy == p then 1 else 0)
  {
    if refs == [] {
      assert refs + [f] == [f];
    } else {
      assert (refs + [f])[1..] == refs[1..] + [f];
      OccurrencesAppend(refs[1..], f, p);
    }
  }

  lemma {:induction false} OccurrencesZero(refs: seq<RevokeFn>, p: JsObject)
    ensures Occurrences(refs, p) == 0 <==> forall i :: 0 <= i < |refs| ==> refs[i].proxy != p
  {
    if refs != [] {
      OccurrencesZero(refs[1..], p);
      assert forall i :: 1 <= i < |refs| ==> refs[i] == refs[1..][i - 1];
    }
  }

  /** Registering a proxy that was not registered yet leaves exactly one
      revoke function for it, and no other proxy's count changes. */
  lemma RegisterOnce(refs: seq<RevokeFn>, p: JsObject, q: JsObject)
    requires forall i :: 0 <= i < |refs| ==> refs[i].proxy != p
    ensures Occurrences(refs + [RevokeFn(p)], p) == 1
    ensures q != p ==> Occurrences(refs + [RevokeFn(p)], q) == Occurrences(refs, q)
  {
    OccurrencesZero(refs, p);
    OccurrencesAppend(refs, RevokeFn(p), p);
    OccurrencesAppend(refs, RevokeFn(p), q);
  }

  /** Every listed function belongs to a proxy of the WeakMap, which maps
      it to that function, and each proxy is listed exactly once. */
  ghost predicate Registered(m: map<JsObject, RevokeFn>, refs: seq<RevokeFn>)
  {
    (forall i :: 0 <= i < |refs| ==> refs[i].proxy in m) &&
    (forall p :: p in m ==> m[p] == RevokeFn(p) && Occurrences(refs, p) == 1)
  }

  /** Registering a new proxy's revoke function in both structures keeps
      every proxy registered exactly once. */
  lemma RegisterKeepsRegistered(m: map<JsObject, RevokeFn>, refs: seq<RevokeFn>, proxy: JsObject)
    requires Registered(m, refs)
    requires proxy !in m
    ensures Registered(m[proxy := RevokeFn(proxy)], refs + [RevokeFn(proxy)])
  {
    forall p | p in m
      ensures Occurrences(refs + [RevokeFn(proxy)], p) == Occurrences(refs, p)
    {
      RegisterOnce(refs, proxy, p);
    }
    RegisterOnce(refs, proxy, proxy);
  }

  /** The proxies whose revoke functions are listed. */
  function Proxies(refs: seq<RevokeFn>): set<JsObject>
  {
    set i | 0 <= i < |refs| :: refs[i].proxy
  }

  /** The WeakMap's proxies are exactly the ones whose functions are
      listed. */
  lemma RegisteredListsAll(m: map<JsObject, RevokeFn>, refs: seq<RevokeFn>)
    requires Registered(m, refs)
    ensures m.Keys == Proxies(refs)
  {
    forall p | p in m
      ensures p in Proxies(refs)
    {
      OccurrencesZero(refs, p);
    }
  }

  /** Walks `refs` calling every revoke function whose WeakRef resolves,
      as `revokeFnWeakRefs.forEach(ref => ref.deref()?.())` does; `fired`
      lists the calls in order. Collected proxies are not touched. */
  method FireLive(refs: seq<RevokeFn>, collected: set<JsObject>) returns (fired: seq<RevokeFn>)
    modifies Proxies(refs)
    ensures fired == Live(refs, collected)
    ensures forall i :: 0 <= i < |refs| && refs[i].proxy !in collected ==> refs[i].proxy.revoked
    ensures forall i :: 0 <= i < |refs| && refs[i].proxy in collected ==> refs[i].proxy.revoked == old(refs[i].proxy.revoked)
  {
    fired := [];
    var i := 0;
    while i < |refs|
      invariant 0 <= i <= |refs|
      invariant fired == Live(refs[..i], collected)
      invariant forall j :: 0 <= j < i && refs[j].proxy !in collected ==> refs[j].proxy.revoked
      invariant forall j :: 0 <= j < |refs| && refs[j].proxy in collected ==> refs[j].proxy.revoked == old(refs[j].proxy.revoked)
    {
      assert refs[..i + 1] == refs[..i] + [refs[i]];
      LiveAppend(refs[..i], [refs[i]], collected);
      assert [refs[i]][1..] == [];
      match Deref(refs[i], collected) {
        case Some(f) =>
          Invoke(f);
        case None =>
      }
      fired := fired + Live([refs[i]], collected);
      i := i + 1;
    }
    assert refs[..i] == refs;
  }

  class RevokeFnsCache {
    var proxyToRevokeFn: map<JsObject, RevokeFn>
    var revokeFnWeakRefs: seq<RevokeFn>

    ghost predicate Valid()
      reads this
    {
      Registered(proxyToRevokeFn, revokeFnWeakRefs)
    }

    constructor ()
      ensures Valid()
      ensures proxyToRevokeFn == map[] && revokeFnWeakRefs == []
    {
      proxyToRevokeFn := map[];
      revokeFnWeakRefs := [];
    }

    /** `add(proxy, revokeFn)`: one WeakMap entry and one WeakRef. */
    method Add(proxy: JsObject, revokeFn: RevokeFn)
      modifies this
      ensures proxyToRevokeFn == old(proxyToRevokeFn)[proxy := revokeFn]
      ensures revokeFnWeakRefs == old(revokeFnWeakRefs) + [revokeFn]
      ensures old(Valid()) && proxy !in old(proxyToRevokeFn) && revokeFn == RevokeFn(proxy) ==> Valid()
    {
      if Valid() && proxy !in proxyToRevokeFn && revokeFn == RevokeFn(proxy) {
        RegisterKeepsRegistered(proxyToRevokeFn, revokeFnWeakRefs, proxy);
      }
      proxyToRevokeFn := proxyToRevokeFn[proxy := revokeFn];
      revokeFnWeakRefs := revokeFnWeakRefs + [revokeFn];
    }

    /** `revokeAll()`: calls every revoke function whose WeakRef still
        resolves, in insertion order, and keeps the list. */
    method RevokeAll(collected: set<JsObject>) returns (fired: seq<RevokeFn>)
      modifies Proxies(revokeFnWeakRefs)
      ensures fired == Live(revokeFnWeakRefs, collected)
      ensures forall p :: p in Proxies(revokeFnWeakRefs) && p !in collected ==> p.revoked
      ensures forall p :: p in Proxies(revokeFnWeakRefs) && p in collected ==> p.revoked == old(p.revoked)
    {
      fired := FireLive(revokeFnWeakRefs, collected);
    }
  }
}
