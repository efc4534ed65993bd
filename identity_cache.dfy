/** `ProxyIdentityCache` of variants 7 and 8 (the two copies are the same
    code): one WeakMap per direction from an object to a WeakRef of its
    counterpart. `add(target, wrapper, d)` records target -> wrapper on `d`
    and wrapper -> target on `flip(d)`; `get` dereferences the WeakRef,
    which no longer resolves once its referent is in `collected`. */
module IdentityCache {
  import opened Js

  datatype CacheMaps = CacheMaps(dryMap: map<JsObject, JsObject>, wetMap: map<JsObject, JsObject>)
  {
    /** `getMapForDirection`. */
    function For(d: Direction): (m: map<JsObject, JsObject>)
      ensures d == Dry ==> m == dryMap
      ensures d == Wet ==> m == wetMap
    {
      if d == Dry then dryMap else wetMap
    }

    /** `get(target, d)`: the WeakMap entry, dereferenced. */
    function Get(target: JsObject, d: Direction, collected: set<JsObject>): (r: Option<JsObject>)
      ensures r.Some? <==> target in For(d) && For(d)[target] !in collected
      ensures r.Some? ==> r.value == For(d)[target]
    {
      if target in For(d) && For(d)[target] !in collected then Some(For(d)[target]) else None
    }

    /** `add(target, wrapper, d)`: the two map writes. */
    function Add(target: JsObject, wrapper: JsObject, d: Direction): (r: CacheMaps)
      ensures target in r.For(d) && r.For(d)[target] == wrapper
      ensures wrapper in r.For(Flip(d)) && r.For(Flip(d))[wrapper] == target
    {
      var m := if d == Dry then this.(dryMap := dryMap[target := wrapper])
               else this.(wetMap := wetMap[target := wrapper]);
      if Flip(d) == Dry then m.(dryMap := m.dryMap[wrapper := target])
      else m.(wetMap := m.wetMap[wrapper := target])
    }

    /** Every entry has its reverse entry on the other map. */
    ghost predicate Paired()
    {
      (forall k :: k in dryMap ==> dryMap[k] in wetMap && wetMap[dryMap[k]] == k) &&
      (forall k :: k in wetMap ==> wetMap[k] in dryMap && dryMap[wetMap[k]] == k)
    }

    /** No entry points at a collected object. */
    ghost predicate NoDeadEntries(collected: set<JsObject>)
    {
      forall e: Direction, k: JsObject :: k in For(e) ==> For(e)[k] !in collected
    }

    /** `o` occurs in neither map, as key or as value. */
    ghost predicate Unknown(o: JsObject)
    {
      o !in dryMap && o !in wetMap && o !in dryMap.Values && o !in wetMap.Values
    }
  }

  /** After `add(t, w, d)`, with neither object collected, `get(t, d)`
      returns `w` and `get(w, flip(d))` returns `t`. */
  lemma AddThenGet(m: CacheMaps, t: JsObject, w: JsObject, d: Direction, collected: set<JsObject>)
    requires t !in collected && w !in collected
    ensures m.Add(t, w, d).Get(t, d, collected) == Some(w)
    ensures m.Add(t, w, d).Get(w, Flip(d), collected) == Some(t)
  {
    var m' := m.Add(t, w, d);
    assert m'.For(d)[t] == w by {
      if d == Dry { assert m'.dryMap[t] == w; } else { assert m'.wetMap[t] == w; }
    }
  }

  /** Adding a new wrapper after a miss keeps every lookup that hit before:
      the identity of a wrapper, once handed out, does not change. */
  lemma AddKeepsHits(m: CacheMaps, t: JsObject, w: JsObject, d: Direction, collected: set<JsObject>,
                     k: JsObject, e: Direction)
    requires m.Get(t, d, collected) == None
    requires m.Unknown(w)
    requires m.Get(k, e, collected).Some?
    ensures m.Add(t, w, d).Get(k, e, collected) == m.Get(k, e, collected)
  {
    assert k != w;
    assert !(k == t && e == d);
  }

  /** A fresh wrapper for a target that has no entry on its direction keeps
      every entry paired with its reverse. */
  lemma AddKeepsPaired(m: CacheMaps, t: JsObject, w: JsObject, d: Direction)
    requires m.Paired()
    requires t !in m.For(d)
    requires m.Unknown(w) && w != t
    ensures m.Add(t, w, d).Paired()
  {
    var m' := m.Add(t, w, d);
    assert m'.For(d) == m.For(d)[t := w];
    assert m'.For(Flip(d)) == m.For(Flip(d))[w := t];
    forall e: Direction, k: JsObject | k in m'.For(e)
      ensures m'.For(e)[k] in m'.For(Flip(e)) && m'.For(Flip(e))[m'.For(e)[k]] == k
    {
      FlipInvolution(e);
      if e == d {
        if k != t {
          assert m.For(e)[k] != w;
        }
      } else {
        assert e == Flip(d);
        if k != w {
          assert k in m.For(e);
          assert m.For(e)[k] != w;
          // otherwise the reverse entry would make t a key on direction d
          assert m.For(e)[k] != t;
        }
      }
    }
  }

  /** `after` still answers every lookup that hit in `before` with the
      same object. */
  ghost predicate Extends(before: CacheMaps, after: CacheMaps, collected: set<JsObject>)
  {
    forall e: Direction, k: JsObject :: k in before.For(e) && before.For(e)[k] !in collected ==>
      after.Get(k, e, collected) == before.Get(k, e, collected)
  }

  /** A miss followed by `add` of an unknown wrapper extends the cache. */
  lemma AddExtends(m: CacheMaps, t: JsObject, w: JsObject, d: Direction, collected: set<JsObject>)
    requires m.Get(t, d, collected) == None
    requires m.Unknown(w)
    ensures Extends(m, m.Add(t, w, d), collected)
  {
    forall e: Direction, k: JsObject | k in m.For(e) && m.For(e)[k] !in collected
      ensures m.Add(t, w, d).Get(k, e, collected) == m.Get(k, e, collected)
    {
      AddKeepsHits(m, t, w, d, collected, k, e);
    }
  }

  /** With no dead entries a miss means the target has no entry at all, so
      adding a live, unknown wrapper keeps the cache paired and live. */
  lemma AddKeepsPairedLive(m: CacheMaps, t: JsObject, w: JsObject, d: Direction, collected: set<JsObject>)
    requires m.Paired() && m.NoDeadEntries(collected)
    requires m.Get(t, d, collected) == None
    requires m.Unknown(w) && w != t
    requires t !in collected && w !in collected
    ensures m.Add(t, w, d).Paired() && m.Add(t, w, d).NoDeadEntries(collected)
  {
    AddKeepsPaired(m, t, w, d);
    var m' := m.Add(t, w, d);
    assert m'.For(d) == m.For(d)[t := w];
    assert m'.For(Flip(d)) == m.For(Flip(d))[w := t];
    forall e: Direction, k: JsObject | k in m'.For(e)
      ensures m'.For(e)[k] !in collected
    {
      if e != d {
        assert e == Flip(d);
      }
    }
  }

  /** Everything a cache miss followed by `add(t, w, d)` of a live, unknown
      wrapper guarantees about the identity cache. */
  lemma MissThenAdd(m: CacheMaps, t: JsObject, w: JsObject, d: Direction, collected: set<JsObject>)
    requires m.Get(t, d, collected) == None
    requires m.Unknown(w) && w != t
    requires t !in collected && w !in collected
    ensures m.Add(t, w, d).Get(t, d, collected) == Some(w)
    ensures m.Add(t, w, d).Get(w, Flip(d), collected) == Some(t)
    ensures Extends(m, m.Add(t, w, d), collected)
    ensures m.Paired() && m.NoDeadEntries(collected) ==>
              m.Add(t, w, d).Paired() && m.Add(t, w, d).NoDeadEntries(collected)
  {
    AddThenGet(m, t, w, d, collected);
    AddExtends(m, t, w, d, collected);
    if m.Paired() && m.NoDeadEntries(collected) {
      AddKeepsPairedLive(m, t, w, d, collected);
    }
  }

  /** `r` is what wrapping `v` in direction `d` hands out with cache `m`:
      the primitive itself, or the object the cache holds for `v` on `d`. */
  ghost predicate Represents(m: CacheMaps, v: Value, d: Direction, r: Value, collected: set<JsObject>)
  {
    if IsPrimitive(v) then r == v
    else r.Ref? && m.Get(v.obj, d, collected) == Some(r.obj)
  }

  lemma ExtendsKeepsRepresents(m: CacheMaps, m': CacheMaps, v: Value, d: Direction, r: Value,
                               collected: set<JsObject>)
    requires Extends(m, m', collected) && Represents(m, v, d, r, collected)
    ensures Represents(m', v, d, r, collected)
  {
    if !IsPrimitive(v) {
      assert v.obj in m.For(d) && m.For(d)[v.obj] !in collected;
    }
  }

  lemma ExtendsTransitive(m1: CacheMaps, m2: CacheMaps, m3: CacheMaps, collected: set<JsObject>)
    requires Extends(m1, m2, collected) && Extends(m2, m3, collected)
    ensures Extends(m1, m3, collected)
  {
    forall e: Direction, k: JsObject | k in m1.For(e) && m1.For(e)[k] !in collected
      ensures m3.Get(k, e, collected) == m1.Get(k, e, collected)
    {
      assert m2.Get(k, e, collected) == m1.Get(k, e, collected);
    }
  }

  /** Each `rs[j]` is what wrapping `vs[j]` in direction `d` hands out
      with cache `m`, and is alive. */
  ghost predicate AllRepresent(m: CacheMaps, vs: seq<Value>, d: Direction, rs: seq<Value>,
                               collected: set<JsObject>)
  {
    |vs| == |rs| &&
    forall j :: 0 <= j < |vs| ==> Alive(rs[j], collected) && Represents(m, vs[j], d, rs[j], collected)
  }

  lemma ExtendsKeepsAllRepresent(m: CacheMaps, m': CacheMaps, vs: seq<Value>, d: Direction, rs: seq<Value>,
                                 collected: set<JsObject>)
    requires Extends(m, m', collected) && AllRepresent(m, vs, d, rs, collected)
    ensures AllRepresent(m', vs, d, rs, collected)
  {
    forall j | 0 <= j < |vs|
      ensures Represents(m', vs[j], d, rs[j], collected)
    {
      ExtendsKeepsRepresents(m, m', vs[j], d, rs[j], collected);
    }
  }

  /** Wrapping one more argument: the results so far stay valid in the
      grown cache, and the new result joins them. */
  lemma AllRepresentSnoc(m: CacheMaps, m': CacheMaps, vs: seq<Value>, i: nat, d: Direction, rs: seq<Value>,
                         r: Value, collected: set<JsObject>)
    requires i < |vs|
    requires Extends(m, m', collected) && AllRepresent(m, vs[..i], d, rs, collected)
    requires Alive(r, collected) && Represents(m', vs[i], d, r, collected)
    ensures AllRepresent(m', vs[..i + 1], d, rs + [r], collected)
  {
    ExtendsKeepsAllRepresent(m, m', vs[..i], d, rs, collected);
    assert vs[..i + 1] == vs[..i] + [vs[i]];
  }

  /** Values forwarded before a later `wrapper` call still stand for what
      they wrapped once the cache has grown. */
  lemma ForwardedStillRepresent(s: CacheMaps, s': CacheMaps, thisArg: Value, fThis: Value, args: seq<Value>,
                                fArgs: seq<Value>, d: Direction, collected: set<JsObject>)
    requires Extends(s, s', collected)
    requires Represents(s, thisArg, d, fThis, collected) && AllRepresent(s, args, d, fArgs, collected)
    ensures Represents(s', thisArg, d, fThis, collected) && AllRepresent(s', args, d, fArgs, collected)
  {
    ExtendsKeepsRepresents(s, s', thisArg, d, fThis, collected);
    ExtendsKeepsAllRepresent(s, s', args, d, fArgs, collected);
  }

  /** No double wrapping: when the cache is paired, handing a wrapper back
      in the flipped direction finds the target it was made for. */
  lemma PairedRoundTrip(m: CacheMaps, t: JsObject, d: Direction, collected: set<JsObject>)
    requires m.Paired()
    requires m.Get(t, d, collected).Some?
    requires t !in collected
    ensures m.Get(m.Get(t, d, collected).value, Flip(d), collected) == Some(t)
  {
  }

  class ProxyIdentityCache {
    var dryMap: map<JsObject, JsObject>
    var wetMap: map<JsObject, JsObject>

    function State(): CacheMaps
      reads this
    {
      CacheMaps(dryMap, wetMap)
    }

    constructor ()
      ensures dryMap == map[] && wetMap == map[]
    {
      dryMap := map[];
      wetMap := map[];
    }

    /** `get(target, direction)`. */
    function Get(target: JsObject, d: Direction, collected: set<JsObject>): (r: Option<JsObject>)
      reads this
      ensures r.Some? <==> target in State().For(d) && State().For(d)[target] !in collected
      ensures r.Some? ==> r.value == State().For(d)[target]
    {
      var m := if d == Dry then dryMap else wetMap;
      if target in m && m[target] !in collected then Some(m[target]) else None
    }

    /** `add(target, wrapper, direction)`. */
    method Add(target: JsObject, wrapper: JsObject, d: Direction)
      modifies this
      ensures State() == old(State()).Add(target, wrapper, d)
    {
      if d == Dry { dryMap := dryMap[target := wrapper]; } else { wetMap := wetMap[target := wrapper]; }
      if Flip(d) == Dry { dryMap := dryMap[wrapper := target]; } else { wetMap := wetMap[wrapper := target]; }
    }
  }
}
