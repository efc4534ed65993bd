/** The handler of solutions/8-preserve-identity: one meta-handler (a
    proxy whose `get` returns the trap asked for) serves every trap of a
    proxy made by `wrapper`. "get" wraps the value read in the proxy's
    direction; "apply" wraps `this` and the arguments in the flipped
    direction and the result in the proxy's direction; every other trap
    wraps all its arguments flipped and its result in the proxy's
    direction. `handleErrors` catches what the host throws and throws
    `wrapper(direction, e)` instead: with the arguments in that order the
    thing wrapped is the direction string, a primitive, so the thrown
    value is "wet" or "dry" and the error itself is dropped.

    The host operation (`Reflect.get`, `Reflect.apply`, `Reflect[name]`)
    is an input `raw`: what it did when given the forwarded values the
    trap returns. An operation on a revoked proxy throws the engine's
    TypeError before any trap runs. */
module MetaHandler8 {
  import opened Js
  import opened IdentityCache
  import opened PreserveIdentity

  /** The value `handleErrors` throws for a caught `e`, as written:
      `wrapper(direction, e)` returns its primitive first argument. */
  function Rethrown(d: Direction, e: Value): (thrown: Value)
    ensures IsPrimitive(thrown) && thrown.Str?
    ensures thrown.s == "wet" <==> d == Wet
  {
    Str(DirectionName(d))
  }

  /** The error is lost: two different host errors, in particular two
      different error objects, are rethrown as the same string, and an
      error object is never rethrown as itself or as a proxy of it. */
  lemma RethrownLosesError(d: Direction, e1: Value, e2: Value)
    ensures Rethrown(d, e1) == Rethrown(d, e2)
    ensures e1.Ref? ==> Rethrown(d, e1) != e1 && !Rethrown(d, e1).Ref?
  {
  }

  /** `c` is what `handleErrors(body)` completes with when the host
      operation in `body` ended with `raw`, with the identity cache `s`
      after the call: the result wrapped in direction `d`, or the rethrown
      value. */
  ghost predicate Settled(s: CacheMaps, d: Direction, raw: Outcome, c: Completion, collected: set<JsObject>)
  {
    match raw
    case Returned(v) => c.Normal? && Represents(s, v, d, c.value, collected)
    case Threw(e) => c == Thrown(Rethrown(d, e))
  }

  /** The completion part shared by every trap: `handleErrors` around
      `wrapper(<host result>, direction)`. */
  method Settle(m: Membrane, d: Direction, raw: Outcome, collected: set<JsObject>) returns (c: Completion)
    requires m.Valid() && m.TargetsHeld(collected) && AliveOutcome(raw, collected)
    modifies m`handlers, m`unrevoked, m.identity, m.revokes
    ensures m.Valid() && m.TargetsHeld(collected)
    ensures Settled(m.identity.State(), d, raw, c, collected)
    ensures Grows(old(m.identity.State()), old(m.handlers), m.identity.State(), m.handlers, collected)
  {
    match raw {
      case Returned(v) =>
        var r := m.Wrapper(v, d, collected);
        c := Normal(r);
      case Threw(e) =>
        c := Thrown(Rethrown(d, e));
    }
  }

  /** The "get" case: `wrapper(Reflect.get(target, name), direction)`. */
  method GetTrap(m: Membrane, p: JsObject, raw: Outcome, collected: set<JsObject>) returns (c: Completion)
    requires m.Valid() && m.TargetsHeld(collected) && p in m.handlers
    requires AliveOutcome(raw, collected)
    modifies m`handlers, m`unrevoked, m.identity, m.revokes
    ensures m.Valid() && m.TargetsHeld(collected)
    ensures old(p.revoked) ==> c == RevokedProxy && unchanged(m, m.identity, m.revokes)
    ensures !old(p.revoked) ==> Settled(m.identity.State(), old(m.handlers[p]).direction, raw, c, collected)
    ensures Grows(old(m.identity.State()), old(m.handlers), m.identity.State(), m.handlers, collected)
  {
    if p.revoked {
      return RevokedProxy;
    }
    var d := m.handlers[p].direction;
    c := Settle(m, d, raw, collected);
  }

  /** The "apply" case: `this` and every argument wrapped in the flipped
      direction, then the result wrapped in the proxy's direction. */
  method ApplyTrap(m: Membrane, p: JsObject, thisArg: Value, args: seq<Value>, raw: Outcome,
                   collected: set<JsObject>)
    returns (forwardedThis: Value, forwardedArgs: seq<Value>, c: Completion)
    requires m.Valid() && m.TargetsHeld(collected) && p in m.handlers
    requires Alive(thisArg, collected) && forall i :: 0 <= i < |args| ==> Alive(args[i], collected)
    requires AliveOutcome(raw, collected)
    modifies m`handlers, m`unrevoked, m.identity, m.revokes
    ensures m.Valid() && m.TargetsHeld(collected)
    ensures old(p.revoked) ==> c == RevokedProxy && unchanged(m, m.identity, m.revokes)
    ensures !old(p.revoked) ==>
              Represents(m.identity.State(), thisArg, Flip(old(m.handlers[p]).direction), forwardedThis, collected)
              && AllRepresent(m.identity.State(), args, Flip(old(m.handlers[p]).direction), forwardedArgs, collected)
              && Settled(m.identity.State(), old(m.handlers[p]).direction, raw, c, collected)
    ensures Grows(old(m.identity.State()), old(m.handlers), m.identity.State(), m.handlers, collected)
  {
    if p.revoked {
      return Undefined, [], RevokedProxy;
    }
    var d := m.handlers[p].direction;
    ghost var s0, h0 := m.identity.State(), m.handlers;
    forwardedThis, forwardedArgs := m.WrapCall(thisArg, args, Flip(d), collected);
    ghost var s1, h1 := m.identity.State(), m.handlers;
    c := Settle(m, d, raw, collected);
    ForwardedStillRepresent(s1, m.identity.State(), thisArg, forwardedThis, args, forwardedArgs, Flip(d), collected);
    GrowsTransitive(s0, h0, s1, h1, m.identity.State(), m.handlers, collected);
  }

  /** Every other trap (`set`, `has`, `construct`, `getPrototypeOf`, ...):
      `wrapper(Reflect[name](target, ...args.map(wrap flipped)), direction)`. */
  method DefaultTrap(m: Membrane, p: JsObject, args: seq<Value>, raw: Outcome, collected: set<JsObject>)
    returns (forwardedArgs: seq<Value>, c: Completion)
    requires m.Valid() && m.TargetsHeld(collected) && p in m.handlers
    requires forall i :: 0 <= i < |args| ==> Alive(args[i], collected)
    requires AliveOutcome(raw, collected)
    modifies m`handlers, m`unrevoked, m.identity, m.revokes
    ensures m.Valid() && m.TargetsHeld(collected)
    ensures old(p.revoked) ==> c == RevokedProxy && unchanged(m, m.identity, m.revokes)
    ensures !old(p.revoked) ==>
              AllRepresent(m.identity.State(), args, Flip(old(m.handlers[p]).direction), forwardedArgs, collected)
              && Settled(m.identity.State(), old(m.handlers[p]).direction, raw, c, collected)
    ensures Grows(old(m.identity.State()), old(m.handlers), m.identity.State(), m.handlers, collected)
  {
    if p.revoked {
      return [], RevokedProxy;
    }
    var d := m.handlers[p].direction;
    ghost var s0, h0 := m.identity.State(), m.handlers;
    forwardedArgs := m.WrapAll(args, Flip(d), collected);
    ghost var s1, h1 := m.identity.State(), m.handlers;
    c := Settle(m, d, raw, collected);
    ExtendsKeepsAllRepresent(s1, m.identity.State(), args, Flip(d), forwardedArgs, collected);
    GrowsTransitive(s0, h0, s1, h1, m.identity.State(), m.handlers, collected);
  }

  /** What `handleErrors` evidently meant to throw: `wrapper(e, direction)`,
      the host error wrapped in the proxy's direction like any other value
      that comes out of the target. */
  method RethrowWrapped(m: Membrane, p: JsObject, e: Value, collected: set<JsObject>) returns (thrown: Value)
    requires m.Valid() && m.TargetsHeld(collected) && p in m.handlers
    requires Alive(e, collected)
    modifies m`handlers, m`unrevoked, m.identity, m.revokes
    ensures m.Valid() && m.TargetsHeld(collected)
    ensures m.Represents(e, old(m.handlers[p]).direction, thrown, collected)
    ensures IsPrimitive(e) ==> thrown == e
  {
    thrown := m.Wrapper(e, m.handlers[p].direction, collected);
  }
}
