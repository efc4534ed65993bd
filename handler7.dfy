/** The handler of solutions/7-preserve-identity: an object literal with
    two traps. "get" wraps the value read in the proxy's direction;
    "apply" wraps `this` and the arguments in the flipped direction and the
    result in the proxy's direction. Nothing catches what the host throws,
    so an error leaves the trap as it is, unwrapped. The membrane state and
    `wrapper` are the ones of module PreserveIdentity.

    The host operation (`Reflect.get`, `Reflect.apply`) is an input `raw`:
    what it did when given the forwarded values the trap returns. An
    operation on a revoked proxy throws the engine's TypeError before any
    trap runs. */
module Handler7 {
  import opened Js
  import opened IdentityCache
  import opened PreserveIdentity

  /** `c` is how the trap completes when the host operation ended with
      `raw`, with the identity cache `s` afterwards: the result wrapped in
      direction `d`, or the host's error thrown through unchanged. */
  ghost predicate Settled(s: CacheMaps, d: Direction, raw: Outcome, c: Completion, collected: set<JsObject>)
  {
    match raw
    case Returned(v) => c.Normal? && Represents(s, v, d, c.value, collected)
    case Threw(e) => c == Thrown(e)
  }

  /** `wrapper(<host result>, direction)`; a host error propagates. */
  method Settle(m: Membrane, d: Direction, raw: Outcome, collected: set<JsObject>) returns (c: Completion)
    requires m.Valid() && m.TargetsHeld(collected) && AliveOutcome(raw, collected)
    modifies m`handlers, m`unrevoked, m.identity, m.revokes
    ensures m.Valid() && m.TargetsHeld(collected)
    ensures Settled(m.identity.State(), d, raw, c, collected)
    ensures Grows(old(m.identity.State()), old(m.handlers), m.identity.State(), m.handlers, collected)
  {
    match raw {
      case Returned(v) =>
        var r := m.Wrapper(v, d, collected);
        c := Normal(r);
      case Threw(e) =>
        c := Thrown(e);
    }
  }

  /** The "get" trap: `wrapper(Reflect.get(target, name), direction)`. */
  method GetTrap(m: Membrane, p: JsObject, raw: Outcome, collected: set<JsObject>) returns (c: Completion)
    requires m.Valid() && m.TargetsHeld(collected) && p in m.handlers
    requires AliveOutcome(raw, collected)
    modifies m`handlers, m`unrevoked, m.identity, m.revokes
    ensures m.Valid() && m.TargetsHeld(collected)
    ensures old(p.revoked) ==> c == RevokedProxy && unchanged(m, m.identity, m.revokes)
    ensures !old(p.revoked) ==> Settled(m.identity.State(), old(m.handlers[p]).direction, raw, c, collected)
    ensures Grows(old(m.identity.State()), old(m.handlers), m.identity.State(), m.handlers, collected)
  {
    if p.revoked {
      return RevokedProxy;
    }
    var d := m.handlers[p].direction;
    c := Settle(m, d, raw, collected);
  }

  /** The "apply" trap: `this` and every argument wrapped in the flipped
      direction, then the result wrapped in the proxy's direction. */
  method ApplyTrap(m: Membrane, p: JsObject, thisArg: Value, args: seq<Value>, raw: Outcome,
                   collected: set<JsObject>)
    returns (forwardedThis: Value, forwardedArgs: seq<Value>, c: Completion)
    requires m.Valid() && m.TargetsHeld(collected) && p in m.handlers
    requires Alive(thisArg, collected) && forall i :: 0 <= i < |args| ==> Alive(args[i], collected)
    requires AliveOutcome(raw, collected)
    modifies m`handlers, m`unrevoked, m.identity, m.revokes
    ensures m.Valid() && m.TargetsHeld(collected)
    ensures old(p.revoked) ==> c == RevokedProxy && unchanged(m, m.identity, m.revokes)
    ensures !old(p.revoked) ==>
              Represents(m.identity.State(), thisArg, Flip(old(m.handlers[p]).direction), forwardedThis, collected)
              && AllRepresent(m.identity.State(), args, Flip(old(m.handlers[p]).direction), forwardedArgs, collected)
              && Settled(m.identity.State(), old(m.handlers[p]).direction, raw, c, collected)
    ensures Grows(old(m.identity.State()), old(m.handlers), m.identity.State(), m.handlers, collected)
  {
    if p.revoked {
      return Undefined, [], RevokedProxy;
    }
    var d := m.handlers[p].direction;
    ghost var s0, h0 := m.identity.State(), m.handlers;
    forwardedThis, forwardedArgs := m.WrapCall(thisArg, args, Flip(d), collected);
    ghost var s1, h1 := m.identity.State(), m.handlers;
    c := Settle(m, d, raw, collected);
    ForwardedStillRepresent(s1, m.identity.State(), thisArg, forwardedThis, args, forwardedArgs, Flip(d), collected);
    GrowsTransitive(s0, h0, s1, h1, m.identity.State(), m.handlers, collected);
  }
}
