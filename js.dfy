/** The slice of the JavaScript object model that the membranes rely on:
    values, objects and revocable proxies, the `typeof` classification,
    the two membrane sides and the completion of a forwarded operation. */
module Js {

  datatype Option<T> = None | Some(value: T)

  /** A heap object: an ordinary object, a function, or a proxy made by
      `Proxy.revocable`. `target` is the proxy's [[ProxyTarget]] (null for
      an ordinary object); `revoked` becomes true once its revoke function
      has run, after which every operation on it throws a TypeError. */
  class JsObject {
    const callable: bool
    const target: JsObject?
    var revoked: bool

    /** An object created by code on either side. */
    constructor Plain(callable: bool)
      ensures this.callable == callable && target == null && !revoked
    {
      this.callable := callable;
      this.target := null;
      this.revoked := false;
    }

    /** `Proxy.revocable(target, handler).proxy`: a proxy is callable
        exactly when its target is. */
    constructor Revocable(target: JsObject)
      ensures callable == target.callable && this.target == target && !revoked
    {
      this.callable := target.callable;
      this.target := target;
      this.revoked := false;
    }
  }

  /** A JavaScript value; numbers are kept as integers, which is all the
      membranes need (they never look inside a primitive). */
  datatype Value =
    | Undefined
    | Null
    | Bool(b: bool)
    | Num(n: int)
    | Str(s: string)
    | Sym(id: nat)
    | Ref(obj: JsObject)

  /** The result of the `typeof` operator. */
  datatype TypeTag = TUndefined | TObject | TBoolean | TNumber | TString | TSymbol | TFunction

  function TypeOf(v: Value): (t: TypeTag)
    ensures t == TObject <==> v == Null || (v.Ref? && !v.obj.callable)
    ensures t == TFunction <==> v.Ref? && v.obj.callable
  {
    match v
    case Undefined => TUndefined
    case Null => TObject
    case Bool(_) => TBoolean
    case Num(_) => TNumber
    case Str(_) => TString
    case Sym(_) => TSymbol
    case Ref(o) => if o.callable then TFunction else TObject
  }

  /** `isPrimitive`: anything that is neither an object nor a function,
      and null, whose `typeof` is "object". Exactly the values without
      identity: a primitive is never wrapped. */
  function IsPrimitive(v: Value): (r: bool)
    ensures r <==> !v.Ref?
  {
    (TypeOf(v) != TObject && TypeOf(v) != TFunction) || v == Null
  }

  /** `isObject`: a non-null object or a function. */
  function IsObject(v: Value): (r: bool)
    ensures r <==> v.Ref?
  {
    (TypeOf(v) == TObject && v != Null) || TypeOf(v) == TFunction
  }

  /** The two classifications used by the variants are exact complements,
      so `isObject(v) ? wrap(v) : v` and `isPrimitive(v) ? v : wrap(v)`
      take the same branch on every value. */
  lemma ObjectIsNotPrimitive(v: Value)
    ensures IsObject(v) <==> !IsPrimitive(v)
  {
  }

  /** `obj !== Object(obj)`: `Object(v)` returns an object unchanged and
      boxes anything else into a new object (an empty one for null and
      undefined), so the comparison is true exactly for primitives. */
  method DiffersFromObjectOf(v: Value) returns (r: bool)
    ensures r <==> IsPrimitive(v)
  {
    var boxed: Value;
    if v.Ref? {
      boxed := v;
    } else {
      var o := new JsObject.Plain(false);
      boxed := Ref(o);
    }
    r := v != boxed;
  }

  /** The side a value is moving from: "dry" or "wet". */
  datatype Direction = Dry | Wet

  /** `flipDirection`: "dry" maps to "wet" and anything else to "dry". */
  function Flip(d: Direction): (r: Direction)
    ensures r != d
    ensures r == Dry <==> d == Wet
  {
    match d
    case Dry => Wet
    case Wet => Dry
  }

  lemma FlipInvolution(d: Direction)
    ensures Flip(Flip(d)) == d
  {
  }

  /** The direction as the string the source uses. */
  function DirectionName(d: Direction): (s: string)
    ensures s == "dry" <==> d == Dry
    ensures s == "wet" <==> d == Wet
  {
    match d
    case Dry => "dry"
    case Wet => "wet"
  }

  /** What the host operation (`Reflect.get`, `Reflect.apply`, ...) did
      with the forwarded values: returned a value or threw one. */
  datatype Outcome = Returned(value: Value) | Threw(exn: Value)

  /** A value in hand is never collected: every object an operation
      receives or produces is reachable while the operation runs. */
  predicate Alive(v: Value, collected: set<JsObject>)
  {
    v.Ref? ==> v.obj !in collected
  }

  predicate AliveOutcome(o: Outcome, collected: set<JsObject>)
  {
    match o
    case Returned(v) => Alive(v, collected)
    case Threw(e) => Alive(e, collected)
  }

  /** How a forwarded operation ended: with a value, with a thrown value,
      with the engine's TypeError for an operation on a revoked proxy, or
      with the `Error("revoked")` a membrane's own handler throws. */
  datatype Completion =
    | Normal(value: Value)
    | Thrown(exn: Value)
    | RevokedProxy
    | RevokedMembrane

  /** A revoke function returned by `Proxy.revocable`; it closes over its
      proxy, so it is identified with that proxy here. */
  datatype RevokeFn = RevokeFn(proxy: JsObject)

  /** Calling a revoke function: the proxy is revoked (a second call is a
      no-op, as in the engine). */
  method Invoke(f: RevokeFn)
    modifies f.proxy
    ensures f.proxy.revoked
  {
    f.proxy.revoked := true;
  }
}
