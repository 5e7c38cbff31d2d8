/**
 The values a draft engine handles: scalars, base objects owned by the caller
 (identified by reference), and references to drafts.
 */
module Values {

  datatype Option<T> = None | Some(value: T)

  /** Property names; array indices are property names too ("0", "1", ...). */
  type Key = string

  /** Reference identity of a base object: two `Obj` values are `===` exactly when their ids agree. */
  type ObjId = nat

  /** Position of a draft in the arena of one `produce` call. */
  type DraftId = nat

  /** Primitive values. Numbers are integers: the SameValue details of floating point are not modelled. */
  datatype Prim = Undefined | Null | Bool(b: bool) | Num(n: int) | Str(s: string)

  datatype Value = Scalar(p: Prim) | Obj(id: ObjId) | DraftRef(d: DraftId)

  /** What the prototype inspection of `isProxyable` would find on an object. */
  datatype Kind = PlainRecord | PlainArray | Opaque

  /** A base object: its kind and its own enumerable properties. */
  datatype BaseNode = BaseNode(kind: Kind, entries: map<Key, Value>)

  /** The caller's immutable object graph. It may share sub-objects and may even be cyclic. */
  type Store = map<ObjId, BaseNode>

  /** A value that can occur inside a base object: never a draft, and every object it names exists. */
  predicate StoreValue(store: Store, v: Value)
  {
    match v
    case Scalar(_) => true
    case Obj(id) => id in store
    case DraftRef(_) => false
  }

  ghost predicate StoreOk(store: Store)
  {
    forall id, k | id in store && k in store[id].entries :: StoreValue(store, store[id].entries[k])
  }

  /** `m[key]` in JavaScript: an absent own property reads as `undefined`. */
  function Lookup(m: map<Key, Value>, key: Key): Value
  {
    if key in m then m[key] else Scalar(Undefined)
  }

  /**
   `isProxyable`: falsy values and non-objects are not; plain records and arrays are.
   A draft is, too: its proxy stands over the plain state record, whose prototype is
   `Object.prototype`.
   */
  predicate IsProxyable(store: Store, v: Value): (b: bool)
    ensures v.Scalar? ==> !b
    ensures v.Obj? ==> (b <==> v.id in store && store[v.id].kind in {PlainRecord, PlainArray})
    ensures v.DraftRef? ==> b
  {
    match v
    case Scalar(_) => false
    case Obj(id) => id in store && store[id].kind != Opaque
    case DraftRef(_) => true
  }

  /** `is`: SameValue, which on these values is identity. */
  predicate Is(x: Value, y: Value): (b: bool)
    ensures x.Obj? && y.Obj? ==> (b <==> x.id == y.id)
    ensures x.Scalar? && y.Scalar? ==> (b <==> x.p == y.p)
    ensures x.DraftRef? && y.DraftRef? ==> (b <==> x.d == y.d)
    ensures (x.Scalar? != y.Scalar? || x.Obj? != y.Obj?) ==> !b
  {
    x == y
  }

  /**
   `has`: own-property test. Unlike a read, it tells a key that holds `undefined` from
   a key that is not there.
   */
  predicate Has(m: map<Key, Value>, key: Key): (b: bool)
    ensures b <==> key in m.Keys
    ensures b ==> Lookup(m, key) == m[key]
    ensures !b ==> Lookup(m, key) == Scalar(Undefined)
  {
    key in m
  }

  /** `isProxy`: only a draft answers the state marker with its state; scalars and base objects do not. */
  predicate IsProxy(v: Value): (b: bool)
    ensures v.Scalar? ==> !b
    ensures v.Obj? ==> !b
    ensures v.DraftRef? ==> b
  {
    v.DraftRef?
  }

  /**
   A value found in a base object is never a draft, so the `!isProxy(value)` test of the
   `get` trap always passes on it, and it is proxyable exactly when it is a plain record
   or array.
   */
  lemma ProxyableBaseValue(store: Store, v: Value)
    requires StoreValue(store, v)
    ensures !IsProxy(v)
    ensures IsProxyable(store, v) <==> v.Obj? && store[v.id].kind != Opaque
  {
  }
}
