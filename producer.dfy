/**
 `produce`: wrap the base in a root draft, let the producer read and write through it,
 and finalise the root. The producer routine is modelled as a script of property reads
 and writes, each reaching its target through a path of drafts from the root.
 */
module Producer {
  import opened Values
  import opened DraftTree
  import opened Finalizer

  /** `draft.p1...pn[key]` read, or `draft.p1...pn[key] = value` written. */
  datatype Op = Load(path: seq<Key>, key: Key) | Assign(path: seq<Key>, key: Key, value: Value)

  /** A producer can only write values it holds: scalars and objects of the caller's graph. */
  ghost predicate ScriptOk(store: Store, producer: seq<Op>)
  {
    forall op | op in producer :: op.Assign? ==> StoreValue(store, op.value)
  }

  /**
   Where a path of reads ends: the draft it leads to, or None once a step yields a value
   that is not a draft; with the arena its `get`s leave behind either way.
   */
  datatype Reached = Reached(drafts: seq<State>, at: Option<DraftId>)

  /**
   Following a path by successive `get`s. Once a step yields something other than a draft,
   the rest of the path reads that value's own properties, which no trap sees.
   */
  function Walk(store: Store, ds: seq<State>, d: DraftId, path: seq<Key>): (r: Reached)
    requires Shape(store, ds) && d < |ds|
    ensures Shape(store, r.drafts) && Extends(ds, r.drafts)
    ensures r.at.Some? ==> r.at.value < |r.drafts|
    decreases |path|
  {
    if path == [] then Reached(ds, Some(d))
    else
      var g := Get(store, ds, d, path[0]);
      if IsProxy(g.value) then Walk(store, g.drafts, g.value.d, path[1..]) else Reached(g.drafts, None)
  }

  /** One producer step at the draft `at` its path reached. */
  function Step(store: Store, ds: seq<State>, at: DraftId, op: Op): (r: seq<State>)
    requires Shape(store, ds) && at < |ds|
    requires op.Assign? ==> StoreValue(store, op.value)
    ensures Shape(store, r) && Extends(ds, r)
  {
    match op
    case Load(_, key) => Get(store, ds, at, key).drafts
    case Assign(_, key, v) => Set(store, ds, at, key, v)
  }

  /**
   The arena after the whole producer has run. A read whose path leaves the drafts changes
   nothing more; a write through a value that is not a draft would write outside the drafts
   (or throw), and the run gives None.
   */
  function Run(store: Store, ds: seq<State>, producer: seq<Op>): (r: Option<seq<State>>)
    requires Shape(store, ds) && 0 < |ds| && ScriptOk(store, producer)
    ensures r.Some? ==> Shape(store, r.value) && Extends(ds, r.value)
    decreases |producer|
  {
    if producer == [] then Some(ds)
    else
      var w := Walk(store, ds, 0, producer[0].path);
      assert producer[0] in producer;
      match w.at
      case Some(at) => Run(store, Step(store, w.drafts, at, producer[0]), producer[1..])
      case None => if producer[0].Load? then Run(store, w.drafts, producer[1..]) else None
  }

  /** The arena of a fresh `produce` call: the root draft over `base`. */
  function Root(base: ObjId): seq<State>
  {
    [CreateState(None, base)]
  }

  /** `produce(baseState, producer)`. */
  function Produce(store: Store, base: ObjId, producer: seq<Op>): (r: Option<Output>)
    requires StoreOk(store) && base in store && ScriptOk(store, producer)
    ensures r.Some? ==> Detached(r.value)
  {
    assert StateOk(store, 1, 0, Root(base)[0]);
    match Run(store, Root(base), producer)
    case None => None
    case Some(ds) => Some(Finalize(store, ds, 0))
  }

  /** Every write of the producer, at the moment it is made, passes the no-op test of `set`. */
  ghost predicate AllWritesNoOp(store: Store, ds: seq<State>, producer: seq<Op>)
    requires Shape(store, ds) && 0 < |ds| && ScriptOk(store, producer)
    decreases |producer|
  {
    producer == [] ||
    var w := Walk(store, ds, 0, producer[0].path);
    assert producer[0] in producer;
    match w.at
    case None => producer[0].Assign? || AllWritesNoOp(store, w.drafts, producer[1..])
    case Some(at) =>
      assert StateOk(store, |w.drafts|, at, w.drafts[at]);
      && (producer[0].Assign? ==> IsNoOp(store, w.drafts, at, producer[0].key, producer[0].value))
      && AllWritesNoOp(store, Step(store, w.drafts, at, producer[0]), producer[1..])
  }

  /** Following a path keeps the chain invariant and changes no `modified` flag. */
  lemma {:induction false} WalkWf(store: Store, ds: seq<State>, d: DraftId, path: seq<Key>)
    requires Wf(store, ds) && d < |ds|
    ensures var w := Walk(store, ds, d, path);
      Wf(store, w.drafts) && forall i | 0 <= i < |ds| :: w.drafts[i].modified == ds[i].modified
    decreases |path|
  {
    if path != [] {
      var g := Get(store, ds, d, path[0]);
      GetWf(store, ds, d, path[0]);
      if IsProxy(g.value) {
        WalkWf(store, g.drafts, g.value.d, path[1..]);
      }
    }
  }

  /** The root ends modified exactly when it started so or some write was not a no-op. */
  lemma {:induction false} RunRootFlag(store: Store, ds: seq<State>, producer: seq<Op>)
    requires Wf(store, ds) && 0 < |ds| && ScriptOk(store, producer)
    requires Run(store, ds, producer).Some?
    ensures Wf(store, Run(store, ds, producer).value)
    ensures Run(store, ds, producer).value[0].modified <==> ds[0].modified || !AllWritesNoOp(store, ds, producer)
    decreases |producer|
  {
    if producer != [] {
      var op := producer[0];
      assert op in producer;
      var w := Walk(store, ds, 0, op.path);
      WalkWf(store, ds, 0, op.path);
      match w.at {
        case None =>
          RunRootFlag(store, w.drafts, producer[1..]);
        case Some(at) =>
          var ds1 := Step(store, w.drafts, at, op);
          match op {
            case Load(_, key) =>
              GetWf(store, w.drafts, at, key);
            case Assign(_, key, v) =>
              SetWf(store, w.drafts, at, key, v);
              if !IsNoOp(store, w.drafts, at, key, v) {
                SetEffective(store, w.drafts, at, key, v);
                ModifiedReachesRoot(store, ds1, at);
              }
          }
          RunRootFlag(store, ds1, producer[1..]);
      }
    }
  }

  /**
   `produce` returns `baseState` itself exactly when every write of the producer was a
   no-op; otherwise it returns a freshly built record.
   */
  lemma ProduceIdentity(store: Store, base: ObjId, producer: seq<Op>)
    requires StoreOk(store) && base in store && ScriptOk(store, producer)
    requires Produce(store, base, producer).Some?
    ensures Produce(store, base, producer).value == Plain(Obj(base)) <==> AllWritesNoOp(store, Root(base), producer)
    ensures !AllWritesNoOp(store, Root(base), producer) ==> Produce(store, base, producer).value.Record?
  {
    assert StateOk(store, 1, 0, Root(base)[0]);
    RunRootFlag(store, Root(base), producer);
  }
}
