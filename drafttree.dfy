/**
 The draft tree manager of one `produce` call, stated on values: the arena of draft
 states and what the `get` trap, the `set` trap and `markChanged` do to it.
 The imperative `Engine.Session` is proved to do exactly this.
 */
module DraftTree {
  import opened Values

  /** The bookkeeping record of one draft, with the fields of `createState`. */
  datatype State = State(
    modified: bool,
    parent: Option<DraftId>,
    base: ObjId,
    copy: map<Key, Value>,
    proxies: map<Key, Value>)

  /** `createState(parent, base)`: unmodified, with empty `copy` and `proxies`. */
  function CreateState(parent: Option<DraftId>, base: ObjId): (s: State)
    ensures !s.modified && s.copy == map[] && s.proxies == map[]
    ensures s.parent == parent && s.base == base
  {
    State(false, parent, base, map[], map[])
  }

  /**
   `v` may be held by draft `i` of an arena of `n` drafts: an object that exists,
   or a draft allocated after `i`.
   */
  predicate ValueIn(store: Store, n: nat, i: DraftId, v: Value)
  {
    match v
    case Scalar(_) => true
    case Obj(id) => id in store
    case DraftRef(j) => i < j < n
  }

  /** Well-formedness of draft `i` in an arena of `n` drafts. */
  ghost predicate StateOk(store: Store, n: nat, i: DraftId, s: State)
  {
    && s.base in store
    && (if i == 0 then s.parent == None else s.parent.Some? && s.parent.value < i)
    && (!s.modified ==> s.copy == map[])
    && (forall k | k in s.copy :: ValueIn(store, n, i, s.copy[k]))
    && (forall k | k in s.proxies :: s.proxies[k].DraftRef? && ValueIn(store, n, i, s.proxies[k]))
  }

  ghost predicate Shape(store: Store, ds: seq<State>)
  {
    && StoreOk(store)
    && forall i | 0 <= i < |ds| :: StateOk(store, |ds|, i, ds[i])
  }

  /** A modified draft has a modified parent. */
  ghost predicate ChainOk(ds: seq<State>, i: nat)
    requires i < |ds|
  {
    ds[i].modified && ds[i].parent.Some? && ds[i].parent.value < |ds| ==> ds[ds[i].parent.value].modified
  }

  ghost predicate Upward(ds: seq<State>)
  {
    forall i | 0 <= i < |ds| :: ChainOk(ds, i)
  }

  /** Upward, except possibly for the links from the children of `d` to `d`. */
  ghost predicate UpwardExcept(ds: seq<State>, d: DraftId)
  {
    forall i | 0 <= i < |ds| && ds[i].parent != Some(d) :: ChainOk(ds, i)
  }

  /** Upward for the drafts allocated no later than `d`. */
  ghost predicate UpwardUpTo(ds: seq<State>, d: DraftId)
  {
    forall i | 0 <= i <= d && i < |ds| :: ChainOk(ds, i)
  }

  ghost predicate Wf(store: Store, ds: seq<State>)
  {
    Shape(store, ds) && Upward(ds)
  }

  /**
   What every operation keeps: the arena only grows, no draft changes the base it
   wraps or its parent, and `modified` is never reset.
   */
  ghost predicate Extends(ds: seq<State>, r: seq<State>)
  {
    && |ds| <= |r|
    && forall i | 0 <= i < |ds| ::
         && r[i].base == ds[i].base
         && r[i].parent == ds[i].parent
         && (ds[i].modified ==> r[i].modified)
  }

  /** `a` is `d` or an ancestor of `d`. */
  ghost predicate IsAncestor(ds: seq<State>, a: DraftId, d: DraftId)
    requires d < |ds|
    decreases d
  {
    a == d || (ds[d].parent.Some? && ds[d].parent.value < d && IsAncestor(ds, a, ds[d].parent.value))
  }

  /** The shallow copy `{ ...base }` overlaid with `Object.assign(copy, proxies)`. */
  function Materialize(entries: map<Key, Value>, proxies: map<Key, Value>): (c: map<Key, Value>)
    ensures c.Keys == entries.Keys + proxies.Keys
    ensures forall k | k in c :: c[k] == if k in proxies then proxies[k] else entries[k]
  {
    entries + proxies
  }

  /** A draft as `markChanged` leaves it when it was unmodified. */
  function Marked(store: Store, s: State): State
    requires s.base in store
  {
    s.(modified := true, copy := Materialize(store[s.base].entries, s.proxies))
  }

  lemma MarkedShape(store: Store, ds: seq<State>, d: DraftId)
    requires Shape(store, ds) && d < |ds| && !ds[d].modified
    ensures Shape(store, ds[d := Marked(store, ds[d])])
  {
    var s := Marked(store, ds[d]);
    assert StateOk(store, |ds|, d, ds[d]);
    forall k | k in s.copy
      ensures ValueIn(store, |ds|, d, s.copy[k])
    {
      if k !in ds[d].proxies {
        assert StoreValue(store, store[ds[d].base].entries[k]);
      }
    }
    assert StateOk(store, |ds|, d, s);
  }

  /**
   `markChanged(d)`: an unmodified draft becomes modified, gets its copy materialised,
   and the parent is marked in turn; a modified draft stops the walk.
   */
  function MarkChanged(store: Store, ds: seq<State>, d: DraftId): (r: seq<State>)
    requires Shape(store, ds) && d < |ds|
    ensures |r| == |ds| && Shape(store, r) && Extends(ds, r)
    ensures r[d].modified
    ensures forall i | 0 <= i < |ds| && ds[i].modified :: r[i] == ds[i]
    ensures forall i | 0 <= i < |ds| :: r[i].proxies == ds[i].proxies
    decreases d
  {
    var s := ds[d];
    if s.modified then ds
    else
      var ds1 := ds[d := Marked(store, s)];
      MarkedShape(store, ds, d);
      if s.parent.Some? then MarkChanged(store, ds1, s.parent.value) else ds1
  }

  /** The drafts of the chain of `d` are modified once `d` is, if `d` and its ancestors keep the chain invariant. */
  lemma {:induction false} AncestorsModified(store: Store, ds: seq<State>, d: DraftId)
    requires Shape(store, ds) && d < |ds| && UpwardUpTo(ds, d) && ds[d].modified
    ensures forall a: DraftId | a <= d && IsAncestor(ds, a, d) :: ds[a].modified
    decreases d
  {
    if ds[d].parent.Some? {
      var p := ds[d].parent.value;
      assert StateOk(store, |ds|, d, ds[d]);
      assert ChainOk(ds, d);
      AncestorsModified(store, ds, p);
      forall a: DraftId | a <= d && IsAncestor(ds, a, d)
        ensures ds[a].modified
      {
        if a != d {
          AncestorIsNotLater(ds, a, p);
        }
      }
    }
  }

  /** Ancestors depend only on the parent links. */
  lemma {:induction false} AncestorsByParents(ds: seq<State>, ds': seq<State>, a: DraftId, d: DraftId)
    requires d < |ds| == |ds'|
    requires forall i | 0 <= i < |ds| :: ds'[i].parent == ds[i].parent
    ensures IsAncestor(ds, a, d) <==> IsAncestor(ds', a, d)
    decreases d
  {
    if ds[d].parent.Some? && ds[d].parent.value < d {
      AncestorsByParents(ds, ds', a, ds[d].parent.value);
    }
  }

  lemma {:induction false} AncestorIsNotLater(ds: seq<State>, a: DraftId, d: DraftId)
    requires d < |ds| && IsAncestor(ds, a, d)
    ensures a <= d
    decreases d
  {
    if a != d {
      AncestorIsNotLater(ds, a, ds[d].parent.value);
    }
  }

  /**
   The effect of `markChanged(d)` in full: exactly the unmodified drafts on the chain
   of `d` are marked, and every other draft is left as it was.
   */
  lemma {:induction false} MarkChangedEffect(store: Store, ds: seq<State>, d: DraftId)
    requires Shape(store, ds) && d < |ds| && UpwardUpTo(ds, d)
    ensures var r := MarkChanged(store, ds, d);
      forall i | 0 <= i < |ds| ::
        r[i] == if IsAncestor(ds, i, d) && !ds[i].modified then Marked(store, ds[i]) else ds[i]
    decreases d
  {
    var r := MarkChanged(store, ds, d);
    var s := ds[d];
    assert StateOk(store, |ds|, d, s);
    if s.modified {
      AncestorsModified(store, ds, d);
      forall i | 0 <= i < |ds| && IsAncestor(ds, i, d)
        ensures ds[i].modified
      {
        AncestorIsNotLater(ds, i, d);
      }
    } else {
      var ds1 := ds[d := Marked(store, s)];
      MarkedShape(store, ds, d);
      if s.parent.Some? {
        var p := s.parent.value;
        assert UpwardUpTo(ds1, p) by {
          forall i | 0 <= i <= p && i < |ds1|
            ensures ChainOk(ds1, i)
          {
            assert ChainOk(ds, i);
            assert StateOk(store, |ds|, i, ds[i]);
          }
        }
        MarkChangedEffect(store, ds1, p);
        forall i | 0 <= i < |ds|
          ensures r[i] == if IsAncestor(ds, i, d) && !ds[i].modified then Marked(store, ds[i]) else ds[i]
        {
          AncestorsByParents(ds, ds1, i, p);
          if i == d {
            if IsAncestor(ds, d, p) {
              AncestorIsNotLater(ds, d, p);
            }
          }
        }
      } else {
        forall i | 0 <= i < |ds|
          ensures r[i] == if IsAncestor(ds, i, d) && !ds[i].modified then Marked(store, ds[i]) else ds[i]
        {
        }
      }
    }
  }

  /** `markChanged` restores the chain invariant it may find broken below `d`. */
  lemma {:induction false} MarkChangedUpward(store: Store, ds: seq<State>, d: DraftId)
    requires Shape(store, ds) && d < |ds| && UpwardExcept(ds, d)
    ensures Upward(MarkChanged(store, ds, d))
    decreases d
  {
    var s := ds[d];
    assert StateOk(store, |ds|, d, s);
    if s.modified {
      forall i | 0 <= i < |ds|
        ensures ChainOk(ds, i)
      {
      }
    } else {
      var ds1 := ds[d := Marked(store, s)];
      MarkedShape(store, ds, d);
      if s.parent.Some? {
        var p := s.parent.value;
        forall i | 0 <= i < |ds1| && ds1[i].parent != Some(p)
          ensures ChainOk(ds1, i)
        {
          if ds[i].parent != Some(d) {
            assert ChainOk(ds, i);
          }
        }
        MarkChangedUpward(store, ds1, p);
      } else {
        forall i | 0 <= i < |ds1|
          ensures ChainOk(ds1, i)
        {
          if ds[i].parent != Some(d) {
            assert ChainOk(ds, i);
          }
        }
      }
    }
  }

  /** After `markChanged(d)` on a well-formed arena, `d` and all its ancestors are modified. */
  lemma MarkChangedMarksChain(store: Store, ds: seq<State>, d: DraftId)
    requires Wf(store, ds) && d < |ds|
    ensures Wf(store, MarkChanged(store, ds, d))
    ensures forall a: DraftId | a <= d && IsAncestor(ds, a, d) :: MarkChanged(store, ds, d)[a].modified
  {
    var r := MarkChanged(store, ds, d);
    MarkChangedUpward(store, ds, d);
    AncestorsModified(store, r, d);
    forall a: DraftId | a <= d && IsAncestor(ds, a, d)
      ensures r[a].modified
    {
      AncestorsByParents(ds, r, a, d);
    }
  }

  /** A second `markChanged` changes no field of any draft. */
  lemma MarkChangedIdempotent(store: Store, ds: seq<State>, d: DraftId)
    requires Shape(store, ds) && d < |ds|
    ensures MarkChanged(store, MarkChanged(store, ds, d), d) == MarkChanged(store, ds, d)
  {
  }

  /** A modified draft has a modified root. */
  lemma {:induction false} ModifiedReachesRoot(store: Store, ds: seq<State>, i: DraftId)
    requires Wf(store, ds) && i < |ds| && ds[i].modified
    ensures ds[0].modified
    decreases i
  {
    assert StateOk(store, |ds|, i, ds[i]);
    if i != 0 {
      assert ChainOk(ds, i);
      ModifiedReachesRoot(store, ds, ds[i].parent.value);
    }
  }

  // ---------------------------------------------------------------------------
  // The get trap

  /** What `get` returns, with the arena it leaves behind. */
  datatype Fetched = Fetched(drafts: seq<State>, value: Value)

  /** The arena with a fresh child of `d` over `base` appended (`createProxy(state, value)`). */
  function AddChild(ds: seq<State>, d: DraftId, base: ObjId): seq<State>
  {
    ds + [CreateState(Some(d), base)]
  }

  lemma AddChildShape(store: Store, ds: seq<State>, d: DraftId, base: ObjId)
    requires Shape(store, ds) && d < |ds| && base in store
    ensures Shape(store, AddChild(ds, d, base))
    ensures Upward(ds) ==> Upward(AddChild(ds, d, base))
  {
    var r := AddChild(ds, d, base);
    forall i | 0 <= i < |r|
      ensures StateOk(store, |r|, i, r[i])
    {
      if i < |ds| {
        assert StateOk(store, |ds|, i, ds[i]);
      }
    }
    if Upward(ds) {
      forall i | 0 <= i < |r|
        ensures ChainOk(r, i)
      {
        if i < |ds| {
          assert ChainOk(ds, i);
        }
      }
    }
  }

  /** A fresh child of a modified `d` over `base`, stored under `key` in the copy of `d`. */
  function CopyChild(ds: seq<State>, d: DraftId, key: Key, base: ObjId): seq<State>
    requires d < |ds|
  {
    AddChild(ds, d, base)[d := ds[d].(copy := ds[d].copy[key := DraftRef(|ds|)])]
  }

  /** A fresh child of an unmodified `d` over `base`, cached under `key` in the proxies of `d`. */
  function CacheChild(ds: seq<State>, d: DraftId, key: Key, base: ObjId): seq<State>
    requires d < |ds|
  {
    AddChild(ds, d, base)[d := ds[d].(proxies := ds[d].proxies[key := DraftRef(|ds|)])]
  }

  lemma CopyChildShape(store: Store, ds: seq<State>, d: DraftId, key: Key, base: ObjId)
    requires Shape(store, ds) && d < |ds| && base in store && ds[d].modified
    ensures Shape(store, CopyChild(ds, d, key, base)) && Extends(ds, CopyChild(ds, d, key, base))
  {
    AddChildShape(store, ds, d, base);
    var ds1 := AddChild(ds, d, base);
    var r := CopyChild(ds, d, key, base);
    forall i | 0 <= i < |r|
      ensures StateOk(store, |r|, i, r[i])
    {
      assert StateOk(store, |ds1|, i, ds1[i]);
    }
  }

  lemma CacheChildShape(store: Store, ds: seq<State>, d: DraftId, key: Key, base: ObjId)
    requires Shape(store, ds) && d < |ds| && base in store
    ensures Shape(store, CacheChild(ds, d, key, base)) && Extends(ds, CacheChild(ds, d, key, base))
  {
    AddChildShape(store, ds, d, base);
    var ds1 := AddChild(ds, d, base);
    var r := CacheChild(ds, d, key, base);
    forall i | 0 <= i < |r|
      ensures StateOk(store, |r|, i, r[i])
    {
      assert StateOk(store, |ds1|, i, ds1[i]);
    }
  }

  /**
   The `get` trap. On a modified draft it reads `copy`, and wraps an entry still identical
   to the base entry into a fresh child stored back into `copy`. On an unmodified draft it
   returns a cached child, or wraps a plain base entry into a fresh child cached in
   `proxies`, or returns the base entry verbatim.
   */
  function Get(store: Store, ds: seq<State>, d: DraftId, key: Key): (r: Fetched)
    requires Shape(store, ds) && d < |ds|
    ensures Shape(store, r.drafts) && Extends(ds, r.drafts) && |r.drafts| <= |ds| + 1
    ensures ValueIn(store, |r.drafts|, d, r.value)
  {
    var s := ds[d];
    assert StateOk(store, |ds|, d, s);
    if s.modified then
      var value := Lookup(s.copy, key);
      if value == Lookup(store[s.base].entries, key) && IsProxyable(store, value) then
        assert StoreValue(store, Lookup(store[s.base].entries, key));
        CopyChildShape(store, ds, d, key, value.id);
        Fetched(CopyChild(ds, d, key, value.id), DraftRef(|ds|))
      else
        Fetched(ds, value)
    else if Has(s.proxies, key) then
      Fetched(ds, s.proxies[key])
    else
      var value := Lookup(store[s.base].entries, key);
      if !IsProxy(value) && IsProxyable(store, value) then
        CacheChildShape(store, ds, d, key, value.id);
        Fetched(CacheChild(ds, d, key, value.id), DraftRef(|ds|))
      else
        assert StoreValue(store, value) by {
          if key in store[s.base].entries {
            assert StoreValue(store, store[s.base].entries[key]);
          }
        }
        Fetched(ds, value)
  }

  /** `get` keeps the chain invariant and changes no `modified` flag. */
  lemma GetWf(store: Store, ds: seq<State>, d: DraftId, key: Key)
    requires Wf(store, ds) && d < |ds|
    ensures Wf(store, Get(store, ds, d, key).drafts)
    ensures forall i | 0 <= i < |ds| :: Get(store, ds, d, key).drafts[i].modified == ds[i].modified
  {
    var s := ds[d];
    var r := Get(store, ds, d, key).drafts;
    if r != ds {
      AddChildShape(store, ds, d, r[|ds|].base);
      var ds1 := AddChild(ds, d, r[|ds|].base);
      forall i | 0 <= i < |r|
        ensures ChainOk(r, i)
      {
        assert ChainOk(ds1, i);
      }
    }
  }

  /**
   Reading twice: the second `get` of the same key returns the same value and changes
   nothing, on a modified and on an unmodified draft alike.
   */
  lemma GetRepeat(store: Store, ds: seq<State>, d: DraftId, key: Key)
    requires Shape(store, ds) && d < |ds|
    ensures var r := Get(store, ds, d, key);
      Get(store, r.drafts, d, key) == r
  {
    var s := ds[d];
    var r := Get(store, ds, d, key);
    if s.modified && key in store[s.base].entries {
      assert StoreValue(store, store[s.base].entries[key]);
    }
  }

  /**
   `get` on an unmodified draft: it allocates exactly when no child is cached for the key
   and the base entry is a plain record or array; the fresh child has parent `d` and that
   entry as its base and is cached in `proxies`. Otherwise nothing changes and the cached
   child, or else the base entry verbatim, is returned.
   */
  lemma GetUnmodified(store: Store, ds: seq<State>, d: DraftId, key: Key)
    requires Shape(store, ds) && d < |ds| && !ds[d].modified
    ensures var r := Get(store, ds, d, key);
      var baseValue := Lookup(store[ds[d].base].entries, key);
      && (|r.drafts| == |ds| + 1 <==> key !in ds[d].proxies && baseValue.Obj? && store[baseValue.id].kind != Opaque)
      && (|r.drafts| == |ds| + 1 ==>
            && r.value == DraftRef(|ds|)
            && r.drafts[|ds|] == CreateState(Some(d), baseValue.id)
            && r.drafts[d] == ds[d].(proxies := ds[d].proxies[key := r.value])
            && forall i | 0 <= i < |ds| && i != d :: r.drafts[i] == ds[i])
      && (|r.drafts| == |ds| ==>
            && r.drafts == ds
            && r.value == if key in ds[d].proxies then ds[d].proxies[key] else baseValue)
  {
    var entries := store[ds[d].base].entries;
    ProxyableBaseValue(store, Lookup(entries, key));
  }

  /**
   `get` on a modified draft returns `copy[key]`, except that an entry still identical to
   the base entry and proxyable is replaced, in `copy` only, by a fresh child over it,
   which is returned.
   */
  lemma GetModified(store: Store, ds: seq<State>, d: DraftId, key: Key)
    requires Shape(store, ds) && d < |ds| && ds[d].modified
    ensures var r := Get(store, ds, d, key);
      var value := Lookup(ds[d].copy, key);
      && (|r.drafts| == |ds| + 1 <==> value == Lookup(store[ds[d].base].entries, key) && IsProxyable(store, value))
      && (|r.drafts| == |ds| + 1 ==>
            && value.Obj?
            && r.value == DraftRef(|ds|)
            && r.drafts[|ds|] == CreateState(Some(d), value.id)
            && r.drafts[d] == ds[d].(copy := ds[d].copy[key := r.value])
            && forall i | 0 <= i < |ds| && i != d :: r.drafts[i] == ds[i])
      && (|r.drafts| == |ds| ==> r == Fetched(ds, value))
  {
    var entries := store[ds[d].base].entries;
    ProxyableBaseValue(store, Lookup(entries, key));
  }

  // ---------------------------------------------------------------------------
  // The set trap

  /**
   The no-op test of the `set` trap, made only while the draft is unmodified: the key is
   an own key of the base holding a value `is`-equal to `v`, or a cached child for the key
   is `v` itself.
   */
  predicate IsNoOp(store: Store, ds: seq<State>, d: DraftId, key: Key, v: Value): (b: bool)
    requires d < |ds| && ds[d].base in store
    ensures b ==> !ds[d].modified
    ensures var s := ds[d]; var entries := store[s.base].entries;
      !s.modified ==>
        && (key in entries && entries[key] == v ==> b)
        && (key in s.proxies && s.proxies[key] == v ==> b)
        && (key !in entries && key !in s.proxies ==> !b)
        && (b ==> key in entries || key in s.proxies)
  {
    var s := ds[d];
    var entries := store[s.base].entries;
    && !s.modified
    && ((key in entries && Is(entries[key], v)) || (Has(s.proxies, key) && s.proxies[key] == v))
  }

  /**
   The `set` trap: a no-op write changes nothing; any other write first marks the draft
   and its ancestors (if the draft is still unmodified) and then stores `v` in `copy`.
   */
  function Set(store: Store, ds: seq<State>, d: DraftId, key: Key, v: Value): (r: seq<State>)
    requires Shape(store, ds) && d < |ds| && ValueIn(store, |ds|, d, v)
    ensures |r| == |ds| && Shape(store, r) && Extends(ds, r)
    ensures forall i | 0 <= i < |r| :: r[i].proxies == ds[i].proxies
  {
    assert StateOk(store, |ds|, d, ds[d]);
    if IsNoOp(store, ds, d, key, v) then ds
    else
      var ds1 := if ds[d].modified then ds else MarkChanged(store, ds, d);
      var t := ds1[d];
      assert StateOk(store, |ds1|, d, t);
      ds1[d := t.(copy := t.copy[key := v])]
  }

  /** A write keeps the chain invariant. */
  lemma SetWf(store: Store, ds: seq<State>, d: DraftId, key: Key, v: Value)
    requires Wf(store, ds) && d < |ds| && ValueIn(store, |ds|, d, v)
    ensures Wf(store, Set(store, ds, d, key, v))
  {
    assert StateOk(store, |ds|, d, ds[d]);
    if !IsNoOp(store, ds, d, key, v) {
      var ds1 := if ds[d].modified then ds else MarkChanged(store, ds, d);
      if !ds[d].modified {
        MarkChangedMarksChain(store, ds, d);
      }
      var r := Set(store, ds, d, key, v);
      forall i | 0 <= i < |r|
        ensures ChainOk(r, i)
      {
        assert ChainOk(ds1, i);
      }
    }
  }

  /** A no-op write leaves every draft as it was. */
  lemma SetNoOp(store: Store, ds: seq<State>, d: DraftId, key: Key, v: Value)
    requires Shape(store, ds) && d < |ds| && ValueIn(store, |ds|, d, v)
    requires !ds[d].modified
    requires (key in store[ds[d].base].entries && Is(store[ds[d].base].entries[key], v))
          || (key in ds[d].proxies && ds[d].proxies[key] == v)
    ensures Set(store, ds, d, key, v) == ds
  {
  }

  /** Once a draft is modified, every write stores `v` with no equality test and touches nothing else. */
  lemma SetModified(store: Store, ds: seq<State>, d: DraftId, key: Key, v: Value)
    requires Shape(store, ds) && d < |ds| && ValueIn(store, |ds|, d, v) && ds[d].modified
    ensures Set(store, ds, d, key, v) == ds[d := ds[d].(copy := ds[d].copy[key := v])]
  {
  }

  /**
   A write that is not a no-op: `d` and all its ancestors end up modified, the copy of `d`
   is its old copy (or, on the first write, the materialised base) with `key` set to `v`,
   each other unmodified ancestor is marked, and every other draft is left as it was.
   */
  lemma SetEffective(store: Store, ds: seq<State>, d: DraftId, key: Key, v: Value)
    requires Wf(store, ds) && d < |ds| && ValueIn(store, |ds|, d, v)
    requires !IsNoOp(store, ds, d, key, v)
    ensures var r := Set(store, ds, d, key, v);
      && (forall a: DraftId | a <= d && IsAncestor(ds, a, d) :: r[a].modified)
      && r[d].copy == (if ds[d].modified then ds[d].copy
                       else Materialize(store[ds[d].base].entries, ds[d].proxies))[key := v]
      && (forall i | 0 <= i < |ds| && i != d ::
            r[i] == if IsAncestor(ds, i, d) && !ds[i].modified then Marked(store, ds[i]) else ds[i])
  {
    var r := Set(store, ds, d, key, v);
    if !ds[d].modified {
      MarkChangedMarksChain(store, ds, d);
      MarkChangedEffect(store, ds, d);
    } else {
      AncestorsModified(store, ds, d);
      forall i | 0 <= i < |ds| && i != d && IsAncestor(ds, i, d)
        ensures ds[i].modified
      {
        AncestorIsNotLater(ds, i, d);
      }
    }
  }

  /**
   Reading back a key after a write that was not a no-op yields the value written, unless
   that value is the very base entry of the key and proxyable: then the read drafts it.
   */
  lemma ReadAfterWrite(store: Store, ds: seq<State>, d: DraftId, key: Key, v: Value)
    requires Shape(store, ds) && d < |ds| && ValueIn(store, |ds|, d, v)
    requires !IsNoOp(store, ds, d, key, v)
    ensures var r := Set(store, ds, d, key, v);
      var g := Get(store, r, d, key);
      if v == Lookup(store[ds[d].base].entries, key) && IsProxyable(store, v)
      then v.Obj? && |g.drafts| == |r| + 1 && g.value == DraftRef(|r|) && g.drafts[|r|] == CreateState(Some(d), v.id)
      else g == Fetched(r, v)
  {
    var entries := store[ds[d].base].entries;
    ProxyableBaseValue(store, Lookup(entries, key));
  }
}
