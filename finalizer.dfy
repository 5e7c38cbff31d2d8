/**
 The finalizer: turning a draft back into an immutable value, rebuilding only the
 modified drafts and handing back every untouched base by identity.
 */
module Finalizer {
  import opened Values
  import opened DraftTree

  /**
   A finalised value: a value kept as it is (a scalar, or a base object shared by
   identity), or a freshly built record. `finalize` always builds a record `{}`, also
   where the base was an array.
   */
  datatype Output = Plain(v: Value) | Record(fields: map<Key, Output>)

  /** No draft is left anywhere in a finalised value. */
  predicate Detached(o: Output)
  {
    match o
    case Plain(v) => !IsProxy(v)
    case Record(fields) => forall k | k in fields :: Detached(fields[k])
  }

  /**
   `finalize`: an unmodified draft yields its base by identity; a modified one yields a
   fresh record with exactly the keys of `copy`, where each draft is replaced by its own
   finalisation and every other value is kept.
   */
  function Finalize(store: Store, ds: seq<State>, d: DraftId): (r: Output)
    requires Shape(store, ds) && d < |ds|
    ensures r.Record? <==> ds[d].modified
    ensures r.Plain? ==> r.v == Obj(ds[d].base)
    ensures r.Record? ==> r.fields.Keys == ds[d].copy.Keys
    ensures Detached(r)
    decreases |ds| - d
  {
    var s := ds[d];
    assert StateOk(store, |ds|, d, s);
    if s.modified then
      Record(map k | k in s.copy ::
        if IsProxy(s.copy[k]) then Finalize(store, ds, s.copy[k].d) else Plain(s.copy[k]))
    else
      Plain(Obj(s.base))
  }

  /** Each entry of a rebuilt record: a draft is finalised in turn, any other value is kept as it is. */
  lemma FinalizeEntry(store: Store, ds: seq<State>, d: DraftId, k: Key)
    requires Shape(store, ds) && d < |ds| && ds[d].modified && k in ds[d].copy
    ensures var v := ds[d].copy[k];
      var o := Finalize(store, ds, d).fields[k];
      && (!IsProxy(v) ==> o == Plain(v))
      && (IsProxy(v) ==> v.d < |ds| && o == Finalize(store, ds, v.d))
  {
    assert StateOk(store, |ds|, d, ds[d]);
  }

  /**
   Structural sharing: inside a rebuilt record, a child draft that was read but never
   written comes out as its base object, by identity.
   */
  lemma FinalizeSharesUntouched(store: Store, ds: seq<State>, d: DraftId, k: Key)
    requires Shape(store, ds) && d < |ds| && ds[d].modified && k in ds[d].copy
    requires ds[d].copy[k].DraftRef? && ds[d].copy[k].d < |ds| && !ds[ds[d].copy[k].d].modified
    ensures Finalize(store, ds, d).fields[k] == Plain(Obj(ds[ds[d].copy[k].d].base))
  {
    FinalizeEntry(store, ds, d, k);
  }

  /** A modified draft is rebuilt, and so is every draft on its parent chain. */
  lemma FinalizeRebuildsChain(store: Store, ds: seq<State>, j: DraftId)
    requires Wf(store, ds) && j < |ds| && ds[j].modified
    ensures forall a: DraftId | a <= j && IsAncestor(ds, a, j) :: Finalize(store, ds, a).Record?
  {
    AncestorsModified(store, ds, j);
  }
}
