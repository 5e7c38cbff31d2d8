/**
 The draft engine as the program runs it: the drafts of one `produce` call live in a
 session whose methods update them in place, playing the `get` and `set` traps, and
 each method is proved to do what the value-level model says.
 */
module Engine {
  import opened Values
  import DraftTree
  import Finalizer
  import Producer

  class Session {
    /** The caller's objects; nothing in the engine ever writes to them. */
    const store: Store
    /** The states of all drafts created so far; index 0 is the root. */
    var drafts: seq<DraftTree.State>

    ghost predicate Valid()
      reads this
    {
      DraftTree.Wf(store, drafts) && 0 < |drafts|
    }

    /** `createProxy(undefined, baseState)`: the root draft. */
    constructor (store: Store, base: ObjId)
      requires StoreOk(store) && base in store
      ensures Valid() && this.store == store && drafts == Producer.Root(base)
    {
      this.store := store;
      drafts := [DraftTree.CreateState(None, base)];
      assert DraftTree.StateOk(store, 1, 0, DraftTree.CreateState(None, base));
    }

    /** `createProxy(state, value)` for a child: a fresh unmodified draft with parent `parent`. */
    method CreateProxy(parent: DraftId, base: ObjId) returns (d: DraftId)
      requires Valid() && parent < |drafts| && base in store
      modifies this
      ensures Valid()
      ensures d == |old(drafts)| && drafts == old(drafts) + [DraftTree.CreateState(Some(parent), base)]
    {
      DraftTree.AddChildShape(store, drafts, parent, base);
      d := |drafts|;
      drafts := drafts + [DraftTree.CreateState(Some(parent), base)];
    }

    /** The `get` trap of draft `d`. */
    method Get(d: DraftId, key: Key) returns (v: Value)
      requires Valid() && d < |drafts|
      modifies this
      ensures Valid()
      ensures DraftTree.Fetched(drafts, v) == DraftTree.Get(store, old(drafts), d, key)
    {
      DraftTree.GetWf(store, drafts, d, key);
      var s := drafts[d];
      assert DraftTree.StateOk(store, |drafts|, d, s);
      if s.modified {
        var value := Lookup(s.copy, key);
        if value == Lookup(store[s.base].entries, key) && IsProxyable(store, value) {
          assert StoreValue(store, Lookup(store[s.base].entries, key));
          var child := CreateProxy(d, value.id);
          drafts := drafts[d := s.(copy := s.copy[key := DraftRef(child)])];
          v := DraftRef(child);
        } else {
          v := value;
        }
      } else if Has(s.proxies, key) {
        v := s.proxies[key];
      } else {
        var value := Lookup(store[s.base].entries, key);
        if !IsProxy(value) && IsProxyable(store, value) {
          var child := CreateProxy(d, value.id);
          drafts := drafts[d := s.(proxies := s.proxies[key := DraftRef(child)])];
          v := DraftRef(child);
        } else {
          v := value;
        }
      }
    }

    /** The `set` trap of draft `d`; a value it stores that is a draft was allocated after `d`. */
    method Set(d: DraftId, key: Key, v: Value)
      requires Valid() && d < |drafts| && DraftTree.ValueIn(store, |drafts|, d, v)
      modifies this
      ensures Valid()
      ensures drafts == DraftTree.Set(store, old(drafts), d, key, v)
    {
      DraftTree.SetWf(store, drafts, d, key, v);
      var s := drafts[d];
      assert DraftTree.StateOk(store, |drafts|, d, s);
      if !s.modified {
        var entries := store[s.base].entries;
        if (key in entries && Is(entries[key], v)) || (Has(s.proxies, key) && s.proxies[key] == v) {
          return;
        }
        MarkChanged(d);
      }
      var t := drafts[d];
      drafts := drafts[d := t.(copy := t.copy[key := v])];
    }

    /**
     `markChanged(d)`. It may be called with the links from the children of `d` broken:
     that is the state the recursion up the parent chain creates.
     */
    method MarkChanged(d: DraftId)
      requires DraftTree.Shape(store, drafts) && d < |drafts| && DraftTree.UpwardExcept(drafts, d)
      modifies this
      ensures Valid()
      ensures drafts == DraftTree.MarkChanged(store, old(drafts), d)
      decreases d
    {
      DraftTree.MarkChangedUpward(store, drafts, d);
      var s := drafts[d];
      assert DraftTree.StateOk(store, |drafts|, d, s);
      if !s.modified {
        var copy := store[s.base].entries;
        copy := copy + s.proxies;
        DraftTree.MarkedShape(store, drafts, d);
        drafts := drafts[d := s.(modified := true, copy := copy)];
        if s.parent.Some? {
          ghost var p := s.parent.value;
          forall i | 0 <= i < |drafts| && drafts[i].parent != Some(p)
            ensures DraftTree.ChainOk(drafts, i)
          {
            if old(drafts)[i].parent != Some(d) {
              assert DraftTree.ChainOk(old(drafts), i);
            }
          }
          MarkChanged(s.parent.value);
        }
      } else {
        assert DraftTree.Upward(drafts) by {
          forall i | 0 <= i < |drafts|
            ensures DraftTree.ChainOk(drafts, i)
          {
          }
        }
      }
    }

    /** `finalize` of draft `d`: rebuilds the record entry by entry, changing no draft. */
    method Finalize(d: DraftId) returns (r: Finalizer.Output)
      requires Valid() && d < |drafts|
      ensures r == Finalizer.Finalize(store, drafts, d)
      decreases |drafts| - d
    {
      var s := drafts[d];
      assert DraftTree.StateOk(store, |drafts|, d, s);
      if s.modified {
        var keys := s.copy.Keys;
        var obj: map<Key, Finalizer.Output> := map[];
        while keys != {}
          invariant keys <= s.copy.Keys
          invariant obj.Keys == s.copy.Keys - keys
          invariant forall k | k in obj ::
            obj[k] == if IsProxy(s.copy[k]) then Finalizer.Finalize(store, drafts, s.copy[k].d) else Finalizer.Plain(s.copy[k])
          decreases keys
        {
          var key :| key in keys;
          var val := s.copy[key];
          if IsProxy(val) {
            var f := Finalize(val.d);
            obj := obj[key := f];
          } else {
            obj := obj[key := Finalizer.Plain(val)];
          }
          keys := keys - {key};
        }
        r := Finalizer.Record(obj);
      } else {
        r := Finalizer.Plain(Obj(s.base));
      }
    }

    /**
     Resolves `draft.p1...pn` from the root, one `get` at a time; None once a step yields
     something other than a draft.
     */
    method Walk(path: seq<Key>) returns (at: Option<DraftId>)
      requires Valid()
      modifies this
      ensures Valid()
      ensures Producer.Walk(store, old(drafts), 0, path) == Producer.Reached(drafts, at)
    {
      var cur: DraftId := 0;
      var i := 0;
      while i < |path|
        invariant Valid() && cur < |drafts| && 0 <= i <= |path|
        invariant Producer.Walk(store, old(drafts), 0, path) == Producer.Walk(store, drafts, cur, path[i..])
      {
        assert path[i..] == [path[i]] + path[i + 1..];
        var v := Get(cur, path[i]);
        if !IsProxy(v) {
          return None;
        }
        cur := v.d;
        i := i + 1;
      }
      at := Some(cur);
    }
  }

  /** `produce(baseState, producer)`: root draft, producer steps in order, `finalize` of the root. */
  method Produce(store: Store, base: ObjId, producer: seq<Producer.Op>) returns (r: Option<Finalizer.Output>)
    requires StoreOk(store) && base in store && Producer.ScriptOk(store, producer)
    ensures r == Producer.Produce(store, base, producer)
  {
    var session := new Session(store, base);
    var i := 0;
    while i < |producer|
      invariant 0 <= i <= |producer| && session.Valid() && session.store == store
      invariant Producer.Run(store, session.drafts, producer[i..]) == Producer.Run(store, Producer.Root(base), producer)
    {
      var op := producer[i];
      assert op in producer && producer[i..][0] == op && producer[i..][1..] == producer[i + 1..];
      var at := session.Walk(op.path);
      match at {
        case None =>
          if op.Assign? {
            return None;
          }
        case Some(d) =>
          match op {
            case Load(_, key) =>
              var _ := session.Get(d, key);
            case Assign(_, key, v) =>
              session.Set(d, key, v);
          }
      }
      i := i + 1;
    }
    var out := session.Finalize(0);
    r := Some(out);
  }
}
