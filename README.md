# A verified model of a copy-on-write draft engine

This project models `index.js` of a small immer-style library. `produce(baseState, producer)`
wraps an immutable base object in a *draft*, lets a producer routine read and write through
it, and turns the draft back into an immutable result. The result shares every untouched
sub-object of the base by reference.

Each draft is a record with five fields:

- `modified`;
- `parent`;
- `base`;
- `copy`, a key→value map;
- `proxies`, a key→value map.

Reads create child drafts lazily. On an unmodified draft the child is cached in `proxies`.
On a modified draft it is stored back into `copy`. The first real write does three things:

- it copies the base shallowly into `copy`;
- it overlays the cached children on that copy;
- it marks the draft and every ancestor modified.

`finalize` rebuilds only the modified drafts. It returns every untouched base by identity.

## How the model is built

- `values.dfy` (module `Values`) holds the values.
  - A value is a scalar, a base object `Obj(id)` or a draft `DraftRef(d)`.
  - Base objects live in an immutable `Store` (id → kind and own entries). They compare by
    id, which is JavaScript `===` on objects.
  - `undefined` is a scalar. A missing key reads as `undefined`. A key that holds
    `undefined` is still a key.
  - The helpers `isProxyable`, `is`, `has` and `isProxy` are predicates. A draft counts as
    proxyable because its proxy stands over a plain state record.
- `drafttree.dfy` (module `DraftTree`) is the draft tree manager, stated on values.
  - The drafts of one `produce` call form an arena `seq<State>`. The root is at index 0.
  - A child is always allocated after its parent, so a parent has the smaller index.
  - `Get`, `Set` and `MarkChanged` are functions from the arena to the new arena.
  - The invariants are `Shape` (well-formed indices and values) and `Upward` (a modified
    draft has a modified parent).
  - `Extends` says the arena only grows, bases and parents never change, and `modified` is
    never reset.
- `finalizer.dfy` (module `Finalizer`) holds `Finalize`. Its result is either a value kept as
  is (`Plain`) or a freshly built `Record`.
- `producer.dfy` (module `Producer`) holds `Produce`. The producer routine is a script of
  reads and writes. Each one reaches its target draft from the root through a path of
  property reads, such as `draft.friends[0].name = "z"`.
- `engine.dfy` (module `Engine`) is the imperative form. A `Session` object holds the arena
  in a field. Its methods update it in place:
  - `Get` and `Set` are the proxy traps;
  - `MarkChanged` recurses up the parent chain;
  - `Finalize` fills a fresh map in a loop, with recursive calls;
  - `Produce` runs the script.

  Each method is proved to compute exactly the corresponding function.
- `scenario.dfy` (module `Scenario`) works three examples through the model.
  1. A producer renames a person, adds a tag and renames the first friend. The result has
     all three edits, and the second friend is the base object itself.
  2. A producer reads a nested key and writes the same value back. The result is the base
     itself.
  3. A producer reads `draft.name.length`. The read leaves the drafts at the string and
     changes nothing, so the result is the base itself.

The engine itself never writes a base object. The store is a `const` of the session and a
parameter of every function, and every draft keeps the base it was created with
(`Extends`). A producer could still write into the caller's objects directly, through a
value that is not a draft. One way is a plain record it stored into a modified draft and
then reads back raw. Another is an opaque object. Such a write is outside the model, and
`Produce` gives `None` for it.

Where the code and the usual description of this algorithm differ, the model follows the
code:

- `finalize` always builds a plain record `{}`, even when the base is an array. An array
  therefore comes back as a record with index keys (`Scenario.EditsResult` shows this for
  the tags).
- The no-op test of `set` uses `is` (SameValue), not SameValueZero.

## Model

| member | source | states |
|---|---|---|
| Values.IsProxyable | index.js:116-122 | Falsy values and other non-objects are never proxyable. An object is proxyable exactly when it is a plain record or an array. A draft is proxyable, since its proxy stands over a plain state record. |
| Values.Is | index.js:124-131 | Objects are `is`-equal exactly when they are the same reference, and primitives when they are the same value. A primitive is never equal to an object. |
| Values.Has | index.js:133-135 | `has` holds exactly for own keys. It tells a key holding `undefined` apart from a missing key, which a plain read cannot do. |
| Values.IsProxy | index.js:137-139 | Only a draft is a proxy. Scalars, including the falsy ones, and the caller's objects are not. |
| Values.ProxyableBaseValue | index.js:52-53 | A value read from a base object is never a draft, so the `!isProxy(value)` test always passes on it. It is proxyable exactly when it is a plain record or an array. |
| DraftTree.CreateState | index.js:13-21 | A fresh draft state is unmodified, with an empty `copy` and empty `proxies`, and records the given parent and base. |
| DraftTree.Materialize | index.js:89-91 | The materialised copy has keys(base) ∪ keys(proxies). Each entry is the cached child when there is one, otherwise the base entry. |
| DraftTree.MarkChanged | index.js:85-95 | The arena keeps its size and shape, and `d` ends modified. A draft that was already modified is left exactly as it was. No `proxies`, base or parent changes, and `modified` is never reset. |
| DraftTree.MarkChangedEffect | index.js:85-95 | The complete effect: exactly the unmodified drafts on the parent chain of `d` become modified, with their copy materialised. Every other draft is unchanged. |
| DraftTree.MarkChangedUpward | index.js:93 | "A modified draft has a modified parent" holds afterwards, even if the links into `d` were broken on entry (the state the upward recursion creates). |
| DraftTree.MarkChangedMarksChain | index.js:93 | On a well-formed arena, `d` and every ancestor of `d` are modified afterwards, and the invariant still holds. |
| DraftTree.MarkChangedIdempotent | index.js:86 | A second `markChanged` on the same draft changes no field of any draft. |
| DraftTree.AncestorsModified | index.js:93 | Under the chain invariant, every ancestor of a modified draft is modified. |
| DraftTree.ModifiedReachesRoot | index.js:93 | In a well-formed arena, if any draft is modified then the root is modified. |
| DraftTree.Get | index.js:33-65 | The `get` trap keeps the arena well formed and only grows it, by at most one draft. It changes no base or parent and resets no `modified`. A draft it returns was allocated after `d`. |
| DraftTree.GetWf | index.js:33-65 | `get` keeps the chain invariant and leaves every `modified` flag as it was. |
| DraftTree.GetRepeat | index.js:48-50 | Reading the same key twice returns the same value the second time, including the same cached child draft. The second read changes nothing, whether the draft is modified or not. |
| DraftTree.GetUnmodified | index.js:47-62 | On an unmodified draft, `get` allocates exactly when no child is cached and the base entry is a plain record or array. The new child has parent `d` and that entry as base, and is cached in `proxies`. Otherwise it returns the cached child or the base entry verbatim, and changes nothing. |
| DraftTree.GetModified | index.js:38-46 | On a modified draft, `get` returns `copy[key]`. The one exception is an entry that is still identical to the base entry and proxyable: that single `copy` entry becomes a fresh child over it, which is returned. |
| DraftTree.IsNoOp | index.js:67-71 | A write can be a no-op only on an unmodified draft. There it is one when the base holds the same value under the key, or when the cached child for the key is the value itself. A key the draft has neither in its base nor in its cache is never a no-op. |
| DraftTree.Set | index.js:66-80 | The `set` trap keeps the arena's size and shape. It changes no base, parent or `proxies` and resets no `modified`. |
| DraftTree.SetWf | index.js:66-80 | A write keeps the chain invariant. |
| DraftTree.SetNoOp | index.js:67-74 | On an unmodified draft, writing a value `is`-equal to the base entry, or the cached child itself, leaves every draft unchanged. |
| DraftTree.SetModified | index.js:76-79 | Once a draft is modified, every write stores the value with no equality test and changes nothing else. |
| DraftTree.SetEffective | index.js:75-79 | A write that is not a no-op marks `d` and all its ancestors modified and sets `copy[key] := v`. The other keys keep the old or the just-materialised copy. Other unmodified ancestors are marked, and all other drafts are unchanged. |
| DraftTree.ReadAfterWrite | index.js:38-79 | After a write that is not a no-op, reading the key returns the written value. The exception is the very base entry being written back while proxyable: then the read wraps it in a fresh child draft. |
| Finalizer.Finalize | index.js:97-114 | The result is a record exactly when the draft is modified, with the keys of `copy`. An unmodified draft yields its base object by identity. No draft is left anywhere in the result. |
| Finalizer.FinalizeEntry | index.js:102-109 | In a rebuilt record, a draft entry is replaced by its own finalisation and every other value is kept as it is. |
| Finalizer.FinalizeSharesUntouched | index.js:111-113 | A child draft that was read but never written comes out as its base object, by identity. |
| Finalizer.FinalizeRebuildsChain | index.js:99-110 | A modified draft and every draft on its parent chain come out as fresh records. |
| Producer.Walk | index.js:33-65 | Following a path of `get`s keeps the arena well formed and only grows it. When it ends at a draft, that draft exists. Once a step yields a value that is not a draft, no further trap runs. |
| Producer.WalkWf | index.js:33-65 | Following a path keeps the chain invariant and changes no `modified` flag. |
| Producer.Step | index.js:6 | One producer read or write keeps the arena well formed and only grows it. |
| Producer.Run | index.js:6 | Running the producer keeps the arena well formed and only grows it. A read whose path leaves the drafts keeps the arena it reached. |
| Producer.Produce | index.js:3-11 | The result of `produce` contains no draft. |
| Producer.RunRootFlag | index.js:3-11 | After the producer runs, the root is modified exactly when it was modified before or some write was not a no-op. |
| Producer.ProduceIdentity | index.js:3-11 | `produce` returns `baseState` itself exactly when every write was a no-op. Otherwise it returns a fresh record. |
| Engine.Session.constructor | index.js:4 | `createProxy(undefined, baseState)` gives an arena holding only the unmodified root over the base. |
| Engine.Session.CreateProxy | index.js:30-31 | `createState` plus `createProxy` append one fresh unmodified draft with the given parent and base. |
| Engine.Session.Get | index.js:33-65 | The in-place `get` trap leaves the arena and returns the value that `DraftTree.Get` gives, and keeps the invariants. |
| Engine.Session.Set | index.js:66-80 | The in-place `set` trap leaves the arena that `DraftTree.Set` gives, and keeps the invariants. |
| Engine.Session.MarkChanged | index.js:85-95 | The recursive in-place `markChanged` leaves the arena that `DraftTree.MarkChanged` gives, and restores the invariants. |
| Engine.Session.Finalize | index.js:97-114 | The `forEach` loop with recursive calls builds exactly `Finalizer.Finalize`, and changes no draft. |
| Engine.Session.Walk | index.js:33-65 | Resolving a property path by successive in-place `get`s matches `Producer.Walk`, including the arena left when the path leaves the drafts. |
| Engine.Produce | index.js:3-11 | Root draft, then the producer's steps in order, then `finalize` of the root computes exactly `Producer.Produce`. |
| Scenario.EditsResult | test.js:9-15 | A producer renames a person, adds a tag and renames the first friend. The result holds all three edits. The tags array comes back as a record, and the untouched second friend is the base object itself. |
| Scenario.WriteBackResult | index.js:67-74 | Reading a nested key and writing the same value back leaves `produce` returning the base object itself. |
| Scenario.ReadPastDraftsResult | index.js:52-61 | Reading `draft.name.length` returns the name string as it is after one `get`. Nothing is drafted or marked, and `produce` returns the base object itself. |

## Left out

- The JavaScript `Proxy` and `Symbol` machinery is not modelled (index.js:1, 34-37, 82, 98, 138). The traps are explicit methods, and reading the state marker is direct access to the arena.
- The `set` trap's `return true` is not modelled: it only reports success to `Proxy`.
- The default `has`, `ownKeys` and `deleteProperty` traps are not modelled. They only forward to the state object.
- Prototype-chain lookups are not modelled. A base is a finite map of its own enumerable keys, so `key in state.base` sees only those. An array's `length` and array methods such as `push` (test.js:12) are not modelled; a producer appends by writing the next index.
- Floating point is not modelled. Numbers are integers, so `is` (SameValue) is identity, and the `+0`/`-0` and `NaN` cases (index.js:124-131) do not arise.
- The prototype inspection of `isProxyable` (index.js:116-122) is replaced by a kind tag on each base object: plain record, array, or opaque.
- The order of `Object.keys` is not modelled. A rebuilt record is an unordered map.
- The producer is not arbitrary code. It is a script of property reads and writes along paths from the root.
- Reads past the drafts: once a read's path leaves the drafts, the rest is a read of plain values that no trap sees. The model keeps the arena it reached. It does not model the TypeError that JavaScript throws when such a read goes through `undefined` or `null`. The value read is not used, since the producer's results are not modelled.
- Writes through a value that is not a draft make `Produce` return `None`. Such a write is a TypeError on `undefined` or `null`, is ignored on other primitives, or writes directly into a caller's object: an opaque one, or a plain record that a modified draft hands out raw.
- A script writes only scalars and base objects. Writing a draft it has read into another key is possible only through `Engine.Session.Set`.
- Produce: `baseState` must be an object of the store. A scalar base is not modelled.
- Engine.Session.Set: requires that a draft written into draft `d` was allocated after `d`. The code does not check this. It is what makes `finalize` terminate: writing an ancestor into a descendant makes `finalize` recurse forever. The precondition also excludes some harmless writes, such as an older sibling written into a younger sibling's descendant.
- Use of a draft after `produce` returns is not modelled, nor is `module.exports` or the producer's return value (index.js:6, 141).
- test.js is not modelled as such: its console output, its lodash deep clone and comparison, and its JSON fixture. `Scenario.EditsResult` works a similar producer over a small person record instead.
