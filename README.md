# signalStore, modelled in Dafny

This project models `signalStore`, the reactive state container that every
component of the angular-three libraries is built on
(`libs/core/src/lib/utils/signal-store.ts`). A store holds one record of
named fields and offers four operations:

- `set` is an overwriting merge. A field passed as `undefined` keeps its
  previous value when that value is non-null.
- `patch` fills in defaults. Keys already in the state win, so only new keys
  are added.
- `get` reads a nested path.
- `select` returns a derived value for a nested path. It is memoised in a
  cache keyed by the joined path plus the serialised options.

Modules:

- `Wrappers` (`wrappers.dfy`): `Option`.
- `Values` (`values.dfy`): the JavaScript values a store holds. `undefined`
  and `null` are kept apart, and plain objects are `Rec` records. It also
  holds the field-by-field path read shared by `get` and `select`. Indexing
  into `null` or `undefined` is the one fault, and it is modelled as `None`.
- `Merge` (`merge.dfy`): the fill rule for explicit `undefined` values, and
  the state that `set` and `patch` produce, as functions on records, with
  lemmas about them.
- `SelectArgs` (`select_args.dfy`): `parseStoreOptions`, how `select` turns
  its arguments into a request (a path plus the options handed on), and the
  cache key with `keys.join('-')`.
- `Store` (`store.dfy`): the store as a class. Its `state` and `cache`
  fields are updated in place. The caller's partial object is a
  `PartialState` object, which the fill loop rewrites in place as the source
  does. Each derived value is a `Computed` object: its reference identity is
  the identity of the cached derived value, and `Read()` reads its path from
  the store's current state. Construction takes a literal record or a
  factory. A factory is modelled as the calls it makes on the store API plus
  the function that builds its return value from what its `get`s read.

The store keeps one invariant, `Valid()`: every cached derived value belongs
to the store and sits under the key computed from its own request. `Select`
inserts an entry only when its key is missing. Otherwise it returns the
existing entry and leaves the cache unchanged.

Behaviour of the code that the model reproduces as written:

- `select()` with no arguments returns the state signal itself and does not
  touch the cache.
- A lone options argument selects the whole state. Line 139 then passes the
  argument array to `computed`, not the options object. The model records
  this as `PassedOptions.InArgumentArray`.
- Cache keys can collide. `select('a-b')` and `select('a', 'b')` share one
  key (`SelectArgs.JoinCollidesOnDash`), so the second call returns the
  value the first one built. Two option objects share a key exactly when
  they serialise alike (`SelectArgs.OptionsKeyIff`). `JSON.stringify` drops
  function-valued fields, so options that differ only in their `equal`
  function collide.

## Model

| member | source | states |
|---|---|---|
| `Values.Lookup` | libs/core/src/lib/utils/signal-store.ts:109 | One field step faults exactly on `null`/`undefined`. A present own field yields its value, and a missing own field of a record yields `undefined`. |
| `Values.Traverse` | libs/core/src/lib/utils/signal-store.ts:107-109 | The empty path yields the root. A one-key path is a single field lookup. |
| `Values.TraverseAppend` | libs/core/src/lib/utils/signal-store.ts:109 | Reading `p + q` is reading `p` and then reading `q` from the result. A fault on `p` is final. |
| `Values.NullishHasNoFields` | libs/core/src/lib/utils/signal-store.ts:109 | Reading a non-empty path out of `null` or `undefined` never succeeds. |
| `Values.TraverseSucceedsIff` | libs/core/src/lib/utils/signal-store.ts:109 | A path can be read if and only if every proper prefix reaches a value that is neither `null` nor `undefined`. |
| `Merge.Filled` | libs/core/src/lib/utils/signal-store.ts:76-81 | The fill loop keeps the partial's keys. It changes only explicit `undefined`s, each to the previous value, and an `undefined` survives only where the previous value is null, undefined or absent. |
| `Merge.SetState` | libs/core/src/lib/utils/signal-store.ts:74-85 | After `set`, the keys are old plus partial. Keys absent from the partial keep their value and defined partial values overwrite. An `undefined` takes the previous non-null value and otherwise leaves the key present as `undefined`. |
| `Merge.PatchState` | libs/core/src/lib/utils/signal-store.ts:90-100 | After `patch`, the keys are old plus partial. Every previously present key keeps its value, and only new keys take the patch's value. |
| `Merge.SetIsOverwriteWithoutUndefined` | libs/core/src/lib/utils/signal-store.ts:85 | With no `undefined` in the partial, `set` yields exactly `{...previous, ...partial}`. |
| `Merge.SetIdempotent` | libs/core/src/lib/utils/signal-store.ts:73-86 | Setting the same partial twice equals setting it once. |
| `Merge.PatchIsSetOfNewKeys` | libs/core/src/lib/utils/signal-store.ts:89-101 | `patch(partial)` equals `set` of the partial restricted to the keys the state lacks. |
| `Merge.PatchOfPresentKeysIsNoop` | libs/core/src/lib/utils/signal-store.ts:100 | A patch whose keys are all present, `patch({})` included, leaves the state unchanged. |
| `Merge.PatchIdempotent` | libs/core/src/lib/utils/signal-store.ts:89-101 | Patching twice with the same partial equals patching once. |
| `Merge.LineInputsExample` | libs/core/src/lib/utils/signal-store.ts:73-101 | Start from `{color:'black'}`, then `set({color:'red', lineWidth:2})`, then `patch({color:'blue', dashed:true})`. The result is `{color:'red', lineWidth:2, dashed:true}`. |
| `SelectArgs.ParseStoreOptions` | libs/core/src/lib/utils/signal-store.ts:170-176 | The keys followed by the options (if any) give back the argument list. Options are found only when the last argument is an object. |
| `SelectArgs.ArgTexts` | libs/core/src/lib/utils/signal-store.ts:144 | Converting keys to strings for the join keeps their number, and string keys stay unchanged. |
| `SelectArgs.Resolve` | libs/core/src/lib/utils/signal-store.ts:134-145 | A lone options argument, and only that, selects the whole state (empty path, argument array passed on). Any other call has a non-empty path. For typed calls, the request gives back the argument list. |
| `SelectArgs.Join` | libs/core/src/lib/utils/signal-store.ts:144 | `keys.join('-')`: one key is the key itself, and two or more keys always give a dash. `SplitOnDash` undoes it on non-empty paths whose keys contain no dash (`SplitJoin`). |
| `SelectArgs.RequestKey` | libs/core/src/lib/utils/signal-store.ts:137-145 | For a whole-state selection the cache key is `STORE_COMPUTED_KEY` followed by the serialised options. Otherwise it is the joined path, followed by the serialised options when there are any. |
| `SelectArgs.SplitJoin` | libs/core/src/lib/utils/signal-store.ts:144 | For a non-empty path without dashes, splitting `keys.join('-')` on `-` gives the path back. |
| `SelectArgs.JoinInjectiveWithoutDash` | libs/core/src/lib/utils/signal-store.ts:144 | Two non-empty paths without dashes have the same joined key if and only if they are equal. |
| `SelectArgs.JoinCollidesOnDash` | libs/core/src/lib/utils/signal-store.ts:144 | The paths `['a-b']` and `['a','b']` are different but share a joined key. |
| `SelectArgs.OptionsKeyIff` | libs/core/src/lib/utils/signal-store.ts:145 | On one path, two options share a cache key if and only if their serialisations are equal. |
| `SelectArgs.WholeStateKeyIff` | libs/core/src/lib/utils/signal-store.ts:137 | Two whole-state selections with options share a key if and only if the options serialise alike. |
| `SelectArgs.OptionsVersusNoneIff` | libs/core/src/lib/utils/signal-store.ts:145 | A path with options and the same path without options share a key if and only if the options serialise to the empty string. |
| `Store.FillUndefined` | libs/core/src/lib/utils/signal-store.ts:76-81 | The in-place loop over the partial's keys leaves the partial equal to `Filled` of its old contents. |
| `Store.Computed.Read` | libs/core/src/lib/utils/signal-store.ts:150 | A derived value reads its path from the store's current state, so a whole-state value is the state itself. |
| `Store.SignalStore.constructor` | libs/core/src/lib/utils/signal-store.ts:112-131 | A literal is the starting state. A factory's calls run on a store that starts empty, and its return value then replaces the state wholesale. The cache starts empty. |
| `Store.SignalStore.Set` | libs/core/src/lib/utils/signal-store.ts:73-87 | The literal partial is filled in place. The new state is `SetState` of the old state and the partial, where an updater's result is merged by the same rule. The cache is unchanged. |
| `Store.SignalStore.Patch` | libs/core/src/lib/utils/signal-store.ts:89-102 | The partial is filled in place, the new state is `PatchState` of the old state and the partial, and the cache is unchanged. |
| `Store.SignalStore.Get` | libs/core/src/lib/utils/signal-store.ts:104-110 | Returns the nested read of the current state, or the whole state for no keys. It changes nothing. |
| `Store.SignalStore.Select` | libs/core/src/lib/utils/signal-store.ts:134-154 | No arguments returns the state signal and leaves the cache alone. Otherwise it returns the entry under the request's key. A new entry is created fresh only when the key was missing, and the cache only grows. The state is unchanged. |
| `Store.SelectTwice` | libs/core/src/lib/utils/signal-store.ts:147-153 | Two selections with the same arguments return the same derived value. |
| `Store.SelectWithTwoOptions` | libs/core/src/lib/utils/signal-store.ts:143-153 | On one path, options with different serialisations give distinct derived values. |
| `Store.SelectSeesLaterSet` | libs/core/src/lib/utils/signal-store.ts:150 | A value selected for `'a','b'` before `set({a: {b: 5}})` reads 5 afterwards. |
| `Store.FactoryReplacesState` | libs/core/src/lib/utils/signal-store.ts:117-122 | Take a factory that calls `set({a: 1})` and returns `{b: get('a') + 1}`. Its store ends as exactly `{b: 2}`. |

## Left out

- Angular's signal and `computed` machinery is left out: change propagation, dependency tracking, `untracked` and lazy recomputation. A derived value is a `Computed` object that reads its path from the current state when read.
- The equality functions in `CreateSignalOptions`/`CreateComputedOptions` are left out. Options are opaque `ComputedOptions` tokens, because their behaviour belongs to the host framework.
- `JSON.stringify` is the store's `stringify` function, supplied at construction. Its real output is not modelled.
- The `_snapshot` property (lines 161-165), the read-only `state` projection, and the overload typing of `select`/`get` are left out. Typing beyond the path is not modelled.
- Names inherited from `Object.prototype` (`toString`, `constructor`, ...) are treated as absent fields, both in path reads and in the `previous[key] != null` test of the fill rule. In the source, `set({constructor: undefined})` would fill in `Object`.
- Arrays, functions, class instances and engine objects are not modelled as values. A lookup into a primitive yields `undefined`, so properties such as a string's `length` are missed. Numbers are integers, because the store only stores them.
- `null` and `undefined` as `select` arguments are left out. In the source, `typeof null === 'object'` would make `null` an options argument.
- `Store.SignalStore.Set`: an updater's result is a fresh object. An updater that returns an object the caller keeps is not modelled, and neither is one that re-enters the store.
- `Store.SignalStore.constructor`: a factory is a fixed list of calls plus a function of what its `get`s read. A factory whose later calls depend on earlier reads, or that throws, is not modelled.
- Sharing is not modelled: a literal initial object that stays aliased with the store, and nested objects shared between a partial and the state. Values are immutable records.
- Other files are not part of this model: the orbit-controls and line-input consumers, the volumetric mesh, the parent directive, change-detection glue, and site and story configuration. They only use the store or are unrelated to it.
