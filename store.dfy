/**
 * The signal store (signal-store.ts, `signalStore`): one record of named
 * fields, written with `set` and `patch`, read with `get`, and observed
 * through memoised derived values made by `select`.
 */
module Store {
  import opened Wrappers
  import opened Values
  import opened Merge
  import opened SelectArgs

  /**
   * The caller's partial-state object. `set` and `patch` rewrite its explicit
   * `undefined` fields in place, and the caller can see that.
   */
  class PartialState {
    var fields: map<string, Value>

    constructor (fields: map<string, Value>)
      ensures this.fields == fields
    {
      this.fields := fields;
    }
  }

  /** The argument of `set`: a partial object, or an updater from the current state to a partial. */
  datatype SetArgument =
    | Partial(obj: PartialState)
    | Updater(update: map<string, Value> -> map<string, Value>)

  /** One call an initial-state factory makes on the store API it is handed. */
  datatype FactoryCall =
    | CallSet(partial: map<string, Value>)
    | CallSetWith(update: map<string, Value> -> map<string, Value>)
    | CallPatch(partial: map<string, Value>)
    | CallGet(path: seq<string>)

  /**
   * The initial state: a literal record, or a factory that makes some calls
   * on the store and then returns a record built from what its `get`s read.
   */
  datatype InitialState =
    | FromLiteral(fields: map<string, Value>)
    | FromFactory(calls: seq<FactoryCall>, finish: seq<Option<Value>> -> map<string, Value>)

  /** The state one factory call leaves behind. */
  function AfterCall(s: map<string, Value>, call: FactoryCall): map<string, Value> {
    match call
    case CallSet(partial) => SetState(s, partial)
    case CallSetWith(update) => SetState(s, update(s))
    case CallPatch(partial) => PatchState(s, partial)
    case CallGet(_) => s
  }

  /** The state after a factory's calls, starting from the empty record. */
  function StateAfterCalls(calls: seq<FactoryCall>): map<string, Value>
    decreases |calls|
  {
    if calls == [] then map[]
    else AfterCall(StateAfterCalls(calls[..|calls| - 1]), calls[|calls| - 1])
  }

  /** What the factory's `get` calls read, in order. */
  function ReadsDuringCalls(calls: seq<FactoryCall>): (observed: seq<Option<Value>>)
    decreases |calls|
  {
    if calls == [] then []
    else
      var before := calls[..|calls| - 1];
      ReadsDuringCalls(before) +
      match calls[|calls| - 1]
      case CallGet(path) => [Traverse(Rec(StateAfterCalls(before)), path)]
      case _ => []
  }

  /**
   * The fill loop of `setter` and `patcher`: each key of the partial whose
   * value is `undefined` takes the previous value when that is non-null.
   */
  method FillUndefined(partial: PartialState, previous: map<string, Value>)
    modifies partial
    ensures partial.fields == Filled(old(partial.fields), previous)
  {
    ghost var original := partial.fields;
    var pending := partial.fields.Keys;
    while pending != {}
      invariant pending <= original.Keys == partial.fields.Keys
      invariant forall k :: k in pending ==> partial.fields[k] == original[k]
      invariant forall k :: k in original && k !in pending ==>
                  partial.fields[k] == FilledValue(original[k], previous, k)
      decreases pending
    {
      var key :| key in pending;
      if partial.fields[key].Undefined? && HasNonNull(previous, key) {
        partial.fields := partial.fields[key := previous[key]];
      }
      pending := pending - {key};
    }
  }

  /** What `select` hands back: the read-only state signal itself, or a cached derived value. */
  datatype Selected = StateSignal | Derived(entry: Computed)

  /**
   * A derived value made by `select`. It keeps the request it was made for
   * and reads that path from its store's current state whenever it is read.
   */
  class Computed {
    const store: SignalStore
    const request: Request

    constructor (store: SignalStore, request: Request)
      ensures this.store == store && this.request == request
    {
      this.store := store;
      this.request := request;
    }

    /** The key under which this value sits in its store's cache. */
    function CacheKey(): string {
      RequestKey(request, store.stringify)
    }

    /** Reading the derived value: the requested path of the store's current state. */
    function Read(): (r: Option<Value>)
      reads store
      ensures request.path == [] ==> r == Some(Rec(store.state))
      ensures |request.path| == 1 ==> r == Lookup(Rec(store.state), request.path[0])
    {
      Traverse(Rec(store.state), request.path)
    }
  }

  class SignalStore {
    /** The record held by the store's signal. */
    var state: map<string, Value>
    /** `computedCache`: derived values by cache key; it only grows. */
    var cache: map<string, Computed>
    /** `JSON.stringify` on computed options. */
    const stringify: ComputedOptions -> string

    /** Every cached derived value belongs to this store and sits under its own key. */
    ghost predicate Valid()
      reads this
    {
      forall key :: key in cache ==> cache[key].store == this && cache[key].CacheKey() == key
    }

    /**
     * `signalStore(initialState)`. A literal is the starting state. A factory
     * runs against a store that starts as the empty record, and what it
     * returns then replaces the state wholesale.
     */
    constructor (initial: InitialState, stringify: ComputedOptions -> string)
      ensures Valid() && cache == map[] && this.stringify == stringify
      ensures initial.FromLiteral? ==> state == initial.fields
      ensures initial.FromFactory? ==> state == initial.finish(ReadsDuringCalls(initial.calls))
    {
      this.stringify := stringify;
      state := if initial.FromLiteral? then initial.fields else map[];
      cache := map[];
      new;
      if initial.FromFactory? {
        var calls := initial.calls;
        var observed: seq<Option<Value>> := [];
        var i := 0;
        while i < |calls|
          invariant 0 <= i <= |calls|
          invariant Valid() && cache == map[]
          invariant state == StateAfterCalls(calls[..i])
          invariant observed == ReadsDuringCalls(calls[..i])
        {
          assert calls[..i + 1][..i] == calls[..i];
          match calls[i] {
            case CallSet(partial) =>
              var obj := new PartialState(partial);
              Set(Partial(obj));
            case CallSetWith(update) =>
              Set(Updater(update));
            case CallPatch(partial) =>
              var obj := new PartialState(partial);
              Patch(obj);
            case CallGet(path) =>
              var v := Get(path);
              observed := observed + [v];
          }
          i := i + 1;
        }
        assert calls[..i] == calls;
        state := initial.finish(observed);
      }
    }

    /**
     * `set`: fill the partial's `undefined` fields in place, then merge it
     * over the previous state. An updater is applied to the current state
     * first and its result merged by the same rule.
     */
    method Set(argument: SetArgument)
      requires Valid()
      modifies this, if argument.Partial? then {argument.obj} else {}
      ensures Valid() && cache == old(cache)
      ensures argument.Partial? ==> state == SetState(old(state), old(argument.obj.fields))
      ensures argument.Partial? ==> argument.obj.fields == Filled(old(argument.obj.fields), old(state))
      ensures argument.Updater? ==> state == SetState(old(state), argument.update(old(state)))
    {
      var partial: PartialState;
      if argument.Partial? {
        partial := argument.obj;
      } else {
        partial := new PartialState(argument.update(state));
      }
      FillUndefined(partial, state);
      state := state + partial.fields;
    }

    /**
     * `patch`: fill the partial's `undefined` fields in place, then merge the
     * previous state over it, so only keys new to the state are added.
     */
    method Patch(partial: PartialState)
      requires Valid()
      modifies this, partial
      ensures Valid() && cache == old(cache)
      ensures partial.fields == Filled(old(partial.fields), old(state))
      ensures state == PatchState(old(state), old(partial.fields))
    {
      FillUndefined(partial, state);
      state := partial.fields + state;
    }

    /** `get(...keys)`: the whole state for no keys, otherwise the nested field; state and cache untouched. */
    method Get(path: seq<string>) returns (r: Option<Value>)
      ensures r == Traverse(Rec(state), path)
    {
      if |path| == 0 {
        return Some(Rec(state));
      }
      r := Traverse(Rec(state), path);
    }

    /**
     * `select(...keysAndOptions)`. No arguments: the state signal, cache
     * untouched. Otherwise the derived value cached under the request's key,
     * created (fresh) only when that key is missing.
     */
    method Select(args: seq<SelectArg>) returns (r: Selected)
      requires Valid()
      modifies this
      ensures Valid() && state == old(state)
      ensures args == [] ==> r == StateSignal && cache == old(cache)
      ensures args != [] ==> r.Derived? && r.entry.store == this
      ensures args != [] ==>
                var key := RequestKey(Resolve(args), stringify);
                && key in cache && cache[key] == r.entry
                && (key in old(cache) ==> cache == old(cache))
                && (key !in old(cache) ==>
                      fresh(r.entry) && r.entry.request == Resolve(args) && cache == old(cache)[key := r.entry])
    {
      if |args| == 0 {
        return StateSignal;
      }
      var request := Resolve(args);
      var key := RequestKey(request, stringify);
      if key !in cache {
        var entry := new Computed(this, request);
        cache := cache[key := entry];
      }
      r := Derived(cache[key]);
    }
  }

  /** Two selections with the same arguments return the same value. */
  method SelectTwice(store: SignalStore, args: seq<SelectArg>) returns (first: Selected, second: Selected)
    requires store.Valid()
    modifies store
    ensures store.Valid() && store.state == old(store.state)
    ensures first == second
    ensures old(store.cache).Keys <= store.cache.Keys
  {
    first := store.Select(args);
    second := store.Select(args);
  }

  /** Selections on one path whose options serialise differently are distinct values. */
  method SelectWithTwoOptions(store: SignalStore, path: seq<string>, o1: ComputedOptions, o2: ComputedOptions)
    returns (first: Selected, second: Selected)
    requires store.Valid() && path != []
    requires store.stringify(o1) != store.stringify(o2)
    modifies store
    ensures first.Derived? && second.Derived? && first.entry != second.entry
  {
    var keys := seq(|path|, i requires 0 <= i < |path| => KeyArg(path[i]));
    first := store.Select(keys + [OptionsArg(o1)]);
    second := store.Select(keys + [OptionsArg(o2)]);
    var r1 := Resolve(keys + [OptionsArg(o1)]);
    var r2 := Resolve(keys + [OptionsArg(o2)]);
    assert ArgsOf(r1) == keys + [OptionsArg(o1)];
    assert ArgsOf(r2) == keys + [OptionsArg(o2)];
    assert r1.path == path == r2.path;
    OptionsKeyIff(path, o1, o2, store.stringify);
  }

  /**
   * On a new store, a derived value for `'a', 'b'` obtained before
   * `set({a: {b: 5}})` reads 5 afterwards, without selecting again.
   */
  method SelectSeesLaterSet(stringify: ComputedOptions -> string) returns (store: SignalStore, selected: Selected)
    ensures selected.Derived? && selected.entry.Read() == Some(Num(5))
  {
    store := new SignalStore(FromLiteral(map[]), stringify);
    selected := store.Select([KeyArg("a"), KeyArg("b")]);
    assert Resolve([KeyArg("a"), KeyArg("b")]) == Request(["a", "b"], NoOptions);
    var partial := new PartialState(map["a" := Rec(map["b" := Num(5)])]);
    store.Set(Partial(partial));
    assert store.state["a"] == Rec(map["b" := Num(5)]);
  }

  /**
   * A factory that sets `a` to 1 and returns `{b: get('a') + 1}` ends with
   * state `{b: 2}`: the write to `a` is seen by `get` and then discarded.
   */
  method FactoryReplacesState(stringify: ComputedOptions -> string) returns (store: SignalStore)
    ensures store.state == map["b" := Num(2)]
  {
    var finish := (observed: seq<Option<Value>>) =>
      if |observed| == 1 && observed[0].Some? && observed[0].value.Num? then map["b" := Num(observed[0].value.n + 1)] else map[];
    var calls := [CallSet(map["a" := Num(1)]), CallGet(["a"])];
    store := new SignalStore(FromFactory(calls, finish), stringify);
    assert calls[..1] == [CallSet(map["a" := Num(1)])];
    assert StateAfterCalls(calls[..1]) == map["a" := Num(1)];
    assert ReadsDuringCalls(calls) == [Some(Num(1))];
  }
}
