/**
 * The merge rules of the store's `set` and `patch` (signal-store.ts, the
 * `setter` and `patcher` closures), stated on state values. The store class
 * runs them in place; these functions are what it is proved against.
 */
module Merge {
  import opened Values

  /**
   * `previous[key] != null`: the key is an own field of the state and neither
   * null nor undefined (names inherited from `Object.prototype` count as absent).
   */
  predicate HasNonNull(previous: map<string, Value>, key: string) {
    key in previous && !IsNullish(previous[key])
  }

  /** What the fill loop leaves under one key of the incoming partial. */
  function FilledValue(incoming: Value, previous: map<string, Value>, key: string): Value {
    if incoming.Undefined? && HasNonNull(previous, key) then previous[key] else incoming
  }

  /**
   * The partial after the fill loop: an explicit `undefined` is replaced by the
   * previous value when that value is non-null; nothing else changes.
   */
  function Filled(partial: map<string, Value>, previous: map<string, Value>): (r: map<string, Value>)
    ensures r.Keys == partial.Keys
    ensures forall k :: k in partial ==>
              r[k] == partial[k] || (partial[k].Undefined? && k in previous && r[k] == previous[k])
    ensures forall k :: k in r && r[k].Undefined? ==> !HasNonNull(previous, k)
    ensures forall k :: k in partial && partial[k].Undefined? ==>
              r[k] == if HasNonNull(previous, k) then previous[k] else Undefined
  {
    map k | k in partial :: FilledValue(partial[k], previous, k)
  }

  /** The state after `set(partial)`: `{...previous, ...filledPartial}`. */
  function SetState(previous: map<string, Value>, partial: map<string, Value>): (r: map<string, Value>)
    ensures r.Keys == previous.Keys + partial.Keys
    ensures forall k :: k in previous && k !in partial ==> r[k] == previous[k]
    ensures forall k :: k in partial && !partial[k].Undefined? ==> r[k] == partial[k]
    ensures forall k :: k in partial && partial[k].Undefined? ==>
              r[k] == if HasNonNull(previous, k) then previous[k] else Undefined
  {
    previous + Filled(partial, previous)
  }

  /** The state after `patch(partial)`: `{...filledPartial, ...previous}`. */
  function PatchState(previous: map<string, Value>, partial: map<string, Value>): (r: map<string, Value>)
    ensures r.Keys == previous.Keys + partial.Keys
    ensures forall k :: k in previous ==> r[k] == previous[k]
    ensures forall k :: k in partial && k !in previous ==> r[k] == partial[k]
  {
    Filled(partial, previous) + previous
  }

  /** The keys of `partial` that `previous` does not have yet. */
  function NewKeys(partial: map<string, Value>, previous: map<string, Value>): (r: map<string, Value>)
    ensures r.Keys == partial.Keys - previous.Keys
    ensures forall k :: k in r ==> r[k] == partial[k]
  {
    map k | k in partial && k !in previous :: partial[k]
  }

  /** Without explicit `undefined`s, `set` is the plain overwriting merge `{...previous, ...partial}`. */
  lemma SetIsOverwriteWithoutUndefined(previous: map<string, Value>, partial: map<string, Value>)
    requires forall k :: k in partial ==> !partial[k].Undefined?
    ensures SetState(previous, partial) == previous + partial
  {
  }

  /** Setting the same partial twice is the same as setting it once. */
  lemma SetIdempotent(previous: map<string, Value>, partial: map<string, Value>)
    ensures SetState(SetState(previous, partial), partial) == SetState(previous, partial)
  {
  }

  /** `patch` is a `set` of the brand-new keys only. */
  lemma PatchIsSetOfNewKeys(previous: map<string, Value>, partial: map<string, Value>)
    ensures PatchState(previous, partial) == SetState(previous, NewKeys(partial, previous))
  {
  }

  /** A patch whose keys are all present already, `patch({})` among them, changes nothing. */
  lemma PatchOfPresentKeysIsNoop(previous: map<string, Value>, partial: map<string, Value>)
    requires partial.Keys <= previous.Keys
    ensures PatchState(previous, partial) == previous
  {
  }

  /** Patching twice with the same partial is the same as patching once. */
  lemma PatchIdempotent(previous: map<string, Value>, partial: map<string, Value>)
    ensures PatchState(PatchState(previous, partial), partial) == PatchState(previous, partial)
  {
  }

  /**
   * A line's inputs: from `{color: 'black'}`, `set({color: 'red', lineWidth: 2})`
   * then `patch({color: 'blue', dashed: true})` ends in
   * `{color: 'red', lineWidth: 2, dashed: true}`.
   */
  lemma LineInputsExample()
    ensures PatchState(SetState(map["color" := Str("black")],
                                map["color" := Str("red"), "lineWidth" := Num(2)]),
                       map["color" := Str("blue"), "dashed" := Bool(true)])
            == map["color" := Str("red"), "lineWidth" := Num(2), "dashed" := Bool(true)]
  {
  }
}
