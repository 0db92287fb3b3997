/**
 * Values held in a store and the nested-path read shared by `get` and
 * `select` (signal-store.ts, the `keys.reduce` traversals).
 */
module Values {
  import opened Wrappers

  /**
   * A JavaScript value as the store sees it. `undefined` and `null` are kept
   * apart because the store tests them differently (`=== undefined` versus
   * `!= null`); plain objects are records of named fields.
   */
  datatype Value =
    | Undefined
    | Null
    | Bool(b: bool)
    | Num(n: int)
    | Str(s: string)
    | Rec(fields: map<string, Value>)

  /** The values for which JavaScript's loose test `v != null` is false. */
  predicate IsNullish(v: Value) {
    v.Undefined? || v.Null?
  }

  /**
   * One step `(value as NgtAnyRecord)[key]`. `None` stands for the TypeError
   * raised when indexing into `null` or `undefined`; a missing own field of a
   * record reads as `undefined` (inherited names are not modelled).
   */
  function Lookup(v: Value, key: string): (r: Option<Value>)
    ensures r.None? <==> IsNullish(v)
    ensures v.Rec? && key in v.fields ==> r == Some(v.fields[key])
    ensures v.Rec? && key !in v.fields ==> r == Some(Undefined)
  {
    match v
    case Undefined => None
    case Null => None
    case Rec(fields) => Some(if key in fields then fields[key] else Undefined)
    case _ => Some(Undefined)
  }

  /**
   * `keys.reduce((value, key) => value[key], root)`: successive field lookup
   * from the root; a fault at any step ends the traversal.
   */
  function Traverse(root: Value, path: seq<string>): (r: Option<Value>)
    ensures path == [] ==> r == Some(root)
    ensures |path| == 1 ==> r == Lookup(root, path[0])
    decreases |path|
  {
    if path == [] then Some(root)
    else
      match Lookup(root, path[0])
      case None => None
      case Some(child) => Traverse(child, path[1..])
  }

  /** Reading `p + q` is reading `p`, then reading `q` from where `p` ended. */
  lemma {:induction false} TraverseAppend(root: Value, p: seq<string>, q: seq<string>)
    ensures Traverse(root, p + q) ==
              match Traverse(root, p)
              case None => None
              case Some(v) => Traverse(v, q)
    decreases |p|
  {
    if p == [] {
      assert p + q == q;
    } else {
      assert (p + q)[0] == p[0];
      assert (p + q)[1..] == p[1..] + q;
      match Lookup(root, p[0])
      case None =>
      case Some(child) => TraverseAppend(child, p[1..], q);
    }
  }

  /** Reading a non-empty path out of `null` or `undefined` always faults. */
  lemma NullishHasNoFields(v: Value, path: seq<string>)
    requires path != []
    ensures Traverse(v, path).Some? ==> !IsNullish(v)
  {
  }

  /**
   * A path can be read exactly when every proper prefix of it reaches a value
   * that is neither `null` nor `undefined`: the only fault is indexing into
   * one of those.
   */
  lemma {:induction false} TraverseSucceedsIff(root: Value, path: seq<string>)
    ensures Traverse(root, path).Some? <==>
              forall i :: 0 <= i < |path| ==>
                Traverse(root, path[..i]).Some? && !IsNullish(Traverse(root, path[..i]).value)
    decreases |path|
  {
    if path == [] {
      return;
    }
    var n := |path|;
    var init := path[..n - 1];
    assert path == init + [path[n - 1]];
    TraverseAppend(root, init, [path[n - 1]]);
    if Traverse(root, path).Some? {
      forall i | 0 <= i < n
        ensures Traverse(root, path[..i]).Some? && !IsNullish(Traverse(root, path[..i]).value)
      {
        assert path == path[..i] + path[i..];
        TraverseAppend(root, path[..i], path[i..]);
        NullishHasNoFields(Traverse(root, path[..i]).value, path[i..]);
      }
    } else {
      TraverseSucceedsIff(root, init);
      forall i | 0 <= i < n - 1
        ensures init[..i] == path[..i]
      {
      }
      assert path[..n - 1] == init;
    }
  }
}
