/**
 * How `select` turns its arguments into a path, the options handed to the
 * host framework, and the key of the memoisation cache (signal-store.ts,
 * `select` and `parseStoreOptions`).
 */
module SelectArgs {
  import opened Wrappers

  /**
   * A `CreateComputedOptions` object. Its contents only matter through its
   * serialisation, which the store receives as a function.
   */
  datatype ComputedOptions = ComputedOptions(id: nat)

  /** One argument of `select`: a field name, or an (object-typed) options argument. */
  datatype SelectArg = KeyArg(key: string) | OptionsArg(options: ComputedOptions)

  /** Prefix of the cache key of a whole-state selection made with options. */
  const StoreComputedKey: string := "__ngt_signal_store_computed__"

  /**
   * The options argument as it reaches the host framework's `computed`:
   * absent, the options object itself, or (for a whole-state selection with
   * options) the one-element argument array that holds it.
   */
  datatype PassedOptions = NoOptions | Given(options: ComputedOptions) | InArgumentArray(options: ComputedOptions)

  /** What one `select` call asks for: the path read from the state and the options passed on. */
  datatype Request = Request(path: seq<string>, options: PassedOptions)

  datatype ParsedArgs = ParsedArgs(keys: seq<SelectArg>, options: Option<ComputedOptions>)

  /** The argument list that a parse result came from. */
  function Unparse(p: ParsedArgs): seq<SelectArg> {
    p.keys + (if p.options.Some? then [OptionsArg(p.options.value)] else [])
  }

  /**
   * `parseStoreOptions`: a trailing object argument is the options, every
   * argument before it a key; with no trailing object every argument is a key.
   */
  function ParseStoreOptions(args: seq<SelectArg>): (r: ParsedArgs)
    ensures Unparse(r) == args
    ensures r.options.None? ==> args == [] || args[|args| - 1].KeyArg?
  {
    if |args| > 0 && args[|args| - 1].OptionsArg? then
      ParsedArgs(args[..|args| - 1], Some(args[|args| - 1].options))
    else
      ParsedArgs(args, None)
  }

  /** JavaScript's `String(arg)` for an argument that ends up among the keys. */
  function ArgText(a: SelectArg): string {
    match a
    case KeyArg(key) => key
    case OptionsArg(_) => "[object Object]"
  }

  function ArgTexts(args: seq<SelectArg>): (r: seq<string>)
    ensures |r| == |args|
    ensures forall i :: 0 <= i < |args| && args[i].KeyArg? ==> r[i] == args[i].key
  {
    seq(|args|, i requires 0 <= i < |args| => ArgText(args[i]))
  }

  /** `keys.join('-')`. */
  function Join(keys: seq<string>): (r: string)
    ensures |keys| == 1 ==> r == keys[0]
    ensures |keys| >= 2 ==> '-' in r
    ensures |keys| <= 1 && (forall i :: 0 <= i < |keys| ==> NoDash(keys[i])) ==> NoDash(r)
    decreases |keys|
  {
    if |keys| == 0 then ""
    else if |keys| == 1 then keys[0]
    else keys[0] + "-" + Join(keys[1..])
  }

  /** `s.split('-')`: the reference against which `Join` is read back. */
  function SplitOnDash(s: string): (parts: seq<string>)
    ensures |parts| >= 1
    decreases |s|
  {
    if |s| == 0 then [""]
    else
      var rest := SplitOnDash(s[1..]);
      if s[0] == '-' then [""] + rest else [[s[0]] + rest[0]] + rest[1..]
  }

  predicate NoDash(key: string) {
    '-' !in key
  }

  lemma {:induction false} SplitWithoutDash(a: string)
    requires NoDash(a)
    ensures SplitOnDash(a) == [a]
    decreases |a|
  {
    if |a| > 0 {
      SplitWithoutDash(a[1..]);
      assert [a[0]] + a[1..] == a;
    }
  }

  lemma {:induction false} SplitAfterKey(a: string, t: string)
    requires NoDash(a)
    ensures SplitOnDash(a + "-" + t) == [a] + SplitOnDash(t)
    decreases |a|
  {
    if |a| == 0 {
      assert a + "-" + t == "-" + t;
      assert ("-" + t)[1..] == t;
    } else {
      var s := a + "-" + t;
      assert s[0] == a[0];
      assert s[1..] == a[1..] + "-" + t;
      SplitAfterKey(a[1..], t);
      assert [a[0]] + a[1..] == a;
    }
  }

  /** Splitting the joined key gives the path back when no key holds a dash. */
  lemma {:induction false} SplitJoin(keys: seq<string>)
    requires |keys| >= 1
    requires forall i :: 0 <= i < |keys| ==> NoDash(keys[i])
    ensures SplitOnDash(Join(keys)) == keys
    decreases |keys|
  {
    if |keys| == 1 {
      SplitWithoutDash(keys[0]);
    } else {
      SplitJoin(keys[1..]);
      SplitAfterKey(keys[0], Join(keys[1..]));
    }
  }

  /** The joined key determines a non-empty path whose keys hold no dash. */
  lemma JoinInjectiveWithoutDash(p: seq<string>, q: seq<string>)
    requires |p| >= 1 && |q| >= 1
    requires forall i :: 0 <= i < |p| ==> NoDash(p[i])
    requires forall i :: 0 <= i < |q| ==> NoDash(q[i])
    ensures Join(p) == Join(q) <==> p == q
  {
    SplitJoin(p);
    SplitJoin(q);
  }

  /** A key that holds a dash collides with the path its pieces spell: `'a-b'` and `'a', 'b'`. */
  lemma JoinCollidesOnDash()
    ensures Join(["a-b"]) == Join(["a", "b"])
    ensures ["a-b"] != ["a", "b"]
  {
  }

  /** Every argument but the last is a key, as the typed overloads of `select` demand. */
  predicate KeysBeforeLast(args: seq<SelectArg>) {
    forall i :: 0 <= i < |args| - 1 ==> args[i].KeyArg?
  }

  /** The argument list a typed caller writes for a request. */
  function ArgsOf(req: Request): seq<SelectArg> {
    seq(|req.path|, i requires 0 <= i < |req.path| => KeyArg(req.path[i])) +
    match req.options
    case NoOptions => []
    case Given(o) => [OptionsArg(o)]
    case InArgumentArray(o) => [OptionsArg(o)]
  }

  /**
   * The request one non-empty `select` call makes: a lone options argument
   * selects the whole state (and passes the argument array on as options);
   * otherwise `parseStoreOptions` splits keys from options.
   */
  function Resolve(args: seq<SelectArg>): (r: Request)
    requires args != []
    ensures r.options.InArgumentArray? <==> |args| == 1 && args[0].OptionsArg?
    ensures r.options.InArgumentArray? ==> r.path == []
    ensures !r.options.InArgumentArray? ==> |r.path| >= 1
    ensures KeysBeforeLast(args) ==> ArgsOf(r) == args
  {
    if |args| == 1 && args[0].OptionsArg? then
      Request([], InArgumentArray(args[0].options))
    else
      var parsed := ParseStoreOptions(args);
      var r := Request(ArgTexts(parsed.keys), if parsed.options.Some? then Given(parsed.options.value) else NoOptions);
      assert KeysBeforeLast(args) ==> ArgsOf(r) == args by {
        if KeysBeforeLast(args) {
          assert forall i :: 0 <= i < |parsed.keys| ==> parsed.keys[i] == args[i];
        }
      }
      r
  }

  /**
   * The cache key: `STORE_COMPUTED_KEY + JSON.stringify(options)` for a
   * whole-state selection, otherwise the joined keys followed by the
   * serialised options when there are any.
   */
  function RequestKey(req: Request, stringify: ComputedOptions -> string): (r: string)
    ensures req.options.InArgumentArray? ==>
              StoreComputedKey <= r && r[|StoreComputedKey|..] == stringify(req.options.options)
    ensures req.options.Given? ==>
              Join(req.path) <= r && r[|Join(req.path)|..] == stringify(req.options.options)
    ensures req.options.NoOptions? ==> r == Join(req.path)
  {
    match req.options
    case InArgumentArray(o) => StoreComputedKey + stringify(o)
    case Given(o) => Join(req.path) + stringify(o)
    case NoOptions => Join(req.path)
  }

  /** On one path, two option objects share a cache key exactly when they serialise alike. */
  lemma OptionsKeyIff(path: seq<string>, o1: ComputedOptions, o2: ComputedOptions, stringify: ComputedOptions -> string)
    ensures RequestKey(Request(path, Given(o1)), stringify) == RequestKey(Request(path, Given(o2)), stringify)
            <==> stringify(o1) == stringify(o2)
  {
  }

  /** The same holds for whole-state selections with options. */
  lemma WholeStateKeyIff(o1: ComputedOptions, o2: ComputedOptions, stringify: ComputedOptions -> string)
    ensures RequestKey(Request([], InArgumentArray(o1)), stringify) == RequestKey(Request([], InArgumentArray(o2)), stringify)
            <==> stringify(o1) == stringify(o2)
  {
  }

  /** A path with options and the same path without them share a key exactly when the options serialise to "". */
  lemma OptionsVersusNoneIff(path: seq<string>, o: ComputedOptions, stringify: ComputedOptions -> string)
    ensures RequestKey(Request(path, Given(o)), stringify) == RequestKey(Request(path, NoOptions), stringify)
            <==> stringify(o) == ""
  {
  }
}
