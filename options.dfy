/**
 * The option merge of `iet_lower`: four defaulted rewrite options, each of
 * which a recognised user option overrides; any other user option is
 * reported with a warning and dropped.
 */
module Options {

  /** A Python value that may be supplied as an option. */
  datatype OptValue = NoneValue | BoolValue(b: bool) | IntValue(i: int) | StrValue(s: string)

  /**
   * Python truthiness of an option value: the falsy values are `None`,
   * `False`, `0` and the empty string.
   */
  predicate Truthy(v: OptValue)
    ensures Truthy(v) <==> v !in {NoneValue, BoolValue(false), IntValue(0), StrValue("")}
  {
    match v
    case NoneValue => false
    case BoolValue(b) => b
    case IntValue(i) => i != 0
    case StrValue(s) => s != ""
  }

  /** The resolved option dictionary (`params`). */
  type Params = map<string, OptValue>

  /** A user-supplied option dictionary, in its insertion order. */
  type UserOptions = seq<(string, OptValue)>

  /** The only keys `params` ever holds. */
  const ParamKeys: set<string> := {"blockinner", "blocklevels", "openmp", "mpi"}

  /** The warning emitted for an option key that is not recognised. */
  datatype Warning = IllegalOption(key: string)

  /** `d.get(k, default)` on a dictionary. */
  function Get(d: map<string, OptValue>, k: string, default: OptValue): (v: OptValue)
    ensures k !in d ==> v == default
    ensures k in d ==> v == d[k]
  {
    if k in d then d[k] else default
  }

  /** A Python dictionary has no key twice. */
  predicate DistinctKeys(options: UserOptions) {
    forall i, j :: 0 <= i < j < |options| ==> options[i].0 != options[j].0
  }

  /**
   * The default options: `blockinner` and `blocklevels` from the
   * configured rewrite options (falling back to False and None), `openmp`
   * and `mpi` from the configuration.
   */
  function DefaultParams(dleOptions: map<string, OptValue>, openmp: OptValue, mpi: OptValue): (p: Params)
    ensures p.Keys == ParamKeys
    ensures p["blockinner"] == (if "blockinner" in dleOptions then dleOptions["blockinner"] else BoolValue(false))
    ensures p["blocklevels"] == (if "blocklevels" in dleOptions then dleOptions["blocklevels"] else NoneValue)
    ensures p["openmp"] == openmp && p["mpi"] == mpi
  {
    map["blockinner" := Get(dleOptions, "blockinner", BoolValue(false)),
        "blocklevels" := Get(dleOptions, "blocklevels", NoneValue),
        "openmp" := openmp,
        "mpi" := mpi]
  }

  /** One iteration of the merge: a known key is overwritten, any other ignored. */
  function Apply(params: Params, option: (string, OptValue)): (r: Params)
    ensures r.Keys == params.Keys
    ensures option.0 in params ==> r[option.0] == option.1
    ensures forall k :: k in params && k != option.0 ==> r[k] == params[k]
  {
    if option.0 in params then params[option.0 := option.1] else params
  }

  /** The options after every user option has been applied in order. */
  function Merged(params: Params, options: UserOptions): (r: Params)
    ensures r.Keys == params.Keys
    decreases |options|
  {
    if |options| == 0 then params
    else Apply(Merged(params, options[..|options| - 1]), options[|options| - 1])
  }

  /** The warning one user option causes: none for a known key. */
  function Warned(known: set<string>, option: (string, OptValue)): seq<Warning> {
    if option.0 in known then [] else [IllegalOption(option.0)]
  }

  /** The warnings, in order: one per user option whose key is not known. */
  function Rejected(known: set<string>, options: UserOptions): (ws: seq<Warning>)
    ensures |ws| <= |options|
    ensures ws == [] <==> forall i :: 0 <= i < |options| ==> options[i].0 in known
    decreases |options|
  {
    if |options| == 0 then []
    else Rejected(known, options[..|options| - 1]) + Warned(known, options[|options| - 1])
  }

  /** Every warning names an unknown key, and every unknown key supplied is warned about. */
  lemma {:induction false} RejectedExactlyUnknown(known: set<string>, options: UserOptions)
    ensures forall w :: w in Rejected(known, options) ==> w.key !in known
    ensures forall i :: 0 <= i < |options| && options[i].0 !in known ==> IllegalOption(options[i].0) in Rejected(known, options)
    decreases |options|
  {
    if |options| > 0 {
      var init := options[..|options| - 1];
      RejectedExactlyUnknown(known, init);
      assert forall i :: 0 <= i < |init| ==> options[i] == init[i];
    }
  }

  /**
   * The loop of `iet_lower` that overwrites `params` entries with the
   * user's options and warns about the rest.
   */
  method MergeOptions(defaults: Params, options: UserOptions) returns (params: Params, warnings: seq<Warning>)
    ensures params == Merged(defaults, options)
    ensures warnings == Rejected(defaults.Keys, options)
  {
    params, warnings := defaults, [];
    var i := 0;
    while i < |options|
      invariant 0 <= i <= |options|
      invariant params == Merged(defaults, options[..i])
      invariant warnings == Rejected(defaults.Keys, options[..i])
    {
      var (k, v) := options[i];
      assert options[..i + 1][..i] == options[..i];
      if k !in params {
        warnings := warnings + [IllegalOption(k)];
      } else {
        params := params[k := v];
      }
      i := i + 1;
    }
    assert options[..i] == options;
  }

  /** A recognised option supplied by the user replaces its default. */
  lemma {:induction false} MergedOverride(params: Params, options: UserOptions, i: nat)
    requires DistinctKeys(options)
    requires i < |options| && options[i].0 in params
    ensures Merged(params, options)[options[i].0] == options[i].1
    decreases |options|
  {
    var n := |options| - 1;
    var init := options[..n];
    if i < n {
      assert DistinctKeys(init);
      assert init[i] == options[i];
      MergedOverride(params, init, i);
      assert options[n].0 != options[i].0;
    }
  }

  /** An option the user does not supply keeps its default. */
  lemma {:induction false} MergedDefault(params: Params, options: UserOptions, k: string)
    requires k in params
    requires forall i :: 0 <= i < |options| ==> options[i].0 != k
    ensures Merged(params, options)[k] == params[k]
    decreases |options|
  {
    if |options| > 0 {
      var init := options[..|options| - 1];
      assert forall i :: 0 <= i < |init| ==> init[i] == options[i];
      MergedDefault(params, init, k);
    }
  }

  /** How many user options carry the key `k`. */
  function Occurrences(options: UserOptions, k: string): nat
    decreases |options|
  {
    if |options| == 0 then 0
    else Occurrences(options[..|options| - 1], k) + (if options[|options| - 1].0 == k then 1 else 0)
  }

  /** An unrecognised key gives one warning per occurrence, a known key none. */
  lemma {:induction false} WarningCount(known: set<string>, options: UserOptions, k: string)
    ensures multiset(Rejected(known, options))[IllegalOption(k)]
         == (if k in known then 0 else Occurrences(options, k))
    decreases |options|
  {
    if |options| > 0 {
      WarningCount(known, options[..|options| - 1], k);
    }
  }

  /** In a Python dictionary a key that occurs at all occurs once. */
  lemma {:induction false} OccursOnce(options: UserOptions, i: nat)
    requires DistinctKeys(options)
    requires i < |options|
    ensures Occurrences(options, options[i].0) == 1
    decreases |options|
  {
    var n := |options| - 1;
    var init := options[..n];
    var k := options[i].0;
    assert forall j :: 0 <= j < n ==> init[j] == options[j];
    if i == n {
      Absent(init, k);
    } else {
      assert DistinctKeys(init);
      OccursOnce(init, i);
      assert options[n].0 != k;
    }
  }

  /** A key that no option carries occurs zero times. */
  lemma {:induction false} Absent(options: UserOptions, k: string)
    requires forall i :: 0 <= i < |options| ==> options[i].0 != k
    ensures Occurrences(options, k) == 0
    decreases |options|
  {
    if |options| > 0 {
      var init := options[..|options| - 1];
      assert forall i :: 0 <= i < |init| ==> init[i] == options[i];
      Absent(init, k);
    }
  }

  /** For a Python dictionary, each unrecognised key warns exactly once. */
  lemma OneWarningPerIllegalKey(known: set<string>, options: UserOptions, i: nat)
    requires DistinctKeys(options)
    requires i < |options| && options[i].0 !in known
    ensures multiset(Rejected(known, options))[IllegalOption(options[i].0)] == 1
  {
    WarningCount(known, options, options[i].0);
    OccursOnce(options, i);
  }

  /**
   * `language` is documented as an option but is not a key of `params`:
   * supplying it warns and it never reaches the resolved options.
   */
  lemma LanguageOptionIsDropped(dleOptions: map<string, OptValue>, openmp: OptValue, mpi: OptValue,
                                options: UserOptions, i: nat)
    requires i < |options| && options[i].0 == "language"
    ensures "language" !in Merged(DefaultParams(dleOptions, openmp, mpi), options)
    ensures IllegalOption("language") in Rejected(ParamKeys, options)
  {
    RejectedExactlyUnknown(ParamKeys, options);
  }
}
