/**
 * `iet_lower`: merge the options, resolve the mode, select the rewriter
 * (falling back to the platform's custom rewriter), run it and report the
 * pass timings.
 */
module Lowering {
  import opened Wrappers
  import opened Platforms
  import opened Options
  import opened Modes
  import opened Targets
  import opened Registry
  import opened Profiling

  /** The parts of the global configuration that lowering reads. */
  datatype Configuration = Configuration(
    platform: Platform,
    dleOptions: map<string, OptValue>,
    openmp: OptValue,
    mpi: OptValue,
    profiling: string)

  /** The mode `iet_lower` uses when the caller names none. */
  const DefaultMode: Option<Mode> := Some(Advanced)

  /** The options in effect for one call. */
  function ResolvedParams(cfg: Configuration, options: UserOptions): (p: Params)
    ensures p.Keys == ParamKeys
  {
    Merged(DefaultParams(cfg.dleOptions, cfg.openmp, cfg.mpi), options)
  }

  /**
   * The rewriter for `mode`: the factory fetched for it, built with
   * `(params, platform)`; if fetching or building raises `KeyError`, the
   * platform's `'custom'` factory, built with `(mode, params, platform)`,
   * whose own `KeyError` is not caught.
   */
  function SelectRewriter(keys: seq<PlatformClass>, table: map<PlatformClass, ModeTable>,
                          platform: Platform, mode: Mode, params: Params): (r: Result<Target, KeyError>)
    requires forall k :: k in keys ==> k in table
    ensures var first := FetchSpec(keys, table, platform.cls.mro, mode);
            var custom := FetchSpec(keys, table, platform.cls.mro, Custom);
      && (r.Ok? <==> (first.Ok? && !first.value.raisesKeyError) || (custom.Ok? && !custom.value.raisesKeyError))
      && (r.Ok? && r.value.passes == None ==> first.Ok? && r.value.kind == first.value.name)
      && (r.Ok? && r.value.passes != None ==> r.value.passes == Some(mode) && custom.Ok? && r.value.kind == custom.value.name)
      && (r.Ok? ==> r.value.params == params && r.value.platform == platform)
      && (r.Err? ==> r.error == if custom.Err? then custom.error else BuildFailed(custom.value.name))
    ensures var first := FetchSpec(keys, table, platform.cls.mro, mode);
            var custom := FetchSpec(keys, table, platform.cls.mro, Custom);
      && (first.Ok? && !first.value.raisesKeyError ==> r == Ok(Target(first.value.name, None, params, platform)))
      && (!(first.Ok? && !first.value.raisesKeyError) && custom.Ok? && !custom.value.raisesKeyError ==>
            r == Ok(Target(custom.value.name, Some(mode), params, platform)))
  {
    var normal := match FetchSpec(keys, table, platform.cls.mro, mode)
      case Ok(f) => Build(f, params, platform)
      case Err(e) => Err(e);
    if normal.Ok? then normal
    else
      match FetchSpec(keys, table, platform.cls.mro, Custom)
      case Ok(f) => BuildCustom(f, mode, params, platform)
      case Err(e) => Err(e)
  }

  /**
   * A pass sequence the platform's mapper does not know is handed, as it
   * is, to the platform's custom rewriter.
   */
  lemma UnknownModeRunsAsCustom(keys: seq<PlatformClass>, table: map<PlatformClass, ModeTable>,
                                platform: Platform, passes: seq<string>, params: Params)
    requires forall k :: k in keys ==> k in table
    requires FetchSpec(keys, table, platform.cls.mro, Passes(passes)).Err?
    requires FetchSpec(keys, table, platform.cls.mro, Custom).Ok?
    requires !FetchSpec(keys, table, platform.cls.mro, Custom).value.raisesKeyError
    ensures SelectRewriter(keys, table, platform, Passes(passes), params)
         == Ok(Target(FetchSpec(keys, table, platform.cls.mro, Custom).value.name, Some(Passes(passes)), params, platform))
  {
  }

  /**
   * The baseline modes never fall back: with a platform registered and a
   * baseline factory that builds, the rewriter is the one registered for
   * that mode.
   */
  lemma BaselineNeverFallsBack(keys: seq<PlatformClass>, table: map<PlatformClass, ModeTable>,
                               platform: Platform, name: string, params: Params)
    requires WellFormed(keys, table) && |keys| > 0 && IsClass(platform.cls)
    requires name in DleRegistry
    requires var f := FetchSpec(keys, table, platform.cls.mro, Name(name)); f.Ok? ==> !f.value.raisesKeyError
    ensures var f := FetchSpec(keys, table, platform.cls.mro, Name(name));
      && f.Ok?
      && SelectRewriter(keys, table, platform, Name(name), params) == Ok(Target(f.value.name, None, params, platform))
  {
    BaselineAlwaysFound(keys, table, platform, name);
  }

  /**
   * A `'noop'` request with MPI enabled and OpenMP disabled looks up the
   * key `('mpi',)`; when the platform's mapper lacks it, the custom
   * rewriter runs the pass sequence `('mpi',)`.
   */
  lemma NoopWithMpiRunsMpiPass(keys: seq<PlatformClass>, table: map<PlatformClass, ModeTable>,
                               cfg: Configuration, options: UserOptions)
    requires WellFormed(keys, table) && |keys| > 0 && IsClass(cfg.platform.cls)
    requires var p := ResolvedParams(cfg, options); Truthy(p["mpi"]) && !Truthy(p["openmp"])
    requires FetchSpec(keys, table, cfg.platform.cls.mro, Passes(["mpi"])).Err?
    requires FetchSpec(keys, table, cfg.platform.cls.mro, Custom).Ok?
    requires !FetchSpec(keys, table, cfg.platform.cls.mro, Custom).value.raisesKeyError
    ensures var p := ResolvedParams(cfg, options);
      SelectRewriter(keys, table, cfg.platform, ResolveMode(Some(Noop), p), p).Ok?
      && SelectRewriter(keys, table, cfg.platform, ResolveMode(Some(Noop), p), p).value.passes == Some(Passes(["mpi"]))
  {
    var p := ResolvedParams(cfg, options);
    ParallelFlagsInOrder(p);
    assert ResolveMode(Some(Noop), p) == Passes(["mpi"]);
  }

  /**
   * Lower `iet` for the configured platform. Returns the lowered root and
   * its graph, the option warnings (emitted before any lookup) and the log
   * (one profiling summary when lowering succeeds).
   */
  method IetLower(targets: TargetsMap, iet: Node, mode: Option<Mode> := DefaultMode, options: UserOptions := [],
                  cfg: Configuration, fmt: nat -> string)
    returns (result: Result<(Node, Graph), KeyError>, warnings: seq<Warning>, log: seq<string>)
    requires targets.Valid()
    ensures warnings == Rejected(ParamKeys, options)
    ensures var params := ResolvedParams(cfg, options);
            var selected := SelectRewriter(targets.keys, targets.table, cfg.platform, ResolveMode(mode, params), params);
      && (result.Ok? <==> selected.Ok?)
      && (result.Err? ==> result.error == selected.error)
    ensures result.Ok? ==>
      && fresh(result.value.1)
      && result.value.0 == iet && result.value.1.root == iet && result.value.1.timings == []
    ensures log == if result.Ok? then [Summary([], cfg.profiling, fmt)] else []
  {
    var params;
    params, warnings := MergeOptions(DefaultParams(cfg.dleOptions, cfg.openmp, cfg.mpi), options);
    var resolved := ResolveMode(mode, params);

    var rewriter: Result<Target, KeyError>;
    var fetched := targets.Fetch(cfg.platform, resolved);
    if fetched.Ok? {
      rewriter := Build(fetched.value, params, cfg.platform);
    } else {
      rewriter := Err(fetched.error);
    }
    if rewriter.Err? {
      var custom := targets.Fetch(cfg.platform, Custom);
      if custom.Err? {
        result, log := Err(custom.error), [];
        return;
      }
      rewriter := BuildCustom(custom.value, resolved, params, cfg.platform);
      if rewriter.Err? {
        result, log := Err(rewriter.error), [];
        return;
      }
    }

    var graph := Process(rewriter.value, iet);
    log := [Summary(graph.timings, cfg.profiling, fmt)];
    result := Ok((graph.root, graph));
  }
}
