/**
 * Rewrite modes and the mode resolution of `iet_lower`: a request to run
 * no optimisation still honours the parallelism enabled in the options.
 */
module Modes {
  import opened Wrappers
  import opened Options

  /**
   * A registry lookup key: a mode name (`'noop'`, `'advanced'`, `'custom'`,
   * ...) or a tuple of pass names. A tuple synthesised from the enabled
   * parallelism flags and a tuple of passes requested by the user are the
   * same kind of key, as they are in `iet_lower`.
   */
  datatype Mode = Name(name: string) | Passes(passes: seq<string>)

  const Noop: Mode := Name("noop")
  const Advanced: Mode := Name("advanced")
  const Custom: Mode := Name("custom")

  /** The parallelism flags a `'noop'` request still honours, in order. */
  const ParallelFlags: seq<string> := ["mpi", "openmp"]

  /** The names among `names` whose option is truthy, in the order of `names`. */
  function EnabledIn(names: seq<string>, params: Params): (r: seq<string>)
    requires forall n :: n in names ==> n in params
    ensures forall n :: n in r <==> n in names && Truthy(params[n])
    ensures |r| <= |names|
    decreases |names|
  {
    if |names| == 0 then []
    else (if Truthy(params[names[0]]) then [names[0]] else []) + EnabledIn(names[1..], params)
  }

  /** Selecting enabled names distributes over concatenation, so order is kept. */
  lemma {:induction false} EnabledInConcat(a: seq<string>, b: seq<string>, params: Params)
    requires forall n :: n in a + b ==> n in params
    ensures EnabledIn(a + b, params) == EnabledIn(a, params) + EnabledIn(b, params)
    decreases |a|
  {
    if |a| == 0 {
      assert a + b == b;
    } else {
      assert (a + b)[1..] == a[1..] + b;
      EnabledInConcat(a[1..], b, params);
    }
  }

  /** The synthesised key lists `mpi` before `openmp`, each only when enabled. */
  lemma ParallelFlagsInOrder(params: Params)
    requires "mpi" in params && "openmp" in params
    ensures EnabledIn(ParallelFlags, params)
         == (if Truthy(params["mpi"]) then ["mpi"] else []) + (if Truthy(params["openmp"]) then ["openmp"] else [])
  {
    EnabledInConcat(["mpi"], ["openmp"], params);
    assert ParallelFlags == ["mpi"] + ["openmp"];
  }

  /**
   * The effective lookup key: no mode means `'noop'`; `'noop'` becomes the
   * tuple of enabled parallelism flags, or stays `'noop'` when none is
   * enabled; any other mode passes through unchanged.
   */
  function ResolveMode(mode: Option<Mode>, params: Params): (r: Mode)
    requires "mpi" in params && "openmp" in params
    ensures mode.None? ==> r == Noop
    ensures mode.Some? && mode.value != Noop ==> r == mode.value
    ensures mode == Some(Noop) ==> (r == Noop <==> !Truthy(params["mpi"]) && !Truthy(params["openmp"]))
    ensures mode == Some(Noop) && r != Noop ==>
      r.Passes? && |r.passes| > 0 &&
      forall n :: n in r.passes <==> n in ParallelFlags && Truthy(params[n])
    ensures mode == Some(Noop) && r != Noop ==>
      r == Passes((if Truthy(params["mpi"]) then ["mpi"] else []) + (if Truthy(params["openmp"]) then ["openmp"] else []))
  {
    ParallelFlagsInOrder(params);
    match mode
    case None => Noop
    case Some(m) =>
      if m == Noop then
        var flags := EnabledIn(ParallelFlags, params);
        if flags == [] then Noop else Passes(flags)
      else m
  }
}
