/**
 * Rewriters (`Target`) and the graph they rewrite.
 *
 * A rewriter is built from a registry factory, holds the resolved options
 * and the platform, and processes an IET by wrapping it in a `Graph` and
 * running its pipeline of passes over that graph in place. The base
 * pipeline runs no pass.
 */
module Targets {
  import opened Wrappers
  import opened Platforms
  import opened Options
  import opened Modes
  import opened Profiling

  /** An Iteration/Expression tree node; its structure is not inspected here. */
  datatype Node = Node(kind: string, children: seq<Node>)

  /** The `KeyError`s that selecting a rewriter can raise. */
  datatype KeyError =
    | NoRewriter(mode: Mode)     // no registered platform matched any ancestor
    | MissingMode(mode: Mode)    // the matching platform's mapper lacks the mode
    | BuildFailed(factory: string) // the rewriter's constructor raised

  /**
   * A registered rewriter class. Its constructor belongs to a concrete
   * subclass that is not part of this model; `raisesKeyError` records
   * whether constructing it raises `KeyError`.
   */
  datatype Factory = Factory(name: string, raisesKeyError: bool)

  /**
   * A constructed rewriter: its class, the pass sequence it was given when
   * built as a custom rewriter, its options and its platform.
   */
  datatype Target = Target(kind: string, passes: Option<Mode>, params: Params, platform: Platform)

  /** `factory(params, platform)`. */
  function Build(f: Factory, params: Params, platform: Platform): (r: Result<Target, KeyError>)
    ensures r.Ok? <==> !f.raisesKeyError
    ensures r.Err? ==> r.error == BuildFailed(f.name)
    ensures r.Ok? ==> r.value.kind == f.name && r.value.passes == None
                      && r.value.params == params && r.value.platform == platform
  {
    if f.raisesKeyError then Err(BuildFailed(f.name)) else Ok(Target(f.name, None, params, platform))
  }

  /** `factory(mode, params, platform)`: a rewriter told which passes to run. */
  function BuildCustom(f: Factory, passes: Mode, params: Params, platform: Platform): (r: Result<Target, KeyError>)
    ensures r.Ok? <==> !f.raisesKeyError
    ensures r.Err? ==> r.error == BuildFailed(f.name)
    ensures r.Ok? ==> r.value.kind == f.name && r.value.passes == Some(passes)
                      && r.value.params == params && r.value.platform == platform
  {
    if f.raisesKeyError then Err(BuildFailed(f.name)) else Ok(Target(f.name, Some(passes), params, platform))
  }

  /** The unit of work of a pipeline: the IET root and the per-pass timings. */
  class Graph {
    var root: Node
    var timings: Timings

    constructor (iet: Node)
      ensures root == iet && timings == []
    {
      root := iet;
      timings := [];
    }
  }

  /** The rewrite passes of the base rewriter: none. */
  method Pipeline(t: Target, graph: Graph)
    modifies graph
    ensures graph.root == old(graph.root) && graph.timings == old(graph.timings)
  {
  }

  /** Wrap the IET in a new graph and run the pipeline over it. */
  method Process(t: Target, iet: Node) returns (graph: Graph)
    ensures fresh(graph)
    ensures graph.root == iet && graph.timings == []
  {
    graph := new Graph(iet);
    Pipeline(t, graph);
  }
}
