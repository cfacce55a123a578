# Target dispatch for IET lowering, modelled in Dafny

This project models the target-dispatch layer of Devito's lowering of an
Iteration/Expression Tree (IET), `devito/targets/basic.py`. That layer
picks the rewriter for a hardware platform and runs it. It has five parts:

- **The registry (`TargetsMap`)** (`registry.dfy`). It is an
  insertion-ordered table from platform classes to mappers, and each
  mapper goes from mode to rewriter factory. `add` checks an entry before
  it stores it. `fetch` walks the platform's method resolution order and
  answers from the first registered key that is a subclass of the current
  ancestor. Platform classes are explicit resolution orders
  (`platforms.dfy`), and `issubclass(k, cls)` means that `cls` is in
  `k`'s resolution order. Every resolution order ends at `object`.
- **Option merge** (`options.dfy`). There are four defaulted options. A
  recognised user option overrides its default. Any other user option is
  warned about and dropped.
- **Mode resolution** (`modes.dfy`). No mode means `'noop'`. A `'noop'`
  request becomes the tuple of enabled parallelism flags, `mpi` before
  `openmp`, or stays `'noop'` when neither flag is enabled. Any other mode
  passes through unchanged.
- **Rewriter selection with the custom fallback, and execution**
  (`lowering.dfy`, `targets.dfy`). A `KeyError` from fetching or building
  the rewriter makes `iet_lower` fetch the platform's `'custom'` factory.
  That factory is built with the mode as its pass sequence. A rewriter
  wraps the IET in a `Graph` and runs its pipeline, which is empty in the
  base class.
- **The profiling summary** (`profiling.dfy`). Its detailed form has one
  row per ledger entry, with the digits removed from the label, and then
  the total. Its terse form has the comma-separated labels and the total.

Points where `basic.py` behaves differently from what its names suggest:

- A mode tuple made from the enabled parallelism flags and a pass tuple
  supplied by the user are the same kind of dictionary key. So both are
  `Modes.Passes`, and they are not separate variants.
- `fetch` stops at the first matching registered key. If that key's mapper
  lacks the mode, the result is a `KeyError` (`MissingMode`), and later
  keys are not tried.
- `fetch` tests `issubclass(k, cls)`, so a registered subclass of the
  platform's own class counts as a match. If it was registered before the
  platform's class, it answers for that platform, although the comment at
  line 36 speaks of the most specific target.
- The fallback also catches a `KeyError` raised while the rewriter is
  being built, not only one raised by the lookup.
- The terse summary lists the ledger labels as recorded, digit suffixes
  included. The detailed rows strip every digit from each label.

## Model

| member | source | states |
|---|---|---|
| `Registry.AddCheck` | devito/targets/basic.py:29-32 | an entry is accepted exactly when its class is a subclass of `Platform` and its mapper has both `'noop'` and `'advanced'`; the platform check comes first |
| `Registry.TargetsMap.constructor` | devito/targets/basic.py:45-46 | the registry starts empty and well formed |
| `Registry.TargetsMap.Add` | devito/targets/basic.py:29-33 | a refused entry changes nothing; an accepted one sets the platform's mapper, keeps the position of a re-registered platform or appends a new one, leaves every other entry alone, and keeps the registry well formed |
| `Registry.FirstKeyFor` | devito/targets/basic.py:38-39 | the index found is that of the first registered key that is a subclass of the ancestor; none is found only if no key is |
| `Registry.FirstMatch` | devito/targets/basic.py:37-39 | the pair found is the first (ancestor, key) pair, ancestors from most specific and keys in insertion order, where the key is a subclass of the ancestor; none is found only if no pair matches |
| `Registry.FetchSpec` | devito/targets/basic.py:35-42 | `fetch` raises the no-rewriter `KeyError` exactly when no registered key is a subclass of any ancestor of the platform's class; any other failure is a missing mode; a success is the factory some registered mapper holds for the mode |
| `Registry.TargetsMap.Fetch` | devito/targets/basic.py:35-42 | the nested search returns the first matching mapper's factory for the mode, `MissingMode` when that mapper lacks it, `NoRewriter` when nothing matches |
| `Registry.FetchNeverExhausts` | devito/targets/basic.py:37-42 | with any platform registered, the exhaustion error cannot happen, and every failure is a missing mode |
| `Registry.FetchMostSpecificWins` | devito/targets/basic.py:36-40 | when key `j` matches ancestor `i`, no key matches a more specific ancestor and no earlier key matches `i`, the answer comes from key `j`'s mapper alone |
| `Registry.EarlierSubclassShadowsParent` | devito/targets/basic.py:36-39 | a subclass (`Knl`) registered before its parent (`Intel64`) answers for an `Intel64` platform, ahead of `Intel64`'s own mapper |
| `Registry.BaselineAlwaysFound` | devito/targets/basic.py:29-42 | with any platform registered, `'noop'` and `'advanced'` are always fetched |
| `Options.Get` | devito/targets/basic.py:116-117 | `dict.get` gives the stored value or the default |
| `Options.DefaultParams` | devito/targets/basic.py:114-119 | the defaults have exactly the four keys, with `blockinner` and `blocklevels` taken from the rewrite options or defaulting to False and None, and `openmp` and `mpi` taken from the configuration |
| `Options.Apply` | devito/targets/basic.py:123-126 | one option never adds or removes a key: a known key is overwritten with the user's value, an unknown one ignored, and every other entry kept |
| `Options.Merged` | devito/targets/basic.py:121-126 | merging never adds or removes a key |
| `Options.Rejected` | devito/targets/basic.py:122-124 | there are at most as many warnings as user options, and none exactly when every supplied key is known |
| `Options.RejectedExactlyUnknown` | devito/targets/basic.py:122-124 | every warning names an unknown key, and every unknown key supplied is warned about |
| `Options.MergeOptions` | devito/targets/basic.py:121-126 | the loop gives exactly the merged options and the warnings in order |
| `Options.MergedOverride` | devito/targets/basic.py:125-126 | a recognised key supplied by the user replaces its default |
| `Options.MergedDefault` | devito/targets/basic.py:114-126 | a key the user does not supply keeps its default |
| `Options.WarningCount` | devito/targets/basic.py:122-124 | an unknown key is warned about once per occurrence, and a known key never |
| `Options.OneWarningPerIllegalKey` | devito/targets/basic.py:122-124 | for a dictionary of options, each unknown key gives exactly one warning |
| `Options.LanguageOptionIsDropped` | devito/targets/basic.py:101-124 | the documented `language` option is warned about and never reaches the options |
| `Options.Truthy` | devito/targets/basic.py:132 | an option value counts as enabled unless it is `None`, `False`, `0` or the empty string |
| `Modes.EnabledIn` | devito/targets/basic.py:132 | the result holds exactly the listed names whose option is truthy |
| `Modes.EnabledInConcat` | devito/targets/basic.py:132 | selection distributes over concatenation, so the selected names keep their order |
| `Modes.ParallelFlagsInOrder` | devito/targets/basic.py:132 | the synthesised tuple lists `mpi` before `openmp`, each one only when it is enabled |
| `Modes.ResolveMode` | devito/targets/basic.py:128-132 | no mode gives `'noop'`; `'noop'` stays `'noop'` exactly when neither flag is truthy, and otherwise becomes the tuple of the truthy flags with `mpi` before `openmp`; any other mode is unchanged |
| `Targets.Build` | devito/targets/basic.py:56-58 | building succeeds unless the factory raises `KeyError`, and stores the options and the platform |
| `Targets.BuildCustom` | devito/targets/basic.py:140 | the custom rewriter is built with the mode as its pass sequence, plus the options and the platform |
| `Targets.Graph.constructor` | devito/targets/basic.py:61 | a new graph holds the IET and an empty timings ledger |
| `Targets.Pipeline` | devito/targets/basic.py:67-69 | the base pipeline leaves the graph unchanged |
| `Targets.Process` | devito/targets/basic.py:60-65 | processing returns a new graph whose root is the input and whose ledger is empty |
| `Lowering.ResolvedParams` | devito/targets/basic.py:114-126 | the options in effect have exactly the four keys |
| `Lowering.SelectRewriter` | devito/targets/basic.py:134-140 | a normal factory that is found and builds is used with `(params, platform)`; only otherwise is the custom factory, if found and buildable, used with `(mode, params, platform)`; selection succeeds exactly when one of the two builds; when both fail, the error that propagates is the custom attempt's `KeyError` |
| `Lowering.UnknownModeRunsAsCustom` | devito/targets/basic.py:135-140 | a pass sequence that is not registered runs as that sequence on the platform's custom rewriter |
| `Lowering.BaselineNeverFallsBack` | devito/targets/basic.py:135-137 | with any platform registered and a baseline factory whose constructor does not raise `KeyError`, `'noop'` and `'advanced'` never fall back to the custom rewriter and are built by the registered factory |
| `Lowering.NoopWithMpiRunsMpiPass` | devito/targets/basic.py:128-140 | `'noop'` with only MPI enabled runs the custom rewriter on the pass `('mpi',)` when that tuple is not registered |
| `Lowering.IetLower` | devito/targets/basic.py:72-148 | the mode defaults to `'advanced'`; warnings are emitted for unknown options before any lookup; lowering fails exactly when the selection fails, with the same `KeyError`; on success it returns the input root, a new graph with an empty ledger, and one profiling summary |
| `Profiling.StripDigits` | devito/targets/basic.py:159 | the shown label is no longer than the label and holds no digit |
| `Profiling.StripDigitsSpec` | devito/targets/basic.py:159 | the shown label has no digit and keeps every other character of the label, as often as it occurs |
| `Profiling.StripDigitsConcat` | devito/targets/basic.py:159 | stripping works character by character, so order is kept |
| `Profiling.StripDigitsKeepsPlainLabel` | devito/targets/basic.py:159 | a label without digits is shown unchanged |
| `Profiling.Total` | devito/targets/basic.py:161 | the total is at least every pass's elapsed time, and zero exactly when every pass took no time |
| `Profiling.TotalConcat` | devito/targets/basic.py:161 | the total of a ledger is the sum of the totals of its parts |
| `Profiling.TotalAppend` | devito/targets/basic.py:161 | one more pass raises the total by exactly its elapsed time |
| `Profiling.DetailedRows` | devito/targets/basic.py:158-160 | there is one row per ledger entry, in order, each with the digits removed from its label |
| `Profiling.Labels` | devito/targets/basic.py:165 | the labels are the ledger's keys, in order |
| `Profiling.Summary` | devito/targets/basic.py:151-165 | when the profiling level is `basic` or `advanced` the summary is the detailed form, ending with the row separator and the total line; otherwise it is the terse form, `passes: ` then the labels joined by commas and then the elapsed total |
| `Profiling.JoinAppend` | devito/targets/basic.py:162 | joining one more part adds the separator and the part at the end |
| `Profiling.SplitJoin` | devito/targets/basic.py:159 | cutting a joined string at the separator gives back the parts |
| `Profiling.DetailedSummaryIsJoin` | devito/targets/basic.py:158-162 | the detailed summary is the rows and then the total line, joined by the row separator |
| `Profiling.DetailedPartsWithoutBreaks` | devito/targets/basic.py:158-162 | no row and not the total line has a line break, when labels and rendered times have none |
| `Profiling.DetailedSummaryLines` | devito/targets/basic.py:157-162 | the detailed summary has one line per ledger entry, in order, with the digits removed from its label, and then one line with the sum of all times |
| `Profiling.TerseSummaryLabels` | devito/targets/basic.py:163-165 | cutting the terse pass list at its commas gives the ledger labels back, in order |
| `Profiling.EmptyLedgerSummary` | devito/targets/basic.py:155-165 | with no pass run, both summaries report only the zero total |

## Left out

- `examples/acoustic/wavesolver.py` is client glue with no dispatch logic, so it is not part of this model.
- The type checks `isinstance(mapper, dict)` (line 31) and `isinstance(iet, Node)` (line 109) always hold here, because the Dafny types enforce them.
- Python `assert` statements are treated as always enabled. Under `python -O` they would be skipped.
- The `Singleton` metaclass and the module-level `targets` object are not modelled. The single registry is passed to `IetLower` instead.
- The global `configuration` is replaced by a `Configuration` parameter. It carries the platform, `dle-options`, `openmp`, `mpi` and `profiling`.
- `Lowering.SelectRewriter`: when both lookups fail, Python 3 attaches the first `KeyError` to the propagated one as its `__context__`. The model keeps only the propagated error.
- The text of the warning ("Illegal DLE option ...", line 124) is not modelled; a warning is the offending key.
- The warning and log sinks are not called. `IetLower` returns the warnings and the log messages as sequences.
- `%.2f` formatting is the parameter `fmt`. Elapsed times are abstract natural numbers, not floating-point seconds.
- `Profiling.StripDigits`: like `Profiling.StripDigitsSpec` below, it treats only `'0'`–`'9'` as digits.
- `Profiling.StripDigitsSpec`: `str.isdigit` also accepts non-ASCII digits. The model removes only `'0'`–`'9'`.
- Modes and option values are limited to what the code handles. A mode is a string or a tuple of strings; a list mode would raise `TypeError` as a dictionary key. An option value is None, a bool, an int or a string.
- `Graph` internals, the per-pass timing ledger and concrete rewrite passes live in `devito/targets/common.py` and in the backends, which are not part of this model. Only the base `Target`, whose pipeline is empty, is modelled. For that reason the ledger in `IetLower` is always empty.
- `Targets.Build`, `Targets.BuildCustom`: the constructors of concrete `Target` subclasses are not part of this model. Whether one raises `KeyError` is recorded as a flag on the factory.
- Other `OrderedDict` operations on the registry (direct item assignment, deletion) and concurrent access to it are not modelled.
