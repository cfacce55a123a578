/**
 * The target registry (`TargetsMap`): an insertion-ordered table from
 * platform classes to mappers from mode to rewriter factory, filled in by
 * the backends at initialisation and searched along a platform's ancestor
 * chain at lowering time.
 */
module Registry {
  import opened Wrappers
  import opened Platforms
  import opened Modes
  import opened Targets

  /** A backend's mapper from mode to rewriter factory. */
  type ModeTable = map<Mode, Factory>

  /** The modes every mapper must provide (`dle_registry`). */
  const DleRegistry: seq<string> := ["noop", "advanced"]

  /** Why `add` refuses an entry (the assertions it makes). */
  datatype AddError = NotAPlatform | MissingBaselineMode

  predicate HasBaseline(mapper: ModeTable) {
    forall name :: name in DleRegistry ==> Name(name) in mapper
  }

  /** The checks `add` makes, in the order it makes them. */
  function AddCheck(platform: PlatformClass, mapper: ModeTable): (r: Option<AddError>)
    ensures r == None <==> IsPlatformClass(platform) && Noop in mapper && Advanced in mapper
    ensures r == Some(NotAPlatform) <==> !IsPlatformClass(platform)
  {
    if !IsPlatformClass(platform) then Some(NotAPlatform)
    else if !HasBaseline(mapper) then
      assert !(Noop in mapper && Advanced in mapper) by {
        var name :| name in DleRegistry && Name(name) !in mapper;
      }
      Some(MissingBaselineMode)
    else
      assert "noop" in DleRegistry && "advanced" in DleRegistry;
      None
  }

  /**
   * What the registry holds: an ordered key list without repetitions that
   * agrees with the table, and only entries that `add` accepts.
   */
  ghost predicate WellFormed(keys: seq<PlatformClass>, table: map<PlatformClass, ModeTable>) {
    && (forall k :: k in keys <==> k in table)
    && (forall i, j :: 0 <= i < j < |keys| ==> keys[i] != keys[j])
    && (forall k :: k in table ==> AddCheck(k, table[k]) == None)
  }

  /** The index of the first registered key that is a subclass of `cls`. */
  function FirstKeyFor(keys: seq<PlatformClass>, cls: ClassName): (r: Option<nat>)
    ensures r.Some? ==>
      && r.value < |keys| && IsSubclass(keys[r.value], cls)
      && forall j :: 0 <= j < r.value ==> !IsSubclass(keys[j], cls)
    ensures r.None? ==> forall j :: 0 <= j < |keys| ==> !IsSubclass(keys[j], cls)
    decreases |keys|
  {
    if |keys| == 0 then None
    else if IsSubclass(keys[0], cls) then Some(0)
    else
      match FirstKeyFor(keys[1..], cls)
      case None => None
      case Some(j) => Some(j + 1)
  }

  /**
   * The first (ancestor, key) pair, ancestors from most specific and keys
   * in insertion order, where the key is a subclass of the ancestor.
   */
  function FirstMatch(mro: seq<ClassName>, keys: seq<PlatformClass>): (r: Option<(nat, nat)>)
    ensures r.Some? ==>
      && r.value.0 < |mro| && r.value.1 < |keys|
      && IsSubclass(keys[r.value.1], mro[r.value.0])
      && (forall i, j :: 0 <= i < r.value.0 && 0 <= j < |keys| ==> !IsSubclass(keys[j], mro[i]))
      && (forall j :: 0 <= j < r.value.1 ==> !IsSubclass(keys[j], mro[r.value.0]))
    ensures r.None? ==> forall i, j :: 0 <= i < |mro| && 0 <= j < |keys| ==> !IsSubclass(keys[j], mro[i])
    decreases |mro|
  {
    if |mro| == 0 then None
    else
      match FirstKeyFor(keys, mro[0])
      case Some(j) => Some((0, j))
      case None =>
        match FirstMatch(mro[1..], keys)
        case None => None
        case Some(p) => Some((p.0 + 1, p.1))
  }

  /**
   * `fetch`: the factory for `mode` in the mapper of the first matching
   * pair; `KeyError` when that mapper lacks the mode (later keys are not
   * tried) or when no pair matches.
   */
  function FetchSpec(keys: seq<PlatformClass>, table: map<PlatformClass, ModeTable>,
                     mro: seq<ClassName>, mode: Mode): (r: Result<Factory, KeyError>)
    requires forall k :: k in keys ==> k in table
    ensures r == Err(NoRewriter(mode)) <==>
      forall i, j :: 0 <= i < |mro| && 0 <= j < |keys| ==> !IsSubclass(keys[j], mro[i])
    ensures r.Err? ==> r.error == NoRewriter(mode) || r.error == MissingMode(mode)
    ensures r.Ok? ==> exists j :: 0 <= j < |keys| && mode in table[keys[j]] && r.value == table[keys[j]][mode]
  {
    match FirstMatch(mro, keys)
    case None => Err(NoRewriter(mode))
    case Some(p) =>
      var mapper := table[keys[p.1]];
      if mode in mapper then Ok(mapper[mode]) else Err(MissingMode(mode))
  }

  class TargetsMap {
    /** The registered platform classes, in insertion order. */
    var keys: seq<PlatformClass>
    /** The mapper registered for each platform class. */
    var table: map<PlatformClass, ModeTable>

    ghost predicate Valid()
      reads this
    {
      WellFormed(keys, table)
    }

    /** The registry starts empty; the backends populate it. */
    constructor ()
      ensures Valid() && keys == [] && table == map[]
    {
      keys := [];
      table := map[];
    }

    /**
     * Register `mapper` for `platform`, after checking it. A platform
     * registered again keeps its position and gets the new mapper; no other
     * entry changes. A refused entry leaves the registry as it was.
     */
    method Add(platform: PlatformClass, mapper: ModeTable) returns (err: Option<AddError>)
      requires Valid()
      modifies this
      ensures Valid()
      ensures err == AddCheck(platform, mapper)
      ensures err.Some? ==> keys == old(keys) && table == old(table)
      ensures err.None? ==> table == old(table)[platform := mapper]
      ensures err.None? ==> keys == if platform in old(table) then old(keys) else old(keys) + [platform]
    {
      err := AddCheck(platform, mapper);
      if err.None? {
        if platform !in table {
          keys := keys + [platform];
        }
        table := table[platform := mapper];
      }
    }

    /**
     * `fetch`: walk the platform's ancestors from most specific and, for
     * each, the registered keys in order; answer from the mapper of the
     * first key that is a subclass of the ancestor.
     */
    method Fetch(platform: Platform, mode: Mode) returns (r: Result<Factory, KeyError>)
      requires Valid()
      ensures r == FetchSpec(keys, table, platform.cls.mro, mode)
    {
      var mro := platform.cls.mro;
      var i := 0;
      while i < |mro|
        invariant 0 <= i <= |mro|
        invariant forall a, b :: 0 <= a < i && 0 <= b < |keys| ==> !IsSubclass(keys[b], mro[a])
      {
        var j := 0;
        while j < |keys|
          invariant 0 <= j <= |keys|
          invariant forall b :: 0 <= b < j ==> !IsSubclass(keys[b], mro[i])
        {
          if IsSubclass(keys[j], mro[i]) {
            FetchMostSpecificWins(keys, table, mro, mode, i, j);
            var mapper := table[keys[j]];
            if mode in mapper {
              r := Ok(mapper[mode]);
            } else {
              r := Err(MissingMode(mode));
            }
            return;
          }
          j := j + 1;
        }
        i := i + 1;
      }
      r := Err(NoRewriter(mode));
    }
  }

  /**
   * Once a platform is registered, `fetch` never runs out of ancestors: the
   * root `object` matches every key, so the only `KeyError` left is a mode
   * missing from the first matching mapper.
   */
  lemma FetchNeverExhausts(keys: seq<PlatformClass>, table: map<PlatformClass, ModeTable>,
                           platform: Platform, mode: Mode)
    requires WellFormed(keys, table) && |keys| > 0
    requires IsClass(platform.cls)
    ensures FetchSpec(keys, table, platform.cls.mro, mode) != Err(NoRewriter(mode))
    ensures FetchSpec(keys, table, platform.cls.mro, mode).Err? ==> FetchSpec(keys, table, platform.cls.mro, mode) == Err(MissingMode(mode))
  {
    var mro := platform.cls.mro;
    assert AddCheck(keys[0], table[keys[0]]) == None;
    assert IsSubclass(keys[0], mro[|mro| - 1]);
  }

  /**
   * The most specific match wins: if key `j` is a subclass of ancestor `i`,
   * no key matches a more specific ancestor and no earlier key matches
   * ancestor `i`, then `fetch` answers from key `j`'s mapper alone.
   */
  lemma FetchMostSpecificWins(keys: seq<PlatformClass>, table: map<PlatformClass, ModeTable>,
                              mro: seq<ClassName>, mode: Mode, i: nat, j: nat)
    requires forall k :: k in keys ==> k in table
    requires i < |mro| && j < |keys| && IsSubclass(keys[j], mro[i])
    requires forall a, b :: 0 <= a < i && 0 <= b < |keys| ==> !IsSubclass(keys[b], mro[a])
    requires forall b :: 0 <= b < j ==> !IsSubclass(keys[b], mro[i])
    ensures FetchSpec(keys, table, mro, mode)
         == if mode in table[keys[j]] then Ok(table[keys[j]][mode]) else Err(MissingMode(mode))
  {
    var m := FirstMatch(mro, keys);
    assert m == Some((i, j));
  }

  /**
   * A key is matched when it is a subclass of the ancestor, not only when
   * it is the ancestor itself. So a subclass registered before its parent
   * answers for a platform of the parent class, whatever the parent's own
   * mapper holds.
   */
  lemma EarlierSubclassShadowsParent(mode: Mode, sub: Factory, parent: Factory)
    ensures var parentClass := PlatformClass(["Intel64", PlatformBase, ObjectClass]);
            var subClass := PlatformClass(["Knl", "Intel64", PlatformBase, ObjectClass]);
            var table := map[subClass := map[mode := sub], parentClass := map[mode := parent]];
      FetchSpec([subClass, parentClass], table, parentClass.mro, mode) == Ok(sub)
  {
    var parentClass := PlatformClass(["Intel64", PlatformBase, ObjectClass]);
    var subClass := PlatformClass(["Knl", "Intel64", PlatformBase, ObjectClass]);
    assert IsSubclass(subClass, parentClass.mro[0]);
  }

  /** The baseline modes are always found once any platform is registered. */
  lemma BaselineAlwaysFound(keys: seq<PlatformClass>, table: map<PlatformClass, ModeTable>,
                            platform: Platform, name: string)
    requires WellFormed(keys, table) && |keys| > 0
    requires IsClass(platform.cls)
    requires name in DleRegistry
    ensures FetchSpec(keys, table, platform.cls.mro, Name(name)).Ok?
  {
    FetchNeverExhausts(keys, table, platform, Name(name));
    var p := FirstMatch(platform.cls.mro, keys).value;
    assert AddCheck(keys[p.1], table[keys[p.1]]) == None;
  }
}
