/**
 * The platform class hierarchy, as seen by the target registry.
 *
 * A Python class is described by its method resolution order: the class
 * itself first, then its ancestors from most to least specific, ending at
 * the universal root `object`. `issubclass(k, cls)` holds exactly when `cls`
 * appears in the resolution order of `k`.
 */
module Platforms {

  type ClassName = string

  /** The root of every class hierarchy. */
  const ObjectClass: ClassName := "object"

  /** The base class of every target architecture. */
  const PlatformBase: ClassName := "Platform"

  /** A class, given by its resolution order (the class itself first). */
  datatype PlatformClass = PlatformClass(mro: seq<ClassName>)

  /** A platform value: an instance of a platform class. */
  datatype Platform = Platform(name: string, cls: PlatformClass)

  /** Every class's resolution order is non-empty and ends at `object`. */
  predicate IsClass(c: PlatformClass) {
    |c.mro| > 0 && c.mro[|c.mro| - 1] == ObjectClass
  }

  /** `issubclass(k, cls)`: `cls` is `k` itself or one of its ancestors. */
  predicate IsSubclass(k: PlatformClass, cls: ClassName) {
    cls in k.mro
  }

  /** `issubclass(k, Platform)` for a well-formed class `k`. */
  predicate IsPlatformClass(k: PlatformClass) {
    IsClass(k) && IsSubclass(k, PlatformBase)
  }
}
