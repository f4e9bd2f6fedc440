/** The correlation vector protocol versions and their per-version constants. */
module VersionPolicy {

  /** The implementation versions a correlation vector can be read as. */
  datatype Version = V1 | V2

  /** The constants of version 1. The version-1 implementation that defines
      them is not part of this model, so every property is stated for any
      values of them rather than for guessed ones. */
  datatype V1Constants = V1Constants(baseLength: nat, maxVectorLength: nat)

  /** Number of characters of a version-2 base. */
  const V2BaseLength: nat := 22

  /** Longest version-2 vector string, in characters. The maximal lengths
      are data only: the operations that enforce them (`extend`, `increment`,
      `spin`) are outside this model. */
  const V2MaxVectorLength: nat := 127

  /** The base length of each version. */
  function BaseLength(v: Version, v1: V1Constants): nat
  {
    match v
    case V1 => v1.baseLength
    case V2 => V2BaseLength
  }

  /** The maximal vector string length of each version (data only, as above). */
  function MaxVectorLength(v: Version, v1: V1Constants): nat
  {
    match v
    case V1 => v1.maxVectorLength
    case V2 => V2MaxVectorLength
  }
}
