/** The public correlation vector type: its constants, the version inferred
    from an unlabelled string, the version chosen at construction, equality,
    and the routing of parse/extend/spin to a version's implementation. */
module CorrelationVector {
  import opened Wrappers
  import opened Text
  import opened VersionPolicy

  /** Separates the base from the extensions, and the extensions from each other. */
  const Delimiter: char := '.'

  /** Appended to a vector that has been sealed against further growth. */
  const Terminator: string := "!"

  /** The first delimiter of `s` sits at position `i`: the base of `s`
      (the text before it) is `i` characters long. */
  predicate FirstDelimiterAt(s: string, i: nat)
  {
    i < |s| && s[i] == Delimiter && Delimiter !in s[..i]
  }

  /** The version an unlabelled vector string is read as. The number of
      characters before the first delimiter is compared with version 1's
      base length first and then with version 2's; `nil`, a string without a
      delimiter and every other length fall back to version 1. */
  function InferVersion(cv: Option<string>, v1: V1Constants): (r: Version)
    ensures r == V2 <==>
              && cv.Some?
              && FirstDelimiterAt(cv.value, BaseLength(V2, v1))
              && BaseLength(V1, v1) != BaseLength(V2, v1)
  {
    match cv
    case None => V1
    case Some(s) =>
      match FirstIndexOf(s, Delimiter)
      case None => V1
      case Some(distance) =>
        if BaseLength(V1, v1) == distance then V1
        else if BaseLength(V2, v1) == distance then V2
        else V1
  }

  /** `FirstDelimiterAt` holds exactly at the index `FirstIndexOf` finds. */
  lemma FirstDelimiterAtIsFirstIndex(s: string, i: nat)
    ensures FirstDelimiterAt(s, i) <==> FirstIndexOf(s, Delimiter) == Some(i)
  {
  }

  /** The ways a correlation vector can be constructed without parsing:
      `init()`, `init(version)`, `init(uuid)` and `init(version, uuid)`.
      The UUID itself only seeds the base, which this model leaves out. */
  datatype Construction =
    | Default
    | OfVersion(version: Version)
    | OfUuid
    | OfVersionAndUuid(version: Version)

  /** The implementation version a constructed vector uses. */
  function ConstructedVersion(c: Construction): Version
  {
    match c
    case Default => V1  // `init()` delegates to `init(.v1)`
    case OfVersion(v) => v
    case OfUuid => V2   // `init(uuid)` builds a version-2 implementation
    case OfVersionAndUuid(v) => v
  }

  /** What the public type exposes of a vector: the version of the
      implementation behind it and its string value. */
  datatype Vector = Vector(version: Version, value: string)

  /** Equality of two vectors, which compares their values only. */
  predicate Equal(a: Vector, b: Vector)
  {
    a.value == b.value
  }

  /** The operations that pick an implementation from the input string. */
  datatype Operation = Parse | Extend | Spin

  /** A call forwarded to one version's implementation. */
  datatype Route = Route(implementation: Version, operation: Operation, input: Option<string>)

  /** The forwarding done by `parse`, `extend` and `spin`: the input is
      handed unchanged to the implementation of the version inferred from it. */
  function Dispatch(op: Operation, cv: Option<string>, v1: V1Constants): (r: Route)
    ensures r.operation == op && r.input == cv
    ensures r.implementation == V2 <==>
              && cv.Some?
              && FirstDelimiterAt(cv.value, V2BaseLength)
              && v1.baseLength != V2BaseLength
  {
    Route(InferVersion(cv, v1), op, cv)
  }
}
