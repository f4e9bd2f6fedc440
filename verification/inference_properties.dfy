/** Properties of version inference, of construction, of equality and of
    the routing of `parse`, `extend` and `spin`. Every property holds for
    any version-1 constants. */
module InferenceProperties {
  import opened Wrappers
  import opened Text
  import opened VersionPolicy
  import opened CorrelationVector

  /** A missing string is read as version 1. */
  lemma NilInfersV1(v1: V1Constants)
    ensures InferVersion(None, v1) == V1
  {
  }

  /** A string without any delimiter is read as version 1. */
  lemma NoDelimiterInfersV1(s: string, v1: V1Constants)
    requires Delimiter !in s
    ensures InferVersion(Some(s), v1) == V1
  {
  }

  /** A base of version 1's length is read as version 1, even if version 2
      had the same base length: version 1 is tried first. */
  lemma V1BaseLengthInfersV1(s: string, v1: V1Constants)
    requires FirstDelimiterAt(s, BaseLength(V1, v1))
    ensures InferVersion(Some(s), v1) == V1
  {
  }

  /** A base of 22 characters is read as version 2 when version 1's base
      length differs. */
  lemma V2BaseLengthInfersV2(s: string, v1: V1Constants)
    requires FirstDelimiterAt(s, V2BaseLength)
    requires v1.baseLength != V2BaseLength
    ensures InferVersion(Some(s), v1) == V2
  {
  }

  /** A base of any other length is read as version 1. */
  lemma OtherBaseLengthInfersV1(s: string, i: nat, v1: V1Constants)
    requires FirstDelimiterAt(s, i)
    requires i != BaseLength(V1, v1) && i != BaseLength(V2, v1)
    ensures InferVersion(Some(s), v1) == V1
  {
  }

  /** A string that starts with the delimiter has an empty base and is
      read as version 1. */
  lemma LeadingDelimiterInfersV1(s: string, v1: V1Constants)
    requires |s| > 0 && s[0] == Delimiter
    ensures InferVersion(Some(s), v1) == V1
  {
    assert FirstDelimiterAt(s, 0);
  }

  /** Only the length of the base matters: two strings whose first
      delimiter is at the same position are read as the same version,
      whatever their base characters and whatever follows. */
  lemma {:induction false} SameBaseLengthSameVersion(s: string, t: string, i: nat, v1: V1Constants)
    requires FirstDelimiterAt(s, i) && FirstDelimiterAt(t, i)
    ensures InferVersion(Some(s), v1) == InferVersion(Some(t), v1)
  {
    FirstDelimiterAtIsFirstIndex(s, i);
    FirstDelimiterAtIsFirstIndex(t, i);
  }

  /** Written as base, delimiter and rest, a string is read as version 2
      exactly when its base is 22 characters long and version 1's base
      length is not 22. */
  lemma {:induction false} SplitStringVersion(base: string, rest: string, v1: V1Constants)
    requires Delimiter !in base
    ensures InferVersion(Some(base + [Delimiter] + rest), v1) == V2 <==>
              |base| == V2BaseLength && v1.baseLength != V2BaseLength
  {
    var s := base + [Delimiter] + rest;
    assert s[..|base|] == base;
    assert FirstDelimiterAt(s, |base|);
    FirstDelimiterAtIsFirstIndex(s, |base|);
    FirstDelimiterAtIsFirstIndex(s, V2BaseLength);
  }

  /** Text appended after the first delimiter (a new extension, a
      terminator) does not change the version a string is read as. */
  lemma {:induction false} AppendKeepsVersion(s: string, t: string, v1: V1Constants)
    requires Delimiter in s
    ensures InferVersion(Some(s + t), v1) == InferVersion(Some(s), v1)
  {
    FirstIndexOfAppend(s, t, Delimiter);
    var i := FirstIndexOf(s, Delimiter).value;
    FirstDelimiterAtIsFirstIndex(s, i);
    FirstDelimiterAtIsFirstIndex(s + t, i);
  }

  /** Sealing a string with the terminator never changes the version it is
      read as, whether or not the string holds a delimiter. */
  lemma {:induction false} TerminatorKeepsVersion(s: string, v1: V1Constants)
    ensures InferVersion(Some(s + Terminator), v1) == InferVersion(Some(s), v1)
  {
    if Delimiter in s {
      AppendKeepsVersion(s, Terminator, v1);
    } else {
      assert Delimiter !in Terminator;
      assert Delimiter !in s + Terminator;
    }
  }

  /** A string read as version 2 is longer than a version-2 base. */
  lemma V2StringIsLongerThanBase(s: string, v1: V1Constants)
    requires InferVersion(Some(s), v1) == V2
    ensures |s| > BaseLength(V2, v1)
  {
  }

  /** The initializers agree with each other: `init()` is `init(.v1)`,
      `init(uuid)` builds what `init(.v2, uuid)` builds, a UUID never changes
      the version asked for, and the version asked for is the one used. */
  lemma ConstructionAgreement(v: Version)
    ensures ConstructedVersion(Default) == ConstructedVersion(OfVersion(V1))
    ensures ConstructedVersion(OfUuid) == ConstructedVersion(OfVersionAndUuid(V2))
    ensures ConstructedVersion(OfVersion(v)) == ConstructedVersion(OfVersionAndUuid(v)) == v
  {
  }

  /** Default construction and inference from a missing string agree on
      version 1. */
  lemma DefaultConstructionMatchesNil(v1: V1Constants)
    ensures ConstructedVersion(Default) == InferVersion(None, v1) == V1
  {
  }

  /** Equality of vectors is an equivalence relation. */
  lemma EqualIsEquivalence(a: Vector, b: Vector, c: Vector)
    ensures Equal(a, a)
    ensures Equal(a, b) ==> Equal(b, a)
    ensures Equal(a, b) && Equal(b, c) ==> Equal(a, c)
  {
  }

  /** `parse`, `extend` and `spin` route a given string to the same
      implementation. */
  lemma DispatchAgrees(cv: Option<string>, op1: Operation, op2: Operation, v1: V1Constants)
    ensures Dispatch(op1, cv, v1).implementation == Dispatch(op2, cv, v1).implementation
  {
  }

  /** Text appended after the first delimiter, as `extend` and sealing do,
      does not change where `parse`, `extend` and `spin` route a string. */
  lemma {:induction false} AppendKeepsRoute(op: Operation, s: string, t: string, v1: V1Constants)
    requires Delimiter in s
    ensures Dispatch(op, Some(s + t), v1).implementation == Dispatch(op, Some(s), v1).implementation
  {
    AppendKeepsVersion(s, t, v1);
  }
}
