# Correlation vector version inference

A correlation vector is a string such as `<base>.<n>.<n>` that services pass
along to correlate causally related events. The public `CorrelationVector`
type of the Swift library does not hold this string itself. It wraps an
implementation of one protocol version and forwards to it. Given an
unlabelled string, it picks the version from the length of the base, which
is the text before the first `.` delimiter.

This project models that public layer:

- `VersionPolicy`: the two versions and their per-version constants. Version 2
  has a base length of 22 and a maximum vector length of 127. The version-1
  constants live in an implementation that is not part of this model. They
  are therefore a parameter (`V1Constants`), and every property holds for
  every value of them.
- `Text`: the first index of an element in a sequence. This is Swift's
  `firstIndex(of:)` followed by `distance` from the start.
- `CorrelationVector`: the delimiter `.` and the terminator `!`. It also holds
  `InferVersion`, the version chosen by each initializer, equality of two
  vectors, and the routing of `parse`, `extend` and `spin` to an implementation.
- `InferenceProperties`: the properties of inference, construction, equality
  and routing.

`InferVersion` is characterised without reference to the search it performs.
A string is read as version 2 exactly when:

- it is present;
- its first delimiter is at position 22;
- version 1's base length is not 22.

Every other input is read as version 1. This includes `nil`, a string without
a delimiter, and a base of version 1's length, because version 1 is tried
first.

## Model

| member | source | states |
|---|---|---|
| `Text.FirstIndexOf` | Sources/CorrelationVector/CorrelationVector.swift:147-148 | the result is absent exactly when the delimiter does not occur; otherwise it is an in-range position holding the delimiter with no delimiter before it |
| `Text.FirstIndexOfUnique` | Sources/CorrelationVector/CorrelationVector.swift:147 | a position that holds the delimiter with none before it is the one the search returns |
| `Text.FirstIndexOfAppend` | Sources/CorrelationVector/CorrelationVector.swift:147 | text appended after an occurrence does not move the first occurrence |
| `CorrelationVector.FirstDelimiterAtIsFirstIndex` | Sources/CorrelationVector/CorrelationVector.swift:147-148 | the measured base length equals `i` exactly when the first delimiter sits at `i` |
| `CorrelationVector.InferVersion` | Sources/CorrelationVector/CorrelationVector.swift:146-157 | version 2 exactly when the string is present, its first delimiter is at position 22 and version 1's base length differs from 22; version 1 otherwise; total, never fails |
| `InferenceProperties.NilInfersV1` | Sources/CorrelationVector/CorrelationVector.swift:147-156 | a missing string is read as version 1 |
| `InferenceProperties.NoDelimiterInfersV1` | Sources/CorrelationVector/CorrelationVector.swift:147-156 | a string with no delimiter is read as version 1 |
| `InferenceProperties.V1BaseLengthInfersV1` | Sources/CorrelationVector/CorrelationVector.swift:149-150 | a base of version 1's length gives version 1, even when version 2's base length is the same |
| `InferenceProperties.V2BaseLengthInfersV2` | Sources/CorrelationVector/CorrelationVector.swift:149-152 | a 22-character base gives version 2 when version 1's base length is not 22 |
| `InferenceProperties.OtherBaseLengthInfersV1` | Sources/CorrelationVector/CorrelationVector.swift:149-156 | a base matching neither version's length gives version 1 |
| `InferenceProperties.LeadingDelimiterInfersV1` | Sources/CorrelationVector/CorrelationVector.swift:147-156 | a string starting with the delimiter (empty base) gives version 1 |
| `InferenceProperties.SameBaseLengthSameVersion` | Sources/CorrelationVector/CorrelationVector.swift:147-153 | strings whose first delimiter is at the same position are read as the same version, whatever their characters |
| `InferenceProperties.SplitStringVersion` | Sources/CorrelationVector/CorrelationVector.swift:147-153 | for `base . rest` with no delimiter in `base`, version 2 exactly when `base` has 22 characters and version 1's base length is not 22 |
| `InferenceProperties.AppendKeepsVersion` | Sources/CorrelationVector/CorrelationVector.swift:147-148 | anything appended to a string that already has a delimiter leaves its version unchanged |
| `InferenceProperties.TerminatorKeepsVersion` | Sources/CorrelationVector/CorrelationVector.swift:9-10 | since the terminator `!` is not the delimiter `.`, appending it never changes the version a string is read as |
| `InferenceProperties.V2StringIsLongerThanBase` | Sources/CorrelationVector/CorrelationVectorV2.swift:6 | a string read as version 2 is longer than the 22-character version-2 base |
| `CorrelationVector.Delimiter` | Sources/CorrelationVector/CorrelationVector.swift:9 | the delimiter between base and extensions is `.` |
| `CorrelationVector.Terminator` | Sources/CorrelationVector/CorrelationVector.swift:10 | the terminator of a sealed vector is `!` |
| `VersionPolicy.V2BaseLength` | Sources/CorrelationVector/CorrelationVectorV2.swift:6 | a version-2 base has 22 characters |
| `VersionPolicy.V2MaxVectorLength` | Sources/CorrelationVector/CorrelationVectorV2.swift:5 | a version-2 vector has at most 127 characters |
| `VersionPolicy.BaseLength` | Sources/CorrelationVector/CorrelationVectorV2.swift:6 | the base length of each version: the version-1 parameter or 22 |
| `VersionPolicy.MaxVectorLength` | Sources/CorrelationVector/CorrelationVectorV2.swift:5 | the maximal vector length of each version: the version-1 parameter or 127 |
| `CorrelationVector.ConstructedVersion` | Sources/CorrelationVector/CorrelationVector.swift:50-80 | the implementation version each initializer builds: the version asked for, version 1 by default, version 2 for a UUID alone |
| `InferenceProperties.ConstructionAgreement` | Sources/CorrelationVector/CorrelationVector.swift:50-80 | `init()` equals `init(.v1)`; `init(uuid)` equals `init(.v2, uuid)`; adding a UUID never changes the version asked for, and that version is the one used |
| `InferenceProperties.DefaultConstructionMatchesNil` | Sources/CorrelationVector/CorrelationVector.swift:47-52 | default construction and inference from a missing string both give version 1 |
| `CorrelationVector.Equal` | Sources/CorrelationVector/CorrelationVector.swift:101-103 | two vectors are equal when their string values are equal, whatever their versions |
| `InferenceProperties.EqualIsEquivalence` | Sources/CorrelationVector/CorrelationVector.swift:101-103 | vector equality is reflexive, symmetric and transitive |
| `CorrelationVector.Dispatch` | Sources/CorrelationVector/CorrelationVector.swift:109-140 | the input string goes unchanged to an implementation, and that implementation is version 2 exactly when the string is present, its first delimiter is at position 22, and version 1's base length is not 22 |
| `InferenceProperties.DispatchAgrees` | Sources/CorrelationVector/CorrelationVector.swift:109-140 | `parse`, `extend` and `spin` send a given string to the same implementation |
| `InferenceProperties.AppendKeepsRoute` | Sources/CorrelationVector/CorrelationVector.swift:109-148 | text appended after the first delimiter, as `extend` and sealing do, does not change which implementation a string is routed to |

## Left out

- Swift's `Character` is an extended grapheme cluster. Strings are modelled
  as sequences of Dafny `char`, which are Unicode scalar values, so the base
  length counts scalar values and not grapheme clusters.
- CorrelationVector.InferVersion: the delimiter search also works on scalar values. A `.`
  followed by a combining mark (such as U+0301) is one Swift `Character` that
  is not `.`, so Swift finds no delimiter there. The model does find one. For
  example, 22 `a`s followed by `.`, U+0301 and `0` is read as version 2 by the
  model and as version 1 by the source.
- CorrelationVector.Equal: compares the strings as sequences of scalar values. Swift's `String`
  equality uses Unicode canonical equivalence, so a precomposed and a
  decomposed `é` are equal in the source but not in the model.
- CorrelationVector.Equal: the value-comparing `==` is internal to the module and the class does
  not override `isEqual(_:)`. Outside the module, clients, `!=`, `contains`
  and `Set` therefore get `NSObject`'s identity equality. The model describes
  only the module-internal `==`.
- The version-1 implementation is not part of this model, and neither is the
  shared base implementation. That covers parsing, formatting, `extend`,
  `increment`, `spin` and sealing. Their results are not modelled. `Dispatch`
  states only which implementation receives the call.
- The version-1 base length and maximum vector length are defined in the
  version-1 implementation. They are a parameter here, not a guessed value.
- The version-2 implementation is almost entirely placeholder code. `value`,
  `base` and `increment` return empty strings. Both initializers build an
  empty base. Its one-argument `spin` returns a fresh default (version-1)
  vector, and it does not provide the two-argument `spin` that the public
  `spin` calls. Only its two constants, 22 and 127, are used.
- The maximal vector lengths are data only. The operations that enforce them
  are outside this model.
- The spin parameters are forwarded unchanged to the chosen implementation.
  Their type is not part of this model.
- The UUID passed to `init(uuid)` only seeds the base. `ConstructedVersion`
  records which version the initializer picks, but not the base it builds.
- The forwarding properties `value`, `base`, `extension`, `version`,
  `description` and `increment` add no logic of their own and are left out.
- Also left out: the `headerName` constant, the Objective-C registration,
  the `NSObject` plumbing, and the process-wide mutable
  `validateDuringCreation` flag, which has no logic in this layer.
