/** Searching a string (a sequence of characters) for a character. */
module Text {
  import opened Wrappers

  /** The position of the first occurrence of `x` in `s`, if any;
      the counterpart of Swift's `firstIndex(of:)` followed by `distance`
      from the start index, on a sequence of characters. */
  function FirstIndexOf(s: string, x: char): (r: Option<nat>)
    ensures r.None? <==> x !in s
    ensures r.Some? ==> r.value < |s| && s[r.value] == x
    ensures r.Some? ==> forall j :: 0 <= j < r.value ==> s[j] != x
  {
    if |s| == 0 then None
    else if s[0] == x then Some(0)
    else
      var rest := FirstIndexOf(s[1..], x);
      if rest.None? then None
      else Some(rest.value + 1)
  }

  /** Any position at which `x` occurs, with no earlier occurrence, is the
      one `FirstIndexOf` finds: the first occurrence is unique. */
  lemma FirstIndexOfUnique(s: string, x: char, i: nat)
    requires i < |s| && s[i] == x && x !in s[..i]
    ensures FirstIndexOf(s, x) == Some(i)
  {
  }

  /** Text after an occurrence of `x` does not move the first occurrence. */
  lemma {:induction false} FirstIndexOfAppend(s: string, t: string, x: char)
    requires x in s
    ensures FirstIndexOf(s + t, x) == FirstIndexOf(s, x)
  {
    var i := FirstIndexOf(s, x).value;
    assert (s + t)[..i] == s[..i];
    FirstIndexOfUnique(s + t, x, i);
  }
}
