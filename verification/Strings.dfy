/** The few string operations of Go's standard library that the operator relies on. */
module Strings {
  import opened Api

  predicate OccursAt(s: string, part: string, i: nat) {
    i + |part| <= |s| && s[i..i + |part|] == part
  }

  /** The first occurrence at or after `from`. */
  function IndexFrom(s: string, part: string, from: nat): (r: Option<nat>)
    requires from <= |s|
    ensures r.Some? ==> from <= r.value && OccursAt(s, part, r.value)
    ensures r.Some? ==> forall i :: from <= i < r.value ==> !OccursAt(s, part, i)
    ensures r.None? ==> forall i :: from <= i ==> !OccursAt(s, part, i)
    decreases |s| - from
  {
    if OccursAt(s, part, from) then Some(from)
    else if from == |s| then None
    else IndexFrom(s, part, from + 1)
  }

  predicate Contains(s: string, part: string) {
    IndexFrom(s, part, 0).Some?
  }

  /** The text without the first occurrence of `part`. */
  function WithoutFirst(s: string, part: string): string {
    match IndexFrom(s, part, 0)
    case None => s
    case Some(i) => s[..i] + s[i + |part|..]
  }
}
