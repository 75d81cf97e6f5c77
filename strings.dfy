/** Searching text for a separator character. */
module Strings {

  /** The position of the first `c` in s, or |s| when there is none. */
  function IndexOf(s: string, c: char): (i: nat)
    ensures i <= |s|
    ensures i < |s| ==> s[i] == c
    ensures forall j :: 0 <= j < i ==> s[j] != c
  {
    if s == [] || s[0] == c then 0 else 1 + IndexOf(s[1..], c)
  }

  /** The first `c` in x + [c] + y is the one after x, when x holds none. */
  lemma IndexOfAfter(x: string, c: char, y: string)
    requires c !in x
    ensures IndexOf(x + [c] + y, c) == |x|
  {
    var s := x + [c] + y;
    assert s[|x|] == c;
    assert forall j :: 0 <= j < |x| ==> s[j] == x[j];
  }
}
