/** Index-based list edits shared by the screens. */
module Sequences {

  /**
   * `xs.filter((_, i) => i !== index)`: drop the element at `index`.
   * An index outside the list matches no element, so nothing is dropped.
   */
  function RemoveAt<T>(xs: seq<T>, index: int): (r: seq<T>)
    ensures 0 <= index < |xs| ==> r == xs[..index] + xs[index + 1..]
    ensures !(0 <= index < |xs|) ==> r == xs
  {
    if xs == [] then []
    else
      var rest := RemoveAt(xs[1..], index - 1);
      assert 0 < index <= |xs[1..]| ==> [xs[0]] + xs[1..][..index - 1] == xs[..index];
      assert 0 < index < |xs| ==> xs[1..][index..] == xs[index + 1..];
      if index == 0 then rest else [xs[0]] + rest
  }

  /** Removing an element shortens the list by one and keeps every other element, in order. */
  lemma RemoveAtKeepsOrder<T>(xs: seq<T>, index: int)
    requires 0 <= index < |xs|
    ensures |RemoveAt(xs, index)| == |xs| - 1
    ensures forall k :: 0 <= k < index ==> RemoveAt(xs, index)[k] == xs[k]
    ensures forall k :: index <= k < |xs| - 1 ==> RemoveAt(xs, index)[k] == xs[k + 1]
  {
  }
}
