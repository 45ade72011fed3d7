/**
 * The two array operations the product form builds its updates from:
 * `Array.prototype.map` and `filter((_, i) => i !== index)`.
 */
module Sequences {

  /** `s.map(f)`: one result per element, in the same order. */
  function Map<A, B>(f: A -> B, s: seq<A>): (r: seq<B>)
    ensures |r| == |s|
    ensures forall j :: 0 <= j < |s| ==> r[j] == f(s[j])
  {
    if |s| == 0 then [] else [f(s[0])] + Map(f, s[1..])
  }

  /**
   * `s.filter((_, i) => i !== index)`: keeps every element whose position
   * differs from `index`. The index is any JavaScript number, so it may lie
   * outside the array, in which case nothing is dropped.
   */
  function DropIndex<T>(s: seq<T>, index: int): (r: seq<T>)
    ensures |r| == if 0 <= index < |s| then |s| - 1 else |s|
    decreases |s|
  {
    if |s| == 0 then []
    else DropIndex(s[..|s| - 1], index) + (if |s| - 1 == index then [] else [s[|s| - 1]])
  }

  /** Dropping an index in range removes exactly that element and keeps the rest in order;
      an index out of range leaves the sequence as it was. */
  lemma {:induction false} DropIndexSpec<T>(s: seq<T>, index: int)
    ensures 0 <= index < |s| ==> DropIndex(s, index) == s[..index] + s[index + 1..]
    ensures !(0 <= index < |s|) ==> DropIndex(s, index) == s
  {
    if |s| > 0 {
      var init, last := s[..|s| - 1], s[|s| - 1];
      DropIndexSpec(init, index);
      if index == |s| - 1 {
        assert init == s[..index];
        assert s[index + 1..] == [];
      } else if 0 <= index < |s| - 1 {
        assert init[..index] == s[..index];
        assert init[index + 1..] + [last] == s[index + 1..];
      } else {
        assert init + [last] == s;
      }
    }
  }
}
