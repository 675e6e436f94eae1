/** The `Array.prototype` operations the core relies on, over sequences. */
module JsArray {
  import opened Wrappers

  /** `i` is the first index whose element satisfies `p`. */
  predicate IsFirst<T>(s: seq<T>, p: T -> bool, i: int) {
    0 <= i < |s| && p(s[i]) && forall j :: 0 <= j < i ==> !p(s[j])
  }

  /** `findIndex`, with `None` for JavaScript's -1. */
  function FindIndex<T>(s: seq<T>, p: T -> bool): (r: Option<nat>)
    ensures r.Some? ==> IsFirst(s, p, r.value)
    ensures r.None? <==> forall i :: 0 <= i < |s| ==> !p(s[i])
  {
    if |s| == 0 then None
    else if p(s[0]) then Some(0)
    else match FindIndex(s[1..], p) {
      case None => None
      case Some(i) => Some(i + 1)
    }
  }

  /** `find`, with `None` for `undefined`. */
  function Find<T>(s: seq<T>, p: T -> bool): (r: Option<T>)
    ensures r.None? <==> forall i :: 0 <= i < |s| ==> !p(s[i])
    ensures r.Some? ==> exists i :: IsFirst(s, p, i) && s[i] == r.value
  {
    match FindIndex(s, p) {
      case None => None
      case Some(i) => Some(s[i])
    }
  }

  /** `filter` keeping every element whose position is not `index`, built
      element by element the way `filter` visits the array. */
  function WithoutIndex<T>(s: seq<T>, index: int): (r: seq<T>)
    ensures 0 <= index < |s| ==> r == s[..index] + s[index + 1..]
    ensures !(0 <= index < |s|) ==> r == s
    decreases |s|
  {
    if |s| == 0 then []
    else
      var init := s[..|s| - 1];
      var rest := WithoutIndex(init, index);
      assert 0 <= index < |init| ==> init[..index] == s[..index] && init[index + 1..] + [s[|s| - 1]] == s[index + 1..];
      assert index == |s| - 1 ==> s[..index] + s[index + 1..] == init;
      rest + (if index == |s| - 1 then [] else [s[|s| - 1]])
  }

  /** After removing index `index`, the survivors keep their order: element
      `i` of the result is element `i` or `i + 1` of the input. */
  lemma {:induction false} WithoutIndexKeepsOrder<T>(s: seq<T>, index: int, i: int)
    requires 0 <= index < |s|
    requires 0 <= i < |WithoutIndex(s, index)|
    ensures |WithoutIndex(s, index)| == |s| - 1
    ensures WithoutIndex(s, index)[i] == if i < index then s[i] else s[i + 1]
  {
  }
}
