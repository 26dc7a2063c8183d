/** `Array.prototype.find`: the first element, in list order, that
    satisfies a predicate, or nothing. */
module ArrayFind {
  import opened Wrappers

  /** `i` is the index of the first element of `s` satisfying `p`. */
  ghost predicate IsFirstMatch<T>(s: seq<T>, p: T -> bool, i: int) {
    0 <= i < |s| && p(s[i]) && forall j :: 0 <= j < i ==> !p(s[j])
  }

  function Find<T>(s: seq<T>, p: T -> bool): (r: Option<T>)
    ensures r.None? <==> forall i :: 0 <= i < |s| ==> !p(s[i])
    ensures r.Some? ==> exists i :: IsFirstMatch(s, p, i) && s[i] == r.value
  {
    if |s| == 0 then None
    else if p(s[0]) then
      assert IsFirstMatch(s, p, 0);
      Some(s[0])
    else
      var r := Find(s[1..], p);
      assert forall i :: IsFirstMatch(s[1..], p, i) ==> IsFirstMatch(s, p, i + 1);
      r
  }

  /** There is only one first match, so `Find` is pinned down by it: the
      result is `Some(x)` exactly when `x` sits at the first matching index. */
  lemma FindIsFirstMatch<T>(s: seq<T>, p: T -> bool, x: T)
    ensures Find(s, p) == Some(x) <==> exists i :: IsFirstMatch(s, p, i) && s[i] == x
  {
  }
}
