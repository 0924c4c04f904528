/** Filtering a sequence, described by the positions it keeps. */
module Filtering {

  /**
   * The positions of the elements `keep` accepts, in increasing order: each such
   * position exactly once, and no other.
   */
  function Positions<T>(s: seq<T>, keep: T -> bool): (p: seq<nat>)
    ensures forall j :: 0 <= j < |p| ==> p[j] < |s| && keep(s[p[j]])
    ensures forall j, l :: 0 <= j < l < |p| ==> p[j] < p[l]
    ensures forall i :: 0 <= i < |s| && keep(s[i]) ==> i in p
    decreases |s|
  {
    if s == [] then []
    else
      var n := |s| - 1;
      var front := Positions(s[..n], keep);
      assert forall j :: 0 <= j < |front| ==> s[..n][front[j]] == s[front[j]];
      if keep(s[n]) then front + [n] else front
  }

  /** `r` is `s` filtered by `keep`, each kept element mapped by `f`, in order. */
  ghost predicate FilterMaps<T, U>(r: seq<U>, s: seq<T>, keep: T -> bool, f: T -> U) {
    var p := Positions(s, keep);
    |r| == |p| && forall j :: 0 <= j < |r| ==> r[j] == f(s[p[j]])
  }

  /** Filtering one more element: it is mapped and appended exactly when `keep` accepts it. */
  lemma FilterMapsSnoc<T, U>(r: seq<U>, s: seq<T>, keep: T -> bool, f: T -> U)
    requires |s| > 0 && FilterMaps(r, s[..|s| - 1], keep, f)
    ensures FilterMaps(if keep(s[|s| - 1]) then r + [f(s[|s| - 1])] else r, s, keep, f)
  {
    var n := |s| - 1;
    var p := Positions(s[..n], keep);
    assert Positions(s, keep) == if keep(s[n]) then p + [n] else p;
    forall j | 0 <= j < |r| ensures r[j] == f(s[p[j]]) {
      assert s[..n][p[j]] == s[p[j]];
    }
  }
}
