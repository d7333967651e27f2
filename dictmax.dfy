/**
 * `max(d, key=d.get)` over a dict whose items are given in insertion order.
 * CPython scans left to right and replaces the running best only on a
 * strictly greater key, so the result is the FIRST entry of maximal score.
 */
module DictMax {

  /** True when `i` is the first position of a maximal score in `s`. */
  ghost predicate IsFirstMax<K>(s: seq<(K, real)>, i: int) {
    && 0 <= i < |s|
    && (forall j :: 0 <= j < |s| ==> s[j].1 <= s[i].1)
    && (forall j :: 0 <= j < i ==> s[j].1 < s[i].1)
  }

  function ArgMaxIndex<K>(s: seq<(K, real)>): (i: nat)
    requires |s| > 0
    ensures i < |s|
    ensures forall j :: 0 <= j < |s| ==> s[j].1 <= s[i].1
    ensures forall j :: 0 <= j < i ==> s[j].1 < s[i].1
  {
    if |s| == 1 then 0
    else
      var best := ArgMaxIndex(s[..|s| - 1]);
      if s[|s| - 1].1 > s[best].1 then |s| - 1 else best
  }

  /** The entry `max` returns, with its score. */
  function ArgMax<K>(s: seq<(K, real)>): (e: (K, real))
    requires |s| > 0
    ensures e in s
    ensures forall j :: 0 <= j < |s| ==> s[j].1 <= e.1
  {
    s[ArgMaxIndex(s)]
  }

  /** The first-maximum rule pins the index down: there is only one such position. */
  lemma FirstMaxUnique<K>(s: seq<(K, real)>, i: int, j: int)
    requires IsFirstMax(s, i) && IsFirstMax(s, j)
    ensures i == j
  {
    assert s[i].1 <= s[j].1 && s[j].1 <= s[i].1;
  }

  /** Hence ArgMaxIndex is exactly the first maximal position. */
  lemma ArgMaxIndexIsFirstMax<K>(s: seq<(K, real)>, i: int)
    requires |s| > 0
    ensures IsFirstMax(s, i) <==> i == ArgMaxIndex(s)
  {
    if IsFirstMax(s, i) {
      FirstMaxUnique(s, i, ArgMaxIndex(s));
    }
  }
}
