/** Filtering a sequence, as a `where` clause selects rows of a table. */
module Seqs {

  /** The elements of `s` that satisfy `keep`, in their order in `s`. */
  function Filter<T(!new)>(s: seq<T>, keep: T -> bool): (r: seq<T>)
    ensures |r| <= |s|
    ensures forall i :: 0 <= i < |r| ==> r[i] in s && keep(r[i])
    ensures forall i :: 0 <= i < |s| && keep(s[i]) ==> s[i] in r
    ensures forall x :: multiset(r)[x] == if keep(x) then multiset(s)[x] else 0
  {
    if |s| == 0 then []
    else
      var rest := Filter(s[1..], keep);
      assert forall i :: 1 <= i < |s| ==> s[i] == s[1..][i - 1];
      assert s == [s[0]] + s[1..];
      if keep(s[0]) then [s[0]] + rest else rest
  }

  /**
   * Filtering keeps the order, so a property that holds of every pair of
   * elements of `s` taken in order holds of every such pair of the result.
   */
  lemma {:induction false} FilterKeepsPairwise<T(!new)>(s: seq<T>, keep: T -> bool, ok: (T, T) -> bool)
    requires forall a, b :: 0 <= a < b < |s| ==> ok(s[a], s[b])
    ensures forall i, j :: 0 <= i < j < |Filter(s, keep)| ==> ok(Filter(s, keep)[i], Filter(s, keep)[j])
  {
    if |s| != 0 {
      var tail := s[1..];
      forall a, b | 0 <= a < b < |tail| ensures ok(tail[a], tail[b]) {
        assert tail[a] == s[a + 1] && tail[b] == s[b + 1];
      }
      FilterKeepsPairwise(tail, keep, ok);
      var rest := Filter(tail, keep);
      if keep(s[0]) {
        forall j | 0 <= j < |rest| ensures ok(s[0], rest[j]) {
          var k :| 0 <= k < |tail| && tail[k] == rest[j];
          assert ok(s[0], s[k + 1]);
        }
        PrependKeepsPairwise(s[0], rest, ok);
      }
    }
  }

  /** An element in order with everything after it extends a sequence whose pairs are in order. */
  lemma PrependKeepsPairwise<T>(x: T, rest: seq<T>, ok: (T, T) -> bool)
    requires forall i, j :: 0 <= i < j < |rest| ==> ok(rest[i], rest[j])
    requires forall j :: 0 <= j < |rest| ==> ok(x, rest[j])
    ensures forall i, j :: 0 <= i < j < |[x] + rest| ==> ok(([x] + rest)[i], ([x] + rest)[j])
  {
    var r := [x] + rest;
    forall i, j | 0 <= i < j < |r| ensures ok(r[i], r[j]) {
      assert r[j] == rest[j - 1];
      if i != 0 {
        assert r[i] == rest[i - 1];
      }
    }
  }
}
