/** Operations on the rows a table query returns, as the read routes of
    controller.js use them: the equality filter of the store query, the
    stable `Array.prototype.sort` with a numeric comparator, `slice(0, end)`
    and the insertion-ordered `Set` of labels. */
module Rows {

  /** Rows ranked from the highest `rank` to the lowest. */
  ghost predicate SortedBy<T>(s: seq<T>, rank: T -> int)
  {
    forall i, j :: 0 <= i < j < |s| ==> rank(s[i]) >= rank(s[j])
  }

  /** Rows whose `keep` holds, in their original order; the store's
      equality filter. */
  function Filter<T(!new)>(s: seq<T>, keep: T -> bool): (r: seq<T>)
    ensures forall x :: multiset(r)[x] == if keep(x) then multiset(s)[x] else 0
    ensures forall x :: x in r ==> keep(x) && x in s
  {
    if s == [] then []
    else
      var rest := Filter(s[1..], keep);
      assert s == [s[0]] + s[1..];
      if keep(s[0]) then [s[0]] + rest else rest
  }

  /** Places `x` before the first row that does not outrank it, so that `x`
      precedes the rows of equal rank that came after it in the input. */
  function InsertBy<T>(x: T, s: seq<T>, rank: T -> int): (r: seq<T>)
    requires SortedBy(s, rank)
    ensures SortedBy(r, rank)
    ensures multiset(r) == multiset(s) + multiset{x}
  {
    if s == [] || rank(s[0]) <= rank(x) then
      ConsSorted(x, s, rank);
      [x] + s
    else
      var t := InsertBy(x, s[1..], rank);
      assert s == [s[0]] + s[1..];
      HeadOutranks(s, x, t, rank);
      ConsSorted(s[0], t, rank);
      [s[0]] + t
  }

  /** The head of a ranked sequence outranks every row of a permutation of
      its tail plus one row it outranks. */
  lemma HeadOutranks<T>(s: seq<T>, x: T, t: seq<T>, rank: T -> int)
    requires SortedBy(s, rank) && s != [] && rank(s[0]) > rank(x)
    requires multiset(t) == multiset(s[1..]) + multiset{x}
    ensures forall k :: 0 <= k < |t| ==> rank(s[0]) >= rank(t[k])
  {
    forall k | 0 <= k < |t| ensures rank(s[0]) >= rank(t[k]) {
      assert t[k] in multiset(t);
      if t[k] != x {
        assert t[k] in multiset(s[1..]);
        var j :| 0 <= j < |s[1..]| && s[1..][j] == t[k];
        assert s[j + 1] == t[k];
      }
    }
  }

  /** A row that outranks every row of a ranked sequence can lead it. */
  lemma ConsSorted<T>(h: T, t: seq<T>, rank: T -> int)
    requires SortedBy(t, rank)
    requires forall k :: 0 <= k < |t| ==> rank(h) >= rank(t[k])
    ensures SortedBy([h] + t, rank)
  {
  }

  /** `rows.sort((a, b) => rank(b) - rank(a))`: a stable sort, highest rank
      first. Ascending order is the same sort on the negated rank. */
  function SortBy<T>(s: seq<T>, rank: T -> int): (r: seq<T>)
    ensures SortedBy(r, rank)
    ensures multiset(r) == multiset(s)
    ensures |r| == |s|
  {
    if s == [] then []
    else
      assert s == [s[0]] + s[1..];
      InsertBy(s[0], SortBy(s[1..], rank), rank)
  }

  /** The number of rows `slice(0, end)` keeps out of `n`: a negative end
      counts back from the last row. */
  function SliceLength(n: nat, end: int): (m: nat)
    ensures m <= n
    ensures 0 <= end <= n ==> m == end
    ensures end >= n ==> m == n
    ensures end < 0 ==> m + (if -end < n then -end else n) == n
  {
    if end >= 0 then (if end < n then end else n)
    else if n + end > 0 then n + end else 0
  }

  /** `s.slice(0, end)`. */
  function SliceTo<T>(s: seq<T>, end: int): (r: seq<T>)
    ensures |r| == SliceLength(|s|, end)
    ensures r == s[..|r|]
  {
    s[..SliceLength(|s|, end)]
  }

  /** The first `k` rows of a ranked sequence are ranked, are drawn from it,
      and outrank every row left out. */
  lemma SortedPrefix<T>(s: seq<T>, k: nat, rank: T -> int)
    requires SortedBy(s, rank) && k <= |s|
    ensures SortedBy(s[..k], rank)
    ensures multiset(s[..k]) <= multiset(s)
    ensures forall p, q :: p in s[..k] && q in multiset(s) - multiset(s[..k]) ==> rank(p) >= rank(q)
  {
    var kept, left := s[..k], s[k..];
    assert s == kept + left;
    assert multiset(s) - multiset(kept) == multiset(left);
    forall p, q | p in kept && q in left ensures rank(p) >= rank(q) {
      var i :| 0 <= i < |kept| && kept[i] == p;
      var j :| 0 <= j < |left| && left[j] == q;
      assert s[i] == p && s[k + j] == q;
    }
  }

  /** `s.sort(byRank).slice(0, end)`: the rows kept are ranked, drawn from
      `s`, as many as the slice allows, and outrank every row left out. */
  function TopBy<T>(s: seq<T>, rank: T -> int, end: int): (r: seq<T>)
    ensures |r| == SliceLength(|s|, end)
    ensures SortedBy(r, rank)
    ensures multiset(r) <= multiset(s)
    ensures forall x :: x in r ==> x in s
    ensures forall p, q :: p in r && q in multiset(s) - multiset(r) ==> rank(p) >= rank(q)
  {
    var sorted := SortBy(s, rank);
    var r := SliceTo(sorted, end);
    SortedPrefix(sorted, |r|, rank);
    forall x | x in r ensures x in s {
      assert x in multiset(r);
    }
    r
  }

  /** `Array.from(new Set(s))`: each value once, in order of first appearance. */
  function Distinct<T(==,!new)>(s: seq<T>): (r: seq<T>)
    ensures forall x :: x in r <==> x in s
    ensures forall i, j :: 0 <= i < j < |r| ==> r[i] != r[j]
    ensures |r| <= |s|
  {
    if s == [] then []
    else
      var d := Distinct(s[..|s| - 1]);
      assert s == s[..|s| - 1] + [s[|s| - 1]];
      if s[|s| - 1] in d then d else d + [s[|s| - 1]]
  }

  /** The values of `r` come in the order of their first appearance in `s`:
      wherever a later value of `r` occurs in `s`, every earlier value of `r`
      has already occurred before it. */
  ghost predicate InFirstAppearanceOrder<T>(r: seq<T>, s: seq<T>)
  {
    forall i, j, k :: 0 <= i < j < |r| && 0 <= k < |s| && s[k] == r[j] ==> r[i] in s[..k]
  }

  /** `Distinct` keeps the order of first appearance. */
  lemma {:induction false} DistinctOrder<T(!new)>(s: seq<T>)
    ensures InFirstAppearanceOrder(Distinct(s), s)
  {
    if s != [] {
      var p := s[..|s| - 1];
      var x := s[|s| - 1];
      var d := Distinct(p);
      var r := Distinct(s);
      DistinctOrder(p);
      assert s == p + [x];
      assert r == if x in d then d else d + [x];
      forall i, j, k | 0 <= i < j < |r| && 0 <= k < |s| && s[k] == r[j]
        ensures r[i] in s[..k]
      {
        assert r[i] == d[i] && r[i] in d && r[i] in p;
        if j < |d| {
          assert r[j] == d[j];
          if k < |p| {
            assert s[..k] == p[..k];
            assert 0 <= i < j < |d| && 0 <= k < |p| && p[k] == d[j];
          } else {
            assert s[..k] == p;
          }
        } else {
          assert r[j] == x && x !in p;
          assert forall m :: 0 <= m < |p| ==> s[m] == p[m] != x;
          assert k == |p| && s[..k] == p;
        }
      }
    }
  }
}
