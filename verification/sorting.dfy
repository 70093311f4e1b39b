/** The stable sort that `Array.prototype.sort` (ES2019 and later) and Python's
    `sorted`/`list.sort` perform, given as an insertion sort over a strict
    "comes before" relation derived from the caller's comparator or key. */
module Sorting {

  /** Irreflexive, transitive, and with transitive incomparability: what a
      comparator must be for a sort to be well defined. */
  ghost predicate StrictWeakOrder<T(!new)>(before: (T, T) -> bool) {
    (forall a :: !before(a, a)) &&
    (forall a, b, c :: before(a, b) && before(b, c) ==> before(a, c)) &&
    (forall a, b, c :: !before(a, b) && !before(b, c) ==> !before(a, c))
  }

  /** No element is placed after one that should come after it. */
  predicate SortedBy<T>(s: seq<T>, before: (T, T) -> bool) {
    forall i, j :: 0 <= i < j < |s| ==> !before(s[j], s[i])
  }

  /** Places `x` in front of the first element that does not come strictly
      before it, so that `x` stays ahead of the elements it ties with. */
  function Insert<T>(x: T, r: seq<T>, before: (T, T) -> bool): (q: seq<T>)
    ensures |q| == |r| + 1
    ensures multiset(q) == multiset(r) + multiset{x}
  {
    if |r| == 0 || !before(r[0], x) then [x] + r
    else
      assert r == [r[0]] + r[1..];
      [r[0]] + Insert(x, r[1..], before)
  }

  /** The stable sort of `s`. */
  function Sort<T>(s: seq<T>, before: (T, T) -> bool): (r: seq<T>)
    ensures |r| == |s|
    ensures multiset(r) == multiset(s)
  {
    if |s| == 0 then []
    else
      assert s == [s[0]] + s[1..];
      Insert(s[0], Sort(s[1..], before), before)
  }

  /** Sorting neither adds nor drops an element. */
  lemma SortKeepsMembers<T>(s: seq<T>, before: (T, T) -> bool)
    ensures forall x :: x in Sort(s, before) <==> x in s
  {
    var r := Sort(s, before);
    forall x ensures x in r <==> x in s {
      assert x in r <==> x in multiset(r);
      assert x in s <==> x in multiset(s);
    }
  }

  lemma {:induction false} InsertSorted<T(!new)>(x: T, r: seq<T>, before: (T, T) -> bool)
    requires StrictWeakOrder(before)
    requires SortedBy(r, before)
    ensures SortedBy(Insert(x, r, before), before)
    decreases |r|
  {
    var q := Insert(x, r, before);
    if |r| == 0 || !before(r[0], x) {
      assert q == [x] + r;
      forall j | 0 < j < |q| ensures !before(q[j], x) {
        assert q[j] == r[j - 1];
        if j > 1 {
          assert !before(r[j - 1], r[0]);
        }
      }
    } else {
      var tail := Insert(x, r[1..], before);
      assert q == [r[0]] + tail;
      InsertSorted(x, r[1..], before);
      forall j | 0 <= j < |tail| ensures !before(tail[j], r[0]) {
        var y := tail[j];
        assert y in multiset(tail);
        if y != x {
          assert y in multiset(r[1..]);
          assert y in r[1..];
          var k :| 0 <= k < |r[1..]| && r[1..][k] == y;
          assert r[k + 1] == y;
        }
      }
    }
  }

  /** The sort's result is ordered. */
  lemma {:induction false} SortSorted<T(!new)>(s: seq<T>, before: (T, T) -> bool)
    requires StrictWeakOrder(before)
    ensures SortedBy(Sort(s, before), before)
  {
    if |s| > 0 {
      SortSorted(s[1..], before);
      InsertSorted(s[0], Sort(s[1..], before), before);
    }
  }

  /** A sequence that is already ordered is left exactly as it is: ties keep
      their order. */
  lemma {:induction false} SortOfSorted<T>(s: seq<T>, before: (T, T) -> bool)
    requires SortedBy(s, before)
    ensures Sort(s, before) == s
  {
    if |s| > 0 {
      assert SortedBy(s[1..], before);
      SortOfSorted(s[1..], before);
      if |s| > 1 {
        assert !before(s[1], s[0]);
      }
      assert Insert(s[0], s[1..], before) == [s[0]] + s[1..];
    }
  }

  /** Sorting twice is the same as sorting once. */
  lemma SortIdempotent<T(!new)>(s: seq<T>, before: (T, T) -> bool)
    requires StrictWeakOrder(before)
    ensures Sort(Sort(s, before), before) == Sort(s, before)
  {
    SortSorted(s, before);
    SortOfSorted(Sort(s, before), before);
  }
}
