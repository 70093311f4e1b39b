/** First-match search, filtering and counting over sequences: the
    `for ... break`, `.find`, `.filter` and counting idioms the source
    repeats. */
module Seqs {
  import opened Wrappers

  /** No element occurs twice. */
  predicate Distinct<T(==)>(s: seq<T>) { forall i, j :: 0 <= i < j < |s| ==> s[i] != s[j] }

  /** The index of the first element satisfying `p`, if any. */
  function FirstIndex<T>(s: seq<T>, p: T -> bool): (r: Option<nat>)
    ensures r.Some? ==> r.value < |s| && p(s[r.value])
    ensures r.Some? ==> forall i :: 0 <= i < r.value ==> !p(s[i])
    ensures r.None? <==> forall i :: 0 <= i < |s| ==> !p(s[i])
  {
    if |s| == 0 then None
    else if p(s[0]) then Some(0)
    else
      match FirstIndex(s[1..], p)
      case None => None
      case Some(k) => Some(k + 1)
  }

  /** The elements satisfying `p`, in their original order. */
  function Filter<T>(s: seq<T>, p: T -> bool): (r: seq<T>)
    ensures |r| <= |s|
    ensures forall i :: 0 <= i < |r| ==> p(r[i])
    ensures forall i :: 0 <= i < |r| ==> r[i] in s
    ensures forall i :: 0 <= i < |s| && p(s[i]) ==> s[i] in r
  {
    if |s| == 0 then []
    else if p(s[0]) then [s[0]] + Filter(s[1..], p)
    else Filter(s[1..], p)
  }

  lemma {:induction false} FilterConcat<T>(a: seq<T>, b: seq<T>, p: T -> bool)
    ensures Filter(a + b, p) == Filter(a, p) + Filter(b, p)
  {
    if |a| == 0 {
      assert a + b == b;
    } else {
      assert (a + b)[1..] == a[1..] + b;
      FilterConcat(a[1..], b, p);
    }
  }

  /** The first `n` elements that pass are those that pass in some prefix:
      filtering keeps the order. */
  lemma {:induction false} FilterPrefix<T>(s: seq<T>, p: T -> bool, n: nat)
    requires n <= |Filter(s, p)|
    ensures exists k :: 0 <= k <= |s| && Filter(s[..k], p) == Filter(s, p)[..n]
    decreases |s|
  {
    if n == 0 {
      assert Filter(s[..0], p) == Filter(s, p)[..0];
    } else {
      var m := if p(s[0]) then n - 1 else n;
      FilterPrefix(s[1..], p, m);
      var k :| 0 <= k <= |s[1..]| && Filter(s[1..][..k], p) == Filter(s[1..], p)[..m];
      assert s[..k + 1][1..] == s[1..][..k];
      assert Filter(s[..k + 1], p) == Filter(s, p)[..n];
    }
  }

  /** Filtering keeps everything exactly when every element passes. */
  lemma {:induction false} FilterAll<T>(s: seq<T>, p: T -> bool)
    requires forall i :: 0 <= i < |s| ==> p(s[i])
    ensures Filter(s, p) == s
  {
    if |s| > 0 {
      FilterAll(s[1..], p);
    }
  }

  /** Filtering keeps the length exactly when every element passes. */
  lemma {:induction false} FilterKeepsLengthIffAll<T>(s: seq<T>, p: T -> bool)
    ensures |Filter(s, p)| == |s| <==> forall i :: 0 <= i < |s| ==> p(s[i])
    decreases |s|
  {
    if |s| > 0 {
      FilterKeepsLengthIffAll(s[1..], p);
      if forall i :: 0 <= i < |s| ==> p(s[i]) {
        forall i | 0 <= i < |s[1..]|
          ensures p(s[1..][i])
        {
          assert s[1..][i] == s[i + 1];
        }
      } else {
        var i :| 0 <= i < |s| && !p(s[i]);
        if i > 0 {
          assert s[1..][i - 1] == s[i];
        }
      }
    }
  }

  /** Filtering a permutation gives a permutation of the filtered sequence. */
  lemma {:induction false} FilterMultiset<T>(s: seq<T>, p: T -> bool)
    ensures multiset(Filter(s, p)) <= multiset(s)
  {
    if |s| > 0 {
      FilterMultiset(s[1..], p);
      assert s == [s[0]] + s[1..];
    }
  }

  /** How many elements satisfy `p`. */
  function Count<T>(s: seq<T>, p: T -> bool): (n: nat)
    ensures n <= |s|
    ensures n == |Filter(s, p)|
  {
    if |s| == 0 then 0 else (if p(s[0]) then 1 else 0) + Count(s[1..], p)
  }

  lemma {:induction false} CountConcat<T>(a: seq<T>, b: seq<T>, p: T -> bool)
    ensures Count(a + b, p) == Count(a, p) + Count(b, p)
  {
    FilterConcat(a, b, p);
  }

  /** `f(x)` for every `x` of `s` satisfying `p`, in order: a loop that
      appends as it goes. */
  function MapFilter<T, U>(s: seq<T>, p: T -> bool, f: T -> U): seq<U>
    decreases |s|
  {
    if |s| == 0 then []
    else
      var last := s[|s| - 1];
      MapFilter(s[..|s| - 1], p, f) + (if p(last) then [f(last)] else [])
  }

  /** One result per element that passes. */
  lemma {:induction false} MapFilterLength<T, U>(s: seq<T>, p: T -> bool, f: T -> U)
    ensures |MapFilter(s, p, f)| == Count(s, p)
    decreases |s|
  {
    if |s| > 0 {
      var init := s[..|s| - 1];
      MapFilterLength(init, p, f);
      assert s == init + [s[|s| - 1]];
      CountConcat(init, [s[|s| - 1]], p);
    }
  }

  /** Every result comes from an element that passes. */
  lemma {:induction false} MapFilterSound<T, U>(s: seq<T>, p: T -> bool, f: T -> U)
    ensures forall y :: y in MapFilter(s, p, f) ==> exists j :: 0 <= j < |s| && p(s[j]) && y == f(s[j])
    decreases |s|
  {
    if |s| > 0 {
      var init := s[..|s| - 1];
      MapFilterSound(init, p, f);
      forall y | y in MapFilter(s, p, f) ensures exists j :: 0 <= j < |s| && p(s[j]) && y == f(s[j]) {
        if y in MapFilter(init, p, f) {
          var j :| 0 <= j < |init| && p(init[j]) && y == f(init[j]);
          assert s[j] == init[j];
        } else {
          var j := |s| - 1;
          assert p(s[j]) && y == f(s[j]);
        }
      }
    }
  }

  /** Every element that passes has its result. */
  lemma {:induction false} MapFilterComplete<T, U>(s: seq<T>, p: T -> bool, f: T -> U)
    ensures forall j :: 0 <= j < |s| && p(s[j]) ==> f(s[j]) in MapFilter(s, p, f)
    decreases |s|
  {
    if |s| > 0 {
      var init := s[..|s| - 1];
      MapFilterComplete(init, p, f);
      forall j | 0 <= j < |s| && p(s[j]) ensures f(s[j]) in MapFilter(s, p, f) {
        if j < |init| {
          assert init[j] == s[j];
        }
      }
    }
  }

  /** `values.reduce((a, b) => a + b, 0)`. */
  function Sum(s: seq<int>): int
  {
    if |s| == 0 then 0 else s[0] + Sum(s[1..])
  }

  lemma {:induction false} SumConcat(a: seq<int>, b: seq<int>)
    ensures Sum(a + b) == Sum(a) + Sum(b)
  {
    if |a| == 0 {
      assert a + b == b;
    } else {
      assert (a + b)[1..] == a[1..] + b;
      SumConcat(a[1..], b);
    }
  }

  /** `s.slice(start, end)`: out-of-range bounds are clamped. */
  function Slice<T>(s: seq<T>, start: nat, end: nat): (r: seq<T>)
    ensures |r| <= |s|
    ensures end <= |s| && start <= end ==> r == s[start..end]
    ensures end <= start || |s| <= start ==> r == []
  {
    var e := if end <= |s| then end else |s|;
    var b := if start <= e then start else e;
    s[b..e]
  }

  /** The elements of a sequence of sequences, one after the other. */
  function Flatten<T>(ss: seq<seq<T>>): seq<T>
  {
    if |ss| == 0 then [] else ss[0] + Flatten(ss[1..])
  }

  lemma {:induction false} FlattenSnoc<T>(ss: seq<seq<T>>, s: seq<T>)
    ensures Flatten(ss + [s]) == Flatten(ss) + s
  {
    if |ss| == 0 {
      assert ss + [s] == [s];
    } else {
      assert (ss + [s])[1..] == ss[1..] + [s];
      FlattenSnoc(ss[1..], s);
    }
  }

  /** Concatenation regroups freely. */
  lemma AppendAssoc<T>(a: seq<T>, b: seq<T>, c: seq<T>)
    ensures a + (b + c) == (a + b) + c
  {
  }
}
