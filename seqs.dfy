/**
  Sequence helpers shared by the model: JavaScript's `filter`, the
  first-seen deduplication of `[...new Set(xs)]`, and the notions used to
  state their properties.
 */
module Seqs {

  /** `s.filter(p)`: the elements of `s` that satisfy `p`, in their order. */
  function Filter<T>(s: seq<T>, p: T -> bool): (r: seq<T>)
    ensures |r| <= |s|
    ensures forall i :: 0 <= i < |r| ==> r[i] in s && p(r[i])
    ensures forall i :: 0 <= i < |s| && p(s[i]) ==> s[i] in r
    decreases |s|
  {
    if s == [] then [] else (if p(s[0]) then [s[0]] else []) + Filter(s[1..], p)
  }

  /** `a` can be obtained from `b` by deleting elements. */
  ghost predicate IsSubseq<T>(a: seq<T>, b: seq<T>)
    decreases |b|
  {
    a == [] || (b != [] && ((a[0] == b[0] && IsSubseq(a[1..], b[1..])) || IsSubseq(a, b[1..])))
  }

  /** No element occurs twice. */
  ghost predicate NoDup<T>(s: seq<T>)
  {
    forall i, j :: 0 <= i < j < |s| ==> s[i] != s[j]
  }

  /** A filter keeps the surviving elements in their original order. */
  lemma {:induction false} FilterIsSubseq<T>(s: seq<T>, p: T -> bool)
    ensures IsSubseq(Filter(s, p), s)
    decreases |s|
  {
    if s != [] {
      FilterIsSubseq(s[1..], p);
      if p(s[0]) {
        assert Filter(s, p) == [s[0]] + Filter(s[1..], p);
        assert Filter(s, p)[1..] == Filter(s[1..], p);
      } else {
        assert Filter(s, p) == Filter(s[1..], p);
      }
    }
  }

  /** A filter that every element passes changes nothing. */
  lemma {:induction false} FilterAll<T>(s: seq<T>, p: T -> bool)
    requires forall x :: x in s ==> p(x)
    ensures Filter(s, p) == s
    decreases |s|
  {
    if s != [] {
      FilterAll(s[1..], p);
      assert [s[0]] + s[1..] == s;
    }
  }

  /** Filters by predicates that agree on every element of `s` are equal. */
  lemma {:induction false} FilterExt<T>(s: seq<T>, p: T -> bool, q: T -> bool)
    requires forall i :: 0 <= i < |s| ==> p(s[i]) == q(s[i])
    ensures Filter(s, p) == Filter(s, q)
    decreases |s|
  {
    if s != [] {
      FilterExt(s[1..], p, q);
    }
  }

  /** Filtering by `p` then `q` is filtering once by any predicate equal to their conjunction on `s`. */
  lemma {:induction false} FilterFilterAs<T>(s: seq<T>, p: T -> bool, q: T -> bool, pq: T -> bool)
    requires forall i :: 0 <= i < |s| ==> pq(s[i]) == (p(s[i]) && q(s[i]))
    ensures Filter(Filter(s, p), q) == Filter(s, pq)
    decreases |s|
  {
    if s != [] {
      FilterFilterAs(s[1..], p, q, pq);
      if p(s[0]) {
        assert Filter(s, p) == [s[0]] + Filter(s[1..], p);
        assert Filter(s, p)[1..] == Filter(s[1..], p);
      } else {
        assert Filter(s, p) == Filter(s[1..], p);
      }
    }
  }

  /** Filtering twice by the same predicate is filtering once. */
  lemma FilterIdempotent<T>(s: seq<T>, p: T -> bool)
    ensures Filter(Filter(s, p), p) == Filter(s, p)
  {
    FilterAll(Filter(s, p), p);
  }

  /** The position of the first occurrence of `x` in `s`: `s.indexOf(x)`. */
  function FirstIndex<T(==)>(s: seq<T>, x: T): (k: nat)
    requires x in s
    ensures k < |s| && s[k] == x
    ensures forall i :: 0 <= i < k ==> s[i] != x
    decreases |s|
  {
    if s[0] == x then 0 else 1 + FirstIndex(s[1..], x)
  }

  /** The first occurrence within a prefix is the first occurrence overall. */
  lemma {:induction false} FirstIndexPrefix<T>(s: seq<T>, n: nat, x: T)
    requires n <= |s| && x in s[..n]
    ensures FirstIndex(s, x) == FirstIndex(s[..n], x)
    decreases n
  {
    assert s[..n][0] == s[0];
    if s[0] != x {
      assert s[..n][1..] == s[1..][..n - 1];
      FirstIndexPrefix(s[1..], n - 1, x);
    }
  }

  /** `a` occurs in `s` before `b` first does. */
  ghost predicate Before<T>(s: seq<T>, a: T, b: T)
  {
    a in s && b in s && FirstIndex(s, a) < FirstIndex(s, b)
  }

  /** The elements of `r` are elements of `s`, ordered by where they first occur in `s`. */
  ghost predicate FirstSeenOrder<T>(r: seq<T>, s: seq<T>)
  {
    && (forall i :: 0 <= i < |r| ==> r[i] in s)
    && forall i, j :: 0 <= i < j < |r| ==> Before(s, r[i], r[j])
  }

  /** `[...new Set(s)]`: each element once, in the order of its first occurrence. */
  function Dedup<T(==)>(s: seq<T>): (r: seq<T>)
    ensures forall i :: 0 <= i < |r| ==> r[i] in s
    ensures forall i :: 0 <= i < |s| ==> s[i] in r
    decreases |s|
  {
    if s == [] then []
    else
      var d := Dedup(s[..|s| - 1]);
      if s[|s| - 1] in d then d else d + [s[|s| - 1]]
  }

  /** Deduplication keeps first occurrences only, in first-seen order. */
  lemma {:induction false} DedupFirstSeen<T>(s: seq<T>)
    ensures NoDup(Dedup(s))
    ensures FirstSeenOrder(Dedup(s), s)
    decreases |s|
  {
    if s != [] {
      var n := |s| - 1;
      var p := s[..n];
      var last := s[n];
      var d := Dedup(p);
      DedupFirstSeen(p);
      var r := Dedup(s);
      forall x | x in d
        ensures FirstIndex(s, x) == FirstIndex(p, x)
      {
        FirstIndexPrefix(s, n, x);
      }
      if last in d {
        assert r == d;
      } else {
        assert r == d + [last];
        assert last !in p;
        assert FirstIndex(s, last) == n by {
          forall i | 0 <= i < n ensures s[i] != last {
            assert s[i] == p[i];
          }
        }
        forall i, j | 0 <= i < j < |r|
          ensures Before(s, r[i], r[j])
        {
          if j < |d| {
            assert r[i] == d[i] && r[j] == d[j];
          } else {
            assert r[i] == d[i];
            assert FirstIndex(p, d[i]) < |p|;
          }
        }
      }
    }
  }

  /** Ordering by first occurrence rules out repeats. */
  lemma FirstSeenNoDup<T>(r: seq<T>, s: seq<T>)
    requires FirstSeenOrder(r, s)
    ensures NoDup(r)
  {
  }

  /** Dropping the head keeps first-seen order. */
  lemma FirstSeenTail<T>(r: seq<T>, s: seq<T>)
    requires r != [] && FirstSeenOrder(r, s)
    ensures FirstSeenOrder(r[1..], s)
  {
    var t := r[1..];
    forall i, j | 0 <= i < j < |t|
      ensures Before(s, t[i], t[j])
    {
      assert t[i] == r[i + 1] && t[j] == r[j + 1];
    }
  }

  /** A filter keeps first-seen order. */
  lemma {:induction false} FilterFirstSeen<T>(r: seq<T>, s: seq<T>, p: T -> bool)
    requires FirstSeenOrder(r, s)
    ensures FirstSeenOrder(Filter(r, p), s)
    decreases |r|
  {
    if r != [] {
      var t := r[1..];
      FirstSeenTail(r, s);
      FilterFirstSeen(t, s, p);
      var ft := Filter(t, p);
      if p(r[0]) {
        var f := Filter(r, p);
        assert f == [r[0]] + ft;
        forall j | 0 < j < |f|
          ensures Before(s, f[0], f[j])
        {
          assert f[j] == ft[j - 1];
          assert ft[j - 1] in t;
          var m :| 0 <= m < |t| && t[m] == ft[j - 1];
          assert r[m + 1] == f[j];
        }
        forall i, j | 0 < i < j < |f|
          ensures Before(s, f[i], f[j])
        {
          assert f[i] == ft[i - 1] && f[j] == ft[j - 1];
        }
      } else {
        assert Filter(r, p) == ft;
      }
    }
  }
}
