// Generic list operations behind JavaScript's `filter` and `reduce`, each with
// an independent reference definition and the lemmas that connect them.

module Lists {

  /** `s.filter(keep)`: the elements that satisfy `keep`, in their original order. */
  function Filter<T>(s: seq<T>, keep: T -> bool): (r: seq<T>)
    ensures |r| <= |s|
  {
    if s == [] then []
    else if keep(s[0]) then [s[0]] + Filter(s[1..], keep)
    else Filter(s[1..], keep)
  }

  /** `r` can be obtained from `s` by deleting elements (order preserved). */
  ghost predicate IsSubsequence<T>(r: seq<T>, s: seq<T>)
    decreases |s|
  {
    r == [] || (s != [] && ((r[0] == s[0] && IsSubsequence(r[1..], s[1..])) || IsSubsequence(r, s[1..])))
  }

  /** The sum of `f` over the elements of `s`. */
  function Sum<T>(s: seq<T>, f: T -> int): int
  {
    if s == [] then 0 else f(s[0]) + Sum(s[1..], f)
  }

  /** `s.reduce((acc, x) => acc + f(x), acc)`: a left fold that adds up `f`. */
  function Reduce<T>(s: seq<T>, f: T -> int, acc: int): (r: int)
    ensures r == acc + Sum(s, f)
  {
    if s == [] then acc else Reduce(s[1..], f, acc + f(s[0]))
  }

  lemma {:induction false} FilterMembership<T>(s: seq<T>, keep: T -> bool, x: T)
    ensures x in Filter(s, keep) <==> x in s && keep(x)
  {
    if s != [] {
      FilterMembership(s[1..], keep, x);
      assert s == [s[0]] + s[1..];
    }
  }

  lemma {:induction false} FilterIsSubsequence<T>(s: seq<T>, keep: T -> bool)
    ensures IsSubsequence(Filter(s, keep), s)
  {
    if s != [] {
      FilterIsSubsequence(s[1..], keep);
      var r := Filter(s, keep);
      if keep(s[0]) {
        assert r[0] == s[0] && r[1..] == Filter(s[1..], keep);
      }
    }
  }

  /** Filtering keeps the list unchanged exactly when every element is kept. */
  lemma {:induction false} FilterAllKept<T>(s: seq<T>, keep: T -> bool)
    ensures Filter(s, keep) == s <==> forall k :: 0 <= k < |s| ==> keep(s[k])
  {
    if s != [] {
      FilterAllKept(s[1..], keep);
      if !keep(s[0]) {
        assert |Filter(s, keep)| < |s|;
      } else if Filter(s, keep) == s {
        assert Filter(s[1..], keep) == s[1..];
        forall k | 0 <= k < |s| ensures keep(s[k]) {
          if k > 0 { assert s[k] == s[1..][k - 1]; }
        }
      } else {
        assert Filter(s[1..], keep) != s[1..];
      }
    }
  }

  /** Two predicates that agree on the elements of `s` filter it the same way. */
  lemma {:induction false} FilterCongruent<T>(s: seq<T>, f: T -> bool, g: T -> bool)
    requires forall k :: 0 <= k < |s| ==> f(s[k]) == g(s[k])
    ensures Filter(s, f) == Filter(s, g)
  {
    if s != [] {
      FilterCongruent(s[1..], f, g);
    }
  }

  lemma {:induction false} SumAppend<T>(a: seq<T>, b: seq<T>, f: T -> int)
    ensures Sum(a + b, f) == Sum(a, f) + Sum(b, f)
  {
    if a == [] {
      assert a + b == b;
    } else {
      assert (a + b)[1..] == a[1..] + b;
      SumAppend(a[1..], b, f);
    }
  }

  /** If `b` agrees with `a` under `f` everywhere except at `k`, the sums differ by the change at `k`. */
  lemma {:induction false} SumChangedAt<T>(a: seq<T>, b: seq<T>, f: T -> int, k: nat)
    requires |a| == |b| && k < |a|
    requires forall i :: 0 <= i < |a| && i != k ==> f(a[i]) == f(b[i])
    ensures Sum(b, f) == Sum(a, f) - f(a[k]) + f(b[k])
  {
    if k == 0 {
      SumSame(a[1..], b[1..], f);
    } else {
      SumChangedAt(a[1..], b[1..], f, k - 1);
    }
  }

  lemma {:induction false} SumSame<T>(a: seq<T>, b: seq<T>, f: T -> int)
    requires |a| == |b|
    requires forall i :: 0 <= i < |a| ==> f(a[i]) == f(b[i])
    ensures Sum(a, f) == Sum(b, f)
  {
    if a != [] {
      SumSame(a[1..], b[1..], f);
    }
  }

  /** A sum of values that are each at least `lo` is at least `lo` times the length. */
  lemma {:induction false} SumLowerBound<T>(s: seq<T>, f: T -> int, lo: int)
    requires forall i :: 0 <= i < |s| ==> f(s[i]) >= lo
    ensures Sum(s, f) >= lo * |s|
  {
    if s != [] {
      SumLowerBound(s[1..], f, lo);
    }
  }
}
