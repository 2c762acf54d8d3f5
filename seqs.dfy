/** Sequence operations shared by every component: the order-preserving
    filter (`Array.prototype.filter`, a Python list comprehension with an
    `if`), the left-to-right sum (`reduce((sum, x) => sum + f(x), 0)`,
    Python `sum(...)`), and the subsequence relation used to state that a
    filter keeps the original relative order. */
module Seqs {

  /** The elements of `s` that satisfy `p`, in their original order. */
  function Filter<T(==)>(p: T -> bool, s: seq<T>): (r: seq<T>)
    ensures |r| <= |s|
  {
    if s == [] then []
    else if p(s[0]) then [s[0]] + Filter(p, s[1..])
    else Filter(p, s[1..])
  }

  /** Sum of `f` over `s`, starting from 0. */
  function Sum<T>(f: T -> int, s: seq<T>): int
  {
    if s == [] then 0 else f(s[0]) + Sum(f, s[1..])
  }

  /** `a` is obtained from `b` by deleting elements, keeping the order of the rest. */
  predicate Subseq<T(==)>(a: seq<T>, b: seq<T>)
    decreases |b|
  {
    if a == [] then true
    else if b == [] then false
    else (a[0] == b[0] && Subseq(a[1..], b[1..])) || Subseq(a, b[1..])
  }

  /** A filter keeps exactly the elements of `s` that satisfy `p`. */
  lemma {:induction false} FilterMembers<T>(p: T -> bool, s: seq<T>)
    ensures forall i :: 0 <= i < |s| ==> (s[i] in Filter(p, s) <==> p(s[i]))
    ensures forall i :: 0 <= i < |Filter(p, s)| ==> Filter(p, s)[i] in s && p(Filter(p, s)[i])
  {
    if s != [] {
      FilterMembers(p, s[1..]);
      forall i | 0 <= i < |s| ensures s[i] in Filter(p, s) <==> p(s[i]) {
        if i > 0 {
          assert s[i] == s[1..][i - 1];
        }
      }
    }
  }

  /** A filter keeps the remaining elements in their original relative order. */
  lemma {:induction false} FilterIsSubseq<T>(p: T -> bool, s: seq<T>)
    ensures Subseq(Filter(p, s), s)
  {
    if s != [] {
      FilterIsSubseq(p, s[1..]);
      var rest := Filter(p, s[1..]);
      if p(s[0]) {
        assert ([s[0]] + rest)[1..] == rest;
      } else if rest != [] {
        assert Subseq(rest, s[1..]);
      }
    }
  }

  /** A filter whose predicate holds of every element is the identity. */
  lemma {:induction false} FilterAllKept<T>(p: T -> bool, s: seq<T>)
    requires forall i :: 0 <= i < |s| ==> p(s[i])
    ensures Filter(p, s) == s
  {
    if s != [] {
      FilterAllKept(p, s[1..]);
      assert [s[0]] + s[1..] == s;
    }
  }

  /** Filtering twice with the same predicate gives the result of filtering once. */
  lemma FilterIdempotent<T>(p: T -> bool, s: seq<T>)
    ensures Filter(p, Filter(p, s)) == Filter(p, s)
  {
    FilterMembers(p, s);
    FilterAllKept(p, Filter(p, s));
  }

  /** A stronger predicate keeps a subsequence of what a weaker one keeps. */
  lemma {:induction false} FilterMonotone<T>(p: T -> bool, q: T -> bool, s: seq<T>)
    requires forall i :: 0 <= i < |s| && p(s[i]) ==> q(s[i])
    ensures Subseq(Filter(p, s), Filter(q, s))
  {
    if s != [] {
      FilterMonotone(p, q, s[1..]);
      var fp, fq := Filter(p, s[1..]), Filter(q, s[1..]);
      if p(s[0]) {
        assert ([s[0]] + fp)[1..] == fp;
        assert ([s[0]] + fq)[1..] == fq;
      } else if q(s[0]) && fp != [] {
        assert ([s[0]] + fq)[1..] == fq;
      }
    }
  }

  /** When `p` and `q` split `s` (each element satisfies exactly one), the two
      filters together are as long as `s`. */
  lemma {:induction false} CountPartition<T>(p: T -> bool, q: T -> bool, s: seq<T>)
    requires forall i :: 0 <= i < |s| ==> (p(s[i]) <==> !q(s[i]))
    ensures |Filter(p, s)| + |Filter(q, s)| == |s|
  {
    if s != [] {
      CountPartition(p, q, s[1..]);
    }
  }

  /** When `p` and `q` split `s`, the sums over the two filters add up to the sum over `s`. */
  lemma {:induction false} SumPartition<T>(f: T -> int, p: T -> bool, q: T -> bool, s: seq<T>)
    requires forall i :: 0 <= i < |s| ==> (p(s[i]) <==> !q(s[i]))
    ensures Sum(f, Filter(p, s)) + Sum(f, Filter(q, s)) == Sum(f, s)
  {
    if s != [] {
      SumPartition(f, p, q, s[1..]);
    }
  }

  /** Sums of non-negative values are non-negative. */
  lemma {:induction false} SumNonNegative<T>(f: T -> int, s: seq<T>)
    requires forall i :: 0 <= i < |s| ==> f(s[i]) >= 0
    ensures Sum(f, s) >= 0
  {
    if s != [] {
      SumNonNegative(f, s[1..]);
    }
  }

  /** With non-negative values, the sum over a filter is at most the sum over
      the whole sequence. */
  lemma {:induction false} SumFilterBound<T>(f: T -> int, p: T -> bool, s: seq<T>)
    requires forall i :: 0 <= i < |s| ==> f(s[i]) >= 0
    ensures 0 <= Sum(f, Filter(p, s)) <= Sum(f, s)
  {
    if s != [] {
      SumFilterBound(f, p, s[1..]);
    }
  }

  /** A filter keeps something exactly when some element satisfies the predicate. */
  lemma FilterNonEmptyIff<T>(p: T -> bool, s: seq<T>)
    ensures |Filter(p, s)| > 0 <==> exists i :: 0 <= i < |s| && p(s[i])
  {
    FilterMembers(p, s);
    if |Filter(p, s)| > 0 {
      var x := Filter(p, s)[0];
      assert x in Filter(p, s);
      var i :| 0 <= i < |s| && s[i] == x;
    }
  }

  /** A filter over a sequence that starts with `a`. */
  lemma FilterCons<T>(p: T -> bool, a: T, t: seq<T>)
    ensures Filter(p, [a] + t) == (if p(a) then [a] else []) + Filter(p, t)
  {
    assert ([a] + t)[1..] == t;
  }

  /** A sum over a sequence that starts with `a`. */
  lemma SumCons<T>(f: T -> int, a: T, t: seq<T>)
    ensures Sum(f, [a] + t) == f(a) + Sum(f, t)
  {
    assert ([a] + t)[1..] == t;
  }

  /** `f` applied to every element of `s`, in order. */
  function Map<A, B>(f: A -> B, s: seq<A>): (r: seq<B>)
    ensures |r| == |s|
    ensures forall i :: 0 <= i < |s| ==> r[i] == f(s[i])
  {
    if s == [] then [] else [f(s[0])] + Map(f, s[1..])
  }

  /** Filtering the images by `p` is mapping the elements kept by `q`, when
      `p` holds of an element's image exactly when `q` holds of the element. */
  lemma {:induction false} FilterMap<A, B>(f: A -> B, p: B -> bool, q: A -> bool, s: seq<A>)
    requires forall i :: 0 <= i < |s| ==> (p(f(s[i])) <==> q(s[i]))
    ensures Filter(p, Map(f, s)) == Map(f, Filter(q, s))
  {
    if s != [] {
      FilterMap(f, p, q, s[1..]);
      assert Map(f, s)[1..] == Map(f, s[1..]);
    }
  }

  /** Summing `g` over the images is summing `h` over the elements, when
      `g` of an element's image is `h` of the element. */
  lemma {:induction false} SumMap<A, B>(f: A -> B, g: B -> int, h: A -> int, s: seq<A>)
    requires forall i :: 0 <= i < |s| ==> g(f(s[i])) == h(s[i])
    ensures Sum(g, Map(f, s)) == Sum(h, s)
  {
    if s != [] {
      SumMap(f, g, h, s[1..]);
      assert Map(f, s)[1..] == Map(f, s[1..]);
    }
  }

  /** Two predicates that agree on every element of `s` keep the same elements. */
  lemma {:induction false} FilterCongruent<T>(p: T -> bool, q: T -> bool, s: seq<T>)
    requires forall i :: 0 <= i < |s| ==> (p(s[i]) <==> q(s[i]))
    ensures Filter(p, s) == Filter(q, s)
  {
    if s != [] {
      FilterCongruent(p, q, s[1..]);
    }
  }

  /** A filter keeps every copy of an element that satisfies `p` and no copy
      of one that does not. */
  lemma {:induction false} FilterCounts<T>(p: T -> bool, s: seq<T>)
    ensures forall x :: multiset(Filter(p, s))[x] == if p(x) then multiset(s)[x] else 0
  {
    if s != [] {
      FilterCounts(p, s[1..]);
      assert s == [s[0]] + s[1..];
      assert multiset(s) == multiset{s[0]} + multiset(s[1..]);
    }
  }
}
