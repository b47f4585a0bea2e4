/** Kotlin's list `filter`, `count` and `sumOf`, with what they guarantee. */
module Seqs {

  function Min(a: int, b: int): int {
    if a <= b then a else b
  }

  /** `r` is `s` with some elements left out, the others kept in order. */
  ghost predicate IsSubsequence<T>(r: seq<T>, s: seq<T>)
    decreases |s|
  {
    if r == [] then true
    else if s == [] then false
    else (r[0] == s[0] && IsSubsequence(r[1..], s[1..])) || IsSubsequence(r, s[1..])
  }

  /**
   * `filter(p)`: keeps, in their order, exactly the elements that satisfy `p`,
   * each as often as it occurs in `s`.
   */
  function Filter<T(!new)>(s: seq<T>, p: T -> bool): (r: seq<T>)
    ensures |r| <= |s|
    ensures forall x :: x in r <==> x in s && p(x)
    ensures forall x :: multiset(r)[x] == if p(x) then multiset(s)[x] else 0
    ensures IsSubsequence(r, s)
    decreases |s|
  {
    if s == [] then []
    else
      var rest := Filter(s[1..], p);
      assert s == [s[0]] + s[1..];
      if p(s[0]) then
        assert ([s[0]] + rest)[1..] == rest;
        [s[0]] + rest
      else rest
  }

  /** Filtering keeps everything when every element satisfies the predicate. */
  lemma {:induction false} FilterAll<T(!new)>(s: seq<T>, p: T -> bool)
    requires forall x :: x in s ==> p(x)
    ensures Filter(s, p) == s
    decreases |s|
  {
    if s != [] {
      FilterAll(s[1..], p);
    }
  }

  /** Filtering with two predicates that agree on `s` gives the same list. */
  lemma {:induction false} FilterSame<T(!new)>(s: seq<T>, p: T -> bool, q: T -> bool)
    requires forall x :: x in s ==> p(x) == q(x)
    ensures Filter(s, p) == Filter(s, q)
    decreases |s|
  {
    if s != [] {
      FilterSame(s[1..], p, q);
    }
  }

  /**
   * Splitting a filter by a second predicate: the elements kept by `p` are
   * those kept by `p && q` together with those kept by `p && !q`.
   */
  lemma FilterSplit<T(!new)>(s: seq<T>, p: T -> bool, q: T -> bool)
    ensures multiset(Filter(s, x => p(x) && q(x))) + multiset(Filter(s, x => p(x) && !q(x))) == multiset(Filter(s, p))
    ensures |Filter(s, x => p(x) && q(x))| + |Filter(s, x => p(x) && !q(x))| == |Filter(s, p)|
  {
    var both, onlyP, all := Filter(s, x => p(x) && q(x)), Filter(s, x => p(x) && !q(x)), Filter(s, p);
    assert multiset(both) + multiset(onlyP) == multiset(all);
    assert |multiset(both) + multiset(onlyP)| == |multiset(all)|;
  }

  /** `count(p)` */
  function Count<T(!new)>(s: seq<T>, p: T -> bool): (n: nat)
    ensures n == |Filter(s, p)|
    ensures n <= |s|
    decreases |s|
  {
    if s == [] then 0 else (if p(s[0]) then 1 else 0) + Count(s[1..], p)
  }

  /** `sumOf(f)` */
  function SumOf<T(!new)>(s: seq<T>, f: T -> real): (total: real)
    ensures (forall x :: x in s ==> f(x) >= 0.0) ==> total >= 0.0
    decreases |s|
  {
    if s == [] then 0.0 else f(s[0]) + SumOf(s[1..], f)
  }

  /** The sum over a concatenation is the sum of the sums. */
  lemma {:induction false} SumOfConcat<T(!new)>(a: seq<T>, b: seq<T>, f: T -> real)
    ensures SumOf(a + b, f) == SumOf(a, f) + SumOf(b, f)
    decreases |a|
  {
    if a != [] {
      assert (a + b)[0] == a[0] && (a + b)[1..] == a[1..] + b;
      SumOfConcat(a[1..], b, f);
    } else {
      assert a + b == b;
    }
  }

  /** The sum over a list is the sum over the elements `p` keeps plus the sum over those its negation `q` keeps. */
  lemma {:induction false} SumOfFilterSplit<T(!new)>(s: seq<T>, f: T -> real, p: T -> bool, q: T -> bool)
    requires forall x :: q(x) == !p(x)
    ensures SumOf(Filter(s, p), f) + SumOf(Filter(s, q), f) == SumOf(s, f)
    decreases |s|
  {
    if s != [] {
      SumOfFilterSplit(s[1..], f, p, q);
      var kept, dropped := Filter(s[1..], p), Filter(s[1..], q);
      if p(s[0]) {
        assert Filter(s, p) == [s[0]] + kept;
        assert Filter(s, q) == dropped;
      } else {
        assert Filter(s, p) == kept;
        assert Filter(s, q) == [s[0]] + dropped;
      }
    }
  }
}
