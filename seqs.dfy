/**
 * `Array.prototype.filter` and `Array.prototype.map` on sequences, with the
 * laws the components rely on.
 */
module Seqs {

  /** `s.filter(p)`: the elements that pass, in their original order, with their multiplicity. */
  function Filter<T(!new)>(p: T -> bool, s: seq<T>): (r: seq<T>)
    ensures |r| <= |s|
    ensures forall x :: x in r <==> x in s && p(x)
    decreases |s|
  {
    if s == [] then []
    else
      assert s == [s[0]] + s[1..];
      (if p(s[0]) then [s[0]] else []) + Filter(p, s[1..])
  }

  /** Filtering keeps every passing element as often as it occurs, and no other. */
  lemma {:induction false} FilterMultiset<T(!new)>(p: T -> bool, s: seq<T>)
    ensures forall x :: multiset(Filter(p, s))[x] == if p(x) then multiset(s)[x] else 0
    decreases |s|
  {
    if s != [] {
      FilterMultiset(p, s[1..]);
      assert s == [s[0]] + s[1..];
    }
  }

  /** `s.map(f)`. */
  function Map<T, U>(f: T -> U, s: seq<T>): (r: seq<U>)
    ensures |r| == |s|
    ensures forall i :: 0 <= i < |s| ==> r[i] == f(s[i])
  {
    seq(|s|, i requires 0 <= i < |s| => f(s[i]))
  }

  /** Filtering is order preserving: it distributes over concatenation. */
  lemma {:induction false} FilterConcat<T(!new)>(p: T -> bool, a: seq<T>, b: seq<T>)
    ensures Filter(p, a + b) == Filter(p, a) + Filter(p, b)
    decreases |a|
  {
    if a != [] {
      var ab := a + b;
      assert ab[0] == a[0] && ab[1..] == a[1..] + b;
      FilterConcat(p, a[1..], b);
      var head := if p(a[0]) then [a[0]] else [];
      assert Filter(p, ab) == head + Filter(p, ab[1..]);
      assert Filter(p, a) == head + Filter(p, a[1..]);
    } else {
      assert a + b == b;
    }
  }

  /** A one-element list keeps its element exactly when it passes. */
  lemma FilterSingleton<T(!new)>(p: T -> bool, x: T)
    ensures Filter(p, [x]) == if p(x) then [x] else []
  {
    assert [x][1..] == [];
  }

  /** Nothing is removed when every element passes. */
  lemma {:induction false} FilterAllPass<T(!new)>(p: T -> bool, s: seq<T>)
    requires forall x :: x in s ==> p(x)
    ensures Filter(p, s) == s
    decreases |s|
  {
    if s != [] {
      FilterAllPass(p, s[1..]);
    }
  }

  /** Everything is removed when no element passes. */
  lemma {:induction false} FilterNonePass<T(!new)>(p: T -> bool, s: seq<T>)
    requires forall x :: x in s ==> !p(x)
    ensures Filter(p, s) == []
    decreases |s|
  {
    if s != [] {
      FilterNonePass(p, s[1..]);
    }
  }

  /** Two predicates that agree on the elements filter alike. */
  lemma {:induction false} FilterCongruent<T(!new)>(p: T -> bool, q: T -> bool, s: seq<T>)
    requires forall x :: x in s ==> p(x) == q(x)
    ensures Filter(p, s) == Filter(q, s)
    decreases |s|
  {
    if s != [] {
      FilterCongruent(p, q, s[1..]);
    }
  }

  /** Filtering twice by `q` then `p` is filtering once by both. */
  lemma {:induction false} FilterFilter<T(!new)>(p: T -> bool, q: T -> bool, s: seq<T>)
    ensures Filter(p, Filter(q, s)) == Filter(x => p(x) && q(x), s)
    decreases |s|
  {
    if s != [] {
      FilterFilter(p, q, s[1..]);
      var pq := x => p(x) && q(x);
      assert Filter(pq, s) == (if pq(s[0]) then [s[0]] else []) + Filter(pq, s[1..]);
      var t := Filter(q, s[1..]);
      if q(s[0]) {
        assert Filter(q, s) == [s[0]] + t;
        assert ([s[0]] + t)[0] == s[0] && ([s[0]] + t)[1..] == t;
      } else {
        assert Filter(q, s) == t;
      }
    }
  }

  /** Two filter chains that keep the same elements give the same result. */
  lemma {:induction false} FilterTwiceCongruent<T(!new)>(p: T -> bool, q: T -> bool, p2: T -> bool, q2: T -> bool, s: seq<T>)
    requires forall x :: x in s ==> (p(x) && q(x)) == (p2(x) && q2(x))
    ensures Filter(p, Filter(q, s)) == Filter(p2, Filter(q2, s))
    decreases |s|
  {
    if s != [] {
      FilterTwiceCongruent(p, q, p2, q2, s[1..]);
      var h, h2 := if q(s[0]) then [s[0]] else [], if q2(s[0]) then [s[0]] else [];
      FilterConcat(p, h, Filter(q, s[1..]));
      FilterConcat(p2, h2, Filter(q2, s[1..]));
      assert [s[0]][1..] == [];
    }
  }

  /** Filtering twice by the same predicate changes nothing the second time. */
  lemma FilterIdempotent<T(!new)>(p: T -> bool, s: seq<T>)
    ensures Filter(p, Filter(p, s)) == Filter(p, s)
  {
    FilterAllPass(p, Filter(p, s));
  }

  /**
   * Mapping then filtering equals filtering then mapping, when the map does not
   * change which elements pass and agrees with `g` on those that do.
   */
  lemma {:induction false} FilterMap<T(!new)>(p: T -> bool, f: T -> T, g: T -> T, s: seq<T>)
    requires forall x :: x in s ==> p(f(x)) == p(x)
    requires forall x :: x in s && p(x) ==> f(x) == g(x)
    ensures Filter(p, Map(f, s)) == Map(g, Filter(p, s))
    decreases |s|
  {
    if s != [] {
      FilterMap(p, f, g, s[1..]);
      assert Map(f, s)[1..] == Map(f, s[1..]);
      var t := Filter(p, s[1..]);
      if p(s[0]) {
        assert Map(g, [s[0]] + t) == [g(s[0])] + Map(g, t);
      }
    }
  }

  /** Two functions that agree on the elements map alike. */
  lemma MapCongruent<T, U>(f: T -> U, g: T -> U, s: seq<T>)
    requires forall i :: 0 <= i < |s| ==> f(s[i]) == g(s[i])
    ensures Map(f, s) == Map(g, s)
  {
  }

  /** `r` is `s` with some elements left out, the rest in their original order. */
  predicate Subsequence<T(==)>(r: seq<T>, s: seq<T>)
    decreases |s|
  {
    r == [] || (s != [] && ((r[0] == s[0] && Subsequence(r[1..], s[1..])) || Subsequence(r, s[1..])))
  }

  lemma {:induction false} SubsequenceOfItself<T>(s: seq<T>)
    ensures Subsequence(s, s)
    decreases |s|
  {
    if s != [] {
      SubsequenceOfItself(s[1..]);
    }
  }

  lemma {:induction false} FilterSubsequence<T(!new)>(p: T -> bool, s: seq<T>)
    ensures Subsequence(Filter(p, s), s)
    decreases |s|
  {
    if s != [] {
      FilterSubsequence(p, s[1..]);
      var t := Filter(p, s[1..]);
      if p(s[0]) {
        assert Filter(p, s) == [s[0]] + t;
        assert ([s[0]] + t)[0] == s[0] && ([s[0]] + t)[1..] == t;
      } else {
        assert Filter(p, s) == t;
      }
    }
  }

  /**
   * Splitting the survivors of `p` by `q`: when `pos` keeps those that pass
   * `q` and `neg` those that fail it, the two results together hold every
   * survivor of `p` as often as before.
   */
  lemma FilterPartition<T(!new)>(p: T -> bool, q: T -> bool, pos: T -> bool, neg: T -> bool, s: seq<T>)
    requires forall x :: x in s ==> pos(x) == (p(x) && q(x)) && neg(x) == (p(x) && !q(x))
    ensures multiset(Filter(pos, s)) + multiset(Filter(neg, s)) == multiset(Filter(p, s))
  {
    FilterMultiset(pos, s);
    FilterMultiset(neg, s);
    FilterMultiset(p, s);
    forall x ensures (multiset(Filter(pos, s)) + multiset(Filter(neg, s)))[x] == multiset(Filter(p, s))[x] {
      if x in s {
      } else {
        assert multiset(s)[x] == 0;
      }
    }
  }
}
