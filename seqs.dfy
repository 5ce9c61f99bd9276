/**
 * `Array.prototype.filter` and the `filter(...).length` counts built on it.
 */
module Seqs {

  /** `s.filter(p)`: the elements of `s` that satisfy `p`, in their original order. */
  function Filter<T(!new)>(s: seq<T>, p: T -> bool): (r: seq<T>)
    ensures |r| <= |s|
    ensures forall i :: 0 <= i < |r| ==> p(r[i])
  {
    if s == [] then []
    else
      var rest := Filter(s[1..], p);
      if p(s[0]) then [s[0]] + rest else rest
  }

  /** `filter` keeps each element that passes, as often as it occurs, and drops the rest. */
  lemma {:induction false} FilterMultiset<T(!new)>(s: seq<T>, p: T -> bool)
    ensures forall x :: multiset(Filter(s, p))[x] == if p(x) then multiset(s)[x] else 0
  {
    if s != [] {
      FilterMultiset(s[1..], p);
      assert s == [s[0]] + s[1..];
    }
  }

  /** Concatenation is associative. */
  lemma ConcatAssoc<T>(a: seq<T>, b: seq<T>, c: seq<T>)
    ensures a + (b + c) == (a + b) + c
  {
  }

  /** A non-empty sequence, alone and followed by `b`, split at its head. */
  lemma SplitHead<T>(a: seq<T>, b: seq<T>)
    requires a != []
    ensures a == [a[0]] + a[1..] && a + b == [a[0]] + (a[1..] + b)
  {
  }

  /** Filtering a list with a head: the head, if it passes, then the filtered tail. */
  lemma FilterCons<T(!new)>(x: T, s: seq<T>, p: T -> bool)
    ensures Filter([x] + s, p) == (if p(x) then [x] else []) + Filter(s, p)
  {
    assert ([x] + s)[1..] == s;
  }

  /**
   * `filter` keeps order: filtering a concatenation filters each part in place.
   * With `Filter([x], p)` being `[x]` or `[]`, this fixes the result completely.
   */
  lemma {:induction false} FilterAppend<T(!new)>(a: seq<T>, b: seq<T>, p: T -> bool)
    ensures Filter(a + b, p) == Filter(a, p) + Filter(b, p)
  {
    if a != [] {
      var x, t := a[0], a[1..];
      SplitHead(a, b);
      var head := if p(x) then [x] else [];
      FilterAppend(t, b, p);
      FilterCons(x, t + b, p);
      FilterCons(x, t, p);
      calc {
        Filter(a + b, p);
        head + Filter(t + b, p);
        head + (Filter(t, p) + Filter(b, p));
        { ConcatAssoc(head, Filter(t, p), Filter(b, p)); }
        Filter(a, p) + Filter(b, p);
      }
    } else {
      assert a + b == b;
    }
  }

  /** A filter every element passes returns the sequence itself, order included. */
  lemma {:induction false} FilterKeepsAll<T(!new)>(s: seq<T>, p: T -> bool)
    requires forall i :: 0 <= i < |s| ==> p(s[i])
    ensures Filter(s, p) == s
  {
    if s != [] {
      FilterKeepsAll(s[1..], p);
    }
  }

  /** Two predicates that agree on every value filter alike. */
  lemma {:induction false} FilterSame<T(!new)>(s: seq<T>, p: T -> bool, q: T -> bool)
    requires forall x :: p(x) == q(x)
    ensures Filter(s, p) == Filter(s, q)
  {
    if s != [] {
      FilterSame(s[1..], p, q);
    }
  }

  /** Filtering in two stages is filtering once by the conjunction, in the same order. */
  lemma {:induction false} FilterTwice<T(!new)>(s: seq<T>, p: T -> bool, q: T -> bool, u: T -> bool)
    requires forall x :: u(x) == (p(x) && q(x))
    ensures Filter(Filter(s, p), q) == Filter(s, u)
  {
    if s != [] {
      FilterTwice(s[1..], p, q, u);
      if p(s[0]) {
        assert Filter(s, p) == [s[0]] + Filter(s[1..], p);
        assert Filter(s, p)[1..] == Filter(s[1..], p);
      }
    }
  }

  /**
   * Swapping two neighbours that the predicate does not both keep leaves the
   * filtered sequence unchanged.
   */
  lemma FilterSwap<T(!new)>(a: seq<T>, x: T, y: T, b: seq<T>, p: T -> bool)
    requires !(p(x) && p(y))
    ensures Filter(a + [x, y] + b, p) == Filter(a + [y, x] + b, p)
  {
    FilterAppend(a + [x, y], b, p);
    FilterAppend(a, [x, y], p);
    FilterAppend(a + [y, x], b, p);
    FilterAppend(a, [y, x], p);
    FilterAppend([x], [y], p);
    FilterAppend([y], [x], p);
  }

  /** `s.filter(p).length`. */
  function Count<T(!new)>(s: seq<T>, p: T -> bool): nat {
    |Filter(s, p)|
  }

  /** What `p` keeps and what it drops add up to the whole sequence. */
  lemma CountComplement<T(!new)>(s: seq<T>, p: T -> bool, q: T -> bool)
    requires forall x :: q(x) <==> !p(x)
    ensures Count(s, p) + Count(s, q) == |s|
  {
    FilterMultiset(s, p);
    FilterMultiset(s, q);
    var a, b := Filter(s, p), Filter(s, q);
    assert multiset(a) + multiset(b) == multiset(s);
    assert |multiset(a) + multiset(b)| == |multiset(a)| + |multiset(b)|;
  }

  /** A weaker filter keeps at least as much. */
  lemma CountMonotone<T(!new)>(s: seq<T>, p: T -> bool, q: T -> bool)
    requires forall x :: p(x) ==> q(x)
    ensures Count(s, p) <= Count(s, q)
  {
    FilterMultiset(s, p);
    FilterMultiset(s, q);
    var a, b := Filter(s, p), Filter(s, q);
    assert multiset(a) <= multiset(b);
    assert multiset(b) == multiset(a) + (multiset(b) - multiset(a));
    assert |multiset(b)| == |multiset(a)| + |multiset(b) - multiset(a)|;
  }

  /** Two mutually exclusive filters keep together exactly what their disjunction keeps. */
  lemma CountDisjointUnion<T(!new)>(s: seq<T>, p: T -> bool, q: T -> bool, u: T -> bool)
    requires forall x :: !(p(x) && q(x))
    requires forall x :: u(x) <==> p(x) || q(x)
    ensures Count(s, p) + Count(s, q) == Count(s, u)
  {
    FilterMultiset(s, p);
    FilterMultiset(s, q);
    FilterMultiset(s, u);
    var a, b := Filter(s, p), Filter(s, q);
    assert multiset(a) + multiset(b) == multiset(Filter(s, u));
    assert |multiset(a) + multiset(b)| == |multiset(a)| + |multiset(b)|;
  }

  /** A filter that every element passes keeps everything. */
  lemma CountAll<T(!new)>(s: seq<T>, p: T -> bool)
    requires forall x :: x in s ==> p(x)
    ensures Count(s, p) == |s|
  {
    FilterMultiset(s, p);
    assert multiset(Filter(s, p)) == multiset(s);
  }

  /** Three mutually exclusive filters together keep no more than the whole sequence. */
  lemma CountDisjoint3<T(!new)>(s: seq<T>, p: T -> bool, q: T -> bool, r: T -> bool)
    requires forall x :: !(p(x) && q(x)) && !(p(x) && r(x)) && !(q(x) && r(x))
    ensures Count(s, p) + Count(s, q) + Count(s, r) <= |s|
  {
    var pq := x => p(x) || q(x);
    CountDisjointUnion(s, p, q, pq);
    CountDisjointUnion(s, pq, r, x => pq(x) || r(x));
  }

  /** Three mutually exclusive filters that together cover the sequence count all of it. */
  lemma CountPartition3<T(!new)>(s: seq<T>, p: T -> bool, q: T -> bool, r: T -> bool)
    requires forall x :: !(p(x) && q(x)) && !(p(x) && r(x)) && !(q(x) && r(x))
    requires forall x :: x in s ==> p(x) || q(x) || r(x)
    ensures Count(s, p) + Count(s, q) + Count(s, r) == |s|
  {
    var pq := x => p(x) || q(x);
    var pqr := x => pq(x) || r(x);
    CountDisjointUnion(s, p, q, pq);
    CountDisjointUnion(s, pq, r, pqr);
    CountAll(s, pqr);
  }
}
