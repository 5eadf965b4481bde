/**
 * The list operations the pages build their views from: `Array.prototype.filter`,
 * `Array.prototype.map` and the `filter(...).length` counts.
 */
module Seqs {

  /** The elements of `s` that satisfy `p`, in their original order. */
  function Filter<T(==)>(s: seq<T>, p: T -> bool): (r: seq<T>)
    ensures |r| <= |s|
    ensures forall x :: x in r ==> x in s && p(x)
    ensures forall x :: x in s && p(x) ==> x in r
  {
    if s == [] then []
    else (if p(s[0]) then [s[0]] else []) + Filter(s[1..], p)
  }

  /** Filtering only drops elements: the result is a sub-multiset of the input. */
  lemma {:induction false} FilterSubMultiset<T>(s: seq<T>, p: T -> bool)
    ensures multiset(Filter(s, p)) <= multiset(s)
  {
    if s != [] {
      FilterSubMultiset(s[1..], p);
      assert s == [s[0]] + s[1..];
    }
  }

  /** `g` applied to every element of `s`, position by position. */
  function Map<A, B>(s: seq<A>, g: A -> B): (r: seq<B>)
    ensures |r| == |s|
    ensures forall i :: 0 <= i < |s| ==> r[i] == g(s[i])
  {
    if s == [] then [] else [g(s[0])] + Map(s[1..], g)
  }

  /**
   * Two predicates that never hold together, both implying `r`: the elements each one
   * keeps add up to at most the elements `r` keeps.
   */
  lemma {:induction false} FilterDisjoint<T>(s: seq<T>, p: T -> bool, q: T -> bool, r: T -> bool)
    requires forall x :: !(p(x) && q(x))
    requires forall x :: p(x) || q(x) ==> r(x)
    ensures |Filter(s, p)| + |Filter(s, q)| <= |Filter(s, r)|
  {
    if s != [] {
      FilterDisjoint(s[1..], p, q, r);
    }
  }

  /** A sequence whose every element passes the filter comes through unchanged. */
  lemma {:induction false} FilterKeepsAll<T>(s: seq<T>, p: T -> bool)
    requires forall i :: 0 <= i < |s| ==> p(s[i])
    ensures Filter(s, p) == s
  {
    if s != [] {
      FilterKeepsAll(s[1..], p);
    }
  }

  /** Filtering by a predicate no element meets leaves nothing. */
  lemma {:induction false} FilterKeepsNone<T>(s: seq<T>, p: T -> bool)
    requires forall i :: 0 <= i < |s| ==> !p(s[i])
    ensures Filter(s, p) == []
  {
    if s != [] {
      FilterKeepsNone(s[1..], p);
    }
  }

  /** Filtering distributes over concatenation. */
  lemma {:induction false} FilterAppend<T>(a: seq<T>, b: seq<T>, p: T -> bool)
    ensures Filter(a + b, p) == Filter(a, p) + Filter(b, p)
  {
    if a == [] {
      assert a + b == b;
    } else {
      assert (a + b)[1..] == a[1..] + b;
      FilterAppend(a[1..], b, p);
    }
  }

  /** Mapping distributes over concatenation. */
  lemma MapAppend<A, B>(a: seq<A>, b: seq<A>, g: A -> B)
    ensures Map(a + b, g) == Map(a, g) + Map(b, g)
  {
  }
}
