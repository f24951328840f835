/** The list operations the pages apply to their record arrays:
    `Array.prototype.filter`, `filter(...).length`, `reduce` with `+`,
    and `slice(0, k)` with a "+n" overflow badge. */
module Seqs {

  /** `s.filter(p)`: the elements of `s` that satisfy `p`, in their order. */
  function Filter<T>(s: seq<T>, p: T -> bool): (r: seq<T>)
    ensures |r| <= |s|
    ensures forall k :: 0 <= k < |r| ==> p(r[k])
    decreases |s|
  {
    if s == [] then []
    else Filter(s[..|s| - 1], p) + (if p(s[|s| - 1]) then [s[|s| - 1]] else [])
  }

  /** The positions of `s` whose elements satisfy `p`, in increasing order. */
  function KeptIndices<T>(s: seq<T>, p: T -> bool): seq<nat>
    decreases |s|
  {
    if s == [] then []
    else KeptIndices(s[..|s| - 1], p) + (if p(s[|s| - 1]) then [|s| - 1] else [])
  }

  /** `idx` lists strictly increasing positions of `s` at which the elements
      of `r` stand, one position per element. */
  ghost predicate Embeds<T>(r: seq<T>, s: seq<T>, idx: seq<nat>) {
    && |idx| == |r|
    && (forall k :: 0 <= k < |idx| ==> idx[k] < |s| && r[k] == s[idx[k]])
    && (forall k, l :: 0 <= k < l < |idx| ==> idx[k] < idx[l])
  }

  /** `r` is `s` with some elements dropped and the rest kept in order. */
  ghost predicate IsSubsequence<T>(r: seq<T>, s: seq<T>) {
    exists idx :: Embeds(r, s, idx)
  }

  /** The positions of `s` whose elements satisfy `p`, as a set. */
  ghost function Positions<T>(s: seq<T>, p: T -> bool): set<int> {
    set i | 0 <= i < |s| && p(s[i])
  }

  /** The filter keeps exactly the positions whose elements satisfy `p`, in
      their original order. */
  lemma {:induction false} FilterEmbeds<T>(s: seq<T>, p: T -> bool)
    ensures Embeds(Filter(s, p), s, KeptIndices(s, p))
    ensures forall i :: i in KeptIndices(s, p) <==> 0 <= i < |s| && p(s[i])
    decreases |s|
  {
    if s != [] {
      var n := |s| - 1;
      FilterEmbeds(s[..n], p);
      var front, idx := Filter(s[..n], p), KeptIndices(s[..n], p);
      assert forall k :: 0 <= k < |idx| ==> s[..n][idx[k]] == s[idx[k]];
      forall i | 0 <= i < n
        ensures p(s[..n][i]) == p(s[i])
      {
      }
    }
  }

  /** The filter result is an order-preserving subsequence of its input. */
  lemma FilterIsSubsequence<T>(s: seq<T>, p: T -> bool)
    ensures IsSubsequence(Filter(s, p), s)
  {
    FilterEmbeds(s, p);
  }

  /** An element is in the filter result exactly when it is in the input and
      satisfies `p`. */
  lemma FilterMembership<T>(s: seq<T>, p: T -> bool)
    ensures forall x :: x in Filter(s, p) <==> x in s && p(x)
  {
    FilterEmbeds(s, p);
    var r, idx := Filter(s, p), KeptIndices(s, p);
    forall x | x in s && p(x)
      ensures x in r
    {
      var i :| 0 <= i < |s| && s[i] == x;
      assert i in idx;
      var k :| 0 <= k < |idx| && idx[k] == i;
      assert r[k] == x;
    }
    forall x | x in r
      ensures x in s
    {
      var k :| 0 <= k < |r| && r[k] == x;
      assert s[idx[k]] == x;
    }
  }

  /** A predicate that holds of every element keeps the whole sequence. */
  lemma {:induction false} FilterKeepsAll<T>(s: seq<T>, p: T -> bool)
    requires forall k :: 0 <= k < |s| ==> p(s[k])
    ensures Filter(s, p) == s
    decreases |s|
  {
    if s != [] {
      FilterKeepsAll(s[..|s| - 1], p);
      assert s[..|s| - 1] + [s[|s| - 1]] == s;
    }
  }

  /** The filter of a four-element sequence, spelled out. */
  lemma FilterOfFour<T>(s: seq<T>, p: T -> bool)
    requires |s| == 4
    ensures Filter(s, p) == (if p(s[0]) then [s[0]] else []) + (if p(s[1]) then [s[1]] else [])
                          + (if p(s[2]) then [s[2]] else []) + (if p(s[3]) then [s[3]] else [])
  {
    assert s[..3][..2] == s[..2] && s[..2][..1] == s[..1] && s[..1][..0] == [];
    assert s[..3][2] == s[2] && s[..2][1] == s[1] && s[..1][0] == s[0];
    assert Filter(s[..1], p) == (if p(s[0]) then [s[0]] else []);
    assert Filter(s[..2], p) == Filter(s[..1], p) + (if p(s[1]) then [s[1]] else []);
    assert Filter(s[..3], p) == Filter(s[..2], p) + (if p(s[2]) then [s[2]] else []);
    assert Filter(s, p) == Filter(s[..3], p) + (if p(s[3]) then [s[3]] else []);
  }

  /** Filters with predicates that agree on every element keep the same
      elements. */
  lemma {:induction false} FilterCongruent<T>(s: seq<T>, p: T -> bool, q: T -> bool)
    requires forall k :: 0 <= k < |s| ==> p(s[k]) == q(s[k])
    ensures Filter(s, p) == Filter(s, q)
    decreases |s|
  {
    if s != [] {
      FilterCongruent(s[..|s| - 1], p, q);
    }
  }

  /** `filter(p).length` counts the positions whose elements satisfy `p`. */
  lemma {:induction false} FilterCount<T>(s: seq<T>, p: T -> bool)
    ensures |Filter(s, p)| == |Positions(s, p)|
    decreases |s|
  {
    if s != [] {
      var n := |s| - 1;
      FilterCount(s[..n], p);
      var front := Positions(s[..n], p);
      assert Positions(s, p) == front + (if p(s[n]) then {n} else {});
    }
  }

  /** Filtering with two predicates that never hold together keeps as many
      elements as filtering with their disjunction `pq`. */
  lemma {:induction false} FilterDisjointUnion<T>(s: seq<T>, p: T -> bool, q: T -> bool, pq: T -> bool)
    requires forall x :: !(p(x) && q(x))
    requires forall x :: pq(x) == (p(x) || q(x))
    ensures |Filter(s, p)| + |Filter(s, q)| == |Filter(s, pq)|
    decreases |s|
  {
    if s != [] {
      FilterDisjointUnion(s[..|s| - 1], p, q, pq);
    }
  }

  /** Filtering with `p` and with its negation `notP` splits the sequence. */
  lemma {:induction false} FilterPartition<T>(s: seq<T>, p: T -> bool, notP: T -> bool)
    requires forall x :: notP(x) == !p(x)
    ensures |Filter(s, p)| + |Filter(s, notP)| == |s|
    decreases |s|
  {
    if s != [] {
      FilterPartition(s[..|s| - 1], p, notP);
    }
  }

  /** `s.reduce((sum, x) => sum + f(x), 0)`: a left fold from zero. */
  function Sum<T>(s: seq<T>, f: T -> int): int
    decreases |s|
  {
    if s == [] then 0 else Sum(s[..|s| - 1], f) + f(s[|s| - 1])
  }

  /** The sum over all elements is the sum over those that satisfy `p` plus
      the sum over those that do not: the total does not depend on a filter. */
  lemma {:induction false} SumPartition<T>(s: seq<T>, f: T -> int, p: T -> bool, notP: T -> bool)
    requires forall x :: notP(x) == !p(x)
    ensures Sum(s, f) == Sum(Filter(s, p), f) + Sum(Filter(s, notP), f)
    decreases |s|
  {
    if s != [] {
      var n := |s| - 1;
      SumPartition(s[..n], f, p, notP);
      SumAppend(Filter(s[..n], p), if p(s[n]) then [s[n]] else [], f);
      SumAppend(Filter(s[..n], notP), if notP(s[n]) then [s[n]] else [], f);
    }
  }

  /** A sum of non-negative terms is non-negative. */
  lemma {:induction false} SumNonNegative<T>(s: seq<T>, f: T -> int)
    requires forall k :: 0 <= k < |s| ==> f(s[k]) >= 0
    ensures Sum(s, f) >= 0
    decreases |s|
  {
    if s != [] {
      SumNonNegative(s[..|s| - 1], f);
    }
  }

  /** The sum of a concatenation is the sum of the parts. */
  lemma {:induction false} SumAppend<T>(a: seq<T>, b: seq<T>, f: T -> int)
    ensures Sum(a + b, f) == Sum(a, f) + Sum(b, f)
    decreases |b|
  {
    if b != [] {
      var n := |b| - 1;
      assert (a + b)[..|a + b| - 1] == a + b[..n];
      assert (a + b)[|a + b| - 1] == b[n];
      SumAppend(a, b[..n], f);
    } else {
      assert a + b == a;
    }
  }

  /** What a card shows of a list: the first `limit` items and, when more
      exist, a badge counting the rest (`hidden` is 0 when there is none). */
  datatype Preview<T> = Preview(shown: seq<T>, hidden: nat)

  /** `s.slice(0, limit)` plus `s.length > limit && s.length - limit`. */
  function PreviewOf<T>(s: seq<T>, limit: nat): (r: Preview<T>)
    ensures |r.shown| <= limit
    ensures |r.shown| + r.hidden == |s|
    ensures r.shown == s[..|r.shown|]
    ensures r.hidden > 0 <==> |s| > limit
    ensures r.hidden > 0 ==> |r.shown| == limit
  {
    if |s| > limit then Preview(s[..limit], |s| - limit) else Preview(s, 0)
  }
}
