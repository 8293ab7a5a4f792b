/**
 * Generic sequence operations the pages are built from: `reduce` (Sum),
 * `filter` (Filter), `map` (Map) and `[...new Set(xs)]` (Distinct), each
 * defined once, together with the facts about them the other modules use.
 *
 * Sum, Filter and Distinct are defined by peeling off the LAST element, so
 * that they follow the left-to-right accumulation of the JavaScript
 * originals: the value for `s + [x]` is the value for `s` extended by `x`.
 */
module Seqs {

  /** The sum of `f` over `s`, as `s.reduce((acc, x) => acc + f(x), 0)`. */
  function Sum<T>(s: seq<T>, f: T -> int): int
  {
    if |s| == 0 then 0 else Sum(s[..|s| - 1], f) + f(s[|s| - 1])
  }

  lemma {:induction false} SumAppend<T>(a: seq<T>, b: seq<T>, f: T -> int)
    ensures Sum(a + b, f) == Sum(a, f) + Sum(b, f)
    decreases |b|
  {
    if |b| == 0 {
      assert a + b == a;
    } else {
      var b' := b[..|b| - 1];
      assert (a + b)[..|a + b| - 1] == a + b';
      SumAppend(a, b', f);
    }
  }

  /** A sum of non-negative terms is non-negative. */
  lemma {:induction false} SumNonNegative<T>(s: seq<T>, f: T -> int)
    ensures (forall k :: 0 <= k < |s| ==> f(s[k]) >= 0) ==> Sum(s, f) >= 0
  {
    if |s| > 0 {
      SumNonNegative(s[..|s| - 1], f);
    }
  }

  /** A sum does not depend on the order of its terms. */
  lemma {:induction false} SumPermutation<T>(a: seq<T>, b: seq<T>, f: T -> int)
    requires multiset(a) == multiset(b)
    ensures Sum(a, f) == Sum(b, f)
    decreases |a|
  {
    if |a| == 0 {
      assert |b| == |multiset(b)| == 0;
    } else {
      var x := a[|a| - 1];
      var a' := a[..|a| - 1];
      assert x in multiset(b) && multiset(a') == multiset(b) - multiset{x} by {
        assert a == a' + [x];
      }
      var k :| 0 <= k < |b| && b[k] == x;
      var b' := b[..k] + b[k + 1..];
      assert multiset(b') == multiset(a') by {
        RemoveAtMultiset(b, k);
      }
      SumPermutation(a', b', f);
      SumRemoveAt(b, k, f);
    }
  }

  lemma SumRemoveAt<T>(b: seq<T>, k: nat, f: T -> int)
    requires k < |b|
    ensures Sum(b, f) == Sum(b[..k] + b[k + 1..], f) + f(b[k])
  {
    assert b == b[..k] + [b[k]] + b[k + 1..];
    SumAppend(b[..k], [b[k]], f);
    SumAppend(b[..k] + [b[k]], b[k + 1..], f);
    SumAppend(b[..k], b[k + 1..], f);
  }

  /** The elements of `s` that satisfy `p`, in their original order. */
  function Filter<T>(s: seq<T>, p: T -> bool): (r: seq<T>)
    ensures |r| <= |s|
    ensures forall k :: 0 <= k < |r| ==> p(r[k])
  {
    if |s| == 0 then []
    else
      var r := Filter(s[..|s| - 1], p);
      if p(s[|s| - 1]) then r + [s[|s| - 1]] else r
  }

  /** Exactly the elements of `s` that satisfy `p` occur in the filtered sequence. */
  lemma {:induction false} FilterMembers<T>(s: seq<T>, p: T -> bool)
    ensures forall x :: x in Filter(s, p) <==> x in s && p(x)
  {
    if |s| > 0 {
      FilterMembers(s[..|s| - 1], p);
      assert s == s[..|s| - 1] + [s[|s| - 1]];
    }
  }

  lemma {:induction false} FilterAppend<T>(a: seq<T>, b: seq<T>, p: T -> bool)
    ensures Filter(a + b, p) == Filter(a, p) + Filter(b, p)
    decreases |b|
  {
    if |b| == 0 {
      assert a + b == a;
    } else {
      var b' := b[..|b| - 1];
      assert (a + b)[..|a + b| - 1] == a + b';
      FilterAppend(a, b', p);
    }
  }

  /** Filtering by a predicate every element satisfies changes nothing. */
  lemma {:induction false} FilterKeepsAll<T>(s: seq<T>, p: T -> bool)
    requires forall k :: 0 <= k < |s| ==> p(s[k])
    ensures Filter(s, p) == s
  {
    if |s| > 0 {
      FilterKeepsAll(s[..|s| - 1], p);
      assert s == s[..|s| - 1] + [s[|s| - 1]];
    }
  }

  /** Filtering by a predicate no element satisfies leaves nothing. */
  lemma {:induction false} FilterKeepsNone<T>(s: seq<T>, p: T -> bool)
    requires forall k :: 0 <= k < |s| ==> !p(s[k])
    ensures Filter(s, p) == []
  {
    if |s| > 0 {
      FilterKeepsNone(s[..|s| - 1], p);
    }
  }

  /** Each element satisfying `p` keeps all of its occurrences; every other element loses all of them. */
  lemma {:induction false} FilterMultiplicity<T>(s: seq<T>, p: T -> bool)
    ensures forall x :: multiset(Filter(s, p))[x] == if p(x) then multiset(s)[x] else 0
  {
    if |s| > 0 {
      var s' := s[..|s| - 1];
      FilterMultiplicity(s', p);
      assert s == s' + [s[|s| - 1]];
    }
  }

  /** `a` is obtained from `b` by deleting elements, keeping the order of the rest.
      Matching the last elements whenever they are equal loses no solution. */
  predicate IsSubseq<T(==)>(a: seq<T>, b: seq<T>)
    decreases |b|
  {
    if |a| == 0 then true
    else if |b| == 0 then false
    else if a[|a| - 1] == b[|b| - 1] then IsSubseq(a[..|a| - 1], b[..|b| - 1])
    else IsSubseq(a, b[..|b| - 1])
  }

  lemma {:induction false} FilterIsSubseq<T>(s: seq<T>, p: T -> bool)
    ensures IsSubseq(Filter(s, p), s)
  {
    if |s| > 0 {
      var s' := s[..|s| - 1];
      var y := s[|s| - 1];
      var r' := Filter(s', p);
      FilterIsSubseq(s', p);
      if p(y) {
        assert (r' + [y])[..|r'|] == r';
      } else if |r'| > 0 {
        assert r'[|r'| - 1] in r';
      }
    }
  }

  /** `f` applied to every element, as `s.map(f)`. */
  function Map<A, B>(s: seq<A>, f: A -> B): (r: seq<B>)
    ensures |r| == |s|
    ensures forall k :: 0 <= k < |s| ==> r[k] == f(s[k])
  {
    seq(|s|, k requires 0 <= k < |s| => f(s[k]))
  }

  predicate NoDup<T(==)>(s: seq<T>)
  {
    forall i, j :: 0 <= i < j < |s| ==> s[i] != s[j]
  }

  /** `[...new Set(s)]`: each element once, at the place of its first occurrence. */
  function Distinct<T(==)>(s: seq<T>): (r: seq<T>)
    ensures NoDup(r)
  {
    if |s| == 0 then []
    else
      var d := Distinct(s[..|s| - 1]);
      if s[|s| - 1] in d then d else d + [s[|s| - 1]]
  }

  /** Distinct drops repetitions only: it has the same elements as `s`. */
  lemma {:induction false} DistinctMembers<T>(s: seq<T>)
    ensures forall x :: x in Distinct(s) <==> x in s
  {
    if |s| > 0 {
      DistinctMembers(s[..|s| - 1]);
      assert s == s[..|s| - 1] + [s[|s| - 1]];
    }
  }

  lemma DistinctSnoc<T>(s: seq<T>, x: T)
    ensures Distinct(s + [x]) == if x in Distinct(s) then Distinct(s) else Distinct(s) + [x]
  {
    assert (s + [x])[..|s|] == s;
  }

  /** A sequence holding one value, however often, has that value as its only distinct element. */
  lemma {:induction false} DistinctOfConstant<T>(s: seq<T>, x: T)
    requires forall k :: 0 <= k < |s| ==> s[k] == x
    ensures Distinct(s) == if |s| == 0 then [] else [x]
  {
    if |s| > 0 {
      DistinctOfConstant(s[..|s| - 1], x);
    }
  }

  /** A sequence without repetitions holds each of its elements exactly once. */
  lemma {:induction false} NoDupMultiplicity<T>(s: seq<T>)
    requires NoDup(s)
    ensures forall x :: multiset(s)[x] == if x in s then 1 else 0
  {
    if |s| > 0 {
      var s' := s[..|s| - 1];
      var y := s[|s| - 1];
      assert s == s' + [y];
      assert forall i :: 0 <= i < |s'| ==> s'[i] == s[i] && s'[i] != y;
      NoDupMultiplicity(s');
    }
  }

  /** Two sequences without repetitions and with the same elements are
      permutations of each other. */
  lemma SameElementsPermutation<T>(a: seq<T>, b: seq<T>)
    requires NoDup(a) && NoDup(b)
    requires forall x :: x in a <==> x in b
    ensures multiset(a) == multiset(b)
  {
    NoDupMultiplicity(a);
    NoDupMultiplicity(b);
    assert forall x :: multiset(a)[x] == multiset(b)[x];
  }

  /** Removing the element at `k` removes one occurrence of it. */
  lemma RemoveAtMultiset<T>(b: seq<T>, k: nat)
    requires k < |b|
    ensures multiset(b[..k] + b[k + 1..]) == multiset(b) - multiset{b[k]}
  {
    assert b == b[..k] + [b[k]] + b[k + 1..];
    assert multiset(b) == multiset(b[..k]) + multiset{b[k]} + multiset(b[k + 1..]);
  }

  lemma MapRemoveAt<A, B>(b: seq<A>, k: nat, f: A -> B)
    requires k < |b|
    ensures multiset(Map(b, f)) == multiset(Map(b[..k] + b[k + 1..], f)) + multiset{f(b[k])}
  {
    assert Map(b, f) == Map(b[..k], f) + [f(b[k])] + Map(b[k + 1..], f);
    assert Map(b[..k] + b[k + 1..], f) == Map(b[..k], f) + Map(b[k + 1..], f);
  }

  lemma AppendAssociates<T>(p: seq<T>, q: seq<T>, c: seq<T>)
    ensures (p + q) + c == p + (q + c)
  {
  }

  /** Mapping a permutation gives a permutation. */
  lemma {:induction false} MapPermutation<A, B>(a: seq<A>, b: seq<A>, f: A -> B)
    requires multiset(a) == multiset(b)
    ensures multiset(Map(a, f)) == multiset(Map(b, f))
    decreases |a|
  {
    if |a| == 0 {
      assert |b| == |multiset(b)| == 0;
    } else {
      var x := a[|a| - 1];
      var a' := a[..|a| - 1];
      assert x in multiset(b) && multiset(a') == multiset(b) - multiset{x} by {
        assert a == a' + [x];
      }
      var k :| 0 <= k < |b| && b[k] == x;
      var b' := b[..k] + b[k + 1..];
      assert multiset(b') == multiset(a') by {
        RemoveAtMultiset(b, k);
      }
      MapPermutation(a', b', f);
      assert multiset(Map(a, f)) == multiset(Map(a', f)) + multiset{f(x)} by {
        assert Map(a, f) == Map(a', f) + [f(x)];
      }
      MapRemoveAt(b, k, f);
    }
  }

  /** The position of the first occurrence of `x` in `s`. */
  function FirstIndex<T(==)>(s: seq<T>, x: T): (k: nat)
    requires x in s
    ensures k < |s| && s[k] == x
    ensures forall i :: 0 <= i < k ==> s[i] != x
  {
    if s[0] == x then 0 else 1 + FirstIndex(s[1..], x)
  }

  /** An element of `a` has its first occurrence in `a + b` inside `a`. */
  lemma FirstIndexInPrefix<T>(a: seq<T>, b: seq<T>, x: T)
    requires x in a
    ensures FirstIndex(a + b, x) == FirstIndex(a, x)
  {
    var k := FirstIndex(a, x);
    assert (a + b)[k] == x;
  }

  /** The elements of `d` occur in `s`, and their first occurrences there come in the order of `d`. */
  ghost predicate InFirstOccurrenceOrder<T>(d: seq<T>, s: seq<T>)
  {
    forall i, j :: 0 <= i < j < |d| ==> d[i] in s && d[j] in s && FirstIndex(s, d[i]) < FirstIndex(s, d[j])
  }

  lemma DistinctOrderSnoc<T>(a: seq<T>, y: T)
    requires InFirstOccurrenceOrder(Distinct(a), a)
    ensures InFirstOccurrenceOrder(Distinct(a + [y]), a + [y])
  {
    var d' := Distinct(a);
    var d := Distinct(a + [y]);
    var s := a + [y];
    DistinctSnoc(a, y);
    DistinctMembers(a);
    forall i, j | 0 <= i < j < |d|
      ensures d[i] in s && d[j] in s && FirstIndex(s, d[i]) < FirstIndex(s, d[j])
    {
      assert d[i] == d'[i] && d'[i] in d';
      FirstIndexInPrefix(a, [y], d[i]);
      if j < |d'| {
        assert d[j] == d'[j] && d'[j] in d';
        FirstIndexInPrefix(a, [y], d[j]);
      } else {
        assert d[j] == y && y !in a;
        assert s[|a|] == y;
        assert forall i :: 0 <= i < |a| ==> s[i] != y;
      }
    }
  }

  /** Distinct lists the elements of `s` in the order of their first occurrences. */
  lemma {:induction false} DistinctKeepsFirstOccurrenceOrder<T>(s: seq<T>)
    ensures InFirstOccurrenceOrder(Distinct(s), s)
  {
    if |s| > 0 {
      var a := s[..|s| - 1];
      DistinctKeepsFirstOccurrenceOrder(a);
      DistinctOrderSnoc(a, s[|s| - 1]);
      assert s == a + [s[|s| - 1]];
    }
  }
}
