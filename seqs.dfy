/**
 * Order-preserving selection and counting over sequences: the model of JavaScript's
 * array filter and of the counts of filtered lists that every page uses.
 */
module Seqs {

  /** The elements of `s` satisfying `f`, in their original order. */
  function Filter<T>(s: seq<T>, f: T -> bool): (r: seq<T>)
    ensures |r| <= |s|
    ensures forall i :: 0 <= i < |r| ==> r[i] in s && f(r[i])
    ensures forall i :: 0 <= i < |s| && f(s[i]) ==> s[i] in r
  {
    if s == [] then []
    else if f(s[0]) then [s[0]] + Filter(s[1..], f)
    else Filter(s[1..], f)
  }

  /** How many elements of `s` satisfy `f` (the length of the filtered list). */
  function Count<T>(s: seq<T>, f: T -> bool): nat
  {
    |Filter(s, f)|
  }

  /** `r` can be obtained from `s` by deleting elements: same relative order. */
  ghost predicate IsSubsequence<T>(r: seq<T>, s: seq<T>)
    decreases |s|
  {
    r == [] ||
    (s != [] && ((r[0] == s[0] && IsSubsequence(r[1..], s[1..])) || IsSubsequence(r, s[1..])))
  }

  /** Filtering keeps the original order. */
  lemma {:induction false} FilterIsSubsequence<T>(s: seq<T>, f: T -> bool)
    ensures IsSubsequence(Filter(s, f), s)
  {
    if s != [] {
      FilterIsSubsequence(s[1..], f);
      if f(s[0]) {
        assert Filter(s, f)[1..] == Filter(s[1..], f);
      }
    }
  }

  /** Filtering keeps every copy of a selected element and drops every copy of the others. */
  lemma {:induction false} FilterMultiplicity<T>(s: seq<T>, f: T -> bool, x: T)
    ensures multiset(Filter(s, f))[x] == if f(x) then multiset(s)[x] else 0
  {
    if s != [] {
      FilterMultiplicity(s[1..], f, x);
      assert s == [s[0]] + s[1..];
      assert multiset(s) == multiset{s[0]} + multiset(s[1..]);
    }
  }

  /** A filter that accepts everything in `s` returns `s` itself. */
  lemma {:induction false} FilterKeepsAll<T>(s: seq<T>, f: T -> bool)
    requires forall i :: 0 <= i < |s| ==> f(s[i])
    ensures Filter(s, f) == s
  {
    if s != [] {
      FilterKeepsAll(s[1..], f);
    }
  }

  /** A filter that rejects everything in `s` returns the empty list. */
  lemma {:induction false} FilterKeepsNone<T>(s: seq<T>, f: T -> bool)
    requires forall i :: 0 <= i < |s| ==> !f(s[i])
    ensures Filter(s, f) == []
  {
    if s != [] {
      FilterKeepsNone(s[1..], f);
    }
  }

  /** Two filters that agree on the elements of `s` select the same subsequence. */
  lemma {:induction false} FilterAgree<T>(s: seq<T>, f: T -> bool, g: T -> bool)
    requires forall i :: 0 <= i < |s| ==> f(s[i]) == g(s[i])
    ensures Filter(s, f) == Filter(s, g)
  {
    if s != [] {
      FilterAgree(s[1..], f, g);
    }
  }

  /** A weaker condition counts at least as many elements. */
  lemma {:induction false} CountMonotone<T>(s: seq<T>, f: T -> bool, g: T -> bool)
    requires forall i :: 0 <= i < |s| && f(s[i]) ==> g(s[i])
    ensures Count(s, f) <= Count(s, g)
  {
    if s != [] {
      CountMonotone(s[1..], f, g);
    }
  }

  /** Counting ignores order: a permutation has the same count. */
  lemma CountPermutation<T>(s: seq<T>, t: seq<T>, f: T -> bool)
    requires multiset(s) == multiset(t)
    ensures Count(s, f) == Count(t, f)
  {
    forall x
      ensures multiset(Filter(s, f))[x] == multiset(Filter(t, f))[x]
    {
      FilterMultiplicity(s, f, x);
      FilterMultiplicity(t, f, x);
    }
    assert multiset(Filter(s, f)) == multiset(Filter(t, f));
    assert |multiset(Filter(s, f))| == |Filter(s, f)|;
    assert |multiset(Filter(t, f))| == |Filter(t, f)|;
  }

  /** The elements satisfying `f` and those failing it together make up `s`. */
  lemma {:induction false} CountSplit<T>(s: seq<T>, f: T -> bool, g: T -> bool)
    requires forall i :: 0 <= i < |s| ==> g(s[i]) == !f(s[i])
    ensures Count(s, f) + Count(s, g) == |s|
  {
    if s != [] {
      CountSplit(s[1..], f, g);
    }
  }

  /** Counting within a filtered list finds no more than counting in the whole list. */
  lemma {:induction false} CountInFilter<T>(s: seq<T>, f: T -> bool, g: T -> bool)
    ensures Count(Filter(s, f), g) <= Count(s, g)
  {
    if s != [] {
      CountInFilter(s[1..], f, g);
      if f(s[0]) {
        assert Filter(s, f)[1..] == Filter(s[1..], f);
      }
    }
  }
}
