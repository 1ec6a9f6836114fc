/** Order-preserving filtering of sequences, as JavaScript's Array.prototype.filter. */
module Seqs {

  /**
   * `r` occurs in `s` in order, possibly with gaps. Elements of `r` are matched
   * greedily against `s`, which decides the relation exactly.
   */
  predicate IsSubsequence<T(==,!new)>(r: seq<T>, s: seq<T>)
    decreases |s|
  {
    if r == [] then true
    else if s == [] then false
    else if r[0] == s[0] then IsSubsequence(r[1..], s[1..])
    else IsSubsequence(r, s[1..])
  }

  /**
   * The elements of `s` that satisfy `p`, in their original order. Together with
   * FilterMultiset the ensures determines the result: a subsequence of `s` that
   * keeps every occurrence of every element satisfying `p` and nothing else.
   */
  function Filter<T(==,!new)>(s: seq<T>, p: T -> bool): (r: seq<T>)
    ensures |r| <= |s|
    ensures forall i :: 0 <= i < |r| ==> p(r[i])
    ensures IsSubsequence(r, s)
  {
    if s == [] then []
    else
      var rest := Filter(s[1..], p);
      if p(s[0]) then
        assert ([s[0]] + rest)[1..] == rest;
        [s[0]] + rest
      else
        rest
  }

  /** The filter keeps exactly the occurrences of the elements satisfying `p`. */
  lemma {:induction false} FilterMultiset<T(!new)>(s: seq<T>, p: T -> bool)
    ensures forall x :: multiset(Filter(s, p))[x] == if p(x) then multiset(s)[x] else 0
  {
    if s != [] {
      FilterMultiset(s[1..], p);
      assert s == [s[0]] + s[1..];
    }
  }

  /** Unfolding a filter of a non-empty sequence by one element. */
  lemma FilterCons<T(!new)>(s: seq<T>, p: T -> bool)
    requires s != []
    ensures Filter(s, p) == (if p(s[0]) then [s[0]] else []) + Filter(s[1..], p)
  {
  }

  /**
   * Moving `x` past a head `h` that the filter cannot keep together with `x`:
   * if `rest` filters to `x` (when kept) followed by the tail of `s`, then `h`
   * followed by `rest` filters to `x` followed by all of `s`.
   */
  lemma FilterPastHead<T(!new)>(h: T, x: T, rest: seq<T>, s: seq<T>, p: T -> bool)
    requires s != [] && s[0] == h && (p(x) ==> !p(h))
    requires Filter(rest, p) == (if p(x) then [x] else []) + Filter(s[1..], p)
    ensures Filter([h] + rest, p) == (if p(x) then [x] else []) + Filter(s, p)
  {
    var hr := [h] + rest;
    assert hr[1..] == rest;
    FilterCons(hr, p);
    FilterCons(s, p);
  }

  /** A filtered element satisfies the predicate and comes from the input. */
  lemma FilterMember<T(!new)>(s: seq<T>, p: T -> bool, x: T)
    ensures x in Filter(s, p) <==> x in s && p(x)
  {
    assert x in Filter(s, p) <==> multiset(Filter(s, p))[x] > 0;
    assert x in s <==> multiset(s)[x] > 0;
  }

  /** Filtering distributes over concatenation. */
  lemma {:induction false} FilterAppend<T(!new)>(a: seq<T>, b: seq<T>, p: T -> bool)
    ensures Filter(a + b, p) == Filter(a, p) + Filter(b, p)
  {
    if a == [] {
      assert a + b == b;
    } else {
      assert (a + b)[1..] == a[1..] + b;
      FilterAppend(a[1..], b, p);
    }
  }

  /** When every element passes, filtering changes nothing. */
  lemma {:induction false} FilterAll<T(!new)>(s: seq<T>, p: T -> bool)
    requires forall x :: x in s ==> p(x)
    ensures Filter(s, p) == s
  {
    if s != [] {
      assert s == [s[0]] + s[1..];
      FilterAll(s[1..], p);
    }
  }

  /** When no element passes, the result is empty. */
  lemma FilterNone<T(!new)>(s: seq<T>, p: T -> bool)
    requires forall x :: x in s ==> !p(x)
    ensures Filter(s, p) == []
  {
    var r := Filter(s, p);
    assert r != [] ==> multiset(r)[r[0]] > 0;
  }

  /** Filtering twice by the same predicate is filtering once. */
  lemma FilterIdempotent<T(!new)>(s: seq<T>, p: T -> bool)
    ensures Filter(Filter(s, p), p) == Filter(s, p)
  {
    forall x | x in Filter(s, p) ensures p(x) {
      FilterMember(s, p, x);
    }
    FilterAll(Filter(s, p), p);
  }

  /** When no two elements both fail, filtering drops at most one element. */
  lemma {:induction false} FilterDropsAtMostOne<T(!new)>(s: seq<T>, p: T -> bool)
    requires forall i, j :: 0 <= i < j < |s| ==> p(s[i]) || p(s[j])
    ensures |s| - 1 <= |Filter(s, p)| <= |s|
  {
    if s != [] {
      var tail := s[1..];
      forall i, j | 0 <= i < j < |tail| ensures p(tail[i]) || p(tail[j]) {
        assert tail[i] == s[i + 1] && tail[j] == s[j + 1];
      }
      FilterDropsAtMostOne(tail, p);
      FilterCons(s, p);
      if !p(s[0]) {
        forall x | x in tail ensures p(x) {
          var k :| 0 <= k < |tail| && tail[k] == x;
          assert s[k + 1] == x;
        }
        FilterAll(tail, p);
      }
    }
  }

  /** Filtering a three-element sequence, element by element. */
  lemma FilterOfThree<T(!new)>(a: T, b: T, c: T, p: T -> bool)
    ensures Filter([a, b, c], p) ==
      (if p(a) then [a] else []) + (if p(b) then [b] else []) + (if p(c) then [c] else [])
  {
    var s := [a, b, c];
    assert s[1..] == [b, c] && s[1..][1..] == [c] && [c][1..] == [];
    FilterCons(s, p);
    FilterCons([b, c], p);
    FilterCons([c], p);
  }
}
