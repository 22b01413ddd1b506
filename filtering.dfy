/**
  Stable filtering of a sequence: the elements a predicate keeps, in their
  original order. The cleaner filters claims by name, pod volumes by whether
  they have a claim source, and claims by whether they are orphans; all three
  are instances of `Filter`.
 */
module Filtering {

  /** The elements of `s` that `keep` accepts, in order (built from the back, as an append loop builds it). */
  function Filter<T>(s: seq<T>, keep: T -> bool): (r: seq<T>)
    ensures |r| <= |s|
    ensures forall k :: 0 <= k < |r| ==> keep(r[k])
  {
    if s == [] then []
    else
      var last := s[|s| - 1];
      Filter(s[..|s| - 1], keep) + (if keep(last) then [last] else [])
  }

  /** The predicate that holds where both `f` and `g` hold. */
  function Both<T>(f: T -> bool, g: T -> bool): T -> bool {
    x => f(x) && g(x)
  }

  /**
    `idx` lists strictly increasing positions of `s` at which the elements
    of `sub` stand: `sub` is `s` with some elements left out.
   */
  ghost predicate Embeds<T>(idx: seq<nat>, sub: seq<T>, s: seq<T>) {
    && |idx| == |sub|
    && (forall k :: 0 <= k < |idx| ==> idx[k] < |s| && s[idx[k]] == sub[k])
    && (forall j, k :: 0 <= j < k < |idx| ==> idx[j] < idx[k])
  }

  ghost predicate IsSubsequence<T>(sub: seq<T>, s: seq<T>) {
    exists idx :: Embeds(idx, sub, s)
  }

  /** The positions of `s` that `Filter` keeps: they embed the result in `s`. */
  lemma {:induction false} FilterPositions<T>(s: seq<T>, keep: T -> bool) returns (idx: seq<nat>)
    ensures Embeds(idx, Filter(s, keep), s)
  {
    if s == [] {
      idx := [];
    } else {
      var n := |s| - 1;
      var front := FilterPositions(s[..n], keep);
      assert forall k :: 0 <= k < |front| ==> front[k] < n && s[front[k]] == s[..n][front[k]];
      idx := if keep(s[n]) then front + [n] else front;
    }
  }

  lemma FilterIsSubsequence<T>(s: seq<T>, keep: T -> bool)
    ensures IsSubsequence(Filter(s, keep), s)
  {
    var idx := FilterPositions(s, keep);
  }

  /** Each value occurs in the result exactly as often as in `s` when kept, and never otherwise. */
  lemma {:induction false} FilterCount<T>(s: seq<T>, keep: T -> bool, x: T)
    ensures multiset(Filter(s, keep))[x] == if keep(x) then multiset(s)[x] else 0
  {
    if s != [] {
      var n := |s| - 1;
      FilterCount(s[..n], keep, x);
      assert s == s[..n] + [s[n]];
    }
  }

  /** Membership in the result is exactly membership in `s` plus acceptance by `keep`. */
  lemma FilterMembers<T>(s: seq<T>, keep: T -> bool, x: T)
    ensures x in Filter(s, keep) <==> x in s && keep(x)
  {
  }

  /** A predicate that keeps every element leaves the sequence unchanged. */
  lemma {:induction false} FilterKeepsAll<T>(s: seq<T>, keep: T -> bool)
    requires forall k :: 0 <= k < |s| ==> keep(s[k])
    ensures Filter(s, keep) == s
  {
    if s != [] {
      var n := |s| - 1;
      FilterKeepsAll(s[..n], keep);
      assert s == s[..n] + [s[n]];
    }
  }

  /** Two predicates that agree on the elements of `s` filter it alike. */
  lemma {:induction false} FilterCongruent<T>(s: seq<T>, f: T -> bool, g: T -> bool)
    requires forall k :: 0 <= k < |s| ==> f(s[k]) == g(s[k])
    ensures Filter(s, f) == Filter(s, g)
  {
    if s != [] {
      FilterCongruent(s[..|s| - 1], f, g);
    }
  }

  /** Filtering twice is filtering once by the conjunction. */
  lemma {:induction false} FilterFilter<T>(s: seq<T>, f: T -> bool, g: T -> bool)
    ensures Filter(Filter(s, f), g) == Filter(s, Both(f, g))
  {
    if s != [] {
      var n := |s| - 1;
      var front := Filter(s[..n], f);
      FilterFilter(s[..n], f, g);
      if f(s[n]) {
        var once := front + [s[n]];
        assert once[..|once| - 1] == front;
      } else {
        assert Filter(s, f) == front;
      }
    }
  }
}
