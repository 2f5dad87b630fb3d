/** The array operations the pages use: `filter`, a `Set`-based de-duplication
    that keeps first-occurrence order, `flatMap`, and counting by `filter(...).length`. */
module Seqs {

  /** `r` is `s` with some elements left out and the rest in their original order. */
  predicate IsSubsequence<T(==,!new)>(r: seq<T>, s: seq<T>)
    decreases |s|
  {
    if r == [] then true
    else if s == [] then false
    else if r[0] == s[0] then IsSubsequence(r[1..], s[1..])
    else IsSubsequence(r, s[1..])
  }

  /** Every sequence is a subsequence of itself. */
  lemma {:induction false} SubsequenceOfSelf<T(!new)>(s: seq<T>)
    ensures IsSubsequence(s, s)
    decreases |s|
  {
    if s != [] {
      SubsequenceOfSelf(s[1..]);
    }
  }

  /** `s.filter(p)`. The result is the only subsequence of `s` that keeps every
      occurrence of the elements satisfying `p` and nothing else. */
  function Filter<T(==,!new)>(s: seq<T>, p: T -> bool): (r: seq<T>)
    ensures IsSubsequence(r, s)
    ensures forall x :: multiset(r)[x] == if p(x) then multiset(s)[x] else 0
    ensures forall x :: x in r <==> x in s && p(x)
    ensures |r| <= |s|
  {
    if s == [] then []
    else
      assert s == [s[0]] + s[1..];
      if p(s[0]) then [s[0]] + Filter(s[1..], p) else Filter(s[1..], p)
  }

  /** A filter whose predicate holds of every element keeps the whole sequence. */
  lemma {:induction false} FilterKeepsAll<T(!new)>(s: seq<T>, p: T -> bool)
    requires forall x :: x in s ==> p(x)
    ensures Filter(s, p) == s
  {
    if s != [] {
      FilterKeepsAll(s[1..], p);
      FilterStep(s, p);
      assert s == [s[0]] + s[1..];
    }
  }

  /** A filter whose predicate holds of no element keeps nothing. */
  lemma {:induction false} FilterKeepsNone<T(!new)>(s: seq<T>, p: T -> bool)
    requires forall x :: x in s ==> !p(x)
    ensures Filter(s, p) == []
  {
    if s != [] {
      FilterKeepsNone(s[1..], p);
    }
  }

  /** Two predicates that agree on the elements of `s` filter it alike. */
  lemma {:induction false} FilterCongruent<T(!new)>(s: seq<T>, p: T -> bool, q: T -> bool)
    requires forall x :: x in s ==> p(x) == q(x)
    ensures Filter(s, p) == Filter(s, q)
  {
    if s != [] {
      FilterCongruent(s[1..], p, q);
    }
  }

  /** Filtering by `p` and by its negation splits `s`: the two counts add up to its length. */
  lemma {:induction false} FilterComplementCount<T(!new)>(s: seq<T>, p: T -> bool, notP: T -> bool)
    requires forall x :: notP(x) == !p(x)
    ensures |Filter(s, p)| + |Filter(s, notP)| == |s|
  {
    if s != [] {
      FilterComplementCount(s[1..], p, notP);
    }
  }

  /** Filtering distributes over appending one element. */
  lemma {:induction false} FilterSnoc<T(!new)>(s: seq<T>, x: T, p: T -> bool)
    ensures Filter(s + [x], p) == Filter(s, p) + (if p(x) then [x] else [])
    decreases |s|
  {
    var t := s + [x];
    if s == [] {
      assert t[1..] == [];
    } else {
      assert t[0] == s[0] && t[1..] == s[1..] + [x];
      var head := if p(s[0]) then [s[0]] else [];
      var last := if p(x) then [x] else [];
      FilterSnoc(s[1..], x, p);
      FilterStep(t, p);
      FilterStep(s, p);
      calc {
        Filter(t, p);
        head + Filter(s[1..] + [x], p);
        head + (Filter(s[1..], p) + last);
        { AppendAssoc(head, Filter(s[1..], p), last); }
        (head + Filter(s[1..], p)) + last;
        Filter(s, p) + last;
      }
    }
  }

  lemma AppendAssoc<T>(a: seq<T>, b: seq<T>, c: seq<T>)
    ensures a + (b + c) == (a + b) + c
  {
  }

  /** One step of `Filter` on a non-empty sequence. */
  lemma FilterStep<T(!new)>(s: seq<T>, p: T -> bool)
    requires s != []
    ensures Filter(s, p) == (if p(s[0]) then [s[0]] else []) + Filter(s[1..], p)
  {
    if !p(s[0]) {
      assert [] + Filter(s[1..], p) == Filter(s[1..], p);
    }
  }

  /** The positions of `s` whose element satisfies `p`. */
  function Positions<T>(s: seq<T>, p: T -> bool): set<int> {
    set i | 0 <= i < |s| && p(s[i])
  }

  /** `s.filter(p).length` counts the positions of `s` whose element satisfies `p`. */
  lemma {:induction false} FilterCountsPositions<T(!new)>(s: seq<T>, p: T -> bool)
    ensures |Filter(s, p)| == |Positions(s, p)|
    decreases |s|
  {
    if s != [] {
      var init, x := s[..|s| - 1], s[|s| - 1];
      assert s == init + [x];
      FilterCountsPositions(init, p);
      FilterSnoc(init, x, p);
      PositionsSnoc(init, x, p);
      assert |init| !in Positions(init, p);
    }
  }

  /** Appending one element adds its position exactly when it satisfies `p`. */
  lemma PositionsSnoc<T>(s: seq<T>, x: T, p: T -> bool)
    ensures Positions(s + [x], p) == Positions(s, p) + (if p(x) then {|s|} else {})
  {
    var t := s + [x];
    forall i | 0 <= i < |s| ensures t[i] == s[i] { }
    assert t[|s|] == x;
  }

  predicate NoDuplicates<T(==,!new)>(s: seq<T>) {
    forall i, j :: 0 <= i < j < |s| ==> s[i] != s[j]
  }

  /** The index of the first occurrence of `x` in `s`. */
  function FirstIndex<T(==,!new)>(s: seq<T>, x: T): (k: nat)
    requires x in s
    ensures k < |s| && s[k] == x && x !in s[..k]
  {
    if s[0] == x then 0 else 1 + FirstIndex(s[1..], x)
  }

  lemma {:induction false} FirstIndexAppend<T(!new)>(s: seq<T>, y: T, x: T)
    requires x in s
    ensures FirstIndex(s + [y], x) == FirstIndex(s, x)
  {
    if s[0] != x {
      assert (s + [y])[1..] == s[1..] + [y];
      FirstIndexAppend(s[1..], y, x);
    }
  }

  /** `[...new Set(s)]`: each distinct element of `s` once, in the order of its first occurrence. */
  function Dedup<T(==,!new)>(s: seq<T>): (r: seq<T>)
    ensures NoDuplicates(r)
    ensures forall x :: x in r <==> x in s
    ensures forall i, j :: 0 <= i < j < |r| ==> FirstIndex(s, r[i]) < FirstIndex(s, r[j])
    ensures |r| <= |s|
  {
    if s == [] then []
    else
      var init := s[..|s| - 1];
      var last := s[|s| - 1];
      var d := Dedup(init);
      assert s == init + [last];
      forall x | x in init
        ensures FirstIndex(s, x) == FirstIndex(init, x)
      {
        FirstIndexAppend(init, last, x);
      }
      if last in d then d
      else
        assert FirstIndex(s, last) == |s| - 1;
        d + [last]
  }

  /** A last element that is new is kept at the end. */
  lemma DedupSnoc<T(!new)>(s: seq<T>)
    requires s != [] && s[|s| - 1] !in s[..|s| - 1]
    ensures Dedup(s) == Dedup(s[..|s| - 1]) + [s[|s| - 1]]
  {
  }

  /** Dropping the last element of a sequence without duplicates leaves one
      without duplicates that does not hold that element. */
  lemma DistinctInit<T(!new)>(s: seq<T>)
    requires s != [] && NoDuplicates(s)
    ensures NoDuplicates(s[..|s| - 1]) && s[|s| - 1] !in s[..|s| - 1]
  {
    var init := s[..|s| - 1];
    forall i | 0 <= i < |init| ensures init[i] == s[i] {
    }
  }

  /** A sequence without duplicates is its own de-duplication. */
  lemma {:induction false} DedupDistinct<T(!new)>(s: seq<T>)
    requires NoDuplicates(s)
    ensures Dedup(s) == s
  {
    if s != [] {
      DistinctInit(s);
      DedupDistinct(s[..|s| - 1]);
      DedupSnoc(s);
      assert s[..|s| - 1] + [s[|s| - 1]] == s;
    }
  }

  /** `flatMap` over already-mapped lists: their concatenation in order. */
  function Flatten<T(!new)>(ss: seq<seq<T>>): (r: seq<T>)
    ensures forall x :: x in r <==> exists i :: 0 <= i < |ss| && x in ss[i]
  {
    if ss == [] then []
    else
      var rest := Flatten(ss[1..]);
      assert forall i :: 0 < i < |ss| ==> ss[i] == ss[1..][i - 1];
      ss[0] + rest
  }
}
