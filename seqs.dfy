/** Order-preserving filtering of sequences (Python's
    `[x for x in xs if f(x)]`) and the facts about it that the core relies on. */
module Seqs {

  /** `[x for x in xs if f(x)]`. */
  function Filter<T(==,!new)>(xs: seq<T>, f: T -> bool): (r: seq<T>)
    ensures |r| <= |xs|
    ensures forall x :: x in r <==> x in xs && f(x)
    decreases |xs|
  {
    if xs == [] then []
    else
      var rest := Filter(xs[1..], f);
      assert forall x :: x in xs <==> x == xs[0] || x in xs[1..];
      if f(xs[0]) then [xs[0]] + rest else rest
  }

  /** `a` can be obtained from `b` by deleting elements. */
  predicate IsSubsequence<T(==)>(a: seq<T>, b: seq<T>)
    decreases |b|
  {
    if a == [] then true
    else if b == [] then false
    else if a[0] == b[0] then IsSubsequence(a[1..], b[1..])
    else IsSubsequence(a, b[1..])
  }

  /** A filter never adds elements and keeps their order. */
  lemma {:induction false} FilterIsSubsequence<T(!new)>(xs: seq<T>, f: T -> bool)
    ensures IsSubsequence(Filter(xs, f), xs)
    decreases |xs|
  {
    if xs != [] {
      FilterIsSubsequence(xs[1..], f);
      var rest := Filter(xs[1..], f);
      if !f(xs[0]) {
        SubsequenceOfTail(rest, xs);
      } else {
        assert ([xs[0]] + rest)[1..] == rest;
      }
    }
  }

  /** Prepending an element to the longer sequence keeps a subsequence one. */
  lemma {:induction false} SubsequenceOfTail<T>(a: seq<T>, b: seq<T>)
    requires b != [] && IsSubsequence(a, b[1..])
    ensures IsSubsequence(a, b)
    decreases |a| + |b|
  {
    if a != [] && a[0] == b[0] {
      SubsequenceDropHead(a, b[1..]);
    }
  }

  /** Dropping the first element of the shorter sequence keeps a subsequence one. */
  lemma {:induction false} SubsequenceDropHead<T>(a: seq<T>, c: seq<T>)
    requires a != [] && IsSubsequence(a, c)
    ensures IsSubsequence(a[1..], c)
    decreases |a| + |c|
  {
    if a[0] == c[0] {
      if a[1..] != [] {
        SubsequenceOfTail(a[1..], c);
      }
    } else {
      SubsequenceDropHead(a, c[1..]);
      if a[1..] != [] {
        SubsequenceOfTail(a[1..], c);
      }
    }
  }

  /** A subsequence of `d` is one of any `b + d`. */
  lemma {:induction false} SubsequenceOfSuffix<T>(c: seq<T>, b: seq<T>, d: seq<T>)
    requires IsSubsequence(c, d)
    ensures IsSubsequence(c, b + d)
    decreases |b|
  {
    if b == [] {
      assert b + d == d;
    } else {
      SubsequenceOfSuffix(c, b[1..], d);
      assert (b + d)[1..] == b[1..] + d;
      SubsequenceOfTail(c, b + d);
    }
  }

  /** Subsequences concatenate. */
  lemma {:induction false} SubsequenceAppend<T>(a: seq<T>, b: seq<T>, c: seq<T>, d: seq<T>)
    requires IsSubsequence(a, b) && IsSubsequence(c, d)
    ensures IsSubsequence(a + c, b + d)
    decreases |b|
  {
    if a == [] {
      assert a + c == c;
      SubsequenceOfSuffix(c, b, d);
    } else {
      assert b != [];
      assert (b + d)[1..] == b[1..] + d;
      if a[0] == b[0] {
        SubsequenceAppend(a[1..], b[1..], c, d);
        assert (a + c)[1..] == a[1..] + c;
      } else {
        SubsequenceAppend(a, b[1..], c, d);
      }
    }
  }

  /** Filtering twice by the same predicate is filtering once. */
  lemma {:induction false} FilterIdempotent<T(!new)>(xs: seq<T>, f: T -> bool)
    ensures Filter(Filter(xs, f), f) == Filter(xs, f)
    decreases |xs|
  {
    if xs != [] {
      FilterIdempotent(xs[1..], f);
      if f(xs[0]) {
        assert ([xs[0]] + Filter(xs[1..], f))[1..] == Filter(xs[1..], f);
      }
    }
  }

  /** Filtering by a predicate that holds of every element changes nothing. */
  lemma {:induction false} FilterAll<T(!new)>(xs: seq<T>, f: T -> bool)
    requires forall i :: 0 <= i < |xs| ==> f(xs[i])
    ensures Filter(xs, f) == xs
    decreases |xs|
  {
    if xs != [] {
      FilterAll(xs[1..], f);
      assert [xs[0]] + xs[1..] == xs;
    }
  }

  /** A predicate and its negation split a sequence: the two filters together
      hold every element exactly as often as the sequence does. */
  lemma {:induction false} FilterPartition<T(!new)>(xs: seq<T>, f: T -> bool, g: T -> bool)
    requires forall x :: g(x) == !f(x)
    ensures |Filter(xs, f)| + |Filter(xs, g)| == |xs|
    ensures multiset(Filter(xs, f)) + multiset(Filter(xs, g)) == multiset(xs)
    decreases |xs|
  {
    if xs != [] {
      FilterPartition(xs[1..], f, g);
      assert xs == [xs[0]] + xs[1..];
    }
  }

  lemma {:induction false} FilterAppend<T(!new)>(xs: seq<T>, ys: seq<T>, f: T -> bool)
    ensures Filter(xs + ys, f) == Filter(xs, f) + Filter(ys, f)
    decreases |xs|
  {
    if xs == [] {
      assert xs + ys == ys;
    } else {
      assert (xs + ys)[1..] == xs[1..] + ys;
      FilterAppend(xs[1..], ys, f);
    }
  }

  /** Filtering a non-empty sequence: the filter of all but the last element,
      then the last element when it passes. */
  lemma FilterLast<T(!new)>(xs: seq<T>, f: T -> bool)
    requires xs != []
    ensures Filter(xs, f) == Filter(xs[..|xs| - 1], f) + (if f(xs[|xs| - 1]) then [xs[|xs| - 1]] else [])
  {
    var init := xs[..|xs| - 1];
    var last := xs[|xs| - 1];
    assert xs == init + [last];
    FilterAppend(init, [last], f);
    assert Filter([last], f) == (if f(last) then [last] else []);
  }

  /** No element occurs twice. */
  predicate Distinct<T(==)>(xs: seq<T>) {
    forall i, j :: 0 <= i < j < |xs| ==> xs[i] != xs[j]
  }

  /** Two repetition-free sequences with no common element concatenate to a
      repetition-free sequence. */
  lemma DistinctAppend<T>(a: seq<T>, b: seq<T>)
    requires Distinct(a) && Distinct(b)
    requires forall x :: x in a ==> x !in b
    ensures Distinct(a + b)
  {
    forall i, j | 0 <= i < j < |a + b| ensures (a + b)[i] != (a + b)[j] {
      if i < |a| && j >= |a| {
        assert (a + b)[i] in a && (a + b)[j] == b[j - |a|];
      }
    }
  }

  /** A sequence is a prefix of itself followed by two more. */
  lemma PrefixOfTwoAppends<T>(a: seq<T>, b: seq<T>, c: seq<T>)
    ensures a <= a + b + c
  {
    assert (a + b + c)[..|a|] == a;
  }

  /** A prefix followed by the rest of the sequence is the sequence. */
  lemma PrefixThenRest<T>(a: seq<T>, b: seq<T>)
    requires a <= b
    ensures a + b[|a|..] == b
  {
    assert forall i :: 0 <= i < |b| ==> (a + b[|a|..])[i] == b[i];
  }
}
