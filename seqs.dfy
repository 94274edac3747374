/** Order-preserving filtering of sequences: the model of `Array.prototype.filter`. */
module Seqs {

  /** `a` is obtained from `b` by deleting elements, so it keeps `b`'s order. */
  ghost predicate IsSubsequence<T>(a: seq<T>, b: seq<T>)
    decreases |b|
  {
    if a == [] then true
    else if b == [] then false
    else (a[0] == b[0] && IsSubsequence(a[1..], b[1..])) || IsSubsequence(a, b[1..])
  }

  /** `s.filter(keep)`: the elements of `s` that `keep` accepts, in their order. */
  function Filter<T(==)>(keep: T -> bool, s: seq<T>): (r: seq<T>)
    ensures |r| <= |s|
    ensures forall i :: 0 <= i < |r| ==> r[i] in s && keep(r[i])
    ensures forall i :: 0 <= i < |s| && keep(s[i]) ==> s[i] in r
    ensures IsSubsequence(r, s)
  {
    if s == [] then []
    else if keep(s[0]) then [s[0]] + Filter(keep, s[1..])
    else Filter(keep, s[1..])
  }

  /**
   * `Filter` keeps every occurrence of a passing element and none of a failing one: it takes no
   * element more often than `s` has it, and a passing element exactly as often.
   */
  lemma {:induction false} FilterCounts<T>(keep: T -> bool, s: seq<T>)
    ensures multiset(Filter(keep, s)) <= multiset(s)
    ensures forall x :: keep(x) ==> multiset(Filter(keep, s))[x] == multiset(s)[x]
    ensures forall x :: multiset(Filter(keep, s))[x] == (if keep(x) then multiset(s)[x] else 0)
    decreases |s|
  {
    if s != [] {
      var rest := s[1..];
      FilterCounts(keep, rest);
      assert s == [s[0]] + rest;
      assert multiset(s) == multiset{s[0]} + multiset(rest);
      if keep(s[0]) {
        assert Filter(keep, s) == [s[0]] + Filter(keep, rest);
        assert multiset(Filter(keep, s)) == multiset{s[0]} + multiset(Filter(keep, rest));
      } else {
        assert Filter(keep, s) == Filter(keep, rest);
      }
    }
  }

  /** `x` as a list of one when `keep` accepts it, the empty list otherwise. */
  function Kept<T>(keep: T -> bool, x: T): seq<T> {
    if keep(x) then [x] else []
  }

  /** Filtering a list of three keeps each of the three that passes, in order. */
  lemma FilterOfThree<T>(keep: T -> bool, a: T, b: T, c: T)
    ensures Filter(keep, [a, b, c]) == Kept(keep, a) + Kept(keep, b) + Kept(keep, c)
  {
    var bc := [b, c];
    assert [a, b, c][1..] == bc;
    assert bc[1..] == [c];
    assert [c][1..] == [];
    assert Filter(keep, [c]) == Kept(keep, c);
    assert Filter(keep, bc) == Kept(keep, b) + Kept(keep, c);
  }

  lemma {:induction false} SubsequenceReflexive<T>(s: seq<T>)
    ensures IsSubsequence(s, s)
    decreases |s|
  {
    if s != [] {
      SubsequenceReflexive(s[1..]);
    }
  }

  lemma {:induction false} SubsequenceTransitive<T>(a: seq<T>, b: seq<T>, c: seq<T>)
    requires IsSubsequence(a, b) && IsSubsequence(b, c)
    ensures IsSubsequence(a, c)
    decreases |c|
  {
    if a != [] {
      if b[0] == c[0] && IsSubsequence(b[1..], c[1..]) {
        if a[0] == b[0] && IsSubsequence(a[1..], b[1..]) {
          SubsequenceTransitive(a[1..], b[1..], c[1..]);
        } else {
          SubsequenceTransitive(a, b[1..], c[1..]);
        }
      } else {
        SubsequenceTransitive(a, b, c[1..]);
      }
    }
  }

  /** A prefix of a subsequence is still a subsequence. */
  lemma {:induction false} PrefixIsSubsequence<T>(a: seq<T>, b: seq<T>, n: nat)
    requires n <= |a| && IsSubsequence(a, b)
    ensures IsSubsequence(a[..n], b)
    decreases |b|
  {
    if n > 0 {
      if a[0] == b[0] && IsSubsequence(a[1..], b[1..]) {
        PrefixIsSubsequence(a[1..], b[1..], n - 1);
        assert a[..n][1..] == a[1..][..n - 1];
      } else {
        PrefixIsSubsequence(a, b[1..], n);
      }
    }
  }

  /** A filter that accepts every element returns its input unchanged. */
  lemma {:induction false} FilterKeepsAll<T>(keep: T -> bool, s: seq<T>)
    requires forall x :: x in s ==> keep(x)
    ensures Filter(keep, s) == s
    decreases |s|
  {
    if s != [] {
      FilterKeepsAll(keep, s[1..]);
    }
  }

  /** A filter that rejects exactly the element at `i` returns the sequence without it. */
  lemma {:induction false} FilterDropsOne<T>(keep: T -> bool, s: seq<T>, i: nat)
    requires i < |s| && !keep(s[i])
    requires forall j :: 0 <= j < |s| && j != i ==> keep(s[j])
    ensures Filter(keep, s) == s[..i] + s[i + 1..]
    decreases i
  {
    TailKeeps(keep, s, i);
    if i == 0 {
      FilterKeepsAllAt(keep, s[1..]);
    } else {
      FilterDropsOne(keep, s[1..], i - 1);
      ConsSkip(s, i);
    }
  }

  /** What `keep` accepts in `s` without its head. */
  lemma TailKeeps<T>(keep: T -> bool, s: seq<T>, i: nat)
    requires i < |s|
    requires forall j :: 0 <= j < |s| && j != i ==> keep(s[j])
    ensures forall j :: 0 <= j < |s| - 1 && j + 1 != i ==> keep(s[1..][j])
  {
    forall j | 0 <= j < |s| - 1 && j + 1 != i ensures keep(s[1..][j]) {
      assert s[1..][j] == s[j + 1];
    }
  }

  /** Skipping index `i > 0` of `s` is keeping the head and skipping index `i - 1` of the tail. */
  lemma ConsSkip<T>(s: seq<T>, i: nat)
    requires 0 < i < |s|
    ensures [s[0]] + (s[1..][..i - 1] + s[1..][i..]) == s[..i] + s[i + 1..]
  {
    assert s[..i] == [s[0]] + s[1..][..i - 1];
    assert s[i + 1..] == s[1..][i..];
  }

  /** A filter that accepts the element at every index returns its input unchanged. */
  lemma FilterKeepsAllAt<T>(keep: T -> bool, s: seq<T>)
    requires forall j :: 0 <= j < |s| ==> keep(s[j])
    ensures Filter(keep, s) == s
  {
    FilterKeepsAll(keep, s);
  }

  /** A filter that rejects some element returns a strictly shorter sequence. */
  lemma {:induction false} FilterDropsRejected<T>(keep: T -> bool, s: seq<T>, x: T)
    requires x in s && !keep(x)
    ensures |Filter(keep, s)| < |s|
    decreases |s|
  {
    if s[0] != x {
      FilterDropsRejected(keep, s[1..], x);
    }
  }

  /** Filters agreeing on every element agree on the whole sequence. */
  lemma {:induction false} FilterCongruent<T>(f: T -> bool, g: T -> bool, s: seq<T>)
    requires forall x :: x in s ==> f(x) == g(x)
    ensures Filter(f, s) == Filter(g, s)
    decreases |s|
  {
    if s != [] {
      FilterCongruent(f, g, s[1..]);
    }
  }

  /** Two successive filters are one filter by the conjunction of their predicates. */
  lemma {:induction false} FilterFusion<T>(f: T -> bool, g: T -> bool, s: seq<T>)
    ensures Filter(g, Filter(f, s)) == Filter(x => f(x) && g(x), s)
    decreases |s|
  {
    if s != [] {
      FilterFusion(f, g, s[1..]);
    }
  }
}
