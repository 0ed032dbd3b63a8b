/**
 * Sequence helpers shared by the query models: order-preserving selection
 * (`filter` on a queryset, a list comprehension with a condition) and the
 * subsequence relation that states "narrowed, order kept".
 */
module Seqs {

  /** `Subsequence(r, s)`: `r` is `s` with some elements left out, the rest in their order. */
  predicate Subsequence<T(==)>(r: seq<T>, s: seq<T>)
    decreases |s|
  {
    r == [] ||
    (s != [] &&
     ((r[|r| - 1] == s[|s| - 1] && Subsequence(r[..|r| - 1], s[..|s| - 1])) || Subsequence(r, s[..|s| - 1])))
  }

  /** Every sequence is a subsequence of itself. */
  lemma {:induction false} SubsequenceRefl<T>(s: seq<T>)
    ensures Subsequence(s, s)
    decreases |s|
  {
    if s != [] {
      SubsequenceRefl(s[..|s| - 1]);
    }
  }

  /** Narrowing twice is narrowing once. */
  lemma {:induction false} SubsequenceTrans<T>(a: seq<T>, b: seq<T>, c: seq<T>)
    requires Subsequence(a, b) && Subsequence(b, c)
    ensures Subsequence(a, c)
    decreases |c|
  {
    if a == [] {
    } else if Subsequence(b, c[..|c| - 1]) {
      SubsequenceTrans(a, b, c[..|c| - 1]);
    } else {
      assert b[|b| - 1] == c[|c| - 1] && Subsequence(b[..|b| - 1], c[..|c| - 1]);
      if a[|a| - 1] == b[|b| - 1] && Subsequence(a[..|a| - 1], b[..|b| - 1]) {
        SubsequenceTrans(a[..|a| - 1], b[..|b| - 1], c[..|c| - 1]);
      } else {
        SubsequenceTrans(a, b[..|b| - 1], c[..|c| - 1]);
      }
    }
  }

  /** A subsequence is never longer than the sequence it is taken from. */
  lemma {:induction false} SubsequenceLength<T>(r: seq<T>, s: seq<T>)
    requires Subsequence(r, s)
    ensures |r| <= |s|
    decreases |s|
  {
    if r != [] {
      if Subsequence(r, s[..|s| - 1]) {
        SubsequenceLength(r, s[..|s| - 1]);
      } else {
        SubsequenceLength(r[..|r| - 1], s[..|s| - 1]);
      }
    }
  }

  /** The elements of `s` that satisfy `p`, in the order of `s`. */
  function Where<T(==,!new)>(s: seq<T>, p: T -> bool): (r: seq<T>)
    ensures forall x :: x in r <==> x in s && p(x)
    ensures Subsequence(r, s)
    ensures |r| <= |s|
    decreases |s|
  {
    if s == [] then []
    else
      var last := s[|s| - 1];
      var init := s[..|s| - 1];
      assert forall x :: x in s <==> x in init || x == last;
      var rest := Where(init, p);
      if p(last) then
        var r := rest + [last];
        assert r[..|r| - 1] == rest && r[|r| - 1] == last;
        r
      else
        rest
  }

  /**
   * One more condition on a selection: if `out` holds what `qs` has under
   * `before`, then narrowing `out` by `p` holds what `qs` has under `after`,
   * when `after` is `before` and `p` together.
   */
  lemma NarrowMembers<T(!new)>(qs: seq<T>, out: seq<T>, next: seq<T>, before: T -> bool, p: T -> bool, after: T -> bool)
    requires forall x :: x in out <==> x in qs && before(x)
    requires forall x :: x in next <==> x in out && p(x)
    requires forall x :: after(x) <==> before(x) && p(x)
    ensures forall x :: x in next <==> x in qs && after(x)
  {
  }

  /** Selecting by a condition every element meets keeps the whole sequence. */
  lemma {:induction false} WhereAll<T(!new)>(s: seq<T>, p: T -> bool)
    requires forall x :: x in s ==> p(x)
    ensures Where(s, p) == s
    decreases |s|
  {
    if s != [] {
      var init, last := s[..|s| - 1], s[|s| - 1];
      forall x | x in init
        ensures p(x)
      {
        var i :| 0 <= i < |init| && init[i] == x;
        assert s[i] == x;
      }
      WhereAll(init, p);
      assert p(last);
      assert Where(s, p) == Where(init, p) + [last];
      assert init + [last] == s;
    }
  }

  /** The elements of `s` in first-appearance order, each once (the keys of a dict filled from `s`). */
  function Dedup<T(==,!new)>(s: seq<T>): (r: seq<T>)
    ensures forall x :: x in r <==> x in s
    ensures forall i, j :: 0 <= i < j < |r| ==> r[i] != r[j]
    ensures |r| <= |s|
    decreases |s|
  {
    if s == [] then []
    else
      var d := Dedup(s[..|s| - 1]);
      assert forall x :: x in s <==> x in s[..|s| - 1] || x == s[|s| - 1];
      if s[|s| - 1] in d then d else d + [s[|s| - 1]]
  }

  /** A sequence without repetitions is its own de-duplication. */
  lemma {:induction false} DedupDistinct<T(!new)>(s: seq<T>)
    requires forall i, j :: 0 <= i < j < |s| ==> s[i] != s[j]
    ensures Dedup(s) == s
    decreases |s|
  {
    if s != [] {
      var init := s[..|s| - 1];
      DedupDistinct(init);
      assert s[|s| - 1] !in init;
      assert init + [s[|s| - 1]] == s;
    }
  }

  /** A prefix holds no element more often than the whole sequence. */
  lemma PrefixMultiset<T>(s: seq<T>, n: nat)
    requires n <= |s|
    ensures multiset(s[..n]) <= multiset(s)
  {
    assert s == s[..n] + s[n..];
    assert multiset(s) == multiset(s[..n]) + multiset(s[n..]);
  }
}
