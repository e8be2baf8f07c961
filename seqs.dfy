/** `Array.prototype.filter` as a function on sequences, with the facts every caller needs. */
module Seqs {

  /** The elements of `s` that satisfy `p`, in their original order. */
  function Filter<T(!new)>(s: seq<T>, p: T -> bool): (r: seq<T>)
    ensures |r| <= |s|
    ensures forall x :: x in r <==> x in s && p(x)
  {
    if s == [] then [] else (if p(s[0]) then [s[0]] else []) + Filter(s[1..], p)
  }

  /** `idx` picks positions of a sequence of length `n`, strictly left to right. */
  predicate Increasing(idx: seq<nat>, n: nat)
  {
    && (forall i :: 0 <= i < |idx| ==> idx[i] < n)
    && (forall i, j :: 0 <= i < j < |idx| ==> idx[i] < idx[j])
  }

  /** The positions from `k` on that `Filter` keeps: `s[k..]` filtered is `s` read at them. */
  function KeptFrom<T(!new)>(s: seq<T>, p: T -> bool, k: nat): (idx: seq<nat>)
    requires k <= |s|
    ensures |idx| == |Filter(s[k..], p)| && Increasing(idx, |s|)
    ensures forall i :: 0 <= i < |idx| ==> k <= idx[i] < |s| && s[idx[i]] == Filter(s[k..], p)[i]
    decreases |s| - k
  {
    if k == |s| then []
    else
      var rest := KeptFrom(s, p, k + 1);
      assert s[k..][1..] == s[k + 1..];
      var head: seq<nat> := if p(s[k]) then [k] else [];
      KeptStep(s, p, k, rest);
      head + rest
  }

  lemma KeptStep<T(!new)>(s: seq<T>, p: T -> bool, k: nat, rest: seq<nat>)
    requires k < |s|
    requires |rest| == |Filter(s[k + 1..], p)| && Increasing(rest, |s|)
    requires forall i :: 0 <= i < |rest| ==> k + 1 <= rest[i] < |s| && s[rest[i]] == Filter(s[k + 1..], p)[i]
    ensures var idx := (if p(s[k]) then [k] else []) + rest;
      && |idx| == |Filter(s[k..], p)| && Increasing(idx, |s|)
      && forall i :: 0 <= i < |idx| ==> k <= idx[i] < |s| && s[idx[i]] == Filter(s[k..], p)[i]
  {
    assert s[k..][1..] == s[k + 1..];
    assert s[k..][0] == s[k];
    assert Filter(s[k..], p) == (if p(s[k]) then [s[k]] else []) + Filter(s[k + 1..], p);
  }

  /** Filtering keeps the relative order of the elements it keeps. */
  lemma FilterInOrder<T(!new)>(s: seq<T>, p: T -> bool)
    ensures exists idx ::
      && |idx| == |Filter(s, p)|
      && Increasing(idx, |s|)
      && forall i :: 0 <= i < |idx| ==> s[idx[i]] == Filter(s, p)[i]
  {
    var idx := KeptFrom(s, p, 0);
    assert s[0..] == s;
    assert |idx| == |Filter(s, p)| && Increasing(idx, |s|);
  }

  /** Filtering distributes over concatenation; with the one-element cases this pins down order. */
  lemma {:induction false} FilterAppend<T(!new)>(a: seq<T>, b: seq<T>, p: T -> bool)
    ensures Filter(a + b, p) == Filter(a, p) + Filter(b, p)
  {
    if a == [] {
      assert a + b == b;
    } else {
      assert (a + b)[0] == a[0];
      assert (a + b)[1..] == a[1..] + b;
      FilterAppend(a[1..], b, p);
    }
  }

  /** Filtering a prefix one element longer adds that element exactly when it qualifies. */
  lemma FilterSnoc<T(!new)>(s: seq<T>, i: nat, p: T -> bool)
    requires i < |s|
    ensures Filter(s[..i + 1], p) == Filter(s[..i], p) + (if p(s[i]) then [s[i]] else [])
  {
    assert s[..i + 1] == s[..i] + [s[i]];
    FilterAppend(s[..i], [s[i]], p);
  }

  /** A filter every element passes returns its input unchanged. */
  lemma {:induction false} FilterAll<T(!new)>(s: seq<T>, p: T -> bool)
    requires forall x :: x in s ==> p(x)
    ensures Filter(s, p) == s
  {
    if s != [] {
      FilterAll(s[1..], p);
    }
  }

  /** `s.reduce((total, x) => total + f(x), 0)`. */
  function SumOf<T>(s: seq<T>, f: T -> int): int
  {
    if s == [] then 0 else SumOf(s[..|s| - 1], f) + f(s[|s| - 1])
  }

  lemma {:induction false} SumAppend<T>(a: seq<T>, b: seq<T>, f: T -> int)
    ensures SumOf(a + b, f) == SumOf(a, f) + SumOf(b, f)
  {
    if b == [] {
      assert a + b == a;
    } else {
      assert (a + b)[..|a + b| - 1] == a + b[..|b| - 1];
      SumAppend(a, b[..|b| - 1], f);
    }
  }

  /** Replacing one element changes the sum by the difference of the two terms, and by nothing else. */
  lemma SumUpdate<T>(s: seq<T>, k: nat, x: T, f: T -> int)
    requires k < |s|
    ensures SumOf(s[k := x], f) == SumOf(s, f) - f(s[k]) + f(x)
  {
    assert s == s[..k] + [s[k]] + s[k + 1..];
    assert s[k := x] == s[..k] + [x] + s[k + 1..];
    SumAppend(s[..k] + [s[k]], s[k + 1..], f);
    SumAppend(s[..k] + [x], s[k + 1..], f);
    SumAppend(s[..k], [s[k]], f);
    SumAppend(s[..k], [x], f);
    assert SumOf([s[k]], f) == f(s[k]) by { assert [s[k]][..0] == []; }
    assert SumOf([x], f) == f(x) by { assert [x][..0] == []; }
  }
}
