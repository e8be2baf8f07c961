/**
 * Sorting by a string key, standing in for `Array.prototype.sort` with a `localeCompare`
 * comparator. The locale's collation is replaced by code-point lexicographic order.
 */
module Sorting {
  import Seqs

  /** `a` comes no later than `b` in code-point lexicographic order. */
  predicate LexLe(a: string, b: string)
  {
    a == [] || (b != [] && (a[0] < b[0] || (a[0] == b[0] && LexLe(a[1..], b[1..]))))
  }

  lemma {:induction false} LexTotal(a: string, b: string)
    ensures LexLe(a, b) || LexLe(b, a)
  {
    if a != [] && b != [] && a[0] == b[0] {
      LexTotal(a[1..], b[1..]);
    }
  }

  lemma {:induction false} LexTransitive(a: string, b: string, c: string)
    requires LexLe(a, b) && LexLe(b, c)
    ensures LexLe(a, c)
  {
    if a != [] && a[0] == b[0] && b[0] == c[0] {
      LexTransitive(a[1..], b[1..], c[1..]);
    }
  }

  /** Keys ascend along `s`. */
  predicate SortedBy<T>(s: seq<T>, key: T -> string)
  {
    forall i, j :: 0 <= i < j < |s| ==> LexLe(key(s[i]), key(s[j]))
  }

  /** No two positions of `s` carry the same identifier. */
  predicate DistinctBy<T>(s: seq<T>, id: T -> int)
  {
    forall i, j :: 0 <= i < j < |s| ==> id(s[i]) != id(s[j])
  }

  /** Inserts `x` before the first element whose key is not below it. */
  function Insert<T>(x: T, s: seq<T>, key: T -> string): seq<T>
  {
    if s == [] || LexLe(key(x), key(s[0])) then [x] + s
    else [s[0]] + Insert(x, s[1..], key)
  }

  lemma {:induction false} InsertPermutes<T>(x: T, s: seq<T>, key: T -> string)
    ensures multiset(Insert(x, s, key)) == multiset(s) + multiset{x}
  {
    if s != [] && !LexLe(key(x), key(s[0])) {
      InsertPermutes(x, s[1..], key);
      assert s == [s[0]] + s[1..];
    }
  }

  lemma ConsSorted<T>(a: T, t: seq<T>, key: T -> string)
    requires SortedBy(t, key)
    requires forall k :: 0 <= k < |t| ==> LexLe(key(a), key(t[k]))
    ensures SortedBy([a] + t, key)
  {
    forall i, j | 0 <= i < j < |t| + 1
      ensures LexLe(key(([a] + t)[i]), key(([a] + t)[j]))
    {
      if i > 0 {
        assert ([a] + t)[i] == t[i - 1] && ([a] + t)[j] == t[j - 1];
      } else {
        assert ([a] + t)[j] == t[j - 1];
      }
    }
  }

  lemma {:induction false} InsertSorted<T>(x: T, s: seq<T>, key: T -> string)
    requires SortedBy(s, key)
    ensures SortedBy(Insert(x, s, key), key)
  {
    if s == [] {
    } else if LexLe(key(x), key(s[0])) {
      forall k | 0 <= k < |s|
        ensures LexLe(key(x), key(s[k]))
      {
        if k > 0 {
          LexTransitive(key(x), key(s[0]), key(s[k]));
        }
      }
      ConsSorted(x, s, key);
    } else {
      LexTotal(key(x), key(s[0]));
      var t := Insert(x, s[1..], key);
      InsertSorted(x, s[1..], key);
      InsertPermutes(x, s[1..], key);
      forall k | 0 <= k < |t|
        ensures LexLe(key(s[0]), key(t[k]))
      {
        assert t[k] in multiset(t);
        if t[k] != x {
          assert t[k] in s[1..];
          var m :| 0 <= m < |s| - 1 && s[1..][m] == t[k];
          assert s[m + 1] == t[k];
        }
      }
      ConsSorted(s[0], t, key);
    }
  }

  /** Insertion sort by key: the result is ordered and is a rearrangement of the input. */
  function SortBy<T>(s: seq<T>, key: T -> string): (r: seq<T>)
    ensures multiset(r) == multiset(s)
    ensures SortedBy(r, key)
  {
    if s == [] then []
    else
      var rest := SortBy(s[1..], key);
      InsertPermutes(s[0], rest, key);
      InsertSorted(s[0], rest, key);
      assert s == [s[0]] + s[1..];
      Insert(s[0], rest, key)
  }

  lemma ConsDistinct<T>(a: T, t: seq<T>, id: T -> int)
    requires DistinctBy(t, id)
    requires forall k :: 0 <= k < |t| ==> id(t[k]) != id(a)
    ensures DistinctBy([a] + t, id)
  {
    forall i, j | 0 <= i < j < |t| + 1
      ensures id(([a] + t)[i]) != id(([a] + t)[j])
    {
      assert ([a] + t)[j] == t[j - 1];
      if i > 0 {
        assert ([a] + t)[i] == t[i - 1];
      }
    }
  }

  lemma {:induction false} InsertDistinct<T>(x: T, s: seq<T>, key: T -> string, id: T -> int)
    requires DistinctBy(s, id)
    requires forall k :: 0 <= k < |s| ==> id(s[k]) != id(x)
    ensures DistinctBy(Insert(x, s, key), id)
  {
    if s == [] || LexLe(key(x), key(s[0])) {
      ConsDistinct(x, s, id);
    } else {
      var t := Insert(x, s[1..], key);
      InsertDistinct(x, s[1..], key, id);
      InsertPermutes(x, s[1..], key);
      forall k | 0 <= k < |t|
        ensures id(t[k]) != id(s[0])
      {
        assert t[k] in multiset(t);
        if t[k] != x {
          assert t[k] in s[1..];
          var m :| 0 <= m < |s| - 1 && s[1..][m] == t[k];
          assert s[m + 1] == t[k];
        }
      }
      ConsDistinct(s[0], t, id);
    }
  }

  /** Sorting never makes two entries share an identifier. */
  lemma {:induction false} SortDistinct<T>(s: seq<T>, key: T -> string, id: T -> int)
    requires DistinctBy(s, id)
    ensures DistinctBy(SortBy(s, key), id)
  {
    if s != [] {
      var rest := SortBy(s[1..], key);
      SortDistinct(s[1..], key, id);
      forall k | 0 <= k < |rest|
        ensures id(rest[k]) != id(s[0])
      {
        assert rest[k] in multiset(rest);
        assert rest[k] in s[1..];
        var m :| 0 <= m < |s| - 1 && s[1..][m] == rest[k];
        assert s[m + 1] == rest[k];
      }
      InsertDistinct(s[0], rest, key, id);
    }
  }

  /** Dropping entries never makes two of the remaining ones share an identifier. */
  lemma {:induction false} FilterDistinct<T(!new)>(s: seq<T>, p: T -> bool, id: T -> int)
    requires DistinctBy(s, id)
    ensures DistinctBy(Seqs.Filter(s, p), id)
  {
    if s != [] {
      var t := Seqs.Filter(s[1..], p);
      assert DistinctBy(s[1..], id) by {
        forall i, j | 0 <= i < j < |s| - 1 ensures id(s[1..][i]) != id(s[1..][j]) {
          assert s[1..][i] == s[i + 1] && s[1..][j] == s[j + 1];
        }
      }
      FilterDistinct(s[1..], p, id);
      if p(s[0]) {
        forall k | 0 <= k < |t|
          ensures id(t[k]) != id(s[0])
        {
          assert t[k] in s[1..];
          var m :| 0 <= m < |s| - 1 && s[1..][m] == t[k];
          assert s[m + 1] == t[k];
        }
        ConsDistinct(s[0], t, id);
      } else {
        assert Seqs.Filter(s, p) == t;
      }
    }
  }
}
