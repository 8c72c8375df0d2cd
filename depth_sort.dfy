/**
 * The painter's-algorithm ordering both renderers obtain from `Array.prototype.sort`
 * with a comparator returning `key(b) - key(a)`: a stable sort by non-increasing key.
 */
module DepthSort {

  /** The keys of `s` never increase from one element to the next. */
  predicate SortedDesc<T>(s: seq<T>, key: T -> real)
  {
    forall i, j | 0 <= i < j < |s| :: key(s[i]) >= key(s[j])
  }

  /** Places `x` after every element whose key is at least its own (so equal keys keep their order). */
  function Insert<T>(x: T, s: seq<T>, key: T -> real): (r: seq<T>)
    ensures |r| == |s| + 1
    decreases |s|
  {
    if |s| == 0 then [x]
    else if key(s[0]) < key(x) then [x] + s
    else [s[0]] + Insert(x, s[1..], key)
  }

  /** The sorted order: each element in turn inserted into the sorted prefix before it. */
  function SortDesc<T>(s: seq<T>, key: T -> real): (r: seq<T>)
    ensures |r| == |s|
  {
    if |s| == 0 then [] else Insert(s[|s| - 1], SortDesc(s[..|s| - 1], key), key)
  }

  /** Inserting adds `x` and keeps every element of `s`. */
  lemma {:induction false} InsertPerm<T>(x: T, s: seq<T>, key: T -> real)
    ensures multiset(Insert(x, s, key)) == multiset(s) + multiset{x}
    decreases |s|
  {
    if |s| > 0 {
      assert s == [s[0]] + s[1..];
      if key(s[0]) >= key(x) {
        InsertPerm(x, s[1..], key);
      }
    }
  }

  /** Inserting into a sorted sequence keeps it sorted. */
  lemma {:induction false} InsertSorted<T>(x: T, s: seq<T>, key: T -> real)
    requires SortedDesc(s, key)
    ensures SortedDesc(Insert(x, s, key), key)
    decreases |s|
  {
    if |s| > 0 && key(s[0]) >= key(x) {
      var tail := s[1..];
      var rest := Insert(x, tail, key);
      InsertSorted(x, tail, key);
      forall k | 0 <= k < |rest|
        ensures key(s[0]) >= key(rest[k])
      {
        InsertMember(x, tail, key, rest[k]);
        if rest[k] != x {
          var j :| 0 <= j < |tail| && tail[j] == rest[k];
          assert s[j + 1] == rest[k];
        }
      }
      ConsSorted(s[0], rest, key);
    } else if |s| > 0 {
      ConsSorted(x, s, key);
    }
  }

  /** A head whose key is at least every key of a sorted tail extends it to a sorted sequence. */
  lemma ConsSorted<T>(h: T, rest: seq<T>, key: T -> real)
    requires SortedDesc(rest, key)
    requires forall k | 0 <= k < |rest| :: key(h) >= key(rest[k])
    ensures SortedDesc([h] + rest, key)
  {
    var r := [h] + rest;
    forall i, j | 0 <= i < j < |r|
      ensures key(r[i]) >= key(r[j])
    {
      assert r[j] == rest[j - 1];
      if i > 0 {
        assert r[i] == rest[i - 1];
      }
    }
  }

  /** The sort orders by non-increasing key and is a permutation of its input. */
  lemma {:induction false} SortDescCorrect<T>(s: seq<T>, key: T -> real)
    ensures SortedDesc(SortDesc(s, key), key)
    ensures multiset(SortDesc(s, key)) == multiset(s)
  {
    if |s| > 0 {
      var front := s[..|s| - 1];
      SortDescCorrect(front, key);
      InsertSorted(s[|s| - 1], SortDesc(front, key), key);
      InsertPerm(s[|s| - 1], SortDesc(front, key), key);
      assert front + [s[|s| - 1]] == s;
    }
  }

  /** The elements of `s` whose key is `k`, in their order in `s`. */
  function WithKey<T>(s: seq<T>, key: T -> real, k: real): (r: seq<T>)
    ensures |r| <= |s|
    ensures forall i | 0 <= i < |r| :: key(r[i]) == k
    decreases |s|
  {
    if |s| == 0 then []
    else (if key(s[0]) == k then [s[0]] else []) + WithKey(s[1..], key, k)
  }

  /** An element appended at the end comes last among the elements of its key. */
  lemma {:induction false} WithKeyAppend<T>(s: seq<T>, x: T, key: T -> real, k: real)
    ensures WithKey(s + [x], key, k) == WithKey(s, key, k) + (if key(x) == k then [x] else [])
    decreases |s|
  {
    if |s| > 0 {
      assert (s + [x])[1..] == s[1..] + [x];
      WithKeyAppend(s[1..], x, key, k);
    }
  }

  /** No element has key `k` when every key is below it. */
  lemma {:induction false} WithKeyNone<T>(s: seq<T>, key: T -> real, k: real)
    requires forall i | 0 <= i < |s| :: key(s[i]) < k
    ensures WithKey(s, key, k) == []
    decreases |s|
  {
    if |s| > 0 {
      WithKeyNone(s[1..], key, k);
    }
  }

  /** Inserting into a sorted sequence puts `x` after every element of the same key. */
  lemma {:induction false} InsertStable<T>(x: T, s: seq<T>, key: T -> real, k: real)
    requires SortedDesc(s, key)
    ensures WithKey(Insert(x, s, key), key, k) == WithKey(s, key, k) + (if key(x) == k then [x] else [])
    decreases |s|
  {
    var tailX := if key(x) == k then [x] else [];
    if |s| == 0 {
      assert Insert(x, s, key) == [x];
      assert WithKey([x], key, k) == tailX + WithKey([x][1..], key, k);
    } else if key(s[0]) < key(x) {
      InsertFront(x, s, key, k);
    } else {
      var rest := s[1..];
      assert SortedDesc(rest, key) by {
        forall i, j | 0 <= i < j < |rest| ensures key(rest[i]) >= key(rest[j]) {
          assert rest[i] == s[i + 1] && rest[j] == s[j + 1];
        }
      }
      InsertStable(x, rest, key, k);
      var head := if key(s[0]) == k then [s[0]] else [];
      var ins := Insert(x, rest, key);
      assert Insert(x, s, key) == [s[0]] + ins;
      assert ([s[0]] + ins)[1..] == ins;
      assert WithKey([s[0]] + ins, key, k) == head + WithKey(ins, key, k);
      assert WithKey(s, key, k) == head + WithKey(rest, key, k);
    }
  }

  /** `x` put in front of a sorted sequence whose keys are all below its own. */
  lemma InsertFront<T>(x: T, s: seq<T>, key: T -> real, k: real)
    requires SortedDesc(s, key) && |s| > 0 && key(s[0]) < key(x)
    ensures WithKey(Insert(x, s, key), key, k) == WithKey(s, key, k) + (if key(x) == k then [x] else [])
  {
    assert Insert(x, s, key) == [x] + s;
    assert ([x] + s)[1..] == s;
    if key(x) == k {
      WithKeyNone(s, key, k);
    }
  }

  /**
   * The sort is stable: for every key, the elements of that key come out in the order they
   * went in.
   */
  lemma {:induction false} SortDescStable<T>(s: seq<T>, key: T -> real, k: real)
    ensures WithKey(SortDesc(s, key), key, k) == WithKey(s, key, k)
  {
    if |s| > 0 {
      var front, x := s[..|s| - 1], s[|s| - 1];
      SortDescStable(front, key, k);
      SortDescCorrect(front, key);
      InsertStable(x, SortDesc(front, key), key, k);
      WithKeyAppend(front, x, key, k);
      assert front + [x] == s;
    }
  }

  /** No two elements of `s` share an identifier. */
  predicate DistinctBy<T>(s: seq<T>, ident: T -> int)
  {
    forall i, j | 0 <= i < j < |s| :: ident(s[i]) != ident(s[j])
  }

  /** Inserting an element whose identifier is new keeps the identifiers distinct. */
  lemma {:induction false} InsertDistinct<T>(x: T, s: seq<T>, key: T -> real, ident: T -> int)
    requires DistinctBy(s, ident) && forall y | y in s :: ident(y) != ident(x)
    ensures DistinctBy(Insert(x, s, key), ident)
    decreases |s|
  {
    if |s| > 0 && key(s[0]) >= key(x) {
      var tail := s[1..];
      assert DistinctBy(tail, ident) by {
        forall i, j | 0 <= i < j < |tail| ensures ident(tail[i]) != ident(tail[j]) {
          assert tail[i] == s[i + 1] && tail[j] == s[j + 1];
        }
      }
      InsertDistinct(x, tail, key, ident);
      var rest := Insert(x, tail, key);
      forall k | 0 <= k < |rest|
        ensures ident(s[0]) != ident(rest[k])
      {
        InsertMember(x, tail, key, rest[k]);
        if rest[k] != x {
          var j :| 0 <= j < |tail| && tail[j] == rest[k];
          assert s[j + 1] == rest[k];
        } else {
          assert s[0] in s;
        }
      }
      var r := Insert(x, s, key);
      assert r == [s[0]] + rest;
      forall i, j | 0 <= i < j < |r|
        ensures ident(r[i]) != ident(r[j])
      {
        if i == 0 {
          assert r[j] == rest[j - 1];
        } else {
          assert r[i] == rest[i - 1] && r[j] == rest[j - 1];
        }
      }
    } else if |s| > 0 {
      var r := Insert(x, s, key);
      assert r == [x] + s;
      forall i, j | 0 <= i < j < |r|
        ensures ident(r[i]) != ident(r[j])
      {
        assert r[j] == s[j - 1];
        if i > 0 {
          assert r[i] == s[i - 1];
        }
      }
    }
  }

  /** Sorting keeps the labels of its input distinct. */
  lemma {:induction false} SortDescDistinct<T>(s: seq<T>, key: T -> real, ident: T -> int)
    requires DistinctBy(s, ident)
    ensures DistinctBy(SortDesc(s, key), ident)
  {
    if |s| > 0 {
      var n := |s| - 1;
      var front := s[..n];
      FrontDistinct(s, ident);
      SortDescDistinct(front, key, ident);
      forall y | y in SortDesc(front, key)
        ensures ident(y) != ident(s[n])
      {
        SortDescMember(front, key, y);
        var j :| 0 <= j < n && front[j] == y;
        assert s[j] == y;
      }
      InsertDistinct(s[n], SortDesc(front, key), key, ident);
    }
  }

  /** Dropping the last element keeps the labels distinct. */
  lemma FrontDistinct<T>(s: seq<T>, ident: T -> int)
    requires DistinctBy(s, ident) && |s| > 0
    ensures DistinctBy(s[..|s| - 1], ident)
  {
    var front := s[..|s| - 1];
    forall i, j | 0 <= i < j < |front| ensures ident(front[i]) != ident(front[j]) {
      assert front[i] == s[i] && front[j] == s[j];
    }
  }

  /** Every element of the sorted sequence is an element of the input. */
  lemma SortDescMember<T>(s: seq<T>, key: T -> real, y: T)
    requires y in SortDesc(s, key)
    ensures y in s
  {
    SortDescCorrect(s, key);
    assert y in multiset(SortDesc(s, key));
  }

  /** Every element of the result is `x` or an element of `s`. */
  lemma InsertMember<T>(x: T, s: seq<T>, key: T -> real, y: T)
    requires y in Insert(x, s, key)
    ensures y == x || y in s
  {
    InsertPerm(x, s, key);
    assert y in multiset(Insert(x, s, key));
  }
}
