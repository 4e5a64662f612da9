/**
 * `Array.prototype.sort` with a comparator that orders by one string key.
 * The engine's algorithm is not part of the app; what the app relies on is
 * that the result is a permutation of the input, ordered by the key.
 */
module Sorting {
  import opened Text
  import Seqs

  /** x may stand before y: non-decreasing, or non-increasing when descending. */
  predicate InOrder(x: string, y: string, descending: bool) {
    if descending then LexLe(y, x) else LexLe(x, y)
  }

  predicate SortedBy<T>(s: seq<T>, key: T -> string, descending: bool) {
    forall i, j :: 0 <= i < j < |s| ==> InOrder(key(s[i]), key(s[j]), descending)
  }

  lemma InOrderTotal(x: string, y: string, descending: bool)
    ensures InOrder(x, y, descending) || InOrder(y, x, descending)
  {
    LexLeTotal(x, y);
  }

  lemma InOrderTransitive(x: string, y: string, z: string, descending: bool)
    requires InOrder(x, y, descending) && InOrder(y, z, descending)
    ensures InOrder(x, z, descending)
  {
    if descending {
      LexLeTransitive(z, y, x);
    } else {
      LexLeTransitive(x, y, z);
    }
  }

  lemma InOrderAntisymmetric(x: string, y: string, descending: bool)
    requires InOrder(x, y, descending) && InOrder(y, x, descending)
    ensures x == y
  {
    LexLeAntisymmetric(x, y);
  }

  /** Inserts x into a sequence, before the first element it may precede. */
  function Insert<T>(s: seq<T>, x: T, key: T -> string, descending: bool): seq<T>
  {
    if s == [] then [x]
    else if InOrder(key(x), key(s[0]), descending) then [x] + s
    else [s[0]] + Insert(s[1..], x, key, descending)
  }

  /** Inserting adds x and keeps everything else. */
  lemma {:induction false} InsertPermutes<T>(s: seq<T>, x: T, key: T -> string, descending: bool)
    ensures multiset(Insert(s, x, key, descending)) == multiset(s) + multiset{x}
  {
    if s != [] && !InOrder(key(x), key(s[0]), descending) {
      InsertPermutes(s[1..], x, key, descending);
      assert s == [s[0]] + s[1..];
    }
  }

  /** A head that may precede every element of a sorted tail gives a sorted sequence. */
  lemma ConsSorted<T>(h: T, t: seq<T>, key: T -> string, descending: bool)
    requires SortedBy(t, key, descending)
    requires forall k :: 0 <= k < |t| ==> InOrder(key(h), key(t[k]), descending)
    ensures SortedBy([h] + t, key, descending)
  {
    var r := [h] + t;
    forall i, j | 0 <= i < j < |r|
      ensures InOrder(key(r[i]), key(r[j]), descending)
    {
      assert r[j] == t[j - 1];
      if i > 0 {
        assert r[i] == t[i - 1];
      }
    }
  }

  /** Every element of the result is x or one of s. */
  lemma InsertMembers<T>(s: seq<T>, x: T, key: T -> string, descending: bool, k: nat)
    requires k < |Insert(s, x, key, descending)|
    ensures Insert(s, x, key, descending)[k] == x || Insert(s, x, key, descending)[k] in s
  {
    var r := Insert(s, x, key, descending);
    InsertPermutes(s, x, key, descending);
    assert r[k] in multiset(r);
  }

  /** Inserting into a sorted sequence keeps it sorted. */
  lemma {:induction false} InsertSorted<T>(s: seq<T>, x: T, key: T -> string, descending: bool)
    requires SortedBy(s, key, descending)
    ensures SortedBy(Insert(s, x, key, descending), key, descending)
  {
    if s == [] {
    } else if InOrder(key(x), key(s[0]), descending) {
      forall k | 0 <= k < |s|
        ensures InOrder(key(x), key(s[k]), descending)
      {
        if k > 0 {
          InOrderTransitive(key(x), key(s[0]), key(s[k]), descending);
        }
      }
      ConsSorted(x, s, key, descending);
    } else {
      InOrderTotal(key(x), key(s[0]), descending);
      SortedTail(s, key, descending);
      InsertSorted(s[1..], x, key, descending);
      var rest := Insert(s[1..], x, key, descending);
      forall k | 0 <= k < |rest|
        ensures InOrder(key(s[0]), key(rest[k]), descending)
      {
        InsertMembers(s[1..], x, key, descending, k);
        if rest[k] != x {
          var m :| 0 <= m < |s[1..]| && s[1..][m] == rest[k];
          assert s[m + 1] == rest[k];
        }
      }
      ConsSorted(s[0], rest, key, descending);
    }
  }

  /** The sort the app asks of the engine. */
  method SortBy<T>(s: seq<T>, key: T -> string, descending: bool) returns (r: seq<T>)
    ensures multiset(r) == multiset(s)
    ensures SortedBy(r, key, descending)
  {
    r := [];
    var i := 0;
    while i < |s|
      invariant 0 <= i <= |s|
      invariant multiset(r) == multiset(s[..i])
      invariant SortedBy(r, key, descending)
    {
      assert s[..i + 1] == s[..i] + [s[i]];
      InsertPermutes(r, s[i], key, descending);
      InsertSorted(r, s[i], key, descending);
      r := Insert(r, s[i], key, descending);
      i := i + 1;
    }
    assert s[..i] == s;
  }

  /**
   * Any two sorted permutations of the same elements agree on their keys:
   * sorting is determined up to the order of equal keys, so sorting twice
   * changes nothing.
   */
  lemma SortedKeysAgree<T>(a: seq<T>, b: seq<T>, key: T -> string, descending: bool)
    requires multiset(a) == multiset(b)
    requires SortedBy(a, key, descending) && SortedBy(b, key, descending)
    ensures Seqs.Map(key, a) == Seqs.Map(key, b)
  {
    Seqs.MapMultiset(key, a, b);
    SortedStringsEqual(Seqs.Map(key, a), Seqs.Map(key, b), descending);
  }

  /** Two sorted sequences of strings with the same elements are equal. */
  lemma {:induction false} SortedStringsEqual(a: seq<string>, b: seq<string>, descending: bool)
    requires multiset(a) == multiset(b)
    requires SortedBy(a, Id, descending) && SortedBy(b, Id, descending)
    ensures a == b
    decreases |a|
  {
    if a != [] {
      SameHeads(a, b, descending);
      SameTails(a, b);
      SortedTail(a, Id, descending);
      SortedTail(b, Id, descending);
      SortedStringsEqual(a[1..], b[1..], descending);
      assert a == [a[0]] + a[1..];
      assert b == [b[0]] + b[1..];
    }
  }

  /** Sorted sequences with the same elements start with the same one. */
  lemma SameHeads(a: seq<string>, b: seq<string>, descending: bool)
    requires multiset(a) == multiset(b) && a != []
    requires SortedBy(a, Id, descending) && SortedBy(b, Id, descending)
    ensures b != [] && a[0] == b[0]
  {
    assert a[0] in multiset(b);
    assert b != [];
    assert b[0] in multiset(a);
    var j :| 0 <= j < |b| && b[j] == a[0];
    var i :| 0 <= i < |a| && a[i] == b[0];
    HeadFirst(b, j, descending);
    HeadFirst(a, i, descending);
    InOrderAntisymmetric(a[0], b[0], descending);
  }

  lemma SameTails<T>(a: seq<T>, b: seq<T>)
    requires multiset(a) == multiset(b) && a != [] && b != [] && a[0] == b[0]
    ensures multiset(a[1..]) == multiset(b[1..])
  {
    assert a == [a[0]] + a[1..] && b == [b[0]] + b[1..];
    assert multiset(a[1..]) == multiset(a) - multiset{a[0]};
    assert multiset(b[1..]) == multiset(b) - multiset{b[0]};
  }

  lemma HeadFirst(a: seq<string>, k: nat, descending: bool)
    requires SortedBy(a, Id, descending) && k < |a|
    ensures InOrder(a[0], a[k], descending)
  {
    if k == 0 {
      LexLessIrreflexive(a[0]);
    } else {
      assert InOrder(Id(a[0]), Id(a[k]), descending);
    }
  }

  lemma SortedTail<T>(a: seq<T>, key: T -> string, descending: bool)
    requires SortedBy(a, key, descending) && a != []
    ensures SortedBy(a[1..], key, descending)
  {
    forall i, j | 0 <= i < j < |a| - 1
      ensures InOrder(key(a[1..][i]), key(a[1..][j]), descending)
    {
      assert a[1..][i] == a[i + 1] && a[1..][j] == a[j + 1];
    }
  }

  function Id(s: string): string { s }
}
