/**
 * A stable sort by a numeric key. It stands for the three sorts the system relies on:
 * Mongo's `sort({ timestamp: -1 })`, Python's `sorted(..., key=...)` and JavaScript's
 * `Array.prototype.sort` with a numeric comparator. A descending order is a sort by the
 * negated key.
 */
module Sorting {

  ghost predicate SortedBy<T>(s: seq<T>, key: T -> real) {
    forall i, j :: 0 <= i < j < |s| ==> key(s[i]) <= key(s[j])
  }

  /** The elements of `s` whose key is `v`, in order. */
  function KeyClass<T>(s: seq<T>, key: T -> real, v: real): seq<T> {
    if s == [] then []
    else (if key(s[0]) == v then [s[0]] else []) + KeyClass(s[1..], key, v)
  }

  /** Places `x` in front of the first element whose key is not smaller. */
  function Insert<T>(x: T, s: seq<T>, key: T -> real): (r: seq<T>)
    ensures |r| == |s| + 1
    ensures multiset(r) == multiset(s) + multiset{x}
  {
    if s == [] || key(x) <= key(s[0]) then [x] + s
    else
      assert s == [s[0]] + s[1..];
      [s[0]] + Insert(x, s[1..], key)
  }

  /** Insertion sort: the first element is inserted into the sorted rest. */
  function SortBy<T>(s: seq<T>, key: T -> real): (r: seq<T>)
    ensures |r| == |s|
    ensures multiset(r) == multiset(s)
  {
    if s == [] then []
    else
      assert s == [s[0]] + s[1..];
      Insert(s[0], SortBy(s[1..], key), key)
  }

  /** In a sorted sequence an element with a smaller key than the one at `i` comes before `i`. */
  lemma SmallerKeyFirst<T>(s: seq<T>, key: T -> real, i: int, j: int)
    requires SortedBy(s, key) && 0 <= i < |s| && 0 <= j < |s|
    requires key(s[j]) < key(s[i])
    ensures j < i
  {
  }

  /** Every key of `s` is at least `b`. */
  ghost predicate AllAtLeast<T>(s: seq<T>, key: T -> real, b: real) {
    forall i :: 0 <= i < |s| ==> b <= key(s[i])
  }

  /** Inserting an element above a bound keeps every key above it. */
  lemma {:induction false} InsertAtLeast<T>(x: T, s: seq<T>, key: T -> real, b: real)
    requires AllAtLeast(s, key, b) && b <= key(x)
    ensures AllAtLeast(Insert(x, s, key), key, b)
  {
    if s != [] && key(x) > key(s[0]) {
      InsertAtLeast(x, s[1..], key, b);
      var rest := Insert(x, s[1..], key);
      assert forall i :: 1 <= i < |rest| + 1 ==> ([s[0]] + rest)[i] == rest[i - 1];
    }
  }

  /** A sorted tail whose keys are all at least the head's gives a sorted sequence. */
  lemma ConsSorted<T>(h: T, t: seq<T>, key: T -> real)
    requires SortedBy(t, key) && AllAtLeast(t, key, key(h))
    ensures SortedBy([h] + t, key)
  {
    var r := [h] + t;
    forall i, j | 0 <= i < j < |r|
      ensures key(r[i]) <= key(r[j])
    {
      assert r[j] == t[j - 1];
      if i > 0 {
        assert r[i] == t[i - 1];
      }
    }
  }

  lemma {:induction false} InsertSorted<T>(x: T, s: seq<T>, key: T -> real)
    requires SortedBy(s, key)
    ensures SortedBy(Insert(x, s, key), key)
  {
    if s == [] || key(x) <= key(s[0]) {
      assert AllAtLeast(s, key, key(x));
      ConsSorted(x, s, key);
    } else {
      var tail := s[1..];
      assert SortedBy(tail, key);
      assert AllAtLeast(tail, key, key(s[0])) by {
        assert forall i :: 0 <= i < |tail| ==> tail[i] == s[i + 1];
      }
      InsertSorted(x, tail, key);
      InsertAtLeast(x, tail, key, key(s[0]));
      ConsSorted(s[0], Insert(x, tail, key), key);
    }
  }

  lemma {:induction false} SortBySorted<T>(s: seq<T>, key: T -> real)
    ensures SortedBy(SortBy(s, key), key)
  {
    if s != [] {
      SortBySorted(s[1..], key);
      InsertSorted(s[0], SortBy(s[1..], key), key);
    }
  }

  lemma {:induction false} KeyClassAbsent<T>(s: seq<T>, key: T -> real, v: real)
    requires forall i :: 0 <= i < |s| ==> key(s[i]) != v
    ensures KeyClass(s, key, v) == []
  {
    if s != [] {
      KeyClassAbsent(s[1..], key, v);
    }
  }

  /** Inserting `x` in front of its equals keeps each class in its original order. */
  lemma {:induction false} InsertKeyClass<T>(x: T, s: seq<T>, key: T -> real, v: real)
    requires SortedBy(s, key)
    ensures KeyClass(Insert(x, s, key), key, v)
         == (if key(x) == v then [x] else []) + KeyClass(s, key, v)
  {
    if s == [] || key(x) <= key(s[0]) {
      assert ([x] + s)[1..] == s;
    } else {
      var t := Insert(x, s[1..], key);
      var r := [s[0]] + t;
      assert r[0] == s[0] && r[1..] == t;
      assert SortedBy(s[1..], key);
      InsertKeyClass(x, s[1..], key, v);
      var hs := if key(s[0]) == v then [s[0]] else [];
      var hx := if key(x) == v then [x] else [];
      assert KeyClass(r, key, v) == hs + KeyClass(t, key, v);
      assert KeyClass(s, key, v) == hs + KeyClass(s[1..], key, v);
      assert hs == [] || hx == [];
    }
  }

  /** Stability: for every key value, the elements carrying it keep their input order. */
  lemma {:induction false} SortByStable<T>(s: seq<T>, key: T -> real, v: real)
    ensures KeyClass(SortBy(s, key), key, v) == KeyClass(s, key, v)
  {
    if s != [] {
      SortByStable(s[1..], key, v);
      SortBySorted(s[1..], key);
      InsertKeyClass(s[0], SortBy(s[1..], key), key, v);
    }
  }
}
