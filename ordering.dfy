/** order_by() on one timestamp column: an insertion sort by a key,
    newest first ('-created_at') or oldest first ('created_at'). */
module Ordering {

  predicate SortedDesc<T>(s: seq<T>, key: T -> int)
  {
    forall i, j :: 0 <= i < j < |s| ==> key(s[i]) >= key(s[j])
  }

  predicate SortedAsc<T>(s: seq<T>, key: T -> int)
  {
    forall i, j :: 0 <= i < j < |s| ==> key(s[i]) <= key(s[j])
  }

  /** Puts `x` into a list sorted newest first, before the first row whose
      key is not larger. */
  function InsertDesc<T(==)>(x: T, s: seq<T>, key: T -> int): (r: seq<T>)
    requires SortedDesc(s, key)
    ensures SortedDesc(r, key)
    ensures multiset(r) == multiset(s) + multiset{x}
    ensures |r| == |s| + 1
    ensures r[0] == x || (|s| > 0 && r[0] == s[0])
  {
    if s == [] then [x]
    else if key(s[0]) > key(x) then
      var rest := InsertDesc(x, s[1..], key);
      assert s == [s[0]] + s[1..];
      ConsSortedDesc(s[0], rest, key);
      [s[0]] + rest
    else
      ConsSortedDesc(x, s, key);
      [x] + s
  }

  /** A row with a key at least that of the head of a sorted list can go
      in front of it. */
  lemma ConsSortedDesc<T>(a: T, rest: seq<T>, key: T -> int)
    requires SortedDesc(rest, key) && (|rest| > 0 ==> key(rest[0]) <= key(a))
    ensures SortedDesc([a] + rest, key)
  {
    var r := [a] + rest;
    forall i, j | 0 <= i < j < |r| ensures key(r[i]) >= key(r[j]) {
      if i == 0 && j > 1 {
        assert r[j] == rest[j - 1] && key(rest[0]) >= key(rest[j - 1]);
      }
    }
  }

  /** order_by('-key') */
  function SortDesc<T(==)>(s: seq<T>, key: T -> int): (r: seq<T>)
    ensures SortedDesc(r, key)
    ensures multiset(r) == multiset(s)
    ensures |r| == |s|
  {
    if s == [] then []
    else
      assert s == [s[0]] + s[1..];
      InsertDesc(s[0], SortDesc(s[1..], key), key)
  }

  /** order_by('key') */
  function SortAsc<T(==)>(s: seq<T>, key: T -> int): (r: seq<T>)
    ensures SortedAsc(r, key)
    ensures multiset(r) == multiset(s)
    ensures |r| == |s|
  {
    SortDesc(s, x => -key(x))
  }

  /** A sorted permutation holds exactly the rows it was made from. */
  lemma SortedMembers<T>(s: seq<T>, r: seq<T>)
    requires multiset(r) == multiset(s)
    ensures forall x :: x in r <==> x in s
  {
    forall x ensures x in r <==> x in s {
      assert x in r <==> x in multiset(r);
      assert x in s <==> x in multiset(s);
    }
  }

  /** .first() on a list sorted newest first is a row with the largest key. */
  lemma FirstIsNewest<T>(r: seq<T>, key: T -> int)
    requires SortedDesc(r, key) && |r| > 0
    ensures forall x :: x in r ==> key(x) <= key(r[0])
  {
    forall x | x in r ensures key(x) <= key(r[0]) {
      var i :| 0 <= i < |r| && r[i] == x;
      if i > 0 {
        assert key(r[0]) >= key(r[i]);
      }
    }
  }
}
