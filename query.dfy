/** The few ORM query shapes the views use, over a table held as a sequence
    of rows in insertion order: filter(), exists(), count(), get(), first(),
    and an insert guarded by a unique constraint. */
module Query {
  import opened Base

  /** filter(): the rows that satisfy `p`, in table order. */
  function Filter<T>(s: seq<T>, p: T -> bool): (r: seq<T>)
    ensures |r| <= |s|
    ensures forall i :: 0 <= i < |r| ==> p(r[i])
    ensures forall i :: 0 <= i < |s| && p(s[i]) ==> s[i] in r
    ensures forall x :: x in r ==> x in s
    ensures (forall i :: 0 <= i < |s| ==> !p(s[i])) <==> r == []
  {
    if s == [] then []
    else
      var rest := Filter(s[1..], p);
      assert forall i :: 1 <= i < |s| ==> s[i] == s[1..][i - 1];
      if p(s[0]) then [s[0]] + rest else rest
  }

  /** exists() */
  predicate Exists<T>(s: seq<T>, p: T -> bool)
  {
    exists i :: 0 <= i < |s| && p(s[i])
  }

  /** count() */
  function Count<T>(s: seq<T>, p: T -> bool): (n: nat)
    ensures n <= |s|
    ensures n == 0 <==> !Exists(s, p)
  {
    |Filter(s, p)|
  }

  /** The position of the first row satisfying `p`. */
  function FindFirst<T>(s: seq<T>, p: T -> bool): (r: Option<nat>)
    ensures r.Some? ==> r.value < |s| && p(s[r.value])
    ensures r.Some? ==> forall j :: 0 <= j < r.value ==> !p(s[j])
    ensures r.None? <==> !Exists(s, p)
  {
    if s == [] then None
    else if p(s[0]) then Some(0)
    else
      match FindFirst(s[1..], p)
      case None => None
      case Some(k) => Some(k + 1)
  }

  /** Whether a second row after position `i` satisfies `p`. */
  function FindAfter<T>(s: seq<T>, p: T -> bool, i: nat): (r: Option<nat>)
    requires i < |s|
    ensures r.Some? ==> i < r.value < |s| && p(s[r.value])
    ensures r.None? <==> forall j :: i < j < |s| ==> !p(s[j])
  {
    match FindFirst(s[i + 1..], p)
    case None => None
    case Some(k) => Some(i + 1 + k)
  }

  /** The three outcomes of QuerySet.get(). */
  datatype Lookup = DoesNotExist | Found(index: nat) | MultipleObjectsReturned

  /** get(): the one row satisfying `p`, or which of the two exceptions. */
  function Get<T>(s: seq<T>, p: T -> bool): (r: Lookup)
    ensures r.DoesNotExist? <==> !Exists(s, p)
    ensures r.Found? ==> r.index < |s| && p(s[r.index])
    ensures r.Found? ==> forall j :: 0 <= j < |s| && j != r.index ==> !p(s[j])
    ensures r.MultipleObjectsReturned? ==>
      exists i, j :: 0 <= i < j < |s| && p(s[i]) && p(s[j])
  {
    match FindFirst(s, p)
    case None => DoesNotExist
    case Some(i) =>
      match FindAfter(s, p, i)
      case None => Found(i)
      case Some(j) => MultipleObjectsReturned
  }

  /** No two rows share a key: a unique or unique_together constraint. */
  predicate KeyUnique<T, K(==)>(s: seq<T>, key: T -> K)
  {
    forall i, j :: 0 <= i < j < |s| ==> key(s[i]) != key(s[j])
  }

  /** Under a unique key, get() on that key never finds two rows. */
  lemma GetUnderUniqueKey<T, K>(s: seq<T>, key: T -> K, k: K)
    requires KeyUnique(s, key)
    ensures !Get(s, x => key(x) == k).MultipleObjectsReturned?
  {
  }

  /** An INSERT checked against a unique constraint: it fails, keeping the
      table, exactly when a row with the same key is already there. */
  function InsertUnique<T, K(==)>(s: seq<T>, row: T, key: T -> K): (r: Option<seq<T>>)
    ensures r.None? <==> exists i :: 0 <= i < |s| && key(s[i]) == key(row)
    ensures r.Some? ==> r.value == s + [row]
    ensures r.Some? && KeyUnique(s, key) ==> KeyUnique(r.value, key)
  {
    if exists i :: 0 <= i < |s| && key(s[i]) == key(row) then None else Some(s + [row])
  }

  /** Replacing one row by one with the same key keeps keys unique. */
  lemma UpdateKeepsKeyUnique<T, K>(s: seq<T>, i: nat, row: T, key: T -> K)
    requires i < |s| && KeyUnique(s, key) && key(row) == key(s[i])
    ensures KeyUnique(s[i := row], key)
  {
  }

  /** Removing a row keeps keys unique. */
  lemma RemoveKeepsKeyUnique<T, K>(s: seq<T>, i: nat, key: T -> K)
    requires i < |s| && KeyUnique(s, key)
    ensures KeyUnique(s[..i] + s[i + 1..], key)
  {
    var t := s[..i] + s[i + 1..];
    forall a, b | 0 <= a < b < |t| ensures key(t[a]) != key(t[b]) {
      var a', b' := if a < i then a else a + 1, if b < i then b else b + 1;
      assert t[a] == s[a'] && t[b] == s[b'];
    }
  }

  /** The first `n` rows, as a slice [:n] takes them. */
  function Take<T>(s: seq<T>, n: nat): (r: seq<T>)
    ensures |r| <= n && |r| <= |s|
    ensures |s| <= n ==> r == s
    ensures forall i :: 0 <= i < |r| ==> r[i] == s[i]
  {
    if |s| <= n then s else s[..n]
  }
}
