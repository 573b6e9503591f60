/**
 * Sorting by a string key, as `Array.prototype.sort` does with a comparator
 * over string keys: the result is ordered by the key and is a permutation of
 * the input.
 */
module Sorting {
  import opened Strings

  /** `a` may come before `b`: ascending, or descending when `desc`. */
  predicate InOrder(a: string, b: string, desc: bool)
  {
    if desc then StrLe(b, a) else StrLe(a, b)
  }

  ghost predicate SortedBy<T>(s: seq<T>, key: T -> string, desc: bool)
  {
    forall i, j :: 0 <= i < j < |s| ==> InOrder(key(s[i]), key(s[j]), desc)
  }

  /** Inserts `x` in front of the first element it may precede. */
  function Insert<T>(x: T, s: seq<T>, key: T -> string, desc: bool): (r: seq<T>)
    requires SortedBy(s, key, desc)
    ensures SortedBy(r, key, desc)
    ensures multiset(r) == multiset(s) + multiset{x}
  {
    if s == [] || InOrder(key(x), key(s[0]), desc) then
      InsertFront(x, s, key, desc);
      [x] + s
    else
      var t := Insert(x, s[1..], key, desc);
      InsertBehind(x, s, t, key, desc);
      [s[0]] + t
  }

  lemma InsertFront<T>(x: T, s: seq<T>, key: T -> string, desc: bool)
    requires SortedBy(s, key, desc)
    requires s == [] || InOrder(key(x), key(s[0]), desc)
    ensures SortedBy([x] + s, key, desc)
  {
    var r := [x] + s;
    forall i, j | 0 <= i < j < |r| ensures InOrder(key(r[i]), key(r[j]), desc) {
      if i == 0 && j > 1 {
        if desc {
          StrLeTrans(key(s[j - 1]), key(s[0]), key(x));
        } else {
          StrLeTrans(key(x), key(s[0]), key(s[j - 1]));
        }
      }
    }
  }

  lemma InsertBehind<T>(x: T, s: seq<T>, t: seq<T>, key: T -> string, desc: bool)
    requires s != [] && SortedBy(s, key, desc) && !InOrder(key(x), key(s[0]), desc)
    requires SortedBy(t, key, desc) && multiset(t) == multiset(s[1..]) + multiset{x}
    ensures SortedBy([s[0]] + t, key, desc)
    ensures multiset([s[0]] + t) == multiset(s) + multiset{x}
  {
    StrLeTotal(key(x), key(s[0]));
    var r := [s[0]] + t;
    forall j | 1 <= j < |r| ensures InOrder(key(r[0]), key(r[j]), desc) {
      assert r[j] in multiset(t);
      if r[j] != x {
        assert r[j] in multiset(s[1..]);
        var k :| 0 <= k < |s[1..]| && s[1..][k] == r[j];
        assert s[k + 1] == r[j];
      }
    }
    assert s == [s[0]] + s[1..];
  }

  /** Insertion sort by `key`; ascending, or descending when `desc`. */
  function SortBy<T>(s: seq<T>, key: T -> string, desc: bool): (r: seq<T>)
    ensures SortedBy(r, key, desc)
    ensures multiset(r) == multiset(s)
  {
    if s == [] then []
    else
      assert s == [s[0]] + s[1..];
      Insert(s[0], SortBy(s[1..], key, desc), key, desc)
  }
}
