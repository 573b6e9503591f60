/**
 * Values shared by the server models: optional values and the JSON values
 * that messages, payloads and activities carry.
 */
module Common {

  datatype Option<T> = None | Some(value: T)
  {
    function GetOr(default: T): T
    {
      if Some? then value else default
    }
  }

  /** A JSON value. Numbers are integers here: no modelled code path depends
      on fractional numbers. An absent object key stands for `undefined`. */
  datatype Json =
    | JNull
    | JBool(b: bool)
    | JNum(n: int)
    | JStr(s: string)
    | JArr(items: seq<Json>)
    | JObj(fields: map<string, Json>)

  /** JavaScript truthiness of a value that may be `undefined` (None). */
  predicate Truthy(v: Option<Json>)
  {
    match v
    case None => false
    case Some(j) =>
      match j
      case JNull => false
      case JBool(b) => b
      case JNum(n) => n != 0
      case JStr(s) => s != ""
      case _ => true
    }

  /** `obj[key]` on a JSON value: `undefined` (None) when `obj` is not an
      object or lacks the key. */
  function Field(obj: Json, key: string): Option<Json>
  {
    if obj.JObj? && key in obj.fields then Some(obj.fields[key]) else None
  }

  /** The string held by `obj[key]`, when it is a string. */
  function StringField(obj: Json, key: string): Option<string>
  {
    match Field(obj, key)
    case Some(JStr(s)) => Some(s)
    case _ => None
  }

  /** `s.findIndex(x => key(x) === k)`: the first index whose key is `k`,
      or -1 when there is none. */
  function IndexOfKey<T>(s: seq<T>, key: T -> string, k: string): (i: int)
    ensures -1 <= i < |s|
    ensures i >= 0 ==> key(s[i]) == k && forall j :: 0 <= j < i ==> key(s[j]) != k
    ensures i == -1 ==> forall j :: 0 <= j < |s| ==> key(s[j]) != k
  {
    if s == [] then -1
    else if key(s[0]) == k then 0
    else
      var j := IndexOfKey(s[1..], key, k);
      if j == -1 then -1 else j + 1
  }

  /** `s.find(x => key(x) === k)`: the first element whose key is `k`, if any. */
  function FindByKey<T>(s: seq<T>, key: T -> string, k: string): (r: Option<T>)
    ensures r.Some? ==> r.value in s && key(r.value) == k
    ensures r.None? <==> forall x :: x in s ==> key(x) != k
    ensures r.Some? ==> r.value == s[IndexOfKey(s, key, k)]
  {
    if s == [] then None
    else if key(s[0]) == k then Some(s[0])
    else
      var r := FindByKey(s[1..], key, k);
      assert r.Some? ==> IndexOfKey(s, key, k) == IndexOfKey(s[1..], key, k) + 1;
      r
  }

  /** `s.filter(p)`: the elements satisfying `p`, in their order. */
  function Filter<T(==,!new)>(s: seq<T>, p: T -> bool): (r: seq<T>)
    ensures |r| <= |s|
    ensures forall x :: x in r <==> x in s && p(x)
  {
    if s == [] then [] else (if p(s[0]) then [s[0]] else []) + Filter(s[1..], p)
  }

  /** Filtering works piece by piece, so the kept elements keep their order. */
  lemma {:induction false} FilterAppend<T(!new)>(a: seq<T>, b: seq<T>, p: T -> bool)
    ensures Filter(a + b, p) == Filter(a, p) + Filter(b, p)
  {
    if a == [] {
      assert a + b == b;
    } else {
      assert (a + b)[1..] == a[1..] + b;
      FilterAppend(a[1..], b, p);
    }
  }

  /** Filtering a list whose every element passes gives the list back. */
  lemma {:induction false} FilterKeepsAll<T(!new)>(s: seq<T>, p: T -> bool)
    requires forall x :: x in s ==> p(x)
    ensures Filter(s, p) == s
  {
    if s != [] {
      FilterKeepsAll(s[1..], p);
      assert s == [s[0]] + s[1..];
    }
  }

  /** Filtering keeps every copy of a kept element and drops every copy of the others. */
  lemma {:induction false} FilterCount<T(!new)>(s: seq<T>, p: T -> bool, x: T)
    ensures multiset(Filter(s, p))[x] == if p(x) then multiset(s)[x] else 0
  {
    if s != [] {
      FilterCount(s[1..], p, x);
      assert s == [s[0]] + s[1..];
    }
  }
}
