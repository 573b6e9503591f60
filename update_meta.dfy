/**
 * The `admin/update-meta` handler: it turns the request parameters into the
 * set of instance-settings fields to update, normalising host lists and empty
 * strings on the way, and rejects requests whose followed-user lists overlap
 * or whose contact-form categories are inconsistent.
 */
module UpdateMeta {
  import opened Common
  import opened Strings
  import opened Sorting

  /** A request parameter: left out (`undefined`), `null`, or a value. */
  datatype Param<T> = Absent | Null | Present(v: T)

  /** The value of a nullable parameter: None for `null` and `undefined`. */
  function Nullable<T>(p: Param<T>): Option<T>
  {
    if p.Present? then Some(p.v) else None
  }

  /** The elements of a list parameter, or none when it is not an array. */
  function Items(p: Param<seq<string>>): seq<string>
  {
    if p.Present? then p.v else []
  }

  datatype ContactFormCategory = ContactFormCategory(key: string, text: string, enabled: bool, order: int, isDefault: bool)

  /** The parameters whose handling is modelled. */
  datatype Params = Params(
    pinnedUsers: Param<seq<string>>,
    hiddenTags: Param<seq<string>>,
    blockedHosts: Param<seq<string>>,
    sensitiveWords: Param<seq<string>>,
    prohibitedWords: Param<seq<string>>,
    prohibitedWordsForNameOfUser: Param<seq<string>>,
    silencedHosts: Param<seq<string>>,
    mediaSilencedHosts: Param<seq<string>>,
    googleAnalyticsMeasurementId: Param<string>,
    deeplAuthKey: Param<string>,
    verifymailAuthKey: Param<string>,
    truemailInstance: Param<string>,
    truemailAuthKey: Param<string>,
    urlPreviewUserAgent: Param<string>,
    summalyProxy: Param<string>,
    urlPreviewSummaryProxyUrl: Param<string>,
    federationHosts: Param<seq<string>>,
    defaultFollowedUsers: Param<seq<string>>,
    forciblyFollowedUsers: Param<seq<string>>,
    deeplFreeInstance: Param<string>,
    contactFormCategories: Param<seq<ContactFormCategory>>)

  /** The stored settings the handler reads. */
  datatype StoredSettings = StoredSettings(defaultFollowedUsers: seq<string>, forciblyFollowedUsers: seq<string>)

  /** The settings the handler writes: None where the request leaves the
      field out of the update. */
  datatype MetaUpdate = MetaUpdate(
    pinnedUsers: Option<seq<string>>,
    hiddenTags: Option<seq<string>>,
    blockedHosts: Option<seq<string>>,
    sensitiveWords: Option<seq<string>>,
    prohibitedWords: Option<seq<string>>,
    prohibitedWordsForNameOfUser: Option<seq<string>>,
    silencedHosts: Option<seq<string>>,
    mediaSilencedHosts: Option<seq<string>>,
    googleAnalyticsMeasurementId: Option<Option<string>>,
    deeplAuthKey: Option<Option<string>>,
    verifymailAuthKey: Option<Option<string>>,
    truemailInstance: Option<Option<string>>,
    truemailAuthKey: Option<Option<string>>,
    urlPreviewUserAgent: Option<Option<string>>,
    urlPreviewSummaryProxyUrl: Option<Option<string>>,
    federationHosts: Option<seq<string>>,
    defaultFollowedUsers: Option<seq<string>>,
    forciblyFollowedUsers: Option<seq<string>>,
    deeplFreeInstance: Option<Option<string>>,
    contactFormCategories: Option<Option<seq<ContactFormCategory>>>)

  /** The empty update the handler starts from. */
  const NoUpdate := MetaUpdate(None, None, None, None, None, None, None, None, None, None,
                               None, None, None, None, None, None, None, None, None, None)

  datatype UpdateError =
    | FollowedUserDuplicated
    | DuplicateCategoryKeys
    | MultipleDefaultCategories
    | MissingDefaultCategory

  /** The handler's result: the update, or the error it throws. */
  datatype Outcome = Updated(update: MetaUpdate) | Failed(error: UpdateError)

  // Lists

  /** `filter(Boolean)` on a list of strings: the non-empty ones, in order. */
  function Compact(xs: seq<string>): (r: seq<string>)
    ensures |r| <= |xs|
    ensures forall x :: x in r <==> x in xs && x != ""
  {
    Filter(xs, (x: string) => x != "")
  }

  /** `map(x => x.toLowerCase())`. */
  function LowerAll(xs: seq<string>): (r: seq<string>)
    ensures |r| == |xs|
    ensures forall i :: 0 <= i < |r| ==> r[i] == ToLowerAscii(xs[i])
    ensures forall x :: x in r ==> IsLowerAscii(x)
    ensures forall x :: x in xs && IsLowerAscii(x) ==> x in r
  {
    assert forall s :: IsLowerAscii(ToLowerAscii(s)) by {
      forall s
        ensures IsLowerAscii(ToLowerAscii(s))
      {
        LowerIsLower(s);
      }
    }
    seq(|xs|, i requires 0 <= i < |xs| => ToLowerAscii(xs[i]))
  }

  predicate IsLowerAscii(s: string)
  {
    ToLowerAscii(s) == s
  }

  /** Lower-casing twice is lower-casing once. */
  lemma LowerIsLower(s: string)
    ensures IsLowerAscii(ToLowerAscii(s))
  {
    var t := ToLowerAscii(s);
    assert forall k :: 0 <= k < |t| ==> LowerChar(t[k]) == t[k];
  }

  /** The blocked and federation host lists: falsy entries dropped and the
      rest lower-cased, in their order. */
  function NormalizeHosts(hosts: seq<string>): (r: seq<string>)
    ensures |r| <= |hosts|
    ensures forall h :: h in r ==> h != "" && IsLowerAscii(h)
    ensures forall h :: h in hosts && h != "" ==> ToLowerAscii(h) in r
    ensures forall h :: h in r ==> exists g :: g in hosts && g != "" && h == ToLowerAscii(g)
  {
    var kept := Compact(hosts);
    var r := LowerAll(kept);
    forall h | h in r
      ensures h != "" && IsLowerAscii(h)
      ensures exists g :: g in hosts && g != "" && h == ToLowerAscii(g)
    {
      var i :| 0 <= i < |r| && r[i] == h;
      assert kept[i] in kept;
      LowerIsLower(kept[i]);
    }
    forall h | h in hosts && h != ""
      ensures ToLowerAscii(h) in r
    {
      var i :| 0 <= i < |kept| && kept[i] == h;
      assert r[i] == ToLowerAscii(h);
    }
    r
  }

  /** Normalising a normalised list changes nothing. */
  lemma NormalizeHostsIdempotent(hosts: seq<string>)
    ensures NormalizeHosts(NormalizeHosts(hosts)) == NormalizeHosts(hosts)
  {
    var r := NormalizeHosts(hosts);
    FilterKeepsAll(r, (x: string) => x != "");
    assert Compact(r) == r;
    assert LowerAll(r) == r;
  }

  // Silenced hosts

  /** A host that survives the silenced-host filter: non-empty and not among
      the blocked hosts sent in the same request. */
  predicate Silenceable(h: string, blocked: Option<seq<string>>)
  {
    h != "" && !(blocked.Some? && h in blocked.value)
  }

  ghost predicate StrictlyAscending(s: seq<string>)
  {
    forall i, j :: 0 <= i < j < |s| ==> StrLe(s[i], s[j]) && s[i] != s[j]
  }

  /** The filter's test: `h !== '' && h !== lv && !set.blockedHosts?.includes(h)`. */
  predicate Kept(h: string, lastValue: string, blocked: Option<seq<string>>)
  {
    h != "" && h != lastValue && !(blocked.Some? && h in blocked.value)
  }

  /** The filter over a sorted list, `lastValue` being the entry before it:
      a host is kept when it is silenceable and differs from that entry. */
  function SilencedFrom(sorted: seq<string>, lastValue: string, blocked: Option<seq<string>>): (r: seq<string>)
    ensures |r| <= |sorted|
  {
    if sorted == [] then []
    else
      var h := sorted[0];
      (if Kept(h, lastValue, blocked) then [h] else []) + SilencedFrom(sorted[1..], h, blocked)
  }

  /** `silencedHosts` and `mediaSilencedHosts`: sorted, then filtered with
      `lastValue` starting empty. */
  function Silenced(hosts: seq<string>, blocked: Option<seq<string>>): (r: seq<string>)
    ensures |r| <= |hosts|
  {
    var sorted := SortBy(hosts, (h: string) => h, false);
    assert |sorted| == |multiset(sorted)| == |hosts|;
    SilencedFrom(sorted, "", blocked)
  }

  /** `sort()` followed by the filter. */
  method SilencedHostsFilter(hosts: seq<string>, blocked: Option<seq<string>>) returns (r: seq<string>)
    ensures r == Silenced(hosts, blocked)
  {
    var sorted := SortBy(hosts, (h: string) => h, false);
    r := FilterSilenced(sorted, blocked);
  }

  /** The filter's loop: `lastValue` remembers the previous entry, so
      repeats in a sorted list are dropped. */
  method FilterSilenced(sorted: seq<string>, blocked: Option<seq<string>>) returns (r: seq<string>)
    ensures r == SilencedFrom(sorted, "", blocked)
  {
    ghost var target := SilencedFrom(sorted, "", blocked);
    var lastValue := "";
    r := [];
    assert sorted[0..] == sorted;
    for i := 0 to |sorted|
      invariant r + SilencedFrom(sorted[i..], lastValue, blocked) == target
    {
      var h := sorted[i];
      var lv := lastValue;
      lastValue := h;
      SilencedLoopStep(sorted, i, lv, blocked, r, target);
      if h != "" && h != lv && !(blocked.Some? && h in blocked.value) {
        r := r + [h];
      }
    }
    assert sorted[|sorted|..] == [];
  }

  /** The loop invariant survives one entry, kept or not. */
  lemma SilencedLoopStep(sorted: seq<string>, i: nat, lastValue: string, blocked: Option<seq<string>>,
                         r: seq<string>, target: seq<string>)
    requires i < |sorted|
    requires r + SilencedFrom(sorted[i..], lastValue, blocked) == target
    ensures Kept(sorted[i], lastValue, blocked) ==> (r + [sorted[i]]) + SilencedFrom(sorted[i + 1..], sorted[i], blocked) == target
    ensures !Kept(sorted[i], lastValue, blocked) ==> r + SilencedFrom(sorted[i + 1..], sorted[i], blocked) == target
  {
    var rest := SilencedFrom(sorted[i + 1..], sorted[i], blocked);
    SilencedFromStep(sorted, i, lastValue, blocked);
    if Kept(sorted[i], lastValue, blocked) {
      Regroup(r, [sorted[i]], rest);
    } else {
      assert [] + rest == rest;
    }
  }

  lemma Regroup(a: seq<string>, b: seq<string>, c: seq<string>)
    ensures a + (b + c) == (a + b) + c
  {
  }

  /** One entry of the filter: the entry at `i`, if kept, before the rest. */
  lemma SilencedFromStep(sorted: seq<string>, i: nat, lastValue: string, blocked: Option<seq<string>>)
    requires i < |sorted|
    ensures SilencedFrom(sorted[i..], lastValue, blocked)
      == (if Kept(sorted[i], lastValue, blocked) then [sorted[i]] else [])
        + SilencedFrom(sorted[i + 1..], sorted[i], blocked)
  {
    assert sorted[i..][1..] == sorted[i + 1..];
  }

  /** Over a sorted list whose entries are not below `lastValue`, the filter
      keeps, in strictly ascending order, exactly the silenceable entries that
      differ from `lastValue`. */
  lemma {:induction false} SilencedFromSpec(sorted: seq<string>, lastValue: string, blocked: Option<seq<string>>)
    requires SortedBy(sorted, (h: string) => h, false)
    requires sorted != [] ==> StrLe(lastValue, sorted[0])
    ensures StrictlyAscending(SilencedFrom(sorted, lastValue, blocked))
    ensures forall x :: x in SilencedFrom(sorted, lastValue, blocked) ==> StrLe(lastValue, x) && x != lastValue
    ensures forall x :: (x in SilencedFrom(sorted, lastValue, blocked)
      <==> x in sorted && Silenceable(x, blocked) && x != lastValue)
  {
    if sorted != [] {
      var h := sorted[0];
      var rest := sorted[1..];
      assert SortedBy(rest, (h: string) => h, false) by {
        forall i, j | 0 <= i < j < |rest|
          ensures InOrder(rest[i], rest[j], false)
        {
          assert InOrder(sorted[i + 1], sorted[j + 1], false);
        }
      }
      if rest != [] {
        assert InOrder(sorted[0], sorted[1], false);
      }
      SilencedFromSpec(rest, h, blocked);
      var tail := SilencedFrom(rest, h, blocked);
      var head := if Kept(h, lastValue, blocked) then [h] else [];
      assert SilencedFrom(sorted, lastValue, blocked) == head + tail;
      forall x | x in tail
        ensures StrLe(lastValue, x) && x != lastValue
      {
        StrLeTrans(lastValue, h, x);
        if x == lastValue {
          StrLeAntisym(lastValue, h);
        }
      }
      forall x | x in rest && x != h
        ensures x != lastValue
      {
        var k :| 0 <= k < |rest| && rest[k] == x;
        assert InOrder(sorted[0], sorted[k + 1], false);
        if x == lastValue {
          StrLeAntisym(lastValue, h);
        }
      }
      assert sorted == [h] + rest;
    }
  }

  /** The silenced hosts are strictly ascending, hence without repeats, and
      are exactly the request's non-empty hosts that are not blocked in the
      same request. */
  lemma SilencedSpec(hosts: seq<string>, blocked: Option<seq<string>>)
    ensures StrictlyAscending(Silenced(hosts, blocked))
    ensures forall x :: x in Silenced(hosts, blocked) <==> x in hosts && Silenceable(x, blocked)
  {
    var sorted := SortBy(hosts, (h: string) => h, false);
    SilencedFromSpec(sorted, "", blocked);
    assert forall x :: x in sorted <==> x in multiset(hosts);
  }

  /** Ascending order without repeats fixes a list by its elements: the
      silenced-host result is determined by the request alone. */
  lemma {:induction false} AscendingUnique(a: seq<string>, b: seq<string>)
    requires StrictlyAscending(a) && StrictlyAscending(b)
    requires forall h :: h in a <==> h in b
    ensures a == b
  {
    assert a != [] ==> a[0] in b;
    assert b != [] ==> b[0] in a;
    if a != [] && b != [] {
      var i :| 0 <= i < |a| && a[i] == b[0];
      var j :| 0 <= j < |b| && b[j] == a[0];
      if i > 0 && j > 0 {
        StrLeAntisym(a[0], b[0]);
      }
      assert a[0] == b[0];
      assert a == [a[0]] + a[1..] && b == [b[0]] + b[1..];
      forall h
        ensures h in a[1..] <==> h in b[1..]
      {
        if h in a[1..] {
          var k :| 0 <= k < |a[1..]| && a[1..][k] == h;
          assert a[k + 1] == h;
          assert StrLe(a[0], a[k + 1]) && a[0] != a[k + 1];
          assert h in b && h != b[0];
          assert h in b[1..];
        }
        if h in b[1..] {
          var k :| 0 <= k < |b[1..]| && b[1..][k] == h;
          assert b[k + 1] == h;
          assert StrLe(b[0], b[k + 1]) && b[0] != b[k + 1];
          assert h in a && h != a[0];
          assert h in a[1..];
        }
      }
      AscendingUnique(a[1..], b[1..]);
    }
  }

  /** The silenced-host result depends only on which hosts are sent and which
      are blocked, not on their order or repeats. */
  lemma SilencedOrderIndependent(a: seq<string>, b: seq<string>, blocked: Option<seq<string>>)
    requires forall h :: h in a <==> h in b
    ensures Silenced(a, blocked) == Silenced(b, blocked)
  {
    SilencedSpec(a, blocked);
    SilencedSpec(b, blocked);
    AscendingUnique(Silenced(a, blocked), Silenced(b, blocked));
  }

  // Empty strings

  /** `|| null` and `=== '' ? null : value` on a nullable string. */
  function NullIfEmpty(v: Option<string>): (r: Option<string>)
    ensures r.None? <==> v.None? || v.value == ""
    ensures r.Some? ==> r == v
    ensures r != Some("")
  {
    if v.Some? && v.value != "" then v else None
  }

  /** `urlPreviewUserAgent`: null when blank after trimming, otherwise the
      value as sent, untrimmed. */
  function UserAgentSetting(v: Option<string>): (r: Option<string>)
    ensures r.None? <==> v.None? || Trim(v.value) == ""
    ensures r.Some? ==> r == v
    ensures r.Some? ==> r.value != "" && Trim(r.value) != ""
  {
    var value := Trim(v.GetOr(""));
    if value == "" then None else v
  }

  /** `urlPreviewSummaryProxyUrl`, falling back to the deprecated
      `summalyProxy` when it is null or undefined, trimmed; blank is null. */
  function SummaryProxySetting(url: Param<string>, legacy: Param<string>): (r: Option<string>)
    ensures r.Some? ==> r.value != "" && Trimmed(r.value)
    ensures url.Present? ==> r == (if Trim(url.v) == "" then None else Some(Trim(url.v)))
    ensures !url.Present? && legacy.Present? ==> r == (if Trim(legacy.v) == "" then None else Some(Trim(legacy.v)))
    ensures !url.Present? && !legacy.Present? ==> r.None?
  {
    var chosen := if url.Present? then url.v else if legacy.Present? then legacy.v else "";
    var value := Trim(chosen);
    if value == "" then None else Some(value)
  }

  // Followed users

  /** `xs.some(x => stored.includes(x) || requested?.includes(x))`. */
  function SharedWith(xs: seq<string>, stored: seq<string>, requested: Param<seq<string>>): (b: bool)
    ensures b <==> exists x :: x in xs && (x in stored || (requested.Present? && x in requested.v))
  {
    if xs == [] then false
    else if xs[0] in stored || (requested.Present? && xs[0] in requested.v) then true
    else
      assert forall x :: x in xs ==> x == xs[0] || x in xs[1..];
      SharedWith(xs[1..], stored, requested)
  }

  /** The request makes a user both followed by default and forcibly
      followed, counting the stored lists for the side it leaves alone. */
  predicate FollowedConflict(ps: Params, stored: StoredSettings)
    ensures FollowedConflict(ps, stored) <==>
      || (ps.defaultFollowedUsers.Present?
          && (exists x :: x in ps.defaultFollowedUsers.v
                && (x in stored.forciblyFollowedUsers || (ps.forciblyFollowedUsers.Present? && x in ps.forciblyFollowedUsers.v))))
      || (ps.forciblyFollowedUsers.Present?
          && (exists x :: x in ps.forciblyFollowedUsers.v
                && (x in stored.defaultFollowedUsers || (ps.defaultFollowedUsers.Present? && x in ps.defaultFollowedUsers.v))))
  {
    || (ps.defaultFollowedUsers.Present?
        && SharedWith(ps.defaultFollowedUsers.v, stored.forciblyFollowedUsers, ps.forciblyFollowedUsers))
    || (ps.forciblyFollowedUsers.Present?
        && SharedWith(ps.forciblyFollowedUsers.v, stored.defaultFollowedUsers, ps.defaultFollowedUsers))
  }

  /** The check is symmetric: exchanging the two lists, in the request and in
      the stored settings, gives the same verdict; and any user in both
      requested lists is a conflict. */
  lemma FollowedConflictSymmetric(ps: Params, stored: StoredSettings, x: string)
    ensures FollowedConflict(ps, stored)
      == FollowedConflict(
           ps.(defaultFollowedUsers := ps.forciblyFollowedUsers, forciblyFollowedUsers := ps.defaultFollowedUsers),
           StoredSettings(stored.forciblyFollowedUsers, stored.defaultFollowedUsers))
    ensures (ps.defaultFollowedUsers.Present? && ps.forciblyFollowedUsers.Present?
             && x in ps.defaultFollowedUsers.v && x in ps.forciblyFollowedUsers.v) ==> FollowedConflict(ps, stored)
  {
  }

  // Contact-form categories

  /** Two categories share a key, which is what `keys.length !== new Set(keys).size` detects. */
  function HasDuplicateKeys(cats: seq<ContactFormCategory>): (b: bool)
    ensures b <==> exists i, j :: 0 <= i < j < |cats| && cats[i].key == cats[j].key
  {
    if cats == [] then false
    else if exists j :: 1 <= j < |cats| && cats[j].key == cats[0].key then true
    else
      var rest := HasDuplicateKeys(cats[1..]);
      if rest then
        var i, j :| 0 <= i < j < |cats[1..]| && cats[1..][i].key == cats[1..][j].key;
        assert cats[i + 1].key == cats[j + 1].key;
        true
      else
        false
  }

  function KeySet(cats: seq<ContactFormCategory>): set<string>
  {
    set c | c in cats :: c.key
  }

  /** No repeated key exactly when the set of keys is as large as the list. */
  lemma {:induction false} DistinctKeysFillSet(cats: seq<ContactFormCategory>)
    ensures !HasDuplicateKeys(cats) <==> |KeySet(cats)| == |cats|
  {
    if cats != [] {
      DistinctKeysFillSet(cats[1..]);
      KeySetSize(cats[1..]);
      KeySetCons(cats);
      var rest := KeySet(cats[1..]);
      if cats[0].key in rest {
        assert KeySet(cats) == rest;
      } else {
        assert |KeySet(cats)| == |rest| + 1;
      }
    }
  }

  /** The keys of a non-empty list: the first key and those of the rest; the
      first key repeats exactly when it is among the rest's keys. */
  lemma KeySetCons(cats: seq<ContactFormCategory>)
    requires cats != []
    ensures KeySet(cats) == {cats[0].key} + KeySet(cats[1..])
    ensures HasDuplicateKeys(cats) <==> cats[0].key in KeySet(cats[1..]) || HasDuplicateKeys(cats[1..])
  {
    assert forall c :: c in cats <==> c == cats[0] || c in cats[1..];
    if cats[0].key in KeySet(cats[1..]) {
      var c :| c in cats[1..] && c.key == cats[0].key;
      var j :| 0 <= j < |cats[1..]| && cats[1..][j] == c;
      assert cats[j + 1].key == cats[0].key;
    }
    if exists j :: 1 <= j < |cats| && cats[j].key == cats[0].key {
      var j :| 1 <= j < |cats| && cats[j].key == cats[0].key;
      assert cats[1..][j - 1] == cats[j];
    }
  }

  lemma {:induction false} KeySetSize(cats: seq<ContactFormCategory>)
    ensures |KeySet(cats)| <= |cats|
  {
    if cats != [] {
      KeySetSize(cats[1..]);
      assert KeySet(cats) <= {cats[0].key} + KeySet(cats[1..]) by {
        assert forall c :: c in cats ==> c == cats[0] || c in cats[1..];
      }
      SubsetSize(KeySet(cats), {cats[0].key} + KeySet(cats[1..]));
    }
  }

  lemma SubsetSize(a: set<string>, b: set<string>)
    requires a <= b
    ensures |a| <= |b|
  {
    assert b == a + (b - a);
  }

  /** How many categories are marked default. */
  function DefaultCount(cats: seq<ContactFormCategory>): nat
  {
    |Filter(cats, (c: ContactFormCategory) => c.isDefault)|
  }

  /** The category checks, in the order they throw. */
  function CategoryError(cats: seq<ContactFormCategory>): (r: Option<UpdateError>)
    ensures r.None? <==> !HasDuplicateKeys(cats) && DefaultCount(cats) <= 1 && (cats != [] ==> DefaultCount(cats) == 1)
    ensures HasDuplicateKeys(cats) ==> r == Some(DuplicateCategoryKeys)
    ensures !HasDuplicateKeys(cats) && DefaultCount(cats) > 1 ==> r == Some(MultipleDefaultCategories)
    ensures !HasDuplicateKeys(cats) && DefaultCount(cats) == 0 && cats != [] ==> r == Some(MissingDefaultCategory)
  {
    if HasDuplicateKeys(cats) then Some(DuplicateCategoryKeys)
    else if DefaultCount(cats) > 1 then Some(MultipleDefaultCategories)
    else if |cats| > 0 && DefaultCount(cats) == 0 then Some(MissingDefaultCategory)
    else None
  }

  /** An accepted non-empty list has exactly one default category. */
  lemma AcceptedCategoriesHaveOneDefault(cats: seq<ContactFormCategory>)
    requires cats != [] && CategoryError(cats).None?
    ensures exists i :: 0 <= i < |cats| && cats[i].isDefault && forall j :: 0 <= j < |cats| && j != i ==> !cats[j].isDefault
  {
    var p := (c: ContactFormCategory) => c.isDefault;
    var defaults := Filter(cats, p);
    assert |defaults| == 1;
    assert defaults[0] in cats;
    var i :| 0 <= i < |cats| && cats[i] == defaults[0];
    forall j | 0 <= j < |cats| && j != i && cats[j].isDefault
      ensures false
    {
      OneKeptOnce(cats, p, i, j);
    }
  }

  /** Two kept positions give two kept elements. */
  lemma {:induction false} OneKeptOnce(s: seq<ContactFormCategory>, p: ContactFormCategory -> bool, i: nat, j: nat)
    requires i < |s| && j < |s| && i != j && p(s[i]) && p(s[j])
    ensures |Filter(s, p)| >= 2
  {
    if i > 0 && j > 0 {
      OneKeptOnce(s[1..], p, i - 1, j - 1);
    } else {
      var k := if i == 0 then j else i;
      assert s[1..][k - 1] == s[k];
      assert s[k] in Filter(s[1..], p);
    }
  }

  /** An empty list is always accepted. */
  lemma EmptyCategoriesAccepted()
    ensures CategoryError([]).None?
  {
  }

  // The handler

  /** A list parameter sent as an array, with `filter(Boolean)` applied. */
  function ListSetting(p: Param<seq<string>>): Option<seq<string>>
  {
    if p.Present? then Some(Compact(p.v)) else None
  }

  /** A host-list parameter sent as an array, normalised. */
  function HostsSetting(p: Param<seq<string>>): Option<seq<string>>
  {
    if p.Present? then Some(NormalizeHosts(p.v)) else None
  }

  /** A silenced-host list sent as an array, filtered against the blocked
      hosts of the same request. */
  function SilencedSetting(p: Param<seq<string>>, blocked: Param<seq<string>>): Option<seq<string>>
  {
    if p.Present? then Some(Silenced(p.v, HostsSetting(blocked))) else None
  }

  /** A nullable string parameter that is not `undefined`, empty as null. */
  function TextSetting(p: Param<string>): Option<Option<string>>
  {
    if p.Absent? then None else Some(NullIfEmpty(Nullable(p)))
  }

  /** `urlPreviewUserAgent` when it is not `undefined`. */
  function UserAgentUpdate(ps: Params): Option<Option<string>>
  {
    if ps.urlPreviewUserAgent.Absent? then None else Some(UserAgentSetting(Nullable(ps.urlPreviewUserAgent)))
  }

  /** `urlPreviewSummaryProxyUrl` when either it or `summalyProxy` is not `undefined`. */
  function SummaryProxyUpdate(ps: Params): Option<Option<string>>
  {
    if ps.summalyProxy.Absent? && ps.urlPreviewSummaryProxyUrl.Absent? then None
    else Some(SummaryProxySetting(ps.urlPreviewSummaryProxyUrl, ps.summalyProxy))
  }

  /** The update a request produces when no check throws. */
  function Expected(ps: Params): (r: MetaUpdate)
    ensures r.pinnedUsers.Some? <==> ps.pinnedUsers.Present?
    ensures r.blockedHosts.Some? <==> ps.blockedHosts.Present?
    ensures r.silencedHosts.Some? <==> ps.silencedHosts.Present?
    ensures r.deeplAuthKey.None? <==> ps.deeplAuthKey.Absent?
    ensures r.blockedHosts.Some? ==> forall h :: h in r.blockedHosts.value ==> h != "" && IsLowerAscii(h)
    ensures r.silencedHosts.Some? ==> forall h :: h in r.silencedHosts.value ==>
      h != "" && !(r.blockedHosts.Some? && h in r.blockedHosts.value)
    ensures r.mediaSilencedHosts.Some? ==> forall h :: h in r.mediaSilencedHosts.value ==>
      h != "" && !(r.blockedHosts.Some? && h in r.blockedHosts.value)
    ensures r.deeplAuthKey != Some(Some("")) && r.googleAnalyticsMeasurementId != Some(Some(""))
    ensures r.urlPreviewUserAgent.Some? && r.urlPreviewUserAgent.value.Some? ==> Trim(r.urlPreviewUserAgent.value.value) != ""
  {
    SilencedSpec(Items(ps.silencedHosts), HostsSetting(ps.blockedHosts));
    SilencedSpec(Items(ps.mediaSilencedHosts), HostsSetting(ps.blockedHosts));
    MetaUpdate(
      pinnedUsers := ListSetting(ps.pinnedUsers),
      hiddenTags := ListSetting(ps.hiddenTags),
      blockedHosts := HostsSetting(ps.blockedHosts),
      sensitiveWords := ListSetting(ps.sensitiveWords),
      prohibitedWords := ListSetting(ps.prohibitedWords),
      prohibitedWordsForNameOfUser := ListSetting(ps.prohibitedWordsForNameOfUser),
      silencedHosts := SilencedSetting(ps.silencedHosts, ps.blockedHosts),
      mediaSilencedHosts := SilencedSetting(ps.mediaSilencedHosts, ps.blockedHosts),
      googleAnalyticsMeasurementId := TextSetting(ps.googleAnalyticsMeasurementId),
      deeplAuthKey := TextSetting(ps.deeplAuthKey),
      verifymailAuthKey := TextSetting(ps.verifymailAuthKey),
      truemailInstance := TextSetting(ps.truemailInstance),
      truemailAuthKey := TextSetting(ps.truemailAuthKey),
      urlPreviewUserAgent := UserAgentUpdate(ps),
      urlPreviewSummaryProxyUrl := SummaryProxyUpdate(ps),
      federationHosts := HostsSetting(ps.federationHosts),
      defaultFollowedUsers := ListSetting(ps.defaultFollowedUsers),
      forciblyFollowedUsers := ListSetting(ps.forciblyFollowedUsers),
      deeplFreeInstance := TextSetting(ps.deeplFreeInstance),
      contactFormCategories :=
        if ps.contactFormCategories.Absent? then None else Some(Nullable(ps.contactFormCategories)))
  }

  /** The categories error the request runs into, if it sends a list. */
  function RequestCategoryError(ps: Params): Option<UpdateError>
  {
    if ps.contactFormCategories.Present? then CategoryError(ps.contactFormCategories.v) else None
  }

  /** The list blocks, from `pinnedUsers` to `prohibitedWordsForNameOfUser`:
      each list sent as an array sets its field. */
  method WriteLists(ps: Params) returns (update: MetaUpdate)
    ensures update == NoUpdate.(
      pinnedUsers := ListSetting(ps.pinnedUsers),
      hiddenTags := ListSetting(ps.hiddenTags),
      blockedHosts := HostsSetting(ps.blockedHosts),
      sensitiveWords := ListSetting(ps.sensitiveWords),
      prohibitedWords := ListSetting(ps.prohibitedWords),
      prohibitedWordsForNameOfUser := ListSetting(ps.prohibitedWordsForNameOfUser))
  {
    update := NoUpdate;
    if ps.pinnedUsers.Present? {
      update := update.(pinnedUsers := Some(Compact(ps.pinnedUsers.v)));
    }
    if ps.hiddenTags.Present? {
      update := update.(hiddenTags := Some(Compact(ps.hiddenTags.v)));
    }
    if ps.blockedHosts.Present? {
      update := update.(blockedHosts := Some(NormalizeHosts(ps.blockedHosts.v)));
    }
    if ps.sensitiveWords.Present? {
      update := update.(sensitiveWords := Some(Compact(ps.sensitiveWords.v)));
    }
    if ps.prohibitedWords.Present? {
      update := update.(prohibitedWords := Some(Compact(ps.prohibitedWords.v)));
    }
    if ps.prohibitedWordsForNameOfUser.Present? {
      update := update.(prohibitedWordsForNameOfUser := Some(Compact(ps.prohibitedWordsForNameOfUser.v)));
    }
  }

  /** The two silenced-host blocks, filtered against the blocked hosts this
      update already holds. */
  method WriteSilenced(ps: Params, written: MetaUpdate) returns (update: MetaUpdate)
    requires written.blockedHosts == HostsSetting(ps.blockedHosts)
    requires written.silencedHosts.None? && written.mediaSilencedHosts.None?
    ensures update == written.(
      silencedHosts := SilencedSetting(ps.silencedHosts, ps.blockedHosts),
      mediaSilencedHosts := SilencedSetting(ps.mediaSilencedHosts, ps.blockedHosts))
  {
    update := written;
    if ps.silencedHosts.Present? {
      var hosts := SilencedHostsFilter(ps.silencedHosts.v, update.blockedHosts);
      update := update.(silencedHosts := Some(hosts));
    }
    if ps.mediaSilencedHosts.Present? {
      var hosts := SilencedHostsFilter(ps.mediaSilencedHosts.v, update.blockedHosts);
      update := update.(mediaSilencedHosts := Some(hosts));
    }
  }

  /** The key blocks, from `googleAnalyticsMeasurementId` to
      `truemailAuthKey`: each parameter that is not `undefined` sets its
      field, an empty string as null. */
  method WriteKeys(ps: Params, written: MetaUpdate) returns (update: MetaUpdate)
    requires written.googleAnalyticsMeasurementId.None? && written.deeplAuthKey.None?
    requires written.verifymailAuthKey.None? && written.truemailInstance.None? && written.truemailAuthKey.None?
    ensures update == written.(
      googleAnalyticsMeasurementId := TextSetting(ps.googleAnalyticsMeasurementId),
      deeplAuthKey := TextSetting(ps.deeplAuthKey),
      verifymailAuthKey := TextSetting(ps.verifymailAuthKey),
      truemailInstance := TextSetting(ps.truemailInstance),
      truemailAuthKey := TextSetting(ps.truemailAuthKey))
  {
    update := written;
    if !ps.googleAnalyticsMeasurementId.Absent? {
      update := update.(googleAnalyticsMeasurementId := Some(NullIfEmpty(Nullable(ps.googleAnalyticsMeasurementId))));
    }
    if !ps.deeplAuthKey.Absent? {
      update := update.(deeplAuthKey := Some(NullIfEmpty(Nullable(ps.deeplAuthKey))));
    }
    if !ps.verifymailAuthKey.Absent? {
      update := update.(verifymailAuthKey := Some(NullIfEmpty(Nullable(ps.verifymailAuthKey))));
    }
    if !ps.truemailInstance.Absent? {
      update := update.(truemailInstance := Some(NullIfEmpty(Nullable(ps.truemailInstance))));
    }
    if !ps.truemailAuthKey.Absent? {
      update := update.(truemailAuthKey := Some(NullIfEmpty(Nullable(ps.truemailAuthKey))));
    }
  }

  /** The URL-preview and federation blocks. */
  method WritePreview(ps: Params, written: MetaUpdate) returns (update: MetaUpdate)
    requires written.urlPreviewUserAgent.None? && written.urlPreviewSummaryProxyUrl.None? && written.federationHosts.None?
    ensures update == written.(
      urlPreviewUserAgent := UserAgentUpdate(ps),
      urlPreviewSummaryProxyUrl := SummaryProxyUpdate(ps),
      federationHosts := HostsSetting(ps.federationHosts))
  {
    update := written;
    if !ps.urlPreviewUserAgent.Absent? {
      update := update.(urlPreviewUserAgent := Some(UserAgentSetting(Nullable(ps.urlPreviewUserAgent))));
    }
    if !ps.summalyProxy.Absent? || !ps.urlPreviewSummaryProxyUrl.Absent? {
      update := update.(urlPreviewSummaryProxyUrl := Some(SummaryProxySetting(ps.urlPreviewSummaryProxyUrl, ps.summalyProxy)));
    }
    if ps.federationHosts.Present? {
      update := update.(federationHosts := Some(NormalizeHosts(ps.federationHosts.v)));
    }
  }

  /** The handler: each modelled parameter that is sent sets its field, in
      the order of the source; the followed-user and category checks throw,
      and then nothing is written. */
  method HandleUpdateMeta(ps: Params, stored: StoredSettings) returns (result: Outcome)
    ensures FollowedConflict(ps, stored) ==> result == Failed(FollowedUserDuplicated)
    ensures !FollowedConflict(ps, stored) && RequestCategoryError(ps).Some? ==>
      result == Failed(RequestCategoryError(ps).value)
    ensures !FollowedConflict(ps, stored) && RequestCategoryError(ps).None? ==> result == Updated(Expected(ps))
  {
    var update := WriteLists(ps);
    update := WriteSilenced(ps, update);
    update := WriteKeys(ps, update);
    update := WritePreview(ps, update);
    if ps.defaultFollowedUsers.Present? {
      if SharedWith(ps.defaultFollowedUsers.v, stored.forciblyFollowedUsers, ps.forciblyFollowedUsers) {
        return Failed(FollowedUserDuplicated);
      }
      update := update.(defaultFollowedUsers := Some(Compact(ps.defaultFollowedUsers.v)));
    }
    if ps.forciblyFollowedUsers.Present? {
      if SharedWith(ps.forciblyFollowedUsers.v, stored.defaultFollowedUsers, ps.defaultFollowedUsers) {
        return Failed(FollowedUserDuplicated);
      }
      update := update.(forciblyFollowedUsers := Some(Compact(ps.forciblyFollowedUsers.v)));
    }
    if !ps.deeplFreeInstance.Absent? {
      update := update.(deeplFreeInstance := Some(NullIfEmpty(Nullable(ps.deeplFreeInstance))));
    }
    if !ps.contactFormCategories.Absent? {
      if ps.contactFormCategories.Present? {
        var cats := ps.contactFormCategories.v;
        if HasDuplicateKeys(cats) {
          return Failed(DuplicateCategoryKeys);
        }
        var defaults := DefaultCount(cats);
        if defaults > 1 {
          return Failed(MultipleDefaultCategories);
        }
        if |cats| > 0 && defaults == 0 {
          return Failed(MissingDefaultCategory);
        }
      }
      update := update.(contactFormCategories := Some(Nullable(ps.contactFormCategories)));
    }
    return Updated(update);
  }

  /** Whatever the request, a successful update's silenced-host lists are
      ascending without repeats and hold exactly the non-empty requested hosts
      that are not in the blocked list written by the same update. */
  lemma UpdatedSilencedHosts(ps: Params, x: string)
    ensures Expected(ps).silencedHosts.Some? <==> ps.silencedHosts.Present?
    ensures Expected(ps).silencedHosts.Some? ==>
      && StrictlyAscending(Expected(ps).silencedHosts.value)
      && (x in Expected(ps).silencedHosts.value <==>
          x in ps.silencedHosts.v && x != "" && !(ps.blockedHosts.Present? && x in Expected(ps).blockedHosts.value))
    ensures Expected(ps).mediaSilencedHosts.Some? ==>
      && StrictlyAscending(Expected(ps).mediaSilencedHosts.value)
      && (x in Expected(ps).mediaSilencedHosts.value <==>
          x in ps.mediaSilencedHosts.v && x != "" && !(ps.blockedHosts.Present? && x in Expected(ps).blockedHosts.value))
  {
    var blocked := HostsSetting(ps.blockedHosts);
    if ps.silencedHosts.Present? {
      SilencedSpec(ps.silencedHosts.v, blocked);
    }
    if ps.mediaSilencedHosts.Present? {
      SilencedSpec(ps.mediaSilencedHosts.v, blocked);
    }
  }

  /** A parameter left `undefined` leaves its field out of the update; a list
      must be an array to be written; an empty key is written as null. */
  lemma UndefinedLeavesFieldOut(ps: Params)
    ensures !ps.pinnedUsers.Present? ==> Expected(ps).pinnedUsers.None?
    ensures !ps.blockedHosts.Present? ==> Expected(ps).blockedHosts.None?
    ensures !ps.silencedHosts.Present? ==> Expected(ps).silencedHosts.None?
    ensures !ps.federationHosts.Present? ==> Expected(ps).federationHosts.None?
    ensures ps.deeplAuthKey.Absent? <==> Expected(ps).deeplAuthKey.None?
    ensures ps.deeplAuthKey == Present("") || ps.deeplAuthKey == Null ==> Expected(ps).deeplAuthKey == Some(None)
    ensures ps.deeplFreeInstance == Present("") ==> Expected(ps).deeplFreeInstance == Some(None)
    ensures ps.truemailInstance == Present("") ==> Expected(ps).truemailInstance == Some(None)
    ensures ps.urlPreviewUserAgent.Absent? <==> Expected(ps).urlPreviewUserAgent.None?
    ensures ps.summalyProxy.Absent? && ps.urlPreviewSummaryProxyUrl.Absent? <==> Expected(ps).urlPreviewSummaryProxyUrl.None?
    ensures ps.contactFormCategories.Absent? <==> Expected(ps).contactFormCategories.None?
  {
  }
}
