/**
 * The version banner of the master process: the build's version string is
 * cut at its first `tempura` component into the upstream Misskey version
 * and the fork's own version.
 */
module VersionInfo {
  import opened Common
  import opened Strings

  /** The component that starts the fork's part of the version. */
  const ForkTag := "tempura"

  datatype VersionInfo = VersionInfo(baseMisskeyVersion: string, forkVersionString: Option<string>)

  /** `findIndex(part => part === 'tempura')`, with None for -1. */
  function FindTag(parts: seq<string>): (r: Option<nat>)
    ensures r.Some? ==> r.value < |parts| && parts[r.value] == ForkTag && ForkTag !in parts[..r.value]
    ensures r.None? <==> ForkTag !in parts
  {
    if parts == [] then None
    else if parts[0] == ForkTag then Some(0)
    else
      var r := FindTag(parts[1..]);
      assert parts == [parts[0]] + parts[1..];
      if r.Some? then
        assert parts[..r.value + 1] == [parts[0]] + parts[1..][..r.value];
        Some(r.value + 1)
      else None
  }

  /** `parts.map(p => '-' + p).join('')`. */
  function Dashed(parts: seq<string>): string
  {
    if parts == [] then "" else "-" + parts[0] + Dashed(parts[1..])
  }

  /** `baseMisskeyVersion` from the base components. With none, the template
      renders `baseVersionParts[0]` as `undefined`. */
  function BaseVersion(baseParts: seq<string>): string
  {
    if |baseParts| > 1 then "v" + baseParts[0] + "-" + Join(baseParts[1..], "-")
    else if |baseParts| == 1 then "v" + baseParts[0]
    else "vundefined"
  }

  /** The components before the first `tempura`, or all of them. */
  function BaseParts(parts: seq<string>): seq<string>
  {
    var tag := FindTag(parts);
    if tag.Some? then parts[..tag.value] else parts
  }

  /** `parseVersionInfo`. */
  function ParseVersionInfo(version: string): (r: VersionInfo)
    ensures |r.baseMisskeyVersion| >= 1 && r.baseMisskeyVersion[0] == 'v'
    ensures r.forkVersionString.Some? ==> StartsWith(r.forkVersionString.value, ForkTag)
  {
    var parts := Split(version, '-');
    var tag := FindTag(parts);
    var base := BaseVersion(BaseParts(parts));
    var fork := if tag.Some? then Some(parts[tag.value] + Dashed(parts[tag.value + 1..])) else None;
    VersionInfo(base, fork)
  }

  /** A first component followed by the dashed rest is the components joined with `-`. */
  lemma {:induction false} DashedJoin(head: string, rest: seq<string>)
    decreases |rest|
    ensures head + Dashed(rest) == Join([head] + rest, "-")
  {
    if rest != [] {
      DashedJoin(rest[0], rest[1..]);
      assert [rest[0]] + rest[1..] == rest;
      assert ([head] + rest)[1..] == rest;
    }
  }

  /** Joining two non-empty lists of components is joining each and putting `sep` between. */
  lemma {:induction false} JoinAppend(a: seq<string>, b: seq<string>, sep: string)
    requires a != [] && b != []
    ensures Join(a + b, sep) == Join(a, sep) + sep + Join(b, sep)
  {
    if |a| > 1 {
      JoinAppend(a[1..], b, sep);
      assert (a + b)[1..] == a[1..] + b;
    } else {
      assert (a + b)[1..] == b;
    }
  }

  /** The base version is `v` followed by the base components joined with `-`. */
  lemma BaseIsJoined(baseParts: seq<string>)
    requires baseParts != []
    ensures BaseVersion(baseParts) == "v" + Join(baseParts, "-")
  {
    if |baseParts| > 1 {
      assert "v" + baseParts[0] + "-" + Join(baseParts[1..], "-")
        == "v" + (baseParts[0] + "-" + Join(baseParts[1..], "-"));
    }
  }

  /** The fork part is undefined exactly when no component is `tempura`. */
  lemma ForkUndefinedIff(version: string)
    ensures ParseVersionInfo(version).forkVersionString.None? <==> ForkTag !in Split(version, '-')
  {
  }

  /** Without a `tempura` component the base is `v` and the whole version. */
  lemma UntaggedBase(version: string)
    requires ForkTag !in Split(version, '-')
    ensures ParseVersionInfo(version) == VersionInfo("v" + version, None)
  {
    BaseIsJoined(Split(version, '-'));
    JoinSplit(version, '-');
  }

  /** The fork part is the components from the first `tempura` on, joined with
      `-`: it starts with `tempura` and splits back into exactly those
      components, later `tempura` components included. */
  lemma ForkComponents(version: string)
    requires ForkTag in Split(version, '-')
    ensures var parts := Split(version, '-');
      var i := FindTag(parts).value;
      var fork := ParseVersionInfo(version).forkVersionString;
      && fork == Some(Join(parts[i..], "-"))
      && StartsWith(fork.value, ForkTag)
      && Split(fork.value, '-') == parts[i..]
  {
    var parts := Split(version, '-');
    var i := FindTag(parts).value;
    DashedJoin(parts[i], parts[i + 1..]);
    assert [parts[i]] + parts[i + 1..] == parts[i..];
    var fork := Join(parts[i..], "-");
    assert fork == ForkTag + Dashed(parts[i + 1..]);
    assert fork[..|ForkTag|] == ForkTag;
    forall p | p in parts[i..]
      ensures '-' !in p
    {
    }
    SplitJoin(parts[i..], '-');
  }

  /** With `tempura` past the first component, base, `-` and fork put back
      together give `v` followed by the whole version. */
  lemma TaggedRoundTrip(version: string)
    requires var parts := Split(version, '-');
      ForkTag in parts && FindTag(parts).value > 0
    ensures var info := ParseVersionInfo(version);
      info.forkVersionString.Some? && info.baseMisskeyVersion + "-" + info.forkVersionString.value == "v" + version
  {
    var parts := Split(version, '-');
    var i := FindTag(parts).value;
    var info := ParseVersionInfo(version);
    assert info.baseMisskeyVersion == BaseVersion(parts[..i]);
    BaseIsJoined(parts[..i]);
    ForkComponents(version);
    SplitAt(parts, i, "-");
    JoinSplit(version, '-');
    PutBack(Join(parts[..i], "-"), Join(parts[i..], "-"));
  }

  /** Cutting the components at `i` and joining both sides with `sep` between. */
  lemma SplitAt(parts: seq<string>, i: nat, sep: string)
    requires 0 < i < |parts|
    ensures Join(parts, sep) == Join(parts[..i], sep) + sep + Join(parts[i..], sep)
  {
    assert parts == parts[..i] + parts[i..];
    JoinAppend(parts[..i], parts[i..], sep);
  }

  lemma PutBack(before: string, after: string)
    ensures ("v" + before) + "-" + after == "v" + (before + "-" + after)
  {
  }

  /** With `tempura` as the first component the base renders as `vundefined`
      and the fork part is the whole version. */
  lemma LeadingTag(version: string)
    requires var parts := Split(version, '-');
      ForkTag in parts && FindTag(parts).value == 0
    ensures ParseVersionInfo(version) == VersionInfo("vundefined", Some(version))
  {
    var parts := Split(version, '-');
    ForkComponents(version);
    assert parts[0..] == parts;
    JoinSplit(version, '-');
  }
}
