/**
 * The `emoji` API endpoint's reading of a requested emoji name: a custom
 * emoji reference `name@host` becomes a repository key of name and host,
 * and anything else is looked up as the name of a local emoji.
 */
module EmojiLookup {
  import opened Common
  import opened Strings
  import opened EmojiRoute

  /** `\w`: ASCII letters, digits and `_`. */
  predicate IsWordChar(c: char)
  {
    ('a' <= c <= 'z') || ('A' <= c <= 'Z') || ('0' <= c <= '9') || c == '_'
  }

  /** `[\w+-]+`: the name part. */
  predicate NameWord(s: string)
  {
    |s| > 0 && forall k :: 0 <= k < |s| ==> IsWordChar(s[k]) || s[k] == '+' || s[k] == '-'
  }

  /** `[\w.-]+`: the host part. */
  predicate HostWord(s: string)
  {
    |s| > 0 && forall k :: 0 <= k < |s| ==> IsWordChar(s[k]) || s[k] == '.' || s[k] == '-'
  }

  /** `name` or `name@host`, as written in a request. */
  function Reference(name: string, host: Option<string>): string
  {
    name + (if host.Some? then "@" + host.value else "")
  }

  /** `/^([\w+-]+)(?:@([\w.-]+))?$/.exec(s)`: the two capture groups, the
      second one `undefined` (None) when the optional part is absent. Neither
      group can hold `@`, so a match cuts `s` at its only `@`, if any. */
  function MatchCustom(s: string): (m: Option<(string, Option<string>)>)
    ensures m.Some? ==> NameWord(m.value.0) && (m.value.1.Some? ==> HostWord(m.value.1.value))
  {
    var parts := Split(s, '@');
    if |parts| == 1 && NameWord(parts[0]) then Some((parts[0], None))
    else if |parts| == 2 && NameWord(parts[0]) && HostWord(parts[1]) then Some((parts[0], Some(parts[1])))
    else None
  }

  /** The repository key the endpoint reads: for a match, the first group and
      the second, with `.` and an absent or empty second group meaning the
      local host; without a match, the whole name on the local host. */
  function LookupKey(name: string): (key: (string, Option<string>))
    ensures key.1.Some? ==> key.1.value != "." && key.1.value != ""
  {
    match MatchCustom(name)
    case Some((n, h)) => (n, if h == Some(".") then None else if h.Some? && h.value != "" then h else None)
    case None => (name, None)
  }

  lemma NoAt(s: string)
    requires NameWord(s) || HostWord(s)
    ensures '@' !in s
  {
    forall k | 0 <= k < |s|
      ensures s[k] != '@'
    {
    }
  }

  /** The pattern matches exactly the references `name` and `name@host` with
      a name of `[\w+-]` and a host of `[\w.-]` characters, and captures
      those two parts. */
  lemma MatchCustomIff(s: string, name: string, host: Option<string>)
    ensures MatchCustom(s) == Some((name, host))
      <==> NameWord(name) && (host.Some? ==> HostWord(host.value)) && s == Reference(name, host)
  {
    if MatchCustom(s) == Some((name, host)) {
      var parts := Split(s, '@');
      JoinSplit(s, '@');
      if host.Some? {
        assert parts[1..] == [parts[1]];
      }
    }
    if NameWord(name) && (host.Some? ==> HostWord(host.value)) && s == Reference(name, host) {
      NoAt(name);
      if host.Some? {
        NoAt(host.value);
        SplitPrefix(name, host.value, '@');
        SplitNoSeparator(host.value, '@');
        assert s == name + ['@'] + host.value;
      } else {
        assert s == name;
        SplitNoSeparator(name, '@');
      }
    }
  }

  /** A custom emoji reference is looked up under its name, on its host, or
      locally when the host is `.` or missing. */
  lemma ReferenceLookupKey(name: string, host: Option<string>)
    requires NameWord(name) && (host.Some? ==> HostWord(host.value))
    ensures LookupKey(Reference(name, host)) == (name, LocalHost(host))
  {
    MatchCustomIff(Reference(name, host), name, host);
  }

  /** A name the pattern does not match is looked up verbatim as a local emoji. */
  lemma UnmatchedLookupKey(name: string)
    requires MatchCustom(name).None?
    ensures LookupKey(name) == (name, None)
  {
  }

  /** For names of letters, digits, `_` and `-`, which both accept, the API
      endpoint and the `/emoji/<name>@<host>.webp` route look up the same key. */
  lemma EndpointAgreesWithRoute(name: string, host: Option<string>)
    requires NameWord(name) && (host.Some? ==> HostWord(host.value))
    requires forall k :: 0 <= k < |name| ==> name[k] != '+'
    ensures ParseEmojiPath(EmojiPath(name, host)) == Lookup(LookupKey(Reference(name, host)).0, LookupKey(Reference(name, host)).1)
  {
    ReferenceLookupKey(name, host);
    assert PlainPathChars(name);
    if host.Some? {
      assert PlainPathChars(host.value);
    }
    EmojiPathRoundTrip(name, host);
  }
}
