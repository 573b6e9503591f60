/**
 * Two pieces of the HTTP server: the `/emoji/:path` route, which reads
 * `name@host.webp` out of the path and answers with a status or a redirect
 * to the media proxy, and the `onSend` guard that refuses to relay a
 * redirect to another server when the request looks like an ActivityPub
 * object lookup.
 */
module EmojiRoute {
  import opened Common
  import opened Strings

  // The emoji route

  /** The characters of `[a-zA-Z0-9\-_@\.]`. */
  predicate IsPathChar(c: char)
  {
    ('a' <= c <= 'z') || ('A' <= c <= 'Z') || ('0' <= c <= '9') || c == '-' || c == '_' || c == '@' || c == '.'
  }

  const Webp := ".webp"

  /** `/^[a-zA-Z0-9\-_@\.]+?\.webp$/`: at least one path character, then
      `.webp` (in lower case) at the very end. */
  predicate ValidEmojiPath(path: string)
  {
    |path| > |Webp| && EndsWith(path, Webp)
    && forall k :: 0 <= k < |path| - |Webp| ==> IsPathChar(path[k])
  }

  /** `path.replace(/\.webp$/i, '')`: a trailing `.webp` in any case is cut off. */
  function StripWebp(path: string): (r: string)
    ensures EndsWith(path, Webp) ==> r == path[..|path| - |Webp|]
  {
    if EndsWith(ToLowerAscii(path), Webp) then path[..|path| - |Webp|] else path
  }

  /** The host of the lookup: none (`undefined`) and `.` both mean a local emoji. */
  function LocalHost(host: Option<string>): (r: Option<string>)
    ensures r.Some? <==> host.Some? && host.value != "."
    ensures r.Some? ==> r == host
  {
    if host == None || host == Some(".") then None else host
  }

  datatype EmojiRoute =
    | NotFound                                      // 404 before any lookup
    | BadRequest                                    // 400 before any lookup
    | Lookup(name: string, host: Option<string>)    // the key the repository is asked for

  /** The path checks of the `/emoji/:path` handler up to the repository lookup:
      `split('@')`, then `shift()` for the name and `pop()` for the host. */
  function ParseEmojiPath(path: string): (r: EmojiRoute)
    ensures r.Lookup? ==> ValidEmojiPath(path) && '@' !in r.name
    ensures r.Lookup? && r.host.Some? ==> '@' !in r.host.value && r.host.value != "."
  {
    if !ValidEmojiPath(path) then NotFound
    else
      var chunks := Split(StripWebp(path), '@');
      if |chunks| > 2 then BadRequest
      else
        var name := chunks[0];
        var host := if |chunks| == 2 then Some(chunks[1]) else None;
        Lookup(name, LocalHost(host))
  }

  /** The path a lookup of `name` at `host` is requested under. */
  function EmojiPath(name: string, host: Option<string>): string
  {
    name + (if host.Some? then "@" + host.value else "") + Webp
  }

  /** Path characters other than `@`. */
  predicate PlainPathChars(s: string)
  {
    forall k :: 0 <= k < |s| ==> IsPathChar(s[k]) && s[k] != '@'
  }

  /** A path is refused with 404 exactly when it fails the pattern, with 400
      exactly when it passes but holds two or more `@`, and is looked up
      otherwise. */
  lemma EmojiPathOutcomes(path: string)
    ensures ParseEmojiPath(path).NotFound? <==> !ValidEmojiPath(path)
    ensures ParseEmojiPath(path).BadRequest? <==> ValidEmojiPath(path) && CountChar(path, '@') >= 2
  {
    if ValidEmojiPath(path) {
      var stripped := StripWebp(path);
      SplitLength(stripped, '@');
      assert path == stripped + Webp;
      CountAppend(stripped, Webp, '@');
    }
  }

  lemma {:induction false} CountAppend(a: string, b: string, c: char)
    ensures CountChar(a + b, c) == CountChar(a, c) + CountChar(b, c)
  {
    if a == [] {
      assert a + b == b;
    } else {
      assert (a + b)[0] == a[0];
      assert (a + b)[1..] == a[1..] + b;
      CountAppend(a[1..], b, c);
    }
  }

  /** Requesting `name.webp` or `name@host.webp` looks up `name` at that host,
      with `.` read as the local host. */
  lemma EmojiPathRoundTrip(name: string, host: Option<string>)
    requires PlainPathChars(name)
    requires host.Some? ==> PlainPathChars(host.value)
    requires host.Some? || name != ""
    ensures ParseEmojiPath(EmojiPath(name, host)) == Lookup(name, LocalHost(host))
  {
    var stem := name + (if host.Some? then "@" + host.value else "");
    var path := EmojiPath(name, host);
    assert path == stem + Webp;
    assert path[..|path| - |Webp|] == stem;
    assert ValidEmojiPath(path) by {
      assert path[|path| - |Webp|..] == Webp;
      forall k | 0 <= k < |path| - |Webp|
        ensures IsPathChar(path[k])
      {
        assert path[k] == stem[k];
        if host.Some? && k > |name| {
          assert stem[k] == host.value[k - |name| - 1];
        }
      }
    }
    assert '@' !in name by {
      forall k | 0 <= k < |name| ensures name[k] != '@' { }
    }
    if host.Some? {
      assert '@' !in host.value by {
        forall k | 0 <= k < |host.value| ensures host.value[k] != '@' { }
      }
      SplitPrefix(name, host.value, '@');
      SplitNoSeparator(host.value, '@');
      assert stem == name + ['@'] + host.value;
    } else {
      assert stem == name;
      SplitNoSeparator(name, '@');
    }
  }

  /** Every looked-up key comes from a path of the form `name.webp` or
      `name@host.webp`. */
  lemma LookupHasEmojiPath(path: string) returns (host: Option<string>)
    requires ParseEmojiPath(path).Lookup?
    ensures path == EmojiPath(ParseEmojiPath(path).name, host)
    ensures LocalHost(host) == ParseEmojiPath(path).host
  {
    var stripped := StripWebp(path);
    var chunks := Split(stripped, '@');
    JoinSplit(stripped, '@');
    assert path == stripped + Webp;
    assert ParseEmojiPath(path).name == chunks[0];
    if |chunks| == 2 {
      host := Some(chunks[1]);
      assert chunks[1..] == [chunks[1]];
      assert stripped == chunks[0] + "@" + chunks[1];
    } else {
      host := None;
      assert stripped == chunks[0];
    }
  }

  /** A stored custom emoji, as far as the route reads it. */
  datatype Emoji = Emoji(publicUrl: string, originalUrl: string)

  /** Which of `fallback`, `badge` and `static` the query string carries. */
  datatype EmojiQuery = EmojiQuery(fallback: bool, badge: bool, staticImage: bool)

  /** Where a redirect points: a path on this server, or the media proxy
      with its query parameters in order. */
  datatype Target = Local(path: string) | Proxy(url: string, params: seq<(string, string)>)

  datatype EmojiAnswer = Status(code: nat) | Redirect(target: Target, code: nat)

  /** The `/emoji/:path` handler, with the repository lookup as `find`. A
      missing emoji is 404, or a 302 to the placeholder image with
      `fallback`; a found one is a 301 to the media proxy, which is given
      `publicUrl || originalUrl`. */
  function ServeEmoji(path: string, query: EmojiQuery, mediaProxy: string,
                      find: (string, Option<string>) -> Option<Emoji>): (answer: EmojiAnswer)
    ensures ParseEmojiPath(path).NotFound? ==> answer == Status(404)
    ensures ParseEmojiPath(path).BadRequest? ==> answer == Status(400)
    ensures var p := ParseEmojiPath(path);
      p.Lookup? && find(p.name, p.host).None? ==>
        answer == if query.fallback then Redirect(Local("/static-assets/emoji-unknown.png"), 302) else Status(404)
    ensures answer.Redirect? && answer.target.Proxy? ==> answer.code == 301
    ensures answer.Redirect? && answer.target.Proxy? && !query.badge ==>
      (query.staticImage <==> |answer.target.params| == 3 && answer.target.params[2] == ("static", "1"))
  {
    match ParseEmojiPath(path)
    case NotFound => Status(404)
    case BadRequest => Status(400)
    case Lookup(name, host) =>
      var emoji := find(name, host);
      if emoji.None? then
        if query.fallback then Redirect(Local("/static-assets/emoji-unknown.png"), 302) else Status(404)
      else
        var url := if emoji.value.publicUrl != "" then emoji.value.publicUrl else emoji.value.originalUrl;
        if query.badge then
          Redirect(Proxy(mediaProxy + "/emoji.png", [("url", url), ("badge", "1")]), 301)
        else
          Redirect(Proxy(mediaProxy + "/emoji.webp", [("url", url), ("emoji", "1")]
                         + (if query.staticImage then [("static", "1")] else [])), 301)
  }

  /** A path refused before the lookup gets the same answer whatever the
      repository holds. */
  lemma RefusedPathIgnoresRepository(path: string, query: EmojiQuery, mediaProxy: string,
                                     find1: (string, Option<string>) -> Option<Emoji>,
                                     find2: (string, Option<string>) -> Option<Emoji>)
    requires !ParseEmojiPath(path).Lookup?
    ensures ServeEmoji(path, query, mediaProxy, find1) == ServeEmoji(path, query, mediaProxy, find2)
  {
  }

  /** A found emoji is proxied from its public URL, or from its original URL
      when the public one is empty; the answer depends on the repository only
      through the emoji found under the parsed key. */
  lemma ServedFromFoundEmoji(path: string, query: EmojiQuery, mediaProxy: string,
                             find: (string, Option<string>) -> Option<Emoji>)
    requires ParseEmojiPath(path).Lookup?
    requires find(ParseEmojiPath(path).name, ParseEmojiPath(path).host).Some?
    ensures var e := find(ParseEmojiPath(path).name, ParseEmojiPath(path).host).value;
      var answer := ServeEmoji(path, query, mediaProxy, find);
      && answer.Redirect? && answer.target.Proxy? && answer.code == 301
      && answer.target.params[0] == ("url", if e.publicUrl != "" then e.publicUrl else e.originalUrl)
      && (query.badge <==> answer.target.url == mediaProxy + "/emoji.png")
  {
    var answer := ServeEmoji(path, query, mediaProxy, find);
    if !query.badge {
      assert answer.target.url[|mediaProxy|..] == "/emoji.webp";
    } else {
      assert answer.target.url[|mediaProxy|..] == "/emoji.png";
    }
  }

  // The ActivityPub redirect guard

  /** A header value: a string, or something else (a number or a list). */
  datatype HeaderValue = Text(text: string) | NonText

  /** The outgoing reply the `onSend` hook sees and may change. */
  class Reply {
    var statusCode: int
    var headers: map<string, HeaderValue>
    var payload: Option<string>

    constructor(statusCode: int, headers: map<string, HeaderValue>, payload: Option<string>)
      ensures this.statusCode == statusCode && this.headers == headers && this.payload == payload
    {
      this.statusCode := statusCode;
      this.headers := headers;
      this.payload := payload;
    }
  }

  const ActivityJson := "application/activity+json"
  const LdJson := "application/ld+json"
  const ActivityStreams := "activitystreams"

  /** No character of `s` is a line terminator, so `.` matches each of them. */
  predicate NoLineBreak(s: string)
  {
    forall k :: 0 <= k < |s| ==> !IsLineTerminator(s[k])
  }

  /** `/application\/activity\+json|application\/ld\+json.+activitystreams/i`:
      matched without regard to ASCII case, the first alternative anywhere, or
      `application/ld+json`, at least one character that is not a line
      break, and `activitystreams`. */
  predicate ApLookupAccept(accept: string)
  {
    var l := ToLowerAscii(accept);
    || Contains(l, ActivityJson)
    || exists i, j :: 0 <= i < |l| && 0 <= j < |l| && OccursAt(l, LdJson, i) && OccursAt(l, ActivityStreams, j)
         && i + |LdJson| < j && NoLineBreak(l[i + |LdJson|..j])
  }

  /** Outside production a leading `http://` is read as `https://`. */
  function EffectiveLocation(location: string, production: bool): (r: string)
    ensures production || !StartsWith(location, "http://") ==> r == location
    ensures !production && StartsWith(location, "http://") ==> r == "https://" + location[7..]
    ensures StartsWith(location, "https://") ==> r == location
  {
    if !production && StartsWith(location, "http://") then
      assert location[4] == "http://"[4] != "https://"[4];
      "https://" + location[7..]
    else location
  }

  const RefusalLine := "Refusing to relay remote ActivityPub object lookup."
  const AdviceLine := "Please remove 'application/activity+json' and 'application/ld+json' from the Accept header or fetch using the authoritative URL at "

  /** The refusal's text body: its three lines (the second one empty)
      joined with line feeds. */
  function RefusalBody(location: string): string
  {
    RefusalLine + "\n" + "\n" + AdviceLine + location + "."
  }

  /** The guard refuses a reply when it is installed, the reply is a 3xx with
      a string `location`, the Accept header looks like an ActivityPub lookup,
      and the location does not lie under `https://{host}/`. */
  predicate Refuses(allowExternalApRedirect: bool, statusCode: int, location: Option<HeaderValue>,
                    accept: Option<string>, production: bool, host: string)
    ensures Refuses(allowExternalApRedirect, statusCode, location, accept, production, host) ==>
      location.Some? && location.value.Text? && !StartsWith(location.value.text, "https://" + host + "/")
  {
    && !allowExternalApRedirect
    && 300 <= statusCode < 400
    && location.Some? && location.value.Text?
    && ApLookupAccept(accept.GetOr(""))
    && !StartsWith(EffectiveLocation(location.value.text, production), "https://" + host + "/")
  }

  function Location(headers: map<string, HeaderValue>): Option<HeaderValue>
  {
    if "location" in headers then Some(headers["location"]) else None
  }

  /** The `onSend` hook, installed only when `allowExternalApRedirect` is off.
      A refused reply becomes a 406 without `location`, with a plain-text
      content type, a canonical `link` to the original location (escaped by
      `encodeUri`) and the refusal text as its body; every other reply goes
      out untouched. */
  method GuardApRedirect(reply: Reply, allowExternalApRedirect: bool, accept: Option<string>,
                         production: bool, host: string, encodeUri: string -> string)
    modifies reply
    ensures !Refuses(allowExternalApRedirect, old(reply.statusCode), Location(old(reply.headers)), accept, production, host)
      ==> unchanged(reply)
    ensures Refuses(allowExternalApRedirect, old(reply.statusCode), Location(old(reply.headers)), accept, production, host)
      ==> var location := old(reply.headers)["location"].text;
        && reply.statusCode == 406
        && reply.headers == (old(reply.headers) - {"location"})["content-type" := Text("text/plain; charset=utf-8")]
                              ["link" := Text("<" + encodeUri(location) + ">; rel=\"canonical\"")]
        && reply.payload == Some(RefusalBody(location))
  {
    var refuse := RefusesLookup(allowExternalApRedirect, reply.statusCode, Location(reply.headers), accept, production, host);
    if refuse {
      var location := reply.headers["location"].text;
      reply.statusCode := 406;
      reply.headers := reply.headers - {"location"};
      reply.headers := reply.headers["content-type" := Text("text/plain; charset=utf-8")];
      reply.headers := reply.headers["link" := Text("<" + encodeUri(location) + ">; rel=\"canonical\"")];
      reply.payload := Some(RefusalBody(location));
    }
  }

  /** The hook's checks in order: the hook is installed, the reply is a 3xx
      with a string `location`, the Accept header looks like a lookup, and
      the location lies outside this server. */
  method RefusesLookup(allowExternalApRedirect: bool, statusCode: int, location: Option<HeaderValue>,
                       accept: Option<string>, production: bool, host: string) returns (refuse: bool)
    ensures refuse == Refuses(allowExternalApRedirect, statusCode, location, accept, production, host)
  {
    if allowExternalApRedirect {
      return false;
    }
    if statusCode < 300 || statusCode >= 400 || !(location.Some? && location.value.Text?) {
      return false;
    }
    if !ApLookupAccept(accept.GetOr("")) {
      return false;
    }
    var effective := EffectiveLocation(location.value.text, production);
    if StartsWith(effective, "https://" + host + "/") {
      return false;
    }
    return true;
  }

  /** A redirect under this server's `https` origin always passes. */
  lemma OwnOriginPasses(statusCode: int, location: string, accept: Option<string>, production: bool, host: string)
    requires StartsWith(location, "https://" + host + "/")
    ensures !Refuses(false, statusCode, Some(Text(location)), accept, production, host)
  {
    assert location[..8] == ("https://" + host + "/")[..8] == "https://";
  }

  /** Outside production an `http` redirect to this server passes too; in
      production every `http` redirect of a lookup is refused. */
  lemma PlainHttpRedirect(location: string, accept: string, host: string)
    requires StartsWith(location, "http://")
    requires ApLookupAccept(accept)
    ensures StartsWith(location, "http://" + host + "/") ==> !Refuses(false, 302, Some(Text(location)), Some(accept), false, host)
    ensures Refuses(false, 302, Some(Text(location)), Some(accept), true, host)
  {
    assert location[4] == ':';
    if StartsWith(location, "http://" + host + "/") {
      var prefix := "http://" + host + "/";
      var upgraded := "https://" + location[7..];
      assert location[7..|prefix|] == host + "/";
      assert upgraded[..|prefix| + 1] == "https://" + location[7..|prefix|];
    }
  }

  /** With the guard installed, only redirects are touched, and only for
      lookups: an ordinary browser request is never refused. */
  lemma BrowserAcceptPasses(statusCode: int, location: string, production: bool, host: string)
    ensures !Refuses(false, statusCode, Some(Text(location)), Some("text/html"), production, host)
    ensures !Refuses(false, statusCode, Some(Text(location)), None, production, host)
  {
    assert ToLowerAscii("text/html") == "text/html";
    assert ToLowerAscii("") == "";
  }

  /** Lower-casing distributes over concatenation. */
  lemma LowerAppend(a: string, b: string)
    ensures ToLowerAscii(a + b) == ToLowerAscii(a) + ToLowerAscii(b)
  {
    assert forall k :: 0 <= k < |a + b| ==> (a + b)[k] == if k < |a| then a[k] else b[k - |a|];
  }

  /** `application/activity+json` is recognised in any case. */
  lemma ActivityJsonAccepted(accept: string)
    requires ToLowerAscii(accept) == ActivityJson
    ensures ApLookupAccept(accept)
  {
    assert OccursAt(ActivityJson, ActivityJson, 0);
  }

  /** `application/ld+json`, then a non-empty run of characters on one line,
      then `activitystreams` is recognised; the usual
      `application/ld+json; profile="https://www.w3.org/ns/activitystreams"`
      is one such header. */
  lemma LdJsonProfileAccepted(mid: string, rest: string)
    requires mid != [] && NoLineBreak(ToLowerAscii(mid))
    ensures ApLookupAccept(LdJson + mid + ActivityStreams + rest)
  {
    var lmid := ToLowerAscii(mid);
    var l := ToLowerAscii(LdJson + mid + ActivityStreams + rest);
    LowerLdJson(mid, rest);
    var j := |LdJson| + |mid|;
    assert OccursAt(l, LdJson, 0);
    assert OccursAt(l, ActivityStreams, j);
    assert l[|LdJson|..j] == lmid;
  }

  lemma LowerLdJson(mid: string, rest: string)
    ensures ToLowerAscii(LdJson + mid + ActivityStreams + rest)
      == LdJson + ToLowerAscii(mid) + (ActivityStreams + ToLowerAscii(rest))
  {
    LowerAppend(LdJson + mid, ActivityStreams + rest);
    LowerAppend(LdJson, mid);
    LowerAppend(ActivityStreams, rest);
    assert ToLowerAscii(LdJson) == LdJson;
    assert ToLowerAscii(ActivityStreams) == ActivityStreams;
  }
}
