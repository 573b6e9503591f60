/**
 * Note search: which notes go into the full-text index, the filter language
 * sent to the search engine and its compiler, the filter a search request
 * produces, the text conditions of the SQL search, and the order of results.
 */
module Search {
  import opened Common
  import opened Strings
  import opened Sorting

  // Filter language

  /** A filter value: a string, a number or a boolean. */
  datatype Value = VStr(s: string) | VNum(n: int) | VBool(b: bool)

  /** A filter: comparisons on a key, null tests, and connectives. */
  datatype Query =
    | Eq(k: string, v: Value)
    | Ne(k: string, v: Value)
    | Gt(k: string, n: int)
    | Lt(k: string, n: int)
    | Ge(k: string, n: int)
    | Le(k: string, n: int)
    | IsNull(k: string)
    | IsNotNull(k: string)
    | And(qs: seq<Query>)
    | Or(qs: seq<Query>)
    | Not(q: Query)

  /** `compileValue` as written: a string goes between single quotes as it is. */
  function CompileValueAsWritten(v: Value): (r: string)
    ensures v.VStr? ==> r == "'" + v.s + "'"
    ensures v.VNum? ==> r == IntToString(v.n)
    ensures v.VBool? ==> r == (if v.b then "true" else "false")
  {
    match v
    case VStr(s) => "'" + s + "'"
    case VNum(n) => IntToString(n)
    case VBool(b) => if b then "true" else "false"
  }

  /** A string with every quote and backslash preceded by a backslash, the
      escape the search engine's filter syntax reads inside a quoted string. */
  function Escape(s: string): (r: string)
    ensures |r| == |s| + CountChar(s, '\'') + CountChar(s, '\\')
  {
    if s == [] then []
    else (if s[0] == '\'' || s[0] == '\\' then ['\\', s[0]] else [s[0]]) + Escape(s[1..])
  }

  /** How the search engine reads a quoted string whose opening quote is
      already consumed: the body up to the first unescaped quote, and the
      text after that quote. */
  function ReadQuoted(t: string): Option<(string, string)>
    decreases |t|
  {
    if t == [] then None
    else if t[0] == '\'' then Some(([], t[1..]))
    else if t[0] == '\\' && |t| >= 2 then
      match ReadQuoted(t[2..])
      case None => None
      case Some((body, rest)) => Some(([t[1]] + body, rest))
    else
      match ReadQuoted(t[1..])
      case None => None
      case Some((body, rest)) => Some(([t[0]] + body, rest))
  }

  /** An escaped string reads back as itself and ends at the closing quote. */
  lemma {:induction false} ReadEscaped(s: string, rest: string)
    ensures ReadQuoted(Escape(s) + "'" + rest) == Some((s, rest))
  {
    if s != [] {
      ReadEscaped(s[1..], rest);
      var head := if s[0] == '\'' || s[0] == '\\' then ['\\', s[0]] else [s[0]];
      var t := Escape(s) + "'" + rest;
      assert t == head + (Escape(s[1..]) + "'" + rest);
      if s[0] == '\'' || s[0] == '\\' {
        assert t[2..] == Escape(s[1..]) + "'" + rest;
      } else {
        assert t[1..] == Escape(s[1..]) + "'" + rest;
      }
      assert s == [s[0]] + s[1..];
    }
  }

  /** `compileValue` with the quoting its comment asks for. */
  function CompileValue(v: Value): (r: string)
    ensures v.VNum? ==> r == IntToString(v.n)
    ensures v.VBool? ==> r == (if v.b then "true" else "false")
    ensures v.VStr? ==> |r| >= 2 && r[0] == '\'' && r[|r| - 1] == '\''
  {
    match v
    case VStr(s) => "'" + Escape(s) + "'"
    case VNum(n) => IntToString(n)
    case VBool(b) => if b then "true" else "false"
  }

  /** A quoted value is one string literal: whatever follows it in a filter,
      the engine reads exactly the value and resumes after its closing quote. */
  lemma QuotedValueReadsBack(s: string, rest: string)
    ensures ReadQuoted(CompileValue(VStr(s))[1..] + rest) == Some((s, rest))
  {
    assert CompileValue(VStr(s))[1..] + rest == Escape(s) + "'" + rest;
    ReadEscaped(s, rest);
  }

  /** Escaping leaves a string without quotes and backslashes as it is. */
  lemma {:induction false} EscapePlain(s: string)
    requires '\'' !in s && '\\' !in s
    ensures Escape(s) == s
  {
    if s != [] {
      EscapePlain(s[1..]);
      assert s == [s[0]] + s[1..];
    }
  }

  /** As written, a string value `a + "'" + r` (with `a` free of quotes and
      backslashes) ends its literal after `a`: the engine reads `r` and the
      closing quote as filter syntax. */
  lemma UnescapedQuoteEndsLiteral(a: string, r: string)
    requires '\'' !in a && '\\' !in a
    ensures ReadQuoted(CompileValueAsWritten(VStr(a + "'" + r))[1..]) == Some((a, r + "'"))
  {
    EscapePlain(a);
    assert CompileValueAsWritten(VStr(a + "'" + r))[1..] == Escape(a) + "'" + (r + "'");
    ReadEscaped(a, r + "'");
  }

  /** A compiled value, escaped or as written. */
  function Quote(v: Value, escaped: bool): (r: string)
    ensures !v.VStr? ==> r == CompileValue(v) && r == CompileValueAsWritten(v)
    ensures v.VStr? ==> |r| >= 2 && r[0] == '\'' && r[|r| - 1] == '\''
  {
    if escaped then CompileValue(v) else CompileValueAsWritten(v)
  }

  /** `compileQuery`; `escaped` selects the quoting of string values, false
      being the code as written. A connective without children compiles to
      the empty string; everything else is parenthesised. */
  function CompileQuery(q: Query, escaped: bool): (r: string)
    decreases q
    ensures r == "" <==> (q.And? || q.Or?) && q.qs == []
    ensures r != "" ==> r[0] == '(' && r[|r| - 1] == ')'
  {
    match q
    case Eq(k, v) => "(" + k + " = " + Quote(v, escaped) + ")"
    case Ne(k, v) => "(" + k + " != " + Quote(v, escaped) + ")"
    case Gt(k, n) => "(" + k + " > " + Quote(VNum(n), escaped) + ")"
    case Lt(k, n) => "(" + k + " < " + Quote(VNum(n), escaped) + ")"
    case Ge(k, n) => "(" + k + " >= " + Quote(VNum(n), escaped) + ")"
    case Le(k, n) => "(" + k + " <= " + Quote(VNum(n), escaped) + ")"
    case And(qs) =>
      if |qs| == 0 then ""
      else "(" + Join(seq(|qs|, i requires 0 <= i < |qs| => CompileQuery(qs[i], escaped)), " AND ") + ")"
    case Or(qs) =>
      if |qs| == 0 then ""
      else "(" + Join(seq(|qs|, i requires 0 <= i < |qs| => CompileQuery(qs[i], escaped)), " OR ") + ")"
    case IsNull(k) => "(" + k + " IS NULL)"
    case IsNotNull(k) => "(" + k + " IS NOT NULL)"
    case Not(q') => "(NOT " + CompileQuery(q', escaped) + ")"
  }

  // Indexing

  /** The fields of a note the index and the search read. */
  datatype IndexedNote = IndexedNote(
    id: string,
    userId: string,
    userHost: Option<string>,
    channelId: Option<string>,
    text: Option<string>,
    cw: Option<string>,
    visibility: string,
    tags: seq<string>)

  /** Which notes' hosts are indexed. */
  datatype IndexScope = GlobalScope | LocalScope | HostScope(hosts: seq<string>)

  /** `indexNote`'s gate: the search engine is configured, the note has text
      or a content warning, it is home or public, and its host is in scope
      (a local note always is). */
  function ShouldIndex(meilisearch: bool, scope: IndexScope, note: IndexedNote): (b: bool)
    ensures b <==>
      && meilisearch
      && (note.text.Some? || note.cw.Some?)
      && note.visibility in {"home", "public"}
      && (note.userHost.None? || scope.GlobalScope? || (scope.HostScope? && note.userHost.value in scope.hosts))
  {
    if !meilisearch then false
    else if note.text.None? && note.cw.None? then false
    else if note.visibility != "home" && note.visibility != "public" then false
    else
      match scope
      case GlobalScope => true
      case LocalScope => note.userHost.None?
      case HostScope(hosts) => note.userHost.None? || note.userHost.value in hosts
  }

  /** `unindexNote`'s gate: only the visibility is consulted. */
  function ShouldUnindex(meilisearch: bool, note: IndexedNote): (b: bool)
    ensures b <==> meilisearch && note.visibility in {"home", "public"}
  {
    meilisearch && (note.visibility == "home" || note.visibility == "public")
  }

  /** Every indexed note is removed again by `unindexNote`. */
  lemma IndexedNotesAreUnindexed(meilisearch: bool, scope: IndexScope, note: IndexedNote)
    ensures ShouldIndex(meilisearch, scope, note) ==> ShouldUnindex(meilisearch, note)
  {
  }

  /** A wider scope indexes at least what a narrower one does. */
  lemma ScopesNest(meilisearch: bool, hosts: seq<string>, note: IndexedNote)
    ensures ShouldIndex(meilisearch, LocalScope, note) ==> ShouldIndex(meilisearch, HostScope(hosts), note)
    ensures ShouldIndex(meilisearch, HostScope(hosts), note) ==> ShouldIndex(meilisearch, GlobalScope, note)
  {
  }

  // Search engine request

  /** A JavaScript truthy optional string. */
  predicate Given(o: Option<string>)
  {
    o.Some? && o.value != ""
  }

  /** The conditions a search request contributes, in the order they are
      pushed; `createdAt` gives the creation time encoded in a note id. */
  function FilterTerms(untilId: Option<string>, sinceId: Option<string>, userId: Option<string>, channelId: Option<string>,
                       host: Option<string>, createdAt: string -> int): (r: seq<Query>)
    ensures |r| <= 5
    ensures forall t :: t in r ==> t.Lt? || t.Gt? || t.Eq? || t == IsNull("userHost")
  {
    UntilTerm(untilId, createdAt) + (SinceTerm(sinceId, createdAt) + (KeyTerm("userId", userId) + (KeyTerm("channelId", channelId) + HostTerm(host))))
  }

  function UntilTerm(untilId: Option<string>, createdAt: string -> int): (r: seq<Query>)
    ensures forall t :: t in r ==> t.Lt?
  {
    if Given(untilId) then [Lt("createdAt", createdAt(untilId.value))] else []
  }

  function SinceTerm(sinceId: Option<string>, createdAt: string -> int): (r: seq<Query>)
    ensures forall t :: t in r ==> t.Gt?
  {
    if Given(sinceId) then [Gt("createdAt", createdAt(sinceId.value))] else []
  }

  function KeyTerm(key: string, value: Option<string>): (r: seq<Query>)
    ensures forall t :: t in r ==> t.Eq? && t.k == key
  {
    if Given(value) then [Eq(key, VStr(value.value))] else []
  }

  function HostTerm(host: Option<string>): (r: seq<Query>)
    ensures forall t :: t in r ==> t == IsNull("userHost") || (t.Eq? && t.k == "userHost")
  {
    if !Given(host) then []
    else if host.value == "." then [IsNull("userHost")]
    else [Eq("userHost", VStr(host.value))]
  }

  /** `untilId` bounds the creation time from above exactly when it is given,
      and no other term is an upper bound. */
  lemma FilterTermsUntil(untilId: Option<string>, sinceId: Option<string>, userId: Option<string>, channelId: Option<string>,
                         host: Option<string>, createdAt: string -> int)
    ensures var qs := FilterTerms(untilId, sinceId, userId, channelId, host, createdAt);
      && (Given(untilId) ==> Lt("createdAt", createdAt(untilId.value)) in qs)
      && (forall t: Query :: t in qs && t.Lt? ==> Given(untilId) && t == Lt("createdAt", createdAt(untilId.value)))
  {
    var until := UntilTerm(untilId, createdAt);
    var others := SinceTerm(sinceId, createdAt) + (KeyTerm("userId", userId) + (KeyTerm("channelId", channelId) + HostTerm(host)));
    forall t: Query | t in until + others && t.Lt?
      ensures t in until
    {
      assert t !in others;
    }
  }

  /** `sinceId` bounds the creation time from below exactly when it is given,
      and no other term is a lower bound. */
  lemma FilterTermsSince(untilId: Option<string>, sinceId: Option<string>, userId: Option<string>, channelId: Option<string>,
                         host: Option<string>, createdAt: string -> int)
    ensures var qs := FilterTerms(untilId, sinceId, userId, channelId, host, createdAt);
      && (Given(sinceId) ==> Gt("createdAt", createdAt(sinceId.value)) in qs)
      && (forall t: Query :: t in qs && t.Gt? ==> Given(sinceId) && t == Gt("createdAt", createdAt(sinceId.value)))
  {
    var until, since := UntilTerm(untilId, createdAt), SinceTerm(sinceId, createdAt);
    var others := KeyTerm("userId", userId) + (KeyTerm("channelId", channelId) + HostTerm(host));
    forall t: Query | t in until + (since + others) && t.Gt?
      ensures t in since
    {
      assert t !in until && t !in others;
    }
  }

  /** The author is matched exactly when given. */
  lemma FilterTermsMatchAuthor(untilId: Option<string>, sinceId: Option<string>, userId: Option<string>, channelId: Option<string>,
                               host: Option<string>, createdAt: string -> int)
    ensures var qs := FilterTerms(untilId, sinceId, userId, channelId, host, createdAt);
      && (Given(userId) ==> Eq("userId", VStr(userId.value)) in qs)
      && (forall t: Query :: t in qs && t.Eq? && t.k == "userId" ==> Given(userId) && t == Eq("userId", VStr(userId.value)))
  {
    var until, since := UntilTerm(untilId, createdAt), SinceTerm(sinceId, createdAt);
    var user, rest := KeyTerm("userId", userId), KeyTerm("channelId", channelId) + HostTerm(host);
    assert "userId"[0] != "channelId"[0] && "userId"[4] != "userHost"[4];
    forall t: Query | t in until + (since + (user + rest)) && t.Eq? && t.k == "userId"
      ensures t in user
    {
      assert t !in until && t !in since && t !in rest;
    }
  }

  /** The channel is matched exactly when given. */
  lemma FilterTermsMatchChannel(untilId: Option<string>, sinceId: Option<string>, userId: Option<string>, channelId: Option<string>,
                                host: Option<string>, createdAt: string -> int)
    ensures var qs := FilterTerms(untilId, sinceId, userId, channelId, host, createdAt);
      && (Given(channelId) ==> Eq("channelId", VStr(channelId.value)) in qs)
      && (forall t: Query :: t in qs && t.Eq? && t.k == "channelId" ==> Given(channelId) && t == Eq("channelId", VStr(channelId.value)))
  {
    var until, since, user := UntilTerm(untilId, createdAt), SinceTerm(sinceId, createdAt), KeyTerm("userId", userId);
    var channel, hostTerm := KeyTerm("channelId", channelId), HostTerm(host);
    assert "channelId"[0] != "userId"[0] && "channelId"[0] != "userHost"[0];
    forall t: Query | t in until + (since + (user + (channel + hostTerm))) && t.Eq? && t.k == "channelId"
      ensures t in channel
    {
      assert t !in until && t !in since && t !in user && t !in hostTerm;
    }
  }

  /** Host `.` selects local notes (no host); any other given host is matched exactly. */
  lemma FilterTermsHost(untilId: Option<string>, sinceId: Option<string>, userId: Option<string>, channelId: Option<string>,
                        host: Option<string>, createdAt: string -> int)
    ensures var qs := FilterTerms(untilId, sinceId, userId, channelId, host, createdAt);
      && (IsNull("userHost") in qs <==> host == Some("."))
      && (Given(host) && host.value != "." ==> Eq("userHost", VStr(host.value)) in qs)
      && (forall t: Query :: t in qs && t.Eq? && t.k == "userHost" ==> Given(host) && host.value != "." && t == Eq("userHost", VStr(host.value)))
  {
    var until, since := UntilTerm(untilId, createdAt), SinceTerm(sinceId, createdAt);
    var user, channel := KeyTerm("userId", userId), KeyTerm("channelId", channelId);
    assert "userHost"[4] != "userId"[4] && "userHost"[0] != "channelId"[0];
    forall t: Query | t in until + (since + (user + (channel + HostTerm(host)))) && (t.IsNull? || (t.Eq? && t.k == "userHost"))
      ensures t in HostTerm(host)
    {
      assert t !in until && t !in since && t !in user && t !in channel;
    }
  }

  /** The filter of `searchNoteByMeiliSearch`, built by successive pushes. */
  method MeiliFilter(untilId: Option<string>, sinceId: Option<string>, userId: Option<string>, channelId: Option<string>,
                     host: Option<string>, createdAt: string -> int)
    returns (filter: Query)
    ensures filter == And(FilterTerms(untilId, sinceId, userId, channelId, host, createdAt))
  {
    var qs: seq<Query> := [];
    if Given(untilId) {
      qs := qs + [Lt("createdAt", createdAt(untilId.value))];
    }
    ghost var until := UntilTerm(untilId, createdAt);
    assert qs == until;
    if Given(sinceId) {
      qs := qs + [Gt("createdAt", createdAt(sinceId.value))];
    }
    ghost var since := SinceTerm(sinceId, createdAt);
    assert qs == until + since;
    if Given(userId) {
      qs := qs + [Eq("userId", VStr(userId.value))];
    }
    ghost var user := KeyTerm("userId", userId);
    assert qs == until + since + user;
    if Given(channelId) {
      qs := qs + [Eq("channelId", VStr(channelId.value))];
    }
    ghost var channel := KeyTerm("channelId", channelId);
    assert qs == until + since + user + channel;
    if Given(host) {
      if host.value == "." {
        qs := qs + [IsNull("userHost")];
      } else {
        qs := qs + [Eq("userHost", VStr(host.value))];
      }
    }
    assert qs == until + since + user + channel + HostTerm(host);
    PushedInOrder(until, since, user, channel, HostTerm(host));
    filter := And(qs);
  }

  /** Conditions pushed one group after another form the whole list. */
  lemma PushedInOrder(a: seq<Query>, b: seq<Query>, c: seq<Query>, d: seq<Query>, e: seq<Query>)
    ensures a + b + c + d + e == a + (b + (c + (d + e)))
  {
  }

  /** Search engine hits are returned newest id first. */
  function OrderResults(notes: seq<IndexedNote>): (r: seq<IndexedNote>)
    ensures SortedBy(r, (n: IndexedNote) => n.id, true)
    ensures multiset(r) == multiset(notes)
  {
    SortBy(notes, (n: IndexedNote) => n.id, true)
  }

  // SQL text search

  /** Each piece trimmed, in order. */
  function TrimEach(parts: seq<string>): (r: seq<string>)
    ensures |r| == |parts|
    ensures forall i :: 0 <= i < |r| ==> r[i] == Trim(parts[i])
    ensures forall t :: t in r ==> Trimmed(t)
  {
    seq(|parts|, i requires 0 <= i < |parts| => Trim(parts[i]))
  }

  /** The terms of an ` OR ` query: each piece between separators, trimmed,
      with the empty ones dropped. */
  function OrTerms(q: string): (r: seq<string>)
    ensures forall t :: t in r ==> t != "" && Trimmed(t)
  {
    Filter(TrimEach(SplitOn(q, " OR ")), (t: string) => t != "")
  }

  /** Every term is a non-empty trimmed piece of the query, and every
      non-empty trimmed piece is a term. */
  lemma OrTermsArePieces(q: string)
    ensures forall t :: t in OrTerms(q) <==> t != "" && t in TrimEach(SplitOn(q, " OR "))
    ensures forall t :: t in OrTerms(q) ==> Trimmed(t)
  {
  }

  /** The text condition of `searchNoteByLike`. */
  datatype TextCondition =
    | NoTextCondition
    /** `note.text &@~ :q` with the given query */
    | GroongaQuery(query: string)
    /** `LOWER(note.text) LIKE :q` */
    | LikeAll(pattern: string)
    /** `LOWER(note.text) LIKE :term<i>` for each i, joined by OR */
    | LikeAny(patterns: seq<string>)

  /** The LIKE pattern of a term; `likeEscape`, which escapes `%` and `_`,
      is not part of this model. */
  function LikePattern(term: string, likeEscape: string -> string): string
  {
    "%" + likeEscape(ToLowerAscii(term)) + "%"
  }

  /** The excluded words, each prefixed with `-`, separated by spaces. */
  function ExcludeQuery(words: seq<string>): (r: string)
    requires words != []
    ensures StartsWith(r, "-" + words[0])
    ensures EndsWith(r, "-" + words[|words| - 1])
  {
    var parts := seq(|words|, i requires 0 <= i < |words| => "-" + words[i]);
    JoinStartsWithFirst(parts, " ");
    JoinEndsWithLast(parts, " ");
    Join(parts, " ")
  }

  /** Split on spaces, the excluded query gives back every excluded word,
      prefixed with `-`, in order, as long as no word holds a space. */
  lemma ExcludeQueryWords(words: seq<string>)
    requires words != []
    requires forall w :: w in words ==> ' ' !in w
    ensures var parts := Split(ExcludeQuery(words), ' ');
      && |parts| == |words|
      && forall i :: 0 <= i < |words| ==> parts[i] == "-" + words[i]
  {
    var parts := seq(|words|, i requires 0 <= i < |words| => "-" + words[i]);
    forall p | p in parts
      ensures ' ' !in p
    {
      var i :| 0 <= i < |words| && p == "-" + words[i];
      assert words[i] in words;
    }
    assert " " == [' '];
    SplitJoin(parts, ' ');
  }

  /** The PGroonga condition: the query, followed by the excluded words when
      there are any; nothing when both are empty. */
  function GroongaCondition(q: string, excludeWords: seq<string>): (r: TextCondition)
    ensures excludeWords == [] ==> r == (if q == "" then NoTextCondition else GroongaQuery(q))
    ensures excludeWords != [] ==> r.GroongaQuery? && EndsWith(r.query, ExcludeQuery(excludeWords))
    ensures excludeWords != [] && q == "" ==> r.query == ExcludeQuery(excludeWords)
    ensures excludeWords != [] && q != "" ==> StartsWith(r.query, q + " ")
  {
    if |excludeWords| > 0 then
      var excluded := ExcludeQuery(excludeWords);
      if q != "" then
        assert (q + " " + excluded)[|q + " " + excluded| - |excluded|..] == excluded;
        GroongaQuery(q + " " + excluded)
      else GroongaQuery(excluded)
    else if q != "" then GroongaQuery(q)
    else NoTextCondition
  }

  /** The pattern of each term, in order. */
  function LikePatterns(terms: seq<string>, likeEscape: string -> string): (r: seq<string>)
    ensures |r| == |terms|
    ensures forall i :: 0 <= i < |r| ==> r[i] == LikePattern(terms[i], likeEscape)
  {
    seq(|terms|, i requires 0 <= i < |terms| => LikePattern(terms[i], likeEscape))
  }

  /** The LIKE condition: one pattern per ` OR ` term when the query holds
      ` OR `, else one for the whole query; nothing for an empty query or
      when every term is blank. */
  function LikeCondition(q: string, likeEscape: string -> string): (r: TextCondition)
    ensures r == NoTextCondition <==> q == "" || (Contains(q, " OR ") && OrTerms(q) == [])
    ensures !r.GroongaQuery?
    ensures r.LikeAny? ==> Contains(q, " OR ") && |r.patterns| == |OrTerms(q)|
    ensures r.LikeAll? ==> !Contains(q, " OR ") && r.pattern == LikePattern(q, likeEscape)
  {
    if q == "" then NoTextCondition
    else if Contains(q, " OR ") then
      var terms := OrTerms(q);
      if |terms| > 0 then LikeAny(LikePatterns(terms, likeEscape))
      else NoTextCondition
    else LikeAll(LikePattern(q, likeEscape))
  }

  /** An ` OR ` query gets exactly one pattern per non-blank term, in order. */
  lemma LikeConditionPerTerm(q: string, likeEscape: string -> string)
    requires Contains(q, " OR ")
    ensures var r, terms := LikeCondition(q, likeEscape), OrTerms(q);
      && (terms == [] ==> r == NoTextCondition)
      && (terms != [] ==> r.LikeAny? && |r.patterns| == |terms|)
      && (terms != [] ==> forall i :: 0 <= i < |terms| ==> r.patterns[i] == LikePattern(terms[i], likeEscape))
  {
  }

  /** Any other non-empty query gets one pattern for the whole query. */
  lemma LikeConditionWhole(q: string, likeEscape: string -> string)
    requires !Contains(q, " OR ")
    ensures LikeCondition(q, likeEscape) == if q == "" then NoTextCondition else LikeAll(LikePattern(q, likeEscape))
  {
  }

  /** The text condition of `searchNoteByLike` for the configured provider. */
  function TextFilter(q: string, pgroonga: bool, excludeWords: seq<string>, likeEscape: string -> string): (r: TextCondition)
    ensures r.GroongaQuery? <==> pgroonga && (q != "" || excludeWords != [])
    ensures pgroonga ==> !r.LikeAll? && !r.LikeAny?
    ensures r == NoTextCondition ==> excludeWords == [] || !pgroonga
  {
    if pgroonga then GroongaCondition(q, excludeWords) else LikeCondition(q, likeEscape)
  }

  /** A join of several parts ends with the last one. */
  lemma {:induction false} JoinEndsWithLast(parts: seq<string>, sep: string)
    requires parts != []
    ensures EndsWith(Join(parts, sep), parts[|parts| - 1])
  {
    if |parts| > 1 {
      JoinEndsWithLast(parts[1..], sep);
      var rest := Join(parts[1..], sep);
      var j := Join(parts, sep);
      assert j == parts[0] + sep + rest;
      assert j[|j| - |rest|..] == rest;
      var last := parts[|parts| - 1];
      assert rest[|rest| - |last|..] == last;
      assert j[|j| - |last|..] == rest[|rest| - |last|..];
    }
  }

  /** A join of several parts starts with the first one. */
  lemma JoinStartsWithFirst(parts: seq<string>, sep: string)
    requires parts != []
    ensures StartsWith(Join(parts, sep), parts[0])
  {
    if |parts| > 1 {
      assert Join(parts, sep) == parts[0] + (sep + Join(parts[1..], sep));
    }
  }
}
