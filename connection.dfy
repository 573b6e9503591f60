/**
 * The main streaming connection of one client: the channels it has joined,
 * its reference-counted note subscriptions and its cache of recently seen
 * notes. Outgoing messages, listener attach/detach on the event bus, channel
 * initialisation and disposal are recorded in the ghost log `events`.
 */
module StreamConnection {
  import opened Common

  const MaxChannelsPerConnection := 32
  const MaxCachedNotes := 32

  datatype User = User(id: string)
  datatype Token = Token(permission: seq<string>)

  /** What a channel class declares statically, and whether its instances
      implement `dispose` and `onMessage`. */
  datatype ChannelService = ChannelService(
    chName: string,
    requireCredential: bool,
    kind: Option<string>,
    shouldShare: bool,
    hasDispose: bool,
    hasOnMessage: bool)

  /** A joined channel: the connection id the client chose and the channel's name. */
  datatype Channel = Channel(id: string, chName: string, hasDispose: bool, hasOnMessage: bool)

  /** A packed note as far as the cache is concerned. */
  datatype StreamNote = StreamNote(id: string, content: Json, reply: Option<StreamNote>, renote: Option<StreamNote>)

  /** A note event published on `noteStream:<noteId>`. */
  datatype NoteStreamEvent = NoteStreamEvent(noteId: string, eventType: string, body: Json)

  datatype Event =
    | Fetched(userId: string)
    | IntervalStarted
    | IntervalCleared
    | Sent(msgType: string, body: Json)
    | Attached(noteId: string)
    | Detached(noteId: string)
    | ChannelInit(channelId: string, params: map<string, Json>)
    | ChannelDisposed(channelId: string)
    | ChannelMessage(channelId: string, msgType: string, msgBody: Json)
    | ReadAllNotifications(readerId: string)

  // ---------------------------------------------------------------------
  // Note subscriptions

  /** The id a subNote/unsubNote payload names: a non-empty string `id` of a JSON object. */
  function NoteIdOf(payload: Option<Json>): (r: Option<string>)
    ensures r.Some? ==> r.value != "" && payload.Some? && Field(payload.value, "id") == Some(JStr(r.value))
    ensures r.None? ==> payload.None? || !Truthy(Field(payload.value, "id")) || !Field(payload.value, "id").value.JStr?
  {
    if payload.Some? then
      match Field(payload.value, "id")
      case Some(JStr(s)) => if s != "" then Some(s) else None
      case _ => None
    else None
  }

  /** A subscription to `id`: the count goes up by one; the listener is
      attached when it becomes 1. */
  function Subscribe(subs: map<string, int>, id: string): (r: (map<string, int>, seq<Event>))
    ensures r.0.Keys == subs.Keys + {id}
    ensures forall k :: k in subs && k != id ==> r.0[k] == subs[k]
    ensures r.0[id] == (if id in subs then subs[id] else 0) + 1
    ensures r.1 == [Attached(id)] <==> r.0[id] == 1
    ensures r.1 == [] || r.1 == [Attached(id)]
  {
    var updated := (if id in subs then subs[id] else 0) + 1;
    (subs[id := updated], if updated == 1 then [Attached(id)] else [])
  }

  /** An unsubscription from `id`: unknown ids are ignored; the entry is
      deleted and the listener detached when the count drops to 0 or below. */
  function Unsubscribe(subs: map<string, int>, id: string): (r: (map<string, int>, seq<Event>))
    ensures id !in subs ==> r == (subs, [])
    ensures r.0.Keys <= subs.Keys
    ensures forall k :: k in subs && k != id ==> k in r.0 && r.0[k] == subs[k]
    ensures id in subs ==> (r.1 == [Detached(id)] <==> subs[id] <= 1) && (id in r.0 <==> subs[id] > 1)
    ensures id in r.0 ==> r.0[id] == subs[id] - 1
    ensures r.1 == [] || r.1 == [Detached(id)]
  {
    if id !in subs then (subs, [])
    else
      var updated := subs[id] - 1;
      if updated <= 0 then (subs - {id}, [Detached(id)]) else (subs[id := updated], [])
  }

  function Delta(e: Event, id: string): int
  {
    if e == Attached(id) then 1 else if e == Detached(id) then -1 else 0
  }

  /** How many `noteStream:<id>` listeners the log has left attached. */
  ghost function Listeners(log: seq<Event>, id: string): int
  {
    if log == [] then 0 else Listeners(log[..|log| - 1], id) + Delta(log[|log| - 1], id)
  }

  lemma {:induction false} ListenersAppend(a: seq<Event>, b: seq<Event>, id: string)
    ensures Listeners(a + b, id) == Listeners(a, id) + Listeners(b, id)
  {
    if b == [] {
      assert a + b == a;
    } else {
      var b' := b[..|b| - 1];
      assert (a + b)[..|a + b| - 1] == a + b';
      ListenersAppend(a, b', id);
    }
  }

  /** Events other than attach and detach. */
  predicate Neutral(e: seq<Event>)
  {
    forall k :: 0 <= k < |e| ==> !e[k].Attached? && !e[k].Detached?
  }

  lemma {:induction false} NeutralAppend(log: seq<Event>, e: seq<Event>)
    requires Neutral(e)
    ensures forall id :: Listeners(log + e, id) == Listeners(log, id)
  {
    forall id ensures Listeners(log + e, id) == Listeners(log, id) {
      ListenersAppend(log, e, id);
      NeutralZero(e, id);
    }
  }

  lemma {:induction false} NeutralZero(e: seq<Event>, id: string)
    requires Neutral(e)
    ensures Listeners(e, id) == 0
  {
    if e != [] {
      NeutralZero(e[..|e| - 1], id);
    }
  }

  /** The subscription invariant: every count is positive, and exactly the
      subscribed notes have one listener attached (the others none). */
  ghost predicate SubsInv(subs: map<string, int>, log: seq<Event>)
  {
    && (forall id :: id in subs ==> subs[id] >= 1)
    && (forall id :: Listeners(log, id) == (if id in subs then 1 else 0))
  }

  /** A subscription keeps the invariant, and attaches a listener exactly on
      the 0 -> 1 transition. */
  lemma SubscribeKeeps(subs: map<string, int>, log: seq<Event>, id: string)
    requires SubsInv(subs, log)
    ensures SubsInv(Subscribe(subs, id).0, log + Subscribe(subs, id).1)
    ensures Subscribe(subs, id).1 == (if id in subs then [] else [Attached(id)])
  {
    var (s, e) := Subscribe(subs, id);
    forall x ensures Listeners(log + e, x) == (if x in s then 1 else 0) {
      ListenersAppend(log, e, x);
      if e != [] {
        assert e[..0] == [];
      }
    }
  }

  /** An unsubscription keeps the invariant, and detaches a listener exactly
      when the count of a subscribed note falls to 0. */
  lemma UnsubscribeKeeps(subs: map<string, int>, log: seq<Event>, id: string)
    requires SubsInv(subs, log)
    ensures SubsInv(Unsubscribe(subs, id).0, log + Unsubscribe(subs, id).1)
    ensures Unsubscribe(subs, id).1 == (if id in subs && subs[id] == 1 then [Detached(id)] else [])
    ensures id !in subs ==> Unsubscribe(subs, id).0 == subs
  {
    var (s, e) := Unsubscribe(subs, id);
    forall x ensures Listeners(log + e, x) == (if x in s then 1 else 0) {
      ListenersAppend(log, e, x);
      if e != [] {
        assert e[..0] == [];
      }
    }
  }

  datatype SubRequest = SubNote(noteId: string) | UnsubNote(noteId: string)

  function ApplySub(subs: map<string, int>, r: SubRequest): (map<string, int>, seq<Event>)
  {
    match r
    case SubNote(id) => Subscribe(subs, id)
    case UnsubNote(id) => Unsubscribe(subs, id)
  }

  /** The counts and the attach/detach log after a run of requests on a fresh connection. */
  ghost function RunSubs(reqs: seq<SubRequest>): (map<string, int>, seq<Event>)
  {
    if reqs == [] then (map[], [])
    else
      var (subs, log) := RunSubs(reqs[..|reqs| - 1]);
      var (subs', e) := ApplySub(subs, reqs[|reqs| - 1]);
      (subs', log + e)
  }

  /** For any sequence of subNote/unsubNote requests, each subscribed note has
      exactly one listener, every other note none, and every count is positive. */
  lemma {:induction false} RefcountBalanced(reqs: seq<SubRequest>)
    ensures SubsInv(RunSubs(reqs).0, RunSubs(reqs).1)
  {
    if reqs != [] {
      RefcountBalanced(reqs[..|reqs| - 1]);
      var (subs, log) := RunSubs(reqs[..|reqs| - 1]);
      match reqs[|reqs| - 1]
      case SubNote(id) => SubscribeKeeps(subs, log, id);
      case UnsubNote(id) => UnsubscribeKeeps(subs, log, id);
    }
  }

  // ---------------------------------------------------------------------
  // Note cache

  /** The key the note cache is searched by. */
  function NoteKey(n: StreamNote): string
  {
    n.id
  }

  ghost predicate DistinctIds(notes: seq<StreamNote>)
  {
    forall i, j :: 0 <= i < j < |notes| ==> notes[i].id != notes[j].id
  }

  /** Caches one note: a note with the same id is replaced where it stands;
      otherwise the note goes to the front and the cache is cut to 32. */
  function CacheAdd(cache: seq<StreamNote>, note: StreamNote): (r: seq<StreamNote>)
    ensures note in r
    ensures |cache| <= MaxCachedNotes ==> |r| <= MaxCachedNotes
    ensures DistinctIds(cache) ==> DistinctIds(r)
    ensures IndexOfKey(cache, NoteKey, note.id) >= 0 ==>
      |r| == |cache| && forall k :: 0 <= k < |cache| && cache[k].id != note.id ==> r[k] == cache[k]
    ensures IndexOfKey(cache, NoteKey, note.id) == -1 ==>
      |r| == if |cache| < MaxCachedNotes then |cache| + 1 else MaxCachedNotes
    ensures IndexOfKey(cache, NoteKey, note.id) == -1 ==>
      r[0] == note && forall k :: 0 < k < |r| ==> r[k] == cache[k - 1]
  {
    var i := IndexOfKey(cache, NoteKey, note.id);
    if i >= 0 then
      assert cache[i := note][i] == note;
      cache[i := note]
    else
      var pushed := [note] + cache;
      var r := if |pushed| > MaxCachedNotes then pushed[..MaxCachedNotes] else pushed;
      assert r[0] == note;
      assert forall j :: 0 < j < |r| ==> r[j] == cache[j - 1];
      r
  }

  /** `cacheNote`: the note itself, then its reply, then its renote. */
  function CacheWithRelated(cache: seq<StreamNote>, note: StreamNote): (r: seq<StreamNote>)
    ensures note in r || note.reply.Some? || note.renote.Some?
    ensures note.renote.Some? ==> note.renote.value in r
    ensures |cache| <= MaxCachedNotes ==> |r| <= MaxCachedNotes
    ensures DistinctIds(cache) ==> DistinctIds(r)
  {
    var c1 := CacheAdd(cache, note);
    var c2 := if note.reply.Some? then CacheAdd(c1, note.reply.value) else c1;
    if note.renote.Some? then CacheAdd(c2, note.renote.value) else c2
  }

  /** Every note a cache step leaves in the cache was cached before or is the new note. */
  lemma CacheAddFrom(cache: seq<StreamNote>, note: StreamNote)
    ensures forall x :: x in CacheAdd(cache, note) ==> x in cache || x == note
  {
    var i := IndexOfKey(cache, NoteKey, note.id);
    if i >= 0 {
      assert CacheAdd(cache, note) == cache[i := note];
    }
  }

  /** While the cache is not full, a cache step keeps every note with another id. */
  lemma CacheAddKeeps(cache: seq<StreamNote>, note: StreamNote, y: StreamNote)
    requires |cache| < MaxCachedNotes
    requires y in cache && y.id != note.id
    ensures y in CacheAdd(cache, note)
    ensures |CacheAdd(cache, note)| <= |cache| + 1
  {
    var r := CacheAdd(cache, note);
    var k :| 0 <= k < |cache| && cache[k] == y;
    if IndexOfKey(cache, NoteKey, note.id) >= 0 {
      assert r[k] == y;
    } else {
      assert r[k + 1] == y;
    }
  }

  /** Where a cache step puts the note: in place of the cached note with its
      id, or at the front when its id was not cached. */
  lemma CacheAddPlaces(cache: seq<StreamNote>, note: StreamNote) returns (k: nat)
    ensures k < |CacheAdd(cache, note)| && CacheAdd(cache, note)[k] == note
    ensures IndexOfKey(cache, NoteKey, note.id) == -1 ==> k == 0
    ensures IndexOfKey(cache, NoteKey, note.id) >= 0 ==> k < |cache|
  {
    var i := IndexOfKey(cache, NoteKey, note.id);
    if i >= 0 {
      assert CacheAdd(cache, note) == cache[i := note];
      k := i;
    } else {
      k := 0;
    }
  }

  /** A cache step moves a note with another id back by at most one place,
      and keeps it while that place is inside the cache. */
  lemma CacheAddShifts(cache: seq<StreamNote>, note: StreamNote, y: StreamNote, k: nat) returns (k': nat)
    requires k < |cache| && cache[k] == y && y.id != note.id
    requires k + 1 < MaxCachedNotes
    ensures k' <= k + 1 && k' < |CacheAdd(cache, note)| && CacheAdd(cache, note)[k'] == y
  {
    if IndexOfKey(cache, NoteKey, note.id) >= 0 {
      k' := k;
    } else {
      k' := k + 1;
    }
  }

  /** `cacheNote` keeps the note unless its reply or renote has the same id,
      whenever its id was not cached yet or the cache holds at most 30 notes;
      with at most 30 notes it also keeps the reply unless the renote has the
      same id. A full cache that already holds the note near its end can
      evict it: the reply's and the renote's insertions at the front push
      the last entries out. */
  lemma CacheWithRelatedKeeps(cache: seq<StreamNote>, note: StreamNote)
    ensures var r := CacheWithRelated(cache, note);
      ((|cache| < MaxCachedNotes - 1 || IndexOfKey(cache, NoteKey, note.id) == -1)
       && (note.reply.None? || note.reply.value.id != note.id)
       && (note.renote.None? || note.renote.value.id != note.id))
      ==> note in r
    ensures var r := CacheWithRelated(cache, note);
      (|cache| < MaxCachedNotes - 1
       && note.reply.Some? && (note.renote.None? || note.renote.value.id != note.reply.value.id))
      ==> note.reply.value in r
  {
    if && (|cache| < MaxCachedNotes - 1 || IndexOfKey(cache, NoteKey, note.id) == -1)
       && (note.reply.None? || note.reply.value.id != note.id)
       && (note.renote.None? || note.renote.value.id != note.id)
    {
      CacheKeepsNote(cache, note);
    }
    CacheKeepsReply(cache, note);
  }

  /** The note half of `CacheWithRelatedKeeps`. */
  lemma CacheKeepsNote(cache: seq<StreamNote>, note: StreamNote)
    requires |cache| < MaxCachedNotes - 1 || IndexOfKey(cache, NoteKey, note.id) == -1
    requires note.reply.None? || note.reply.value.id != note.id
    requires note.renote.None? || note.renote.value.id != note.id
    ensures note in CacheWithRelated(cache, note)
  {
    var c1 := CacheAdd(cache, note);
    var k := CacheAddPlaces(cache, note);
    var c2 := c1;
    if note.reply.Some? {
      c2 := CacheAdd(c1, note.reply.value);
      k := CacheAddShifts(c1, note.reply.value, note, k);
    }
    if note.renote.Some? {
      k := CacheAddShifts(c2, note.renote.value, note, k);
      assert CacheWithRelated(cache, note) == CacheAdd(c2, note.renote.value);
    } else {
      assert CacheWithRelated(cache, note) == c2;
    }
  }

  /** The reply half of `CacheWithRelatedKeeps`. */
  lemma CacheKeepsReply(cache: seq<StreamNote>, note: StreamNote)
    ensures (|cache| < MaxCachedNotes - 1
             && note.reply.Some? && (note.renote.None? || note.renote.value.id != note.reply.value.id))
            ==> note.reply.value in CacheWithRelated(cache, note)
  {
    if |cache| < MaxCachedNotes - 1 && note.reply.Some? && (note.renote.None? || note.renote.value.id != note.reply.value.id) {
      var c1 := CacheAdd(cache, note);
      var c2 := CacheAdd(c1, note.reply.value);
      var j := CacheAddPlaces(c1, note.reply.value);
      if note.renote.Some? {
        j := CacheAddShifts(c2, note.renote.value, note.reply.value, j);
        assert CacheWithRelated(cache, note) == CacheAdd(c2, note.renote.value);
      } else {
        assert CacheWithRelated(cache, note) == c2;
      }
    }
  }

  /** Every note `cacheNote` leaves in the cache was cached before, or is the
      note, its reply or its renote. */
  lemma CacheWithRelatedFrom(cache: seq<StreamNote>, note: StreamNote)
    ensures forall x :: x in CacheWithRelated(cache, note) ==>
      x in cache || x == note || note.reply == Some(x) || note.renote == Some(x)
  {
    var c1 := CacheAdd(cache, note);
    CacheAddFrom(cache, note);
    var c2 := if note.reply.Some? then CacheAdd(c1, note.reply.value) else c1;
    if note.reply.Some? {
      CacheAddFrom(c1, note.reply.value);
    }
    if note.renote.Some? {
      CacheAddFrom(c2, note.renote.value);
    }
  }

  // ---------------------------------------------------------------------
  // Channels

  datatype Refusal = TooManyChannels | CredentialRequired | NotPermitted | AlreadyConnected

  /** `channelService.kind` is truthy. */
  predicate HasKind(svc: ChannelService)
  {
    svc.kind.Some? && svc.kind.value != ""
  }

  /** Why `connectChannel` would ignore a request to join channel `name`, if it would. */
  function ConnectRefusal(channels: seq<Channel>, user: Option<User>, token: Option<Token>, svc: ChannelService, name: string): (r: Option<Refusal>)
    ensures r.None? <==>
      && |channels| < MaxChannelsPerConnection
      && (svc.requireCredential ==> user.Some?)
      && (token.Some? && HasKind(svc) ==> svc.kind.value in token.value.permission)
      && (token.Some? && !HasKind(svc) ==> !svc.requireCredential)
      && (svc.shouldShare ==> forall c :: c in channels ==> c.chName != name)
    ensures r == Some(TooManyChannels) <==> |channels| >= MaxChannelsPerConnection
  {
    if |channels| >= MaxChannelsPerConnection then Some(TooManyChannels)
    else if svc.requireCredential && user.None? then Some(CredentialRequired)
    else if token.Some? && ((HasKind(svc) && svc.kind.value !in token.value.permission) || (!HasKind(svc) && svc.requireCredential)) then Some(NotPermitted)
    else if svc.shouldShare && exists c :: c in channels && c.chName == name then Some(AlreadyConnected)
    else None
  }

  /** The key channels are looked up by: the connection id the client chose. */
  function ChannelKey(c: Channel): string
  {
    c.id
  }


  /** `channels.filter(c => c.id !== id)`. */
  function RemoveById(channels: seq<Channel>, id: string): (r: seq<Channel>)
    ensures forall c :: c in r <==> c in channels && c.id != id
    ensures |r| <= |channels|
  {
    if channels == [] then []
    else if channels[0].id == id then RemoveById(channels[1..], id)
    else [channels[0]] + RemoveById(channels[1..], id)
  }

  /** Removal works piece by piece, so the channels left keep their order. */
  lemma {:induction false} RemoveByIdAppend(a: seq<Channel>, b: seq<Channel>, id: string)
    ensures RemoveById(a + b, id) == RemoveById(a, id) + RemoveById(b, id)
  {
    if a == [] {
      assert a + b == b;
    } else {
      assert (a + b)[1..] == a[1..] + b;
      RemoveByIdAppend(a[1..], b, id);
    }
  }

  /** Removing an id no channel has changes nothing. */
  lemma {:induction false} RemoveByIdAbsent(channels: seq<Channel>, id: string)
    requires forall c :: c in channels ==> c.id != id
    ensures RemoveById(channels, id) == channels
  {
    if channels != [] {
      assert channels[0] in channels;
      RemoveByIdAbsent(channels[1..], id);
    }
  }

  /** The channels `dispose` visits: those that implement `dispose`, in order. */
  function WithDispose(channels: seq<Channel>): (r: seq<Channel>)
    ensures forall c :: c in r <==> c in channels && c.hasDispose
  {
    if channels == [] then []
    else if channels[0].hasDispose then [channels[0]] + WithDispose(channels[1..])
    else WithDispose(channels[1..])
  }

  /** One dispose per channel, in order; none attaches or detaches a listener. */
  function DisposedEvents(channels: seq<Channel>): (r: seq<Event>)
    ensures |r| == |channels| && Neutral(r)
    ensures forall k :: 0 <= k < |r| ==> r[k] == ChannelDisposed(channels[k].id)
  {
    seq(|channels|, k requires 0 <= k < |channels| => ChannelDisposed(channels[k].id))
  }

  /** The `noteUpdated` message a note event turns into, if any. */
  function NoteUpdate(user: Option<User>, mutings: set<string>, ev: NoteStreamEvent): (r: Option<Event>)
    ensures r.None? <==>
      (ev.eventType == "reacted" || ev.eventType == "unreacted") && user.Some?
      && StringField(ev.body, "userId").Some? && StringField(ev.body, "userId").value in mutings
    ensures r.Some? ==>
      && r.value.Sent? && r.value.msgType == "noteUpdated"
      && Field(r.value.body, "id") == Some(JStr(ev.noteId))
      && Field(r.value.body, "type") == Some(JStr(ev.eventType))
      && Field(r.value.body, "body") == Some(ev.body)
  {
    var reactor := StringField(ev.body, "userId");
    if (ev.eventType == "reacted" || ev.eventType == "unreacted") && user.Some? && reactor.Some? && reactor.value in mutings then
      None
    else
      Some(Sent("noteUpdated", JObj(map["id" := JStr(ev.noteId), "type" := JStr(ev.eventType), "body" := ev.body])))
  }

  // ---------------------------------------------------------------------
  // Client messages

  datatype Request =
    | ReadNotificationReq
    | SubscribeReq(payload: Option<Json>)
    | UnsubscribeReq(payload: Option<Json>)
    | ConnectReq(payload: Option<Json>)
    | DisconnectReq(payload: Option<Json>)
    | ChannelReq(payload: Option<Json>)
    | NoRequest

  /** The handler a parsed client message is dispatched to, by its `type`. */
  function Route(obj: Option<Json>): (r: Request)
    ensures obj.None? || !obj.value.JObj? ==> r == NoRequest
    ensures r.SubscribeReq? <==> StringField(obj.GetOr(JNull), "type") in {Some("subNote"), Some("s"), Some("sr")}
    ensures r.UnsubscribeReq? <==> StringField(obj.GetOr(JNull), "type") in {Some("unsubNote"), Some("un")}
    ensures r.ChannelReq? <==> StringField(obj.GetOr(JNull), "type") in {Some("channel"), Some("ch")}
    ensures r.ReadNotificationReq? <==> StringField(obj.GetOr(JNull), "type") == Some("readNotification")
    ensures r.ConnectReq? <==> StringField(obj.GetOr(JNull), "type") == Some("connect")
    ensures r.DisconnectReq? <==> StringField(obj.GetOr(JNull), "type") == Some("disconnect")
    ensures r != NoRequest && !r.ReadNotificationReq? ==> r.payload == Field(obj.value, "body")
  {
    if obj.None? || !obj.value.JObj? then NoRequest
    else
      var body := Field(obj.value, "body");
      match StringField(obj.value, "type")
      case Some(t) =>
        if t == "readNotification" then ReadNotificationReq
        else if t == "subNote" || t == "s" || t == "sr" then SubscribeReq(body)
        else if t == "unsubNote" || t == "un" then UnsubscribeReq(body)
        else if t == "connect" then ConnectReq(body)
        else if t == "disconnect" then DisconnectReq(body)
        else if t == "channel" || t == "ch" then ChannelReq(body)
        else NoRequest
      case None => NoRequest
  }

  /** A well-formed `connect` payload: string `id` and `channel`, `pong` a
      boolean, null or absent, and `params` an object or absent. Yields the
      id, the params (`{}` when absent), the channel name and `pong ?? false`. */
  function ConnectArgs(payload: Option<Json>): (r: Option<(string, map<string, Json>, string, bool)>)
    ensures r.Some? ==>
      && payload.Some? && payload.value.JObj?
      && StringField(payload.value, "id") == Some(r.value.0)
      && StringField(payload.value, "channel") == Some(r.value.2)
      && (r.value.3 <==> Field(payload.value, "pong") == Some(JBool(true)))
    ensures r.Some? <==>
      && payload.Some? && payload.value.JObj?
      && StringField(payload.value, "id").Some? && StringField(payload.value, "channel").Some?
      && (Field(payload.value, "pong").None? || Field(payload.value, "pong").value.JBool? || Field(payload.value, "pong").value.JNull?)
      && (Field(payload.value, "params").None? || Field(payload.value, "params").value.JObj?)
    ensures r.Some? && Field(payload.value, "params").None? ==> r.value.1 == map[]
    ensures r.Some? && Field(payload.value, "params").Some? ==> r.value.1 == Field(payload.value, "params").value.fields
  {
    if payload.None? || !payload.value.JObj? then None
    else
      var p := payload.value;
      var pong := Field(p, "pong");
      var params := Field(p, "params");
      if StringField(p, "id").None? || StringField(p, "channel").None? then None
      else if !(pong.None? || pong.value.JBool? || pong.value.JNull?) then None
      else if !(params.None? || params.value.JObj?) then None
      else
        Some((StringField(p, "id").value,
              if params.Some? then params.value.fields else map[],
              StringField(p, "channel").value,
              pong == Some(JBool(true))))
  }

  /** A channel message carries a string `id`, a string `type` and a `body`. */
  predicate MessageArgsPresent(payload: Option<Json>)
  {
    payload.Some? && StringField(payload.value, "id").Some? && StringField(payload.value, "type").Some?
    && Field(payload.value, "body").Some?
  }

  // ---------------------------------------------------------------------
  // What each handler does, as functions of the state it reads

  /** `onReadNotification`: every notification of the user is marked read. */
  function ReadNotificationEffect(user: Option<User>): (e: seq<Event>)
    ensures Neutral(e)
    ensures |e| <= 1 && (e != [] <==> user.Some?)
  {
    if user.Some? then [ReadAllNotifications(user.value.id)] else []
  }

  /** `onSubscribeNote`: the new counts and the listener attached, if any. */
  function SubscribeEffect(subs: map<string, int>, payload: Option<Json>): (map<string, int>, seq<Event>)
  {
    match NoteIdOf(payload)
    case None => (subs, [])
    case Some(id) => Subscribe(subs, id)
  }

  /** `onUnsubscribeNote`: the new counts and the listener detached, if any. */
  function UnsubscribeEffect(subs: map<string, int>, payload: Option<Json>): (map<string, int>, seq<Event>)
  {
    match NoteIdOf(payload)
    case None => (subs, [])
    case Some(id) => Unsubscribe(subs, id)
  }

  /** A subNote or unsubNote message keeps the subscription invariant. */
  lemma SubscriptionEffectsKeep(subs: map<string, int>, log: seq<Event>, payload: Option<Json>)
    requires SubsInv(subs, log)
    ensures SubsInv(SubscribeEffect(subs, payload).0, log + SubscribeEffect(subs, payload).1)
    ensures SubsInv(UnsubscribeEffect(subs, payload).0, log + UnsubscribeEffect(subs, payload).1)
  {
    if NoteIdOf(payload).Some? {
      SubscribeKeeps(subs, log, NoteIdOf(payload).value);
      UnsubscribeKeeps(subs, log, NoteIdOf(payload).value);
    } else {
      assert log + [] == log;
    }
  }

  /** `onChannelConnectRequested`: the channel joined and the events it
      causes, or None when the request is malformed, names no channel
      service, or `connectChannel` refuses it. */
  function ConnectEffect(channels: seq<Channel>, user: Option<User>, token: Option<Token>,
                         services: map<string, ChannelService>, payload: Option<Json>): (r: Option<(Channel, seq<Event>)>)
    ensures r.Some? ==>
      && ConnectArgs(payload).Some? && ConnectArgs(payload).value.2 in services
      && ConnectRefusal(channels, user, token, services[ConnectArgs(payload).value.2], ConnectArgs(payload).value.2).None?
      && r.value.0 == Channel(ConnectArgs(payload).value.0, services[ConnectArgs(payload).value.2].chName,
                              services[ConnectArgs(payload).value.2].hasDispose, services[ConnectArgs(payload).value.2].hasOnMessage)
      && |r.value.1| == (if ConnectArgs(payload).value.3 then 2 else 1)
      && r.value.1[0] == ChannelInit(ConnectArgs(payload).value.0, ConnectArgs(payload).value.1)
      && (ConnectArgs(payload).value.3 ==>
            r.value.1[1] == Sent("connected", JObj(map["id" := JStr(ConnectArgs(payload).value.0)])))
    ensures r.None? && ConnectArgs(payload).Some? && ConnectArgs(payload).value.2 in services ==>
      ConnectRefusal(channels, user, token, services[ConnectArgs(payload).value.2], ConnectArgs(payload).value.2).Some?
  {
    var args := ConnectArgs(payload);
    if args.None? || args.value.2 !in services then None
    else
      var (id, params, name, pong) := args.value;
      var svc := services[name];
      if ConnectRefusal(channels, user, token, svc, name).Some? then None
      else
        Some((Channel(id, svc.chName, svc.hasDispose, svc.hasOnMessage),
              [ChannelInit(id, params)] + (if pong then [Sent("connected", JObj(map["id" := JStr(id)]))] else [])))
  }

  /** `onChannelDisconnectRequested`: the channels left and the dispose call, if any. */
  function DisconnectEffect(channels: seq<Channel>, payload: Option<Json>): (r: (seq<Channel>, seq<Event>))
    ensures payload.None? || StringField(payload.value, "id").None? ==> r == (channels, [])
    ensures payload.Some? && StringField(payload.value, "id").Some? ==>
      var id := StringField(payload.value, "id").value;
      && (forall c :: c in r.0 <==> c in channels && c.id != id)
      && (r.1 != [] <==> exists c :: c in channels && c.id == id && c.hasDispose && FindByKey(channels, ChannelKey, id) == Some(c))
  {
    if payload.None? || StringField(payload.value, "id").None? then (channels, [])
    else
      var id := StringField(payload.value, "id").value;
      var found := FindByKey(channels, ChannelKey, id);
      (RemoveById(channels, id), if found.Some? && found.value.hasDispose then [ChannelDisposed(id)] else [])
  }

  /** `onChannelMessageRequested`: the message handed to a channel, if any. */
  function ChannelMessageEffect(channels: seq<Channel>, payload: Option<Json>): (e: seq<Event>)
    ensures |e| <= 1 && Neutral(e)
    ensures e != [] ==>
      && MessageArgsPresent(payload)
      && e[0] == ChannelMessage(StringField(payload.value, "id").value, StringField(payload.value, "type").value, Field(payload.value, "body").value)
      && exists c :: c in channels && c.id == StringField(payload.value, "id").value && c.hasOnMessage
  {
    if !MessageArgsPresent(payload) then []
    else
      var found := FindByKey(channels, ChannelKey, StringField(payload.value, "id").value);
      if found.Some? && found.value.hasOnMessage
      then [ChannelMessage(found.value.id, StringField(payload.value, "type").value, Field(payload.value, "body").value)]
      else []
  }

  class Connection {
    const user: Option<User>
    const token: Option<Token>
    var channels: seq<Channel>
    var subscribingNotes: map<string, int>
    var cachedNotes: seq<StreamNote>
    var hasFetchInterval: bool
    ghost var events: seq<Event>

    ghost predicate Valid()
      reads this
    {
      && |channels| <= MaxChannelsPerConnection
      && |cachedNotes| <= MaxCachedNotes
      && DistinctIds(cachedNotes)
      && SubsInv(subscribingNotes, events)
    }

    constructor (user: Option<User>, token: Option<Token>)
      ensures Valid()
      ensures this.user == user && this.token == token
      ensures channels == [] && subscribingNotes == map[] && cachedNotes == [] && !hasFetchInterval && events == []
    {
      this.user := user;
      this.token := token;
      channels := [];
      subscribingNotes := map[];
      cachedNotes := [];
      hasFetchInterval := false;
      events := [];
    }

    /** With a user: fetch the user's state, then start the refresh timer unless one runs. */
    method Init()
      requires Valid()
      modifies this
      ensures Valid()
      ensures channels == old(channels) && subscribingNotes == old(subscribingNotes) && cachedNotes == old(cachedNotes)
      ensures user.None? ==> events == old(events) && hasFetchInterval == old(hasFetchInterval)
      ensures user.Some? ==>
        && hasFetchInterval
        && events == old(events) + [Fetched(user.value.id)] + (if old(hasFetchInterval) then [] else [IntervalStarted])
    {
      if user.Some? {
        var e := [Fetched(user.value.id)] + (if hasFetchInterval then [] else [IntervalStarted]);
        NeutralAppend(events, e);
        events := events + e;
        hasFetchInterval := true;
      }
    }

    /** Dispatches a parsed client message; `None` is a message that is not JSON. */
    method OnWsConnectionMessage(obj: Option<Json>, services: map<string, ChannelService>)
      requires Valid()
      modifies this
      ensures Valid()
      ensures cachedNotes == old(cachedNotes) && hasFetchInterval == old(hasFetchInterval)
      ensures Route(obj) == NoRequest ==> events == old(events)
      ensures !Route(obj).SubscribeReq? && !Route(obj).UnsubscribeReq? ==> subscribingNotes == old(subscribingNotes)
      ensures !Route(obj).ConnectReq? && !Route(obj).DisconnectReq? ==> channels == old(channels)
      ensures var r := Route(obj);
        && (r.ReadNotificationReq? ==> events == old(events) + ReadNotificationEffect(user))
        && (r.SubscribeReq? ==>
              && subscribingNotes == SubscribeEffect(old(subscribingNotes), r.payload).0
              && events == old(events) + SubscribeEffect(old(subscribingNotes), r.payload).1)
        && (r.UnsubscribeReq? ==>
              && subscribingNotes == UnsubscribeEffect(old(subscribingNotes), r.payload).0
              && events == old(events) + UnsubscribeEffect(old(subscribingNotes), r.payload).1)
        && (r.ConnectReq? ==>
              var o := ConnectEffect(old(channels), user, token, services, r.payload);
              && (o.None? ==> channels == old(channels) && events == old(events))
              && (o.Some? ==> channels == old(channels) + [o.value.0] && events == old(events) + o.value.1))
        && (r.DisconnectReq? ==>
              && channels == DisconnectEffect(old(channels), r.payload).0
              && events == old(events) + DisconnectEffect(old(channels), r.payload).1)
        && (r.ChannelReq? ==> events == old(events) + ChannelMessageEffect(channels, r.payload))
    {
      match Route(obj)
      case ReadNotificationReq => OnReadNotification();
      case SubscribeReq(p) => OnSubscribeNote(p);
      case UnsubscribeReq(p) => OnUnsubscribeNote(p);
      case ConnectReq(p) => OnChannelConnectRequested(p, services);
      case DisconnectReq(p) => OnChannelDisconnectRequested(p);
      case ChannelReq(p) => OnChannelMessageRequested(p);
      case NoRequest =>
    }

    method OnBroadcastMessage(msgType: string, body: Json)
      requires Valid()
      modifies this`events
      ensures Valid()
      ensures events == old(events) + [Sent(msgType, body)]
    {
      NeutralAppend(events, [Sent(msgType, body)]);
      events := events + [Sent(msgType, body)];
    }

    /** Marks every notification read; without a user the call fails and nothing happens. */
    method OnReadNotification()
      requires Valid()
      modifies this`events
      ensures Valid()
      ensures events == old(events) + ReadNotificationEffect(user)
    {
      if user.Some? {
        NeutralAppend(events, [ReadAllNotifications(user.value.id)]);
        events := events + [ReadAllNotifications(user.value.id)];
      }
    }

    /** The `add` step of `cacheNote`. */
    method CacheOne(note: StreamNote)
      requires Valid()
      modifies this`cachedNotes
      ensures Valid()
      ensures cachedNotes == CacheAdd(old(cachedNotes), note)
    {
      var existIndex := IndexOfKey(cachedNotes, NoteKey, note.id);
      if existIndex > -1 {
        cachedNotes := cachedNotes[existIndex := note];
        return;
      }
      cachedNotes := [note] + cachedNotes;
      if |cachedNotes| > MaxCachedNotes {
        cachedNotes := cachedNotes[..MaxCachedNotes];
      }
    }

    method CacheNote(note: StreamNote)
      requires Valid()
      modifies this`cachedNotes
      ensures Valid()
      ensures cachedNotes == CacheWithRelated(old(cachedNotes), note)
    {
      CacheOne(note);
      if note.reply.Some? {
        CacheOne(note.reply.value);
      }
      if note.renote.Some? {
        CacheOne(note.renote.value);
      }
    }

    method OnSubscribeNote(payload: Option<Json>)
      requires Valid()
      modifies this`subscribingNotes, this`events
      ensures Valid()
      ensures NoteIdOf(payload).None? ==> subscribingNotes == old(subscribingNotes) && events == old(events)
      ensures NoteIdOf(payload).Some? ==>
        var id := NoteIdOf(payload).value;
        && subscribingNotes == Subscribe(old(subscribingNotes), id).0
        && events == old(events) + (if id in old(subscribingNotes) then [] else [Attached(id)])
      ensures subscribingNotes == SubscribeEffect(old(subscribingNotes), payload).0
      ensures events == old(events) + SubscribeEffect(old(subscribingNotes), payload).1
    {
      var id := NoteIdOf(payload);
      if id.None? {
        return;
      }
      SubscribeKeeps(subscribingNotes, events, id.value);
      var (subs, e) := Subscribe(subscribingNotes, id.value);
      subscribingNotes := subs;
      events := events + e;
    }

    method OnUnsubscribeNote(payload: Option<Json>)
      requires Valid()
      modifies this`subscribingNotes, this`events
      ensures Valid()
      ensures NoteIdOf(payload).None? || NoteIdOf(payload).value !in old(subscribingNotes) ==>
        subscribingNotes == old(subscribingNotes) && events == old(events)
      ensures NoteIdOf(payload).Some? ==>
        var id := NoteIdOf(payload).value;
        && subscribingNotes == Unsubscribe(old(subscribingNotes), id).0
        && events == old(events) + (if id in old(subscribingNotes) && old(subscribingNotes)[id] == 1 then [Detached(id)] else [])
      ensures subscribingNotes == UnsubscribeEffect(old(subscribingNotes), payload).0
      ensures events == old(events) + UnsubscribeEffect(old(subscribingNotes), payload).1
    {
      var id := NoteIdOf(payload);
      if id.None? {
        return;
      }
      UnsubscribeKeeps(subscribingNotes, events, id.value);
      var (subs, e) := Unsubscribe(subscribingNotes, id.value);
      subscribingNotes := subs;
      events := events + e;
    }

    /** A note event for a subscribed note; `mutings` is the user's muting set
        as the muting cache returns it. */
    method OnNoteStreamMessage(ev: NoteStreamEvent, mutings: set<string>)
      requires Valid()
      modifies this`events
      ensures Valid()
      ensures var m := NoteUpdate(user, mutings, ev);
        events == old(events) + (if m.Some? then [m.value] else [])
    {
      var m := NoteUpdate(user, mutings, ev);
      if m.Some? {
        NeutralAppend(events, [m.value]);
        events := events + [m.value];
      }
    }

    method OnChannelConnectRequested(payload: Option<Json>, services: map<string, ChannelService>)
      requires Valid()
      modifies this`channels, this`events
      ensures Valid()
      ensures subscribingNotes == old(subscribingNotes)
      ensures var args := ConnectArgs(payload);
        args.None? || args.value.2 !in services ==> channels == old(channels) && events == old(events)
      ensures var o := ConnectEffect(old(channels), user, token, services, payload);
        && (o.None? ==> channels == old(channels) && events == old(events))
        && (o.Some? ==> channels == old(channels) + [o.value.0] && events == old(events) + o.value.1)
    {
      var args := ConnectArgs(payload);
      if args.None? {
        return;
      }
      var (id, params, name, pong) := args.value;
      if name !in services {
        return;
      }
      ConnectChannel(id, params, name, services[name], pong);
    }

    method OnChannelDisconnectRequested(payload: Option<Json>)
      requires Valid()
      modifies this`channels, this`events
      ensures Valid()
      ensures subscribingNotes == old(subscribingNotes)
      ensures payload.None? || StringField(payload.value, "id").None? ==> channels == old(channels) && events == old(events)
      ensures payload.Some? && StringField(payload.value, "id").Some? ==>
        channels == RemoveById(old(channels), StringField(payload.value, "id").value)
      ensures channels == DisconnectEffect(old(channels), payload).0
      ensures events == old(events) + DisconnectEffect(old(channels), payload).1
    {
      if payload.None? {
        return;
      }
      match StringField(payload.value, "id")
      case Some(id) => DisconnectChannel(id);
      case None =>
    }

    /** Joins channel `name`, served by `svc`, under the client's id `id`. */
    method ConnectChannel(id: string, params: map<string, Json>, name: string, svc: ChannelService, pong: bool)
      requires Valid()
      modifies this`channels, this`events
      ensures Valid()
      ensures subscribingNotes == old(subscribingNotes)
      ensures ConnectRefusal(old(channels), user, token, svc, name).Some? ==>
        channels == old(channels) && events == old(events)
      ensures ConnectRefusal(old(channels), user, token, svc, name).None? ==>
        && channels == old(channels) + [Channel(id, svc.chName, svc.hasDispose, svc.hasOnMessage)]
        && events == old(events) + [ChannelInit(id, params)]
             + (if pong then [Sent("connected", JObj(map["id" := JStr(id)]))] else [])
    {
      if ConnectRefusal(channels, user, token, svc, name).Some? {
        return;
      }
      var ch := Channel(id, svc.chName, svc.hasDispose, svc.hasOnMessage);
      channels := channels + [ch];
      var e := [ChannelInit(id, params)] + (if pong then [Sent("connected", JObj(map["id" := JStr(id)]))] else []);
      NeutralAppend(events, e);
      events := events + e;
    }

    /** Leaves every channel joined under `id`, disposing the first of them. */
    method DisconnectChannel(id: string)
      requires Valid()
      modifies this`channels, this`events
      ensures Valid()
      ensures subscribingNotes == old(subscribingNotes)
      ensures channels == RemoveById(old(channels), id)
      ensures var found := FindByKey(old(channels), ChannelKey, id);
        events == old(events) + (if found.Some? && found.value.hasDispose then [ChannelDisposed(id)] else [])
    {
      var channel := FindByKey(channels, ChannelKey, id);
      if channel.None? {
        RemoveByIdAbsent(channels, id);
        return;
      }
      if channel.value.hasDispose {
        NeutralAppend(events, [ChannelDisposed(id)]);
        events := events + [ChannelDisposed(id)];
      }
      channels := RemoveById(channels, id);
    }

    /** Forwards a channel message to the first channel joined under the id, if it takes messages. */
    method OnChannelMessageRequested(payload: Option<Json>)
      requires Valid()
      modifies this`events
      ensures Valid()
      ensures !MessageArgsPresent(payload) ==> events == old(events)
      ensures MessageArgsPresent(payload) ==>
        var found := FindByKey(channels, ChannelKey, StringField(payload.value, "id").value);
        events == old(events) + (if found.Some? && found.value.hasOnMessage
          then [ChannelMessage(found.value.id, StringField(payload.value, "type").value, Field(payload.value, "body").value)]
          else [])
      ensures events == old(events) + ChannelMessageEffect(channels, payload)
    {
      if payload.None? {
        return;
      }
      var id := StringField(payload.value, "id");
      var msgType := StringField(payload.value, "type");
      var body := Field(payload.value, "body");
      if id.None? || msgType.None? || body.None? {
        return;
      }
      var channel := FindByKey(channels, ChannelKey, id.value);
      if channel.Some? && channel.value.hasOnMessage {
        var e := [ChannelMessage(channel.value.id, msgType.value, body.value)];
        NeutralAppend(events, e);
        events := events + e;
      }
    }

    /** Stops the refresh timer and disposes every joined channel that has a
        `dispose`. The channel list itself is left as it is. */
    method Dispose()
      requires Valid()
      modifies this`events
      ensures Valid()
      ensures events == old(events) + (if hasFetchInterval then [IntervalCleared] else [])
        + DisposedEvents(WithDispose(channels))
    {
      if hasFetchInterval {
        NeutralAppend(events, [IntervalCleared]);
        events := events + [IntervalCleared];
      }
      ghost var start := events;
      var targets := WithDispose(channels);
      for i := 0 to |targets|
        invariant events == start + DisposedEvents(targets[..i])
        invariant SubsInv(subscribingNotes, events)
      {
        NeutralAppend(events, [ChannelDisposed(targets[i].id)]);
        events := events + [ChannelDisposed(targets[i].id)];
        assert DisposedEvents(targets[..i + 1]) == DisposedEvents(targets[..i]) + [ChannelDisposed(targets[i].id)];
      }
      assert targets[..|targets|] == targets;
    }
  }
}
