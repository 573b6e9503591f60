# misskey-tempura core, modelled in Dafny

This project models the parts of the misskey-tempura server and client that
keep a small in-memory state changed by messages or requests, and the pure
string and list transformations beside them:

- the main streaming connection of a client (`Connection`): joined channels
  with their admission checks, reference-counted note subscriptions, the
  32-entry note cache, disconnect and dispose;
- the process-local list of active system webhooks, kept current by
  created/updated/deleted notices, and the fan-out of an event to the
  webhooks subscribed to it;
- ActivityPub relays: adding, removing, accepting and rejecting relays, the
  ten-minute cache of accepted relays and the delivery of an activity to
  every accepted relay;
- test deliveries of user and system webhooks with dummy payloads, and the
  packing of dummy users and notes;
- the search service's filter compiler, indexing gate, Meilisearch filter,
  LIKE/PGroonga text conditions and result order;
- the `admin/update-meta` handler's normalisation of host lists and empty
  strings and its followed-users and contact-form validations;
- the version banner (`parseVersionInfo`), the frontend's scoped CSS names
  (`hash`, `toBase62`), the `/emoji/:path` route and the ActivityPub redirect
  guard, the `emoji` endpoint's lookup key, `users/show`,
  `drive/files/create-multipart-upload`, the client's basic timelines and its
  user display filters.

Each source file is one module. State that the source updates in place is a
class (`StreamConnection.Connection`, `SystemWebhooks.SystemWebhookService`,
`Relays.RelayService`, `WebhookTest.WebhookTestService`, the job queue
`Queue.QueueService`, the reply seen by the redirect guard); loops of the
source are methods with loop invariants, proved against specification
functions; the rest are functions and lemmas. Side effects that leave the
process (listener attach/detach on the event bus, messages sent to the
client, channel initialisation and disposal) are recorded in a ghost event
log of the connection; enqueued jobs are an append-only log of the queue.

Two properties one might expect of this code do not hold, and the model
states what the code does:

- Notices do not commute: a created notice that overtakes the delete of the
  same webhook leaves it listed in the active-webhook list, and a created
  notice received twice lists it twice, so processes that receive the same
  notices in different orders can disagree (`SystemWebhooks.NoticeOrderMatters`,
  `SystemWebhooks.CreatedTwiceDeliversTwice`).
- `dispose` is not idempotent: it never clears the channel list, so a second
  call disposes every channel again; the model states exactly what one call
  does (`StreamConnection.Connection.Dispose`).

## Model

| member | source | states |
|---|---|---|
| Common.Filter | packages/frontend/src/timelines.ts:52 | `Array.prototype.filter`: the result keeps exactly the elements that pass, never more than the input |
| Common.FilterAppend | packages/backend/src/server/api/endpoints/users/show.ts:153-156 | filtering a concatenation filters each part, so kept elements keep their order |
| Common.FilterCount | packages/backend/src/core/SystemWebhookService.ts:222-226 | filtering keeps every copy of a passing element and no copy of a failing one |
| Strings.Trim | packages/backend/src/server/api/endpoints/users/show.ts:134-136 | `String.prototype.trim`: the result has no leading or trailing whitespace |
| Strings.TrimIdempotent | packages/backend/src/server/api/endpoints/users/show.ts:134-136 | trimming a trimmed string changes nothing, so trimming twice is trimming once |
| Strings.TrimIsInfix | packages/backend/src/server/api/endpoints/drive/files/create-multipart-upload.ts:104 | the trimmed string is the input with only whitespace cut from both ends |
| Strings.TrimEmptyIff | packages/backend/src/server/api/endpoints/admin/update-meta.ts:814-815 | a string trims to empty exactly when it is all whitespace |
| Strings.Split | packages/backend/src/boot/master.ts:33 | `split` on a character gives at least one piece, none holding the separator |
| Strings.JoinSplit | packages/backend/src/boot/master.ts:33 | joining the pieces of a split with the separator gives the string back |
| Strings.SplitJoin | packages/backend/src/boot/master.ts:42 | splitting a join of separator-free pieces gives the pieces back |
| Strings.SplitLength | packages/backend/src/server/ServerService.ts:164-166 | a split has one more piece than the string has separators |
| Strings.JoinSplitOn | packages/backend/src/core/SearchService.ts:281 | `split(' OR ')` loses nothing: joining the pieces with ` OR ` gives the query back |
| Strings.StrLeTotal | packages/backend/src/server/api/endpoints/admin/update-meta.ts:345 | the default sort order compares any two strings |
| Strings.StrLeTrans | packages/backend/src/server/api/endpoints/admin/update-meta.ts:345 | the default sort order is transitive |
| Strings.StrLeAntisym | packages/backend/src/server/api/endpoints/admin/update-meta.ts:345 | two strings each ordered before the other are equal |
| Strings.ParseNatToString | packages/backend/src/core/SearchService.ts:62 | the decimal rendering of a number reads back as that number |
| Strings.IntToString | packages/backend/src/core/SearchService.ts:62 | `toString` of a number is non-empty and starts with `-` exactly for a negative number |
| Sorting.SortBy | packages/backend/src/core/SearchService.ts:385 | the sort's result is ordered by the key and is a permutation of its input |
| StreamConnection.NoteIdOf | packages/backend/src/server/api/stream/Connection.ts:168-169 | a subNote/unsubNote payload names a note exactly when it is an object with a non-empty string `id`, and then names that id |
| StreamConnection.SubscribeKeeps | packages/backend/src/server/api/stream/Connection.ts:167-178 | a subscription keeps every count positive and one listener per subscribed note; the listener is attached only on the 0 to 1 step |
| StreamConnection.UnsubscribeKeeps | packages/backend/src/server/api/stream/Connection.ts:184-196 | an unsubscription keeps the invariant; the listener is detached and the entry deleted exactly when the count falls to 0; an unknown id changes nothing |
| StreamConnection.RefcountBalanced | packages/backend/src/server/api/stream/Connection.ts:167-196 | after any sequence of subNote/unsubNote requests each note has exactly one listener attached if it is subscribed and none otherwise |
| StreamConnection.ListenersAppend | packages/backend/src/server/api/stream/Connection.ts:176-194 | the listeners left attached by two runs of events add up |
| Common.IndexOfKey | packages/backend/src/server/api/stream/Connection.ts:141 | `findIndex` by id (used for the note cache and, at SystemWebhookService.ts:246, for the webhook list): the first index holding the id, or -1 exactly when none does |
| Common.FindByKey | packages/backend/src/server/api/stream/Connection.ts:292 | `find` by a key: the element returned has the key and is the first such element; none exactly when no element has it (also the channel lookup, the relay lookup by inbox at RelayService.ts:53-55 and the batch reorder at users/show.ts:154) |
| StreamConnection.CacheAdd | packages/backend/src/server/api/stream/Connection.ts:140-151 | a cached note replaces the entry with its id where it stands, otherwise goes to the front with the oldest dropped past 32; the note is cached afterwards, the cache stays within 32 entries and keeps ids distinct |
| StreamConnection.CacheWithRelated | packages/backend/src/server/api/stream/Connection.ts:139-156 | the reply and the renote are cached after the note, the renote last so it is always kept; a note without reply or renote is always kept; the cache keeps at most 32 entries, with distinct ids if it had them; when the note and the reply survive is stated by `CacheWithRelatedKeeps`, and a full cache can evict them |
| StreamConnection.CacheAddFrom | packages/backend/src/server/api/stream/Connection.ts:140-151 | a cache step adds nothing but the new note |
| StreamConnection.CacheAddKeeps | packages/backend/src/server/api/stream/Connection.ts:140-151 | while the cache is not full, a cache step keeps every note with another id and grows by at most one |
| StreamConnection.CacheWithRelatedKeeps | packages/backend/src/server/api/stream/Connection.ts:139-156 | the note survives the caching of its reply and renote unless one of them has its id, whenever its id was not cached yet or the cache holds at most 30 notes; with at most 30 notes the reply survives unless the renote has its id |
| StreamConnection.CacheKeepsNote | packages/backend/src/server/api/stream/Connection.ts:139-156 | the note survives `cacheNote` when neither its reply nor its renote has its id and either its id was not cached or the cache holds at most 30 notes |
| StreamConnection.CacheKeepsReply | packages/backend/src/server/api/stream/Connection.ts:139-156 | with at most 30 cached notes the reply survives `cacheNote` unless the renote has its id |
| StreamConnection.CacheWithRelatedFrom | packages/backend/src/server/api/stream/Connection.ts:139-156 | after caching, every cached note was cached before or is the note, its reply or its renote |
| StreamConnection.ConnectRefusal | packages/backend/src/server/api/stream/Connection.ts:255-273 | a join is refused exactly when 32 channels are held, credentials are required without a user, the token lacks the channel's kind (or the channel has none but requires credentials), or a shared channel of that name is already joined; the channel limit is checked first |
| StreamConnection.RemoveById | packages/backend/src/server/api/stream/Connection.ts:296 | the channels left are exactly those with another id |
| StreamConnection.RemoveByIdAppend | packages/backend/src/server/api/stream/Connection.ts:296 | removal works piece by piece, so the channels left keep their order |
| StreamConnection.RemoveByIdAbsent | packages/backend/src/server/api/stream/Connection.ts:291-298 | disconnecting an id no channel has changes nothing |
| StreamConnection.WithDispose | packages/backend/src/server/api/stream/Connection.ts:323 | dispose visits exactly the joined channels that implement `dispose` |
| StreamConnection.DisposedEvents | packages/backend/src/server/api/stream/Connection.ts:323-325 | one dispose call per joined channel, in list order, for that channel's id; none attaches or detaches a note listener |
| StreamConnection.NoteUpdate | packages/backend/src/server/api/stream/Connection.ts:199-212 | a reaction by a muted user is dropped; every other note event is sent as `noteUpdated` with its note id, type and body |
| StreamConnection.Route | packages/backend/src/server/api/stream/Connection.ts:108-130 | a message that is not an object goes nowhere; otherwise it goes to a handler exactly when its `type` is that handler's name or alias (`s`/`sr` for subNote, `un` for unsubNote, `ch` for channel), and every handler but readNotification receives its `body` |
| StreamConnection.ConnectArgs | packages/backend/src/server/api/stream/Connection.ts:219-225 | a connect request is accepted exactly when it is an object with a string `id` and `channel`, a `pong` that is missing, boolean or null, and `params` missing or an object; the arguments are then `id`, `params ?? {}`, `channel` and whether `pong` is `true` |
| StreamConnection.Connection.constructor | packages/backend/src/server/api/stream/Connection.ts:46-57 | a new connection holds no channel, subscription or cached note and has logged nothing |
| StreamConnection.Connection.Init | packages/backend/src/server/api/stream/Connection.ts:82-90 | with a user the user's state is fetched and the refresh timer is started unless one runs; without a user nothing happens |
| StreamConnection.Connection.OnWsConnectionMessage | packages/backend/src/server/api/stream/Connection.ts:108-131 | each message type changes exactly what its handler's effect function gives (read notification, subscribe, unsubscribe, connect, disconnect, channel message); the note cache is never touched and a message routed nowhere changes nothing |
| StreamConnection.Connection.OnBroadcastMessage | packages/backend/src/server/api/stream/Connection.ts:134-136 | a broadcast is sent to the client unchanged |
| StreamConnection.Connection.OnReadNotification | packages/backend/src/server/api/stream/Connection.ts:159-161 | the log grows by `ReadNotificationEffect`: with a user every notification is marked read, without one nothing happens |
| StreamConnection.ReadNotificationEffect | packages/backend/src/server/api/stream/Connection.ts:159-161 | one read-all call exactly when a user is signed in, and no listener is attached or detached |
| StreamConnection.Connection.CacheOne | packages/backend/src/server/api/stream/Connection.ts:140-151 | the in-place replace or front insert and truncate gives the cache `CacheAdd` specifies, keeping the connection invariant |
| StreamConnection.Connection.CacheNote | packages/backend/src/server/api/stream/Connection.ts:139-156 | the cache becomes `CacheWithRelated` of the old cache, keeping the invariant |
| StreamConnection.Connection.OnSubscribeNote | packages/backend/src/server/api/stream/Connection.ts:167-178 | the counts and the log become `SubscribeEffect` of the old ones: a payload without a note id changes nothing; otherwise the count goes up and the listener is attached only if the note was not subscribed |
| StreamConnection.Connection.OnUnsubscribeNote | packages/backend/src/server/api/stream/Connection.ts:184-196 | the counts and the log become `UnsubscribeEffect` of the old ones: an unknown or missing id changes nothing; otherwise the count goes down and the listener is detached exactly when it was the last subscription |
| StreamConnection.SubscriptionEffectsKeep | packages/backend/src/server/api/stream/Connection.ts:167-196 | both subscription handlers keep the invariant that every counted note has its listener attached exactly once and every other note none |
| StreamConnection.Subscribe | packages/backend/src/server/api/stream/Connection.ts:171-177 | the note's count goes up by one, from zero when absent, every other count stays, and the listener is attached exactly when the new count is 1 |
| StreamConnection.Unsubscribe | packages/backend/src/server/api/stream/Connection.ts:188-195 | an unknown id changes nothing; otherwise the count goes down, the entry is deleted and the listener detached exactly when the count was at most 1, and every other count stays |
| StreamConnection.Connection.OnNoteStreamMessage | packages/backend/src/server/api/stream/Connection.ts:199-212 | the client is sent the update `NoteUpdate` gives, or nothing |
| StreamConnection.Connection.OnChannelConnectRequested | packages/backend/src/server/api/stream/Connection.ts:218-226 | the channels and the log change exactly as `ConnectEffect` gives: a malformed request, an unknown channel or a refused join changes nothing; otherwise the joined channel is appended and its initialisation (and pong) logged |
| StreamConnection.ConnectEffect | packages/backend/src/server/api/stream/Connection.ts:218-226 | a join happens only for well-formed arguments naming a known channel with no refusal; the joined channel has the requested id and the service's name and handlers; the events are the channel's initialisation with its params, then, when `pong` is asked, a `connected` message carrying the id; a well-formed request for a known channel is dropped only when refused |
| StreamConnection.Connection.OnChannelDisconnectRequested | packages/backend/src/server/api/stream/Connection.ts:232-237 | the channels and the log change exactly as `DisconnectEffect` gives: a request without a string `id` changes nothing; otherwise that id is disconnected |
| StreamConnection.DisconnectEffect | packages/backend/src/server/api/stream/Connection.ts:232-237 | without a string `id` nothing changes; otherwise exactly the channels with that id leave, and one dispose is logged exactly when the first of them has a dispose |
| StreamConnection.Connection.ConnectChannel | packages/backend/src/server/api/stream/Connection.ts:254-284 | a refused join changes nothing; an accepted one appends exactly one channel, initialises it with its params and sends `connected` with the id exactly when `pong` is set; at most 32 channels are ever held |
| StreamConnection.Connection.DisconnectChannel | packages/backend/src/server/api/stream/Connection.ts:291-298 | every channel with the id is removed, the others keep their order, and the first one with that id is disposed if it implements `dispose` |
| StreamConnection.Connection.OnChannelMessageRequested | packages/backend/src/server/api/stream/Connection.ts:305-315 | the log grows by `ChannelMessageEffect`: a message with string `id` and `type` and a `body` is handed to the first channel with that id if it takes messages; anything else changes nothing |
| StreamConnection.ChannelMessageEffect | packages/backend/src/server/api/stream/Connection.ts:305-315 | at most one hand-over, only for a message with string `id` and `type` and a `body`, carrying exactly those, and only when a joined channel with that id takes messages |
| StreamConnection.Connection.Dispose | packages/backend/src/server/api/stream/Connection.ts:321-326 | the refresh timer is cleared if it runs and every joined channel with `dispose` is disposed once, in order; the channel list is not cleared |
| SystemWebhooks.WithoutId | packages/backend/src/core/SystemWebhookService.ts:253-258 | the webhooks left are exactly those with another id |
| SystemWebhooks.Upsert | packages/backend/src/core/SystemWebhookService.ts:245-251 | the webhook replaces the first entry with its id, at that position and with the length unchanged, or is appended when there is none; nothing else changes |
| SystemWebhooks.ApplyNotice | packages/backend/src/core/SystemWebhookService.ts:230-264 | a notice adds nothing but its own webhook, and only when it is active; the list grows by at most one |
| SystemWebhooks.Selected | packages/backend/src/core/SystemWebhookService.ts:220 | without excludes a webhook is selected exactly when it listens to the event; an excluded webhook never is |
| SystemWebhooks.IgnoredNotices | packages/backend/src/core/SystemWebhookService.ts:231-262 | messages on other channels and notices of other types leave the list as it is |
| SystemWebhooks.RemovalNotices | packages/backend/src/core/SystemWebhookService.ts:252-260 | a delete notice, or an update that deactivates, removes every entry with that id and keeps the rest in order |
| SystemWebhooks.CreatedNotice | packages/backend/src/core/SystemWebhookService.ts:238-243 | a created notice appends the webhook exactly when it is active, without looking for its id |
| SystemWebhooks.NoticesKeepActive | packages/backend/src/core/SystemWebhookService.ts:237-263 | any run of notices keeps the list to active webhooks only |
| SystemWebhooks.UpdateKeepsIdsDistinct | packages/backend/src/core/SystemWebhookService.ts:244-251 | an update of an active webhook keeps the listed ids distinct |
| SystemWebhooks.NoticeOrderMatters | packages/backend/src/core/SystemWebhookService.ts:238-260 | create then delete leaves the webhook out, delete then create leaves it in: notices do not commute |
| SystemWebhooks.CreatedTwiceDeliversTwice | packages/backend/src/core/SystemWebhookService.ts:218-243 | a created notice received twice lists the webhook twice, and each subscribed event is then delivered to it twice |
| SystemWebhooks.DeliveryJobs | packages/backend/src/core/SystemWebhookService.ts:218-226 | every job is for a listed webhook subscribed to the type and not excluded, with the event type and content and no attempts override |
| SystemWebhooks.DeliveryJobsCount | packages/backend/src/core/SystemWebhookService.ts:218-226 | each selected webhook gets as many jobs as it is listed, every other webhook none |
| SystemWebhooks.EnqueueDeliveries | packages/backend/src/core/SystemWebhookService.ts:222-226 | the loop enqueues `DeliveryJobs` of the list, in list order, and nothing else |
| SystemWebhooks.SystemWebhookService.constructor | packages/backend/src/core/SystemWebhookService.ts:72-83 | a new service listens for notices and has read nothing yet |
| SystemWebhooks.SystemWebhookService.FetchActiveSystemWebhooks | packages/backend/src/core/SystemWebhookService.ts:86-95 | the first call reads the repository once and keeps its active webhooks; later calls return the kept list without reading |
| SystemWebhooks.SystemWebhookService.OnMessage | packages/backend/src/core/SystemWebhookService.ts:230-264 | the list becomes the one `ApplyNotice` gives for the message |
| SystemWebhooks.SystemWebhookService.EnqueueSystemWebhook | packages/backend/src/core/SystemWebhookService.ts:211-227 | the queue receives `DeliveryJobs` of the active list; on the first call that list is the repository's active webhooks, read once; later calls keep the list and do not read the repository |
| SystemWebhooks.SystemWebhookService.Dispose | packages/backend/src/core/SystemWebhookService.ts:267-269 | the notice listener is detached |
| Relays.SetStatus | packages/backend/src/core/RelayService.ts:78-89 | ids and inboxes never change and the length stays; the relays with the id get the status and every other relay is unchanged |
| Relays.StatusDecidesDelivery | packages/backend/src/core/RelayService.ts:78-89 | accepting a relay puts it among the relays delivered to, rejecting it removes every relay with its id from them, and the other relays' delivery is unaffected |
| Relays.DeleteById | packages/backend/src/core/RelayService.ts:67 | the relays left are exactly those with another id |
| Relays.AcceptedOf | packages/backend/src/core/RelayService.ts:96-98 | exactly the stored relays whose status is accepted |
| Relays.WithAudience | packages/backend/src/core/RelayService.ts:109-110 | the delivered copy keeps every field of the activity and gets `to` set to the public collection only when `to` is missing or falsy |
| Relays.RelayJobsReachEveryInbox | packages/backend/src/core/RelayService.ts:114-116 | an inbox receives the signed activity exactly when one of the relays has it |
| Relays.EnqueueRelayDeliveries | packages/backend/src/core/RelayService.ts:114-116 | the loop enqueues `RelayJobs` of the relays, in order, and nothing else |
| Relays.RelayService.constructor | packages/backend/src/core/RelayService.ts:23-34 | a new service holds the given relays and no cached read |
| Relays.RelayService.AddRelay | packages/backend/src/core/RelayService.ts:36-49 | the relay is stored as requesting under the new id and one Follow is enqueued to its inbox |
| Relays.RelayService.RemoveRelay | packages/backend/src/core/RelayService.ts:52-68 | an unknown inbox fails with `relay not found` and changes nothing; otherwise an Undo of the Follow is enqueued to it and the relay is deleted |
| Relays.RelayService.ListRelays | packages/backend/src/core/RelayService.ts:71-74 | every stored relay, whatever its status |
| Relays.RelayService.RelayAccepted | packages/backend/src/core/RelayService.ts:77-83 | the relay's status becomes accepted and nothing else changes |
| Relays.RelayService.RelayRejected | packages/backend/src/core/RelayService.ts:86-92 | the relay's status becomes rejected and nothing else changes |
| Relays.RelayService.GetAcceptedRelays | packages/backend/src/core/RelayService.ts:95-99 | only accepted relays; a read younger than ten minutes is reused, otherwise the repository is read again and cached |
| Relays.RelayService.DeliverToRelays | packages/backend/src/core/RelayService.ts:102-117 | a null activity enqueues nothing and leaves the cache alone; otherwise the accepted relays are the cached list while it is younger than ten minutes, and otherwise read afresh, stored as the cache and stamped with the current time; one deliver job per accepted relay with the signed copy, the stored relays unchanged |
| WebhookTest.MergeUserWebhook | packages/backend/src/core/WebhookTestService.ts:169-184 | each of `userId`, `name`, `on`, `url`, `secret` and `active` is the override's when given and the stored one otherwise; the id is never overridden, and an empty override changes nothing |
| WebhookTest.MergeSystemWebhook | packages/backend/src/core/WebhookTestService.ts:271-284 | each of `isActive`, `name`, `on`, `url` and `secret` is the override's when given and the stored one otherwise; the id is never overridden, and an empty override changes nothing |
| WebhookTest.ToPackedUserLite | packages/backend/src/core/WebhookTestService.ts:432-456 | the identity fields are copied, the avatar is reported only when the user has an avatar id, every decoration points at the dummy image, and the user is `active` |
| WebhookTest.ToPackedUserDetailed | packages/backend/src/core/WebhookTestService.ts:459-482 | the lite form, the banner only when the user has a banner id, and the counters and flags copied |
| WebhookTest.PackedNoteFields | packages/backend/src/core/WebhookTestService.ts:387-429 | packing copies the note's ids, text, mentions and both counts, packs a missing user as the default dummy user, reports `public_non_ltl` as `public` with `dontShowOnLtl` set (and only then), and gives detail exactly when asked: the reply without detail, the renote with it |
| WebhookTest.ToPackedNote | packages/backend/src/core/WebhookTestService.ts:387-429 | a packed note never reports `public_non_ltl` and carries detail exactly when asked for |
| WebhookTest.PackingBoundsDepth | packages/backend/src/core/WebhookTestService.ts:421-426 | a packed note is never deeper than the stored renote/reply chain, and without detail it is one level |
| WebhookTest.UserPayload | packages/backend/src/core/WebhookTestService.ts:218-255 | every user event type has a dummy body except `reaction` |
| WebhookTest.GenerateAbuseReport | packages/backend/src/core/WebhookTestService.ts:359-384 | the report's ids, texts, hosts and flags are copied, each joined user is packed exactly as `toPackedUserLite` packs it, and a user not joined is null |
| WebhookTest.SystemPayload | packages/backend/src/core/WebhookTestService.ts:291-355 | `abuseReport` sends an unresolved report without assignee, `abuseReportResolved` a resolved one with an assignee |
| WebhookTest.OwnedWebhooks | packages/backend/src/core/WebhookTestService.ts:173-174 | exactly the stored webhooks with the id that belong to the sender |
| WebhookTest.SystemWebhooksWithId | packages/backend/src/core/WebhookTestService.ts:274 | exactly the stored system webhooks with the id |
| WebhookTest.WebhookTestService.constructor | packages/backend/src/core/WebhookTestService.ts:148-154 | the service sends through the given queue |
| WebhookTest.WebhookTestService.TestUserWebhook | packages/backend/src/core/WebhookTestService.ts:165-256 | fails exactly when the sender owns no webhook with the id; `reaction` sends nothing; otherwise one job of that event type with the dummy body, the overridden webhook and one attempt, whatever its active flag and subscriptions |
| WebhookTest.WebhookTestService.TestSystemWebhook | packages/backend/src/core/WebhookTestService.ts:267-356 | fails exactly when no system webhook has the id; otherwise one job of that event type with the dummy body, the overridden webhook and one attempt |
| Search.ReadEscaped | packages/backend/src/core/SearchService.ts:60 | an escaped string in quotes reads back as itself and ends at its closing quote |
| Search.CompileValueAsWritten | packages/backend/src/core/SearchService.ts:58-67 | as written: a string is put between single quotes unescaped, numbers and booleans rendered as themselves |
| Search.CompileValue | packages/backend/src/core/SearchService.ts:58-67 | the corrected rendering: a quoted, escaped string; numbers and booleans as before |
| Search.Escape | packages/backend/src/core/SearchService.ts:58-67 | escaping adds exactly one character per quote and backslash of the value (`ReadEscaped` reads it back) |
| Search.Quote | packages/backend/src/core/SearchService.ts:58-67 | numbers and booleans compile the same escaped or as written; a string always compiles between single quotes |
| Search.QuotedValueReadsBack | packages/backend/src/core/SearchService.ts:58-67 | a compiled string value is one string literal whatever follows it in the filter |
| Search.UnescapedQuoteEndsLiteral | packages/backend/src/core/SearchService.ts:60 | as written, a quote inside a value closes the literal early, so the rest of the value is read as filter syntax |
| Search.CompileQuery | packages/backend/src/core/SearchService.ts:69-84 | exactly an `and`/`or` without children compiles to the empty string; everything else is one parenthesised expression |
| Search.ShouldIndex | packages/backend/src/core/SearchService.ts:142-160 | a note is indexed exactly when the search engine is configured, it has text or a content warning, it is `home` or `public`, and its host is local, or the scope is global, or its host is in the scope's list |
| Search.IndexedNotesAreUnindexed | packages/backend/src/core/SearchService.ts:142-181 | every indexed note is removed again by `unindexNote` |
| Search.ShouldUnindex | packages/backend/src/core/SearchService.ts:177-179 | a note is removed from the index exactly when the search engine is configured and the note is `home` or `public` |
| Search.ScopesNest | packages/backend/src/core/SearchService.ts:147-160 | the local scope indexes no more than a host list, and a host list no more than the global scope |
| Search.UntilTerm | packages/backend/src/core/SearchService.ts:327-331 | `untilId` contributes only upper bounds |
| Search.SinceTerm | packages/backend/src/core/SearchService.ts:332-336 | `sinceId` contributes only lower bounds |
| Search.KeyTerm | packages/backend/src/core/SearchService.ts:337-338 | the author or channel contributes only equalities on its key |
| Search.HostTerm | packages/backend/src/core/SearchService.ts:339-345 | the host contributes only a null test or an equality on `userHost` |
| Search.FilterTerms | packages/backend/src/core/SearchService.ts:323-345 | a search request contributes at most five conditions, all comparisons or the local-host null test, never a connective |
| Search.FilterTermsUntil | packages/backend/src/core/SearchService.ts:327-331 | the filter bounds the creation time from above exactly when `untilId` is given, by that id's time |
| Search.FilterTermsSince | packages/backend/src/core/SearchService.ts:332-336 | the filter bounds the creation time from below exactly when `sinceId` is given, by that id's time |
| Search.FilterTermsMatchAuthor | packages/backend/src/core/SearchService.ts:337 | the filter matches the author exactly when `userId` is given |
| Search.FilterTermsMatchChannel | packages/backend/src/core/SearchService.ts:338 | the filter matches the channel exactly when `channelId` is given |
| Search.FilterTermsHost | packages/backend/src/core/SearchService.ts:339-345 | host `.` selects local notes and any other given host is matched exactly |
| Search.MeiliFilter | packages/backend/src/core/SearchService.ts:323-345 | the successive pushes build the conjunction of the request's terms in order |
| Search.OrderResults | packages/backend/src/core/SearchService.ts:385 | the hits are returned newest id first and none is lost or added |
| Search.OrTermsArePieces | packages/backend/src/core/SearchService.ts:281 | the terms are exactly the non-empty trimmed pieces of the query |
| Search.OrTerms | packages/backend/src/core/SearchService.ts:281 | every ` OR ` term is non-empty and trimmed |
| Search.ExcludeQuery | packages/backend/src/core/SearchService.ts:270 | the excluded query starts with the first `-word` and ends with the last; split on spaces it gives every `-word` in order (`ExcludeQueryWords`) |
| Search.ExcludeQueryWords | packages/backend/src/core/SearchService.ts:270 | when no excluded word holds a space, splitting the excluded query on spaces gives back each word prefixed with `-`, one per word, in order |
| Search.GroongaCondition | packages/backend/src/core/SearchService.ts:266-276 | the PGroonga query is the query, then the excluded words when there are any; without either there is no condition |
| Search.LikeConditionPerTerm | packages/backend/src/core/SearchService.ts:279-291 | an ` OR ` query gets one LIKE pattern per non-blank term, in order, and no condition when every term is blank |
| Search.LikeConditionWhole | packages/backend/src/core/SearchService.ts:277-295 | any other non-empty query gets one pattern for the whole query |
| Search.LikeCondition | packages/backend/src/core/SearchService.ts:276-295 | no LIKE condition exactly for an empty query or an ` OR ` query whose terms are all blank; an ` OR ` query gets one pattern per term and any other query one pattern for the whole query; never a PGroonga condition |
| Search.TextFilter | packages/backend/src/core/SearchService.ts:262-295 | a PGroonga condition exactly when PGroonga is configured and the query or the excluded words are non-empty; a LIKE condition only without PGroonga, where the excluded words are ignored |
| UpdateMeta.Compact | packages/backend/src/server/api/endpoints/admin/update-meta.ts:323 | `filter(Boolean)` keeps exactly the non-empty strings |
| UpdateMeta.LowerAll | packages/backend/src/server/api/endpoints/admin/update-meta.ts:331 | each entry lower-cased, in place; every entry of the result is lower-case and an entry already lower-case is kept |
| UpdateMeta.NormalizeHosts | packages/backend/src/server/api/endpoints/admin/update-meta.ts:330-332 | every normalised host is non-empty and lower-case, comes from a sent host, and every non-empty sent host is there lower-cased |
| UpdateMeta.NormalizeHostsIdempotent | packages/backend/src/server/api/endpoints/admin/update-meta.ts:330-332 | normalising a normalised host list changes nothing |
| UpdateMeta.SilencedHostsFilter | packages/backend/src/server/api/endpoints/admin/update-meta.ts:343-350 | sorting then filtering with the remembered previous entry gives `Silenced` |
| UpdateMeta.FilterSilenced | packages/backend/src/server/api/endpoints/admin/update-meta.ts:344-349 | the filter's pass, with `lastValue` carried from entry to entry, gives what `SilencedFrom` specifies |
| UpdateMeta.SilencedFromSpec | packages/backend/src/server/api/endpoints/admin/update-meta.ts:345-349 | over a sorted list the filter keeps a strictly ascending list of exactly the non-empty, unblocked entries |
| UpdateMeta.Silenced | packages/backend/src/server/api/endpoints/admin/update-meta.ts:343-350 | the silenced hosts are never more than the hosts sent |
| UpdateMeta.SilencedSpec | packages/backend/src/server/api/endpoints/admin/update-meta.ts:343-358 | the silenced hosts are strictly ascending, hence without repeats, and are exactly the sent hosts that are non-empty and not blocked in the same request |
| UpdateMeta.SilencedOrderIndependent | packages/backend/src/server/api/endpoints/admin/update-meta.ts:343-358 | the result depends only on which hosts are sent, not on their order or repeats |
| UpdateMeta.NullIfEmpty | packages/backend/src/server/api/endpoints/admin/update-meta.ts:511-515 | an empty string is stored as null and any other value as it is, so the empty string is never stored |
| UpdateMeta.UserAgentSetting | packages/backend/src/server/api/endpoints/admin/update-meta.ts:813-816 | a user agent blank after trimming is stored as null, any other is stored untrimmed, so a blank user agent is never stored |
| UpdateMeta.SummaryProxySetting | packages/backend/src/server/api/endpoints/admin/update-meta.ts:818-821 | `urlPreviewSummaryProxyUrl` takes precedence over `summalyProxy`; the value is trimmed and empty becomes null |
| UpdateMeta.SharedWith | packages/backend/src/server/api/endpoints/admin/update-meta.ts:900-908 | true exactly when some sent user is in the stored list or in the other list of the request |
| UpdateMeta.FollowedConflict | packages/backend/src/server/api/endpoints/admin/update-meta.ts:899-913 | a conflict exactly when some user sent as followed by default is forcibly followed (stored or sent), or some user sent as forcibly followed is followed by default (stored or sent) |
| UpdateMeta.FollowedConflictSymmetric | packages/backend/src/server/api/endpoints/admin/update-meta.ts:899-913 | the conflict check gives the same answer with the two lists exchanged, and a user sent in both lists is always a conflict |
| UpdateMeta.HasDuplicateKeys | packages/backend/src/server/api/endpoints/admin/update-meta.ts:1067-1071 | true exactly when two categories share a key |
| UpdateMeta.DistinctKeysFillSet | packages/backend/src/server/api/endpoints/admin/update-meta.ts:1067-1069 | the keys are distinct exactly when the set of keys is as large as the list, which is the source's test |
| UpdateMeta.CategoryError | packages/backend/src/server/api/endpoints/admin/update-meta.ts:1063-1086 | categories are accepted exactly when the keys are distinct and, if any are sent, exactly one is default; otherwise the first failing check, in source order, is reported |
| UpdateMeta.AcceptedCategoriesHaveOneDefault | packages/backend/src/server/api/endpoints/admin/update-meta.ts:1073-1082 | an accepted non-empty list has exactly one default category |
| UpdateMeta.EmptyCategoriesAccepted | packages/backend/src/server/api/endpoints/admin/update-meta.ts:1079-1082 | an empty category list is accepted |
| UpdateMeta.WriteLists | packages/backend/src/server/api/endpoints/admin/update-meta.ts:322-342 | each list sent as an array is stored with empty entries dropped, host lists lower-cased; the other fields stay unset |
| UpdateMeta.WriteSilenced | packages/backend/src/server/api/endpoints/admin/update-meta.ts:343-358 | each silenced-host list sent as an array is stored filtered against the blocked hosts written before it |
| UpdateMeta.WriteKeys | packages/backend/src/server/api/endpoints/admin/update-meta.ts:511-925 | each key sent is stored, an empty one as null |
| UpdateMeta.WritePreview | packages/backend/src/server/api/endpoints/admin/update-meta.ts:813-833 | the preview user agent and proxy and the federation hosts are stored as their settings say when sent |
| UpdateMeta.HandleUpdateMeta | packages/backend/src/server/api/endpoints/admin/update-meta.ts:315-1098 | a followed-users conflict fails with FOLLOWED_USER_DUPLICATED, then a category error fails with it, otherwise the update is the one the request specifies |
| UpdateMeta.Expected | packages/backend/src/server/api/endpoints/admin/update-meta.ts:315-1090 | a list field is written exactly when sent as an array and a key exactly when not `undefined`; stored blocked hosts are non-empty and lower-case; no silenced or media-silenced host is empty or blocked in the same update; no key is stored as the empty string and no user agent as a blank one |
| UpdateMeta.UpdatedSilencedHosts | packages/backend/src/server/api/endpoints/admin/update-meta.ts:343-358 | whatever the request, a stored silenced-host list is strictly ascending and holds exactly the sent, non-empty hosts not blocked in the same request |
| UpdateMeta.UndefinedLeavesFieldOut | packages/backend/src/server/api/endpoints/admin/update-meta.ts:318-361 | a parameter left undefined leaves its field out of the update, and an empty key or instance is written as null |
| VersionInfo.FindTag | packages/backend/src/boot/master.ts:34 | `findIndex` gives the first `tempura` component, and none exactly when no component is `tempura` |
| VersionInfo.ParseVersionInfo | packages/backend/src/boot/master.ts:32-46 | the base version always starts with `v`, and a fork part, when there is one, starts with `tempura` |
| VersionInfo.DashedJoin | packages/backend/src/boot/master.ts:42 | a component followed by the dashed rest is the components joined with `-` |
| VersionInfo.JoinAppend | packages/backend/src/boot/master.ts:38 | joining two lists of components is joining each with `-` between |
| VersionInfo.BaseIsJoined | packages/backend/src/boot/master.ts:37-39 | the base version is `v` and the base components joined with `-` |
| VersionInfo.ForkUndefinedIff | packages/backend/src/boot/master.ts:34-43 | the fork part is undefined exactly when no component is `tempura` |
| VersionInfo.UntaggedBase | packages/backend/src/boot/master.ts:36-39 | without a `tempura` component the base is `v` followed by the whole version |
| VersionInfo.ForkComponents | packages/backend/src/boot/master.ts:34-42 | a defined fork part starts with `tempura` and splits back into the components from the first `tempura` on, later `tempura` components included |
| VersionInfo.TaggedRoundTrip | packages/backend/src/boot/master.ts:34-43 | with the first `tempura` past the first component, base, `-` and fork give `v` followed by the whole version |
| VersionInfo.LeadingTag | packages/backend/src/boot/master.ts:36-43 | with `tempura` first, the base renders as `vundefined` and the fork part is the whole version |
| ScopedName.DigitValue | packages/frontend/vite.config.ts:66 | the index of a base-62 character in `BASE62_DIGITS` |
| ScopedName.DigitValueOfDigit | packages/frontend/vite.config.ts:66 | the digit at index k reads back as k |
| ScopedName.Base62 | packages/frontend/vite.config.ts:68-79 | the rendering has at least one digit and its last digit is that of the number modulo 62 |
| ScopedName.ToBase62 | packages/frontend/vite.config.ts:68-79 | the loop prepending digits produces `Base62` of the number, `0` for zero |
| ScopedName.Base62Digits | packages/frontend/vite.config.ts:66-76 | zero is `0`, every character is a base-62 digit, and a positive number has no leading `0` |
| ScopedName.Base62RoundTrip | packages/frontend/vite.config.ts:72-76 | reading the digits back by index in `BASE62_DIGITS` gives the number |
| ScopedName.Base62Length | packages/frontend/vite.config.ts:72-76 | a positive number with L digits lies in [62^(L-1), 62^L) |
| ScopedName.Combine | packages/frontend/vite.config.ts:63 | the combined hash is below 2^53, so it is exact as a JavaScript number |
| ScopedName.HashOf | packages/frontend/vite.config.ts:51-64 | the hash is an integer below 2^53, so it is exact as a JavaScript number |
| ScopedName.Hash | packages/frontend/vite.config.ts:51-64 | the hash of the code units with wrapping 32-bit multiplies, below 2^53 |
| ScopedName.HashLoop | packages/frontend/vite.config.ts:52-58 | the loop leaves both lanes as `Lanes` of the code units specifies |
| ScopedName.Utf16 | packages/frontend/vite.config.ts:55 | `charCodeAt` reads at least one code unit per character (`Utf16BasicPlane`: exactly one, the character's code, for a string below U+10000) |
| ScopedName.Utf16BasicPlane | packages/frontend/vite.config.ts:55 | a string entirely below U+10000 has one code unit per character, the character's code |
| ScopedName.ReplaceSeparators | packages/frontend/vite.config.ts:138 | each of `\ / . ? & =` becomes `-` and every other character stays, so no separator is left and a string without one is unchanged |
| ScopedName.DropPrefixes | packages/frontend/vite.config.ts:138 | dropping `src-` and `vue-` never lengthens the id or adds a character (`DropPrefixesPlain`, `DropPrefixesLeading` state what is dropped) |
| ScopedName.DropPrefixesPlain | packages/frontend/vite.config.ts:138 | an id in which neither `src-` nor `vue-` occurs is left unchanged |
| ScopedName.DropPrefixesLeading | packages/frontend/vite.config.ts:138 | a leading `src-` or `vue-` is dropped and the rest is treated as if it started the id |
| ScopedName.ScopedId | packages/frontend/vite.config.ts:138 | the development name holds none of the separator characters |
| ScopedName.ProductionName | packages/frontend/vite.config.ts:140 | a production name is `x` followed by one to four characters |
| ScopedName.GenerateScopedName | packages/frontend/vite.config.ts:137-144 | in production the name is `x` and one to four characters; otherwise it is the id, which holds no separator |
| ScopedName.ProductionNameShape | packages/frontend/vite.config.ts:139-141 | a production name is `x` and one to four leading base-62 characters of the hash's rendering |
| EmojiRoute.StripWebp | packages/backend/src/server/ServerService.ts:163 | a trailing `.webp` is cut off |
| EmojiRoute.LocalHost | packages/backend/src/server/ServerService.ts:176 | a missing host and `.` both mean the local host; any other host is kept as it is |
| EmojiRoute.ParseEmojiPath | packages/backend/src/server/ServerService.ts:158-178 | a lookup happens only for a path of the pattern, with a name and a host free of `@` and a host other than `.` |
| EmojiRoute.EmojiPathOutcomes | packages/backend/src/server/ServerService.ts:158-169 | 404 exactly when the pattern fails, 400 exactly when it passes with two or more `@` |
| EmojiRoute.EmojiPathRoundTrip | packages/backend/src/server/ServerService.ts:163-178 | requesting `name.webp` or `name@host.webp` looks up that name at that host, `.` being local |
| EmojiRoute.LookupHasEmojiPath | packages/backend/src/server/ServerService.ts:163-178 | every looked-up key comes from a path `name.webp` or `name@host.webp` |
| EmojiRoute.ServeEmoji | packages/backend/src/server/ServerService.ts:153-208 | a path failing the pattern answers 404 and one with two or more `@` 400; a missing emoji answers a 302 to `/static-assets/emoji-unknown.png` with `fallback` and 404 without; a media-proxy redirect is always 301 and, unless `badge`, carries `static=1` exactly when `static` is asked for |
| EmojiRoute.RefusedPathIgnoresRepository | packages/backend/src/server/ServerService.ts:158-169 | a path refused before the lookup gets the same answer whatever the repository holds |
| EmojiRoute.ServedFromFoundEmoji | packages/backend/src/server/ServerService.ts:191-208 | a found emoji is a 301 to the media proxy with its public URL, or its original URL when the public one is empty, the PNG endpoint exactly for `badge` |
| EmojiRoute.EffectiveLocation | packages/backend/src/server/ServerService.ts:125 | outside production a leading `http://` is read as `https://`; in production, and for any other location, the location is kept as it is |
| EmojiRoute.RefusesLookup | packages/backend/src/server/ServerService.ts:111-129 | the hook's checks in order decide exactly the refusal `Refuses` describes |
| EmojiRoute.Refuses | packages/backend/src/server/ServerService.ts:111-129 | a refused reply always has a string location, and it does not lie under this server's `https` origin |
| EmojiRoute.GuardApRedirect | packages/backend/src/server/ServerService.ts:111-140 | a refused reply becomes 406 without `location`, with a plain-text type, a canonical link to the escaped location and the refusal text; every other reply is untouched |
| EmojiRoute.OwnOriginPasses | packages/backend/src/server/ServerService.ts:126-129 | a redirect under this server's `https` origin always passes |
| EmojiRoute.PlainHttpRedirect | packages/backend/src/server/ServerService.ts:125-129 | outside production an `http` redirect to this server passes; in production every `http` redirect of a lookup is refused |
| EmojiRoute.BrowserAcceptPasses | packages/backend/src/server/ServerService.ts:120-123 | a browser's Accept header, or none, is never refused |
| EmojiRoute.ActivityJsonAccepted | packages/backend/src/server/ServerService.ts:112 | `application/activity+json` in any case is recognised as a lookup |
| EmojiRoute.LdJsonProfileAccepted | packages/backend/src/server/ServerService.ts:112 | `application/ld+json`, a run of characters on one line, then `activitystreams` is recognised as a lookup |
| EmojiLookup.MatchCustom | packages/backend/src/server/api/endpoints/emoji.ts:47 | a match has a name of `[\w+-]` and an optional host of `[\w.-]` characters |
| EmojiLookup.MatchCustomIff | packages/backend/src/server/api/endpoints/emoji.ts:47-48 | the pattern matches exactly `name` and `name@host` with those character sets, and captures the two parts |
| EmojiLookup.LookupKey | packages/backend/src/server/api/endpoints/emoji.ts:47-62 | the host looked up is never `.` or empty: those mean the local host |
| EmojiLookup.ReferenceLookupKey | packages/backend/src/server/api/endpoints/emoji.ts:49-53 | a custom reference is looked up under its name and host, locally when the host is `.` or missing |
| EmojiLookup.UnmatchedLookupKey | packages/backend/src/server/api/endpoints/emoji.ts:55-62 | a name the pattern does not match is looked up verbatim as a local emoji |
| EmojiLookup.EndpointAgreesWithRoute | packages/backend/src/server/api/endpoints/emoji.ts:47-62 | for names both accept, the endpoint and the `/emoji/` route look up the same key |
| UsersShow.Query | packages/backend/src/server/api/endpoints/users/show.ts:143-148 | the batch query returns exactly the stored users asked for, without suspended ones unless the caller is a moderator |
| UsersShow.Reordered | packages/backend/src/server/api/endpoints/users/show.ts:153-156 | the reordered batch has at most one user per requested id, all taken from the query result |
| UsersShow.ReorderLoop | packages/backend/src/server/api/endpoints/users/show.ts:152-156 | the loop pushing one found user per requested id gives `Reordered` |
| UsersShow.ReorderedIds | packages/backend/src/server/api/endpoints/users/show.ts:150-156 | the batch lists the found users in the order of the requested ids, skipping ids not found |
| UsersShow.FoundIdsIsFilter | packages/backend/src/server/api/endpoints/users/show.ts:153-155 | the ids answered are the requested ids filtered by "names a found user" |
| UsersShow.FoundIdsDistinct | packages/backend/src/server/api/endpoints/users/show.ts:153-155 | distinct requested ids give a batch without a user twice |
| UsersShow.FoundIdsComplete | packages/backend/src/server/api/endpoints/users/show.ts:153-155 | an id is answered exactly when it was requested and its user was found |
| UsersShow.BatchContents | packages/backend/src/server/api/endpoints/users/show.ts:143-160 | a batch holds only requested users found in the repository, never a suspended one for a non-moderator, in the order asked for |
| UsersShow.TrimUsername | packages/backend/src/server/api/endpoints/users/show.ts:134-136 | a sent username is trimmed and nothing else changes |
| UsersShow.FindLocalByName | packages/backend/src/server/api/endpoints/users/show.ts:175-177 | a local user with that lower-case username, and none exactly when there is none |
| UsersShow.ShowOne | packages/backend/src/server/api/endpoints/users/show.ts:162-195 | nothing found answers NO_SUCH_USER; an error while fetching is the answer; FAILED_TO_RESOLVE_REMOTE_USER comes exactly from a failed remote resolution that was attempted; a user shown to a non-moderator is never suspended, and a remote user is never shown to an anonymous caller under local-only visibility |
| UsersShow.FetchUser | packages/backend/src/server/api/endpoints/users/show.ts:163-178 | a username with a string host is resolved remotely, refused with NO_SUCH_USER exactly for an anonymous caller under local-only visibility and with FAILED_TO_RESOLVE_REMOTE_USER when resolution fails; otherwise a stored user with the id, or a local user with the lower-cased username, is found |
| UsersShow.HandleShow | packages/backend/src/server/api/endpoints/users/show.ts:133-207 | an empty batch answers `[]`, a batch answers the reordered query, and a single lookup answers what `ShowOne` gives for the trimmed request |
| UsersShow.ModeratorsSeeSuspended | packages/backend/src/server/api/endpoints/users/show.ts:188-195 | a moderator is shown every user found and visible, suspended or not |
| UsersShow.SuspendedErrors | packages/backend/src/server/api/endpoints/users/show.ts:188-195 | for a non-moderator a suspended user is NO_SUCH_USER when also deleted and USER_SUSPENDED otherwise |
| UsersShow.AnonymousRemoteRefused | packages/backend/src/server/api/endpoints/users/show.ts:163-166 | under local-only visibility an anonymous caller asking for a user at a host gets NO_SUCH_USER whatever the remote resolution would give |
| UsersShow.UsernameTrimmed | packages/backend/src/server/api/endpoints/users/show.ts:134-136 | a username with surrounding whitespace gets the same answer as the trimmed one |
| MultipartUpload.NormalizedName | packages/backend/src/server/api/endpoints/drive/files/create-multipart-upload.ts:101-110 | the stored name is the trimmed name, and null exactly when none was sent or it trims to empty or `blob` |
| MultipartUpload.NormalizeName | packages/backend/src/server/api/endpoints/drive/files/create-multipart-upload.ts:102-110 | reassigning the name step by step gives `NormalizedName` |
| MultipartUpload.NormalizedNameShape | packages/backend/src/server/api/endpoints/drive/files/create-multipart-upload.ts:102-110 | a stored name is never empty or `blob`, has no surrounding whitespace, and normalising it again keeps it |
| MultipartUpload.NewUploadFresh | packages/backend/src/server/api/endpoints/drive/files/create-multipart-upload.ts:113-128 | a new upload has no completed part, the announced size and part count within bounds, an expiry 24 hours later and a normalised name |
| MultipartUpload.CreateMultipartUpload | packages/backend/src/server/api/endpoints/drive/files/create-multipart-upload.ts:88-134 | fails with NO_FREE_SPACE exactly when the capacity is below usage plus size, storing nothing; otherwise stores one fresh upload and answers its id and expiry |
| MultipartUpload.AcceptedUploadFits | packages/backend/src/server/api/endpoints/drive/files/create-multipart-upload.ts:91-99 | an accepted upload fits in the capacity, and a full drive refuses every upload |
| Timelines.AvailabilityRules | packages/frontend/src/timelines.ts:36-49 | home needs a user; social needs a user allowed the local timeline and social not hidden; local and global follow the user's policies, or the server's for a visitor, unless hidden; nothing else is available |
| Timelines.IsBasicTimeline | packages/frontend/src/timelines.ts:19-21 | the basic timelines are exactly home, local, social and global |
| Timelines.IconClass | packages/frontend/src/timelines.ts:23-34 | every icon is a `ti ti-` class, and the home icon belongs to home alone |
| Timelines.IconClassDistinct | packages/frontend/src/timelines.ts:23-34 | two basic timelines share an icon exactly when they are the same timeline |
| Timelines.IsAvailable | packages/frontend/src/timelines.ts:36-49 | only a basic timeline is ever available |
| Timelines.AvailableBasicTimelines | packages/frontend/src/timelines.ts:51-53 | exactly the basic timelines that are available |
| Timelines.AvailableInOrder | packages/frontend/src/timelines.ts:51-53 | the available timelines keep the order home, local, social, global |
| Timelines.VisitorTimelines | packages/frontend/src/timelines.ts:38-43 | a visitor never has home or social |
| Timelines.WithRepliesTimelines | packages/frontend/src/timelines.ts:55-57 | of the basic timelines exactly local and social offer replies |
| Timelines.HasWithReplies | packages/frontend/src/timelines.ts:55-57 | only a basic timeline offers replies |
| UserFilters.OrElse | packages/frontend/src/filters/user.ts:16-18 | the `or` fallback of the filter: the first string when non-empty, else the second; the result is empty only when both are |
| UserFilters.UserName | packages/frontend/src/filters/user.ts:14-19 | the name shown is the username, the user's name or (with nicknames on) the nickname stored for the user, and never empty for a user with a username |
| UserFilters.UserPage | packages/frontend/src/filters/user.ts:21-23 | an absolute page starts with the server URL and a relative one with `/@` |
| UserFilters.UserNameFallbacks | packages/frontend/src/filters/user.ts:14-19 | the first non-empty of the nickname (only when nicknames are on), the name and the username |
| UserFilters.UserPageShape | packages/frontend/src/filters/user.ts:10-23 | the page is the base, `/@` and the account, then `/path` exactly when a non-empty path is given; two users with the same account text have the same page |

## Left out

- The WebSocket transport, JSON parsing of client messages, the refresh timer and the event emitter are not modelled; a parsed message is an input and the listeners, sends, channel initialisation and disposal are entries of a ghost log.
- The channel services, the user's mutings and the fetched user state of `Connection` are inputs; what a channel does with its messages is not part of this model.
- StreamConnection.Connection.OnSubscribeNote: note ids are keys of a map; the source keeps the counts in a plain object, where ids naming inherited properties (`constructor`, `toString`, `hasOwnProperty`, `valueOf`, `__proto__` and the other members of `Object.prototype`) read a function instead of a count, so a subscription to such an id never attaches a listener and an unsubscription computes NaN and never detaches. StreamConnection.Connection.OnUnsubscribeNote has the same gap.
- SystemWebhooks.SystemWebhookService.FetchActiveSystemWebhooks: the first fetch awaits the repository before it assigns the list, so a notice applied during that wait is overwritten, and two concurrent first calls both read the repository; the model runs each call to completion.
- Strings.IntToString: only integers are rendered; JavaScript renders numbers of 1e21 or more in exponent notation and non-integers with a fraction, which the model does not cover.
- Redis, the pub/sub subscription and the repositories are not modelled: notices, stored webhooks, relays and users are parameters or fields.
- `createSystemWebhook`, `updateSystemWebhook`, `deleteSystemWebhook` and `fetchSystemWebhooks` are repository CRUD with moderation logging and are not part of this model; their effect on other processes arrives as the notices that are modelled.
- QueueService.ts is not part of this model: the queue is an append-only log of the jobs handed to it, and what the job store does with them is left out.
- The ActivityPub renderer and the LD signature are not part of this model: the Follow, Undo and signed copy are opaque values given by the caller.
- `MemorySingleCache` is not part of this model: the relay cache is modelled as a read reused while it is younger than ten minutes.
- Relays.WithAudience: the deep copy of an array activity keeps its elements and gets no `to`; the model states only the object case and that other non-objects are not delivered.
- Dates are not modelled: dummy users and notes carry no timestamps, creation times of ids (`idService.parse`) are a parameter, and the two clock reads of create-multipart-upload are parameters.
- MultipartUpload.CreateMultipartUpload: `setHours(getHours() + 24)` is modelled as 24 hours in milliseconds, without daylight-saving shifts.
- MultipartUpload.CreateMultipartUpload: the 512-character limit on `comment` and the schema's other validations are preconditions of the request, not checked.
- The emoji repository, `findOneOrFail`'s error and `packDetailed` of the `emoji` endpoint are not modelled: the model stops at the key looked up.
- EmojiRoute.ServeEmoji: the cache and security headers and the serialisation of the media proxy URL are not modelled; the URL is its base and its ordered query parameters.
- EmojiRoute.GuardApRedirect: `encodeURI` is a parameter.
- UserFilters.UserPageShape: `Misskey.acct.toString` is a parameter.
- UsersShow.HandleShow: packing the users for the response and the page-view chart are not modelled; the remote resolution is a parameter.
- Search: the TypeORM query builders, the Meilisearch and PGroonga calls, `isUserRelated` and `sqlLikeEscape` are not part of this model; `sqlLikeEscape` is a parameter of the LIKE patterns.
- Search.CompileQuery: the contract states the empty-connective and parenthesisation rules; the text of each operator is given by the definition only.
- WebhookTest.UserPayload: the contract states which event types have a body; the shape of each dummy body is given by the definition only.
- WebhookTest.SystemPayload: the contract states the two abuse-report bodies; the shape of the other dummy bodies is given by the definition only.
- UpdateMeta.HandleUpdateMeta: only the fields whose handling goes beyond copying the parameter are modelled (host lists, word lists, nullable keys, the preview settings, the followed users and the contact-form categories); `URL.canParse` checks, the moderation log and the meta service are left out.
- UpdateMeta: the followed-users check runs on the lists as sent, before `filter(Boolean)`, so an empty string in both lists is a conflict; the model follows the code.
- JavaScript `toLowerCase` is modelled as ASCII lower-casing, and `trim` by its whitespace set over code points.
- Sorting.SortBy: the default `sort` order is modelled as code-point order, which differs from UTF-16 code-unit order only for characters outside the basic plane.
- ScopedName.Hash: the seed is a 32-bit value, the hash is always called with seed 0; `path.relative` is a parameter and `process.env.NODE_ENV` a flag.
- MultipartUpload and search: string lengths are counted in characters, not UTF-16 code units.

## Findings

| source | as written | input that shows it | evidently intended | confidence | as-written member | corrected member |
|---|---|---|---|---|---|---|
| packages/backend/src/core/SearchService.ts:58-67 | a string value is put between single quotes without escaping (the line carries a `TODO: escape`) | the user id ``a') OR (userId = 'b`` closes the literal after `a` and the rest is read as filter syntax | quotes and backslashes inside the value escaped, so the value stays one literal | high (not executed) | Search.UnescapedQuoteEndsLiteral | Search.QuotedValueReadsBack |
