/**
 * Test deliveries of user and system webhooks: a stored webhook, merged with
 * the caller's overrides, receives one job per event type whose payload is
 * built from fixed dummy users, notes, reports and contact forms. The
 * webhook's active flag and its event subscriptions are not consulted, and
 * every job is tried once.
 */
module WebhookTest {
  import opened Common
  import opened Packed
  import opened Queue

  /** The user webhook event types. */
  datatype UserEventType = NoteEvent | ReplyEvent | RenoteEvent | MentionEvent | FollowEvent | FollowedEvent | UnfollowEvent | ReactionEvent
  {
    function Name(): string
    {
      match this
      case NoteEvent => "note"
      case ReplyEvent => "reply"
      case RenoteEvent => "renote"
      case MentionEvent => "mention"
      case FollowEvent => "follow"
      case FollowedEvent => "followed"
      case UnfollowEvent => "unfollow"
      case ReactionEvent => "reaction"
    }
  }

  /** The system webhook event types. */
  datatype SystemEventType = AbuseReportEvent | AbuseReportResolvedEvent | UserCreatedEvent
    | InactiveModeratorsWarningEvent | InvitationOnlyChangedEvent | ReceivedContactFormEvent
  {
    function Name(): string
    {
      match this
      case AbuseReportEvent => "abuseReport"
      case AbuseReportResolvedEvent => "abuseReportResolved"
      case UserCreatedEvent => "userCreated"
      case InactiveModeratorsWarningEvent => "inactiveModeratorsWarning"
      case InvitationOnlyChangedEvent => "inactiveModeratorsInvitationOnlyChanged"
      case ReceivedContactFormEvent => "receivedContactForm"
    }
  }

  /** The caller's `override` of a user webhook: every field but `id`;
      None leaves the stored value. */
  datatype UserWebhookOverride = UserWebhookOverride(
    userId: Option<string>,
    name: Option<string>,
    on: Option<seq<string>>,
    url: Option<string>,
    secret: Option<string>,
    active: Option<bool>)

  /** The caller's `override` of a system webhook: every field but `id`. */
  datatype SystemWebhookOverride = SystemWebhookOverride(
    isActive: Option<bool>,
    name: Option<string>,
    on: Option<seq<string>>,
    url: Option<string>,
    secret: Option<string>)

  /** A field after the spread: the override's value when it gives one, the
      stored value otherwise. */
  predicate Overridden<T(==)>(o: Option<T>, stored: T, result: T)
  {
    (o.Some? ==> result == o.value) && (o.None? ==> result == stored)
  }

  /** `{ ...webhook, ...override }` for a user webhook. */
  function MergeUserWebhook(w: UserWebhook, o: UserWebhookOverride): (r: UserWebhook)
    ensures r.id == w.id
    ensures o == UserWebhookOverride(None, None, None, None, None, None) ==> r == w
    ensures Overridden(o.userId, w.userId, r.userId) && Overridden(o.name, w.name, r.name)
    ensures Overridden(o.on, w.on, r.on) && Overridden(o.url, w.url, r.url)
    ensures Overridden(o.secret, w.secret, r.secret) && Overridden(o.active, w.active, r.active)
  {
    UserWebhook(
      w.id,
      o.userId.GetOr(w.userId),
      o.name.GetOr(w.name),
      o.on.GetOr(w.on),
      o.url.GetOr(w.url),
      o.secret.GetOr(w.secret),
      o.active.GetOr(w.active))
  }

  /** `{ ...webhook, ...override }` for a system webhook. */
  function MergeSystemWebhook(w: SystemWebhook, o: SystemWebhookOverride): (r: SystemWebhook)
    ensures r.id == w.id
    ensures o == SystemWebhookOverride(None, None, None, None, None) ==> r == w
    ensures Overridden(o.isActive, w.isActive, r.isActive) && Overridden(o.name, w.name, r.name)
    ensures Overridden(o.on, w.on, r.on) && Overridden(o.url, w.url, r.url)
    ensures Overridden(o.secret, w.secret, r.secret)
  {
    SystemWebhook(
      w.id,
      o.isActive.GetOr(w.isActive),
      o.name.GetOr(w.name),
      o.on.GetOr(w.on),
      o.url.GetOr(w.url),
      o.secret.GetOr(w.secret))
  }

  // Dummy entities

  /** `generateDummyUser()` without overrides; the dates are not modelled. */
  function DummyUser1(): User
  {
    User(
      "dummy-user-1", "dummy1", Some("DummyUser1"), None,
      None, None, None, None, None, None, [],
      false, true, true, false, false,
      10, 5, 30)
  }

  function DummyUser2(): User
  {
    DummyUser1().(id := "dummy-user-2", username := "dummy2", name := Some("DummyUser2"),
      followersCount := 40, followingCount := 50, notesCount := 900)
  }

  function DummyUser3(): User
  {
    DummyUser1().(id := "dummy-user-3", username := "dummy3", name := Some("DummyUser3"),
      followersCount := 60, followingCount := 70, notesCount := 15900)
  }

  /** `generateDummyNote()` without overrides. */
  function DummyNote(): Note
  {
    Note(
      "dummy-note-1", Some("This is a dummy note for testing purposes."), None,
      "dummy-user-1", None, None, None, None, None,
      "public", [], 10, 5, 0)
  }

  function DummyNote1(): Note
  {
    DummyNote().(userId := DummyUser1().id, user := Some(DummyUser1()))
  }

  function DummyReply1(): Note
  {
    DummyNote().(id := "dummy-reply-1", replyId := Some(DummyNote1().id), reply := Some(DummyNote1()),
      userId := DummyUser1().id, user := Some(DummyUser1()))
  }

  function DummyRenote1(): Note
  {
    DummyNote().(id := "dummy-renote-1", renoteId := Some(DummyNote1().id), renote := Some(DummyNote1()),
      userId := DummyUser2().id, user := Some(DummyUser2()), text := None)
  }

  function DummyMention1(): Note
  {
    DummyNote().(id := "dummy-mention-1", userId := DummyUser1().id, user := Some(DummyUser1()),
      text := Some("@" + DummyUser2().username + " This is a mention to you."),
      mentions := [DummyUser2().id])
  }

  // Packing

  /** The image every packed avatar decoration points at. */
  const DummyDecorationUrl := "https://example.com/dummy-image001.png"

  function PackDecoration(d: AvatarDecoration): AvatarDecoration
  {
    d.(url := DummyDecorationUrl)
  }

  /** `toPackedUserLite`: the avatar is reported only when the user has an
      avatar id; decorations keep everything but their image. */
  function ToPackedUserLite(u: User): (r: PackedUserLite)
    ensures r.id == u.id && r.username == u.username && r.name == u.name && r.host == u.host
    ensures u.avatarId.None? ==> r.avatarUrl.None? && r.avatarBlurhash.None?
    ensures u.avatarId.Some? ==> r.avatarUrl == u.avatarUrl && r.avatarBlurhash == u.avatarBlurhash
    ensures |r.avatarDecorations| == |u.avatarDecorations|
    ensures forall k :: 0 <= k < |r.avatarDecorations| ==>
      r.avatarDecorations[k].url == DummyDecorationUrl
      && r.avatarDecorations[k].(url := "") == u.avatarDecorations[k].(url := "")
    ensures r.isBot == u.isBot && r.isCat == u.isCat && r.approved == u.approved
    ensures r.onlineStatus == "active"
  {
    PackedUserLite(
      u.id, u.name, u.username, u.host,
      if u.avatarId.None? then None else u.avatarUrl,
      if u.avatarId.None? then None else u.avatarBlurhash,
      seq(|u.avatarDecorations|, k requires 0 <= k < |u.avatarDecorations| => PackDecoration(u.avatarDecorations[k])),
      u.isBot, u.isCat, u.approved,
      "active")
  }

  /** `toPackedUserDetailedNotMe`: the lite form, the banner under the same
      rule as the avatar, and the counters. */
  function ToPackedUserDetailed(u: User): (r: PackedUserDetailed)
    ensures r.lite == ToPackedUserLite(u)
    ensures u.bannerId.None? ==> r.bannerUrl.None? && r.bannerBlurhash.None?
    ensures u.bannerId.Some? ==> r.bannerUrl == u.bannerUrl && r.bannerBlurhash == u.bannerBlurhash
    ensures r.isLocked == u.isLocked && r.isSuspended == u.isSuspended
    ensures r.followersCount == u.followersCount && r.followingCount == u.followingCount && r.notesCount == u.notesCount
  {
    PackedUserDetailed(
      ToPackedUserLite(u),
      if u.bannerId.None? then None else u.bannerUrl,
      if u.bannerId.None? then None else u.bannerBlurhash,
      u.isLocked, u.isSuspended,
      u.followersCount, u.followingCount, u.notesCount)
  }

  /** `toPackedNote`: a note without a joined user is packed with the default
      dummy user; `public_non_ltl` is reported as `public` with
      `dontShowOnLtl`. With `detail`, the reply is packed without detail and
      the renote with it. */
  function ToPackedNote(note: Note, detail: bool): (r: PackedNote)
    decreases note
    ensures r.visibility != "public_non_ltl"
    ensures r.detail.Some? <==> detail
  {
    var d :=
      if detail then
        Some(NoteDetail(
          note.clippedCount,
          if note.reply.Some? then Some(ToPackedNote(note.reply.value, false)) else None,
          if note.renote.Some? then Some(ToPackedNote(note.renote.value, true)) else None))
      else None;
    PackedNote(
      note.id, note.text, note.cw, note.userId,
      ToPackedUserLite(if note.user.Some? then note.user.value else DummyUser1()),
      note.replyId, note.renoteId,
      if note.visibility != "public_non_ltl" then note.visibility else "public",
      note.visibility == "public_non_ltl",
      note.mentions, note.renoteCount, note.repliesCount,
      d)
  }

  /** What packing keeps of the stored note, how it reports visibility, and
      which nested notes carry detail. */
  lemma PackedNoteFields(note: Note, detail: bool)
    ensures var r := ToPackedNote(note, detail);
      && (r.id == note.id && r.text == note.text && r.cw == note.cw && r.userId == note.userId)
      && (r.user == ToPackedUserLite(if note.user.Some? then note.user.value else DummyUser1()))
      && (r.replyId == note.replyId && r.renoteId == note.renoteId)
      && (r.dontShowOnLtl <==> note.visibility == "public_non_ltl")
      && (r.visibility == (if note.visibility == "public_non_ltl" then "public" else note.visibility))
      && (r.visibility != "public_non_ltl")
      && (r.mentions == note.mentions)
      && (r.renoteCount == note.renoteCount && r.repliesCount == note.repliesCount)
      && (r.detail.Some? <==> detail)
      && (detail ==>
         && r.detail.value.clippedCount == note.clippedCount
         && (r.detail.value.reply.Some? <==> note.reply.Some?)
         && (r.detail.value.renote.Some? <==> note.renote.Some?))
      && (detail && note.reply.Some? ==> r.detail.value.reply.value.detail.None?)
      && (detail && note.renote.Some? ==> r.detail.value.renote.value.detail.Some?)
  {
  }

  /** A packed note never nests deeper than the renote chain of the stored
      note, plus one level of reply. */
  function StoredDepth(note: Note): (n: nat)
    decreases note
  {
    var reply := if note.reply.Some? then StoredDepth(note.reply.value) else 0;
    var renote := if note.renote.Some? then StoredDepth(note.renote.value) else 0;
    1 + if reply < renote then renote else reply
  }

  function PackedDepth(p: PackedNote): (n: nat)
    decreases p
  {
    match p.detail
    case None => 1
    case Some(d) =>
      var reply := if d.reply.Some? then PackedDepth(d.reply.value) else 0;
      var renote := if d.renote.Some? then PackedDepth(d.renote.value) else 0;
      1 + if reply < renote then renote else reply
  }

  /** Packing never adds levels: a reply packed without detail stops there. */
  lemma {:induction false} PackingBoundsDepth(note: Note, detail: bool)
    decreases note
    ensures 1 <= PackedDepth(ToPackedNote(note, detail)) <= StoredDepth(note)
    ensures !detail ==> PackedDepth(ToPackedNote(note, detail)) == 1
  {
    if detail {
      var p := ToPackedNote(note, detail);
      if note.reply.Some? {
        PackingBoundsDepth(note.reply.value, false);
      }
      if note.renote.Some? {
        PackingBoundsDepth(note.renote.value, true);
      }
    }
  }

  // Payloads

  /** The body sent for each user event type; `reaction` has none yet. */
  function UserPayload(t: UserEventType): (r: Option<UserWebhookPayload>)
    ensures r.None? <==> t == ReactionEvent
  {
    match t
    case NoteEvent => Some(NoteBody(ToPackedNote(DummyNote1(), true)))
    case ReplyEvent => Some(NoteBody(ToPackedNote(DummyReply1(), true)))
    case RenoteEvent => Some(NoteBody(ToPackedNote(DummyRenote1(), true)))
    case MentionEvent => Some(NoteBody(ToPackedNote(DummyMention1(), true)))
    case FollowEvent => Some(UserDetailedBody(ToPackedUserDetailed(DummyUser1())))
    case FollowedEvent => Some(UserLiteBody(ToPackedUserLite(DummyUser2())))
    case UnfollowEvent => Some(UserDetailedBody(ToPackedUserDetailed(DummyUser3())))
    case ReactionEvent => None
  }

  /** The stored abuse report before its users are packed (`MiAbuseUserReport`). */
  datatype StoredAbuseReport = StoredAbuseReport(
    id: string,
    targetUserId: string,
    targetUser: Option<User>,
    reporterId: string,
    reporter: Option<User>,
    assigneeId: Option<string>,
    assignee: Option<User>,
    resolved: bool,
    forwarded: bool,
    comment: string,
    targetUserHost: Option<string>,
    reporterHost: Option<string>,
    resolvedAs: Option<string>,
    moderationNote: string)

  /** The report `generateAbuseReport` starts from before its override. */
  function DefaultAbuseReport(): StoredAbuseReport
  {
    StoredAbuseReport(
      "dummy-abuse-report1", "dummy-target-user", None, "dummy-reporter-user", None,
      None, None, false, false, "This is a dummy report for testing purposes.",
      None, None, None, "foo")
  }

  /** `generateAbuseReport`: the report with each joined user packed, or null. */
  function GenerateAbuseReport(s: StoredAbuseReport): (r: AbuseReport)
    ensures r.id == s.id && r.targetUserId == s.targetUserId && r.reporterId == s.reporterId && r.assigneeId == s.assigneeId
    ensures r.resolved == s.resolved && r.forwarded == s.forwarded
    ensures r.comment == s.comment && r.moderationNote == s.moderationNote && r.resolvedAs == s.resolvedAs
    ensures r.targetUserHost == s.targetUserHost && r.reporterHost == s.reporterHost
    ensures s.targetUser.None? ==> r.targetUser.None?
    ensures s.reporter.None? ==> r.reporter.None?
    ensures s.assignee.None? ==> r.assignee.None?
    ensures s.targetUser.Some? ==> r.targetUser == Some(ToPackedUserLite(s.targetUser.value))
    ensures s.reporter.Some? ==> r.reporter == Some(ToPackedUserLite(s.reporter.value))
    ensures s.assignee.Some? ==> r.assignee == Some(ToPackedUserLite(s.assignee.value))
  {
    AbuseReport(
      s.id, s.targetUserId,
      if s.targetUser.Some? then Some(ToPackedUserLite(s.targetUser.value)) else None,
      s.targetUserHost,
      s.reporterId,
      if s.reporter.Some? then Some(ToPackedUserLite(s.reporter.value)) else None,
      s.reporterHost,
      s.assigneeId,
      if s.assignee.Some? then Some(ToPackedUserLite(s.assignee.value)) else None,
      s.resolved, s.forwarded, s.comment, s.moderationNote, s.resolvedAs)
  }

  function DummyContactForm(): ContactForm
  {
    ContactForm(
      "9cvdo1wzkm",
      "テストのお問い合わせ",
      "これはテスト用のお問い合わせ内容です。",
      Some("テストユーザー"),
      Some("test@example.com"),
      None,
      "email", "other", "pending",
      Some("192.0.2.1"),
      Some("Mozilla/5.0 (Test Browser)"),
      Some(ToPackedUserLite(DummyUser1())))
  }

  /** The body sent for each system event type. */
  function SystemPayload(t: SystemEventType): (r: SystemWebhookPayload)
    ensures t == AbuseReportEvent ==> r.AbuseReportBody? && !r.report.resolved && r.report.assignee.None?
    ensures t == AbuseReportResolvedEvent ==> r.AbuseReportBody? && r.report.resolved && r.report.assignee.Some?
  {
    match t
    case AbuseReportEvent =>
      AbuseReportBody(GenerateAbuseReport(DefaultAbuseReport().(
        targetUserId := DummyUser1().id, targetUser := Some(DummyUser1()),
        reporterId := DummyUser2().id, reporter := Some(DummyUser2()))))
    case AbuseReportResolvedEvent =>
      AbuseReportBody(GenerateAbuseReport(DefaultAbuseReport().(
        targetUserId := DummyUser1().id, targetUser := Some(DummyUser1()),
        reporterId := DummyUser2().id, reporter := Some(DummyUser2()),
        assigneeId := Some(DummyUser3().id), assignee := Some(DummyUser3()),
        resolved := true)))
    case UserCreatedEvent => UserCreatedBody(ToPackedUserLite(DummyUser1()))
    case InactiveModeratorsWarningEvent => InactiveModeratorsWarningBody(100000, 1, 24)
    case InvitationOnlyChangedEvent => InvitationOnlyChangedBody
    case ReceivedContactFormEvent => ContactFormBody(DummyContactForm())
  }

  datatype TestError = NoSuchWebhook

  /** `fetchWebhooks({ ids: [webhookId] })` filtered to the sender's own
      webhooks; a missing sender owns none. */
  function OwnedWebhooks(stored: seq<UserWebhook>, webhookId: string, senderId: Option<string>): (r: seq<UserWebhook>)
    ensures forall w :: w in r <==> w in stored && w.id == webhookId && senderId == Some(w.userId)
  {
    Filter(stored, (w: UserWebhook) => w.id == webhookId && senderId == Some(w.userId))
  }

  function SystemWebhooksWithId(stored: seq<SystemWebhook>, webhookId: string): (r: seq<SystemWebhook>)
    ensures forall w :: w in r <==> w in stored && w.id == webhookId
  {
    Filter(stored, (w: SystemWebhook) => w.id == webhookId)
  }

  class WebhookTestService {
    const queue: QueueService

    constructor (queue: QueueService)
      ensures this.queue == queue
    {
      this.queue := queue;
    }

    /** Sends the dummy payload of `t` to the sender's webhook `webhookId`,
        whatever its active flag and subscribed events. */
    method TestUserWebhook(webhookId: string, t: UserEventType, o: UserWebhookOverride, senderId: Option<string>, stored: seq<UserWebhook>)
      returns (error: Option<TestError>)
      modifies queue
      ensures error.Some? <==> !exists w :: w in stored && w.id == webhookId && senderId == Some(w.userId)
      ensures error.Some? || t == ReactionEvent ==> queue.jobs == old(queue.jobs)
      ensures error.None? && t != ReactionEvent ==>
        exists w :: w in stored && w.id == webhookId && senderId == Some(w.userId)
          && queue.jobs == old(queue.jobs) + [UserWebhookJob(MergeUserWebhook(w, o), t.Name(), UserPayload(t).value, Some(1))]
    {
      var webhooks := OwnedWebhooks(stored, webhookId, senderId);
      if |webhooks| == 0 {
        return Some(NoSuchWebhook);
      }
      assert webhooks[0] in webhooks;
      var webhook := webhooks[0];
      error := None;
      var payload := UserPayload(t);
      if payload.Some? {
        queue.UserWebhookDeliver(MergeUserWebhook(webhook, o), t.Name(), payload.value, Some(1));
      }
    }

    /** Sends the dummy payload of `t` to the system webhook `webhookId`,
        whatever its active flag and subscribed events. */
    method TestSystemWebhook(webhookId: string, t: SystemEventType, o: SystemWebhookOverride, stored: seq<SystemWebhook>)
      returns (error: Option<TestError>)
      modifies queue
      ensures error.Some? <==> !exists w :: w in stored && w.id == webhookId
      ensures error.Some? ==> queue.jobs == old(queue.jobs)
      ensures error.None? ==>
        exists w :: w in stored && w.id == webhookId
          && queue.jobs == old(queue.jobs) + [SystemWebhookJob(MergeSystemWebhook(w, o), t.Name(), SystemPayload(t), Some(1))]
    {
      var webhooks := SystemWebhooksWithId(stored, webhookId);
      if |webhooks| == 0 {
        return Some(NoSuchWebhook);
      }
      assert webhooks[0] in webhooks;
      var webhook := webhooks[0];
      error := None;
      queue.SystemWebhookDeliver(MergeSystemWebhook(webhook, o), t.Name(), SystemPayload(t), Some(1));
    }
  }
}
