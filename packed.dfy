/**
 * Stored entities and their packed (API) forms, restricted to the fields the
 * webhook test deliveries fill in from the entity rather than with constants.
 */
module Packed {
  import opened Common

  datatype AvatarDecoration = AvatarDecoration(id: string, angle: int, flipH: bool, url: string, offsetX: int, offsetY: int)

  /** A stored user (`MiUser`). */
  datatype User = User(
    id: string,
    username: string,
    name: Option<string>,
    host: Option<string>,
    avatarId: Option<string>,
    avatarUrl: Option<string>,
    avatarBlurhash: Option<string>,
    bannerId: Option<string>,
    bannerUrl: Option<string>,
    bannerBlurhash: Option<string>,
    avatarDecorations: seq<AvatarDecoration>,
    isBot: bool,
    isCat: bool,
    approved: bool,
    isLocked: bool,
    isSuspended: bool,
    followersCount: int,
    followingCount: int,
    notesCount: int)

  /** A stored note (`MiNote`); `reply` and `renote` are the joined notes. */
  datatype Note = Note(
    id: string,
    text: Option<string>,
    cw: Option<string>,
    userId: string,
    user: Option<User>,
    replyId: Option<string>,
    reply: Option<Note>,
    renoteId: Option<string>,
    renote: Option<Note>,
    visibility: string,
    mentions: seq<string>,
    renoteCount: int,
    repliesCount: int,
    clippedCount: int)

  datatype PackedUserLite = PackedUserLite(
    id: string,
    name: Option<string>,
    username: string,
    host: Option<string>,
    avatarUrl: Option<string>,
    avatarBlurhash: Option<string>,
    avatarDecorations: seq<AvatarDecoration>,
    isBot: bool,
    isCat: bool,
    approved: bool,
    onlineStatus: string)

  datatype PackedUserDetailed = PackedUserDetailed(
    lite: PackedUserLite,
    bannerUrl: Option<string>,
    bannerBlurhash: Option<string>,
    isLocked: bool,
    isSuspended: bool,
    followersCount: int,
    followingCount: int,
    notesCount: int)

  /** The fields a packed note carries only when packed with `detail`. */
  datatype NoteDetail = NoteDetail(clippedCount: int, reply: Option<PackedNote>, renote: Option<PackedNote>)

  datatype PackedNote = PackedNote(
    id: string,
    text: Option<string>,
    cw: Option<string>,
    userId: string,
    user: PackedUserLite,
    replyId: Option<string>,
    renoteId: Option<string>,
    visibility: string,
    dontShowOnLtl: bool,
    mentions: seq<string>,
    renoteCount: int,
    repliesCount: int,
    detail: Option<NoteDetail>)

  datatype AbuseReport = AbuseReport(
    id: string,
    targetUserId: string,
    targetUser: Option<PackedUserLite>,
    targetUserHost: Option<string>,
    reporterId: string,
    reporter: Option<PackedUserLite>,
    reporterHost: Option<string>,
    assigneeId: Option<string>,
    assignee: Option<PackedUserLite>,
    resolved: bool,
    forwarded: bool,
    comment: string,
    moderationNote: string,
    resolvedAs: Option<string>)

  datatype ContactForm = ContactForm(
    id: string,
    subject: string,
    content: string,
    name: Option<string>,
    email: Option<string>,
    misskeyUsername: Option<string>,
    replyMethod: string,
    category: string,
    status: string,
    ipAddress: Option<string>,
    userAgent: Option<string>,
    user: Option<PackedUserLite>)

  /** The body of a user webhook delivery. */
  datatype UserWebhookPayload =
    | NoteBody(note: PackedNote)
    | UserLiteBody(user: PackedUserLite)
    | UserDetailedBody(userDetailed: PackedUserDetailed)

  /** The body of a system webhook delivery, one shape per event type. */
  datatype SystemWebhookPayload =
    | AbuseReportBody(report: AbuseReport)
    | UserCreatedBody(createdUser: PackedUserLite)
    | InactiveModeratorsWarningBody(time: int, asDays: int, asHours: int)
    | InvitationOnlyChangedBody
    | ContactFormBody(form: ContactForm)
}
