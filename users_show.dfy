/**
 * The `users/show` API endpoint: a batch of user ids is answered with the
 * users found, in the order asked for; a single user, by id, by local
 * username or by username and host, is answered with that user or with the
 * first error that applies to the caller.
 */
module UsersShow {
  import opened Common
  import opened Strings

  /** A stored user, as far as the endpoint reads it. */
  datatype User = User(id: string, usernameLower: string, host: Option<string>, isSuspended: bool, isDeleted: bool)

  /** The request: one of `userId`, `userIds` or `username` is present, and
      `host` is Some only when it is a string. */
  datatype ShowParams = ShowParams(userId: Option<string>, userIds: Option<seq<string>>,
                                   username: Option<string>, host: Option<string>)

  /** The server's `ugcVisibilityForVisitor` setting. */
  datatype UgcVisibility = All | LocalOnly | NoContent

  datatype ShowError = NoSuchUser | UserSuspended | FailedToResolveRemoteUser

  datatype Shown = Many(users: seq<User>) | One(user: User) | Failed(error: ShowError)

  // Batch lookups

  /** The key users are looked up by. */
  function UserKey(u: User): string
  {
    u.id
  }


  /** The repository query of the batch: the users whose id was asked for,
      and only the ones not suspended unless the caller is a moderator. */
  function Query(stored: seq<User>, ids: seq<string>, isModerator: bool): (found: seq<User>)
    ensures forall u :: u in found <==> u in stored && u.id in ids && (isModerator || !u.isSuspended)
  {
    Filter(stored, (u: User) => u.id in ids && (isModerator || !u.isSuspended))
  }

  /** The users of `users` in the order of `ids`, skipping ids with no user. */
  function Reordered(ids: seq<string>, users: seq<User>): (r: seq<User>)
    ensures |r| <= |ids|
    ensures forall u :: u in r ==> u in users
  {
    if ids == [] then []
    else
      var last := FindByKey(users, UserKey, ids[|ids| - 1]);
      Reordered(ids[..|ids| - 1], users) + (if last.Some? then [last.value] else [])
  }

  /** The ids of `ids` that name a user of `users`, in order. */
  function FoundIds(ids: seq<string>, users: seq<User>): seq<string>
  {
    if ids == [] then []
    else FoundIds(ids[..|ids| - 1], users) + (if FindByKey(users, UserKey, ids[|ids| - 1]).Some? then [ids[|ids| - 1]] else [])
  }

  function IdsOf(users: seq<User>): (ids: seq<string>)
    ensures |ids| == |users| && forall k :: 0 <= k < |users| ==> ids[k] == users[k].id
  {
    if users == [] then [] else IdsOf(users[..|users| - 1]) + [users[|users| - 1].id]
  }

  /** The reorder loop: one `find` per requested id, pushing what it finds. */
  method ReorderLoop(ids: seq<string>, users: seq<User>) returns (r: seq<User>)
    ensures r == Reordered(ids, users)
  {
    r := [];
    for i := 0 to |ids|
      invariant r == Reordered(ids[..i], users)
    {
      assert ids[..i + 1][..i] == ids[..i];
      var user := FindByKey(users, UserKey, ids[i]);
      if user.Some? {
        r := r + [user.value];
      }
    }
    assert ids[..|ids|] == ids;
  }

  /** The batch answer lists the found users by id in the order asked for:
      its ids are exactly the requested ids that name a user, in order. */
  lemma {:induction false} ReorderedIds(ids: seq<string>, users: seq<User>)
    decreases |ids|
    ensures IdsOf(Reordered(ids, users)) == FoundIds(ids, users)
    ensures forall u :: u in Reordered(ids, users) ==> u in users && u.id in ids
  {
    if ids != [] {
      var prefix := ids[..|ids| - 1];
      ReorderedIds(prefix, users);
      var last := FindByKey(users, UserKey, ids[|ids| - 1]);
      var r := Reordered(ids, users);
      assert r == Reordered(prefix, users) + (if last.Some? then [last.value] else []);
      assert IdsOf(r) == IdsOf(Reordered(prefix, users)) + (if last.Some? then [last.value.id] else []);
      forall u | u in Reordered(prefix, users) ensures u.id in ids {
        assert u.id in prefix;
      }
    }
  }

  /** `FoundIds` is the requested ids filtered by "names a user". */
  lemma {:induction false} FoundIdsIsFilter(ids: seq<string>, users: seq<User>, p: string -> bool)
    requires forall id :: p(id) == FindByKey(users, UserKey, id).Some?
    decreases |ids|
    ensures FoundIds(ids, users) == Filter(ids, p)
  {
    if ids != [] {
      var prefix := ids[..|ids| - 1];
      FoundIdsIsFilter(prefix, users, p);
      assert ids == prefix + [ids[|ids| - 1]];
      FilterAppend(prefix, [ids[|ids| - 1]], p);
    }
  }

  /** Requested ids that are all different give a batch with no user twice. */
  lemma {:induction false} FoundIdsDistinct(ids: seq<string>, users: seq<User>)
    requires forall i, j :: 0 <= i < j < |ids| ==> ids[i] != ids[j]
    decreases |ids|
    ensures forall x :: x in FoundIds(ids, users) ==> x in ids
    ensures forall i, j :: 0 <= i < j < |FoundIds(ids, users)| ==> FoundIds(ids, users)[i] != FoundIds(ids, users)[j]
  {
    if ids != [] {
      var prefix := ids[..|ids| - 1];
      FoundIdsDistinct(prefix, users);
      var f := FoundIds(prefix, users);
      assert ids[|ids| - 1] !in prefix;
      assert ids[|ids| - 1] !in f;
    }
  }

  // The handler

  /** `ps.username = ps.username.trim()` when a username was sent. */
  function TrimUsername(ps: ShowParams): (r: ShowParams)
    ensures r.userId == ps.userId && r.userIds == ps.userIds && r.host == ps.host
    ensures r.username.Some? <==> ps.username.Some?
    ensures r.username.Some? ==> Trimmed(r.username.value)
  {
    if ps.username.Some? then ps.(username := Some(Trim(ps.username.value))) else ps
  }

  /** `findOneBy({ usernameLower: name.toLowerCase(), host: IsNull() })`. */
  function FindLocalByName(users: seq<User>, usernameLower: string): (r: Option<User>)
    ensures r.Some? ==> r.value in users && r.value.usernameLower == usernameLower && r.value.host.None?
    ensures r.None? ==> forall u :: u in users ==> u.usernameLower != usernameLower || u.host.Some?
  {
    if users == [] then None
    else if users[0].usernameLower == usernameLower && users[0].host.None? then Some(users[0])
    else FindLocalByName(users[1..], usernameLower)
  }

  /** What the single lookup yields before the visibility checks: a user or
      none, or an error raised while fetching. */
  datatype Fetched = Fetched(user: Option<User>) | Refused(error: ShowError)

  /** A username with a string host is resolved remotely (refused outright
      for anonymous callers when only local content is visible; `resolve`
      yields None when resolving fails); otherwise the repository is asked by
      id or by local username. */
  function FetchUser(ps: ShowParams, me: Option<string>, visibility: UgcVisibility, stored: seq<User>,
                     resolve: (string, string) -> Option<User>): (r: Fetched)
    requires ps.userId.Some? || ps.username.Some?
    ensures r.Refused? ==> ps.host.Some? && ps.username.Some? && r.error != UserSuspended
    ensures r.Refused? ==> (r.error == NoSuchUser <==> visibility == LocalOnly && me.None?)
    ensures ps.host.Some? && ps.username.Some? && r.Fetched? ==> r.user == resolve(ps.username.value, ps.host.value)
    ensures !(ps.host.Some? && ps.username.Some?) ==> r.Fetched?
    ensures !(ps.host.Some? && ps.username.Some?) && r.user.Some? ==> r.user.value in stored
    ensures !(ps.host.Some? && ps.username.Some?) && ps.userId.Some? && r.user.Some? ==> r.user.value.id == ps.userId.value
    ensures !(ps.host.Some? && ps.username.Some?) && ps.userId.None? && r.user.Some? ==>
      r.user.value.host.None? && r.user.value.usernameLower == ToLowerAscii(ps.username.value)
  {
    if ps.host.Some? && ps.username.Some? then
      if visibility == LocalOnly && me.None? then Refused(NoSuchUser)
      else
        var resolved := resolve(ps.username.value, ps.host.value);
        if resolved.None? then Refused(FailedToResolveRemoteUser) else Fetched(resolved)
    else if ps.userId.Some? then Fetched(FindByKey(stored, UserKey, ps.userId.value))
    else Fetched(FindLocalByName(stored, ToLowerAscii(ps.username.value)))
  }

  /** The single lookup's checks in order: nothing found; a remote user for
      an anonymous caller when only local content is visible; then, unless
      the caller is a moderator, deleted and suspended, then suspended. A user
      shown to a non-moderator is never suspended, and a remote user is never
      shown to an anonymous caller under local-only visibility. */
  function ShowOne(ps: ShowParams, me: Option<string>, isModerator: bool, visibility: UgcVisibility,
                   stored: seq<User>, resolve: (string, string) -> Option<User>): (r: Shown)
    requires ps.userId.Some? || ps.username.Some?
    ensures r.One? ==> isModerator || !r.user.isSuspended
    ensures r.One? ==> !(visibility == LocalOnly && me.None? && r.user.host.Some?)
    ensures !r.Many?
    ensures FetchUser(ps, me, visibility, stored, resolve) == Fetched(None) ==> r == Failed(NoSuchUser)
    ensures FetchUser(ps, me, visibility, stored, resolve).Refused? ==> r == Failed(FetchUser(ps, me, visibility, stored, resolve).error)
    ensures r == Failed(FailedToResolveRemoteUser) <==>
      && ps.host.Some? && ps.username.Some? && !(visibility == LocalOnly && me.None?)
      && resolve(ps.username.value, ps.host.value).None?
  {
    match FetchUser(ps, me, visibility, stored, resolve)
    case Refused(e) => Failed(e)
    case Fetched(found) =>
      if found.None? then Failed(NoSuchUser)
      else
        var user := found.value;
        if visibility == LocalOnly && user.host.Some? && me.None? then Failed(NoSuchUser)
        else if !isModerator && user.isDeleted && user.isSuspended then Failed(NoSuchUser)
        else if !isModerator && user.isSuspended then Failed(UserSuspended)
        else One(user)
  }

  /** The endpoint. `me` is the caller's id, None when anonymous; `stored` is
      the user repository and `resolve` the remote resolution. Packing the
      users for the response and the page-view chart are not modelled. */
  method HandleShow(ps: ShowParams, me: Option<string>, isModerator: bool, visibility: UgcVisibility,
                    stored: seq<User>, resolve: (string, string) -> Option<User>) returns (r: Shown)
    requires ps.userId.Some? || ps.userIds.Some? || ps.username.Some?
    ensures ps.userIds == Some([]) ==> r == Many([])
    ensures ps.userIds.Some? ==> r == Many(Reordered(ps.userIds.value, Query(stored, ps.userIds.value, isModerator)))
    ensures ps.userIds.None? ==> r == ShowOne(TrimUsername(ps), me, isModerator, visibility, stored, resolve)
  {
    var params := TrimUsername(ps);
    if params.userIds.Some? {
      var ids := params.userIds.value;
      if |ids| == 0 {
        return Many([]);
      }
      var users := Query(stored, ids, isModerator);
      var ordered := ReorderLoop(ids, users);
      return Many(ordered);
    }
    return ShowOne(params, me, isModerator, visibility, stored, resolve);
  }

  /** A batch holds only users that were asked for and found, never a
      suspended one for a non-moderator, and every asked-for user the query
      returns; in the order asked for. */
  lemma BatchContents(ids: seq<string>, stored: seq<User>, isModerator: bool)
    ensures var users := Query(stored, ids, isModerator);
      var batch := Reordered(ids, users);
      && IdsOf(batch) == FoundIds(ids, users)
      && (forall u :: u in batch ==> u in stored && u.id in ids && (isModerator || !u.isSuspended))
  {
    ReorderedIds(ids, Query(stored, ids, isModerator));
  }

  /** Every requested id whose user the query returns appears in the batch. */
  lemma {:induction false} FoundIdsComplete(ids: seq<string>, users: seq<User>, id: string)
    decreases |ids|
    ensures id in FoundIds(ids, users) <==> id in ids && FindByKey(users, UserKey, id).Some?
  {
    if ids != [] {
      var prefix := ids[..|ids| - 1];
      FoundIdsComplete(prefix, users, id);
      assert ids == prefix + [ids[|ids| - 1]];
    }
  }

  /** A moderator is never told a user is suspended: a user found and
      visible to them is shown. */
  lemma ModeratorsSeeSuspended(ps: ShowParams, me: Option<string>, visibility: UgcVisibility,
                               stored: seq<User>, resolve: (string, string) -> Option<User>, user: User)
    requires ps.userId.Some? || ps.username.Some?
    requires FetchUser(ps, me, visibility, stored, resolve) == Fetched(Some(user))
    requires !(visibility == LocalOnly && user.host.Some? && me.None?)
    ensures ShowOne(ps, me, true, visibility, stored, resolve) == One(user)
  {
  }

  /** For a non-moderator a found, visible user who is suspended is reported
      as missing when also deleted and as suspended otherwise. */
  lemma SuspendedErrors(ps: ShowParams, me: Option<string>, visibility: UgcVisibility,
                        stored: seq<User>, resolve: (string, string) -> Option<User>, user: User)
    requires ps.userId.Some? || ps.username.Some?
    requires FetchUser(ps, me, visibility, stored, resolve) == Fetched(Some(user))
    requires user.isSuspended
    ensures ShowOne(ps, me, false, visibility, stored, resolve) == Failed(if user.isDeleted then NoSuchUser else UserSuspended)
      || (visibility == LocalOnly && user.host.Some? && me.None?)
  {
  }

  /** Under local-only visibility an anonymous caller asking for a username
      at a host gets NO_SUCH_USER without any remote resolution. */
  lemma AnonymousRemoteRefused(ps: ShowParams, isModerator: bool, stored: seq<User>,
                               resolve1: (string, string) -> Option<User>, resolve2: (string, string) -> Option<User>)
    requires ps.username.Some? && ps.host.Some?
    ensures ShowOne(ps, None, isModerator, LocalOnly, stored, resolve1) == Failed(NoSuchUser)
    ensures ShowOne(ps, None, isModerator, LocalOnly, stored, resolve2) == Failed(NoSuchUser)
  {
  }

  /** A username is looked up trimmed: sending it with surrounding
      whitespace or without gives the same answer. */
  lemma UsernameTrimmed(ps: ShowParams, username: string, me: Option<string>, isModerator: bool,
                        visibility: UgcVisibility, stored: seq<User>, resolve: (string, string) -> Option<User>)
    ensures TrimUsername(ps.(username := Some(username))) == TrimUsername(ps.(username := Some(Trim(username))))
    ensures ShowOne(TrimUsername(ps.(username := Some(username))), me, isModerator, visibility, stored, resolve)
      == ShowOne(TrimUsername(ps.(username := Some(Trim(username)))), me, isModerator, visibility, stored, resolve)
  {
    TrimIdempotent(username);
  }
}
