/**
 * The client's filters for showing a user: the display name, with the
 * user's own nickname for them taking precedence when nicknames are on, and
 * the path (or URL) of the user's page.
 */
module UserFilters {
  import opened Common

  /** A user as the filters read it; `name` is nullable. */
  datatype UserEntity = UserEntity(id: string, name: Option<string>, username: string)

  /** `a || b` on a nullable string: `b` when `a` is null or empty. */
  function OrElse(a: Option<string>, b: string): (r: string)
    ensures a.Some? && a.value != "" ==> r == a.value
    ensures (a.None? || a.value == "") ==> r == b
    ensures r != "" <==> (a.Some? && a.value != "") || b != ""
  {
    if a.Some? && a.value != "" then a.value else b
  }

  /** `userName`: with nicknames on, the nickname stored for the user's id,
      then the user's name, then the username. */
  function UserName(user: UserEntity, nicknameEnabled: bool, nicknameMap: map<string, string>): (r: string)
    ensures r == user.username || (user.name.Some? && r == user.name.value)
      || (nicknameEnabled && user.id in nicknameMap && r == nicknameMap[user.id])
    ensures user.username != "" ==> r != ""
  {
    if !nicknameEnabled then OrElse(user.name, user.username)
    else OrElse(if user.id in nicknameMap then Some(nicknameMap[user.id]) else None, OrElse(user.name, user.username))
  }

  /** The first non-empty of the candidates, in order; the username is the
      last resort. Nicknames are consulted only when enabled. */
  lemma UserNameFallbacks(user: UserEntity, nicknameEnabled: bool, nicknameMap: map<string, string>)
    ensures var nick := if nicknameEnabled && user.id in nicknameMap && nicknameMap[user.id] != "" then Some(nicknameMap[user.id]) else None;
      var named := user.name.Some? && user.name.value != "";
      UserName(user, nicknameEnabled, nicknameMap)
        == if nick.Some? then nick.value else if named then user.name.value else user.username
    ensures !nicknameEnabled ==> UserName(user, false, nicknameMap) == UserName(user, false, map[])
    ensures user.username != "" ==> UserName(user, nicknameEnabled, nicknameMap) != ""
  {
  }

  /** `Misskey.Acct`: a username and the host, null for a local user. */
  datatype Acct = Acct(username: string, host: Option<string>)

  /** `userPage`: the optional base URL, `/@`, the account as rendered by
      `acctToString` (the library's `Misskey.acct.toString`), and `/path`
      when a non-empty path is given. */
  function UserPage(user: Acct, path: Option<string>, absolute: bool, url: string,
                    acctToString: Acct -> string): (page: string)
    ensures absolute ==> |url| <= |page| && page[..|url|] == url
    ensures !absolute ==> |page| >= 2 && page[..2] == "/@"
  {
    (if absolute then url else "") + "/@" + acctToString(user)
      + (if path.Some? && path.value != "" then "/" + path.value else "")
  }

  /** The page is the base, `/@` and the account, followed by `/path`
      exactly when a non-empty path was given; a relative page starts with
      `/@`. Two users with the same account text have the same page. */
  lemma UserPageShape(user: Acct, other: Acct, path: Option<string>, absolute: bool, url: string,
                      acctToString: Acct -> string)
    ensures var base := (if absolute then url else "") + "/@" + acctToString(user);
      var page := UserPage(user, path, absolute, url, acctToString);
      && page[..|base|] == base
      && (|page| == |base| <==> path.None? || path.value == "")
      && (path.Some? && path.value != "" ==> page[|base|..] == "/" + path.value)
    ensures !absolute ==> UserPage(user, path, absolute, url, acctToString)[..2] == "/@"
    ensures acctToString(user) == acctToString(other)
      ==> UserPage(user, path, absolute, url, acctToString) == UserPage(other, path, absolute, url, acctToString)
  {
    var base := (if absolute then url else "") + "/@" + acctToString(user);
    var page := UserPage(user, path, absolute, url, acctToString);
    if !absolute {
      assert page[..2] == base[..2] == "/@";
    }
  }
}
