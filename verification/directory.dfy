/** The user directory: the coalescing upsert `save_telegram_user` behind
    the bot's `/start` command, and the name the bot greets a user by. */
module Directory {
  import opened Wrappers
  import opened Schema

  /** The `user_data` dict the bot builds from a Telegram update: the
      platform id and the three optional profile strings. */
  datatype TelegramProfile = TelegramProfile(
    id: int,
    username: Option<string>,
    firstName: Option<string>,
    lastName: Option<string>)

  /** The row an upsert left behind and whether it had to create it. */
  datatype Saved = Saved(db: Db, user: TelegramUser, created: bool)

  /** `incoming or stored or ''`: the value a name column takes when an
      existing row is updated. */
  function Merge(incoming: Option<string>, stored: Option<string>): string {
    Or(incoming, Or(stored, ""))
  }

  /** The first constraint the database would refuse if row `u` were
      written at position `at` of `users` (`at == |users|` for an insert):
      the bigint range, the varchar limits, and the two unique columns. */
  function RowViolation(users: seq<TelegramUser>, at: nat, u: TelegramUser): (r: Option<DbError>)
    ensures r.None? <==>
      && UserRowFits(u)
      && (forall k :: 0 <= k < |users| && k != at ==> users[k].telegramUserId != u.telegramUserId)
      && (u.telegramUsername.Some? ==>
            forall k :: 0 <= k < |users| && k != at ==> users[k].telegramUsername != u.telegramUsername)
  {
    if !(BIGINT_MIN <= u.telegramUserId <= BIGINT_MAX) then Some(OutOfRange(TelegramUserIdColumn))
    else if !FitsVarchar(u.telegramUsername, MAX_NAME_LENGTH) then Some(ValueTooLong(TelegramUsernameColumn))
    else if !FitsVarchar(u.firstName, MAX_NAME_LENGTH) then Some(ValueTooLong(FirstNameColumn))
    else if !FitsVarchar(u.lastName, MAX_NAME_LENGTH) then Some(ValueTooLong(LastNameColumn))
    else if exists k :: 0 <= k < |users| && k != at && users[k].telegramUserId == u.telegramUserId then
      Some(UniqueViolation(TelegramUserIdColumn))
    else if u.telegramUsername.Some? &&
            exists k :: 0 <= k < |users| && k != at && users[k].telegramUsername == u.telegramUsername then
      Some(UniqueViolation(TelegramUsernameColumn))
    else None
  }

  /** The row `get_or_create` inserts for an unseen platform id: each
      missing name stored as the empty string, active, both timestamps now. */
  function NewUserRow(db: Db, data: TelegramProfile, now: int): TelegramUser {
    TelegramUser(
      pk := db.nextUserPk,
      telegramUsername := Some(Or(data.username, "")),
      telegramUserId := data.id,
      firstName := Some(Or(data.firstName, "")),
      lastName := Some(Or(data.lastName, "")),
      createdAt := now,
      isActive := true,
      lastInteraction := now)
  }

  /** The row `save()` writes for an existing user: each name merged, and
      `last_interaction` refreshed by `auto_now`. */
  function UpdatedUserRow(stored: TelegramUser, data: TelegramProfile, now: int): TelegramUser {
    stored.(
      telegramUsername := Some(Merge(data.username, stored.telegramUsername)),
      firstName := Some(Merge(data.firstName, stored.firstName)),
      lastName := Some(Merge(data.lastName, stored.lastName)),
      lastInteraction := now)
  }

  /** `save_telegram_user`: get-or-create by platform id, then on the update
      path merge the names and save. A write the database refuses is an
      error and leaves the database as it was. */
  function SaveTelegramUser(db: Db, data: TelegramProfile, now: int): (r: Result<Saved, DbError>)
    ensures r.Ok? ==> (r.value.created <==> IndexOfTelegramId(db.users, data.id).None?)
    ensures r.Ok? ==> r.value.user.telegramUserId == data.id
    ensures r.Ok? ==>
      && r.value.db.interactions == db.interactions
      && r.value.db.broadcasts == db.broadcasts
      && r.value.db.profiles == db.profiles
  {
    match IndexOfTelegramId(db.users, data.id)
    case None =>
      var u := NewUserRow(db, data, now);
      (match RowViolation(db.users, |db.users|, u)
       case Some(e) => Err(e)
       case None => Ok(Saved(db.(users := db.users + [u], nextUserPk := db.nextUserPk + 1), u, true)))
    case Some(k) =>
      var u := UpdatedUserRow(db.users[k], data, now);
      match RowViolation(db.users, k, u)
      case Some(e) => Err(e)
      case None => Ok(Saved(db.(users := db.users[k := u]), u, false))
  }

  /** An unseen platform id, when the insert is accepted, yields exactly one
      new row holding each incoming name or `''`, active, created now; every
      other row and every other table is left as it was. */
  lemma {:induction false} CreateStoresIncomingOrEmpty(db: Db, data: TelegramProfile, now: int)
    requires Valid(db)
    requires forall k :: 0 <= k < |db.users| ==> db.users[k].telegramUserId != data.id
    ensures var r := SaveTelegramUser(db, data, now);
      r.Ok? <==>
        && BIGINT_MIN <= data.id <= BIGINT_MAX
        && FitsVarchar(data.username, MAX_NAME_LENGTH)
        && FitsVarchar(data.firstName, MAX_NAME_LENGTH)
        && FitsVarchar(data.lastName, MAX_NAME_LENGTH)
        && forall k :: 0 <= k < |db.users| ==> db.users[k].telegramUsername != Some(Or(data.username, ""))
    ensures var r := SaveTelegramUser(db, data, now);
      r.Ok? ==>
        && r.value.created
        && |r.value.db.users| == |db.users| + 1
        && r.value.db.users[..|db.users|] == db.users
        && (forall k :: 0 <= k < |r.value.db.users| ==>
              (r.value.db.users[k].telegramUserId == data.id <==> k == |db.users|))
        && r.value.user == r.value.db.users[|db.users|]
        && r.value.user.telegramUsername == Some(Or(data.username, ""))
        && r.value.user.firstName == Some(Or(data.firstName, ""))
        && r.value.user.lastName == Some(Or(data.lastName, ""))
        && r.value.user.isActive
        && r.value.user.createdAt == now && r.value.user.lastInteraction == now
  {
  }

  /** An existing platform id is updated in place: `created` is false, each
      name becomes the incoming value if non-empty, else the stored value if
      non-empty, else `''`; `last_interaction` is refreshed; the primary key,
      platform id, `created_at` and `is_active` are kept; no other row moves.
      The update is accepted exactly when the merged row meets the column
      limits and its username is held by no other row. */
  lemma UpdateMergesFields(db: Db, data: TelegramProfile, now: int, k: nat)
    requires Valid(db)
    requires k < |db.users| && db.users[k].telegramUserId == data.id
    ensures SaveTelegramUser(db, data, now).Ok? <==>
      && |Merge(data.username, db.users[k].telegramUsername)| <= MAX_NAME_LENGTH
      && |Merge(data.firstName, db.users[k].firstName)| <= MAX_NAME_LENGTH
      && |Merge(data.lastName, db.users[k].lastName)| <= MAX_NAME_LENGTH
      && forall j :: 0 <= j < |db.users| && j != k ==>
           db.users[j].telegramUsername != Some(Merge(data.username, db.users[k].telegramUsername))
    ensures var r := SaveTelegramUser(db, data, now);
      r.Ok? ==>
        && !r.value.created
        && |r.value.db.users| == |db.users|
        && (forall j :: 0 <= j < |db.users| && j != k ==> r.value.db.users[j] == db.users[j])
        && r.value.db.users[k] == r.value.user
        && r.value.user.telegramUsername == Some(Merge(data.username, db.users[k].telegramUsername))
        && r.value.user.firstName == Some(Merge(data.firstName, db.users[k].firstName))
        && r.value.user.lastName == Some(Merge(data.lastName, db.users[k].lastName))
        && r.value.user.lastInteraction == now
        && r.value.user.pk == db.users[k].pk
        && r.value.user.createdAt == db.users[k].createdAt
        && r.value.user.isActive == db.users[k].isActive
  {
    assert IndexOfTelegramId(db.users, data.id) == Some(k);
  }

  /** `Merge` keeps a non-empty stored value unless a non-empty incoming
      value replaces it: a null or empty incoming value never erases data. */
  lemma {:induction false} MergeNeverErases(incoming: Option<string>, stored: Option<string>)
    ensures Truthy(stored) ==> Merge(incoming, stored) != ""
    ensures !Truthy(incoming) ==> Merge(incoming, stored) == Or(stored, "")
    ensures Truthy(incoming) ==> Merge(incoming, stored) == incoming.value
  {
  }

  /** After any accepted upsert, none of the three name columns of the saved
      row is null, and no name that was non-empty became empty. */
  lemma UpsertLeavesNoNulls(db: Db, data: TelegramProfile, now: int)
    requires Valid(db)
    ensures var r := SaveTelegramUser(db, data, now);
      r.Ok? ==>
        && r.value.user.telegramUsername.Some?
        && r.value.user.firstName.Some?
        && r.value.user.lastName.Some?
    ensures var r := SaveTelegramUser(db, data, now);
      forall k :: 0 <= k < |db.users| && db.users[k].telegramUserId == data.id && r.Ok? ==>
        && (Truthy(db.users[k].telegramUsername) ==> Truthy(r.value.user.telegramUsername))
        && (Truthy(db.users[k].firstName) ==> Truthy(r.value.user.firstName))
        && (Truthy(db.users[k].lastName) ==> Truthy(r.value.user.lastName))
  {
    forall k | 0 <= k < |db.users| && db.users[k].telegramUserId == data.id
      ensures IndexOfTelegramId(db.users, data.id) == Some(k)
    {
    }
  }

  /** Merging the same incoming value twice gives what merging it once gave. */
  lemma MergeIdempotent(incoming: Option<string>, stored: Option<string>)
    ensures Merge(incoming, Some(Merge(incoming, stored))) == Merge(incoming, stored)
  {
  }

  /** Repeating an accepted upsert (at any later time) is accepted, reports
      `created == false`, leaves every name column as the first call left
      it, and changes no other row. */
  lemma UpsertIdempotent(db: Db, data: TelegramProfile, now: int, later: int)
    requires Valid(db)
    requires SaveTelegramUser(db, data, now).Ok?
    ensures var first := SaveTelegramUser(db, data, now).value;
      var second := SaveTelegramUser(first.db, data, later);
      && second.Ok?
      && !second.value.created
      && second.value.user == first.user.(lastInteraction := later)
      && |second.value.db.users| == |first.db.users|
      && forall j :: 0 <= j < |first.db.users| && first.db.users[j].telegramUserId != data.id ==>
           second.value.db.users[j] == first.db.users[j]
  {
    var first := SaveTelegramUser(db, data, now).value;
    UpsertPreservesValid(db, data, now);
    var users := first.db.users;
    var k: nat :| k < |users| && users[k] == first.user;
    assert IndexOfTelegramId(users, data.id) == Some(k);
    var u := UpdatedUserRow(users[k], data, later);
    MergeIdempotent(data.username, first.user.telegramUsername);
    assert u == first.user.(lastInteraction := later);
    assert RowViolation(users, k, u).None?;
  }

  /** Appending a row the database accepts, with the next primary key,
      keeps the users-table constraints. */
  lemma InsertKeepsUsersValid(users: seq<TelegramUser>, nextPk: nat, u: TelegramUser)
    requires UsersValid(users, nextPk)
    requires u.pk == nextPk && RowViolation(users, |users|, u).None?
    ensures UsersValid(users + [u], nextPk + 1)
    ensures UserPks(users + [u]) == UserPks(users) + {u.pk}
  {
    var users' := users + [u];
    assert users'[|users|] == u;
    forall x | x in UserPks(users') ensures x in UserPks(users) + {u.pk} {
      var j :| 0 <= j < |users'| && users'[j].pk == x;
      if j < |users| { assert users'[j] == users[j]; }
    }
    forall x | x in UserPks(users) ensures x in UserPks(users') {
      var j :| 0 <= j < |users| && users[j].pk == x;
      assert users'[j] == users[j];
    }
  }

  /** Rewriting row `k` in place, keeping its primary key, with a row the
      database accepts keeps the users-table constraints. */
  lemma ReplaceKeepsUsersValid(users: seq<TelegramUser>, nextPk: nat, k: nat, u: TelegramUser)
    requires UsersValid(users, nextPk)
    requires k < |users| && u.pk == users[k].pk && RowViolation(users, k, u).None?
    ensures UsersValid(users[k := u], nextPk)
    ensures UserPks(users[k := u]) == UserPks(users)
  {
    var users' := users[k := u];
    forall x | x in UserPks(users') ensures x in UserPks(users) {
      var j :| 0 <= j < |users'| && users'[j].pk == x;
      if j == k { assert users[k].pk == x; } else { assert users'[j] == users[j]; }
    }
    forall x | x in UserPks(users) ensures x in UserPks(users') {
      var j :| 0 <= j < |users| && users[j].pk == x;
      if j == k { assert users'[k].pk == x; } else { assert users'[j] == users[j]; }
    }
  }

  /** Every accepted upsert keeps all schema constraints. */
  lemma UpsertPreservesValid(db: Db, data: TelegramProfile, now: int)
    requires Valid(db)
    ensures var r := SaveTelegramUser(db, data, now);
      r.Ok? ==> Valid(r.value.db) && r.value.user in r.value.db.users
  {
    var r := SaveTelegramUser(db, data, now);
    if r.Ok? {
      var db' := r.value.db;
      match IndexOfTelegramId(db.users, data.id)
      case None =>
        var u := NewUserRow(db, data, now);
        InsertKeepsUsersValid(db.users, db.nextUserPk, u);
        assert db'.users == db.users + [u];
        assert db'.users[|db.users|] == u;
      case Some(k) =>
        var u := UpdatedUserRow(db.users[k], data, now);
        ReplaceKeepsUsersValid(db.users, db.nextUserPk, k, u);
        assert db'.users == db.users[k := u];
        assert db'.users[k] == u;
    }
  }

  /** The unique-username error path: a missing username is stored as `''`,
      so once some row holds `''` another user without a username cannot be
      created; the upsert is refused with a unique violation. */
  lemma NamelessUserCollides(db: Db, data: TelegramProfile, now: int, holder: nat)
    requires Valid(db)
    requires forall k :: 0 <= k < |db.users| ==> db.users[k].telegramUserId != data.id
    requires holder < |db.users| && db.users[holder].telegramUsername == Some("")
    requires !Truthy(data.username)
    ensures SaveTelegramUser(db, data, now).Err?
  {
    assert IndexOfTelegramId(db.users, data.id).None?;
    assert RowViolation(db.users, |db.users|, NewUserRow(db, data, now)).Some?;
  }

  /** The same collision on the update path: an existing row whose username
      is null is rewritten to `''` by `save()`, which fails when another row
      already holds `''`. */
  lemma NullUsernameUpdateCollides(db: Db, data: TelegramProfile, now: int, k: nat, holder: nat)
    requires Valid(db)
    requires k < |db.users| && db.users[k].telegramUserId == data.id
    requires db.users[k].telegramUsername.None? && !Truthy(data.username)
    requires holder < |db.users| && db.users[holder].telegramUsername == Some("")
    ensures SaveTelegramUser(db, data, now).Err?
  {
    assert IndexOfTelegramId(db.users, data.id) == Some(k);
    assert RowViolation(db.users, k, UpdatedUserRow(db.users[k], data, now)).Some?;
  }

  /** A concrete instance of the collision: two Telegram accounts without
      usernames; the second `/start` cannot register. */
  lemma SecondNamelessUserRejected()
    ensures var first := SaveTelegramUser(EmptyDb, TelegramProfile(1, None, Some("Ann"), None), 0);
      && first.Ok? && first.value.created
      && SaveTelegramUser(first.value.db, TelegramProfile(2, None, Some("Bob"), None), 1)
           == Err(UniqueViolation(TelegramUsernameColumn))
  {
    var first := SaveTelegramUser(EmptyDb, TelegramProfile(1, None, Some("Ann"), None), 0);
    assert first.value.db.users[0].telegramUsername == Some("");
    var u := NewUserRow(first.value.db, TelegramProfile(2, None, Some("Bob"), None), 1);
    assert first.value.db.users[0].telegramUsername == u.telegramUsername;
  }

  /** The decimal digits of a natural number. */
  function NatToString(n: nat): (r: string)
    ensures |r| > 0
    ensures forall k :: 0 <= k < |r| ==> '0' <= r[k] <= '9'
    decreases n
  {
    var digit := ['0' + (n % 10) as char];
    if n < 10 then digit else NatToString(n / 10) + digit
  }

  /** Python's `str()` of an integer. */
  function IntToString(i: int): (r: string)
    ensures |r| > 0
  {
    if i < 0 then "-" + NatToString(-i) else NatToString(i)
  }

  /** `display_name` in `/start`: the first name, else the username, else
      "User " followed by the platform id; it is never empty. */
  function DisplayName(data: TelegramProfile): (r: string)
    ensures r != ""
    ensures Truthy(data.firstName) ==> r == data.firstName.value
    ensures !Truthy(data.firstName) && Truthy(data.username) ==> r == data.username.value
    ensures !Truthy(data.firstName) && !Truthy(data.username) ==>
      r == "User " + IntToString(data.id)
  {
    Or(data.firstName, Or(data.username, "User " + IntToString(data.id)))
  }
}
