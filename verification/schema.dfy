/** The persistent schema: the `TelegramUser` and `UserProfile` models and the
    `BotInteraction` and `BroadcastMessage` models added by migration 0002,
    the column constraints the database enforces, and the well-formedness
    invariant every operation of the model preserves.

    Tables are sequences of rows in primary-key order; time is an integer
    count of seconds (UTC). */
module Schema {
  import opened Wrappers
  import opened Collections

  /** `CharField(max_length=100)` for the name columns and `command_or_data`. */
  const MAX_NAME_LENGTH: nat := 100
  const MAX_DATA_LENGTH: nat := 100
  /** `CharField(max_length=200)` for a broadcast title. */
  const MAX_TITLE_LENGTH: nat := 200
  /** `BigIntegerField`: a signed 64-bit column. */
  const BIGINT_MIN: int := -0x8000_0000_0000_0000
  const BIGINT_MAX: int := 0x7FFF_FFFF_FFFF_FFFF
  const SECONDS_PER_DAY: nat := 86400

  /** A chat identity. `pk` is the auto-increment primary key;
      `telegramUserId` is the platform id the bot looks users up by. */
  datatype TelegramUser = TelegramUser(
    pk: nat,
    telegramUsername: Option<string>,
    telegramUserId: int,
    firstName: Option<string>,
    lastName: Option<string>,
    createdAt: int,
    isActive: bool,
    lastInteraction: int)

  /** The three `interaction_type` choices. */
  datatype InteractionType = Command | Callback | Message

  /** One logged bot action; `telegramUser` is the owning user's `pk`. */
  datatype BotInteraction = BotInteraction(
    pk: nat,
    telegramUser: nat,
    interactionType: InteractionType,
    commandOrData: string,
    timestamp: int)

  /** One administrator broadcast and its delivery counters; `createdBy` is
      the id of the authoring account. */
  datatype BroadcastMessage = BroadcastMessage(
    pk: nat,
    title: string,
    message: string,
    createdBy: nat,
    createdAt: int,
    sentAt: Option<int>,
    totalRecipients: int,
    successfulSends: int,
    failedSends: int,
    isSent: bool)

  /** The profile of a site account (`user` is that account's id), with an
      optional link to a chat identity by its `pk`. */
  datatype UserProfile = UserProfile(
    pk: nat,
    user: nat,
    telegramUser: Option<nat>,
    createdAt: int)

  /** The whole database: one sequence per table plus the next value of each
      table's primary-key sequence. */
  datatype Db = Db(
    users: seq<TelegramUser>,
    interactions: seq<BotInteraction>,
    broadcasts: seq<BroadcastMessage>,
    profiles: seq<UserProfile>,
    nextUserPk: nat,
    nextInteractionPk: nat,
    nextBroadcastPk: nat,
    nextProfilePk: nat)

  datatype Column =
    | TelegramUsernameColumn | TelegramUserIdColumn | FirstNameColumn
    | LastNameColumn | TitleColumn | ProfileUserColumn

  /** Why the database refused a lookup or a write. */
  datatype DbError =
    | DoesNotExist
    | UniqueViolation(column: Column)
    | ValueTooLong(column: Column)
    | OutOfRange(column: Column)

  /** Python truthiness of a nullable string: neither `None` nor `''`. */
  predicate Truthy(o: Option<string>) {
    o.Some? && o.value != ""
  }

  /** Python's `o or fallback` for a nullable string. */
  function Or(o: Option<string>, fallback: string): (r: string)
    ensures Truthy(o) ==> r == o.value
    ensures !Truthy(o) ==> r == fallback
  {
    if Truthy(o) then o.value else fallback
  }

  /** The day number of a timestamp (what `.date()` keeps of it). */
  function Day(t: int): int {
    t / SECONDS_PER_DAY
  }

  predicate FitsVarchar(o: Option<string>, n: nat) {
    o.None? || |o.value| <= n
  }

  /** The column constraints of one `TelegramUser` row that do not depend
      on other rows. */
  predicate UserRowFits(u: TelegramUser) {
    && BIGINT_MIN <= u.telegramUserId <= BIGINT_MAX
    && FitsVarchar(u.telegramUsername, MAX_NAME_LENGTH)
    && FitsVarchar(u.firstName, MAX_NAME_LENGTH)
    && FitsVarchar(u.lastName, MAX_NAME_LENGTH)
  }

  /** `TelegramUser.__str__`: the username after an at-sign, or
      "No Username" when the username is null or empty. */
  function UserLabel(u: TelegramUser): (r: string)
    ensures |r| >= 2 && r[0] == '@'
    ensures Truthy(u.telegramUsername) ==> r[1..] == u.telegramUsername.value
    ensures !Truthy(u.telegramUsername) ==> r[1..] == "No Username"
  {
    "@" + Or(u.telegramUsername, "No Username")
  }

  /** Two users with different non-empty usernames get different labels. */
  lemma UserLabelDistinguishesNamedUsers(u: TelegramUser, v: TelegramUser)
    requires Truthy(u.telegramUsername) && Truthy(v.telegramUsername)
    requires u.telegramUsername != v.telegramUsername
    ensures UserLabel(u) != UserLabel(v)
  {
    assert UserLabel(u)[1..] != UserLabel(v)[1..];
  }

  /** Where the row for a platform id sits in the users table, if anywhere. */
  function IndexOfTelegramId(users: seq<TelegramUser>, id: int): (r: Option<nat>)
    ensures r.Some? ==> r.value < |users| && users[r.value].telegramUserId == id
    ensures r.None? <==> forall k :: 0 <= k < |users| ==> users[k].telegramUserId != id
  {
    FirstIndex(users, (u: TelegramUser) => u.telegramUserId == id)
  }

  /** Where the row with primary key `pk` sits in the users table. */
  function IndexOfUserPk(users: seq<TelegramUser>, pk: nat): (r: Option<nat>)
    ensures r.Some? ==> r.value < |users| && users[r.value].pk == pk
    ensures r.None? <==> forall k :: 0 <= k < |users| ==> users[k].pk != pk
  {
    FirstIndex(users, (u: TelegramUser) => u.pk == pk)
  }

  /** Where the broadcast with primary key `pk` sits in its table. */
  function IndexOfBroadcastPk(broadcasts: seq<BroadcastMessage>, pk: nat): (r: Option<nat>)
    ensures r.Some? ==> r.value < |broadcasts| && broadcasts[r.value].pk == pk
    ensures r.None? <==> forall k :: 0 <= k < |broadcasts| ==> broadcasts[k].pk != pk
  {
    FirstIndex(broadcasts, (b: BroadcastMessage) => b.pk == pk)
  }

  /** The primary keys present in the users table. */
  function UserPks(users: seq<TelegramUser>): set<nat> {
    set k | 0 <= k < |users| :: users[k].pk
  }

  /** Users table constraints: increasing primary keys below the sequence's
      next value, per-row column limits, `telegram_user_id` unique, and
      `telegram_username` unique among non-null values. */
  ghost predicate UsersValid(users: seq<TelegramUser>, nextPk: nat) {
    && (forall k :: 0 <= k < |users| ==> users[k].pk < nextPk && UserRowFits(users[k]))
    && (forall k, l :: 0 <= k < l < |users| ==> users[k].pk < users[l].pk)
    && (forall k, l :: 0 <= k < |users| && 0 <= l < |users| && k != l ==>
          users[k].telegramUserId != users[l].telegramUserId)
    && (forall k, l :: 0 <= k < |users| && 0 <= l < |users| && k != l && users[k].telegramUsername.Some? ==>
          users[k].telegramUsername != users[l].telegramUsername)
  }

  /** Interaction constraints: increasing primary keys, `command_or_data`
      within its limit, and every row's owner present in the users table. */
  ghost predicate InteractionsValid(log: seq<BotInteraction>, nextPk: nat, owners: set<nat>) {
    && (forall k :: 0 <= k < |log| ==>
          log[k].pk < nextPk && |log[k].commandOrData| <= MAX_DATA_LENGTH && log[k].telegramUser in owners)
    && (forall k, l :: 0 <= k < l < |log| ==> log[k].pk < log[l].pk)
  }

  ghost predicate BroadcastsValid(broadcasts: seq<BroadcastMessage>, nextPk: nat) {
    && (forall k :: 0 <= k < |broadcasts| ==>
          broadcasts[k].pk < nextPk && |broadcasts[k].title| <= MAX_TITLE_LENGTH)
    && (forall k, l :: 0 <= k < l < |broadcasts| ==> broadcasts[k].pk < broadcasts[l].pk)
  }

  /** Profile constraints: increasing primary keys, at most one profile per
      account (`OneToOneField`), and a link that is null or names a present
      chat identity. */
  ghost predicate ProfilesValid(profiles: seq<UserProfile>, nextPk: nat, owners: set<nat>) {
    && (forall k :: 0 <= k < |profiles| ==>
          profiles[k].pk < nextPk && (profiles[k].telegramUser.Some? ==> profiles[k].telegramUser.value in owners))
    && (forall k, l :: 0 <= k < l < |profiles| ==> profiles[k].pk < profiles[l].pk)
    && (forall k, l :: 0 <= k < |profiles| && 0 <= l < |profiles| && k != l ==>
          profiles[k].user != profiles[l].user)
  }

  /** Every constraint the schema declares holds of the database. */
  ghost predicate Valid(db: Db) {
    && UsersValid(db.users, db.nextUserPk)
    && InteractionsValid(db.interactions, db.nextInteractionPk, UserPks(db.users))
    && BroadcastsValid(db.broadcasts, db.nextBroadcastPk)
    && ProfilesValid(db.profiles, db.nextProfilePk, UserPks(db.users))
  }

  /** The empty database of a fresh installation. */
  const EmptyDb: Db := Db([], [], [], [], 1, 1, 1, 1)

  /** In a valid database a platform id names at most one row, so the row
      found by `IndexOfTelegramId` is the only one. */
  lemma TelegramIdIsKey(db: Db, id: int, k: nat)
    requires Valid(db)
    requires k < |db.users| && db.users[k].telegramUserId == id
    ensures IndexOfTelegramId(db.users, id) == Some(k)
  {
  }

  /** The number of distinct primary keys equals the number of rows. */
  lemma {:induction false} UserPksCardinality(users: seq<TelegramUser>)
    requires forall k, l :: 0 <= k < l < |users| ==> users[k].pk < users[l].pk
    ensures |UserPks(users)| == |users|
  {
    if |users| > 0 {
      var init := users[..|users| - 1];
      var last := users[|users| - 1];
      UserPksCardinality(init);
      assert UserPks(users) == UserPks(init) + {last.pk} by {
        forall x | x in UserPks(users) ensures x in UserPks(init) + {last.pk} {
          var k :| 0 <= k < |users| && users[k].pk == x;
          if k < |users| - 1 { assert init[k] == users[k]; }
        }
        forall x | x in UserPks(init) ensures x in UserPks(users) {
          var k :| 0 <= k < |init| && init[k].pk == x;
          assert users[k] == init[k];
        }
      }
      assert last.pk !in UserPks(init) by {
        forall k | 0 <= k < |init| ensures init[k].pk != last.pk {
          assert init[k] == users[k];
        }
      }
    }
  }
}
