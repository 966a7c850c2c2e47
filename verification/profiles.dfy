/** `UserProfile` and the deletion rules between the tables: one profile
    per site account, a profile's chat link nulled when the chat identity is
    deleted, and a chat identity's interactions deleted with it. */
module Profiles {
  import opened Wrappers
  import opened Collections
  import opened Schema

  /** Creating the profile of a site account (`UserProfile.objects.create`):
      `user` is a `OneToOneField`, so a second profile for the same account
      is refused; a new profile has no chat link. */
  function CreateProfile(db: Db, account: nat, now: int): (r: Result<Db, DbError>)
    ensures r.Err? <==> exists k :: 0 <= k < |db.profiles| && db.profiles[k].user == account
    ensures r.Ok? ==>
      && |r.value.profiles| == |db.profiles| + 1
      && r.value.profiles[..|db.profiles|] == db.profiles
      && r.value.profiles[|db.profiles|].user == account
      && r.value.profiles[|db.profiles|].telegramUser.None?
      && r.value.profiles[|db.profiles|] == UserProfile(db.nextProfilePk, account, None, now)
      && r.value.users == db.users && r.value.interactions == db.interactions
      && r.value.broadcasts == db.broadcasts
  {
    if exists k :: 0 <= k < |db.profiles| && db.profiles[k].user == account then
      Err(UniqueViolation(ProfileUserColumn))
    else
      var p := UserProfile(db.nextProfilePk, account, None, now);
      var db' := db.(profiles := db.profiles + [p], nextProfilePk := db.nextProfilePk + 1);
      assert db'.profiles[..|db.profiles|] == db.profiles;
      Ok(db')
  }

  /** An accepted profile creation keeps every schema constraint, and a
      second one for the same account is refused. */
  lemma CreateProfileOncePerAccount(db: Db, account: nat, now: int, later: int)
    requires Valid(db)
    requires CreateProfile(db, account, now).Ok?
    ensures Valid(CreateProfile(db, account, now).value)
    ensures CreateProfile(CreateProfile(db, account, now).value, account, later).Err?
  {
    var db' := CreateProfile(db, account, now).value;
    assert db'.profiles[|db.profiles|].user == account;
  }

  function HasOtherPk(pk: nat): TelegramUser -> bool {
    (u: TelegramUser) => u.pk != pk
  }

  function NotOwnedBy(pk: nat): BotInteraction -> bool {
    (x: BotInteraction) => x.telegramUser != pk
  }

  /** `on_delete=SET_NULL`: a profile loses its link to a deleted identity. */
  function Unlink(p: UserProfile, pk: nat): UserProfile {
    if p.telegramUser == Some(pk) then p.(telegramUser := None) else p
  }

  /** Deleting the chat identity with primary key `pk`: its row goes, its
      interactions go with it (`CASCADE`), profiles linked to it keep
      existing with a null link (`SET_NULL`), and nothing else changes. */
  function DeleteTelegramUser(db: Db, pk: nat): (r: Db)
    ensures forall u :: u in r.users <==> u in db.users && u.pk != pk
    ensures forall x :: x in r.interactions <==> x in db.interactions && x.telegramUser != pk
    ensures |r.profiles| == |db.profiles|
    ensures forall k :: 0 <= k < |db.profiles| ==>
      && r.profiles[k].pk == db.profiles[k].pk && r.profiles[k].user == db.profiles[k].user
      && r.profiles[k].telegramUser != Some(pk)
      && (db.profiles[k].telegramUser != Some(pk) ==> r.profiles[k] == db.profiles[k])
    ensures r.broadcasts == db.broadcasts
  {
    db.(users := Filter(db.users, HasOtherPk(pk)),
        interactions := Filter(db.interactions, NotOwnedBy(pk)),
        profiles := seq(|db.profiles|, k requires 0 <= k < |db.profiles| => Unlink(db.profiles[k], pk)))
  }

  /** Removing the row with primary key `pk` keeps the users-table
      constraints and keeps every other primary key present. */
  lemma RemoveUserKeepsUsersValid(users: seq<TelegramUser>, nextPk: nat, pk: nat)
    requires UsersValid(users, nextPk)
    ensures UsersValid(Filter(users, HasOtherPk(pk)), nextPk)
    ensures forall o :: o in UserPks(users) && o != pk ==> o in UserPks(Filter(users, HasOtherPk(pk)))
  {
    var users' := Filter(users, HasOtherPk(pk));
    FilterKeepsIncreasing(users, HasOtherPk(pk), (u: TelegramUser) => u.pk);
    forall k, l | 0 <= k < |users'| && 0 <= l < |users'| && k != l
      ensures users'[k].telegramUserId != users'[l].telegramUserId
      ensures users'[k].telegramUsername.Some? ==> users'[k].telegramUsername != users'[l].telegramUsername
    {
      assert users'[k] in users && users'[l] in users;
      var a :| 0 <= a < |users| && users[a] == users'[k];
      var b :| 0 <= b < |users| && users[b] == users'[l];
      assert users'[k].pk != users'[l].pk;
    }
    forall k | 0 <= k < |users'|
      ensures users'[k].pk < nextPk && UserRowFits(users'[k])
    {
      assert users'[k] in users;
    }
    forall o | o in UserPks(users) && o != pk ensures o in UserPks(users') {
      var a :| 0 <= a < |users| && users[a].pk == o;
      assert users[a] in users';
      var b :| 0 <= b < |users'| && users'[b] == users[a];
    }
  }

  /** Deletion keeps every schema constraint: no interaction or profile is
      left pointing at the deleted row. */
  lemma DeletePreservesValid(db: Db, pk: nat)
    requires Valid(db)
    ensures Valid(DeleteTelegramUser(db, pk))
  {
    var db' := DeleteTelegramUser(db, pk);
    RemoveUserKeepsUsersValid(db.users, db.nextUserPk, pk);
    FilterKeepsIncreasing(db.interactions, NotOwnedBy(pk), (x: BotInteraction) => x.pk);
    forall k | 0 <= k < |db'.interactions|
      ensures db'.interactions[k].telegramUser in UserPks(db'.users)
      ensures db'.interactions[k].pk < db'.nextInteractionPk
      ensures |db'.interactions[k].commandOrData| <= MAX_DATA_LENGTH
    {
      assert db'.interactions[k] in db.interactions;
    }
    forall k | 0 <= k < |db'.profiles| && db'.profiles[k].telegramUser.Some?
      ensures db'.profiles[k].telegramUser.value in UserPks(db'.users)
    {
    }
  }
}
