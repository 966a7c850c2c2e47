/** The interaction log: the `/start` record written by
    `process_telegram_user_data`, the per-user counts of
    `generate_user_stats`, the 30-day purge of `cleanup_old_interactions`,
    and the newest-first listing order of `BotInteraction`. */
module InteractionLog {
  import opened Wrappers
  import opened Collections
  import opened Schema

  /** `timedelta(days=7)`: the window of "this week" in the user stats. */
  const RECENT_WINDOW: nat := 7 * SECONDS_PER_DAY
  /** `timedelta(days=30)`: how long interactions are kept. */
  const RETENTION_WINDOW: nat := 30 * SECONDS_PER_DAY

  /** What `process_telegram_user_data` reports: the processed user's
      username, or the lookup error it caught. */
  datatype TaskOutcome = Processed(username: Option<string>) | TaskFailed(error: DbError)

  /** The interaction `/start` logs for the user with primary key `owner`. */
  function StartRecord(db: Db, owner: nat, now: int): BotInteraction {
    BotInteraction(db.nextInteractionPk, owner, Command, "/start", now)
  }

  /** `process_telegram_user_data(pk)`: look the user up by primary key and
      log one `command` interaction with data `/start`; an unknown key is
      caught and reported, and nothing is written. */
  function ProcessTelegramUserData(db: Db, userPk: nat, now: int): (r: (Db, TaskOutcome))
    ensures r.1.TaskFailed? <==> forall k :: 0 <= k < |db.users| ==> db.users[k].pk != userPk
    ensures r.1.TaskFailed? ==> r.0 == db
    ensures r.1.Processed? ==>
      && |r.0.interactions| == |db.interactions| + 1
      && r.0.interactions[..|db.interactions|] == db.interactions
      && r.0.interactions[|db.interactions|] == BotInteraction(db.nextInteractionPk, userPk, Command, "/start", now)
      && r.0.users == db.users && r.0.broadcasts == db.broadcasts && r.0.profiles == db.profiles
  {
    match IndexOfUserPk(db.users, userPk)
    case None => (db, TaskFailed(DoesNotExist))
    case Some(k) =>
      var db' := db.(interactions := db.interactions + [StartRecord(db, userPk, now)],
                     nextInteractionPk := db.nextInteractionPk + 1);
      assert db'.interactions[..|db.interactions|] == db.interactions;
      (db', Processed(db.users[k].telegramUsername))
  }

  /** `filter(telegram_user=owner)`. */
  function OwnedBy(owner: nat): BotInteraction -> bool {
    (x: BotInteraction) => x.telegramUser == owner
  }

  /** `filter(telegram_user=owner, timestamp__gte=since)`. */
  function OwnedBySince(owner: nat, since: int): BotInteraction -> bool {
    (x: BotInteraction) => x.telegramUser == owner && x.timestamp >= since
  }

  /** How many interactions belong to the user with primary key `owner`. */
  function CountFor(log: seq<BotInteraction>, owner: nat): nat {
    |Filter(log, OwnedBy(owner))|
  }

  /** How many of them happened at or after `since`. */
  function CountForSince(log: seq<BotInteraction>, owner: nat, since: int): nat {
    |Filter(log, OwnedBySince(owner, since))|
  }

  /** A user's windowed count never exceeds the user's total count. */
  lemma RecentAtMostTotal(log: seq<BotInteraction>, owner: nat, since: int)
    ensures CountForSince(log, owner, since) <= CountFor(log, owner)
  {
    FilterStrongerIsShorter(log, OwnedBy(owner), OwnedBySince(owner, since));
  }

  /** A window that starts no later than every logged timestamp covers the
      whole of the user's history. */
  lemma {:induction false} WideWindowCountsAll(log: seq<BotInteraction>, owner: nat, since: int)
    requires forall k :: 0 <= k < |log| ==> log[k].timestamp >= since
    ensures CountForSince(log, owner, since) == CountFor(log, owner)
  {
    if |log| > 0 {
      WideWindowCountsAll(log[1..], owner, since);
    }
  }

  /** The two counts `generate_user_stats` computes. */
  datatype InteractionCounts = InteractionCounts(total: nat, recent: nat)

  /** The count logic of `generate_user_stats`: `None` for an unknown
      platform id; otherwise the number of interactions the user's row owns
      and the number of those at or after seven days before `now`, the
      latter never more than the former. */
  function UserInteractionCounts(db: Db, id: int, now: int): (r: Option<InteractionCounts>)
    ensures r.None? <==> forall k :: 0 <= k < |db.users| ==> db.users[k].telegramUserId != id
    ensures r.Some? ==> r.value.recent <= r.value.total <= |db.interactions|
    ensures forall k :: 0 <= k < |db.users| && db.users[k].telegramUserId == id && Valid(db) ==>
      && r.Some?
      && r.value.total == CountFor(db.interactions, db.users[k].pk)
      && r.value.recent == CountForSince(db.interactions, db.users[k].pk, now - RECENT_WINDOW)
  {
    match IndexOfTelegramId(db.users, id)
    case None => None
    case Some(k) =>
      assert forall j :: 0 <= j < |db.users| && db.users[j].telegramUserId == id && Valid(db) ==> j == k;
      var owner := db.users[k].pk;
      RecentAtMostTotal(db.interactions, owner, now - RECENT_WINDOW);
      Some(InteractionCounts(CountFor(db.interactions, owner),
                             CountForSince(db.interactions, owner, now - RECENT_WINDOW)))
  }

  /** Logging `/start` for a user adds exactly one to that user's count and
      to its recent count, and leaves every other user's count unchanged. */
  lemma ProcessCountsOneStart(db: Db, userPk: nat, now: int, other: nat, since: int)
    requires exists k :: 0 <= k < |db.users| && db.users[k].pk == userPk
    requires since <= now
    ensures var db' := ProcessTelegramUserData(db, userPk, now).0;
      && CountFor(db'.interactions, userPk) == CountFor(db.interactions, userPk) + 1
      && CountForSince(db'.interactions, userPk, since) == CountForSince(db.interactions, userPk, since) + 1
      && (other != userPk ==> CountFor(db'.interactions, other) == CountFor(db.interactions, other))
  {
    var db' := ProcessTelegramUserData(db, userPk, now).0;
    var x := StartRecord(db, userPk, now);
    assert db'.interactions == db.interactions + [x];
    FilterAppend(db.interactions, x, OwnedBy(userPk));
    FilterAppend(db.interactions, x, OwnedBySince(userPk, since));
    FilterAppend(db.interactions, x, OwnedBy(other));
  }

  /** Logging `/start` keeps all schema constraints. */
  lemma ProcessPreservesValid(db: Db, userPk: nat, now: int)
    requires Valid(db)
    ensures Valid(ProcessTelegramUserData(db, userPk, now).0)
  {
    var r := ProcessTelegramUserData(db, userPk, now);
    if r.1.Processed? {
      var k :| 0 <= k < |db.users| && db.users[k].pk == userPk;
      assert userPk in UserPks(db.users);
      assert r.0.interactions == db.interactions + [StartRecord(db, userPk, now)];
    }
  }

  /** `timestamp__lt=cutoff`: what the purge deletes. */
  function OlderThan(cutoff: int): BotInteraction -> bool {
    (x: BotInteraction) => x.timestamp < cutoff
  }

  /** The complement: what the purge keeps. */
  function NotOlderThan(cutoff: int): BotInteraction -> bool {
    (x: BotInteraction) => x.timestamp >= cutoff
  }

  /** The interactions `cleanup_old_interactions` deletes at time `now`. */
  function Expired(log: seq<BotInteraction>, now: int): (r: seq<BotInteraction>)
    ensures forall x :: x in r <==> x in log && x.timestamp < now - RETENTION_WINDOW
  {
    Filter(log, OlderThan(now - RETENTION_WINDOW))
  }

  /** `cleanup_old_interactions`: delete every interaction older than `now`
      minus 30 days and return how many went. Exactly the newer ones
      remain, in their order, the count is the number of expired rows, and
      no other table changes. */
  function CleanupOldInteractions(db: Db, now: int): (r: (Db, nat))
    ensures r.1 == |Expired(db.interactions, now)|
    ensures r.1 + |r.0.interactions| == |db.interactions|
    ensures forall x :: x in r.0.interactions <==>
      x in db.interactions && x.timestamp >= now - RETENTION_WINDOW
    ensures r.0.users == db.users && r.0.broadcasts == db.broadcasts && r.0.profiles == db.profiles
    ensures r.0.nextInteractionPk == db.nextInteractionPk
  {
    var cutoff := now - RETENTION_WINDOW;
    var kept := Filter(db.interactions, NotOlderThan(cutoff));
    FilterPartition(db.interactions, NotOlderThan(cutoff), OlderThan(cutoff));
    (db.(interactions := kept), |db.interactions| - |kept|)
  }

  /** A second purge at the same instant deletes nothing and changes nothing;
      so does any purge at an earlier instant. */
  lemma CleanupIdempotent(db: Db, now: int, earlier: int)
    requires earlier <= now
    ensures var first := CleanupOldInteractions(db, now).0;
      && CleanupOldInteractions(first, now) == (first, 0)
      && CleanupOldInteractions(first, earlier) == (first, 0)
  {
    var first := CleanupOldInteractions(db, now).0;
    var log := first.interactions;
    forall k | 0 <= k < |log|
      ensures NotOlderThan(now - RETENTION_WINDOW)(log[k])
      ensures NotOlderThan(earlier - RETENTION_WINDOW)(log[k])
    {
      assert log[k] in log;
    }
    assert Filter(log, NotOlderThan(now - RETENTION_WINDOW)) == log;
    assert Filter(log, NotOlderThan(earlier - RETENTION_WINDOW)) == log;
    assert first.(interactions := log) == first;
  }

  /** The purge keeps all schema constraints (it removes rows that nothing
      references). */
  lemma CleanupPreservesValid(db: Db, now: int)
    requires Valid(db)
    ensures Valid(CleanupOldInteractions(db, now).0)
  {
    var db' := CleanupOldInteractions(db, now).0;
    FilterKeepsIncreasing(db.interactions, NotOlderThan(now - RETENTION_WINDOW), (x: BotInteraction) => x.pk);
    forall k | 0 <= k < |db'.interactions|
      ensures db'.interactions[k].pk < db'.nextInteractionPk
      ensures |db'.interactions[k].commandOrData| <= MAX_DATA_LENGTH
      ensures db'.interactions[k].telegramUser in UserPks(db'.users)
    {
      assert db'.interactions[k] in db.interactions;
    }
  }

  /** Listing order `-timestamp`: newest first. */
  predicate NewestFirstOrder(s: seq<BotInteraction>) {
    forall k, l :: 0 <= k < l < |s| ==> s[k].timestamp >= s[l].timestamp
  }

  /** Put `x` into a newest-first list ahead of every entry not newer than it. */
  function Insert(x: BotInteraction, sorted: seq<BotInteraction>): (r: seq<BotInteraction>)
    requires NewestFirstOrder(sorted)
    ensures NewestFirstOrder(r)
    ensures multiset(r) == multiset(sorted) + multiset{x}
    ensures |r| == |sorted| + 1
    ensures r[0] == x || (|sorted| > 0 && r[0] == sorted[0])
  {
    if |sorted| == 0 || x.timestamp >= sorted[0].timestamp then
      [x] + sorted
    else
      var tail := Insert(x, sorted[1..]);
      assert sorted == [sorted[0]] + sorted[1..];
      ConsKeepsNewestFirst(sorted[0], tail);
      [sorted[0]] + tail
  }

  /** An entry at least as new as the head of a newest-first list can go in
      front of it. */
  lemma ConsKeepsNewestFirst(h: BotInteraction, tail: seq<BotInteraction>)
    requires NewestFirstOrder(tail)
    requires |tail| > 0 ==> h.timestamp >= tail[0].timestamp
    ensures NewestFirstOrder([h] + tail)
  {
    var r := [h] + tail;
    forall k, l | 0 <= k < l < |r| ensures r[k].timestamp >= r[l].timestamp {
      if k == 0 {
        assert r[l] == tail[l - 1];
      } else {
        assert r[k] == tail[k - 1] && r[l] == tail[l - 1];
      }
    }
  }

  /** The log as the default ordering lists it: the same interactions,
      newest first. */
  function NewestFirst(log: seq<BotInteraction>): (r: seq<BotInteraction>)
    ensures NewestFirstOrder(r)
    ensures multiset(r) == multiset(log)
  {
    if |log| == 0 then []
    else
      assert log == [log[0]] + log[1..];
      Insert(log[0], NewestFirst(log[1..]))
  }
}
