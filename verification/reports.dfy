/** The counts of `generate_daily_report`: users created today, all users,
    interactions today, and distinct users who interacted today. */
module Reports {
  import opened Collections
  import opened Schema

  /** `created_at__date=today`. */
  function CreatedOn(day: int): TelegramUser -> bool {
    (u: TelegramUser) => Day(u.createdAt) == day
  }

  /** `timestamp__date=today`. */
  function HappenedOn(day: int): BotInteraction -> bool {
    (x: BotInteraction) => Day(x.timestamp) == day
  }

  /** `.values('telegram_user')`: the owner of an interaction. */
  function Owner(x: BotInteraction): nat {
    x.telegramUser
  }

  /** The four counts the report prints. */
  datatype DailyReport = DailyReport(
    newUsersToday: nat,
    totalUsers: nat,
    interactionsToday: nat,
    activeUsersToday: nat)

  /** `.values('telegram_user').distinct()`: exactly the owners of the
      interactions of `day`, each once. */
  function ActiveOwners(log: seq<BotInteraction>, day: int): (r: set<nat>)
    ensures forall o :: o in r ==> exists x :: x in log && x.telegramUser == o && Day(x.timestamp) == day
    ensures forall x :: x in log && Day(x.timestamp) == day ==> x.telegramUser in r
  {
    var todays := Filter(log, HappenedOn(day));
    var r := Image(todays, Owner);
    assert forall o :: o in r ==> exists x :: x in log && x.telegramUser == o && Day(x.timestamp) == day by {
      forall o | o in r ensures exists x :: x in log && x.telegramUser == o && Day(x.timestamp) == day {
        var k :| 0 <= k < |todays| && Owner(todays[k]) == o;
        assert todays[k] in todays;
      }
    }
    r
  }

  /** In a valid database, the users active on a day are among the users. */
  lemma ActiveOwnersAreUsers(db: Db, day: int)
    requires Valid(db)
    ensures |ActiveOwners(db.interactions, day)| <= |db.users|
  {
    var active := ActiveOwners(db.interactions, day);
    assert active <= UserPks(db.users) by {
      forall o | o in active ensures o in UserPks(db.users) {
        var x :| x in db.interactions && x.telegramUser == o && Day(x.timestamp) == day;
        var k :| 0 <= k < |db.interactions| && db.interactions[k] == x;
      }
    }
    UserPksCardinality(db.users);
    SubsetCardinality(active, UserPks(db.users));
  }

  lemma SubsetCardinality(a: set<nat>, b: set<nat>)
    requires a <= b
    ensures |a| <= |b|
  {
    assert b == a + (b - a);
  }

  /** `generate_daily_report` at time `now` (UTC days): the users created
      today, all users, today's interactions and the distinct owners of
      today's interactions. Users created today never outnumber all users,
      and the distinct users active today never outnumber today's
      interactions nor, in a valid database, all users. */
  function GenerateDailyReport(db: Db, now: int): (r: DailyReport)
    ensures r.newUsersToday == |Filter(db.users, CreatedOn(Day(now)))|
    ensures r.interactionsToday == |Filter(db.interactions, HappenedOn(Day(now)))|
    ensures r.activeUsersToday == |ActiveOwners(db.interactions, Day(now))|
    ensures r.totalUsers == |db.users|
    ensures r.newUsersToday <= r.totalUsers
    ensures r.activeUsersToday <= r.interactionsToday <= |db.interactions|
    ensures Valid(db) ==> r.activeUsersToday <= r.totalUsers
    ensures r.interactionsToday == 0 ==> r.activeUsersToday == 0
  {
    var today := Day(now);
    var todays := Filter(db.interactions, HappenedOn(today));
    var active := ActiveOwners(db.interactions, today);
    assert Valid(db) ==> |active| <= |db.users| by {
      if Valid(db) {
        ActiveOwnersAreUsers(db, today);
      }
    }
    DailyReport(
      newUsersToday := |Filter(db.users, CreatedOn(today))|,
      totalUsers := |db.users|,
      interactionsToday := |todays|,
      activeUsersToday := |active|)
  }

  /** The report counts a `/start` logged now among today's interactions
      and its user among today's active users. */
  lemma NewInteractionCountsToday(db: Db, x: BotInteraction, now: int)
    requires Day(x.timestamp) == Day(now)
    ensures var before := GenerateDailyReport(db, now);
      var after := GenerateDailyReport(db.(interactions := db.interactions + [x]), now);
      && after.interactionsToday == before.interactionsToday + 1
      && x.telegramUser in ActiveOwners(db.interactions + [x], Day(now))
  {
    FilterAppend(db.interactions, x, HappenedOn(Day(now)));
    var todays := Filter(db.interactions + [x], HappenedOn(Day(now)));
    assert x in todays;
  }
}
