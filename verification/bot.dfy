/** The `/start` command: register or refresh the chat identity, queue the
    background logging task for a newly registered user, and choose the
    greeting. */
module Bot {
  import opened Wrappers
  import opened Collections
  import opened Schema
  import opened Directory
  import opened InteractionLog

  /** The greeting `/start` chooses: a first welcome or a welcome back,
      each addressed by the display name. */
  datatype Greeting = Welcome(name: string) | WelcomeBack(name: string)

  /** The state `/start` leaves, the primary key handed to
      `process_telegram_user_data.delay` (if any), and the greeting; no
      greeting stands for the caught exception and its apology reply. */
  datatype StartResult = StartResult(db: Db, enqueued: Option<nat>, greeting: Option<Greeting>)

  /** `start_command` up to the reply: a refused upsert is caught, leaves
      the database unchanged, queues nothing and apologises; otherwise the
      database is the upsert's, and for a new user it chooses the welcome
      and queues its `/start` logging, for a returning user the welcome back
      with nothing queued. (As written the keyboard that follows raises, so
      the reply actually sent is the apology; the state effects stand.) */
  function StartCommand(db: Db, data: TelegramProfile, now: int): (r: StartResult)
    ensures r.greeting.None? <==> SaveTelegramUser(db, data, now).Err?
    ensures r.greeting.None? ==> r.db == db && r.enqueued.None?
    ensures r.enqueued.Some? <==> r.greeting.Some? && r.greeting.value.Welcome?
    ensures r.greeting.Some? ==> (r.greeting.value.Welcome? <==> IndexOfTelegramId(db.users, data.id).None?)
    ensures r.greeting.Some? ==> r.db == SaveTelegramUser(db, data, now).value.db
    ensures r.greeting.Some? ==> r.greeting.value.name == DisplayName(data) && r.greeting.value.name != ""
    ensures r.enqueued.Some? ==>
      exists k :: 0 <= k < |r.db.users| && r.db.users[k].pk == r.enqueued.value && r.db.users[k].telegramUserId == data.id
  {
    match SaveTelegramUser(db, data, now)
    case Err(_) => StartResult(db, None, None)
    case Ok(saved) =>
      var name := DisplayName(data);
      if saved.created then
        assert saved.db.users[|db.users|] == saved.user;
        StartResult(saved.db, Some(saved.user.pk), Some(Welcome(name)))
      else
        StartResult(saved.db, None, Some(WelcomeBack(name)))
  }

  /** `/start` keeps every schema constraint. */
  lemma StartPreservesValid(db: Db, data: TelegramProfile, now: int)
    requires Valid(db)
    ensures Valid(StartCommand(db, data, now).db)
  {
    UpsertPreservesValid(db, data, now);
  }

  /** A user's first `/start`, once its queued task runs, leaves exactly one
      interaction for that user: a `command` with data `/start`. */
  lemma FirstStartLogsOneInteraction(db: Db, data: TelegramProfile, now: int, later: int)
    requires Valid(db)
    requires forall k :: 0 <= k < |db.users| ==> db.users[k].telegramUserId != data.id
    requires SaveTelegramUser(db, data, now).Ok?
    ensures var r := StartCommand(db, data, now);
      && r.enqueued.Some?
      && var after := ProcessTelegramUserData(r.db, r.enqueued.value, later);
      && after.1.Processed?
      && CountFor(after.0.interactions, r.enqueued.value) == 1
      && var last := after.0.interactions[|after.0.interactions| - 1];
      && last.telegramUser == r.enqueued.value
      && last.interactionType == Command && last.commandOrData == "/start"
  {
    var r := StartCommand(db, data, now);
    var pk := db.nextUserPk;
    assert r.enqueued == Some(pk);
    assert r.db.interactions == db.interactions;
    NoInteractionsForFreshPk(db);
    ProcessCountsOneStart(r.db, pk, later, pk, later);
  }

  /** In a valid database no interaction belongs to the primary key the
      next new user will get. */
  lemma NoInteractionsForFreshPk(db: Db)
    requires Valid(db)
    ensures CountFor(db.interactions, db.nextUserPk) == 0
  {
    var pk := db.nextUserPk;
    var notOwned := (x: BotInteraction) => x.telegramUser != pk;
    forall k | 0 <= k < |db.interactions| ensures notOwned(db.interactions[k]) {
      assert db.interactions[k].telegramUser in UserPks(db.users);
    }
    assert Filter(db.interactions, notOwned) == db.interactions;
    FilterPartition(db.interactions, notOwned, OwnedBy(pk));
  }

  /** A returning user's `/start` queues nothing, so it logs nothing. */
  lemma ReturningStartLogsNothing(db: Db, data: TelegramProfile, now: int, k: nat)
    requires k < |db.users| && db.users[k].telegramUserId == data.id
    ensures var r := StartCommand(db, data, now);
      && r.enqueued.None?
      && r.db.interactions == db.interactions
  {
  }
}
