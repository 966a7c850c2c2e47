# T-Bot state model in Dafny

T-Bot is a Django app with a Telegram bot and Celery background tasks. Under
its ORM calls sits a small state model, and this project models that model
and proves properties of it. There are four tables:

- the **TelegramUser directory**: chat identities with a unique platform id
  and a unique but nullable username;
- the **BotInteraction log**: `(user, type, data, timestamp)` rows that
  belong to a user;
- the **BroadcastMessage records**: one row per broadcast, with its delivery
  counters;
- the **UserProfile** rows of site accounts, each with an optional link to a
  chat identity.

The whole database is one immutable `Schema.Db` value. Each table is a
sequence of rows in primary-key order, and each table has its own
auto-increment counter. Time is an integer `now`, in seconds (UTC). Every
operation is a pure function from a `Db` (plus its inputs) to a new `Db`
and an outcome. The ORM calls become the primitives of the `Collections`
module: `.get()` is `FirstIndex`, `.filter()` is `Filter`, `.count()` is the
length of a filter, and `.distinct()` is `Image`. A database write that would
break a constraint (unique column, `varchar` length, `bigint` range) becomes
an `Err(DbError)` and leaves the modelled state unchanged (see "## Left out"
for the primary keys such a refusal consumes in the real database).

`Schema.Valid` holds every constraint the schema declares:

- increasing primary keys;
- `telegram_user_id` unique;
- `telegram_username` unique among non-null values;
- column lengths within their limits;
- every interaction's owner and every profile link names an existing user;
- one profile per account.

Each state-changing operation (upsert, `/start`, logging, purge, creating
and sending a broadcast, creating a profile, deleting a user) is proved to
preserve `Valid`.

Modules:

- `Wrappers`: `Option` and `Result`.
- `Collections`: the filter, count and search primitives, with their lemmas.
- `Schema`: the tables, the constraints and `__str__`.
- `Directory`: `save_telegram_user` and `display_name`.
- `Ranking`: `get_user_stats`.
- `InteractionLog`: `process_telegram_user_data`, the counts of
  `generate_user_stats`, `cleanup_old_interactions` and the newest-first
  order.
- `Broadcasts`: creating a broadcast and `broadcast_message_to_users`.
- `Reports`: `generate_daily_report`.
- `Profiles`: creating a profile, and the delete rules between tables.
- `Bot`: `start_command`.

Three behaviours of the code worth noting:

- **No re-send guard.** `broadcast_message_to_users` does not check
  `is_sent`. A sent broadcast is sent again, and its counters and `sent_at`
  are overwritten (`Broadcasts.RerunOverwritesSentAt`).
- **Missing usernames collide.** A missing username is stored as `''`, not
  as null. Because `telegram_username` is unique, a second user without a
  username cannot register (`Directory.NamelessUserCollides`,
  `Directory.SecondNamelessUserRejected`). An update that rewrites a null
  username to `''` can fail the same way
  (`Directory.NullUsernameUpdateCollides`).
- **Send failures cannot happen.** The transport call is commented out, so
  every send attempt succeeds. The send loop is modelled with the transport
  as a parameter (`Broadcasts.SendBroadcast`), and the Celery task as written uses a
  transport that always delivers (`Broadcasts.BroadcastMessageToUsers`).

## Model

| member | source | states |
|---|---|---|
| `Schema.UserLabel` | main_app/models.py:11-12 | The label is an at-sign followed by the username, or by "No Username" when the username is null or empty |
| `Schema.UserLabelDistinguishesNamedUsers` | main_app/models.py:11-12 | Two users with different non-empty usernames get different labels |
| `Schema.TelegramIdIsKey` | main_app/models.py:6 | In a valid database a platform id names at most one row, so lookup by platform id finds exactly that row |
| `Directory.RowViolation` | main_app/models.py:5-8 | A row is refused exactly when it breaks the bigint range of the platform id, a 100-character limit, the unique platform id or the unique non-null username |
| `Directory.SaveTelegramUser` | main_app/telegram_bot.py:17-38 | `created` is true exactly when the platform id was unseen; the saved row carries that id; the other tables are untouched |
| `Directory.CreateStoresIncomingOrEmpty` | main_app/telegram_bot.py:22-29 | For an unseen id, the insert succeeds exactly when the constraints allow it. It then adds exactly one row for the id, holding each incoming name or `''`, active, with `created_at` and `last_interaction` set to now, and leaves earlier rows unchanged |
| `Directory.UpdateMergesFields` | main_app/telegram_bot.py:31-36 | For an existing id, `created` is false. Each name becomes the incoming value if non-empty, else the stored value if non-empty, else `''`. `last_interaction` is refreshed. The primary key, `created_at` and `is_active` are kept, and no other row changes. The update succeeds exactly when the merged row meets the column limits and its username is held by no other row |
| `Directory.MergeNeverErases` | main_app/telegram_bot.py:33-35 | A non-empty stored name survives a null or empty incoming value, and a non-empty incoming value wins |
| `Directory.UpsertLeavesNoNulls` | main_app/telegram_bot.py:25-35 | After an accepted upsert no name column is null, and no non-empty name of the existing row became empty |
| `Directory.UpsertIdempotent` | main_app/telegram_bot.py:22-38 | Repeating an accepted upsert is accepted and reports `created == false`. It leaves the saved row as the first call left it, apart from `last_interaction`, and changes no row of another id |
| `Directory.UpsertPreservesValid` | main_app/models.py:4-9 | Every accepted upsert keeps all schema constraints, and the returned row is in the table |
| `Directory.NamelessUserCollides` | main_app/telegram_bot.py:25 | Once some row holds username `''`, an unseen user without a username is refused |
| `Directory.NullUsernameUpdateCollides` | main_app/telegram_bot.py:33-36 | Updating a row whose username is null, with no incoming username, is refused when another row holds `''` |
| `Directory.SecondNamelessUserRejected` | main_app/telegram_bot.py:22-29 | Concretely: after a first username-less registration, a second one fails with a unique violation on the username |
| `Directory.DisplayName` | main_app/telegram_bot.py:67 | The greeting name is never empty: the first name, else the username, else "User " and the id |
| `Ranking.Rank` | main_app/telegram_bot.py:49 | A rank lies between 1 and the number of users |
| `Ranking.GetUserStats` | main_app/telegram_bot.py:40-52 | Returns none exactly for an unknown platform id. Otherwise the rank lies between 1 and the total, the total is the number of users, the username is never empty, and in a valid database the username is the row's username or "Not set" when that is null or empty, and the rank and join day are those of the user's row |
| `Ranking.RankRespectsOrder` | main_app/telegram_bot.py:49 | A user earlier in `created_at` order has a strictly smaller rank |
| `Ranking.RankIsInjective` | main_app/telegram_bot.py:49 | Distinct users have distinct ranks. With the bounds this makes the ranks a numbering 1..n, which is each user's position in the sorted list |
| `Ranking.FirstUserRanksFirst` | main_app/telegram_bot.py:49 | The user ahead of all others ranks 1 |
| `InteractionLog.ProcessTelegramUserData` | main_app/tasks.py:60-79 | An unknown primary key is reported and changes nothing. Otherwise exactly one interaction is appended: a `command` with data `/start`, owned by that user, stamped now, with the next primary key. The old log is an unchanged prefix, and the other tables are untouched |
| `InteractionLog.ProcessCountsOneStart` | main_app/tasks.py:67-72 | The append adds one to that user's total and recent counts and leaves every other user's count unchanged |
| `InteractionLog.ProcessPreservesValid` | main_app/tasks.py:65-72 | Logging `/start` keeps all schema constraints, including that the owner exists |
| `InteractionLog.RecentAtMostTotal` | main_app/tasks.py:91-95 | A user's count for the last seven days never exceeds the user's total count |
| `InteractionLog.WideWindowCountsAll` | main_app/tasks.py:92-95 | A window that starts before every logged timestamp counts the user's whole history |
| `InteractionLog.UserInteractionCounts` | main_app/tasks.py:88-95 | Returns none exactly for an unknown platform id. In a valid database, total is the number of interactions the user's row owns and recent the number of those at or after seven days before now; always recent ≤ total ≤ the size of the log |
| `InteractionLog.Expired` | main_app/tasks.py:210-211 | The expired rows are exactly those older than now minus 30 days |
| `InteractionLog.CleanupOldInteractions` | main_app/tasks.py:204-214 | The returned count is the number of expired rows, and kept plus removed is the whole log. The rows that remain are exactly those at or after the cutoff. No other table changes |
| `InteractionLog.CleanupIdempotent` | main_app/tasks.py:210-211 | A second purge at the same or an earlier instant removes 0 rows and changes nothing |
| `InteractionLog.CleanupPreservesValid` | main_app/tasks.py:211 | The purge keeps all schema constraints |
| `InteractionLog.NewestFirst` | main_app/migrations/0002_telegramuser_is_active_telegramuser_last_interaction_and_more.py:35-37 | The listing holds the same interactions (as a multiset), ordered newest first |
| `Broadcasts.ActiveUsers` | main_app/tasks.py:135 | The recipients are exactly the active users, each once, and no inactive user |
| `Broadcasts.TallySends` | main_app/tasks.py:137-147 | The successes are the number of recipients the transport delivers to, and successes plus failures equal the number of recipients. No failure happens exactly when every attempt delivers, and no success exactly when none does |
| `Broadcasts.NewBroadcast` | main_app/migrations/0002_telegramuser_is_active_telegramuser_last_interaction_and_more.py:39-53 | A title over 200 characters is refused. Otherwise one record is appended holding the given title, message and author, `created_at` now, the next primary key, zero counters, `is_sent` false and `sent_at` null, and the other tables are untouched |
| `Broadcasts.NewBroadcastPreservesValid` | main_app/migrations/0002_telegramuser_is_active_telegramuser_last_interaction_and_more.py:39-53 | An accepted broadcast creation keeps all schema constraints |
| `Broadcasts.SendBroadcast` | main_app/tasks.py:128-162 | An unknown id is reported and changes nothing. Otherwise only that broadcast changes: it becomes sent, with `sent_at` set to now, total = the number of active users and successes + failures = total. Title, message, author and `created_at` are kept, and the users, log and profiles are untouched. The successes are the number of active users the transport delivers to, and only active users are attempted |
| `Broadcasts.BroadcastMessageToUsers` | main_app/tasks.py:140-147 | As written, every active user counts as a success and there are no failures |
| `Broadcasts.RerunOverwritesSentAt` | main_app/tasks.py:134-155 | Running the Celery task again on a sent broadcast, with the transport delivering to the same recipients, repeats the counters but moves `sent_at` to the new time: there is no `is_sent` guard |
| `Broadcasts.SendPreservesValid` | main_app/tasks.py:150-155 | Sending keeps all schema constraints and keeps every broadcast's counters consistent with its `is_sent` flag |
| `Broadcasts.ThreeRecipientsOneFailure` | main_app/tasks.py:140-152 | With three active recipients and a transport failing for the second, the record shows 3 recipients, 2 successes and 1 failure, and is sent |
| `Reports.ActiveOwners` | main_app/tasks.py:178-180 | The distinct users active today are exactly the owners of today's interactions |
| `Reports.ActiveOwnersAreUsers` | main_app/tasks.py:178-180 | In a valid database, the users active today are no more than all users |
| `Reports.GenerateDailyReport` | main_app/tasks.py:164-180 | The four counts are the users created today, all users, today's interactions and the distinct owners of today's interactions. New users today ≤ total users. Active users today ≤ interactions today ≤ the log size. In a valid database, active users today ≤ total users |
| `Reports.NewInteractionCountsToday` | main_app/tasks.py:176-180 | An interaction logged today raises today's interaction count by one, and its owner counts as active today |
| `Profiles.CreateProfile` | main_app/models.py:14-17 | A second profile for the same account is refused. Otherwise exactly one profile is appended for the account, with the next primary key, no chat link and `created_at` now, and the other tables are untouched |
| `Profiles.CreateProfileOncePerAccount` | main_app/models.py:15 | An accepted profile creation keeps all constraints, and repeating it for the same account is refused |
| `Profiles.DeleteTelegramUser` | main_app/models.py:16 | Deleting a user removes exactly its row and exactly its interactions. Every profile stays, but none still links the deleted user. Profiles that did not link it are unchanged |
| `Profiles.DeletePreservesValid` | main_app/migrations/0002_telegramuser_is_active_telegramuser_last_interaction_and_more.py:33 | After a delete no interaction or profile points at a missing user, and all constraints hold |
| `Bot.StartCommand` | main_app/telegram_bot.py:54-102 | A refused upsert leaves the database unchanged, queues nothing and gets the apology. Otherwise the user is welcomed, or welcomed back exactly when the id was already known. A logging task is queued exactly on a first welcome, for the new row's primary key. On success the database is the upsert's result, and the greeting name is the display name |
| `Bot.StartPreservesValid` | main_app/telegram_bot.py:65-82 | `/start` keeps all schema constraints |
| `Bot.FirstStartLogsOneInteraction` | main_app/telegram_bot.py:66-82 | After a user's first `/start` and its queued task, that user has exactly one interaction: a `command` with data `/start` |
| `Bot.ReturningStartLogsNothing` | main_app/telegram_bot.py:83-84 | A known user's `/start` queues nothing and logs nothing |

## Left out

- HTTP views, URL routing, serializers, admin configuration and the
  bot-launcher command. These are framework plumbing with no state of their
  own. The profile that registration creates is modelled by
  `Profiles.CreateProfile`.
- `send_welcome_email` (main_app/tasks.py:13-58): it only sends email.
- Telegram transport, inline keyboards and reply text
  (main_app/telegram_bot.py:86-228). The keyboard code uses
  `InlineKeyboardButton`, which is not imported. So as written, `/start`
  saves the user and queues the logging task, and then the user gets the apology
  reply. `Bot.StartCommand` models the state effects and the greeting that
  lines 67-84 choose.
- `generate_user_stats` as a whole. Its second statement (main_app/tasks.py:86) imports
  `send_telegram_message_direct`, which main_app/telegram_bot.py does not
  define, so as written the Celery task always returns an error string. Its
  most-used-commands query also names `models` without importing it. Only
  the two counts it computes are modelled (`InteractionLog.UserInteractionCounts`).
- The growth-rate percentage of the daily report: it is floating point.
  Every `strftime` rendering is left out too; join dates are kept as day
  numbers.
- `sync_to_async`, Celery's `.delay` and the check-then-insert race of
  `get_or_create`: these are about concurrency and queueing. `.delay` is
  modelled as the `enqueued` primary key of `Bot.StartResult`.
- `UserProfile.__str__`: site accounts (their usernames) are outside the
  model. Deleting a site account (the `CASCADE` on `UserProfile.user` and
  `BroadcastMessage.created_by`) is left out for the same reason.
- Administrative activation and deactivation of users: the source has no
  such operation beyond the admin UI.
- Primary keys consumed by refused inserts: a refused write here leaves
  the table's next primary key unchanged. PostgreSQL draws the value from
  the identity sequence before the constraint fails and never returns it,
  so the real keys can have gaps. No property here depends on keys being
  gap-free.
- `Broadcasts.SendBroadcast`: the three counters are 32-bit `IntegerField`
  columns, but the model records them as unbounded naturals. With more
  than 2^31 - 1 active users the real `broadcast.save()` would fail and the
  Celery task would return an error string; the model reports `Completed`.
- `Ranking.Rank`: the database does not fix the order of users with equal
  `created_at`. The model breaks such ties by table order, which is
  primary-key order.
- `InteractionLog.UserInteractionCounts`: the exact counts are stated for a
  valid database only; without the unique platform id the lookup would pick
  the first matching row, where Django's `.get()` would raise.
- `Ranking.GetUserStats`: the username, rank and join day are likewise
  stated for a valid database only.
- `Reports.GenerateDailyReport`: dates are computed in UTC, as `Day(t)`
  equal to `t / 86400`. A non-UTC `TIME_ZONE` setting would move the day
  boundary of `created_at__date` and `timestamp__date`.
- `InteractionLog.NewestFirst`: the database does not fix the order of
  interactions with equal timestamps; the model's sort picks one.
- `interaction_type` choices: Django does not enforce them on save. The
  model's enumeration admits only the three choices, and the code only
  ever writes `command`.
