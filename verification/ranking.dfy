/** `get_user_stats`: a user's position among all users in `created_at`
    order, with the totals the stats reply shows. */
module Ranking {
  import opened Wrappers
  import opened Schema

  /** Row `k` comes before row `i` in `created_at` order. Rows created at
      the same instant are taken in table (primary-key) order. */
  predicate Precedes(users: seq<TelegramUser>, k: nat, i: nat)
    requires k < |users| && i < |users|
  {
    || users[k].createdAt < users[i].createdAt
    || (users[k].createdAt == users[i].createdAt && k < i)
  }

  /** How many of the first `n` rows come before row `i`; row `i` itself
      never does, so the count stays below `n` once `i` is among them. */
  function CountPreceding(users: seq<TelegramUser>, i: nat, n: nat): (c: nat)
    requires i < |users| && n <= |users|
    ensures c + (if i < n then 1 else 0) <= n
  {
    if n == 0 then 0
    else CountPreceding(users, i, n - 1) + (if Precedes(users, n - 1, i) then 1 else 0)
  }

  /** `list(order_by('created_at')).index(user) + 1`: one more than the
      number of users ahead of row `i`. */
  function Rank(users: seq<TelegramUser>, i: nat): (r: nat)
    requires i < |users|
    ensures 1 <= r <= |users|
  {
    1 + CountPreceding(users, i, |users|)
  }

  /** The dict `get_user_stats` returns; the join date is kept as a day
      number (its `strftime` rendering is not modelled). */
  datatype UserStats = UserStats(username: string, joinDay: int, totalUsers: nat, userRank: nat)

  /** `get_user_stats`: `None` for an unknown platform id; otherwise the
      username (or "Not set"), the join day, the number of users and the
      user's rank, which lies between 1 and that number. */
  function GetUserStats(db: Db, id: int): (r: Option<UserStats>)
    ensures r.None? <==> forall k :: 0 <= k < |db.users| ==> db.users[k].telegramUserId != id
    ensures r.Some? ==> 1 <= r.value.userRank <= r.value.totalUsers && r.value.totalUsers == |db.users|
    ensures r.Some? ==> r.value.username != ""
    ensures forall k :: 0 <= k < |db.users| && db.users[k].telegramUserId == id && r.Some? ==>
      Valid(db) ==>
        && r.value.username == Or(db.users[k].telegramUsername, "Not set")
        && r.value.userRank == Rank(db.users, k) && r.value.joinDay == Day(db.users[k].createdAt)
  {
    match IndexOfTelegramId(db.users, id)
    case None => None
    case Some(k) =>
      var u := db.users[k];
      Some(UserStats(Or(u.telegramUsername, "Not set"), Day(u.createdAt), |db.users|, Rank(db.users, k)))
  }

  /** `Precedes` is transitive. */
  lemma PrecedesTransitive(users: seq<TelegramUser>, a: nat, b: nat, c: nat)
    requires a < |users| && b < |users| && c < |users|
    requires Precedes(users, a, b) && Precedes(users, b, c)
    ensures Precedes(users, a, c)
  {
  }

  /** If row `i` precedes row `j`, then everything ahead of `i` is ahead of
      `j`, and `i` itself is too. */
  lemma {:induction false} CountPrecedingMonotone(users: seq<TelegramUser>, i: nat, j: nat, n: nat)
    requires i < |users| && j < |users| && n <= |users|
    requires Precedes(users, i, j)
    ensures CountPreceding(users, i, n) + (if i < n then 1 else 0) <= CountPreceding(users, j, n)
  {
    if n > 0 {
      CountPrecedingMonotone(users, i, j, n - 1);
      var m := n - 1;
      if Precedes(users, m, i) {
        PrecedesTransitive(users, m, i, j);
      }
    }
  }

  /** A user created earlier (or at the same instant and saved earlier) has
      a strictly smaller rank. */
  lemma RankRespectsOrder(users: seq<TelegramUser>, i: nat, j: nat)
    requires i < |users| && j < |users|
    requires Precedes(users, i, j)
    ensures Rank(users, i) < Rank(users, j)
  {
    CountPrecedingMonotone(users, i, j, |users|);
  }

  /** Distinct users have distinct ranks: together with the bounds of
      `Rank`, the ranks number the users 1 to n without gaps or repeats,
      which is exactly their position in the sorted list. */
  lemma RankIsInjective(users: seq<TelegramUser>, i: nat, j: nat)
    requires i < |users| && j < |users| && i != j
    ensures Rank(users, i) != Rank(users, j)
  {
    if Precedes(users, i, j) {
      RankRespectsOrder(users, i, j);
    } else {
      RankRespectsOrder(users, j, i);
    }
  }

  /** The earliest-created user (first in table order among ties) ranks 1. */
  lemma FirstUserRanksFirst(users: seq<TelegramUser>, i: nat)
    requires i < |users|
    requires forall k :: 0 <= k < |users| && k != i ==> Precedes(users, i, k)
    ensures Rank(users, i) == 1
  {
    NothingPrecedes(users, i, |users|);
  }

  lemma {:induction false} NothingPrecedes(users: seq<TelegramUser>, i: nat, n: nat)
    requires i < |users| && n <= |users|
    requires forall k :: 0 <= k < |users| && k != i ==> Precedes(users, i, k)
    ensures CountPreceding(users, i, n) == 0
  {
    if n > 0 {
      NothingPrecedes(users, i, n - 1);
      if n - 1 != i {
        assert Precedes(users, i, n - 1);
      }
    }
  }
}
