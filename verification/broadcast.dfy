/** Broadcasts: creating a `BroadcastMessage` with its defaults and the
    `broadcast_message_to_users` task that fans it out to every active user
    and records the delivery tally. */
module Broadcasts {
  import opened Wrappers
  import opened Collections
  import opened Schema

  /** A recipient's send attempt: true when the message was delivered.
      This is the transport the Celery task would call. */
  type Delivery = TelegramUser -> bool

  /** The transport as written: the send call is commented out and the
      try body only increments the success counter, so no attempt fails. */
  function AsWrittenDelivery(u: TelegramUser): bool {
    true
  }

  function IsActiveUser(u: TelegramUser): bool {
    u.isActive
  }

  /** `TelegramUser.objects.filter(is_active=True)`, in table order: every
      active user once, no inactive user. */
  function ActiveUsers(users: seq<TelegramUser>): (r: seq<TelegramUser>)
    ensures |r| <= |users|
    ensures forall u :: u in r <==> u in users && u.isActive
    ensures (forall k, l :: 0 <= k < l < |users| ==> users[k].pk < users[l].pk) ==>
              forall k, l :: 0 <= k < l < |r| ==> r[k].pk < r[l].pk
  {
    var r := Filter(users, IsActiveUser);
    assert (forall k, l :: 0 <= k < l < |users| ==> users[k].pk < users[l].pk) ==>
             forall k, l :: 0 <= k < l < |r| ==> r[k].pk < r[l].pk by {
      if forall k, l :: 0 <= k < l < |users| ==> users[k].pk < users[l].pk {
        FilterKeepsIncreasing(users, IsActiveUser, (u: TelegramUser) => u.pk);
      }
    }
    r
  }

  /** How many of the attempts over `recipients` succeeded and failed. */
  datatype Tally = Tally(successful: nat, failed: nat)

  /** The send loop: one attempt per recipient, a failure counted and never
      aborting the loop. The successes are exactly the recipients the
      transport delivers to, and every recipient is counted once. */
  function TallySends(recipients: seq<TelegramUser>, deliver: Delivery): (t: Tally)
    ensures t.successful == |Filter(recipients, deliver)|
    ensures t.successful + t.failed == |recipients|
    ensures t.failed == 0 <==> forall k :: 0 <= k < |recipients| ==> deliver(recipients[k])
    ensures t.successful == 0 <==> forall k :: 0 <= k < |recipients| ==> !deliver(recipients[k])
  {
    if |recipients| == 0 then Tally(0, 0)
    else
      var init, last := recipients[..|recipients| - 1], recipients[|recipients| - 1];
      var t := TallySends(init, deliver);
      assert recipients == init + [last];
      FilterAppend(init, last, deliver);
      if deliver(last) then Tally(t.successful + 1, t.failed)
      else Tally(t.successful, t.failed + 1)
  }

  /** A broadcast's counters agree with its state: before sending, all
      counters are zero and `sent_at` is null; once sent, `sent_at` is set
      and successes plus failures equal the recipients. */
  predicate Consistent(b: BroadcastMessage) {
    if b.isSent then
      b.sentAt.Some? && b.successfulSends >= 0 && b.failedSends >= 0
      && b.successfulSends + b.failedSends == b.totalRecipients
    else
      b.sentAt.None? && b.totalRecipients == 0 && b.successfulSends == 0 && b.failedSends == 0
  }

  /** Creating a `BroadcastMessage`: a title over 200 characters is refused;
      otherwise the new record gets the next primary key and the migration's
      defaults — no recipients, no sends, not sent, `sent_at` null. */
  function NewBroadcast(db: Db, title: string, message: string, createdBy: nat, now: int): (r: Result<(Db, nat), DbError>)
    ensures r.Err? <==> |title| > MAX_TITLE_LENGTH
    ensures r.Ok? ==>
      var (db', pk) := r.value;
      && |db'.broadcasts| == |db.broadcasts| + 1
      && db'.broadcasts[..|db.broadcasts|] == db.broadcasts
      && Consistent(db'.broadcasts[|db.broadcasts|])
      && !db'.broadcasts[|db.broadcasts|].isSent
      && db'.broadcasts[|db.broadcasts|].pk == pk
      && db'.broadcasts[|db.broadcasts|] ==
           BroadcastMessage(db.nextBroadcastPk, title, message, createdBy, now, None, 0, 0, 0, false)
      && db'.users == db.users && db'.interactions == db.interactions && db'.profiles == db.profiles
    ensures r.Ok? && BroadcastsValid(db.broadcasts, db.nextBroadcastPk) ==>
      && IndexOfBroadcastPk(db.broadcasts, r.value.1).None?
      && BroadcastsValid(r.value.0.broadcasts, r.value.0.nextBroadcastPk)
  {
    if |title| > MAX_TITLE_LENGTH then Err(ValueTooLong(TitleColumn))
    else
      var b := BroadcastMessage(
        pk := db.nextBroadcastPk, title := title, message := message, createdBy := createdBy,
        createdAt := now, sentAt := None, totalRecipients := 0, successfulSends := 0,
        failedSends := 0, isSent := false);
      var db' := db.(broadcasts := db.broadcasts + [b], nextBroadcastPk := db.nextBroadcastPk + 1);
      assert db'.broadcasts[..|db.broadcasts|] == db.broadcasts;
      assert BroadcastsValid(db.broadcasts, db.nextBroadcastPk) ==> IndexOfBroadcastPk(db.broadcasts, b.pk).None?;
      Ok((db', b.pk))
  }

  /** Creating a broadcast keeps every schema constraint. */
  lemma NewBroadcastPreservesValid(db: Db, title: string, message: string, createdBy: nat, now: int)
    requires Valid(db)
    ensures var r := NewBroadcast(db, title, message, createdBy, now);
      r.Ok? ==> Valid(r.value.0)
  {
  }

  /** What the Celery task returns: the tally it recorded, or the lookup error it
      caught. */
  datatype BroadcastOutcome = Completed(successful: nat, failed: nat) | BroadcastFailed(error: DbError)

  /** The record as the Celery task saves it: counters from the tally, the
      recipient count, `sent_at` now and `is_sent` set. */
  function Delivered(b: BroadcastMessage, recipients: seq<TelegramUser>, t: Tally, now: int): BroadcastMessage {
    b.(successfulSends := t.successful, failedSends := t.failed,
       totalRecipients := |recipients|, sentAt := Some(now), isSent := true)
  }

  /** `broadcast_message_to_users` with a given transport: an unknown id is
      caught and changes nothing; otherwise every active user gets one
      attempt and the broadcast records the tally. There is no `is_sent`
      guard: a sent broadcast is sent again and its counters overwritten. */
  function SendBroadcast(db: Db, messageId: nat, now: int, deliver: Delivery): (r: (Db, BroadcastOutcome))
    ensures r.1.BroadcastFailed? <==> forall k :: 0 <= k < |db.broadcasts| ==> db.broadcasts[k].pk != messageId
    ensures r.1.BroadcastFailed? ==> r.0 == db
    ensures r.1.Completed? ==>
      && r.1.successful == |Filter(ActiveUsers(db.users), deliver)|
      && r.1.successful + r.1.failed == |ActiveUsers(db.users)|
    ensures r.0.users == db.users && r.0.interactions == db.interactions && r.0.profiles == db.profiles
    ensures r.0.nextBroadcastPk == db.nextBroadcastPk && |r.0.broadcasts| == |db.broadcasts|
    ensures forall k :: 0 <= k < |db.broadcasts| && db.broadcasts[k].pk != messageId ==>
      r.0.broadcasts[k] == db.broadcasts[k]
    ensures forall k :: 0 <= k < |db.broadcasts| && r.1.Completed? && db.broadcasts[k].pk == messageId ==>
      BroadcastsValid(db.broadcasts, db.nextBroadcastPk) ==>
      var (before, after) := (db.broadcasts[k], r.0.broadcasts[k]);
      && after.isSent && after.sentAt == Some(now) && Consistent(after)
      && after.totalRecipients == |ActiveUsers(db.users)|
      && after.successfulSends == r.1.successful && after.failedSends == r.1.failed
      && after.pk == before.pk && after.title == before.title && after.message == before.message
      && after.createdBy == before.createdBy && after.createdAt == before.createdAt
  {
    match IndexOfBroadcastPk(db.broadcasts, messageId)
    case None => (db, BroadcastFailed(DoesNotExist))
    case Some(k) =>
      var recipients := ActiveUsers(db.users);
      var t := TallySends(recipients, deliver);
      var b := Delivered(db.broadcasts[k], recipients, t, now);
      (db.(broadcasts := db.broadcasts[k := b]), Completed(t.successful, t.failed))
  }

  /** The Celery task as written, whose sends cannot fail. */
  function BroadcastMessageToUsers(db: Db, messageId: nat, now: int): (r: (Db, BroadcastOutcome))
    ensures r.1.Completed? ==> r.1.failed == 0 && r.1.successful == |ActiveUsers(db.users)|
  {
    SendBroadcast(db, messageId, now, AsWrittenDelivery)
  }

  /** Re-running the Celery task on a broadcast it already sent is not a no-op:
      with the same active users, and the transport delivering to the same
      recipients on both runs, the counters come out the same, but `sent_at`
      moves to the second run's time. */
  lemma RerunOverwritesSentAt(db: Db, messageId: nat, now: int, later: int, deliver: Delivery)
    requires BroadcastsValid(db.broadcasts, db.nextBroadcastPk)
    requires exists k :: 0 <= k < |db.broadcasts| && db.broadcasts[k].pk == messageId
    ensures var first := SendBroadcast(db, messageId, now, deliver);
      var second := SendBroadcast(first.0, messageId, later, deliver);
      && second.1 == first.1
      && forall k :: 0 <= k < |db.broadcasts| && db.broadcasts[k].pk == messageId ==>
           first.0.broadcasts[k].isSent
           && second.0.broadcasts[k] == first.0.broadcasts[k].(sentAt := Some(later))
  {
    var k :| 0 <= k < |db.broadcasts| && db.broadcasts[k].pk == messageId;
    var first := SendBroadcast(db, messageId, now, deliver);
    assert IndexOfBroadcastPk(db.broadcasts, messageId) == Some(k);
    assert first.0.broadcasts[k].pk == messageId;
    assert IndexOfBroadcastPk(first.0.broadcasts, messageId) == Some(k) by {
      forall j | 0 <= j < k ensures first.0.broadcasts[j].pk != messageId {
        assert first.0.broadcasts[j] == db.broadcasts[j];
      }
    }
  }

  /** Sending keeps every schema constraint and keeps every broadcast
      consistent. */
  lemma SendPreservesValid(db: Db, messageId: nat, now: int, deliver: Delivery)
    requires Valid(db)
    requires forall k :: 0 <= k < |db.broadcasts| ==> Consistent(db.broadcasts[k])
    ensures var db' := SendBroadcast(db, messageId, now, deliver).0;
      && Valid(db')
      && forall k :: 0 <= k < |db'.broadcasts| ==> Consistent(db'.broadcasts[k])
  {
  }

  /** A transport that fails only for the user with primary key 2. */
  function FailsForSecond(u: TelegramUser): bool {
    u.pk != 2
  }

  /** The scenario of three active recipients where the transport fails for
      the second: two sent, one failed, three recipients, marked sent. */
  lemma ThreeRecipientsOneFailure(db: Db)
    requires db.users == [TelegramUser(1, Some("a"), 11, None, None, 0, true, 0),
                          TelegramUser(2, Some("b"), 12, None, None, 0, true, 0),
                          TelegramUser(3, Some("c"), 13, None, None, 0, true, 0)]
    requires |db.broadcasts| == 1 && db.broadcasts[0].pk == 1
    ensures var r := SendBroadcast(db, 1, 100, FailsForSecond);
      && r.1 == Completed(2, 1)
      && r.0.broadcasts[0] == db.broadcasts[0].(totalRecipients := 3, successfulSends := 2,
                                                 failedSends := 1, sentAt := Some(100), isSent := true)
  {
    var users := db.users;
    assert ActiveUsers(users) == users;
    assert users[..2][..1][..0] == [];
    assert TallySends(users[..2][..1], FailsForSecond) == Tally(1, 0);
    assert TallySends(users[..2], FailsForSecond) == Tally(1, 1);
    assert TallySends(users, FailsForSecond) == Tally(2, 1);
    assert IndexOfBroadcastPk(db.broadcasts, 1) == Some(0);
  }
}
