/** The scheduler's poll: it inserts without asking first, and the unique index refuses what has a live row. */
module SchedulerPoll {
  import opened Types
  import opened Table
  import opened Imports
  import opened Enqueueing
  import S = Store
  import Q = Queue
  import R = RedisLists

  /** What happens around a poll: a clock reading, what the others do before each insert, and which calls fail. */
  datatype World = World(now: Time, others: Others, traffic: Traffic, faults: nat -> Option<Fault>)

  /** The table, the bound on the IDs drawn, and the lists. */
  datatype Stores = Stores(db: Db, nextId: JobId, lists: R.Lists)

  /** Before the insert for message number n the others act. */
  function Disturbed(s: Stores, world: World, n: nat): Stores {
    var (db, nextId) := world.others(Before(n), s.db, s.nextId);
    Stores(db, nextId, PerformAll(s.lists, world.traffic(Before(n))))
  }

  /** One insert without asking first, and the push if the insert is known to have happened; an ID is drawn either way. */
  function Offered(s: Stores, u: UserId, m: MessageId, now: Time, fault: Option<Fault>): Stores {
    Stores(
      if fault == Some(InsertRefused) then s.db else Enqueue(s.db, s.nextId, MailJob(u, m), now).db,
      s.nextId + 1,
      if PushHappens(s.db, s.nextId, u, m, now, fault) then R.Push(s.lists, Fetch, Uuid(s.nextId)) else s.lists)
  }

  predicate PushHappens(db: Db, id: JobId, u: UserId, m: MessageId, now: Time, fault: Option<Fault>) {
    && InsertReply(fault).Answered? && !PushReply(fault).Refused?
    && Enqueue(db, id, MailJob(u, m), now).error.None?
  }

  /** After the first n messages of a poll. */
  function Polled(s: Stores, u: UserId, ids: seq<MessageId>, world: World, n: nat): Stores
    requires n <= |ids|
  {
    if n == 0 then s
    else
      var before := Disturbed(Polled(s, u, ids, world, n - 1), world, n - 1);
      Offered(before, u, ids[n - 1], world.now, world.faults(n - 1))
  }

  ghost predicate Intact(s: Stores) {
    Sound(s.db, s.nextId)
  }

  lemma DisturbedIntact(s: Stores, world: World, n: nat)
    requires Intact(s) && Civil(world.others)
    ensures Intact(Disturbed(s, world, n)) && Carried(s.db, Disturbed(s, world, n).db)
  {
    assert Behaves(world.others, Before(n), s.db, s.nextId);
  }

  lemma OfferedIntact(s: Stores, u: UserId, m: MessageId, now: Time, fault: Option<Fault>)
    requires Intact(s)
    ensures Intact(Offered(s, u, m, now, fault))
  {
    SaveKeepsWellformed(s.db, s.nextId, NewRow(s.nextId, MailJob(u, m), now));
  }

  lemma {:induction false} PolledIntact(s: Stores, u: UserId, ids: seq<MessageId>, world: World, n: nat)
    requires Intact(s) && Civil(world.others) && n <= |ids|
    ensures Intact(Polled(s, u, ids, world, n))
  {
    if n > 0 {
      var before := Polled(s, u, ids, world, n - 1);
      PolledIntact(s, u, ids, world, n - 1);
      DisturbedIntact(before, world, n - 1);
      OfferedIntact(Disturbed(before, world, n - 1), u, ids[n - 1], world.now, world.faults(n - 1));
    }
  }

  // ----- What a poll achieves -----

  /** Right after its offer a message has a live row, unless the insert was refused. */
  lemma OfferExactly(s: Stores, u: UserId, offered: MessageId, now: Time, fault: Option<Fault>, m: MessageId)
    requires Intact(s)
    ensures LiveRow(Offered(s, u, offered, now, fault).db, u, m)
            <==> LiveRow(s.db, u, m) || (m == offered && fault != Some(InsertRefused))
  {
    InsertOutcome(s.db, s.nextId, u, offered, now);
    var row := NewRow(s.nextId, MailJob(u, offered), now);
    var after := s.db[s.nextId := row];
    assert after[s.nextId] == row && Indexed(row);
    if k :| k in s.db && Indexed(s.db[k]) && s.db[k].user == Some(u) && s.db[k].message == Some(m) {
      assert after[k] == s.db[k];
    }
  }

  /** It is known from then on. */
  lemma OfferKnown(s: Stores, u: UserId, offered: MessageId, now: Time, fault: Option<Fault>, m: MessageId)
    requires Intact(s)
    ensures m in Known(Offered(s, u, offered, now, fault).db, u)
            <==> m in Known(s.db, u) || (m == offered && fault != Some(InsertRefused))
  {
    InsertOutcome(s.db, s.nextId, u, offered, now);
    var row := NewRow(s.nextId, MailJob(u, offered), now);
    var after := s.db[s.nextId := row];
    forall k | k in s.db ensures k in after && after[k] == s.db[k] {
    }
    if m in Known(s.db, u) {
      var k :| k in s.db && s.db[k].user == Some(u) && s.db[k].message == Some(m);
      KnownRow(after, u, k);
    }
    KnownRow(after, u, s.nextId);
    if LiveRow(s.db, u, offered) {
      LiveIsKnown(s.db, u, offered);
    }
  }

  /** Some insert for the message was not refused. */
  ghost predicate WasOffered(ids: seq<MessageId>, world: World, m: MessageId, n: nat)
    requires n <= |ids|
  {
    exists i :: 0 <= i < n && ids[i] == m && world.faults(i) != Some(InsertRefused)
  }

  predicate Comes(s: Stores, u: UserId, ids: seq<MessageId>, world: World, m: MessageId, i: nat)
    requires i < |ids|
  {
    var before := Polled(s, u, ids, world, i);
    m !in Known(before.db, u) && m in Known(Disturbed(before, world, i).db, u)
  }

  /** Another producer has inserted the message during the poll. */
  ghost predicate CameOtherwise(s: Stores, u: UserId, ids: seq<MessageId>, world: World, m: MessageId, n: nat)
    requires n <= |ids|
  {
    exists i :: 0 <= i < n && Comes(s, u, ids, world, m, i)
  }

  /** A message has a row after the poll exactly when it had one, or some insert for it was not refused, or another producer
      has inserted it. A saved cursor moves past it either way: a refused insert loses the message unless another producer
      finds it. */
  lemma {:induction false} PolledExactly(s: Stores, u: UserId, ids: seq<MessageId>, world: World, m: MessageId, n: nat)
    requires Intact(s) && Civil(world.others) && n <= |ids|
    ensures m in Known(Polled(s, u, ids, world, n).db, u)
            <==> m in Known(s.db, u) || WasOffered(ids, world, m, n) || CameOtherwise(s, u, ids, world, m, n)
  {
    if n > 0 {
      var before := Polled(s, u, ids, world, n - 1);
      PolledIntact(s, u, ids, world, n - 1);
      PolledExactly(s, u, ids, world, m, n - 1);
      DisturbedIntact(before, world, n - 1);
      KnownStays(before.db, Disturbed(before, world, n - 1).db, u);
      OfferKnown(Disturbed(before, world, n - 1), u, ids[n - 1], world.now, world.faults(n - 1), m);
      if Comes(s, u, ids, world, m, n - 1) {
        assert CameOtherwise(s, u, ids, world, m, n);
      }
    }
  }

  /** The others neither insert nor end a row of the message during the poll. */
  ghost predicate LeaveAlone(s: Stores, u: UserId, ids: seq<MessageId>, world: World, m: MessageId, n: nat)
    requires n <= |ids|
  {
    forall i :: 0 <= i < n ==> LeavesAlone(s, u, ids, world, m, i)
  }

  predicate LeavesAlone(s: Stores, u: UserId, ids: seq<MessageId>, world: World, m: MessageId, i: nat)
    requires i < |ids|
  {
    var before := Polled(s, u, ids, world, i);
    LiveRow(Disturbed(before, world, i).db, u, m) == LiveRow(before.db, u, m)
  }

  /** Then it has a live row after the poll exactly when it had one or some insert for it was not refused. */
  lemma {:induction false} PolledLive(s: Stores, u: UserId, ids: seq<MessageId>, world: World, m: MessageId, n: nat)
    requires Intact(s) && Civil(world.others) && n <= |ids| && LeaveAlone(s, u, ids, world, m, n)
    ensures LiveRow(Polled(s, u, ids, world, n).db, u, m) <==> LiveRow(s.db, u, m) || WasOffered(ids, world, m, n)
  {
    if n > 0 {
      var before := Polled(s, u, ids, world, n - 1);
      assert LeavesAlone(s, u, ids, world, m, n - 1);
      PolledIntact(s, u, ids, world, n - 1);
      PolledLive(s, u, ids, world, m, n - 1);
      DisturbedIntact(before, world, n - 1);
      OfferExactly(Disturbed(before, world, n - 1), u, ids[n - 1], world.now, world.faults(n - 1), m);
    }
  }

  // ----- What a poll does to the lists -----

  /** The ID that the offer of message number i draws. */
  function IdAt(s: Stores, u: UserId, ids: seq<MessageId>, world: World, i: nat): JobId
    requires i < |ids|
  {
    Disturbed(Polled(s, u, ids, world, i), world, i).nextId
  }

  /** Message number i had no live row when it was offered, the answer to its insert came, and its push got through. */
  predicate GoesToFetch(s: Stores, u: UserId, ids: seq<MessageId>, world: World, i: nat)
    requires i < |ids|
  {
    && world.faults(i) !in {Some(InsertRefused), Some(InsertLost), Some(PushRefused)}
    && !LiveRow(Disturbed(Polled(s, u, ids, world, i), world, i).db, u, ids[i])
  }

  /** The rows of these messages, newest first. */
  function SentToFetch(s: Stores, u: UserId, ids: seq<MessageId>, world: World, n: nat): seq<JobId>
    requires n <= |ids|
  {
    if n == 0 then []
    else (if GoesToFetch(s, u, ids, world, n - 1) then [IdAt(s, u, ids, world, n - 1)] else [])
         + SentToFetch(s, u, ids, world, n - 1)
  }

  /** One offer: at most one token, in front of queue:fetch, of a row that was not there before and is queued for fetch. */
  lemma OfferedLists(s: Stores, u: UserId, m: MessageId, now: Time, fault: Option<Fault>)
    requires Intact(s)
    ensures var (t, pushed) := (Offered(s, u, m, now, fault),
                                fault !in {Some(InsertRefused), Some(InsertLost), Some(PushRefused)} && !LiveRow(s.db, u, m));
            && (forall k :: R.At(t.lists, k)
                            == (if pushed && k == R.Pending(Fetch) then [Uuid(s.nextId)] else []) + R.At(s.lists, k))
            && (pushed ==> s.nextId !in s.db && s.nextId in t.db && t.db[s.nextId].stage == Fetch
                           && t.db[s.nextId].status == Queued
                           && t.db[s.nextId].user == Some(u) && t.db[s.nextId].message == Some(m))
  {
    InsertOutcome(s.db, s.nextId, u, m, now);
  }

  /** If the others leave the lists alone, a poll makes queue:fetch longer at its head by exactly these tokens, newest first,
      and changes no other list. */
  lemma {:induction false} PolledLists(s: Stores, u: UserId, ids: seq<MessageId>, world: World, n: nat, k: R.Key)
    requires Intact(s) && Civil(world.others) && n <= |ids| && forall at :: world.traffic(at) == []
    ensures R.At(Polled(s, u, ids, world, n).lists, k)
            == (if k == R.Pending(Fetch) then TokensOf(SentToFetch(s, u, ids, world, n)) else []) + R.At(s.lists, k)
  {
    if n == 0 {
      assert TokensOf([]) + R.At(s.lists, k) == [] + R.At(s.lists, k) == R.At(s.lists, k);
    } else {
      var before := Polled(s, u, ids, world, n - 1);
      PolledLists(s, u, ids, world, n - 1, k);
      PolledIntact(s, u, ids, world, n - 1);
      DisturbedIntact(before, world, n - 1);
      OfferedLists(Disturbed(before, world, n - 1), u, ids[n - 1], world.now, world.faults(n - 1));
      OneMoreToken(SentToFetch(s, u, ids, world, n - 1), IdAt(s, u, ids, world, n - 1), R.At(s.lists, k));
    }
  }

  lemma OneMoreToken(sent: seq<JobId>, id: JobId, rest: seq<Token>)
    ensures [Uuid(id)] + (TokensOf(sent) + rest) == TokensOf([id] + sent) + rest
    ensures [] + sent == sent && [] + (TokensOf(sent) + rest) == TokensOf(sent) + rest && [] + ([] + rest) == [] + rest
  {
    TokensMore(sent, id);
  }

  class Scheduler {
    const store: S.Store
    const queue: Q.Queue
    /** gmail_sync_state; a user without a row has the empty cursor. */
    var cursors: map<UserId, string>

    constructor (store: S.Store, queue: Q.Queue)
      ensures this.store == store && this.queue == queue && cursors == map[]
    {
      this.store, this.queue, cursors := store, queue, map[];
    }

    function Cursor(u: UserId): string
      reads this`cursors
    {
      if u in cursors then cursors[u] else ""
    }

    method SaveCursor(u: UserId, cursor: string, net: Reply) returns (ok: bool)
      modifies this`cursors
      ensures ok == net.Answered? && cursors == if net.Refused? then old(cursors) else old(cursors)[u := cursor]
    {
      if !net.Refused? {
        cursors := cursors[u := cursor];
      }
      ok := net.Answered?;
    }

    function Now(): Stores
      reads store, queue
    {
      Stores(store.rows, store.nextId, queue.lists)
    }

    /** The first poll only records where the mailbox stands. Later ones offer every new message, log what fails,
        and save the new cursor regardless. `current` and `history` are Gmail's answers, `load` and `save` how the calls
        about the cursor end. */
    method PollUser(u: UserId, current: Option<string>, history: Option<(seq<MessageId>, string)>, world: World,
                    load: Reply, save: Reply) returns (ok: bool)
      requires store.Valid() && queue.Valid() && Civil(world.others)
      modifies this`cursors, store, queue`lists
      ensures store.Valid() && queue.Valid()
      ensures var first := old(Cursor(u)) == "";
              var heard := load.Answered? && (if first then current.Some? else history.Some?);
              && (ok <==> heard && save.Answered?)
              && cursors == (if heard && !save.Refused?
                             then old(cursors)[u := if first then current.value else history.value.1] else old(cursors))
              && Now() == if !first && heard then Polled(old(Now()), u, history.value.0, world, |history.value.0|) else old(Now())
    {
      if !load.Answered? {
        return false;
      }
      if Cursor(u) == "" {
        if current.None? {
          return false;
        }
        ok := SaveCursor(u, current.value, save);
        return;
      }
      if history.None? {
        return false;
      }
      OfferAll(u, history.value.0, world);
      ok := SaveCursor(u, history.value.1, save);
    }

    method OfferAll(u: UserId, ids: seq<MessageId>, world: World)
      requires store.Valid() && queue.Valid() && Civil(world.others)
      modifies store, queue`lists
      ensures store.Valid() && queue.Valid() && Now() == Polled(old(Now()), u, ids, world, |ids|)
    {
      ghost var was := Now();
      var i := 0;
      while i < |ids|
        invariant 0 <= i <= |ids| && store.Valid() && queue.Valid() && Now() == Polled(was, u, ids, world, i)
      {
        Offer(u, ids[i], i, world);
        i := i + 1;
      }
    }

    /** Insert and push; every failure is logged and passed over. */
    method Offer(u: UserId, m: MessageId, i: nat, world: World)
      requires store.Valid() && queue.Valid() && Civil(world.others)
      modifies store, queue`lists
      ensures store.Valid() && queue.Valid()
      ensures Now() == Offered(Disturbed(old(Now()), world, i), u, m, world.now, world.faults(i))
    {
      Interfere(store, queue, Before(i), world.others, world.traffic);
      ghost var before := Now();
      assert before == Disturbed(old(Now()), world, i);
      var job := store.EnqueueJob(MailJob(u, m), world.now, InsertReply(world.faults(i)));
      if job.Ok? {
        var pushed := queue.Push(Fetch, Uuid(job.value.id), PushReply(world.faults(i)));
      }
    }
  }
}
