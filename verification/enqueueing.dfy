/** What a producer does about one message while all other processes go on. */
module Enqueueing {
  import opened Types
  import opened Table
  import opened Imports
  import S = Store
  import Q = Queue
  import R = RedisLists

  // ----- Everybody else -----

  /** The moments at which others act during a producer's run: before the check of message number n, between that check
      and what follows it, and before poll number i of the wait for page number p. What happens between an insert and its
      push can as well happen around the two. */
  datatype Moment = Before(n: nat) | Between(n: nat) | Poll(p: nat, i: nat)

  /** What all other processes do to the table at a moment: the new rows, and the new bound on the IDs drawn. */
  type Others = (Moment, Db, JobId) -> (Db, JobId)

  /** The list commands that they issue: pushes, pops, acks and reclaims of any kind. */
  type Traffic = Moment -> seq<R.Command>

  ghost predicate Sound(db: Db, nextId: JobId) {
    Wellformed(db) && forall k :: k in db ==> k < nextId
  }

  ghost predicate Behaves(others: Others, at: Moment, db: Db, nextId: JobId) {
    var (db', nextId') := others(at, db, nextId);
    Sound(db, nextId) ==> Sound(db', nextId') && Carried(db, db')
  }

  /** The others insert and change rows under the constraints of the table, and neither delete rows nor change what
      a row is for. */
  ghost predicate Civil(others: Others) {
    forall at, db, nextId :: Behaves(others, at, db, nextId)
  }

  ghost predicate Abstains(others: Others, u: UserId, at: Moment, db: Db, nextId: JobId) {
    Sound(db, nextId) ==> Sole(db, others(at, db, nextId).0, u, [])
  }

  /** No other producer works for this user. Workers and the sweeper may do what they like to its rows. */
  ghost predicate Alone(others: Others, u: UserId) {
    forall at, db, nextId :: Abstains(others, u, at, db, nextId)
  }

  function PerformAll(ls: R.Lists, commands: seq<R.Command>): R.Lists {
    if commands == [] then ls else R.Perform(PerformAll(ls, commands[..|commands| - 1]), commands[|commands| - 1])
  }

  lemma {:induction false} PerformAllKeepsKeys(ls: R.Lists, commands: seq<R.Command>)
    requires R.NoEmptyList(ls)
    ensures R.NoEmptyList(PerformAll(ls, commands))
  {
    if commands != [] {
      PerformAllKeepsKeys(ls, commands[..|commands| - 1]);
      R.PerformKeepsKeys(PerformAll(ls, commands[..|commands| - 1]), commands[|commands| - 1]);
    }
  }

  /** The others act. */
  method Interfere(store: S.Store, queue: Q.Queue, at: Moment, others: Others, traffic: Traffic)
    requires store.Valid() && queue.Valid() && Civil(others)
    modifies store, queue`lists
    ensures store.Valid() && queue.Valid() && queue.lists == PerformAll(old(queue.lists), traffic(at))
    ensures (store.rows, store.nextId) == others(at, old(store.rows), old(store.nextId))
    ensures Carried(old(store.rows), store.rows)
    ensures forall u :: Alone(others, u) ==> Sole(old(store.rows), store.rows, u, [])
  {
    assert Behaves(others, at, store.rows, store.nextId);
    assert forall u :: Alone(others, u) ==> Abstains(others, u, at, store.rows, store.nextId);
    PerformAllKeepsKeys(queue.lists, traffic(at));
    var (rows, nextId) := others(at, store.rows, store.nextId);
    store.rows, store.nextId := rows, nextId;
    queue.lists := PerformAll(queue.lists, traffic(at));
  }

  // ----- What has happened to the lists -----

  /** A push of our own, or the commands of the others at a moment. */
  datatype Entry = Mine(id: JobId) | Theirs(at: Moment)

  /** The lists after all this, the newest entry first. */
  function Replay(traffic: Traffic, ls: R.Lists, log: seq<Entry>): R.Lists {
    if log == [] then ls
    else
      match log[0]
      case Mine(id) => R.Push(Replay(traffic, ls, log[1..]), Fetch, Uuid(id))
      case Theirs(at) => PerformAll(Replay(traffic, ls, log[1..]), traffic(at))
  }

  lemma {:induction false} ReplayOn(traffic: Traffic, ls: R.Lists, more: seq<Entry>, log: seq<Entry>)
    ensures Replay(traffic, ls, more + log) == Replay(traffic, Replay(traffic, ls, log), more)
  {
    if more == [] {
      assert more + log == log;
    } else {
      assert (more + log)[0] == more[0] && (more + log)[1..] == more[1..] + log;
      ReplayOn(traffic, ls, more[1..], log);
    }
  }

  /** The rows whose tokens we have pushed, the newest first. */
  function Pushes(log: seq<Entry>): seq<JobId> {
    if log == [] then []
    else if log[0].Mine? then [log[0].id] + Pushes(log[1..]) else Pushes(log[1..])
  }

  lemma {:induction false} PushesOn(more: seq<Entry>, log: seq<Entry>)
    ensures Pushes(more + log) == Pushes(more) + Pushes(log)
  {
    if more == [] {
      assert more + log == log;
    } else {
      assert (more + log)[0] == more[0] && (more + log)[1..] == more[1..] + log;
      PushesOn(more[1..], log);
    }
  }

  function Moments(log: seq<Entry>): seq<Moment> {
    if log == [] then []
    else if log[0].Theirs? then [log[0].at] + Moments(log[1..]) else Moments(log[1..])
  }

  lemma {:induction false} MomentsOn(more: seq<Entry>, log: seq<Entry>)
    ensures Moments(more + log) == Moments(more) + Moments(log)
  {
    if more == [] {
      assert more + log == log;
    } else {
      assert (more + log)[0] == more[0] && (more + log)[1..] == more[1..] + log;
      MomentsOn(more[1..], log);
    }
  }

  // ----- How long queue:fetch can get -----

  function FetchQueue(ls: R.Lists): seq<Token> {
    R.At(ls, R.Pending(Fetch))
  }

  /** A push to queue:fetch, or a move back to it. */
  predicate Lengthens(c: R.Command) {
    (c.PushTo? || c.ReclaimFrom?) && c.stage == Fetch
  }

  function Arrivals(commands: seq<R.Command>): nat {
    if commands == [] then 0
    else Arrivals(commands[..|commands| - 1]) + if Lengthens(commands[|commands| - 1]) then 1 else 0
  }

  /** What the others may have added to queue:fetch. */
  function Arrived(traffic: Traffic, log: seq<Entry>): nat {
    if log == [] then 0
    else Arrived(traffic, log[1..]) + if log[0].Theirs? then Arrivals(traffic(log[0].at)) else 0
  }

  lemma {:induction false} ArrivedOn(traffic: Traffic, more: seq<Entry>, log: seq<Entry>)
    ensures Arrived(traffic, more + log) == Arrived(traffic, more) + Arrived(traffic, log)
  {
    if more == [] {
      assert more + log == log;
    } else {
      assert (more + log)[0] == more[0] && (more + log)[1..] == more[1..] + log;
      ArrivedOn(traffic, more[1..], log);
    }
  }

  lemma {:induction false} DepthAfter(ls: R.Lists, commands: seq<R.Command>)
    ensures |FetchQueue(PerformAll(ls, commands))| <= |FetchQueue(ls)| + Arrivals(commands)
  {
    if commands != [] {
      DepthAfter(ls, commands[..|commands| - 1]);
      OneDeeper(PerformAll(ls, commands[..|commands| - 1]), commands[|commands| - 1]);
    }
  }

  lemma OneDeeper(ls: R.Lists, c: R.Command)
    ensures |FetchQueue(R.Perform(ls, c))| <= |FetchQueue(ls)| + if Lengthens(c) then 1 else 0
  {
  }

  lemma {:induction false} DepthReplay(traffic: Traffic, ls: R.Lists, log: seq<Entry>)
    ensures |FetchQueue(Replay(traffic, ls, log))| <= |FetchQueue(ls)| + |Pushes(log)| + Arrived(traffic, log)
  {
    if log != [] {
      DepthReplay(traffic, ls, log[1..]);
      if log[0].Theirs? {
        DepthAfter(Replay(traffic, ls, log[1..]), traffic(log[0].at));
      }
    }
  }

  // ----- One message -----

  /** Which call about a message fails, and whether it took effect. A crash between two calls is the next one refused. */
  datatype Fault = CheckFails | InsertRefused | InsertLost | PushRefused | PushLost

  function InsertReply(fault: Option<Fault>): Reply {
    if fault == Some(InsertRefused) then Refused else if fault == Some(InsertLost) then Lost else Answered
  }

  function PushReply(fault: Option<Fault>): Reply {
    if fault == Some(PushRefused) then Refused else if fault == Some(PushLost) then Lost else Answered
  }

  /** `Raced` is the unique index refusing a message that was unknown a moment before. */
  datatype Outcome = Enqueued | Skipped | Raced | Failed

  /** What comes of a message: `own` is the row inserted, if any, and `pushed` whether its token was pushed. */
  datatype Effect = Effect(r: Outcome, own: Option<JobId>, pushed: bool)

  /** Insert and push, into the table `seen`. */
  function InsertEffect(seen: Db, id: JobId, u: UserId, m: MessageId, fault: Option<Fault>): Effect {
    var own := if !InsertReply(fault).Refused? && !LiveRow(seen, u, m) then Some(id) else None;
    if InsertReply(fault).Answered? && LiveRow(seen, u, m) then Effect(Raced, None, false)
    else if !InsertReply(fault).Answered? then Effect(Failed, own, false)
    else Effect(if PushReply(fault).Answered? then Enqueued else Failed, own, !PushReply(fault).Refused?)
  }

  /** Check, insert and push: the check reads the table `asked`, the insert finds the table `seen`. */
  function EnqueueEffect(asked: Db, seen: Db, id: JobId, u: UserId, m: MessageId, fault: Option<Fault>): Effect {
    if fault == Some(CheckFails) then Effect(Failed, None, false)
    else if HasJobFor(asked, u, m) then Effect(Skipped, None, false)
    else InsertEffect(seen, id, u, m, fault)
  }

  predicate GoesOn(asked: Db, u: UserId, m: MessageId, fault: Option<Fault>) {
    fault != Some(CheckFails) && !HasJobFor(asked, u, m)
  }

  /** What happens to the lists in the turn of message number n. */
  function TurnLog(n: nat, wentOn: bool, e: Effect): seq<Entry> {
    if !wentOn then [Theirs(Before(n))]
    else (if e.pushed && e.own.Some? then [Mine(e.own.value)] else []) + [Theirs(Between(n)), Theirs(Before(n))]
  }

  function WithRow(db: Db, own: Option<JobId>, u: UserId, m: MessageId, now: Time): Db {
    if own.Some? then db[own.value := NewRow(own.value, MailJob(u, m), now)] else db
  }

  /** What both backfills do about one message: check, insert, push. The others act before the check, which reads the
      table `asked`, and again before the insert, which finds the table `seen`. */
  method EnqueueOne(store: S.Store, queue: Q.Queue, u: UserId, m: MessageId, now: Time, n: nat, others: Others,
                    traffic: Traffic, fault: Option<Fault>)
    returns (r: Outcome, ghost e: Effect, ghost asked: Db, ghost seen: Db, ghost id: JobId)
    requires store.Valid() && queue.Valid() && Civil(others)
    modifies store, queue`lists
    ensures store.Valid() && queue.Valid() && r == e.r
    ensures e == EnqueueEffect(asked, seen, id, u, m, fault) && store.rows == WithRow(seen, e.own, u, m, now) && id !in seen
    ensures asked == others(Before(n), old(store.rows), old(store.nextId)).0
    ensures seen == if GoesOn(asked, u, m, fault)
                    then others(Between(n), asked, others(Before(n), old(store.rows), old(store.nextId)).1).0 else asked
    ensures r.Skipped? <==> fault != Some(CheckFails) && HasJobFor(asked, u, m)
    ensures r.Raced? <==> GoesOn(asked, u, m, fault) && fault !in {Some(InsertRefused), Some(InsertLost)} && !AllEnded(seen, u, m)
    ensures r.Enqueued? <==>
              GoesOn(asked, u, m, fault) && AllEnded(seen, u, m)
              && fault !in {Some(InsertRefused), Some(InsertLost), Some(PushRefused), Some(PushLost)}
    ensures queue.lists == Replay(traffic, old(queue.lists), TurnLog(n, GoesOn(asked, u, m, fault), e))
    ensures Stepped(old(store.rows), store.rows, u, m, e.own) && (!r.Failed? ==> m in Known(store.rows, u))
    ensures e.own.Some? ==> AllEnded(seen, u, m) && (TwoRows(store.rows, u, m) <==> HasJobFor(seen, u, m))
    ensures Alone(others, u) ==> Sole(old(store.rows), store.rows, u, Grown([], e.own)) && !r.Raced?
    ensures Alone(others, u) && m !in Known(old(store.rows), u) ==> r.Enqueued? || r.Failed?
  {
    ghost var start, lists := store.rows, queue.lists;
    Interfere(store, queue, Before(n), others, traffic);
    asked, seen, id := store.rows, store.rows, store.nextId;
    KnownStays(start, asked, u);
    ReplayTurn(traffic, lists, n);
    if fault == Some(CheckFails) {
      r, e := Failed, Effect(Failed, None, false);
      return;
    }
    var has := store.HasJobForMessage(u, m);
    KnownMeans(asked, u, m);
    if has {
      if Alone(others, u) {
        NoneAdded(start, asked, u);
      }
      r, e := Skipped, Effect(Skipped, None, false);
      return;
    }
    Interfere(store, queue, Between(n), others, traffic);
    seen, id := store.rows, store.nextId;
    r, e := InsertAndPush(store, queue, u, m, now, fault);
    ReplayPush(traffic, lists, n, e);
    InsertedStep(start, asked, seen, store.rows, u, m, now, e.own);
    if Alone(others, u) {
      AloneStep(start, asked, seen, store.rows, u, m, now, e.own);
    }
  }

  /** The insert and the push. */
  method InsertAndPush(store: S.Store, queue: Q.Queue, u: UserId, m: MessageId, now: Time, fault: Option<Fault>)
    returns (r: Outcome, ghost e: Effect)
    requires store.Valid() && queue.Valid()
    modifies store, queue`lists
    ensures store.Valid() && queue.Valid() && r == e.r && !r.Skipped?
    ensures e == InsertEffect(old(store.rows), old(store.nextId), u, m, fault) && (e.pushed ==> e.own.Some?)
    ensures Inserted(old(store.rows), store.rows, u, m, now, e.own) && store.rows == WithRow(old(store.rows), e.own, u, m, now)
    ensures queue.lists == if e.pushed then R.Push(old(queue.lists), Fetch, Uuid(e.own.value)) else old(queue.lists)
    ensures !r.Failed? ==> m in Known(store.rows, u)
  {
    ghost var seen, id := store.rows, store.nextId;
    e := InsertEffect(seen, id, u, m, fault);
    InsertOutcome(seen, id, u, m, now);
    KnownMeans(seen, u, m);
    var job := store.EnqueueJob(MailJob(u, m), now, InsertReply(fault));
    if e.own.Some? {
      KnownRow(store.rows, u, id);
    }
    if job == S.Err(Duplicate) {
      r := Raced;
      return;
    }
    if job.Err? {
      r := Failed;
      return;
    }
    var ok := queue.Push(Fetch, Uuid(job.value.id), PushReply(fault));
    r := if ok then Enqueued else Failed;
  }

  lemma ReplayTurn(traffic: Traffic, ls: R.Lists, n: nat)
    ensures Replay(traffic, ls, [Theirs(Before(n))]) == PerformAll(ls, traffic(Before(n)))
    ensures Replay(traffic, ls, [Theirs(Between(n)), Theirs(Before(n))])
            == PerformAll(PerformAll(ls, traffic(Before(n))), traffic(Between(n)))
  {
    assert [Theirs(Before(n))][1..] == [] && [Theirs(Between(n)), Theirs(Before(n))][1..] == [Theirs(Before(n))];
  }

  lemma ReplayPush(traffic: Traffic, ls: R.Lists, n: nat, e: Effect)
    requires e.pushed ==> e.own.Some?
    ensures var after := Replay(traffic, ls, [Theirs(Between(n)), Theirs(Before(n))]);
            Replay(traffic, ls, TurnLog(n, true, e)) == if e.pushed then R.Push(after, Fetch, Uuid(e.own.value)) else after
  {
    var two := [Theirs(Between(n)), Theirs(Before(n))];
    assert [] + two == two;
    if e.pushed {
      assert ([Mine(e.own.value)] + two)[1..] == two;
    }
  }

  /** At most one row is added, and one only if every row of the message has ended. */
  predicate Inserted(seen: Db, db: Db, u: UserId, m: MessageId, now: Time, own: Option<JobId>) {
    if own.Some? then
      own.value !in seen && db == seen[own.value := NewRow(own.value, MailJob(u, m), now)] && AllEnded(seen, u, m)
    else db == seen
  }

  /** From the start of a message's turn to its insert. */
  lemma InsertedStep(start: Db, asked: Db, seen: Db, db: Db, u: UserId, m: MessageId, now: Time, own: Option<JobId>)
    requires Carried(start, asked) && Carried(asked, seen) && m !in Known(asked, u) && Inserted(seen, db, u, m, now, own)
    ensures Stepped(start, db, u, m, own) && m !in Known(start, u)
    ensures own.Some? ==> (TwoRows(db, u, m) <==> HasJobFor(seen, u, m))
  {
    CarriedTransitive(start, asked, seen);
    KnownStays(start, asked, u);
    forall k ensures Traced(start, db, k) {
      assert Traced(start, seen, k);
    }
    if own.Some? {
      var id := own.value;
      assert Traced(start, seen, id);
      InsertOutcome(seen, id, u, m, now);
      SecondRowExactly(seen, id, u, m, now);
    }
  }

  /** Without other producers the insert is not refused. */
  lemma AloneStep(start: Db, asked: Db, seen: Db, db: Db, u: UserId, m: MessageId, now: Time, own: Option<JobId>)
    requires Carried(asked, seen) && m !in Known(asked, u) && Inserted(seen, db, u, m, now, own)
    requires Sole(start, asked, u, []) && Sole(asked, seen, u, [])
    ensures Sole(start, db, u, Grown([], own)) && !LiveRow(seen, u, m)
  {
    SoleTwice(start, asked, seen, u, [], []);
    forall k ensures Ours(start, db, u, Grown([], own), k) {
      assert Ours(start, seen, u, [] + [], k);
    }
    NoneAdded(asked, seen, u);
    if LiveRow(seen, u, m) {
      LiveIsKnown(seen, u, m);
      assert false;
    }
  }
}
