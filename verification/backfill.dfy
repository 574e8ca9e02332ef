/** The producers that ask before they insert, as objects: the one-time archive import of internal/backfill/full.go and
    the safety backfill of internal/backfill/backfill.go. */
module Backfill {
  import opened Types
  import opened Table
  import opened Imports
  import opened Enqueueing
  import S = Store
  import Q = Queue
  import R = RedisLists

  // ----- What an import has done so far -----

  /** The rows inserted, and what has happened to the lists, newest first. */
  datatype Trace = Trace(own: seq<JobId>, log: seq<Entry>)

  const NOTHING := Trace([], [])

  function After(t: Trace, own: Option<JobId>, more: seq<Entry>): Trace {
    Trace(Grown(t.own, own), more + t.log)
  }

  /** Where a run began, the messages it is to import, what the others issue meanwhile, and whether it is alone. */
  datatype Start = Start(db: Db, lists: R.Lists, u: UserId, ids: seq<MessageId>, traffic: Traffic, alone: bool)

  /** The rows are those of an import, and without other producers the only new ones of the user. */
  ghost predicate RowsRight(start: Start, db: Db, ids: set<MessageId>, t: Trace) {
    Imported(start.db, db, start.u, ids, t.own) && (start.alone ==> Sole(start.db, db, start.u, t.own))
  }

  /** A moment before message number n and before poll number i for page number p. */
  predicate Earlier(at: Moment, n: nat, p: nat, i: nat) {
    if at.Poll? then at.p < p || (at.p == p && at.i < i) else at.n < n
  }

  /** The others have acted at each of the moments at most once, and all of them have passed. */
  ghost predicate InOrder(log: seq<Entry>, n: nat, p: nat, i: nat) {
    NoRepeats(Moments(log)) && forall at {:trigger Earlier(at, n, p, i)} :: at in Moments(log) ==> Earlier(at, n, p, i)
  }

  /** The lists are what the log says: our pushes, each for one of the rows, none twice, and what the others have issued at
      moments that have passed, each once. */
  ghost predicate TokensRight(start: Start, lists: R.Lists, n: nat, p: nat, i: nat, t: Trace) {
    && lists == Replay(start.traffic, start.lists, t.log) && PushedFor(Pushes(t.log), t.own)
    && InOrder(t.log, n, p, i)
  }

  /** Without a failing call, each message has a row and each row inserted its token, and without other producers the
      number enqueued is that of the new messages. */
  ghost predicate CountRight(start: Start, db: Db, n: nat, enqueued: nat, t: Trace)
    requires n <= |start.ids|
  {
    && Among(start.ids, n) <= Known(db, start.u)
    && Pushes(t.log) == t.own && |t.own| == enqueued
    && (start.alone ==> enqueued == NewCount(Known(start.db, start.u), start.ids, n))
  }

  datatype Aspect = Rows | Tokens | Count

  ghost predicate Right(a: Aspect, start: Start, db: Db, lists: R.Lists, n: nat, p: nat, i: nat, enqueued: nat, t: Trace)
    requires n <= |start.ids|
  {
    match a
    case Rows => RowsRight(start, db, Among(start.ids, n), t)
    case Tokens => TokensRight(start, lists, n, p, i, t)
    case Count => CountRight(start, db, n, enqueued, t)
  }

  /** The run has dealt with the first n messages and has polled i times for page number p, and no call has failed. */
  ghost predicate Going(start: Start, db: Db, lists: R.Lists, n: nat, p: nat, i: nat, enqueued: nat, t: Trace) {
    n <= |start.ids| && forall a :: Right(a, start, db, lists, n, p, i, enqueued, t)
  }

  /** Every row inserted has its token, except perhaps the last. */
  ghost predicate NearlyAll(own: seq<JobId>, pushes: seq<JobId>) {
    pushes == own || (own != [] && pushes == own[1..])
  }

  /** The others' moments in the log are all different. */
  ghost predicate OnceEach(log: seq<Entry>) {
    NoRepeats(Moments(log))
  }

  /** The run has stopped somewhere. */
  ghost predicate Stopped(start: Start, db: Db, lists: R.Lists, t: Trace) {
    && RowsRight(start, db, Messages(start.ids), t) && NearlyAll(t.own, Pushes(t.log))
    && lists == Replay(start.traffic, start.lists, t.log) && PushedFor(Pushes(t.log), t.own) && OnceEach(t.log)
  }

  lemma GoingFromNothing(start: Start)
    ensures Going(start, start.db, start.lists, 0, 0, 0, 0, NOTHING)
  {
    forall a ensures Right(a, start, start.db, start.lists, 0, 0, 0, 0, NOTHING) {
      NothingYet(start.db, start.u, {});
    }
  }

  lemma RowsWider(start: Start, db: Db, n: nat, t: Trace)
    requires n <= |start.ids| && RowsRight(start, db, Among(start.ids, n), t)
    ensures RowsRight(start, db, Messages(start.ids), t)
  {
    AmongGrows(start.ids, n, |start.ids|);
    assert Carried(db, db);
    OwnStays(start.db, db, db, start.u, Among(start.ids, n), Messages(start.ids), t.own);
  }

  lemma GoingStops(start: Start, db: Db, lists: R.Lists, n: nat, p: nat, i: nat, enqueued: nat, t: Trace)
    requires Going(start, db, lists, n, p, i, enqueued, t)
    ensures Stopped(start, db, lists, t)
  {
    assert Right(Rows, start, db, lists, n, p, i, enqueued, t) && Right(Tokens, start, db, lists, n, p, i, enqueued, t);
    assert Right(Count, start, db, lists, n, p, i, enqueued, t);
    RowsWider(start, db, n, t);
  }

  /** A page's wait is over. */
  lemma NextPageStarts(start: Start, db: Db, lists: R.Lists, n: nat, p: nat, i: nat, enqueued: nat, t: Trace)
    requires Going(start, db, lists, n, p, i, enqueued, t)
    ensures Going(start, db, lists, n, p + 1, 0, enqueued, t)
  {
    var (q, j) := (p + 1, 0);
    forall a ensures Right(a, start, db, lists, n, q, j, enqueued, t) {
      assert Right(a, start, db, lists, n, p, i, enqueued, t);
      if a == Tokens {
        forall at | at in Moments(t.log) ensures Earlier(at, n, q, j) {
          assert Earlier(at, n, p, i);
        }
      }
    }
  }

  // ----- One step of a run -----

  lemma RowsStep(start: Start, db: Db, db': Db, n: nat, t: Trace, own: Option<JobId>, more: seq<Entry>)
    requires n < |start.ids| && RowsRight(start, db, Among(start.ids, n), t)
    requires Stepped(db, db', start.u, start.ids[n], own) && (start.alone ==> Sole(db, db', start.u, Grown([], own)))
    ensures RowsRight(start, db', Among(start.ids, n + 1), After(t, own, more))
  {
    ImportedStep(start.db, db, db', start.u, Among(start.ids, n), t.own, start.ids[n], own);
    if start.alone {
      SoleStep(start.db, db, db', start.u, t.own, own);
    }
  }

  lemma OwnInTable(was: Db, db: Db, u: UserId, ids: set<MessageId>, own: seq<JobId>)
    requires Imported(was, db, u, ids, own)
    ensures forall k :: k in own ==> k in db
  {
    forall k | k in own ensures k in db {
      assert OwnRow(was, db, u, ids, k);
    }
  }

  lemma TurnLogSays(n: nat, wentOn: bool, e: Effect)
    requires e.pushed ==> e.own.Some? && wentOn
    ensures var log := TurnLog(n, wentOn, e);
            && Pushes(log) == (if e.pushed then [e.own.value] else [])
            && Moments(log) == if wentOn then [Between(n), Before(n)] else [Before(n)]
  {
    var one: seq<Entry> := [Theirs(Before(n))];
    var two: seq<Entry> := [Theirs(Between(n)), Theirs(Before(n))];
    assert two[1..] == one;
    assert one[1..] == [];
    assert Moments(one) == [Before(n)] + Moments([]) == [Before(n)];
    assert Moments(two) == [Between(n)] + Moments(one);
    assert Pushes(one) == Pushes([]) == [] && Pushes(two) == Pushes(one);
    if wentOn && e.pushed {
      assert ([Mine(e.own.value)] + two)[1..] == two;
    } else {
      assert [] + two == two;
    }
  }

  /** The others' moments of a message's turn are new. */
  lemma MomentsStep(log: seq<Entry>, n: nat, p: nat, wentOn: bool, e: Effect)
    requires (e.pushed ==> e.own.Some? && wentOn) && InOrder(log, n, p, 0)
    ensures InOrder(TurnLog(n, wentOn, e) + log, n + 1, p, 0)
  {
    TurnLogSays(n, wentOn, e);
    MomentsOn(TurnLog(n, wentOn, e), log);
    var added := Moments(TurnLog(n, wentOn, e));
    forall at | at in Moments(log) ensures at !in added && Earlier(at, n + 1, p, 0) {
      assert Earlier(at, n, p, 0);
    }
    assert [Between(n), Before(n)][1..] == [Before(n)] && [Before(n)][1..] == [];
    assert NoRepeats([Before(n)]) && NoRepeats(added);
    NoRepeatsConcat(added, Moments(log));
  }

  lemma TokensStep(start: Start, db: Db, db': Db, lists: R.Lists, ids: set<MessageId>, t: Trace, n: nat, m: MessageId,
                   wentOn: bool, e: Effect)
    requires RowsRight(start, db, ids, t) && PushedFor(Pushes(t.log), t.own) && (e.pushed ==> e.own.Some? && wentOn)
    requires lists == Replay(start.traffic, start.lists, t.log) && Stepped(db, db', start.u, m, e.own)
    ensures var t' := After(t, e.own, TurnLog(n, wentOn, e));
            && PushedFor(Pushes(t'.log), t'.own)
            && Replay(start.traffic, lists, TurnLog(n, wentOn, e)) == Replay(start.traffic, start.lists, t'.log)
            && Pushes(t'.log) == (if e.pushed then [e.own.value] + Pushes(t.log) else Pushes(t.log))
  {
    OwnInTable(start.db, db, start.u, ids, t.own);
    TurnLogSays(n, wentOn, e);
    PushesOn(TurnLog(n, wentOn, e), t.log);
    PushedMore(Pushes(t.log), t.own, e.own, e.pushed);
    assert [] + Pushes(t.log) == Pushes(t.log);
    ReplayOn(start.traffic, start.lists, TurnLog(n, wentOn, e), t.log);
  }

  lemma CountStep(start: Start, db: Db, db': Db, n: nat, enqueued: nat, t: Trace, e: Effect, log: seq<Entry>)
    requires n < |start.ids| && RowsRight(start, db, Among(start.ids, n), t) && CountRight(start, db, n, enqueued, t)
    requires Stepped(db, db', start.u, start.ids[n], e.own) && start.ids[n] in Known(db', start.u)
    requires start.alone && e.own.None? ==> start.ids[n] in Known(db, start.u)
    requires Pushes(log) == if e.own.Some? then [e.own.value] + Pushes(t.log) else Pushes(t.log)
    ensures CountRight(start, db', n + 1, if e.own.Some? then enqueued + 1 else enqueued, Trace(Grown(t.own, e.own), log))
  {
    KnownStays(db, db', start.u);
    if start.alone {
      KnownStays(start.db, db, start.u);
      KnownBound(start.db, db, start.u, Among(start.ids, n), t.own);
    }
  }

  /** What the turn of a message does: it comes of EnqueueOne. */
  ghost predicate Turned(start: Start, db: Db, db': Db, lists: R.Lists, lists': R.Lists, n: nat, wentOn: bool, e: Effect)
    requires n < |start.ids|
  {
    && Stepped(db, db', start.u, start.ids[n], e.own) && (start.alone ==> Sole(db, db', start.u, Grown([], e.own)))
    && lists' == Replay(start.traffic, lists, TurnLog(n, wentOn, e)) && (e.pushed ==> e.own.Some? && wentOn)
    && (!e.r.Failed? ==> start.ids[n] in Known(db', start.u) && (e.own.Some? <==> e.r.Enqueued?) && (e.own.Some? ==> e.pushed))
    && (start.alone && !e.r.Failed? && e.own.None? ==> start.ids[n] in Known(db, start.u))
  }

  /** One more message, whatever became of it. */
  lemma StoppedStep(start: Start, db: Db, db': Db, lists: R.Lists, lists': R.Lists, n: nat, p: nat, enqueued: nat, t: Trace,
                    wentOn: bool, e: Effect)
    requires n < |start.ids| && Going(start, db, lists, n, p, 0, enqueued, t)
    requires Turned(start, db, db', lists, lists', n, wentOn, e)
    ensures Stopped(start, db', lists', After(t, e.own, TurnLog(n, wentOn, e)))
    ensures RowsRight(start, db', Among(start.ids, n + 1), After(t, e.own, TurnLog(n, wentOn, e)))
    ensures TokensRight(start, lists', n + 1, p, 0, After(t, e.own, TurnLog(n, wentOn, e)))
  {
    var t' := After(t, e.own, TurnLog(n, wentOn, e));
    assert Right(Rows, start, db, lists, n, p, 0, enqueued, t) && Right(Tokens, start, db, lists, n, p, 0, enqueued, t);
    assert Right(Count, start, db, lists, n, p, 0, enqueued, t);
    RowsStep(start, db, db', n, t, e.own, TurnLog(n, wentOn, e));
    RowsWider(start, db', n + 1, t');
    TokensStep(start, db, db', lists, Among(start.ids, n), t, n, start.ids[n], wentOn, e);
    MomentsStep(t.log, n, p, wentOn, e);
    if e.own.Some? {
      assert t'.own[1..] == t.own;
    }
  }

  /** One more message that has a row now, with its token if it is new. */
  lemma GoingStep(start: Start, db: Db, db': Db, lists: R.Lists, lists': R.Lists, n: nat, p: nat, enqueued: nat, t: Trace,
                  wentOn: bool, e: Effect)
    requires n < |start.ids| && Going(start, db, lists, n, p, 0, enqueued, t)
    requires Turned(start, db, db', lists, lists', n, wentOn, e) && !e.r.Failed?
    ensures Going(start, db', lists', n + 1, p, 0, if e.r.Enqueued? then enqueued + 1 else enqueued,
                  After(t, e.own, TurnLog(n, wentOn, e)))
  {
    var (t', next, i) := (After(t, e.own, TurnLog(n, wentOn, e)), n + 1, 0);
    var more := if e.r.Enqueued? then enqueued + 1 else enqueued;
    assert Right(Rows, start, db, lists, n, p, 0, enqueued, t) && Right(Tokens, start, db, lists, n, p, 0, enqueued, t);
    assert Right(Count, start, db, lists, n, p, 0, enqueued, t);
    StoppedStep(start, db, db', lists, lists', n, p, enqueued, t, wentOn, e);
    TokensStep(start, db, db', lists, Among(start.ids, n), t, n, start.ids[n], wentOn, e);
    CountStep(start, db, db', n, enqueued, t, e, t'.log);
    forall a ensures Right(a, start, db', lists', next, p, i, more, t') {
    }
  }

  /** The others act while the run waits. */
  lemma PollStep(start: Start, db: Db, db': Db, lists: R.Lists, n: nat, p: nat, i: nat, enqueued: nat, t: Trace)
    requires Going(start, db, lists, n, p, i, enqueued, t) && Carried(db, db')
    requires start.alone ==> Sole(db, db', start.u, [])
    ensures Going(start, db', PerformAll(lists, start.traffic(Poll(p, i))), n, p, i + 1, enqueued,
                  t.(log := [Theirs(Poll(p, i))] + t.log))
  {
    var (log, lists', j) := ([Theirs(Poll(p, i))] + t.log, PerformAll(lists, start.traffic(Poll(p, i))), i + 1);
    var t' := t.(log := log);
    assert log[1..] == t.log;
    assert Right(Rows, start, db, lists, n, p, i, enqueued, t) && Right(Tokens, start, db, lists, n, p, i, enqueued, t);
    assert Right(Count, start, db, lists, n, p, i, enqueued, t);
    OwnStays(start.db, db, db', start.u, Among(start.ids, n), Among(start.ids, n), t.own);
    KnownStays(db, db', start.u);
    if start.alone {
      SoleStep(start.db, db, db', start.u, t.own, None);
    }
    PollMoments(t.log, n, p, i);
    forall a ensures Right(a, start, db', lists', n, p, j, enqueued, t') {
    }
  }

  lemma PollMoments(log: seq<Entry>, n: nat, p: nat, i: nat)
    requires InOrder(log, n, p, i)
    ensures InOrder([Theirs(Poll(p, i))] + log, n, p, i + 1)
  {
    assert ([Theirs(Poll(p, i))] + log)[1..] == log;
    assert Moments([Theirs(Poll(p, i))] + log) == [Poll(p, i)] + Moments(log);
    assert ([Poll(p, i)] + Moments(log))[1..] == Moments(log);
    forall at | at in Moments(log) ensures at != Poll(p, i) && Earlier(at, n, p, i + 1) {
      assert Earlier(at, n, p, i);
    }
  }

  // ----- The archive import -----

  /** What happens around a run: a clock reading, what the others do to the table and to the lists, the message number at
      which a call fails, and for each page how often the import polls until its context is cancelled, and which poll
      fails. */
  datatype World = World(now: Time, others: Others, traffic: Traffic, fault: Option<(nat, Fault)>,
                         polls: nat -> nat, pollFault: nat -> Option<nat>)

  function FaultAt(world: World, n: nat): Option<Fault> {
    if world.fault.Some? && world.fault.value.0 == n then Some(world.fault.value.1) else None
  }

  predicate Smooth(world: World, pages: nat) {
    world.fault.None? && forall p :: 0 <= p < pages ==> world.pollFault(p).None?
  }

  /** The others add nothing to queue:fetch. */
  ghost predicate NoArrivals(traffic: Traffic) {
    forall at :: Arrivals(traffic(at)) == 0
  }

  lemma {:induction false} NothingArrived(traffic: Traffic, log: seq<Entry>)
    requires NoArrivals(traffic)
    ensures Arrived(traffic, log) == 0
  {
    if log != [] {
      NothingArrived(traffic, log[1..]);
    }
  }

  ghost predicate InWorld(start: Start, u: UserId, world: World) {
    start.u == u && start.traffic == world.traffic && start.alone == Alone(world.others, u)
  }

  /** queue:fetch is no longer than it was and what we and the others have added since. */
  ghost predicate Deeper(traffic: Traffic, was: nat, before: seq<Entry>, depth: nat, after: seq<Entry>, own: nat) {
    Arrived(traffic, before) <= Arrived(traffic, after) && depth + Arrived(traffic, before) <= was + own + Arrived(traffic, after)
  }

  lemma DeeperTurn(traffic: Traffic, ls: R.Lists, n: nat, wentOn: bool, e: Effect, log: seq<Entry>)
    requires e.pushed ==> e.own.Some? && wentOn
    ensures Deeper(traffic, |FetchQueue(ls)|, log, |FetchQueue(Replay(traffic, ls, TurnLog(n, wentOn, e)))|,
                   TurnLog(n, wentOn, e) + log, 1)
  {
    DepthReplay(traffic, ls, TurnLog(n, wentOn, e));
    TurnLogSays(n, wentOn, e);
    ArrivedOn(traffic, TurnLog(n, wentOn, e), log);
  }

  datatype WaitResult = Short | Cancelled | Broken

  /** The lists that poll number i for page number p finds. */
  function Waited(traffic: Traffic, ls: R.Lists, p: nat, i: nat): R.Lists {
    if i == 0 then ls else PerformAll(Waited(traffic, ls, p, i - 1), traffic(Poll(p, i - 1)))
  }

  /** Poll number i for page number p is answered, and queue:fetch is still longer than `max`. */
  predicate StillLong(world: World, ls: R.Lists, p: nat, i: nat, max: nat) {
    world.pollFault(p) != Some(i) && |FetchQueue(Waited(world.traffic, ls, p, i))| > max
  }

  class FullBackfill {
    const store: S.Store
    const queue: Q.Queue
    const maxQueueDepth: int

    constructor (store: S.Store, queue: Q.Queue, maxQueueDepth: int)
      ensures this.store == store && this.queue == queue && this.maxQueueDepth == maxQueueDepth
    {
      this.store, this.queue, this.maxQueueDepth := store, queue, maxQueueDepth;
    }

    function MaxDepth(): (d: nat)
      ensures maxQueueDepth > 0 ==> d == maxQueueDepth
      ensures maxQueueDepth <= 0 ==> d == 500
    {
      if maxQueueDepth <= 0 then 500 else maxQueueDepth
    }

    /** Before page number p, poll until queue:fetch is short enough, a poll fails, or the context is cancelled. */
    method WaitForQueueDepth(p: nat, n: nat, enqueued: nat, world: World, ghost start: Start, ghost before: Trace)
      returns (r: WaitResult, ghost t: Trace, ghost polled: nat)
      requires store.Valid() && queue.Valid() && Civil(world.others) && InWorld(start, start.u, world)
      requires Going(start, store.rows, queue.lists, n, p, 0, enqueued, before)
      modifies store, queue`lists
      ensures store.Valid() && queue.Valid() && Going(start, store.rows, queue.lists, n, p + 1, 0, enqueued, t)
      ensures Deeper(world.traffic, |FetchQueue(old(queue.lists))|, before.log, |FetchQueue(queue.lists)|, t.log, 0)
      ensures polled <= world.polls(p) && queue.lists == Waited(world.traffic, old(queue.lists), p, polled)
      ensures forall i :: 0 <= i < polled ==> StillLong(world, old(queue.lists), p, i, MaxDepth())
      ensures r == if world.pollFault(p) == Some(polled) then Broken
                   else if |FetchQueue(queue.lists)| <= MaxDepth() then Short else Cancelled
      ensures r.Cancelled? ==> polled == world.polls(p)
      ensures world.pollFault(p) != Some(0) && |FetchQueue(old(queue.lists))| <= MaxDepth() ==>
                r.Short? && store.rows == old(store.rows) && queue.lists == old(queue.lists)
    {
      ghost var depth0 := |FetchQueue(queue.lists)|;
      t := before;
      var i := 0;
      while true
        invariant 0 <= i <= world.polls(p) && store.Valid() && queue.Valid()
        invariant Going(start, store.rows, queue.lists, n, p, i, enqueued, t)
        invariant Deeper(world.traffic, depth0, before.log, |FetchQueue(queue.lists)|, t.log, 0)
        invariant i == 0 ==> store.rows == old(store.rows)
        invariant queue.lists == Waited(world.traffic, old(queue.lists), p, i)
        invariant forall k :: 0 <= k < i ==> StillLong(world, old(queue.lists), p, k, MaxDepth())
        decreases world.polls(p) - i
      {
        if world.pollFault(p) == Some(i) {
          r := Broken;
          break;
        }
        var depth := queue.Depth(Fetch);
        if depth <= MaxDepth() {
          r := Short;
          break;
        }
        if i == world.polls(p) {
          r := Cancelled;
          break;
        }
        t := WaitOnce(p, i, n, enqueued, world, start, t, depth0, before.log);
        i := i + 1;
      }
      polled := i;
      assert i > 0 ==> StillLong(world, old(queue.lists), p, 0, MaxDepth());
      NextPageStarts(start, store.rows, queue.lists, n, p, i, enqueued, t);
    }

    /** The time between two polls. */
    method WaitOnce(p: nat, i: nat, n: nat, enqueued: nat, world: World, ghost start: Start, ghost before: Trace,
                    ghost depth0: nat, ghost log0: seq<Entry>)
      returns (ghost t: Trace)
      requires store.Valid() && queue.Valid() && Civil(world.others) && InWorld(start, start.u, world)
      requires Going(start, store.rows, queue.lists, n, p, i, enqueued, before)
      requires Deeper(world.traffic, depth0, log0, |FetchQueue(queue.lists)|, before.log, 0)
      modifies store, queue`lists
      ensures store.Valid() && queue.Valid() && Going(start, store.rows, queue.lists, n, p, i + 1, enqueued, t)
      ensures Deeper(world.traffic, depth0, log0, |FetchQueue(queue.lists)|, t.log, 0)
      ensures queue.lists == PerformAll(old(queue.lists), world.traffic(Poll(p, i)))
    {
      ghost var db, lists := store.rows, queue.lists;
      Interfere(store, queue, Poll(p, i), world.others, world.traffic);
      DepthAfter(lists, world.traffic(Poll(p, i)));
      PollStep(start, db, store.rows, lists, n, p, i, enqueued, before);
      t := before.(log := [Theirs(Poll(p, i))] + before.log);
      assert t.log[1..] == before.log;
    }

    /** Message number n of the whole run. */
    method NextMessage(u: UserId, m: MessageId, n: nat, p: nat, enqueued0: nat, skipped0: nat, world: World,
                       ghost start: Start, ghost before: Trace)
      returns (enqueued: nat, skipped: nat, ok: bool, ghost t: Trace)
      requires store.Valid() && queue.Valid() && Civil(world.others) && InWorld(start, u, world)
      requires Going(start, store.rows, queue.lists, n, p, 0, enqueued0, before) && n < |start.ids| && start.ids[n] == m
      modifies store, queue`lists
      ensures store.Valid() && queue.Valid()
      ensures if ok then Going(start, store.rows, queue.lists, n + 1, p, 0, enqueued, t)
                         && enqueued + skipped == enqueued0 + skipped0 + 1
              else Stopped(start, store.rows, queue.lists, t)
      ensures Deeper(world.traffic, |FetchQueue(old(queue.lists))|, before.log, |FetchQueue(queue.lists)|, t.log, 1)
      ensures FaultAt(world, n).None? ==> ok
    {
      ghost var db, lists, e, asked, seen, id := store.rows, queue.lists, Effect(Failed, None, false), start.db, start.db, 0;
      var r;
      r, e, asked, seen, id := EnqueueOne(store, queue, u, m, world.now, n, world.others, world.traffic, FaultAt(world, n));
      ghost var wentOn := GoesOn(asked, u, m, FaultAt(world, n));
      StoppedStep(start, db, store.rows, lists, queue.lists, n, p, enqueued0, before, wentOn, e);
      DeeperTurn(world.traffic, lists, n, wentOn, e, before.log);
      ok, enqueued, skipped := !r.Failed?, enqueued0, skipped0;
      if ok {
        GoingStep(start, db, store.rows, lists, queue.lists, n, p, enqueued0, before, wentOn, e);
      }
      if r.Enqueued? {
        enqueued := enqueued + 1;
      } else {
        skipped := skipped + 1;
      }
      t := After(before, e.own, TurnLog(n, wentOn, e));
    }

    /** A page of the run: wait, then enqueue its messages one by one. */
    method RunPage(u: UserId, page: seq<MessageId>, p: nat, enqueued0: nat, skipped0: nat, world: World,
                   ghost start: Start, ghost before: Trace)
      returns (enqueued: nat, skipped: nat, ok: bool, ghost t: Trace)
      requires store.Valid() && queue.Valid() && Civil(world.others) && InWorld(start, u, world)
      requires Going(start, store.rows, queue.lists, enqueued0 + skipped0, p, 0, enqueued0, before)
      requires PageAt(start.ids, enqueued0 + skipped0, page)
      modifies store, queue`lists
      ensures store.Valid() && queue.Valid()
      ensures if ok then Going(start, store.rows, queue.lists, enqueued + skipped, p + 1, 0, enqueued, t)
                         && enqueued + skipped == enqueued0 + skipped0 + |page|
              else Stopped(start, store.rows, queue.lists, t)
      ensures Deeper(world.traffic, Max(|FetchQueue(old(queue.lists))|, MaxDepth() + |page|), before.log,
                     |FetchQueue(queue.lists)|, t.log, 0)
      ensures Deeper(world.traffic, |FetchQueue(old(queue.lists))|, before.log, |FetchQueue(queue.lists)|, t.log, |page|)
      ensures |FetchQueue(old(queue.lists))| <= MaxDepth() && world.pollFault(p).None? && world.fault.None? ==> ok
      ensures !ok && world.pollFault(p).None? && world.fault.None? ==> |FetchQueue(queue.lists)| > MaxDepth()
    {
      var waited;
      ghost var polled;
      waited, t, polled := WaitForQueueDepth(p, enqueued0 + skipped0, enqueued0, world, start, before);
      ok := waited.Short?;
      if ok {
        enqueued, skipped, ok, t := EnqueuePage(u, page, p + 1, enqueued0, skipped0, world, start, t);
      } else {
        GoingStops(start, store.rows, queue.lists, enqueued0 + skipped0, p + 1, 0, enqueued0, t);
        enqueued, skipped := enqueued0, skipped0;
      }
    }

    method EnqueuePage(u: UserId, page: seq<MessageId>, p: nat, enqueued0: nat, skipped0: nat, world: World,
                       ghost start: Start, ghost before: Trace)
      returns (enqueued: nat, skipped: nat, ok: bool, ghost t: Trace)
      requires store.Valid() && queue.Valid() && Civil(world.others) && InWorld(start, u, world)
      requires Going(start, store.rows, queue.lists, enqueued0 + skipped0, p, 0, enqueued0, before)
      requires PageAt(start.ids, enqueued0 + skipped0, page)
      modifies store, queue`lists
      ensures store.Valid() && queue.Valid()
      ensures if ok then Going(start, store.rows, queue.lists, enqueued + skipped, p, 0, enqueued, t)
                         && enqueued + skipped == enqueued0 + skipped0 + |page|
              else Stopped(start, store.rows, queue.lists, t)
      ensures Deeper(world.traffic, |FetchQueue(old(queue.lists))|, before.log, |FetchQueue(queue.lists)|, t.log, |page|)
      ensures world.fault.None? ==> ok
    {
      ghost var base, depth0 := enqueued0 + skipped0, |FetchQueue(queue.lists)|;
      enqueued, skipped, ok, t := enqueued0, skipped0, true, before;
      var i := 0;
      while i < |page|
        invariant 0 <= i <= |page| && store.Valid() && queue.Valid() && ok
        invariant enqueued + skipped == base + i && Going(start, store.rows, queue.lists, base + i, p, 0, enqueued, t)
        invariant Deeper(world.traffic, depth0, before.log, |FetchQueue(queue.lists)|, t.log, i)
      {
        enqueued, skipped, ok, t := NextMessage(u, page[i], enqueued + skipped, p, enqueued, skipped, world, start, t);
        if !ok {
          return;
        }
        i := i + 1;
      }
    }

    /** Look the user up, then go through all pages of the listing, which may break off with an error at its end. */
    method RunFull(user: Option<UserId>, pages: seq<seq<MessageId>>, listed: bool, world: World)
      returns (enqueued: nat, skipped: nat, ok: bool, ghost t: Trace)
      requires store.Valid() && queue.Valid() && Civil(world.others)
      modifies store, queue`lists
      ensures store.Valid() && queue.Valid()
      ensures user.None? ==> !ok && store.rows == old(store.rows) && queue.lists == old(queue.lists)
      ensures user.Some? ==>
                && Imported(old(store.rows), store.rows, user.value, Messages(Flat(pages)), t.own)
                && (Alone(world.others, user.value) ==> Sole(old(store.rows), store.rows, user.value, t.own))
                && queue.lists == Replay(world.traffic, old(queue.lists), t.log) && OnceEach(t.log)
                && PushedFor(Pushes(t.log), t.own) && NearlyAll(t.own, Pushes(t.log))
      ensures ok ==>
                && user.Some? && listed && enqueued + skipped == |Flat(pages)|
                && Messages(Flat(pages)) <= Known(store.rows, user.value)
                && Pushes(t.log) == t.own && |t.own| == enqueued
                && (Alone(world.others, user.value) ==>
                      enqueued == |Messages(Flat(pages)) - Known(old(store.rows), user.value)|)
      ensures |FetchQueue(queue.lists)|
              <= Max(|FetchQueue(old(queue.lists))|, MaxDepth() + LargestPage(pages)) + Arrived(world.traffic, t.log)
      ensures user.Some? && listed && Smooth(world, |pages|) && Roomy(old(queue.lists), pages, world) ==> ok
      ensures user.Some? && listed && Smooth(world, |pages|) && !ok ==> |FetchQueue(queue.lists)| > MaxDepth()
    {
      if user.None? {
        return 0, 0, false, NOTHING;
      }
      ghost var start := Start(store.rows, queue.lists, user.value, Flat(pages), world.traffic,
                               Alone(world.others, user.value));
      enqueued, skipped, ok, t := RunPages(user.value, pages, world, start);
      if ok {
        assert Right(Count, start, store.rows, queue.lists, |start.ids|, |pages|, 0, enqueued, t);
        NewCountCounts(Known(start.db, start.u), start.ids, |start.ids|);
      }
      ok := ok && listed;
    }

    /** There is room in queue:fetch for everything. */
    ghost predicate Roomy(lists: R.Lists, pages: seq<seq<MessageId>>, world: World) {
      NoArrivals(world.traffic) && |FetchQueue(lists)| + |Flat(pages)| <= MaxDepth()
    }

    /** The callback of ListAllPages, page after page. */
    method RunPages(u: UserId, pages: seq<seq<MessageId>>, world: World, ghost start: Start)
      returns (enqueued: nat, skipped: nat, ok: bool, ghost t: Trace)
      requires store.Valid() && queue.Valid() && Civil(world.others) && InWorld(start, u, world)
      requires start.db == store.rows && start.lists == queue.lists && start.ids == Flat(pages)
      modifies store, queue`lists
      ensures store.Valid() && queue.Valid() && Stopped(start, store.rows, queue.lists, t)
      ensures ok ==> enqueued + skipped == |start.ids|
                     && Going(start, store.rows, queue.lists, |start.ids|, |pages|, 0, enqueued, t)
      ensures |FetchQueue(queue.lists)|
              <= Max(|FetchQueue(start.lists)|, MaxDepth() + LargestPage(pages)) + Arrived(world.traffic, t.log)
      ensures Smooth(world, |pages|) && Roomy(start.lists, pages, world) ==> ok
      ensures Smooth(world, |pages|) && !ok ==> |FetchQueue(queue.lists)| > MaxDepth()
    {
      enqueued, skipped, ok, t := 0, 0, true, NOTHING;
      GoingFromNothing(start);
      var p := 0;
      while p < |pages|
        invariant 0 <= p <= |pages| && store.Valid() && queue.Valid() && ok
        invariant Paged(start, pages, p, store.rows, queue.lists, enqueued, skipped, t)
      {
        enqueued, skipped, ok, t := NextPage(u, pages, p, enqueued, skipped, world, start, t);
        if !ok {
          return;
        }
        p := p + 1;
      }
      GoingStops(start, store.rows, queue.lists, |start.ids|, |pages|, 0, enqueued, t);
    }

    /** The first p pages are done. */
    ghost predicate Paged(start: Start, pages: seq<seq<MessageId>>, p: nat, db: Db, lists: R.Lists,
                          enqueued: nat, skipped: nat, t: Trace)
      requires p <= |pages|
    {
      && enqueued + skipped == |FlatTo(pages, p)|
      && Going(start, db, lists, enqueued + skipped, p, 0, enqueued, t)
      && Deeper(start.traffic, Max(|FetchQueue(start.lists)|, MaxDepth() + LargestPage(pages)), [], |FetchQueue(lists)|, t.log, 0)
      && Deeper(start.traffic, |FetchQueue(start.lists)|, [], |FetchQueue(lists)|, t.log, |FlatTo(pages, p)|)
    }

    method NextPage(u: UserId, pages: seq<seq<MessageId>>, p: nat, enqueued0: nat, skipped0: nat, world: World,
                    ghost start: Start, ghost before: Trace)
      returns (enqueued: nat, skipped: nat, ok: bool, ghost t: Trace)
      requires store.Valid() && queue.Valid() && Civil(world.others) && InWorld(start, u, world)
      requires p < |pages| && start.ids == Flat(pages)
      requires Paged(start, pages, p, store.rows, queue.lists, enqueued0, skipped0, before)
      modifies store, queue`lists
      ensures store.Valid() && queue.Valid()
      ensures ok ==> Paged(start, pages, p + 1, store.rows, queue.lists, enqueued, skipped, t)
      ensures !ok ==> Stopped(start, store.rows, queue.lists, t)
      ensures |FetchQueue(queue.lists)|
              <= Max(|FetchQueue(start.lists)|, MaxDepth() + LargestPage(pages)) + Arrived(world.traffic, t.log)
      ensures Roomy(start.lists, pages, world) && world.pollFault(p).None? && world.fault.None? ==> ok
      ensures !ok && world.pollFault(p).None? && world.fault.None? ==> |FetchQueue(queue.lists)| > MaxDepth()
    {
      PageInFlat(pages, p);
      if NoArrivals(world.traffic) {
        NothingArrived(world.traffic, before.log);
      }
      enqueued, skipped, ok, t := RunPage(u, pages[p], p, enqueued0, skipped0, world, start, before);
    }
  }

  function Max(a: nat, b: nat): nat {
    if a < b then b else a
  }

  /** The page lies in the list of all messages, starting at `base`. */
  predicate PageAt(ids: seq<MessageId>, base: nat, page: seq<MessageId>) {
    base + |page| <= |ids| && forall i :: 0 <= i < |page| ==> ids[base + i] == page[i]
  }

  lemma PageInFlat(pages: seq<seq<MessageId>>, p: nat)
    requires p < |pages|
    ensures |pages[p]| <= LargestPage(pages)
    ensures PageAt(Flat(pages), |FlatTo(pages, p)|, pages[p]) && |FlatTo(pages, p + 1)| == |FlatTo(pages, p)| + |pages[p]|
  {
    LargestIs(pages, |pages|);
    FlatGrows(pages, p + 1, |pages|);
    forall i | 0 <= i < |pages[p]| ensures Flat(pages)[|FlatTo(pages, p)| + i] == pages[p][i] {
      FlatAt(pages, p, |pages|, i);
    }
  }

  // ----- The safety backfill -----

  /** The messages among the first i for which no call fails. */
  function Reached(ids: seq<MessageId>, faults: nat -> Option<Fault>, i: nat): (r: set<MessageId>)
    requires i <= |ids|
    ensures forall k :: 0 <= k < i && faults(k).None? ==> ids[k] in r
  {
    if i == 0 then {}
    else Reached(ids, faults, i - 1) + (if faults(i - 1).None? then {ids[i - 1]} else {})
  }

  /** The messages among the first i for which some call fails. */
  function Failing(ids: seq<MessageId>, faults: nat -> Option<Fault>, i: nat): (r: set<MessageId>)
    requires i <= |ids|
    ensures forall m :: m in r ==> exists k :: 0 <= k < i && ids[k] == m && faults(k).Some?
  {
    if i == 0 then {}
    else Failing(ids, faults, i - 1) + (if faults(i - 1).Some? then {ids[i - 1]} else {})
  }

  predicate HasToken(db: Db, pushes: seq<JobId>, failing: set<MessageId>, k: JobId) {
    k in pushes || (k in db && db[k].message.Some? && db[k].message.value in failing)
  }

  /** Every row inserted has its token, unless some call about its message failed. */
  ghost predicate AllTokens(db: Db, own: seq<JobId>, pushes: seq<JobId>, failing: set<MessageId>) {
    forall k {:trigger HasToken(db, pushes, failing, k)} :: k in own ==> HasToken(db, pushes, failing, k)
  }

  predicate Faultless(faults: nat -> Option<Fault>, n: nat) {
    forall i :: 0 <= i < n ==> faults(i).None?
  }

  /** The first n messages have had their turn. The count is right as long as no call has failed. */
  ghost predicate Heard(start: Start, faults: nat -> Option<Fault>, db: Db, lists: R.Lists, n: nat,
                        enqueued: nat, skipped: nat, t: Trace)
    requires n <= |start.ids|
  {
    && RowsRight(start, db, Among(start.ids, n), t) && TokensRight(start, lists, n, 0, 0, t)
    && AllTokens(db, t.own, Pushes(t.log), Failing(start.ids, faults, n))
    && Reached(start.ids, faults, n) <= Known(db, start.u)
    && enqueued + skipped <= n
    && (Faultless(faults, n) ==> CountRight(start, db, n, enqueued, t) && (start.alone ==> enqueued + skipped == n))
  }

  lemma AllTokensStep(start: Start, faults: nat -> Option<Fault>, db: Db, db': Db, n: nat, t: Trace, e: Effect,
                      pushes: seq<JobId>)
    requires n < |start.ids| && Imported(start.db, db, start.u, Among(start.ids, n), t.own)
    requires AllTokens(db, t.own, Pushes(t.log), Failing(start.ids, faults, n))
    requires Stepped(db, db', start.u, start.ids[n], e.own) && (e.own.Some? && !e.pushed ==> faults(n).Some?)
    requires (e.pushed ==> e.own.Some?) && pushes == if e.pushed then [e.own.value] + Pushes(t.log) else Pushes(t.log)
    ensures AllTokens(db', Grown(t.own, e.own), pushes, Failing(start.ids, faults, n + 1))
  {
    var failing := Failing(start.ids, faults, n + 1);
    forall k | k in Grown(t.own, e.own) ensures HasToken(db', pushes, failing, k) {
      if k in t.own {
        assert HasToken(db, Pushes(t.log), Failing(start.ids, faults, n), k) && Traced(db, db', k);
      }
    }
  }

  lemma HeardStep(start: Start, faults: nat -> Option<Fault>, db: Db, db': Db, lists: R.Lists, lists': R.Lists, n: nat,
                  enqueued: nat, skipped: nat, t: Trace, wentOn: bool, e: Effect)
    requires n < |start.ids| && Heard(start, faults, db, lists, n, enqueued, skipped, t)
    requires Turned(start, db, db', lists, lists', n, wentOn, e)
    requires (e.own.Some? && !e.pushed) || e.r.Failed? ==> faults(n).Some?
    requires start.alone ==> !e.r.Raced?
    ensures Heard(start, faults, db', lists', n + 1, if e.r.Enqueued? then enqueued + 1 else enqueued,
                  if e.r.Skipped? then skipped + 1 else skipped, After(t, e.own, TurnLog(n, wentOn, e)))
  {
    KnownStays(db, db', start.u);
    RowsStep(start, db, db', n, t, e.own, TurnLog(n, wentOn, e));
    TokensStep(start, db, db', lists, Among(start.ids, n), t, n, start.ids[n], wentOn, e);
    MomentsStep(t.log, n, 0, wentOn, e);
    var t' := After(t, e.own, TurnLog(n, wentOn, e));
    AllTokensStep(start, faults, db, db', n, t, e, Pushes(t'.log));
    if Faultless(faults, n + 1) {
      assert Faultless(faults, n);
      CountStep(start, db, db', n, enqueued, t, e, t'.log);
    }
  }

  /** If the others leave the lists alone, our tokens are all that has come. */
  lemma {:induction false} SilentReplay(traffic: Traffic, ls: R.Lists, log: seq<Entry>, k: R.Key)
    requires forall at :: traffic(at) == []
    ensures R.At(Replay(traffic, ls, log), k)
            == if k == R.Pending(Fetch) then TokensOf(Pushes(log)) + R.At(ls, k) else R.At(ls, k)
  {
    if log == [] {
      assert TokensOf([]) + R.At(ls, k) == R.At(ls, k);
    } else {
      SilentReplay(traffic, ls, log[1..], k);
      if log[0].Mine? {
        TokensMore(Pushes(log[1..]), log[0].id);
        assert [Uuid(log[0].id)] + (TokensOf(Pushes(log[1..])) + R.At(ls, k)) == TokensOf(Pushes(log)) + R.At(ls, k);
      }
    }
  }

  class SafetyBackfill {
    const store: S.Store
    const queue: Q.Queue

    constructor (store: S.Store, queue: Q.Queue)
      ensures this.store == store && this.queue == queue
    {
      this.store, this.queue := store, queue;
    }

    /** Every recent message gets its turn whatever happened to the ones before it. */
    method RunUser(u: UserId, ids: seq<MessageId>, now: Time, others: Others, traffic: Traffic, faults: nat -> Option<Fault>)
      returns (enqueued: nat, skipped: nat, ghost t: Trace)
      requires store.Valid() && queue.Valid() && Civil(others)
      modifies store, queue`lists
      ensures store.Valid() && queue.Valid()
      ensures Imported(old(store.rows), store.rows, u, Messages(ids), t.own)
      ensures Alone(others, u) ==> Sole(old(store.rows), store.rows, u, t.own)
      ensures queue.lists == Replay(traffic, old(queue.lists), t.log) && OnceEach(t.log)
      ensures PushedFor(Pushes(t.log), t.own) && AllTokens(store.rows, t.own, Pushes(t.log), Failing(ids, faults, |ids|))
      ensures Reached(ids, faults, |ids|) <= Known(store.rows, u)
      ensures enqueued + skipped <= |ids|
      ensures Faultless(faults, |ids|) ==>
                && Messages(ids) <= Known(store.rows, u) && Pushes(t.log) == t.own && |t.own| == enqueued
                && (Alone(others, u) ==> && enqueued + skipped == |ids|
                                         && enqueued == |Messages(ids) - Known(old(store.rows), u)|)
    {
      ghost var start := Start(store.rows, queue.lists, u, ids, traffic, Alone(others, u));
      enqueued, skipped, t := RunTurns(u, ids, now, others, traffic, faults, start);
      NewCountCounts(Known(start.db, u), ids, |ids|);
    }

    /** The loop over the messages. */
    method RunTurns(u: UserId, ids: seq<MessageId>, now: Time, others: Others, traffic: Traffic,
                    faults: nat -> Option<Fault>, ghost start: Start)
      returns (enqueued: nat, skipped: nat, ghost t: Trace)
      requires store.Valid() && queue.Valid() && Civil(others)
      requires start == Start(store.rows, queue.lists, u, ids, traffic, Alone(others, u))
      modifies store, queue`lists
      ensures store.Valid() && queue.Valid()
      ensures Heard(start, faults, store.rows, queue.lists, |ids|, enqueued, skipped, t)
    {
      enqueued, skipped, t := 0, 0, NOTHING;
      NothingYet(start.db, u, {});
      var i := 0;
      while i < |ids|
        invariant 0 <= i <= |ids| && store.Valid() && queue.Valid()
        invariant Heard(start, faults, store.rows, queue.lists, i, enqueued, skipped, t)
      {
        enqueued, skipped, t := Turn(u, ids, i, enqueued, skipped, now, others, traffic, faults, start, t);
        i := i + 1;
      }
    }

    method Turn(u: UserId, ids: seq<MessageId>, i: nat, enqueued0: nat, skipped0: nat, now: Time, others: Others,
                traffic: Traffic, faults: nat -> Option<Fault>, ghost start: Start, ghost before: Trace)
      returns (enqueued: nat, skipped: nat, ghost t: Trace)
      requires store.Valid() && queue.Valid() && Civil(others) && i < |ids|
      requires start.u == u && start.ids == ids && start.traffic == traffic && start.alone == Alone(others, u)
      requires Heard(start, faults, store.rows, queue.lists, i, enqueued0, skipped0, before)
      modifies store, queue`lists
      ensures store.Valid() && queue.Valid()
      ensures Heard(start, faults, store.rows, queue.lists, i + 1, enqueued, skipped, t)
    {
      ghost var db, lists, e, asked, seen, id := store.rows, queue.lists, Effect(Failed, None, false), start.db, start.db, 0;
      var r;
      r, e, asked, seen, id := EnqueueOne(store, queue, u, ids[i], now, i, others, traffic, faults(i));
      ghost var wentOn := GoesOn(asked, u, ids[i], faults(i));
      HeardStep(start, faults, db, store.rows, lists, queue.lists, i, enqueued0, skipped0, before, wentOn, e);
      enqueued, skipped, t := enqueued0, skipped0, After(before, e.own, TurnLog(i, wentOn, e));
      if r.Enqueued? {
        enqueued := enqueued + 1;
      } else if r.Skipped? {
        skipped := skipped + 1;
      }
    }
  }
}
