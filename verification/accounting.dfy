/** Where every claim of a job went: a failure, an advance, its completion, or the attempt in progress. */
module Accounting {
  import opened Types
  import opened Table
  import opened Protocol
  import opened Rows
  import opened FailStop
  import opened Mutex

  function One(b: bool): nat {
    if b then 1 else 0
  }

  /** The claims a row's present state accounts for, advances aside. */
  function Uses(db: Db, id: JobId): nat {
    if id !in db then 0
    else db[id].attempts + One(db[id].status == Done) + One(db[id].status == Running)
  }

  /** A row never fails more often than it may, and a completed row had an attempt left to use. */
  predicate Spent(db: Db, id: JobId) {
    id in db ==> db[id].attempts + One(db[id].status == Done) <= db[id].maxAttempts
  }

  ghost predicate Balanced(s: State, id: JobId) {
    s.log.claims[id] == Uses(s.db, id) + s.log.advances[id]
  }

  /** Some worker has claimed `id` and not yet read the row. */
  ghost predicate Unread(workers: map<WorkerId, Worker>, id: JobId) {
    exists w :: w in workers && workers[w].pc == Claimed(id)
  }

  ghost predicate Invoked(s: State, id: JobId) {
    s.log.invocations[id] + One(Unread(s.workers, id)) <= s.log.claims[id]
  }

  ghost predicate Accounts(s: State) {
    forall id :: Balanced(s, id) && Invoked(s, id) && Spent(s.db, id)
  }

  /** A claim adds one use, an advance takes one back, and a failure or completion turns the running one into a lasting one. */
  lemma StatementUses(db: Db, t: Statement, id: JobId)
    requires TableOk(db)
    requires t.FinishRow? || t.FailRow? || t.AdvanceRow? ==> t.id in db && db[t.id].status == Running
    requires t.EnqueueRow? ==> t.id !in db
    requires Spent(db, id)
    ensures var w := Execute(db, t);
            && Uses(w.db, id) + One(t.AdvanceRow? && t.id == id && w.error.None?)
               == Uses(db, id) + One(t.ClaimFor? && t.id == id && w.error.None?)
            && Spent(w.db, id)
  {
    match t
    case NoStatement =>
    case EnqueueRow(_, _, _) =>
    case ClaimFor(_, _) =>
    case FinishRow(_) =>
    case FailRow(_, _, _) =>
    case AdvanceRow(_, _) =>
  }

  /** What the log records of a step, as the statement's effect. */
  lemma LogStep(s: State, e: Event, id: JobId)
    requires H3(e)
    ensures var t, ok := StatementOf(s, e), Execute(s.db, StatementOf(s, e)).error.None? && ReplyOf(e).Answered?;
            && Apply(s, e).log.claims[id] == s.log.claims[id] + One(t.ClaimFor? && t.id == id && ok)
            && Apply(s, e).log.advances[id] == s.log.advances[id] + One(t.AdvanceRow? && t.id == id && ok)
  {
  }

  lemma SettleIsOfRunning(s: State, e: Event)
    requires Exclusive(s) && Enabled(s, e)
    ensures var t := StatementOf(s, e);
            && (t.FinishRow? || t.FailRow? || t.AdvanceRow? ==> t.id in s.db && s.db[t.id].status == Running)
            && (t.EnqueueRow? ==> t.id !in s.db)
  {
  }

  lemma BalanceStep(s: State, e: Event, id: JobId)
    requires Exclusive(s) && Enabled(s, e) && H3(e) && Balanced(s, id) && Spent(s.db, id)
    ensures Balanced(Apply(s, e), id) && Spent(Apply(s, e).db, id)
  {
    SettleIsOfRunning(s, e);
    StatementUses(s.db, StatementOf(s, e), id);
    LogStep(s, e, id);
  }

  lemma NewReader(s: State, e: Event, id: JobId)
    requires Enabled(s, e) && H3(e) && Unread(Apply(s, e).workers, id) && !Unread(s.workers, id)
    ensures StatementOf(s, e).ClaimFor? && StatementOf(s, e).id == id
    ensures Execute(s.db, StatementOf(s, e)).error.None? && ReplyOf(e).Answered?
    ensures Apply(s, e).log.invocations == s.log.invocations
  {
    var w :| w in Apply(s, e).workers && Apply(s, e).workers[w].pc == Claimed(id);
    assert e.OnWorker? && e.worker == w && e.action.ClaimRow?;
  }

  /** The one unread claim of `id` is used up when its handler starts. */
  lemma Reading(s: State, e: Event, id: JobId)
    requires Exclusive(s) && Enabled(s, e) && Apply(s, e).log.invocations[id] != s.log.invocations[id]
    ensures Apply(s, e).log.invocations[id] == s.log.invocations[id] + 1
    ensures Unread(s.workers, id) && !Unread(Apply(s, e).workers, id)
  {
    var w := e.worker;
    assert s.workers[w].pc == Claimed(id);
    assert forall v :: v in s.workers && s.workers[v].pc == Claimed(id) ==> Owns(s.db, v, id) && v == w;
  }

  lemma InvokedStep(s: State, e: Event, id: JobId)
    requires Exclusive(s) && Enabled(s, e) && H3(e) && Invoked(s, id)
    ensures Invoked(Apply(s, e), id)
  {
    LogStep(s, e, id);
    if Unread(Apply(s, e).workers, id) && !Unread(s.workers, id) {
      NewReader(s, e, id);
    }
    if Apply(s, e).log.invocations[id] != s.log.invocations[id] {
      Reading(s, e, id);
    }
  }

  lemma {:induction false} AccountsInRun(h: Hypotheses, s: State, events: seq<Event>)
    requires Exclusive(s) && Accounts(s) && Run(h, s, events) && h.timing && h.replies
    ensures Exclusive(Exec(s, events)) && Accounts(Exec(s, events))
    decreases |events|
  {
    if events != [] {
      var s' := Apply(s, events[0]);
      ExclusiveStep(h, s, events[0]);
      forall id
        ensures Balanced(s', id) && Invoked(s', id) && Spent(s'.db, id)
      {
        BalanceStep(s, events[0], id);
        InvokedStep(s, events[0], id);
      }
      AccountsInRun(h, s', events[1..]);
    }
  }

  lemma InitAccounts(s: State)
    requires Init(s)
    ensures Accounts(s)
  {
  }

  /** In every reachable state, claims = attempts + advances + (1 if done) + (1 if running), and the handler ran
      at most max_attempts + advances times, sweeper revivals included. */
  lemma ClaimAccounting(h: Hypotheses, s: State, events: seq<Event>, id: JobId)
    requires Init(s) && Run(h, s, events) && h.timing && h.replies
    requires id in Exec(s, events).db
    ensures var t := Exec(s, events);
            var j := t.db[id];
            && t.log.claims[id] == j.attempts + t.log.advances[id] + One(j.status == Done) + One(j.status == Running)
            && t.log.invocations[id] <= t.log.claims[id] <= j.maxAttempts + t.log.advances[id]
  {
    InitIsExclusive(s);
    InitAccounts(s);
    AccountsInRun(h, s, events);
    var t := Exec(s, events);
    assert Balanced(t, id) && Invoked(t, id) && Spent(t.db, id);
    assert RowOk(t.db[id]);
  }
}
