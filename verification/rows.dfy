/** What every run keeps about the job table, with no hypothesis on heartbeats, replies or Redis. */
module Rows {
  import opened Types
  import opened Table
  import opened Protocol

  /** Attempts stay below the maximum exactly while a row is live, and only running rows have an owner. */
  predicate RowOk(j: Job) {
    && j.maxAttempts >= 1
    && (j.status in {Queued, Running} ==> j.attempts < j.maxAttempts)
    && (j.status == Dead ==> j.attempts >= j.maxAttempts)
    && (j.status == Running ==> j.worker.Some?)
    && (j.status == Queued ==> j.worker.None?)
  }

  ghost predicate TableOk(db: Db) {
    Wellformed(db) && forall k :: k in db ==> RowOk(db[k])
  }

  lemma SaveKeepsTable(db: Db, id: JobId, j: Job)
    requires TableOk(db) && j.id == id && RowOk(j)
    ensures TableOk(Save(db, id, j).db)
  {
    SaveKeepsWellformed(db, id, j);
  }

  lemma StatementKeepsTable(db: Db, t: Statement, net: Reply)
    requires TableOk(db)
    ensures TableOk(Sent(db, Execute(db, t), net).db)
  {
    match t
    case EnqueueRow(id, nj, now) => SaveKeepsTable(db, id, NewRow(id, nj, now));
    case ClaimFor(id, w) =>
      if id in db && db[id].status == Queued { SaveKeepsTable(db, id, db[id].(status := Running, worker := Some(w))); }
    case FinishRow(id) => if id in db { SaveKeepsTable(db, id, db[id].(status := Done)); }
    case FailRow(id, message, nextRunAt) =>
      if id in db { SaveKeepsTable(db, id, AfterFailure(db[id], message, nextRunAt)); }
    case AdvanceRow(id, next) =>
      if id in db && db[id].status == Running {
        SaveKeepsTable(db, id, db[id].(stage := next, status := Queued, worker := None));
      }
    case NoStatement =>
  }

  lemma {:induction false} TableOkInRun(h: Hypotheses, s: State, events: seq<Event>)
    requires TableOk(s.db) && Run(h, s, events)
    ensures TableOk(Exec(s, events).db)
    decreases |events|
  {
    if events != [] {
      StatementKeepsTable(s.db, StatementOf(s, events[0]), ReplyOf(events[0]));
      TableOkInRun(h, Apply(s, events[0]), events[1..]);
    }
  }

  predicate LiveFor(db: Db, id: JobId, u: UserId, m: MessageId) {
    && id in db && db[id].status in {Queued, Running} && !db[id].synthetic
    && db[id].user == Some(u) && db[id].message == Some(m)
  }

  /** In every run, late settles, lost replies and wiped Redis included, each row satisfies RowOk
      and at most one live mail row exists per user and message, however the producers interleave. */
  lemma ReachableRows(h: Hypotheses, s: State, events: seq<Event>)
    requires Init(s) && Run(h, s, events)
    ensures var db := Exec(s, events).db;
            && (forall k :: k in db ==> RowOk(db[k]))
            && (forall k, l, u, m :: LiveFor(db, k, u, m) && LiveFor(db, l, u, m) ==> k == l)
  {
    TableOkInRun(h, s, events);
    UniqueMeans(Exec(s, events).db);
  }

  lemma UniqueMeans(db: Db)
    requires UniqueLive(db)
    ensures forall k, l, u, m :: LiveFor(db, k, u, m) && LiveFor(db, l, u, m) ==> k == l
  {
  }
}
