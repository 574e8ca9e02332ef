/** What a row says is what has happened to it: each column of a row, read off the writes about the job. */
module History {
  import opened Types
  import opened Table
  import opened Protocol
  import opened Rows

  // ----- The writes about one job -----

  function IdOf(t: Statement): Option<JobId> {
    match t
    case NoStatement => None
    case EnqueueRow(id, _, _) => Some(id)
    case ClaimFor(id, _) => Some(id)
    case FinishRow(id) => Some(id)
    case FailRow(id, _, _) => Some(id)
    case AdvanceRow(id, _) => Some(id)
  }

  /** The step writes the row of the job, whatever answer its caller gets. */
  predicate WritesRow(s: State, e: Event, id: JobId) {
    Effective(s, e) && IdOf(StatementOf(s, e)) == Some(id)
  }

  /** The statements of a run that have written the row, in order. */
  function Writes(s: State, events: seq<Event>, id: JobId): seq<Statement>
    decreases |events|
  {
    if events == [] then [] else Write(s, events[0], id) + Writes(Apply(s, events[0]), events[1..], id)
  }

  function Write(s: State, e: Event, id: JobId): seq<Statement> {
    if WritesRow(s, e, id) then [StatementOf(s, e)] else []
  }

  // ----- What they amount to, from the last one back -----

  predicate IsFailure(t: Statement) {
    t.FailRow?
  }

  predicate IsAdvance(t: Statement) {
    t.AdvanceRow?
  }

  predicate SetsOwner(t: Statement) {
    t.ClaimFor? || t.AdvanceRow? || t.FailRow?
  }

  function Failures(ws: seq<Statement>): nat {
    if ws == [] then 0 else Failures(ws[..|ws| - 1]) + (if IsFailure(ws[|ws| - 1]) then 1 else 0)
  }

  /** The last of these writes that is of the kind. */
  function Latest(ws: seq<Statement>, kind: Statement -> bool): (r: Option<Statement>)
    ensures r.Some? ==> r.value in ws && kind(r.value)
  {
    if ws == [] then None
    else if kind(ws[|ws| - 1]) then Some(ws[|ws| - 1])
    else Latest(ws[..|ws| - 1], kind)
  }

  /** The status of a row that began as `j` after these writes. */
  function StatusAfter(j: Job, ws: seq<Statement>): Status {
    if ws == [] then j.status else
    match ws[|ws| - 1]
    case ClaimFor(_, _) => Running
    case FinishRow(_) => Done
    case FailRow(_, _, _) => if j.attempts + Failures(ws) < j.maxAttempts then Queued else Dead
    case AdvanceRow(_, _) => Queued
    case _ => j.status
  }

  predicate StageFits(j: Job, ws: seq<Statement>, stage: Stage) {
    match Latest(ws, IsAdvance)
    case Some(AdvanceRow(_, next)) => stage == next
    case _ => stage == j.stage
  }

  /** Last error and retry time are those of the last failure. */
  predicate ErrorFits(j: Job, ws: seq<Statement>, lastError: Option<string>, nextRunAt: Time) {
    match Latest(ws, IsFailure)
    case Some(FailRow(_, message, at)) => lastError == Some(message) && nextRunAt == at
    case _ => lastError == j.lastError && nextRunAt == j.nextRunAt
  }

  /** The owner is the last to have claimed the row, unless it has been handed on or has failed since. */
  predicate OwnerFits(j: Job, ws: seq<Statement>, worker: Option<WorkerId>) {
    match Latest(ws, SetsOwner)
    case Some(ClaimFor(_, w)) => worker == Some(w)
    case Some(_) => worker == None
    case None => worker == j.worker
  }

  /** What never changes. */
  predicate SameJob(j: Job, j': Job) {
    && j'.id == j.id && j'.user == j.user && j'.message == j.message && j'.synthetic == j.synthetic
    && j'.maxAttempts == j.maxAttempts && j'.createdAt == j.createdAt
  }

  predicate FromWrites(j: Job, ws: seq<Statement>, j': Job) {
    && SameJob(j, j') && j'.attempts == j.attempts + Failures(ws) && j'.status == StatusAfter(j, ws)
    && StageFits(j, ws, j'.stage) && ErrorFits(j, ws, j'.lastError, j'.nextRunAt) && OwnerFits(j, ws, j'.worker)
  }

  /** Claims are of queued rows and advances of running ones; a failure or a completion may come at any time. */
  predicate InPlace(status: Status, t: Statement) {
    (t.ClaimFor? ==> status == Queued) && (t.AdvanceRow? ==> status == Running)
  }

  predicate InPlaceAt(j: Job, ws: seq<Statement>, i: nat)
    requires i < |ws|
  {
    InPlace(StatusAfter(j, ws[..i]), ws[i])
  }

  ghost predicate AllInPlace(j: Job, ws: seq<Statement>) {
    forall i :: 0 <= i < |ws| ==> InPlaceAt(j, ws, i)
  }

  // ----- One more write -----

  lemma OneMoreWrite(db: Db, t: Statement, id: JobId, j: Job, ws: seq<Statement>)
    requires id in db && FromWrites(j, ws, db[id]) && IdOf(t) == Some(id) && Execute(db, t).error.None?
    ensures id in Execute(db, t).db && FromWrites(j, ws + [t], Execute(db, t).db[id])
    ensures InPlace(StatusAfter(j, ws), t)
  {
    assert (ws + [t])[..|ws|] == ws;
  }

  lemma OtherRow(db: Db, t: Statement, net: Reply, id: JobId)
    requires id in db && (net.Refused? || IdOf(t) != Some(id) || Execute(db, t).error.Some?)
    ensures id in Sent(db, Execute(db, t), net).db && Sent(db, Execute(db, t), net).db[id] == db[id]
  {
  }

  lemma NoWrite(s: State, e: Event, id: JobId)
    requires id in s.db && !WritesRow(s, e, id)
    ensures id in Apply(s, e).db && Apply(s, e).db[id] == s.db[id]
  {
    OtherRow(s.db, StatementOf(s, e), ReplyOf(e), id);
  }

  lemma OneWrite(s: State, e: Event, id: JobId)
    requires WritesRow(s, e, id)
    ensures Apply(s, e).db == Execute(s.db, StatementOf(s, e)).db && Execute(s.db, StatementOf(s, e)).error.None?
  {
  }

  lemma AllInPlaceMore(j: Job, ws: seq<Statement>, t: Statement)
    requires AllInPlace(j, ws) && InPlace(StatusAfter(j, ws), t)
    ensures AllInPlace(j, ws + [t])
  {
    forall i | 0 <= i < |ws + [t]| ensures InPlaceAt(j, ws + [t], i) {
      if i < |ws| {
        assert InPlaceAt(j, ws, i) && (ws + [t])[..i] == ws[..i];
      } else {
        assert (ws + [t])[..i] == ws;
      }
    }
  }

  // ----- Every run -----

  /** The row of the job began as `j` and has these writes behind it. */
  ghost predicate HasHistory(j: Job, ws: seq<Statement>, db: Db, id: JobId) {
    id in db && FromWrites(j, ws, db[id]) && AllInPlace(j, ws)
  }

  lemma HistoryStep(s: State, e: Event, id: JobId, j: Job, ws: seq<Statement>)
    requires HasHistory(j, ws, s.db, id)
    ensures HasHistory(j, ws + Write(s, e, id), Apply(s, e).db, id)
  {
    if WritesRow(s, e, id) {
      OneWrite(s, e, id);
      OneMoreWrite(s.db, StatementOf(s, e), id, j, ws);
      AllInPlaceMore(j, ws, StatementOf(s, e));
    } else {
      NoWrite(s, e, id);
      assert ws + [] == ws;
    }
  }

  lemma Appended(a: seq<Statement>, b: seq<Statement>, c: seq<Statement>)
    ensures a + b + c == a + (b + c)
  {
  }

  lemma {:induction false} HistoryGoesOn(h: Hypotheses, s: State, events: seq<Event>, id: JobId, j: Job, ws: seq<Statement>)
    requires Run(h, s, events) && HasHistory(j, ws, s.db, id)
    ensures HasHistory(j, ws + Writes(s, events, id), Exec(s, events).db, id)
    decreases |events|
  {
    if events == [] {
      assert ws + [] == ws;
    } else {
      var e := events[0];
      HistoryStep(s, e, id, j, ws);
      HistoryGoesOn(h, Apply(s, e), events[1..], id, j, ws + Write(s, e, id));
      Appended(ws, Write(s, e, id), Writes(Apply(s, e), events[1..], id));
    }
  }

  /** In every run, with no hypothesis at all, each column of a row is what the writes about the job make it: attempts
      counts the failures, last_error and next_run_at are those of the last failure, the stage is the one last advanced to,
      the owner the last to claim it, the status that of the last write; the rest never changes. Every claim finds the row
      queued and every advance finds it running. */
  lemma RowIsItsHistory(h: Hypotheses, s: State, events: seq<Event>, id: JobId)
    requires Run(h, s, events) && id in s.db
    ensures var (t, ws) := (Exec(s, events), Writes(s, events, id));
            id in t.db && FromWrites(s.db[id], ws, t.db[id]) && AllInPlace(s.db[id], ws)
  {
    HistoryGoesOn(h, s, events, id, s.db[id], []);
    assert [] + Writes(s, events, id) == Writes(s, events, id);
  }

  /** A job that a producer inserts may fail seven times: the eighth failure makes it dead and no earlier one does, whatever
      else happens to it; last_error is the message of the last one. */
  lemma DiesAtEight(h: Hypotheses, s: State, p: nat, id: JobId, nj: NewJob, net: Reply, events: seq<Event>)
    requires TableOk(s.db) && Enabled(s, OnProducer(p, Insert(id, nj, net)))
    requires WritesRow(s, OnProducer(p, Insert(id, nj, net)), id)
    requires Run(h, Apply(s, OnProducer(p, Insert(id, nj, net))), events)
    ensures var s1 := Apply(s, OnProducer(p, Insert(id, nj, net)));
            var (t, ws) := (Exec(s1, events), Writes(s1, events, id));
            && id in s1.db && s1.db[id].createdAt == s.now && s1.db[id].stage == nj.stage && s1.db[id].status == Queued
            && id in t.db && t.db[id].attempts == Failures(ws)
            && (t.db[id].status == Dead ==> Failures(ws) >= 8)
            && (t.db[id].status in {Queued, Running} ==> Failures(ws) < 8)
            && (ws != [] && IsFailure(ws[|ws| - 1]) ==>
                  && t.db[id].lastError == Some(ws[|ws| - 1].message)
                  && t.db[id].status == if Failures(ws) < 8 then Queued else Dead)
  {
    var e := OnProducer(p, Insert(id, nj, net));
    var s1 := Apply(s, e);
    OneWrite(s, e, id);
    StatementKeepsTable(s.db, StatementOf(s, e), ReplyOf(e));
    RowIsItsHistory(h, s1, events, id);
    TableOkInRun(h, s1, events);
  }
}
