/** Mutual exclusion, and final states staying final, under the timing hypotheses H1 to H4. */
module Mutex {
  import opened Types
  import opened Table
  import opened Protocol
  import opened Rows
  import opened FailStop

  /** Every worker between claim and settle is the recorded owner of its running row. */
  ghost predicate BusyOwns(db: Db, workers: map<WorkerId, Worker>) {
    forall w :: w in workers && Busy(workers[w].pc) ==> Owns(db, w, workers[w].pc.id)
  }

  /** The row's owner has left its loop for good, so nobody but the sweeper can touch the row. */
  predicate Orphan(db: Db, workers: map<WorkerId, Worker>, row: Job) {
    && row.worker.Some? && Owns(db, row.worker.value, row.id)
    && row.worker.value in workers && !Looping(workers[row.worker.value].pc)
  }

  /** Each listed row still waiting for its liveness check has a beating owner or is an orphan. */
  ghost predicate ListingSafe(s: State, rows: seq<Job>) {
    && (forall i :: 0 <= i < |rows| ==>
          rows[i].worker.Some? ==> rows[i].worker.value in s.beats || Orphan(s.db, s.workers, rows[i]))
    && (forall i, j :: 0 <= i < j < |rows| ==> rows[i].id != rows[j].id)
  }

  ghost predicate SweepSafe(s: State) {
    match s.pass
    case Reviving(rows) => ListingSafe(s, rows)
    case Marking(row, rows) =>
      ListingSafe(s, rows) && Orphan(s.db, s.workers, row) && (forall i :: 0 <= i < |rows| ==> rows[i].id != row.id)
    case _ => true
  }

  ghost predicate Exclusive(s: State) {
    TableOk(s.db) && FailStopped(s) && BusyOwns(s.db, s.workers) && SweepSafe(s)
  }

  /** The only row a step may change is one queued row (by a claim), the row a worker holds (by its settle)
      or the row the sweeper marks. */
  predicate MayTouch(s: State, e: Event, id: JobId) {
    match e
    case OnWorker(w, a) =>
      w in s.workers &&
      (if a.ClaimRow? then id in s.db && s.db[id].status == Queued else a.SettleRow? && Holds(s.workers[w].pc, id))
    case OnSweeper(b) => b.Revive? && s.pass.Marking? && s.pass.row.id == id
    case OnProducer(_, c) => c.Insert? && c.id == id
    case _ => false
  }

  predicate Touches(db: Db, t: Statement, id: JobId) {
    match t
    case NoStatement => false
    case EnqueueRow(k, _, _) => k == id
    case ClaimFor(k, _) => k == id && id in db && db[id].status == Queued
    case FinishRow(k) => k == id
    case FailRow(k, _, _) => k == id
    case AdvanceRow(k, _) => k == id
  }

  lemma UntouchedStays(db: Db, t: Statement, net: Reply, id: JobId)
    requires id in db && !Touches(db, t, id)
    ensures id in Sent(db, Execute(db, t), net).db && Sent(db, Execute(db, t), net).db[id] == db[id]
  {
  }

  lemma UntouchedRow(s: State, e: Event, id: JobId)
    requires Enabled(s, e) && id in s.db && !MayTouch(s, e, id)
    ensures id in Apply(s, e).db && Apply(s, e).db[id] == s.db[id]
  {
    UntouchedStays(s.db, StatementOf(s, e), ReplyOf(e), id);
  }

  /** A touched row is never one that another looping worker holds, nor an orphan waiting in the sweeper's listing. */
  lemma TouchIsExclusive(s: State, e: Event, id: JobId)
    requires Exclusive(s) && Enabled(s, e) && MayTouch(s, e, id) && id in s.db
    ensures s.db[id].status in {Queued, Running}
    ensures forall v :: v in s.workers && Holds(s.workers[v].pc, id) ==> e.OnWorker? && e.worker == v && e.action.SettleRow?
    ensures forall row: Job :: row.id == id && Orphan(s.db, s.workers, row) ==> e.OnSweeper?
  {
  }

  lemma OrphanStays(s: State, e: Event, row: Job)
    requires Exclusive(s) && Enabled(s, e) && Orphan(s.db, s.workers, row)
    requires !(e.OnSweeper? && MayTouch(s, e, row.id))
    ensures Orphan(Apply(s, e).db, Apply(s, e).workers, row)
  {
    if MayTouch(s, e, row.id) {
      TouchIsExclusive(s, e, row.id);
    } else {
      UntouchedRow(s, e, row.id);
    }
    if e.OnWorker? && e.worker == row.worker.value {
      match e.action
      case AckToken(_) =>
      case Beat =>
      case Stop =>
    }
  }

  lemma ListingStays(s: State, e: Event, rows: seq<Job>)
    requires Exclusive(s) && Enabled(s, e) && ListingSafe(s, rows)
    requires s.beats <= Apply(s, e).beats || rows == []
    requires e.OnSweeper? ==> forall i :: 0 <= i < |rows| ==> !MayTouch(s, e, rows[i].id)
    ensures ListingSafe(Apply(s, e), rows)
  {
    forall i | 0 <= i < |rows| && rows[i].worker.Some? && rows[i].worker.value !in s.beats
      ensures Orphan(Apply(s, e).db, Apply(s, e).workers, rows[i])
    {
      OrphanStays(s, e, rows[i]);
    }
  }

  /** At the instant of the listing, a running row without a beating owner is an orphan: this is where H1 is used. */
  lemma ListingIsSafe(s: State, rows: seq<Job>)
    requires Exclusive(s) && H1(s) && SweepEnabled(s, ListRunning(rows))
    ensures ListingSafe(Apply(s, OnSweeper(ListRunning(rows))), rows)
  {
    forall i | 0 <= i < |rows| && rows[i].worker.Some?
      ensures rows[i].worker.value in s.beats || Orphan(s.db, s.workers, rows[i])
    {
      assert Owns(s.db, rows[i].worker.value, rows[i].id);
    }
  }

  lemma SweepSafeKept(h: Hypotheses, s: State, e: Event)
    requires Exclusive(s) && Enabled(s, e) && Permits(h, s, e) && h.timing
    ensures SweepSafe(Apply(s, e))
  {
    if e.OnSweeper? {
      SweepStaysSafe(h, s, e);
    } else {
      match s.pass
      case Reviving(rows) => ListingStays(s, e, rows);
      case Marking(row, rows) =>
        ListingStays(s, e, rows);
        OrphanStays(s, e, row);
      case _ =>
    }
  }

  lemma SweepStaysSafe(h: Hypotheses, s: State, e: Event)
    requires Exclusive(s) && Enabled(s, e) && Permits(h, s, e) && h.timing && e.OnSweeper?
    ensures SweepSafe(Apply(s, e))
  {
    match e.sweep
    case ListRunning(rows) => ListingIsSafe(s, rows);
    case CheckOwner(_) => ListingStays(s, e, s.pass.rows[1..]);
    case Revive(_) => ListingStays(s, e, s.pass.rows);
    case _ =>
  }

  /** The sweeper's failure mark takes effect on a row that some worker is working on. */
  predicate StealsRow(s: State, e: Event) {
    && e.OnSweeper? && e.sweep.Revive? && !e.sweep.net.Refused? && s.pass.Marking?
    && exists w :: w in s.workers && Holds(s.workers[w].pc, s.pass.row.id)
  }

  lemma StealingBreaks(s: State, e: Event)
    requires TableOk(s.db) && BusyOwns(s.db, s.workers) && StealsRow(s, e)
    ensures !BusyOwns(Apply(s, e).db, Apply(s, e).workers)
  {
    var id := s.pass.row.id;
    var w :| w in s.workers && Holds(s.workers[w].pc, id);
    assert Owns(s.db, w, id);
    SaveKeepsIndex(s.db, id, AfterFailure(s.db[id], "worker died", s.now));
    assert !Owns(Apply(s, e).db, w, id);
  }

  /** A row that a worker holds is touched by its own settle or by a stealing sweeper, and by nothing else. */
  lemma HeldIsUntouched(s: State, e: Event, w: WorkerId)
    requires TableOk(s.db) && BusyOwns(s.db, s.workers) && Enabled(s, e) && !StealsRow(s, e)
    requires w in s.workers && Busy(s.workers[w].pc) && !(e.OnWorker? && e.worker == w && e.action.SettleRow?)
    ensures Owns(Apply(s, e).db, w, s.workers[w].pc.id)
  {
    var id := s.workers[w].pc.id;
    assert Owns(s.db, w, id) && Holds(s.workers[w].pc, id);
    if MayTouch(s, e, id) {
      assert e.OnSweeper? && Apply(s, e).db == s.db;
    } else {
      UntouchedRow(s, e, id);
    }
  }

  lemma ClaimerOwns(s: State, e: Event, w: WorkerId)
    requires TableOk(s.db) && Enabled(s, e) && e.OnWorker? && e.worker == w && e.action.ClaimRow?
    requires Busy(Apply(s, e).workers[w].pc)
    ensures Owns(Apply(s, e).db, w, Apply(s, e).workers[w].pc.id)
  {
  }

  /** Exactly when exclusion is lost: a step keeps every busy worker the owner of its row if and only if it is not
      the sweeper marking a row that some worker holds. */
  lemma BusyOwnsExactly(s: State, e: Event)
    requires TableOk(s.db) && BusyOwns(s.db, s.workers) && Enabled(s, e)
    ensures BusyOwns(Apply(s, e).db, Apply(s, e).workers) <==> !StealsRow(s, e)
  {
    var s' := Apply(s, e);
    if StealsRow(s, e) {
      StealingBreaks(s, e);
    } else {
      forall w | w in s'.workers && Busy(s'.workers[w].pc) ensures Owns(s'.db, w, s'.workers[w].pc.id) {
        var id := s'.workers[w].pc.id;
        if e.OnWorker? && e.worker == w && e.action.ClaimRow? {
          ClaimerOwns(s, e, w);
        } else {
          if e.OnWorker? && e.worker == w {
            QuietPc(s, w, e.action, id);
          }
          HeldIsUntouched(s, e, w);
        }
      }
    }
  }

  /** Every busy worker owns its row in every state of the run. */
  ghost predicate AlwaysOwned(s: State, events: seq<Event>)
    decreases |events|
  {
    BusyOwns(s.db, s.workers) && (events == [] || AlwaysOwned(Apply(s, events[0]), events[1..]))
  }

  predicate NeverSteals(s: State, events: seq<Event>)
    decreases |events|
  {
    events == [] || (!StealsRow(s, events[0]) && NeverSteals(Apply(s, events[0]), events[1..]))
  }

  lemma {:induction false} OwnedExactly(h: Hypotheses, s: State, events: seq<Event>)
    requires TableOk(s.db) && BusyOwns(s.db, s.workers) && Run(h, s, events)
    ensures AlwaysOwned(s, events) <==> NeverSteals(s, events)
    decreases |events|
  {
    if events != [] {
      BusyOwnsExactly(s, events[0]);
      StatementKeepsTable(s.db, StatementOf(s, events[0]), ReplyOf(events[0]));
      if !StealsRow(s, events[0]) {
        OwnedExactly(h, Apply(s, events[0]), events[1..]);
      }
    }
  }

  /** For any run at all, with no hypothesis: every worker between claim and settle is the owner of its running row
      throughout if and only if the sweeper never marks a row that some worker holds. */
  lemma ExclusionExactly(h: Hypotheses, s: State, events: seq<Event>)
    requires Init(s) && Run(h, s, events)
    ensures AlwaysOwned(s, events) <==> NeverSteals(s, events)
  {
    OwnedExactly(h, s, events);
  }

  lemma ExclusiveStep(h: Hypotheses, s: State, e: Event)
    requires Exclusive(s) && Enabled(s, e) && Permits(h, s, e) && h.timing && h.replies
    ensures Exclusive(Apply(s, e))
  {
    StatementKeepsTable(s.db, StatementOf(s, e), ReplyOf(e));
    FailStopExactly(s, e);
    BusyOwnsExactly(s, e);
    SweepSafeKept(h, s, e);
  }

  lemma {:induction false} ExclusiveInRun(h: Hypotheses, s: State, events: seq<Event>)
    requires Exclusive(s) && Run(h, s, events) && h.timing && h.replies
    ensures Exclusive(Exec(s, events))
    decreases |events|
  {
    if events != [] {
      ExclusiveStep(h, s, events[0]);
      ExclusiveInRun(h, Apply(s, events[0]), events[1..]);
    }
  }

  lemma InitIsExclusive(s: State)
    requires Init(s)
    ensures Exclusive(s)
  {
  }

  /** A job is worked on by at most one worker at a time, and that worker is the row's recorded owner. */
  lemma MutualExclusion(h: Hypotheses, s: State, events: seq<Event>, v: WorkerId, w: WorkerId, id: JobId)
    requires Init(s) && Run(h, s, events) && h.timing && h.replies
    ensures var t := Exec(s, events);
            v in t.workers && w in t.workers && Holds(t.workers[v].pc, id) && Holds(t.workers[w].pc, id) ==>
              v == w && id in t.db && t.db[id].status == Running && t.db[id].worker == Some(w)
  {
    InitIsExclusive(s);
    ExclusiveInRun(h, s, events);
  }

  lemma {:induction false} FinalStaysFinal(h: Hypotheses, s: State, events: seq<Event>, id: JobId)
    requires Exclusive(s) && Run(h, s, events) && h.timing && h.replies
    requires id in s.db && Terminal(s.db[id])
    ensures id in Exec(s, events).db && Exec(s, events).db[id] == s.db[id]
    decreases |events|
  {
    if events != [] {
      if MayTouch(s, events[0], id) {
        TouchIsExclusive(s, events[0], id);
      } else {
        UntouchedRow(s, events[0], id);
      }
      ExclusiveStep(h, s, events[0]);
      FinalStaysFinal(h, Apply(s, events[0]), events[1..], id);
    }
  }

  /** Once a run has made a row done or dead, the rest of the run never writes it again. */
  lemma DoneIsFinal(h: Hypotheses, s: State, before: seq<Event>, after: seq<Event>, id: JobId)
    requires Init(s) && Run(h, s, before) && Run(h, Exec(s, before), after) && h.timing && h.replies
    requires id in Exec(s, before).db && Terminal(Exec(s, before).db[id])
    ensures id in Exec(Exec(s, before), after).db && Exec(Exec(s, before), after).db[id] == Exec(s, before).db[id]
  {
    InitIsExclusive(s);
    ExclusiveInRun(h, s, before);
    FinalStaysFinal(h, Exec(s, before), after, id);
  }

  /** No settle and no revival is ever refused by the database: the row exists, is running, and the unique index holds. */
  lemma SettleNeverTrips(s: State, e: Event)
    requires Exclusive(s) && Enabled(s, e)
    requires (e.OnWorker? && e.action.SettleRow?) || (e.OnSweeper? && e.sweep.Revive?)
    ensures Execute(s.db, StatementOf(s, e)).error == None
  {
    var t := StatementOf(s, e);
    match t
    case FailRow(id, message, nextRunAt) => SaveKeepsIndex(s.db, id, AfterFailure(s.db[id], message, nextRunAt));
    case AdvanceRow(id, next) => SaveKeepsIndex(s.db, id, s.db[id].(stage := next, status := Queued, worker := None));
    case FinishRow(id) => SaveKeepsIndex(s.db, id, s.db[id].(status := Done));
    case _ =>
  }

  // ----- What the statements themselves check, without any hypothesis -----

  /** A claim that is answered goes through exactly when the row is queued: its stage, the claiming worker's stage
      and its next_run_at make no difference. */
  lemma ClaimExactly(s: State, w: WorkerId, id: JobId)
    requires TableOk(s.db) && w in s.workers && s.workers[w].pc == Popped(Uuid(id))
    ensures var s' := Apply(s, OnWorker(w, ClaimRow(Answered)));
            if id in s.db && s.db[id].status == Queued
            then s'.workers[w].pc == Claimed(id) && s'.db == s.db[id := s.db[id].(status := Running, worker := Some(w))]
            else s'.workers[w].pc == Acking(Uuid(id)) && s'.db == s.db
  {
    if id in s.db && s.db[id].status == Queued {
      SaveKeepsIndex(s.db, id, s.db[id].(status := Running, worker := Some(w)));
    }
  }

  /** A late settle that the table lets through: a failure that brings the row back or counts once more,
      unless a live row of the same message is in the way, or the completion of a dead row. */
  predicate Unprotected(db: Db, t: Statement, id: JobId)
    requires id in db
  {
    || (t.FailRow? && t.id == id && !Collides(db, id, AfterFailure(db[id], t.message, t.nextRunAt)))
    || (t == FinishRow(id) && db[id].status == Dead)
  }

  lemma StatementOnFinal(db: Db, t: Statement, id: JobId)
    requires id in db && Terminal(db[id])
    ensures id in Execute(db, t).db
    ensures Execute(db, t).db[id] != db[id] <==> Unprotected(db, t, id)
  {
    match t
    case NoStatement =>
    case EnqueueRow(_, _, _) =>
    case ClaimFor(_, _) =>
    case FinishRow(_) =>
    case FailRow(_, _, _) =>
    case AdvanceRow(_, _) =>
  }

  /** A step changes a done or dead row exactly when it is such a settle; DoneIsFinal says that H1 to H4 rule them out. */
  lemma FinalChangesExactly(s: State, e: Event, id: JobId)
    requires id in s.db && Terminal(s.db[id])
    ensures id in Apply(s, e).db
    ensures Apply(s, e).db[id] != s.db[id] <==> !ReplyOf(e).Refused? && Unprotected(s.db, StatementOf(s, e), id)
  {
    StatementOnFinal(s.db, StatementOf(s, e), id);
  }
}
