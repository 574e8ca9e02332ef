/** What one error-free sweep repairs. */
module Recovery {
  import opened Types
  import opened Table
  import opened Rows
  import R = RedisLists
  import P = Protocol
  import opened Sweeper

  /** Past the retry time, or past the stale threshold if it never failed. */
  predicate Due(j: Job, now: Time, threshold: Time) {
    if j.lastError.Some? then j.nextRunAt <= now else j.createdAt < now - threshold
  }

  ghost predicate PastHorizons(db: Db, now: Time, threshold: Time) {
    forall k :: k in db && db[k].status == Queued ==> Due(db[k], now, threshold)
  }

  predicate OwnerBeats(j: Job, beats: set<WorkerId>) {
    j.status == Running && j.worker.Some? && j.worker.value in beats
  }

  lemma RevivedRow(db: Db, beats: set<WorkerId>, now: Time, k: JobId)
    requires TableOk(db) && k in db
    ensures var j := Revived(db, db.Keys, beats, NO_FAULTS, now)[k];
            && (j == db[k] <==> db[k].status != Running || OwnerBeats(db[k], beats))
            && (j.status == Running <==> OwnerBeats(db[k], beats))
            && (j.status == Queued ==> j == db[k] || (j.lastError.Some? && j.nextRunAt == now))
  {
    assert RowOk(db[k]);
  }

  lemma QueuedIsPushed(db: Db, k: JobId, now: Time, threshold: Time)
    requires k in db && db[k].status == Queued && Due(db[k], now, threshold)
    ensures Uuid(k) in Retries(db, db[k].stage, now, NO_FAULTS) || Uuid(k) in Stale(db, db[k].stage, now, threshold, NO_FAULTS)
  {
    if db[k].lastError.Some? {
      assert IsReadyRetry(db[k], now);
    } else {
      assert IsStaleQueued(db[k], now, threshold);
    }
  }

  /** From any table the system can produce, whatever has happened to Redis: exactly the running rows that no beating
      worker owns change, and stop running; the processing lists of beating workers stay, those of the others are empty;
      and every queued row has a token in the queue of its own stage. */
  lemma SweepRepairs(db: Db, ls: R.Lists, beats: set<WorkerId>, now: Time, threshold: Time, db': Db, ls': R.Lists)
    requires TableOk(db) && PastHorizons(db, now, threshold)
    requires Swept(db, ls, beats, now, threshold, NO_FAULTS, db', ls')
    ensures db'.Keys == db.Keys
    ensures forall k :: k in db ==> (db'[k] == db[k] <==> db[k].status != Running || OwnerBeats(db[k], beats))
    ensures forall k :: k in db' ==> (db'[k].status == Running <==> OwnerBeats(db[k], beats))
    ensures forall st, w :: R.At(ls', R.Processing(st, w)) == if w in beats then R.At(ls, R.Processing(st, w)) else []
    ensures forall k :: k in db' && db'[k].status == Queued ==> Uuid(k) in R.At(ls', R.Pending(db'[k].stage))
  {
    assert db' == Revived(db, db.Keys, beats, NO_FAULTS, now);
    forall k | k in db'
      ensures db'[k] == db[k] <==> db[k].status != Running || OwnerBeats(db[k], beats)
      ensures db'[k].status == Running <==> OwnerBeats(db[k], beats)
      ensures db'[k].status == Queued ==> Uuid(k) in R.At(ls', R.Pending(db'[k].stage))
    {
      RevivedRow(db, beats, now, k);
      if db'[k].status == Queued {
        QueuedIsPushed(db', k, now, threshold);
      }
    }
    forall st, w ensures R.At(ls', R.Processing(st, w)) == if w in beats then R.At(ls, R.Processing(st, w)) else [] {
      assert w !in beats ==> Remaining(ls, P.Ref(st, w), beats, NO_FAULTS) == [];
    }
  }

  /** After any run at all, crashes in mid-step, lost pushes and acks and wiped Redis included: with every heartbeat
      gone and the clock past the horizons, one error-free SweepOnce leaves no processing entry, no running row, and
      a token in queue:<its stage> for every queued row. */
  lemma OneSweepRecovers(h: P.Hypotheses, s: P.State, events: seq<P.Event>, now: Time, db': Db, ls': R.Lists)
    requires P.Init(s) && P.Run(h, s, events)
    requires P.Exec(s, events).beats == {} && PastHorizons(P.Exec(s, events).db, now, s.threshold)
    requires Swept(P.Exec(s, events).db, P.Exec(s, events).lists, {}, now, s.threshold, NO_FAULTS, db', ls')
    ensures forall k :: k in db' ==> db'[k].status != Running
    ensures forall st, w :: R.At(ls', R.Processing(st, w)) == []
    ensures forall k :: k in db' && db'[k].status == Queued ==> Uuid(k) in R.At(ls', R.Pending(db'[k].stage))
  {
    TableOkInRun(h, s, events);
    SweepRepairs(P.Exec(s, events).db, P.Exec(s, events).lists, {}, now, s.threshold, db', ls');
  }
}
