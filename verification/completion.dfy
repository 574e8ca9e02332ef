/** Whole runs: rounds of sweeping and draining bring every job to an end. */
module Completion {
  import opened Types
  import opened Table
  import opened Rows
  import R = RedisLists
  import P = Protocol
  import opened Sweeper
  import opened Recovery
  import opened Drain
  import Sweeping
  import opened Processing

  /** One round: an instant of the clock, what the sweep at that instant left, and the passes of the drain. */
  datatype Round = Round(now: Time, swept: Core, turns: seq<Turn>)

  /** The clock is past every queued row's horizon, the sweep is error-free, and the drain empties the queues. */
  ghost predicate ValidRound(c: Core, beats: set<WorkerId>, threshold: Time, r: Round) {
    && PastHorizons(c.db, r.now, threshold)
    && Swept(c.db, c.lists, beats, r.now, threshold, NO_FAULTS, r.swept.db, r.swept.lists)
    && Drains(r.swept, r.turns) && Quiet(Drained(r.swept, r.turns).lists)
  }

  function EndOf(r: Round): Core {
    Drained(r.swept, r.turns)
  }

  ghost predicate ValidRounds(c: Core, beats: set<WorkerId>, threshold: Time, rounds: seq<Round>)
    decreases |rounds|
  {
    rounds == [] || (ValidRound(c, beats, threshold, rounds[0]) && ValidRounds(EndOf(rounds[0]), beats, threshold, rounds[1..]))
  }

  function Final(c: Core, rounds: seq<Round>): Core
    decreases |rounds|
  {
    if rounds == [] then c else Final(EndOf(rounds[0]), rounds[1..])
  }

  /** A table at rest: idle live workers own nothing, so only workers without a heartbeat own running rows. */
  ghost predicate AtRest(c: Core, beats: set<WorkerId>) {
    TableOk(c.db) && forall k :: k in c.db ==> !OwnerBeats(c.db[k], beats)
  }

  /** What a round does to one row: it ends it or uses up at least one of its attempts. */
  predicate MovedOver(was: Job, j: Job) {
    && j.maxAttempts == was.maxAttempts
    && (Terminal(was) ==> j.status == was.status)
    && (Terminal(j) || j.attempts > was.attempts)
  }

  lemma SweepMoves(c: Core, beats: set<WorkerId>, threshold: Time, r: Round, id: JobId)
    requires AtRest(c, beats) && PastHorizons(c.db, r.now, threshold) && id in c.db
    requires Swept(c.db, c.lists, beats, r.now, threshold, NO_FAULTS, r.swept.db, r.swept.lists)
    ensures Moving(c.db[id], r.swept, id)
  {
    SweepRepairs(c.db, c.lists, beats, r.now, threshold, r.swept.db, r.swept.lists);
    RevivedRow(c.db, beats, r.now, id);
    assert RowOk(c.db[id]);
  }

  lemma SweepIsStill(c: Core, beats: set<WorkerId>, threshold: Time, r: Round)
    requires AtRest(c, beats) && PastHorizons(c.db, r.now, threshold)
    requires Swept(c.db, c.lists, beats, r.now, threshold, NO_FAULTS, r.swept.db, r.swept.lists)
    ensures Still(r.swept) && r.swept.db.Keys == c.db.Keys
  {
    SweepRepairs(c.db, c.lists, beats, r.now, threshold, r.swept.db, r.swept.lists);
    RevivedTableOk(c.db, beats, r.now);
  }

  /** Nothing is running, and every row of the table as it was is on its way. */
  ghost predicate SetOff(db: Db, c: Core) {
    Still(c) && c.db.Keys == db.Keys && forall id :: id in db ==> Moving(db[id], c, id)
  }

  lemma SweepSetsOff(db: Db, ls: R.Lists, beats: set<WorkerId>, now: Time, threshold: Time, db': Db, ls': R.Lists)
    requires AtRest(Core(db, ls), beats) && PastHorizons(db, now, threshold)
    requires Swept(db, ls, beats, now, threshold, NO_FAULTS, db', ls')
    ensures SetOff(db, Core(db', ls'))
  {
    var r := Round(now, Core(db', ls'), []);
    SweepIsStill(Core(db, ls), beats, threshold, r);
    forall id | id in db ensures Moving(db[id], Core(db', ls'), id) {
      SweepMoves(Core(db, ls), beats, threshold, r, id);
    }
  }

  lemma RevivedTableOk(db: Db, beats: set<WorkerId>, now: Time)
    requires TableOk(db)
    ensures TableOk(Revived(db, db.Keys, beats, NO_FAULTS, now))
  {
    var db' := Revived(db, db.Keys, beats, NO_FAULTS, now);
    forall k | k in db'
      ensures RowOk(db'[k]) && db'[k].id == k && (Indexed(db'[k]) ==> Indexed(db[k])) && SameMessage(db[k], db'[k])
    {
      assert RowOk(db[k]);
    }
  }

  lemma RoundMoves(c: Core, beats: set<WorkerId>, threshold: Time, r: Round, id: JobId)
    requires AtRest(c, beats) && ValidRound(c, beats, threshold, r) && id in c.db
    ensures id in EndOf(r).db && MovedOver(c.db[id], EndOf(r).db[id])
  {
    SweepMoves(c, beats, threshold, r, id);
    SweepIsStill(c, beats, threshold, r);
    DrainMoves(c.db[id], r.swept, r.turns, id);
    MovedOn(c.db[id], EndOf(r), id);
  }

  lemma RoundRests(c: Core, beats: set<WorkerId>, threshold: Time, r: Round)
    requires AtRest(c, beats) && ValidRound(c, beats, threshold, r)
    ensures AtRest(EndOf(r), beats) && EndOf(r).db.Keys == c.db.Keys
  {
    SweepIsStill(c, beats, threshold, r);
    DrainKeepsStill(r.swept, r.turns);
  }

  /** After n rounds a row that had at most n attempts left has ended. */
  lemma {:induction false} RoundsEnd(c: Core, beats: set<WorkerId>, threshold: Time, rounds: seq<Round>, id: JobId)
    requires AtRest(c, beats) && ValidRounds(c, beats, threshold, rounds) && id in c.db
    requires Terminal(c.db[id]) || c.db[id].maxAttempts - c.db[id].attempts <= |rounds|
    ensures id in Final(c, rounds).db && Terminal(Final(c, rounds).db[id])
    decreases |rounds|
  {
    assert RowOk(c.db[id]);
    if rounds != [] {
      RoundRests(c, beats, threshold, rounds[0]);
      RoundMoves(c, beats, threshold, rounds[0], id);
      RoundsEnd(EndOf(rounds[0]), beats, threshold, rounds[1..], id);
    }
  }

  /** With no crashes, producers or call errors and a worker for every stage: from any table at rest, whatever tokens
      lie around and whatever the handlers return, as many rounds as any row may have attempts leave every row
      done or dead, and no row is lost or added. */
  lemma WholeRunCompletes(c: Core, beats: set<WorkerId>, threshold: Time, rounds: seq<Round>, maxAttempts: nat)
    requires AtRest(c, beats) && ValidRounds(c, beats, threshold, rounds)
    requires forall k :: k in c.db ==> c.db[k].maxAttempts <= maxAttempts
    requires maxAttempts <= |rounds|
    ensures forall k :: k in Final(c, rounds).db ==> Terminal(Final(c, rounds).db[k])
    ensures Final(c, rounds).db.Keys == c.db.Keys
  {
    RowsStay(c, beats, threshold, rounds);
    forall k | k in c.db ensures k in Final(c, rounds).db && Terminal(Final(c, rounds).db[k]) {
      RoundsEnd(c, beats, threshold, rounds, k);
    }
  }

  lemma {:induction false} RowsStay(c: Core, beats: set<WorkerId>, threshold: Time, rounds: seq<Round>)
    requires AtRest(c, beats) && ValidRounds(c, beats, threshold, rounds)
    ensures Final(c, rounds).db.Keys == c.db.Keys
    decreases |rounds|
  {
    if rounds != [] {
      RoundRests(c, beats, threshold, rounds[0]);
      RowsStay(EndOf(rounds[0]), beats, threshold, rounds[1..]);
    }
  }

  // ----- Rounds exist -----

  /** Some instant is past every queued row's horizon. */
  lemma {:induction false} HorizonExists(db: Db, ids: set<JobId>, threshold: Time) returns (now: Time)
    requires ids <= db.Keys
    ensures forall k :: k in ids ==> Due(db[k], now, threshold)
    decreases |ids|
  {
    if ids == {} {
      now := 0;
    } else {
      var k :| k in ids;
      var rest := HorizonExists(db, ids - {k}, threshold);
      var own := if db[k].lastError.Some? then db[k].nextRunAt else db[k].createdAt + threshold + 1;
      now := if rest < own then own else rest;
      forall l | l in ids ensures Due(db[l], now, threshold) {
        assert l != k ==> Due(db[l], rest, threshold);
      }
    }
  }

  /** Some sweep of this table and these lists at this instant. */
  lemma SweptExists(db: Db, ls: R.Lists, beats: set<WorkerId>, now: Time, threshold: Time) returns (db': Db, ls': R.Lists)
    requires Wellformed(db) && R.NoEmptyList(ls)
    ensures Swept(db, ls, beats, now, threshold, NO_FAULTS, db', ls') && R.NoEmptyList(ls')
  {
    var none := P.Hypotheses(false, false, false);
    var s := P.State(db, ls, beats, map[], P.Resting, map[], now, threshold, P.Files({}, {}, map[]), map[], map[],
                     P.Log(multiset{}, multiset{}, multiset{}, multiset{}, multiset{}));
    var events, s' := Sweeping.SweepIsSteps(none, s, NO_FAULTS);
    db', ls' := s'.db, s'.lists;
  }

  lemma TurnKeepsKeys(c: Core, t: Turn)
    requires R.NoEmptyList(c.lists) && Serves(c, t)
    ensures R.NoEmptyList(After(c, t).lists)
  {
    var popped := R.Perform(c.lists, R.PopFor(t.stage, t.worker));
    var token := R.Last(R.At(c.lists, R.Pending(t.stage)));
    R.PerformKeepsKeys(c.lists, R.PopFor(t.stage, t.worker));
    HandleLists(c.db, popped, token, t.stage, t.worker, t.call);
    var handled := Handle(c.db, popped, token, t.worker, t.call).lists;
    if P.NextStage(t.stage).Some? {
      R.PerformKeepsKeys(popped, R.PushTo(P.NextStage(t.stage).value, token));
    }
    R.PerformKeepsKeys(handled, R.AckFor(t.stage, t.worker, token));
  }

  lemma {:induction false} DrainKeepsKeys(c: Core, turns: seq<Turn>)
    requires R.NoEmptyList(c.lists) && Drains(c, turns)
    ensures R.NoEmptyList(Drained(c, turns).lists)
    decreases |turns|
  {
    if turns != [] {
      TurnKeepsKeys(c, turns[0]);
      DrainKeepsKeys(After(c, turns[0]), turns[1..]);
    }
  }

  /** From any table at rest and any Redis content there is a round, and so any number of them. */
  lemma {:induction false} RoundsExist(c: Core, beats: set<WorkerId>, threshold: Time, w: WorkerId, n: nat)
    returns (rounds: seq<Round>)
    requires AtRest(c, beats) && R.NoEmptyList(c.lists)
    ensures |rounds| == n && ValidRounds(c, beats, threshold, rounds)
    decreases n
  {
    if n == 0 {
      rounds := [];
    } else {
      var r := RoundExists(c, beats, threshold, w);
      RoundRests(c, beats, threshold, r);
      var rest := RoundsExist(EndOf(r), beats, threshold, w, n - 1);
      rounds := [r] + rest;
      assert rounds[1..] == rest;
    }
  }

  lemma RoundExists(c: Core, beats: set<WorkerId>, threshold: Time, w: WorkerId) returns (r: Round)
    requires AtRest(c, beats) && R.NoEmptyList(c.lists)
    ensures ValidRound(c, beats, threshold, r) && R.NoEmptyList(EndOf(r).lists)
  {
    var now := HorizonExists(c.db, c.db.Keys, threshold);
    var db, ls := SweptExists(c.db, c.lists, beats, now, threshold);
    var failing := Call(Answered, Answered, Answered, Answered, Answered, Answered, Errored("failed"), now, 1.0, false);
    var turns := DrainExists(Core(db, ls), w, failing);
    r := Round(now, Core(db, ls), turns);
    DrainKeepsKeys(r.swept, turns);
  }
}
