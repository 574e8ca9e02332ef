/** Whole runs of the step relation: shifts of an error-free sweep and of interleaving workers bring every job to an end. */
module Shifts {
  import opened Types
  import opened Table
  import opened Protocol
  import opened Rows
  import opened FailStop
  import opened Mutex
  import opened Recovery
  import opened Completion
  import opened Interleaving
  import Drain
  import R = RedisLists
  import W = Sweeper
  import G = Sweeping

  /** A stretch of a run: time passes, the sweeper makes a sweep, and the workers work until they are done. */
  datatype Shift = Shift(wait: nat, sweep: seq<Event>, work: seq<Event>)

  function Before(s: State, r: Shift): State {
    Apply(s, Tick(r.wait))
  }

  function Cleared(s: State, r: Shift): State {
    Exec(Before(s, r), r.sweep)
  }

  function After(s: State, r: Shift): State {
    Exec(Cleared(s, r), r.work)
  }

  function CoreOf(s: State): Drain.Core {
    Drain.Core(s.db, s.lists)
  }

  ghost predicate SweepsWell(s: State, t: State) {
    W.Swept(s.db, s.lists, s.beats, s.now, s.threshold, W.NO_FAULTS, t.db, t.lists) && G.Only(s, t)
  }

  /** The clock is past every queued row's horizon, the sweep is error-free and nobody interferes with it. */
  ghost predicate Clears(h: Hypotheses, s: State, r: Shift) {
    && PastHorizons(s.db, s.now + r.wait, s.threshold) && Permits(h, s, Tick(r.wait))
    && Run(h, Before(s, r), r.sweep) && SweepsWell(Before(s, r), Cleared(s, r))
  }

  /** Then the workers' steps interleave in any order until no token waits. */
  ghost predicate ValidShift(h: Hypotheses, s: State, r: Shift) {
    Clears(h, s, r) && Run(h, Cleared(s, r), r.work) && AllSmooth(r.work) && AllQuiet(After(s, r))
  }

  /** Every worker is idle or gone, and no worker with a heartbeat owns a running row. */
  ghost predicate Resting(s: State) {
    AtRest(CoreOf(s), s.beats) && forall w :: w in s.workers ==> AtHome(s.workers[w].pc)
  }

  function EventsOf(r: Shift): seq<Event> {
    [Tick(r.wait)] + r.sweep + r.work
  }

  lemma ShiftIsRun(h: Hypotheses, s: State, r: Shift)
    requires ValidShift(h, s, r)
    ensures Run(h, s, EventsOf(r)) && Exec(s, EventsOf(r)) == After(s, r)
  {
    assert [Tick(r.wait)][1..] == [] && Run(h, Before(s, r), []);
    assert Exec(s, [Tick(r.wait)]) == Exec(Before(s, r), []);
    RunConcat(h, s, [Tick(r.wait)], r.sweep);
    RunConcat(h, s, [Tick(r.wait)] + r.sweep, r.work);
  }

  lemma WellSweptSetsOff(s: State, t: State)
    requires AtRest(CoreOf(s), s.beats) && PastHorizons(s.db, s.now, s.threshold) && SweepsWell(s, t)
    ensures SetOff(s.db, CoreOf(t))
  {
    SweepSetsOff(s.db, s.lists, s.beats, s.now, s.threshold, t.db, t.lists);
  }

  lemma ClearedServes(h: Hypotheses, s: State, r: Shift)
    requires Resting(s) && Clears(h, s, r)
    ensures SetOff(s.db, CoreOf(Cleared(s, r))) && Serving(Cleared(s, r))
    ensures Cleared(s, r).workers == s.workers && Cleared(s, r).beats == s.beats
  {
    TimePasses(s, r.wait);
    WellSweptSetsOff(Before(s, r), Cleared(s, r));
    StillServes(Cleared(s, r));
  }

  lemma TimePasses(s: State, wait: nat)
    ensures var t := Apply(s, Tick(wait));
            && t.db == s.db && t.lists == s.lists && t.beats == s.beats && t.workers == s.workers && t.pass == s.pass
            && t.now == s.now + wait && t.threshold == s.threshold
  {
  }

  lemma HomeHolds(h: Hypotheses, s: State, wait: nat)
    requires Resting(s)
    ensures G.Fair(h, Apply(s, Tick(wait))) && Permits(h, s, Tick(wait))
  {
  }

  lemma StillServes(s: State)
    requires Drain.Still(CoreOf(s)) && forall w :: w in s.workers ==> AtHome(s.workers[w].pc)
    ensures Serving(s)
  {
    forall w, id ensures !Owns(s.db, w, id) {
    }
  }

  lemma WorkMoves(h: Hypotheses, was: Job, s: State, work: seq<Event>, id: JobId)
    requires Serving(s) && Run(h, s, work) && AllSmooth(work) && AllQuiet(Exec(s, work))
    requires Drain.Moving(was, CoreOf(s), id)
    ensures id in Exec(s, work).db && MovedOver(was, Exec(s, work).db[id])
  {
    assert Covered(was, s, id);
    CoveredInRun(h, was, s, work, id);
    QuietNotRunning(Exec(s, work), id);
  }

  /** One shift ends a row or uses up at least one of its attempts. */
  lemma ShiftMoves(h: Hypotheses, s: State, r: Shift, id: JobId)
    requires Resting(s) && ValidShift(h, s, r) && id in s.db
    ensures id in After(s, r).db && MovedOver(s.db[id], After(s, r).db[id])
  {
    ClearedServes(h, s, r);
    WorkMoves(h, s.db[id], Cleared(s, r), r.work, id);
  }

  lemma ShiftRests(h: Hypotheses, s: State, r: Shift)
    requires Resting(s) && ValidShift(h, s, r)
    ensures Resting(After(s, r))
  {
    ClearedServes(h, s, r);
    ServingInRun(h, Cleared(s, r), r.work);
    forall k | k in After(s, r).db ensures !OwnerBeats(After(s, r).db[k], After(s, r).beats) {
      QuietNotRunning(After(s, r), k);
    }
  }

  ghost predicate ValidShifts(h: Hypotheses, s: State, shifts: seq<Shift>)
    decreases |shifts|
  {
    shifts == [] || (ValidShift(h, s, shifts[0]) && ValidShifts(h, After(s, shifts[0]), shifts[1..]))
  }

  function Close(s: State, shifts: seq<Shift>): State
    decreases |shifts|
  {
    if shifts == [] then s else Close(After(s, shifts[0]), shifts[1..])
  }

  lemma {:induction false} ShiftsEnd(h: Hypotheses, s: State, shifts: seq<Shift>, id: JobId)
    requires Resting(s) && ValidShifts(h, s, shifts) && id in s.db
    requires Terminal(s.db[id]) || s.db[id].maxAttempts - s.db[id].attempts <= |shifts|
    ensures id in Close(s, shifts).db && Terminal(Close(s, shifts).db[id])
    decreases |shifts|
  {
    assert RowOk(s.db[id]);
    if shifts != [] {
      ShiftRests(h, s, shifts[0]);
      ShiftMoves(h, s, shifts[0], id);
      ShiftsEnd(h, After(s, shifts[0]), shifts[1..], id);
    }
  }

  function AllEvents(shifts: seq<Shift>): seq<Event> {
    if shifts == [] then [] else EventsOf(shifts[0]) + AllEvents(shifts[1..])
  }

  lemma {:induction false} ShiftsAreRun(h: Hypotheses, s: State, shifts: seq<Shift>)
    requires ValidShifts(h, s, shifts)
    ensures Run(h, s, AllEvents(shifts)) && Exec(s, AllEvents(shifts)) == Close(s, shifts)
    decreases |shifts|
  {
    if shifts != [] {
      ShiftIsRun(h, s, shifts[0]);
      ShiftsAreRun(h, After(s, shifts[0]), shifts[1..]);
      RunConcat(h, s, EventsOf(shifts[0]), AllEvents(shifts[1..]));
    }
  }

  /** Shifts are a run. From a state at rest with any tokens, whatever the handlers return and the producers add: after as
      many shifts as a row may have attempts, it is done or dead. */
  lemma ShiftsComplete(h: Hypotheses, s: State, shifts: seq<Shift>, maxAttempts: nat)
    requires Resting(s) && ValidShifts(h, s, shifts) && maxAttempts <= |shifts|
    requires forall k :: k in s.db ==> s.db[k].maxAttempts <= maxAttempts
    ensures Run(h, s, AllEvents(shifts))
    ensures var t := Exec(s, AllEvents(shifts)); forall k :: k in s.db ==> k in t.db && Terminal(t.db[k])
  {
    ShiftsAreRun(h, s, shifts);
    forall k | k in s.db ensures k in Close(s, shifts).db && Terminal(Close(s, shifts).db[k]) {
      ShiftsEnd(h, s, shifts, k);
    }
  }

  // ----- Shifts exist -----

  /** At rest, with a worker for every stage, and with heartbeats if the hypotheses ask for them. */
  ghost predicate Staffed(h: Hypotheses, s: State) {
    && Resting(s) && Manned(s.workers) && Beating(h, s) && R.NoEmptyList(s.lists) && s.pass == Protocol.Resting
  }

  lemma DueLater(db: Db, now: Time, later: Time, threshold: Time)
    requires now <= later && forall k :: k in db ==> Due(db[k], now, threshold)
    ensures PastHorizons(db, later, threshold)
  {
    forall k | k in db ensures Due(db[k], later, threshold) {
      assert Due(db[k], now, threshold);
    }
  }

  lemma SweepExists(h: Hypotheses, s: State) returns (r: Shift)
    requires Staffed(h, s)
    ensures Clears(h, s, r) && Cleared(s, r).pass == Protocol.Resting && R.NoEmptyList(Cleared(s, r).lists)
  {
    var now := HorizonExists(s.db, s.db.Keys, s.threshold);
    var wait := if now < s.now then 0 else now - s.now;
    DueLater(s.db, now, s.now + wait, s.threshold);
    TimePasses(s, wait);
    HomeHolds(h, s, wait);
    var sweep, t := G.SweepIsSteps(h, Apply(s, Tick(wait)), W.NO_FAULTS);
    r := Shift(wait, sweep, []);
    assert Cleared(s, r) == t;
  }

  lemma WithWork(h: Hypotheses, s: State, r: Shift, work: seq<Event>)
    requires Clears(h, s, r)
    ensures var full := r.(work := work);
            Clears(h, s, full) && Cleared(s, full) == Cleared(s, r) && After(s, full) == Exec(Cleared(s, r), work)
  {
  }

  lemma ShiftExists(h: Hypotheses, s: State) returns (r: Shift)
    requires Staffed(h, s)
    ensures ValidShift(h, s, r) && Staffed(h, After(s, r))
  {
    var sweep := SweepExists(h, s);
    ClearedServes(h, s, sweep);
    var work := RestIsNear(h, Cleared(s, sweep));
    WithWork(h, s, sweep, work);
    r := sweep.(work := work);
    ShiftRests(h, s, r);
  }

  /** From any such state there is a run of any number of shifts. */
  lemma {:induction false} ShiftsExist(h: Hypotheses, s: State, n: nat) returns (shifts: seq<Shift>)
    requires Staffed(h, s)
    ensures |shifts| == n && ValidShifts(h, s, shifts)
    decreases n
  {
    if n == 0 {
      shifts := [];
    } else {
      var r := ShiftExists(h, s);
      var rest := ShiftsExist(h, After(s, r), n - 1);
      shifts := [r] + rest;
      assert shifts[0] == r && shifts[1..] == rest;
    }
  }
}
