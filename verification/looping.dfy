/** The loop of Run as protocol steps: undisturbed, it is a run of one worker, and it stops where it has to. */
module Looping {
  import opened Types
  import opened Table
  import opened Processing
  import opened Refinement
  import opened FailStop
  import R = RedisLists
  import P = Protocol
  import Backoff

  /** The calls come one after the other in time. */
  predicate Timely(now: Time, calls: seq<Call>)
    decreases |calls|
  {
    calls == [] || (now <= calls[0].now && Timely(calls[0].now, calls[1..]))
  }

  predicate Proper(h: P.Hypotheses, stage: Stage, c: Call) {
    && Backoff.IsJitter(c.jitter) && Honest(h, c)
    && (c.handled.Named? ==> c.handled.stage == P.NextStage(stage))
  }

  ghost predicate AllProper(h: P.Hypotheses, stage: Stage, calls: seq<Call>) {
    forall i :: 0 <= i < |calls| ==> Proper(h, stage, calls[i])
  }

  predicate Uncancelled(calls: seq<Call>) {
    forall i :: 0 <= i < |calls| ==> !calls[i].cancelled
  }

  /** The job that the handler of a pass is given, if the pass gets that far. */
  function Given(db: Db, ls: R.Lists, stage: Stage, w: WorkerId, c: Call): Option<(JobId, Job)> {
    var queue := R.At(ls, R.Pending(stage));
    if !c.pop.Answered? || queue == [] || R.Last(queue).Garbage? then None else
    var id := R.Last(queue).id;
    var claim := Sent(db, Claim(db, id, w), c.claim);
    if claim.error.Some? || !c.read.Answered? || id !in claim.db then None else Some((id, claim.db[id]))
  }

  /** Every handler that succeeds has found its inputs in the files and Drives of `s`. */
  predicate Supplied(s: P.State, db: Db, ls: R.Lists, stage: Stage, w: WorkerId, calls: seq<Call>)
    decreases |calls|
  {
    calls == [] ||
    (var o, given := OnePass(db, ls, stage, w, calls[0]), Given(db, ls, stage, w, calls[0]);
     && (calls[0].handled.Named? && given.Some? ==> Provided(s, stage, given.value.0, given.value.1))
     && Supplied(s, o.db, o.lists, stage, w, calls[1..]))
  }

  // ----- Inputs stay -----

  ghost predicate StillProvides(s: P.State, t: P.State) {
    forall stage, id, job :: Provided(s, stage, id, job) ==> Provided(t, stage, id, job)
  }

  lemma StepProvides(s: P.State, e: P.Event)
    requires P.Enabled(s, e)
    ensures StillProvides(s, P.Apply(s, e))
  {
  }

  lemma {:induction false} RunProvides(h: P.Hypotheses, s: P.State, events: seq<P.Event>)
    requires P.Run(h, s, events)
    ensures StillProvides(s, P.Exec(s, events))
    decreases |events|
  {
    if events != [] {
      StepProvides(s, events[0]);
      RunProvides(h, P.Apply(s, events[0]), events[1..]);
    }
  }

  lemma {:induction false} SupplyStays(s: P.State, t: P.State, db: Db, ls: R.Lists, stage: Stage, w: WorkerId, calls: seq<Call>)
    requires StillProvides(s, t) && Supplied(s, db, ls, stage, w, calls)
    ensures Supplied(t, db, ls, stage, w, calls)
    decreases |calls|
  {
    if calls != [] {
      var o := OnePass(db, ls, stage, w, calls[0]);
      SupplyStays(s, t, o.db, o.lists, stage, w, calls[1..]);
    }
  }

  // ----- One pass -----

  /** If the handler starts, it is given this job. */
  lemma StartsWith(s: P.State, w: WorkerId, c: Call)
    requires w in s.workers && s.workers[w].pc.Idle?
    ensures var s1 := P.Apply(s, P.OnWorker(w, P.TakeToken(c.pop)));
            w in s1.workers && s1.workers[w].stage == s.workers[w].stage
    ensures var s1 := P.Apply(s, P.OnWorker(w, P.TakeToken(c.pop)));
            s1.workers[w].pc.Popped? && Starts(s1, w, c) ==>
              var pc := AtHandler(s1, w, c).workers[w].pc;
              && Given(s.db, s.lists, s.workers[w].stage, w, c) == Some((pc.id, pc.job)) && pc.writes == 0
              && AtHandler(s1, w, c).workers[w].stage == s.workers[w].stage
  {
    var s1 := P.Apply(s, P.OnWorker(w, P.TakeToken(c.pop)));
    TakeView(s, w, c);
    if s1.workers[w].pc.Popped? {
      var s2 := P.Apply(s1, P.OnWorker(w, P.ClaimRow(c.claim)));
      ClaimView(s1, w, c.claim);
      if s2.workers[w].pc.Claimed? {
        ReadView(s2, w, c.read);
      }
    }
  }

  /** Up to the handler nothing is written that it could miss. */
  lemma HandlerProvided(s: P.State, w: WorkerId, c: Call)
    requires w in s.workers && s.workers[w].pc.Idle?
    ensures var s1 := P.Apply(s, P.OnWorker(w, P.TakeToken(c.pop)));
            s1.workers[w].pc.Popped? && Starts(s1, w, c) ==> StillProvides(s, AtHandler(s1, w, c))
  {
    var s1 := P.Apply(s, P.OnWorker(w, P.TakeToken(c.pop)));
    StepProvides(s, P.OnWorker(w, P.TakeToken(c.pop)));
    if s1.workers[w].pc.Popped? && Starts(s1, w, c) {
      var s2 := P.Apply(s1, P.OnWorker(w, P.ClaimRow(c.claim)));
      StepProvides(s1, P.OnWorker(w, P.ClaimRow(c.claim)));
      ClaimView(s1, w, c.claim);
      StepProvides(s2, P.OnWorker(w, P.ReadRow(c.read)));
    }
  }

  /** One pass with some writes that its handler can do. */
  lemma TurnIsSteps(h: P.Hypotheses, s: P.State, w: WorkerId, c: Call) returns (events: seq<P.Event>)
    requires Ready(h, s, w, c)
    requires var given := Given(s.db, s.lists, s.workers[w].stage, w, c);
             c.handled.Named? && given.Some? ==> Provided(s, s.workers[w].stage, given.value.0, given.value.1)
    ensures P.Run(h, s, events)
    ensures var o, t := OnePass(s.db, s.lists, s.workers[w].stage, w, c), P.Exec(s, events);
            && t.db == o.db && t.lists == o.lists && Calm(h, t, w) && t.now == s.now
            && w in t.workers && t.workers[w] == P.Worker(s.workers[w].stage, if o.error == PostClaim then P.Down else P.Idle)
  {
    var s1 := P.Apply(s, P.OnWorker(w, P.TakeToken(c.pop)));
    StartsWith(s, w, c);
    HandlerProvided(s, w, c);
    var writes := [];
    if s1.workers[w].pc.Popped? && Starts(s1, w, c) && c.handled.Named? {
      writes := CanSucceed(AtHandler(s1, w, c), w, c);
    }
    events := PassIsSteps(h, s, w, c, writes);
  }

  // ----- The loop -----

  /** The time between two passes. */
  lemma TimePasses(h: P.Hypotheses, s: P.State, w: WorkerId, until: Time)
    requires s.now <= until && w in s.workers && Calm(h, s, w)
    ensures var (e, t) := (P.Tick(until - s.now), P.Apply(s, P.Tick(until - s.now)));
            && P.Run(h, s, [e]) && P.Exec(s, [e]) == t && Calm(h, t, w) && t.now == until
            && t.db == s.db && t.lists == s.lists && t.workers == s.workers && StillProvides(s, t)
  {
    var e := P.Tick(until - s.now);
    StepProvides(s, e);
    assert [e][1..] == [];
    assert P.Permits(h, s, e) && P.Run(h, P.Apply(s, e), []);
  }

  /** The next pass, after the time until it. */
  lemma NextTurn(h: P.Hypotheses, s: P.State, w: WorkerId, c: Call) returns (events: seq<P.Event>)
    requires w in s.workers && s.workers[w].pc.Idle? && Calm(h, s, w) && s.now <= c.now && Proper(h, s.workers[w].stage, c)
    requires var given := Given(s.db, s.lists, s.workers[w].stage, w, c);
             c.handled.Named? && given.Some? ==> Provided(s, s.workers[w].stage, given.value.0, given.value.1)
    ensures P.Run(h, s, events) && StillProvides(s, P.Exec(s, events))
    ensures var o, t := OnePass(s.db, s.lists, s.workers[w].stage, w, c), P.Exec(s, events);
            && t.db == o.db && t.lists == o.lists && Calm(h, t, w) && t.now == c.now
            && w in t.workers && t.workers[w] == P.Worker(s.workers[w].stage, if o.error == PostClaim then P.Down else P.Idle)
  {
    TimePasses(h, s, w, c.now);
    var tick := P.Tick(c.now - s.now);
    var more := TurnIsSteps(h, P.Apply(s, tick), w, c);
    P.RunConcat(h, s, [tick], more);
    events := [tick] + more;
    RunProvides(h, s, events);
  }

  /** The pass is the last one. */
  predicate Stops(error: RunError, cancelled: bool) {
    (error != Fine && cancelled) || error == PostClaim
  }

  /** The state has the table and the lists that Run leaves, and the worker is down if Run returned errPostClaim and, unless
      its context was cancelled, only then. */
  predicate LeftBy(t: P.State, db: Db, ls: R.Lists, stage: Stage, w: WorkerId, calls: seq<Call>) {
    var o := RunOver(db, ls, stage, w, calls);
    && t.db == o.db && t.lists == o.lists && w in t.workers && t.workers[w].pc in {P.Idle, P.Down}
    && (o.error == PostClaim ==> t.workers[w].pc == P.Down)
    && (Uncancelled(calls) && o.error != PostClaim ==> t.workers[w].pc == P.Idle)
  }

  lemma LeftByLast(t: P.State, db: Db, ls: R.Lists, stage: Stage, w: WorkerId, calls: seq<Call>)
    requires calls != [] && Stops(OnePass(db, ls, stage, w, calls[0]).error, calls[0].cancelled)
    requires var o := OnePass(db, ls, stage, w, calls[0]);
             && t.db == o.db && t.lists == o.lists && w in t.workers
             && t.workers[w].pc == if o.error == PostClaim then P.Down else P.Idle
    ensures LeftBy(t, db, ls, stage, w, calls)
  {
    assert Uncancelled(calls) ==> !calls[0].cancelled;
  }

  lemma LeftByMore(t: P.State, db: Db, ls: R.Lists, stage: Stage, w: WorkerId, calls: seq<Call>)
    requires calls != [] && !Stops(OnePass(db, ls, stage, w, calls[0]).error, calls[0].cancelled)
    requires var o := OnePass(db, ls, stage, w, calls[0]); LeftBy(t, o.db, o.lists, stage, w, calls[1..])
    ensures LeftBy(t, db, ls, stage, w, calls)
  {
    assert Uncancelled(calls) ==> Uncancelled(calls[1..]);
  }

  /** What the next pass needs. */
  lemma FirstIsProper(h: P.Hypotheses, s: P.State, stage: Stage, w: WorkerId, calls: seq<Call>)
    requires calls != [] && Timely(s.now, calls) && AllProper(h, stage, calls)
    requires Supplied(s, s.db, s.lists, stage, w, calls)
    ensures s.now <= calls[0].now && Proper(h, stage, calls[0]) && Timely(calls[0].now, calls[1..])
    ensures AllProper(h, stage, calls[1..])
    ensures var given := Given(s.db, s.lists, stage, w, calls[0]);
            calls[0].handled.Named? && given.Some? ==> Provided(s, stage, given.value.0, given.value.1)
    ensures var o := OnePass(s.db, s.lists, stage, w, calls[0]); Supplied(s, o.db, o.lists, stage, w, calls[1..])
  {
  }

  /** Undisturbed, the loop of Run is a run of the worker's protocol steps, whatever its calls answer. It ends with the table
      and the lists that Run leaves, and with the worker down if Run returned errPostClaim, and, unless its context was
      cancelled, only then. */
  lemma {:induction false} LoopIsSteps(h: P.Hypotheses, s: P.State, w: WorkerId, calls: seq<Call>)
    returns (events: seq<P.Event>)
    requires w in s.workers && s.workers[w].pc.Idle? && Calm(h, s, w)
    requires Timely(s.now, calls) && AllProper(h, s.workers[w].stage, calls)
    requires Supplied(s, s.db, s.lists, s.workers[w].stage, w, calls)
    ensures P.Run(h, s, events) && LeftBy(P.Exec(s, events), s.db, s.lists, s.workers[w].stage, w, calls)
    decreases |calls|
  {
    events := [];
    if calls != [] {
      var c, stage := calls[0], s.workers[w].stage;
      FirstIsProper(h, s, stage, w, calls);
      events := NextTurn(h, s, w, c);
      var t := P.Exec(s, events);
      if Stops(OnePass(s.db, s.lists, stage, w, c).error, c.cancelled) {
        LeftByLast(t, s.db, s.lists, stage, w, calls);
      } else {
        SupplyStays(s, t, t.db, t.lists, stage, w, calls[1..]);
        var more := LoopIsSteps(h, t, w, calls[1..]);
        P.RunConcat(h, s, events, more);
        LeftByMore(P.Exec(t, more), s.db, s.lists, stage, w, calls);
        events := events + more;
      }
    }
  }

  // ----- Where the loop stops -----

  /** The table and the lists after the first n passes, and what pass number n returns. */
  function Passes(db: Db, ls: R.Lists, stage: Stage, w: WorkerId, calls: seq<Call>, n: nat): (Db, R.Lists)
    requires n <= |calls|
  {
    if n == 0 then (db, ls) else
      var (db', ls') := Passes(db, ls, stage, w, calls, n - 1);
      var o := OnePass(db', ls', stage, w, calls[n - 1]);
      (o.db, o.lists)
  }

  function ErrorOf(db: Db, ls: R.Lists, stage: Stage, w: WorkerId, calls: seq<Call>, n: nat): RunError
    requires n < |calls|
  {
    var (db', ls') := Passes(db, ls, stage, w, calls, n);
    OnePass(db', ls', stage, w, calls[n]).error
  }

  /** The loop goes on after pass number n. */
  predicate PassesOn(db: Db, ls: R.Lists, stage: Stage, w: WorkerId, calls: seq<Call>, n: nat)
    requires n < |calls|
  {
    var error := ErrorOf(db, ls, stage, w, calls, n);
    error == Fine || (error == Recoverable && !calls[n].cancelled)
  }

  lemma {:induction false} PassesShift(db: Db, ls: R.Lists, stage: Stage, w: WorkerId, calls: seq<Call>, n: nat)
    requires 0 < n <= |calls|
    ensures var o := OnePass(db, ls, stage, w, calls[0]);
            Passes(db, ls, stage, w, calls, n) == Passes(o.db, o.lists, stage, w, calls[1..], n - 1)
  {
    if n > 1 {
      PassesShift(db, ls, stage, w, calls, n - 1);
    }
  }

  lemma PassesOnShift(db: Db, ls: R.Lists, stage: Stage, w: WorkerId, calls: seq<Call>, n: nat)
    requires 0 < n < |calls|
    ensures var o := OnePass(db, ls, stage, w, calls[0]);
            && ErrorOf(db, ls, stage, w, calls, n) == ErrorOf(o.db, o.lists, stage, w, calls[1..], n - 1)
            && PassesOn(db, ls, stage, w, calls, n) == PassesOn(o.db, o.lists, stage, w, calls[1..], n - 1)
  {
    PassesShift(db, ls, stage, w, calls, n);
  }

  /** The loop ends with what the first n passes have left, and returns errPostClaim if the last of them did while the
      context was not cancelled. */
  predicate EndsAfter(o: Exit, db: Db, ls: R.Lists, stage: Stage, w: WorkerId, calls: seq<Call>, n: nat)
    requires 0 < n <= |calls|
  {
    && (o.db, o.lists) == Passes(db, ls, stage, w, calls, n) && o.error in {Fine, PostClaim}
    && (o.error == PostClaim <==> ErrorOf(db, ls, stage, w, calls, n - 1) == PostClaim && !calls[n - 1].cancelled)
  }

  lemma FirstPass(db: Db, ls: R.Lists, stage: Stage, w: WorkerId, calls: seq<Call>)
    requires calls != []
    ensures var o, error := OnePass(db, ls, stage, w, calls[0]), ErrorOf(db, ls, stage, w, calls, 0);
            error == o.error && (o.db, o.lists) == Passes(db, ls, stage, w, calls, 1)
  {
    assert Passes(db, ls, stage, w, calls, 0) == (db, ls);
  }

  lemma EndsShift(o: Exit, db: Db, ls: R.Lists, stage: Stage, w: WorkerId, calls: seq<Call>, n: nat)
    requires 1 < n <= |calls|
    requires var first := OnePass(db, ls, stage, w, calls[0]);
             EndsAfter(o, first.db, first.lists, stage, w, calls[1..], n - 1)
    ensures EndsAfter(o, db, ls, stage, w, calls, n)
  {
    PassesShift(db, ls, stage, w, calls, n);
    PassesOnShift(db, ls, stage, w, calls, n - 1);
  }

  ghost predicate AllPassOn(db: Db, ls: R.Lists, stage: Stage, w: WorkerId, calls: seq<Call>, n: nat)
    requires n <= |calls|
  {
    forall i :: 0 <= i < n ==> PassesOn(db, ls, stage, w, calls, i)
  }

  lemma AllPassOnShift(db: Db, ls: R.Lists, stage: Stage, w: WorkerId, calls: seq<Call>, n: nat)
    requires 0 < n <= |calls| && PassesOn(db, ls, stage, w, calls, 0)
    requires var o := OnePass(db, ls, stage, w, calls[0]); AllPassOn(o.db, o.lists, stage, w, calls[1..], n - 1)
    ensures AllPassOn(db, ls, stage, w, calls, n)
  {
    var o := OnePass(db, ls, stage, w, calls[0]);
    forall i | 0 <= i < n ensures PassesOn(db, ls, stage, w, calls, i) {
      if i > 0 {
        assert PassesOn(o.db, o.lists, stage, w, calls[1..], i - 1);
        PassesOnShift(db, ls, stage, w, calls, i);
      }
    }
  }

  /** With one pass the loop ends, or goes on with the rest. */
  lemma AfterFirstPass(db: Db, ls: R.Lists, stage: Stage, w: WorkerId, calls: seq<Call>)
    requires calls != []
    ensures var (o, run) := (OnePass(db, ls, stage, w, calls[0]), RunOver(db, ls, stage, w, calls));
            if PassesOn(db, ls, stage, w, calls, 0) then run == RunOver(o.db, o.lists, stage, w, calls[1..])
            else EndsAfter(run, db, ls, stage, w, calls, 1)
  {
    FirstPass(db, ls, stage, w, calls);
  }

  lemma OnlyPass(db: Db, ls: R.Lists, stage: Stage, w: WorkerId, c: Call)
    ensures EndsAfter(RunOver(db, ls, stage, w, [c]), db, ls, stage, w, [c], 1)
  {
    FirstPass(db, ls, stage, w, [c]);
    assert [c][1..] == [];
  }

  /** The loop stops after n passes and not before: with the first pass that returns errPostClaim, or an error once the
      context is cancelled. It returns errPostClaim exactly if the last pass did in a context that was not cancelled. */
  lemma {:induction false} LoopStopsExactly(db: Db, ls: R.Lists, stage: Stage, w: WorkerId, calls: seq<Call>)
    returns (n: nat)
    requires calls != []
    ensures 0 < n <= |calls| && EndsAfter(RunOver(db, ls, stage, w, calls), db, ls, stage, w, calls, n)
    ensures AllPassOn(db, ls, stage, w, calls, n - 1) && (n < |calls| ==> !PassesOn(db, ls, stage, w, calls, n - 1))
    decreases |calls|
  {
    AfterFirstPass(db, ls, stage, w, calls);
    if |calls| == 1 {
      OnlyPass(db, ls, stage, w, calls[0]);
      assert calls == [calls[0]];
      n := 1;
    } else if PassesOn(db, ls, stage, w, calls, 0) {
      var o := OnePass(db, ls, stage, w, calls[0]);
      var more := LoopStopsExactly(o.db, o.lists, stage, w, calls[1..]);
      n := OneMorePass(db, ls, stage, w, calls, more);
    } else {
      n := 1;
    }
  }

  lemma OneMorePass(db: Db, ls: R.Lists, stage: Stage, w: WorkerId, calls: seq<Call>, more: nat) returns (n: nat)
    requires 0 < more < |calls| && PassesOn(db, ls, stage, w, calls, 0)
    requires var o := OnePass(db, ls, stage, w, calls[0]);
             && RunOver(db, ls, stage, w, calls) == RunOver(o.db, o.lists, stage, w, calls[1..])
             && EndsAfter(RunOver(o.db, o.lists, stage, w, calls[1..]), o.db, o.lists, stage, w, calls[1..], more)
             && AllPassOn(o.db, o.lists, stage, w, calls[1..], more - 1)
             && (more < |calls| - 1 ==> !PassesOn(o.db, o.lists, stage, w, calls[1..], more - 1))
    ensures 0 < n <= |calls| && EndsAfter(RunOver(db, ls, stage, w, calls), db, ls, stage, w, calls, n)
    ensures AllPassOn(db, ls, stage, w, calls, n - 1) && (n < |calls| ==> !PassesOn(db, ls, stage, w, calls, n - 1))
  {
    n := more + 1;
    EndsShift(RunOver(db, ls, stage, w, calls), db, ls, stage, w, calls, n);
    AllPassOnShift(db, ls, stage, w, calls, more);
    if n < |calls| {
      PassesOnShift(db, ls, stage, w, calls, more);
    }
  }

  /** A loop that neither returns errPostClaim nor is cancelled leaves its worker no running row it did not have before, unless
      the answer to a claim was lost. */
  lemma {:induction false} LoopLeavesNothing(db: Db, ls: R.Lists, stage: Stage, w: WorkerId, calls: seq<Call>, id: JobId)
    requires RunOver(db, ls, stage, w, calls).error != PostClaim && Uncancelled(calls)
    requires forall i :: 0 <= i < |calls| ==> calls[i].claim != Lost
    requires Owns(RunOver(db, ls, stage, w, calls).db, w, id)
    ensures Owns(db, w, id)
    decreases |calls|
  {
    if calls != [] {
      var o := OnePass(db, ls, stage, w, calls[0]);
      LoopLeavesNothing(o.db, o.lists, stage, w, calls[1..], id);
      PassLeavesNothing(db, ls, stage, w, calls[0], id);
    }
  }
}
