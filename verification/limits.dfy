/** One run without heartbeats in which two workers work on the same job. */
module Limits {
  import opened Types
  import opened Table
  import opened Protocol
  import opened FailStop
  import opened Traces
  import R = RedisLists
  import Sweeping

  const DEMO := NewJob(Test, None, None, true)
  const TOKEN := Uuid(0)
  const EMPTY := State(map[], map[], {}, map[], Resting, map[], 0, 0, Files({}, {}, map[]), map[], map[],
                       Log(multiset{}, multiset{}, multiset{}, multiset{}, multiset{}))

  function Fresh(): Job {
    NewRow(0, DEMO, 0)
  }

  function ClaimedBy(j: Job, w: WorkerId): Job {
    j.(status := Running, worker := Some(w))
  }

  function Taken(): Job {
    ClaimedBy(Fresh(), "a")
  }

  function Marked(): Job {
    AfterFailure(Taken(), "worker died", 0)
  }

  /** What matters of a state once both workers have started. */
  predicate Looks(s: State, row: Job, lists: R.Lists, a: Pc, b: Pc, pass: Pass) {
    && s.db == map[0 := row] && s.lists == lists && s.beats == {} && s.now == 0
    && "a" in s.workers && s.workers["a"] == Worker(Test, a) && "b" in s.workers && s.workers["b"] == Worker(Test, b)
    && s.pass == pass
  }

  function Pending(): R.Lists {
    map[R.Pending(Test) := [TOKEN]]
  }

  function HeldByA(): R.Lists {
    map[R.Processing(Test, "a") := [TOKEN]]
  }

  function Promoted(): R.Lists {
    HeldByA()[R.Pending(Test) := [TOKEN]]
  }

  function HeldByBoth(): R.Lists {
    HeldByA()[R.Processing(Test, "b") := [TOKEN]]
  }

  lemma PopLists()
    ensures R.Perform(Pending(), R.PopFor(Test, "a")) == HeldByA()
    ensures R.Perform(Promoted(), R.PopFor(Test, "b")) == HeldByBoth()
  {
    var queue := [TOKEN];
    assert R.Front(queue) == [] && [TOKEN] + [] == queue;
    var popped := R.Put(R.Put(Promoted(), R.Pending(Test), []), R.Processing(Test, "b"), queue);
    assert popped == HeldByBoth();
    assert R.Put(R.Put(Pending(), R.Pending(Test), []), R.Processing(Test, "a"), queue) == HeldByA();
  }

  /** What the statements of the run do to the table. */
  lemma Statements()
    ensures Enqueue(map[], 0, DEMO, 0) == Written(map[0 := Fresh()], None)
    ensures Claim(map[0 := Fresh()], 0, "a") == Written(map[0 := Taken()], None)
    ensures Fail(map[0 := Taken()], 0, "worker died", 0) == Written(map[0 := Marked()], None)
    ensures Claim(map[0 := Marked()], 0, "b") == Written(map[0 := TakenByB()], None)
  {
  }

  lemma BFinishesRow()
    ensures Finish(map[0 := TakenByB()], 0) == Written(map[0 := Finished()], None)
  {
  }

  lemma PushLists()
    ensures R.Perform(HeldByA(), R.PushTo(Test, TOKEN)) == Promoted()
    ensures R.Perform(map[], R.PushTo(Test, TOKEN)) == Pending()
  {
    assert [TOKEN] + [] == [TOKEN];
  }

  lemma Taking(before: seq<Event>, s: State, w: WorkerId) returns (events: seq<Event>, s': State)
    requires Reached(EMPTY, before, s) && w in s.workers && s.workers[w].pc.Idle?
    requires R.At(s.lists, R.Pending(s.workers[w].stage)) != []
    ensures Reached(EMPTY, events, s') && s'.db == s.db && s'.pass == s.pass && s'.beats == s.beats && s'.now == s.now
    ensures var stage := s.workers[w].stage;
            && s'.lists == R.Perform(s.lists, R.PopFor(stage, w))
            && s'.workers == s.workers[w := Worker(stage, Popped(R.Last(R.At(s.lists, R.Pending(stage)))))]
  {
    events, s' := Acting(EMPTY, before, s, w, TakeToken(Answered));
  }

  lemma Claiming(before: seq<Event>, s: State, w: WorkerId, id: JobId) returns (events: seq<Event>, s': State)
    requires Reached(EMPTY, before, s) && w in s.workers && s.workers[w].pc == Popped(Uuid(id))
    requires Claim(s.db, id, w).error.None?
    ensures Reached(EMPTY, events, s') && s'.pass == s.pass && s'.beats == s.beats && s'.now == s.now && s'.lists == s.lists
    ensures s'.db == Claim(s.db, id, w).db && s'.workers == s.workers[w := Worker(s.workers[w].stage, Claimed(id))]
  {
    ClaimGoesThrough(s, w, id);
    events, s' := Acting(EMPTY, before, s, w, ClaimRow(Answered));
  }

  lemma TwoNames()
    ensures "a" != "b"
  {
    assert "a"[0] != "b"[0];
  }

  lemma ATakes(before: seq<Event>, s: State) returns (events: seq<Event>, s': State)
    requires Reached(EMPTY, before, s) && Looks(s, Fresh(), Pending(), Idle, Idle, Resting)
    ensures Reached(EMPTY, events, s') && Looks(s', Fresh(), HeldByA(), Popped(TOKEN), Idle, Resting)
  {
    PopLists();
    TwoNames();
    events, s' := Taking(before, s, "a");
  }

  lemma AClaims(before: seq<Event>, s: State) returns (events: seq<Event>, s': State)
    requires Reached(EMPTY, before, s) && Looks(s, Fresh(), HeldByA(), Popped(TOKEN), Idle, Resting)
    ensures Reached(EMPTY, events, s') && Looks(s', Taken(), HeldByA(), Claimed(0), Idle, Resting)
  {
    TwoNames();
    Statements();
    events, s' := Claiming(before, s, "a", 0);
  }

  /** A step of the sweeper that only looks. */
  lemma Looking(before: seq<Event>, s: State, b: SweepAction) returns (events: seq<Event>, s': State)
    requires Reached(EMPTY, before, s) && SweepEnabled(s, b) && ReplyOf(OnSweeper(b)) != Lost
    requires !b.MoveOne? && !b.Revive? && !b.Promote? && !b.Repush?
    ensures Reached(EMPTY, events, s') && Sweeping.Only(s, s')
    ensures s'.db == s.db && s'.lists == s.lists && s'.pass == PassAfter(s, b)
  {
    s' := Sweeping.LookLeads(NO_TIMING, s, b);
    RunConcat(NO_TIMING, EMPTY, before, [OnSweeper(b)]);
    events := before + [OnSweeper(b)];
  }

  lemma ScanFindsA()
    ensures IsScan([Ref(Test, "a")], HeldByA())
  {
    assert [Ref(Test, "a")][0] == Ref(Test, "a");
  }

  lemma Scans(before: seq<Event>, s: State) returns (events: seq<Event>, s': State)
    requires Reached(EMPTY, before, s) && Looks(s, Taken(), HeldByA(), Claimed(0), Idle, Resting)
    ensures Reached(EMPTY, events, s') && Looks(s', Taken(), HeldByA(), Claimed(0), Idle, Reclaiming([Ref(Test, "a")]))
  {
    ScanFindsA();
    events, s' := Looking(before, s, Scan([Ref(Test, "a")]));
  }

  lemma Skips(before: seq<Event>, s: State) returns (events: seq<Event>, s': State)
    requires Reached(EMPTY, before, s) && Looks(s, Taken(), HeldByA(), Claimed(0), Idle, Reclaiming([Ref(Test, "a")]))
    ensures Reached(EMPTY, events, s') && Looks(s', Taken(), HeldByA(), Claimed(0), Idle, Reclaiming([]))
  {
    assert [Ref(Test, "a")][1..] == [];
    events, s' := Looking(before, s, CheckRef(Refused));
  }

  lemma Lists(before: seq<Event>, s: State) returns (events: seq<Event>, s': State)
    requires Reached(EMPTY, before, s) && Looks(s, Taken(), HeldByA(), Claimed(0), Idle, Reclaiming([]))
    ensures Reached(EMPTY, events, s') && Looks(s', Taken(), HeldByA(), Claimed(0), Idle, Reviving([Taken()]))
  {
    assert [Taken()][0].id == 0;
    events, s' := Looking(before, s, ListRunning([Taken()]));
  }

  lemma Checks(before: seq<Event>, s: State) returns (events: seq<Event>, s': State)
    requires Reached(EMPTY, before, s) && Looks(s, Taken(), HeldByA(), Claimed(0), Idle, Reviving([Taken()]))
    ensures Reached(EMPTY, events, s') && Looks(s', Taken(), HeldByA(), Claimed(0), Idle, Marking(Taken(), []))
  {
    assert [Taken()][1..] == [];
    events, s' := Looking(before, s, CheckOwner(Answered));
  }

  lemma Marks(before: seq<Event>, s: State) returns (events: seq<Event>, s': State)
    requires Reached(EMPTY, before, s) && Looks(s, Taken(), HeldByA(), Claimed(0), Idle, Marking(Taken(), []))
    ensures Reached(EMPTY, events, s') && Looks(s', Marked(), HeldByA(), Claimed(0), Idle, Reviving([]))
  {
    Statements();
    s' := Sweeping.ReviveLeads(NO_TIMING, s, Answered);
    ThenAll(EMPTY, before, s, [OnSweeper(Revive(Answered))], s');
    events := before + [OnSweeper(Revive(Answered))];
  }

  lemma FindsRetry(before: seq<Event>, s: State) returns (events: seq<Event>, s': State)
    requires Reached(EMPTY, before, s) && Looks(s, Marked(), HeldByA(), Claimed(0), Idle, Reviving([]))
    ensures Reached(EMPTY, events, s') && Looks(s', Marked(), HeldByA(), Claimed(0), Idle, Promoting([Marked()]))
  {
    assert [Marked()][0].id == 0;
    events, s' := Looking(before, s, ListReady([Marked()]));
  }

  lemma Promotes(before: seq<Event>, s: State) returns (events: seq<Event>, s': State)
    requires Reached(EMPTY, before, s) && Looks(s, Marked(), HeldByA(), Claimed(0), Idle, Promoting([Marked()]))
    ensures Reached(EMPTY, events, s') && Looks(s', Marked(), Promoted(), Claimed(0), Idle, Promoting([]))
  {
    assert Rest([Marked()]) == [];
    PushLists();
    s' := Sweeping.CommandLeads(NO_TIMING, s, Promote(Answered));
    ThenAll(EMPTY, before, s, [OnSweeper(Promote(Answered))], s');
    events := before + [OnSweeper(Promote(Answered))];
  }

  lemma BTakes(before: seq<Event>, s: State) returns (events: seq<Event>, s': State)
    requires Reached(EMPTY, before, s) && Looks(s, Marked(), Promoted(), Claimed(0), Idle, Promoting([]))
    ensures Reached(EMPTY, events, s') && Looks(s', Marked(), HeldByBoth(), Claimed(0), Popped(TOKEN), Promoting([]))
  {
    PopLists();
    TwoNames();
    events, s' := Taking(before, s, "b");
  }

  lemma BClaims(before: seq<Event>, s: State) returns (events: seq<Event>, s': State)
    requires Reached(EMPTY, before, s) && Looks(s, Marked(), HeldByBoth(), Claimed(0), Popped(TOKEN), Promoting([]))
    ensures Reached(EMPTY, events, s') && Looks(s', TakenByB(), HeldByBoth(), Claimed(0), Claimed(0), Promoting([]))
  {
    TwoNames();
    Statements();
    events, s' := Claiming(before, s, "b", 0);
  }

  lemma Starts() returns (events: seq<Event>, s: State)
    ensures Reached(EMPTY, events, s) && s.db == map[] && s.lists == map[] && s.beats == {} && s.now == 0
    ensures s.pass == Resting && s.producers == map[]
    ensures "a" in s.workers && s.workers["a"] == Worker(Test, Idle) && "b" in s.workers && s.workers["b"] == Worker(Test, Idle)
  {
    TwoNames();
    assert Run(NO_TIMING, EMPTY, []) && Exec(EMPTY, []) == EMPTY;
    events, s := Starting(EMPTY, [], EMPTY, "a", Test);
    events, s := Starting(EMPTY, events, s, "b", Test);
  }

  lemma Inserts(before: seq<Event>, s: State) returns (events: seq<Event>, s': State)
    requires Reached(EMPTY, before, s) && s.db == map[] && s.lists == map[] && s.beats == {} && s.now == 0
    requires s.pass == Resting && s.producers == map[]
    requires "a" in s.workers && s.workers["a"] == Worker(Test, Idle) && "b" in s.workers && s.workers["b"] == Worker(Test, Idle)
    ensures Reached(EMPTY, events, s') && Looks(s', Fresh(), map[], Idle, Idle, Resting) && ProducerAt(s', 0) == Inserted(0, Test)
  {
    Statements();
    events, s' := Inserting(EMPTY, before, s, 0, 0, DEMO);
  }

  lemma Pushes(before: seq<Event>, s: State) returns (events: seq<Event>, s': State)
    requires Reached(EMPTY, before, s) && Looks(s, Fresh(), map[], Idle, Idle, Resting) && ProducerAt(s, 0) == Inserted(0, Test)
    ensures Reached(EMPTY, events, s') && Looks(s', Fresh(), Pending(), Idle, Idle, Resting)
  {
    PushLists();
    events, s' := PushingNew(EMPTY, before, s, 0);
  }

  lemma UpToClaim() returns (events: seq<Event>, s: State)
    ensures Reached(EMPTY, events, s) && Looks(s, Taken(), HeldByA(), Claimed(0), Idle, Resting)
  {
    events, s := Starts();
    events, s := Inserts(events, s);
    events, s := Pushes(events, s);
    events, s := ATakes(events, s);
    events, s := AClaims(events, s);
  }

  lemma UpToMark() returns (events: seq<Event>, s: State)
    ensures Reached(EMPTY, events, s) && Looks(s, Marked(), HeldByA(), Claimed(0), Idle, Reviving([]))
  {
    events, s := UpToClaim();
    events, s := Scans(events, s);
    events, s := Skips(events, s);
    events, s := Lists(events, s);
    events, s := Checks(events, s);
    events, s := Marks(events, s);
  }

  /** Up to the moment when both workers have claimed the job. */
  lemma UpToSecondClaim() returns (events: seq<Event>, s: State)
    ensures Reached(EMPTY, events, s) && Looks(s, TakenByB(), HeldByBoth(), Claimed(0), Claimed(0), Promoting([]))
  {
    events, s := UpToMark();
    events, s := FindsRetry(events, s);
    events, s := Promotes(events, s);
    events, s := BTakes(events, s);
    events, s := BClaims(events, s);
  }

  /** Exclusion does not hold of the code without H1: in some run, started from nothing and with honest replies,
      two workers are between claim and settle of the same job. */
  lemma TwoWorkersOneJob() returns (events: seq<Event>)
    ensures Init(EMPTY) && Run(NO_TIMING, EMPTY, events)
    ensures var t := Exec(EMPTY, events);
            "a" in t.workers && "b" in t.workers && Holds(t.workers["a"].pc, 0) && Holds(t.workers["b"].pc, 0)
  {
    var s;
    events, s := UpToSecondClaim();
  }

  // ----- A done job comes back -----

  /** The handler answers at once. */
  lemma Answers(s: State, w: WorkerId, failure: Option<string>)
    requires w in s.workers && s.workers[w].pc.Working? && s.workers[w].stage == Test
    ensures var (e, pc) := (OnWorker(w, HandlerReturn(failure, 1.0)), s.workers[w].pc);
            && Result(s, e).db == s.db && ListsAfter(s, e) == s.lists
            && PcAfter(s, w, e.action) == Returned(s.now, Test, pc.id, pc.job, failure, 1.0)
  {
    var e := OnWorker(w, HandlerReturn(failure, 1.0));
    assert StatementOf(s, e) == NoStatement && CommandOf(s, e) == R.NoCommand;
  }

  lemma Settling(s: State, w: WorkerId, t: Statement)
    requires w in s.workers && (s.workers[w].pc.Failing? || s.workers[w].pc.Finishing?)
    requires t == SettleStatement(s.workers[w].pc) && Execute(s.db, t).error.None?
    ensures var (e, pc) := (OnWorker(w, SettleRow(Answered)), s.workers[w].pc);
            && Result(s, e) == Execute(s.db, t) && ListsAfter(s, e) == s.lists
            && PcAfter(s, w, e.action) == Acking(Uuid(pc.id))
  {
    var e := OnWorker(w, SettleRow(Answered));
    assert StatementOf(s, e) == t && CommandOf(s, e) == R.NoCommand;
  }

  function TakenByB(): Job {
    ClaimedBy(Marked(), "b")
  }

  function Finished(): Job {
    TakenByB().(status := Done)
  }

  /** b's handler succeeds, and the job is done. */
  lemma BFinishes(before: seq<Event>, s: State) returns (events: seq<Event>, s': State)
    requires Reached(EMPTY, before, s) && Looks(s, TakenByB(), HeldByBoth(), Claimed(0), Claimed(0), Promoting([]))
    ensures Reached(EMPTY, events, s') && Looks(s', Finished(), HeldByBoth(), Claimed(0), Acking(TOKEN), Promoting([]))
  {
    TwoNames();
    ReadsRow(s, "b", 0);
    events, s' := Acting(EMPTY, before, s, "b", ReadRow(Answered));
    events, s' := BAnswers(events, s');
  }

  lemma BAnswers(before: seq<Event>, s: State) returns (events: seq<Event>, s': State)
    requires Reached(EMPTY, before, s)
    requires Looks(s, TakenByB(), HeldByBoth(), Claimed(0), Working(0, TakenByB(), 0, Home(TakenByB())), Promoting([]))
    ensures Reached(EMPTY, events, s') && Looks(s', Finished(), HeldByBoth(), Claimed(0), Acking(TOKEN), Promoting([]))
  {
    TwoNames();
    Answers(s, "b", None);
    events, s' := Acting(EMPTY, before, s, "b", HandlerReturn(None, 1.0));
    events, s' := BSettles(events, s');
  }

  lemma BSettles(before: seq<Event>, s: State) returns (events: seq<Event>, s': State)
    requires Reached(EMPTY, before, s) && Looks(s, TakenByB(), HeldByBoth(), Claimed(0), Finishing(0), Promoting([]))
    ensures Reached(EMPTY, events, s') && Looks(s', Finished(), HeldByBoth(), Claimed(0), Acking(TOKEN), Promoting([]))
  {
    TwoNames();
    BFinishesRow();
    Settling(s, "b", FinishRow(0));
    events, s' := Acting(EMPTY, before, s, "b", SettleRow(Answered));
  }

  /** Meanwhile a's handler has failed. */
  lemma AFails(before: seq<Event>, s: State) returns (events: seq<Event>, s': State)
    requires Reached(EMPTY, before, s) && Looks(s, Finished(), HeldByBoth(), Claimed(0), Acking(TOKEN), Promoting([]))
    ensures Reached(EMPTY, events, s') && s'.db == map[0 := Finished()] && "a" in s'.workers
    ensures s'.workers["a"].pc.Failing? && s'.workers["a"].pc.id == 0
  {
    ReadsRow(s, "a", 0);
    events, s' := Acting(EMPTY, before, s, "a", ReadRow(Answered));
    Answers(s', "a", Some("late"));
    events, s' := Acting(EMPTY, events, s', "a", HandlerReturn(Some("late"), 1.0));
  }

  lemma ASettles(before: seq<Event>, s: State) returns (e: Event)
    requires Reached(EMPTY, before, s) && s.db == map[0 := Finished()] && "a" in s.workers
    requires s.workers["a"].pc.Failing? && s.workers["a"].pc.id == 0
    ensures Run(NO_TIMING, EMPTY, before + [e])
    ensures var t := Exec(EMPTY, before + [e]); 0 in t.db && t.db[0].status == Queued
  {
    var pc := s.workers["a"].pc;
    FailureComesBack(pc.message, pc.nextRunAt);
    Settling(s, "a", FailRow(0, pc.message, pc.nextRunAt));
    e := OnWorker("a", SettleRow(Answered));
    var events, t := Acting(EMPTY, before, s, "a", SettleRow(Answered));
  }

  lemma FailureComesBack(message: string, nextRunAt: Time)
    ensures var w := Fail(map[0 := Finished()], 0, message, nextRunAt); w.error.None? && 0 in w.db && w.db[0].status == Queued
  {
  }

  /** Without H1 a done job can run again: in some run, started from nothing and with honest replies, a worker's late
      failure brings back a row that another worker has completed. */
  lemma DoneComesBack() returns (events: seq<Event>, e: Event)
    ensures Init(EMPTY) && Run(NO_TIMING, EMPTY, events) && Run(NO_TIMING, EMPTY, events + [e])
    ensures var (s, t) := (Exec(EMPTY, events), Exec(EMPTY, events + [e]));
            0 in s.db && s.db[0].status == Done && 0 in t.db && t.db[0].status == Queued
  {
    var s;
    events, s := UpToSecondClaim();
    events, s := BFinishes(events, s);
    events, s := AFails(events, s);
    e := ASettles(events, s);
  }
}
