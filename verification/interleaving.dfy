/** Draining by any number of workers whose steps interleave: whatever the order, when all have come to rest each row
    that had a token is further on. */
module Interleaving {
  import opened Types
  import opened Table
  import opened Protocol
  import opened Rows
  import opened FailStop
  import opened Mutex
  import opened Drain
  import R = RedisLists

  /** The sweeper pauses, no worker crashes and no call of a worker fails. Producers, heartbeats and the clock go on. */
  predicate Smooth(e: Event) {
    !e.OnSweeper? && !e.Wipe? && (e.OnWorker? ==> !e.action.Stop? && ReplyOf(e).Answered?)
  }

  ghost predicate NoOrphans(db: Db, workers: map<WorkerId, Worker>) {
    forall w, id :: Owns(db, w, id) ==> w in workers && Looping(workers[w].pc)
  }

  /** Every running row has a worker between claim and settle of it, and every such worker its row. */
  ghost predicate Serving(s: State) {
    TableOk(s.db) && FailStopped(s) && BusyOwns(s.db, s.workers) && NoOrphans(s.db, s.workers)
  }

  /** The settle of a busy worker is not refused. */
  lemma SettleGoesThrough(s: State, w: WorkerId)
    requires TableOk(s.db) && BusyOwns(s.db, s.workers) && w in s.workers && WorkerEnabled(s, w, SettleRow(Answered))
    ensures Result(s, OnWorker(w, SettleRow(Answered))).error.None?
  {
    var pc := s.workers[w].pc;
    assert Owns(s.db, w, pc.id);
    match SettleStatement(pc)
    case FailRow(id, message, nextRunAt) => SaveKeepsIndex(s.db, id, AfterFailure(s.db[id], message, nextRunAt));
    case AdvanceRow(id, next) => SaveKeepsIndex(s.db, id, s.db[id].(stage := next, status := Queued, worker := None));
    case FinishRow(id) => SaveKeepsIndex(s.db, id, s.db[id].(status := Done));
    case _ =>
  }

  /** A smooth step drops no worker out of its loop. */
  lemma LoopingStays(s: State, w: WorkerId, a: WorkerAction)
    requires Serving(s) && WorkerEnabled(s, w, a) && Smooth(OnWorker(w, a)) && Looping(s.workers[w].pc)
    ensures Looping(PcAfter(s, w, a))
  {
    if a.SettleRow? {
      SettleGoesThrough(s, w);
    } else if a.ReadRow? {
      assert Owns(s.db, w, s.workers[w].pc.id);
    }
  }

  lemma NoOrphansStep(s: State, e: Event)
    requires Serving(s) && Enabled(s, e) && Smooth(e)
    ensures NoOrphans(Apply(s, e).db, Apply(s, e).workers)
  {
    var s' := Apply(s, e);
    forall w, id | Owns(s'.db, w, id) ensures w in s'.workers && Looping(s'.workers[w].pc) {
      OnlyClaimsGive(s.db, StatementOf(s, e), ReplyOf(e), w, id);
      if e.OnWorker? && e.worker == w && Owns(s.db, w, id) {
        LoopingStays(s, w, e.action);
      }
    }
  }

  lemma ServingStep(s: State, e: Event)
    requires Serving(s) && Enabled(s, e) && Smooth(e)
    ensures Serving(Apply(s, e))
  {
    StatementKeepsTable(s.db, StatementOf(s, e), ReplyOf(e));
    FailStopExactly(s, e);
    BusyOwnsExactly(s, e);
    NoOrphansStep(s, e);
  }

  // ----- One row -----

  predicate Engaged(pc: Pc, id: JobId) {
    pc == Popped(Uuid(id)) || Holds(pc, id) || (pc.Pushing? && pc.id == id)
  }

  predicate InHand(workers: map<WorkerId, Worker>, id: JobId) {
    exists w :: w in workers && Engaged(workers[w].pc, id)
  }

  /** The row has come further, or its token waits in a queue, or a worker has it in hand. */
  predicate Covered(was: Job, s: State, id: JobId) {
    id in s.db && Kept(was, s.db[id]) && (Ended(was, s.db[id]) || Waits(s.lists, id) || InHand(s.workers, id))
  }

  /** What a step can do to a row. */
  predicate Onward(j: Job, j': Job) {
    && Kept(j, j') && (Terminal(j) ==> j' == j)
    && (j.lastError.Some? || j'.attempts > j.attempts ==> j'.lastError.Some?)
  }

  lemma RowOnward(s: State, e: Event, id: JobId)
    requires Serving(s) && Enabled(s, e) && Smooth(e) && id in s.db
    ensures id in Apply(s, e).db && Onward(s.db[id], Apply(s, e).db[id])
  {
    if !MayTouch(s, e, id) {
      UntouchedRow(s, e, id);
    } else if e.action.SettleRow? {
      assert Owns(s.db, e.worker, id);
      SettleGoesThrough(s, e.worker);
    }
  }

  lemma OnwardKeeps(was: Job, j: Job, j': Job)
    requires Kept(was, j) && Onward(j, j')
    ensures Kept(was, j') && (Ended(was, j) ==> Ended(was, j'))
  {
  }

  /** A waiting token stays where it is until a worker pops it. */
  lemma PendingStays(ls: R.Lists, c: R.Command, st: Stage, t: Token)
    requires t in R.At(ls, R.Pending(st))
    ensures t in R.At(R.Perform(ls, c), R.Pending(st))
            || (c.PopFor? && c.stage == st && t == R.Last(R.At(ls, R.Pending(st))))
  {
  }

  lemma WaitingStays(s: State, e: Event, id: JobId)
    requires Enabled(s, e) && Smooth(e) && Waits(s.lists, id)
    ensures Waits(Apply(s, e).lists, id) || InHand(Apply(s, e).workers, id)
  {
    var s' := Apply(s, e);
    var st: Stage :| Uuid(id) in R.At(s.lists, R.Pending(st));
    PendingStays(s.lists, CommandOf(s, e), st, Uuid(id));
    if Uuid(id) !in R.At(s'.lists, R.Pending(st)) {
      assert s'.workers[e.worker].pc == Popped(Uuid(id));
    }
  }

  /** A row that is running is in the hands of a worker. */
  lemma RunningInHand(s: State, id: JobId)
    requires Serving(s) && id in s.db && s.db[id].status == Running
    ensures exists w :: w in s.workers && Holds(s.workers[w].pc, id)
  {
    assert RowOk(s.db[id]);
    assert Owns(s.db, s.db[id].worker.value, id);
  }

  /** A worker that claims the token of a row either has the row then, or it has ended or is another worker's. */
  lemma ClaimInHand(s: State, w: WorkerId, id: JobId)
    requires Serving(s) && w in s.workers && s.workers[w].pc == Popped(Uuid(id)) && id in s.db
    ensures Terminal(s.db[id]) || InHand(Apply(s, OnWorker(w, ClaimRow(Answered))).workers, id)
  {
    var s' := Apply(s, OnWorker(w, ClaimRow(Answered)));
    ClaimExactly(s, w, id);
    if s.db[id].status == Running {
      RunningInHand(s, id);
      var v :| v in s.workers && Holds(s.workers[v].pc, id);
      assert s'.workers[v] == s.workers[v];
    } else if s.db[id].status == Queued {
      assert Engaged(s'.workers[w].pc, id);
    }
  }

  lemma SettleInHand(s: State, w: WorkerId, id: JobId, was: Job)
    requires Serving(s) && WorkerEnabled(s, w, SettleRow(Answered)) && Holds(s.workers[w].pc, id)
    requires id in s.db && Kept(was, s.db[id])
    ensures var s' := Apply(s, OnWorker(w, SettleRow(Answered)));
            id in s'.db && (Ended(was, s'.db[id]) || InHand(s'.workers, id))
  {
    var s' := Apply(s, OnWorker(w, SettleRow(Answered)));
    SettleGoesThrough(s, w);
    assert Owns(s.db, w, id);
    if s.workers[w].pc.Advancing? {
      assert Engaged(s'.workers[w].pc, id);
    }
  }

  lemma HandGoesOn(s: State, w: WorkerId, a: WorkerAction, id: JobId)
    requires WorkerEnabled(s, w, a) && Smooth(OnWorker(w, a)) && Engaged(s.workers[w].pc, id) && id in s.db
    requires !a.ClaimRow? && !a.SettleRow?
    ensures var s' := Apply(s, OnWorker(w, a)); Waits(s'.lists, id) || InHand(s'.workers, id)
  {
    var s' := Apply(s, OnWorker(w, a));
    if a.PushNext? {
      assert Uuid(id) in R.At(s'.lists, R.Pending(s.workers[w].pc.next));
    } else {
      assert Engaged(s'.workers[w].pc, id);
    }
  }

  /** A step of the worker that has the row in hand. */
  lemma HandStays(s: State, w: WorkerId, a: WorkerAction, id: JobId, was: Job)
    requires Serving(s) && WorkerEnabled(s, w, a) && Smooth(OnWorker(w, a)) && Engaged(s.workers[w].pc, id)
    requires id in s.db && Kept(was, s.db[id])
    ensures var s' := Apply(s, OnWorker(w, a));
            id in s'.db && (Ended(was, s'.db[id]) || Terminal(s.db[id]) || Waits(s'.lists, id) || InHand(s'.workers, id))
  {
    RowOnward(s, OnWorker(w, a), id);
    match a
    case ClaimRow(_) => ClaimInHand(s, w, id);
    case SettleRow(_) => SettleInHand(s, w, id, was);
    case _ => HandGoesOn(s, w, a, id);
  }

  lemma CoveredStep(was: Job, s: State, e: Event, id: JobId)
    requires Serving(s) && Enabled(s, e) && Smooth(e) && Covered(was, s, id)
    ensures Covered(was, Apply(s, e), id)
  {
    var s' := Apply(s, e);
    RowOnward(s, e, id);
    OnwardKeeps(was, s.db[id], s'.db[id]);
    if !Ended(was, s.db[id]) {
      if Waits(s.lists, id) {
        WaitingStays(s, e, id);
      } else {
        var w :| w in s.workers && Engaged(s.workers[w].pc, id);
        if e.OnWorker? && e.worker == w {
          HandStays(s, w, e.action, id, was);
        } else {
          assert s'.workers[w] == s.workers[w];
        }
      }
    }
  }

  // ----- Interleaved drains -----

  predicate AllSmooth(events: seq<Event>) {
    forall i :: 0 <= i < |events| ==> Smooth(events[i])
  }

  predicate AtHome(pc: Pc) {
    pc.Idle? || !Looping(pc)
  }

  /** No token waits, and every worker is idle or gone. */
  ghost predicate AllQuiet(s: State) {
    (forall st :: R.At(s.lists, R.Pending(st)) == []) && forall w :: w in s.workers ==> AtHome(s.workers[w].pc)
  }

  lemma {:induction false} CoveredInRun(h: Hypotheses, was: Job, s: State, events: seq<Event>, id: JobId)
    requires Serving(s) && Run(h, s, events) && AllSmooth(events) && Covered(was, s, id)
    ensures Serving(Exec(s, events)) && Covered(was, Exec(s, events), id)
    decreases |events|
  {
    if events != [] {
      CoveredStep(was, s, events[0], id);
      ServingStep(s, events[0]);
      CoveredInRun(h, was, Apply(s, events[0]), events[1..], id);
    }
  }

  lemma {:induction false} ServingInRun(h: Hypotheses, s: State, events: seq<Event>)
    requires Serving(s) && Run(h, s, events) && AllSmooth(events)
    ensures Serving(Exec(s, events))
    decreases |events|
  {
    if events != [] {
      ServingStep(s, events[0]);
      ServingInRun(h, Apply(s, events[0]), events[1..]);
    }
  }

  lemma QuietNotRunning(s: State, id: JobId)
    requires Serving(s) && AllQuiet(s) && id in s.db
    ensures s.db[id].status != Running
  {
    if s.db[id].status == Running {
      RunningInHand(s, id);
      assert false;
    }
  }

  lemma QuietCovered(was: Job, s: State, id: JobId)
    requires Serving(s) && AllQuiet(s) && Covered(was, s, id)
    ensures var j := s.db[id]; Terminal(j) || (j.status == Queued && j.lastError.Some? && j.attempts > was.attempts)
  {
    QuietNotRunning(s, id);
  }

  /** However the steps of the workers interleave, and whatever producers do meanwhile: once no token waits and every
      worker is idle, each row that had a token is done, dead, or queued with last_error set and at least one
      attempt more. */
  lemma InterleavedQuiescence(h: Hypotheses, s: State, events: seq<Event>, id: JobId, st: Stage)
    requires Serving(s) && Run(h, s, events) && AllSmooth(events) && AllQuiet(Exec(s, events))
    requires id in s.db && Uuid(id) in R.At(s.lists, R.Pending(st))
    ensures id in Exec(s, events).db
    ensures var j := Exec(s, events).db[id];
            Terminal(j) || (j.status == Queued && j.lastError.Some? && j.attempts > s.db[id].attempts)
  {
    assert Covered(s.db[id], s, id);
    CoveredInRun(h, s.db[id], s, events, id);
    QuietCovered(s.db[id], Exec(s, events), id);
  }

  // ----- Interleaved drains end -----

  /** What a token is worth at a stage: the steps of a pass over it and over the tokens it leads to. */
  function Worth(stage: Stage): nat {
    match stage
    case Fetch => 21
    case Render => 14
    case Upload => 7
    case Test => 7
  }

  function WorthAfter(stage: Stage): nat {
    match NextStage(stage)
    case Some(next) => Worth(next)
    case None => 0
  }

  /** What a worker still has to do about the token it has popped. */
  function Load(worker: Worker): nat {
    match worker.pc
    case Idle => 0
    case Down => 0
    case Popped(_) => WorthAfter(worker.stage) + 6
    case Claimed(_) => WorthAfter(worker.stage) + 5
    case Working(_, _, _, _) => WorthAfter(worker.stage) + 4
    case Failing(_, _, _) => 2
    case Finishing(_) => 2
    case Advancing(_, next) => Worth(next) + 3
    case Pushing(_, next) => Worth(next) + 2
    case Acking(_) => 1
    case Leaving(_) => 1
  }

  ghost function Loads(workers: map<WorkerId, Worker>, ws: set<WorkerId>): nat
    requires ws <= workers.Keys
    decreases |ws|
  {
    if ws == {} then 0 else
    var w :| w in ws;
    Load(workers[w]) + Loads(workers, ws - {w})
  }

  lemma {:induction false} LoadsWithout(workers: map<WorkerId, Worker>, ws: set<WorkerId>, w: WorkerId)
    requires ws <= workers.Keys && w in ws
    ensures Loads(workers, ws) == Load(workers[w]) + Loads(workers, ws - {w})
    decreases |ws|
  {
    var v :| v in ws && Loads(workers, ws) == Load(workers[v]) + Loads(workers, ws - {v});
    if v != w {
      LoadsWithout(workers, ws - {v}, w);
      LoadsWithout(workers, ws - {w}, v);
      assert ws - {v} - {w} == ws - {w} - {v};
    }
  }

  lemma {:induction false} LoadsSame(a: map<WorkerId, Worker>, b: map<WorkerId, Worker>, ws: set<WorkerId>)
    requires ws <= a.Keys && ws <= b.Keys && forall w :: w in ws ==> a[w] == b[w]
    ensures Loads(a, ws) == Loads(b, ws)
    decreases |ws|
  {
    if ws != {} {
      var w :| w in ws;
      LoadsWithout(a, ws, w);
      LoadsWithout(b, ws, w);
      LoadsSame(a, b, ws - {w});
    }
  }

  lemma LoadsChange(workers: map<WorkerId, Worker>, w: WorkerId, worker: Worker)
    requires w in workers
    ensures var after := workers[w := worker];
            Loads(after, after.Keys) + Load(workers[w]) == Loads(workers, workers.Keys) + Load(worker)
  {
    var after := workers[w := worker];
    LoadsWithout(workers, workers.Keys, w);
    LoadsWithout(after, after.Keys, w);
    assert after.Keys == workers.Keys;
    LoadsSame(workers, after, workers.Keys - {w});
  }

  /** The steps that are left, handler writes aside. */
  ghost function Left(s: State): nat {
    7 * QueueWeight(s.lists) + Loads(s.workers, s.workers.Keys)
  }

  /** A step of a worker that does something: not a heartbeat, a handler write or a look at an empty queue. */
  predicate Productive(s: State, e: Event) {
    && e.OnWorker? && e.worker in s.workers && !e.action.Beat? && !e.action.HandlerWrite?
    && (e.action.TakeToken? ==> R.At(s.lists, R.Pending(s.workers[e.worker].stage)) != [])
  }

  lemma PopWeight(ls: R.Lists, stage: Stage, w: WorkerId)
    requires R.At(ls, R.Pending(stage)) != []
    ensures 7 * QueueWeight(R.Perform(ls, R.PopFor(stage, w))) + Worth(stage) == 7 * QueueWeight(ls)
  {
    var ls' := R.Perform(ls, R.PopFor(stage, w));
    forall st ensures Depth(ls', st) + (if st == stage then 1 else 0) == Depth(ls, st) {
    }
  }

  lemma PushWeight(ls: R.Lists, stage: Stage, t: Token)
    ensures 7 * QueueWeight(R.Perform(ls, R.PushTo(stage, t))) == 7 * QueueWeight(ls) + Worth(stage)
  {
    var ls' := R.Perform(ls, R.PushTo(stage, t));
    forall st ensures Depth(ls', st) == Depth(ls, st) + (if st == stage then 1 else 0) {
    }
  }

  lemma AckWeight(ls: R.Lists, stage: Stage, w: WorkerId, t: Token)
    ensures QueueWeight(R.Perform(ls, R.AckFor(stage, w, t))) == QueueWeight(ls)
  {
  }

  /** What a step adds to and takes from the queues. */
  lemma QueuesStep(s: State, w: WorkerId, a: WorkerAction)
    requires WorkerEnabled(s, w, a) && Smooth(OnWorker(w, a))
    ensures var Worker(stage, pc) := s.workers[w];
            var (was, now) := (7 * QueueWeight(s.lists), 7 * QueueWeight(ListsAfter(s, OnWorker(w, a))));
            if a.TakeToken? && R.At(s.lists, R.Pending(stage)) != [] then now + Worth(stage) == was
            else if a.PushNext? then now == was + Worth(pc.next)
            else now == was
  {
    var Worker(stage, pc) := s.workers[w];
    match a
    case TakeToken(_) => if R.At(s.lists, R.Pending(stage)) != [] { PopWeight(s.lists, stage, w); }
    case PushNext(_) => PushWeight(s.lists, pc.next, Uuid(pc.id));
    case AckToken(_) => AckWeight(s.lists, stage, w, pc.token);
    case _ =>
  }

  /** What it does to the worker's load. */
  lemma LoadStep(s: State, w: WorkerId, a: WorkerAction)
    requires WorkerEnabled(s, w, a) && Smooth(OnWorker(w, a))
    ensures var Worker(stage, pc) := s.workers[w];
            var now := Load(Worker(stage, PcAfter(s, w, a)));
            if !Productive(s, OnWorker(w, a)) then now == Load(s.workers[w])
            else if a.TakeToken? then now < Worth(stage)
            else if a.PushNext? then now + Worth(pc.next) < Load(s.workers[w])
            else now < Load(s.workers[w])
  {
  }

  lemma LeftStep(s: State, e: Event)
    requires Enabled(s, e) && Smooth(e) && !e.OnProducer? && !e.Start?
    ensures Left(Apply(s, e)) <= Left(s) - (if Productive(s, e) then 1 else 0)
  {
    if e.OnWorker? {
      QueuesStep(s, e.worker, e.action);
      LoadStep(s, e.worker, e.action);
      LoadsChange(s.workers, e.worker, s.workers[e.worker].(pc := PcAfter(s, e.worker, e.action)));
    }
  }

  function Steps(s: State, events: seq<Event>): nat
    decreases |events|
  {
    if events == [] then 0 else (if Productive(s, events[0]) then 1 else 0) + Steps(Apply(s, events[0]), events[1..])
  }

  /** Workers on their own come to rest: however their steps interleave, a run has no more productive steps than the
      weight it starts with. */
  lemma {:induction false} InterleavedBound(h: Hypotheses, s: State, events: seq<Event>)
    requires Run(h, s, events) && AllSmooth(events)
    requires forall i :: 0 <= i < |events| ==> !events[i].OnProducer? && !events[i].Start?
    ensures Steps(s, events) + Left(Exec(s, events)) <= Left(s)
    decreases |events|
  {
    if events != [] {
      LeftStep(s, events[0]);
      InterleavedBound(h, Apply(s, events[0]), events[1..]);
    }
  }

  // ----- Interleaved drains exist -----

  predicate Mans(worker: Worker, stage: Stage) {
    worker.stage == stage && Looping(worker.pc)
  }

  predicate StageManned(workers: map<WorkerId, Worker>, stage: Stage) {
    exists w :: w in workers && Mans(workers[w], stage)
  }

  /** Every stage has a worker in its loop. */
  ghost predicate Manned(workers: map<WorkerId, Worker>) {
    forall stage :: StageManned(workers, stage)
  }

  /** If the hypotheses ask for heartbeats, every worker has one. */
  predicate Beating(h: Hypotheses, s: State) {
    h.timing ==> s.workers.Keys <= s.beats
  }

  function NextAction(pc: Pc): WorkerAction {
    match pc
    case Idle => TakeToken(Answered)
    case Popped(_) => ClaimRow(Answered)
    case Claimed(_) => ReadRow(Answered)
    case Working(_, _, _, _) => HandlerReturn(Some("failed"), 1.0)
    case Pushing(_, _) => PushNext(Answered)
    case Acking(_) => AckToken(Answered)
    case _ => SettleRow(Answered)
  }

  /** As long as a token waits or a worker is busy, some worker can do a productive step. */
  lemma SomebodyCanGo(s: State) returns (w: WorkerId)
    requires Manned(s.workers) && !AllQuiet(s)
    ensures w in s.workers && Looping(s.workers[w].pc)
    ensures WorkerEnabled(s, w, NextAction(s.workers[w].pc)) && Productive(s, OnWorker(w, NextAction(s.workers[w].pc)))
  {
    if v :| v in s.workers && !AtHome(s.workers[v].pc) {
      w := v;
    } else {
      var stage: Stage :| R.At(s.lists, R.Pending(stage)) != [];
      assert StageManned(s.workers, stage);
      w :| w in s.workers && Mans(s.workers[w], stage);
      assert AtHome(s.workers[w].pc);
    }
  }

  lemma MannedStays(workers: map<WorkerId, Worker>, w: WorkerId, worker: Worker)
    requires Manned(workers) && w in workers && worker.stage == workers[w].stage && Looping(worker.pc)
    ensures Manned(workers[w := worker])
  {
    var after := workers[w := worker];
    forall stage ensures StageManned(after, stage) {
      assert StageManned(workers, stage);
      var v :| v in workers && Mans(workers[v], stage);
      assert Mans(after[v], stage);
    }
  }

  /** No worker is missing, and none fails to beat. */
  ghost predicate Fit(h: Hypotheses, s: State) {
    Serving(s) && Manned(s.workers) && Beating(h, s) && R.NoEmptyList(s.lists)
  }

  lemma FitStays(h: Hypotheses, s: State, w: WorkerId, a: WorkerAction)
    requires Fit(h, s) && WorkerEnabled(s, w, a) && Smooth(OnWorker(w, a)) && Looping(s.workers[w].pc) && !a.Beat?
    ensures Fit(h, Apply(s, OnWorker(w, a)))
  {
    ServingStep(s, OnWorker(w, a));
    LoopingStays(s, w, a);
    MannedStays(s.workers, w, s.workers[w].(pc := PcAfter(s, w, a)));
    R.PerformKeepsKeys(s.lists, CommandOf(s, OnWorker(w, a)));
  }

  lemma FitPermits(h: Hypotheses, s: State, w: WorkerId, a: WorkerAction)
    requires Beating(h, s) && WorkerEnabled(s, w, a) && Smooth(OnWorker(w, a)) && !a.Beat?
    ensures Permits(h, s, OnWorker(w, a))
  {
  }

  lemma OthersStay(s: State, w: WorkerId, a: WorkerAction)
    requires WorkerEnabled(s, w, a)
    ensures var s' := Apply(s, OnWorker(w, a)); s'.pass == s.pass && s'.db.Keys == s.db.Keys && s'.threshold == s.threshold
  {
  }

  lemma StepOn(h: Hypotheses, s: State, w: WorkerId) returns (e: Event)
    requires Fit(h, s) && w in s.workers && Looping(s.workers[w].pc)
    requires WorkerEnabled(s, w, NextAction(s.workers[w].pc)) && Productive(s, OnWorker(w, NextAction(s.workers[w].pc)))
    ensures Enabled(s, e) && Permits(h, s, e) && Smooth(e) && Fit(h, Apply(s, e)) && Left(Apply(s, e)) < Left(s)
    ensures Apply(s, e).pass == s.pass && Apply(s, e).db.Keys == s.db.Keys && Apply(s, e).threshold == s.threshold
  {
    var a := NextAction(s.workers[w].pc);
    e := OnWorker(w, a);
    FitStays(h, s, w, a);
    FitPermits(h, s, w, a);
    OthersStay(s, w, a);
    LeftStep(s, e);
  }

  /** From any such state the workers can come to rest on their own, and by InterleavedBound they cannot go on for ever. */
  lemma {:induction false} RestIsNear(h: Hypotheses, s: State) returns (events: seq<Event>)
    requires Fit(h, s)
    ensures Run(h, s, events) && AllSmooth(events) && AllQuiet(Exec(s, events))
    ensures var t := Exec(s, events);
            Fit(h, t) && t.pass == s.pass && t.db.Keys == s.db.Keys && t.threshold == s.threshold
    decreases Left(s)
  {
    if AllQuiet(s) {
      events := [];
    } else {
      var w := SomebodyCanGo(s);
      var e := StepOn(h, s, w);
      var rest := RestIsNear(h, Apply(s, e));
      events := [e] + rest;
      assert events[0] == e && events[1..] == rest;
    }
  }
}
