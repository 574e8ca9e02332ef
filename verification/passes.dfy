/** Passes that succeed, as runs: how a job can be brought from stage to stage. */
module Passes {
  import opened Types
  import opened Table
  import opened Rows
  import opened Processing
  import R = RedisLists
  import P = Protocol
  import Delivery
  import Drain
  import Refinement
  import opened Traces
  import D = Drive

  /** The only token in any queue. */
  ghost predicate OnlyToken(ls: R.Lists, stage: Stage, id: JobId) {
    forall st :: R.At(ls, R.Pending(st)) == if st == stage then [Uuid(id)] else []
  }

  /** Nothing fails, and the handler names the next stage. */
  function Success(stage: Stage, now: Time): Call {
    Call(Answered, Answered, Answered, Answered, Answered, Answered, Named(P.NextStage(stage)), now, 1.0, false)
  }

  /** What a pass that succeeds makes of a row. */
  predicate Advanced(j: Job, j': Job) {
    && SameMessage(j, j') && j'.synthetic == j.synthetic
    && (match P.NextStage(j.stage)
        case Some(next) => j'.status == Queued && j'.stage == next
        case None => j'.status == Done)
  }

  /** The worker is idle, and the only token in the queues is that of a queued mail job of its stage. */
  ghost predicate Standing(s: P.State, w: WorkerId, id: JobId) {
    && Delivery.Certified(s) && TableOk(s.db) && id in s.db && s.db[id].status == Queued
    && w in s.workers && s.workers[w] == P.Worker(s.db[id].stage, P.Idle) && OnlyToken(s.lists, s.db[id].stage, id)
    && !s.db[id].synthetic && s.db[id].message.Some?
  }

  function Popped(s: P.State, w: WorkerId): P.State {
    P.Apply(s, P.OnWorker(w, P.TakeToken(Answered)))
  }

  /** The worker has popped, claimed and read the row, and its handler starts. */
  function Started(s: P.State, w: WorkerId, id: JobId): P.State
    requires id in s.db
  {
    Refinement.AtHandler(Popped(s, w), w, Success(s.db[id].stage, s.now))
  }

  lemma HandlerStarts(s: P.State, w: WorkerId, id: JobId)
    requires Standing(s, w, id)
    ensures var s3 := Started(s, w, id);
            && Popped(s, w).workers[w].pc == P.Popped(Uuid(id))
            && id in s3.db && SameMessage(s.db[id], s3.db[id]) && w in s3.workers
            && s3.workers[w] == P.Worker(s.db[id].stage, P.Working(id, s3.db[id], 0, P.Home(s3.db[id])))
            && Refinement.StorageOf(s3) == Refinement.StorageOf(s)
  {
    var c := Success(s.db[id].stage, s.now);
    var s1 := Popped(s, w);
    Refinement.TakeView(s, w, c);
    Drain.ClaimServes(s.db, id, w);
    Refinement.ClaimView(s1, w, Answered);
    var s2 := P.Apply(s1, P.OnWorker(w, P.ClaimRow(Answered)));
    Refinement.ReadView(s2, w, Answered);
  }

  /** The pass with these handler writes. */
  lemma PassWith(h: P.Hypotheses, s: P.State, w: WorkerId, id: JobId, writes: seq<P.WorkerAction>)
    returns (events: seq<P.Event>, t: P.State)
    requires !h.timing && Standing(s, w, id)
    requires Refinement.HandlerWrites(Started(s, w, id), w, Success(s.db[id].stage, s.now), writes)
    ensures P.Run(h, s, events) && t == P.Exec(s, events)
    ensures t.producers == s.producers && t.workers.Keys == s.workers.Keys
    ensures Delivery.Certified(t) && TableOk(t.db)
    ensures id in t.db && t.db == s.db[id := t.db[id]] && Advanced(s.db[id], t.db[id])
    ensures var next := P.NextStage(s.db[id].stage); next.Some? ==> OnlyToken(t.lists, next.value, id)
    ensures Refinement.StorageOf(t) == Refinement.StorageOf(Refinement.Wrote(Started(s, w, id), w, writes))
  {
    var c := Success(s.db[id].stage, s.now);
    HandlerStarts(s, w, id);
    events := Refinement.PassIsSteps(h, s, w, c, writes);
    t := P.Exec(s, events);
    Delivery.CertifiedInRun(h, s, events);
    TableOkInRun(h, s, events);
    PassServes(s.db, s.lists, w, id, s.now);
  }

  lemma HandlerFinds(s: P.State, w: WorkerId, id: JobId)
    requires Standing(s, w, id) && (s.db[id].stage == Upload ==> s.db[id].user.value in s.drives)
    ensures var s3 := Started(s, w, id);
            && w in s3.workers && s3.workers[w].stage == s.db[id].stage && s3.workers[w].pc.Working?
            && s3.workers[w].pc.writes == 0
            && Refinement.Provided(s3, s.db[id].stage, s3.workers[w].pc.id, s3.workers[w].pc.job)
  {
    HandlerStarts(s, w, id);
    assert Delivery.RowCertified(s.files, s.db[id]);
  }

  /** In any state that a run can reach, such a worker can bring the job one stage further, the user of an upload having a
      Drive. */
  lemma PassAdvances(h: P.Hypotheses, s: P.State, w: WorkerId, id: JobId) returns (events: seq<P.Event>, t: P.State)
    requires !h.timing && Standing(s, w, id) && (s.db[id].stage == Upload ==> s.db[id].user.value in s.drives)
    ensures P.Run(h, s, events) && t == P.Exec(s, events)
    ensures t.producers == s.producers && t.workers.Keys == s.workers.Keys && s.drives.Keys <= t.drives.Keys
    ensures Delivery.Certified(t) && TableOk(t.db)
    ensures id in t.db && t.db == s.db[id := t.db[id]] && Advanced(s.db[id], t.db[id])
    ensures var next := P.NextStage(s.db[id].stage); next.Some? ==> OnlyToken(t.lists, next.value, id)
  {
    HandlerFinds(s, w, id);
    var writes := Refinement.CanSucceed(Started(s, w, id), w, Success(s.db[id].stage, s.now));
    events, t := PassWith(h, s, w, id, writes);
    DrivesStay(h, s, events);
  }

  lemma {:induction false} DrivesStay(h: P.Hypotheses, s: P.State, events: seq<P.Event>)
    requires P.Run(h, s, events)
    ensures s.drives.Keys <= P.Exec(s, events).drives.Keys
    decreases |events|
  {
    if events != [] {
      DrivesStay(h, P.Apply(s, events[0]), events[1..]);
    }
  }

  lemma PassServes(db: Db, ls: R.Lists, w: WorkerId, id: JobId, now: Time)
    requires TableOk(db) && id in db && db[id].status == Queued && OnlyToken(ls, db[id].stage, id)
    ensures var o := OnePass(db, ls, db[id].stage, w, Success(db[id].stage, now));
            && id in o.db && o.db == db[id := o.db[id]] && Advanced(db[id], o.db[id])
            && (P.NextStage(db[id].stage).Some? ==> OnlyToken(o.lists, P.NextStage(db[id].stage).value, id))
  {
    var stage := db[id].stage;
    var popped := R.Pop(ls, stage, w);
    Drain.HandleServes(db, popped, id, w, Success(stage, now));
  }

  lemma FirstPush(ls: R.Lists, id: JobId)
    requires forall st :: R.At(ls, R.Pending(st)) == []
    ensures OnlyToken(R.Perform(ls, R.PushTo(Fetch, Uuid(id))), Fetch, id)
  {
    assert [Uuid(id)] + [] == [Uuid(id)];
  }

  // ----- A start for runs -----

  const USER: UserId := 1

  /** One user with an empty Drive, and nothing else. */
  const START := P.State(map[], map[], {}, map[], P.Resting, map[], 0, 0, P.Files({}, {}, map[]),
                         map[USER := D.Tree(map[], map[], 0)], map[],
                         P.Log(multiset{}, multiset{}, multiset{}, multiset{}, multiset{}))

  lemma StartIsInit()
    ensures P.Init(START)
  {
  }

  lemma ReachedIsSound(events: seq<P.Event>, s: P.State)
    requires Reached(START, events, s)
    ensures Delivery.Certified(s) && TableOk(s.db)
  {
    Delivery.CertifiedInRun(NO_TIMING, START, events);
    TableOkInRun(NO_TIMING, START, events);
  }
}
