/** When a job's stage can move back. */
module Stages {
  import opened Types
  import opened Table
  import opened Protocol
  import opened Rows

  /** The order of the mail stages. */
  function Rank(stage: Stage): nat {
    match stage
    case Fetch => 0
    case Render => 1
    case Upload => 2
    case Test => 0
  }

  /** A worker hands jobs on to the stage after its own. */
  predicate HandsOn(worker: Worker) {
    (worker.pc.Advancing? ==> NextStage(worker.stage) == Some(worker.pc.next))
  }

  ghost predicate AllHandOn(workers: map<WorkerId, Worker>) {
    forall w :: w in workers ==> HandsOn(workers[w])
  }

  lemma HandsOnStep(s: State, e: Event)
    requires AllHandOn(s.workers) && Enabled(s, e)
    ensures AllHandOn(Apply(s, e).workers)
  {
    forall w | w in Apply(s, e).workers ensures HandsOn(Apply(s, e).workers[w]) {
      if w in s.workers {
        assert HandsOn(s.workers[w]);
      }
    }
  }

  lemma {:induction false} HandsOnInRun(h: Hypotheses, s: State, events: seq<Event>)
    requires AllHandOn(s.workers) && Run(h, s, events)
    ensures AllHandOn(Exec(s, events).workers)
    decreases |events|
  {
    if events != [] {
      HandsOnStep(s, events[0]);
      HandsOnInRun(h, Apply(s, events[0]), events[1..]);
    }
  }

  /** A fetch worker advances a row that is at upload: it works from a stale token. */
  predicate Rewinds(s: State, e: Event, id: JobId) {
    && id in s.db && s.db[id].status == Running && s.db[id].stage == Upload
    && e.OnWorker? && e.action.SettleRow? && !e.action.net.Refused?
    && e.worker in s.workers && s.workers[e.worker] == Worker(Fetch, Advancing(id, Render))
  }

  lemma StageAfter(db: Db, t: Statement, net: Reply, id: JobId)
    requires TableOk(db) && id in db
    ensures var db' := Sent(db, Execute(db, t), net).db;
            && id in db'
            && db'[id].stage == if t.AdvanceRow? && t.id == id && db[id].status == Running && !net.Refused? then t.next
                                else db[id].stage
  {
    if t.AdvanceRow? && t.id == id && db[id].status == Running {
      SaveKeepsIndex(db, id, db[id].(stage := t.next, status := Queued, worker := None));
    }
  }

  /** In any state a run can reach, a step moves a job back to an earlier stage if and only if a fetch worker's advance takes
      effect on a row that is at upload. */
  lemma StageBackExactly(h: Hypotheses, s: State, events: seq<Event>, e: Event, id: JobId)
    requires Init(s) && Run(h, s, events) && Enabled(Exec(s, events), e) && id in Exec(s, events).db
    ensures id in Apply(Exec(s, events), e).db
    ensures var (t, t') := (Exec(s, events), Apply(Exec(s, events), e));
            Rank(t'.db[id].stage) < Rank(t.db[id].stage) <==> Rewinds(t, e, id)
  {
    TableOkInRun(h, s, events);
    HandsOnInRun(h, s, events);
    StepBackExactly(Exec(s, events), e, id);
  }

  lemma StepBackExactly(s: State, e: Event, id: JobId)
    requires TableOk(s.db) && AllHandOn(s.workers) && Enabled(s, e) && id in s.db
    ensures id in Apply(s, e).db && (Rank(Apply(s, e).db[id].stage) < Rank(s.db[id].stage) <==> Rewinds(s, e, id))
  {
    StageAfter(s.db, StatementOf(s, e), ReplyOf(e), id);
    if e.OnWorker? {
      assert HandsOn(s.workers[e.worker]);
    }
  }
}
