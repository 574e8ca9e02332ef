/** Done means delivered, whatever crashes, lapses, lost replies, stale tokens and wrong-stage claims a run contains. */
module Delivery {
  import opened Types
  import opened Table
  import opened Protocol
  import R = RedisLists
  import D = Drive
  import C = CachedWalk
  import opened FolderPaths

  // ----- Mail and demo jobs never mix -----

  predicate MailRow(j: Job) {
    if j.synthetic then j.stage == Test else j.stage != Test && j.user.Some?
  }

  /** A token of a known job may wait for stage `stage` only if both are demo or both are mail. */
  predicate Fits(db: Db, stage: Stage, t: Token) {
    t.Uuid? ==> t.id in db && (db[t.id].synthetic <==> stage == Test)
  }

  predicate FitsId(db: Db, stage: Stage, id: JobId) {
    id in db && (db[id].synthetic <==> stage == Test)
  }

  ghost predicate ListsFit(db: Db, ls: R.Lists) {
    forall k, t :: k in ls && t in ls[k] ==> Fits(db, k.stage, t)
  }

  /** The row a handler works from is that of the job it claimed. */
  predicate PcFits(db: Db, stage: Stage, pc: Pc) {
    match pc
    case Popped(t) => Fits(db, stage, t)
    case Claimed(id) => FitsId(db, stage, id)
    case Working(id, job, _, _) => FitsId(db, stage, id) && job.user == db[id].user && job.synthetic == db[id].synthetic
    case Failing(id, _, _) => FitsId(db, stage, id)
    case Advancing(id, next) => FitsId(db, stage, id) && FitsId(db, next, id)
    case Finishing(id) => FitsId(db, stage, id)
    case Pushing(id, next) => FitsId(db, next, id)
    case _ => true
  }

  ghost predicate WorkersFit(db: Db, workers: map<WorkerId, Worker>) {
    forall w :: w in workers ==> PcFits(db, workers[w].stage, workers[w].pc)
  }

  ghost predicate RowsFit(db: Db, rows: seq<Job>) {
    forall i :: 0 <= i < |rows| ==> FitsId(db, rows[i].stage, rows[i].id)
  }

  ghost predicate PassFits(db: Db, pass: Pass) {
    match pass
    case Promoting(rows) => RowsFit(db, rows)
    case Repushing(rows) => RowsFit(db, rows)
    case _ => true
  }

  ghost predicate ProducersFit(db: Db, producers: map<nat, Producer>) {
    forall p :: p in producers && producers[p].Inserted? ==> FitsId(db, producers[p].stage, producers[p].id)
  }

  // ----- What each stage leaves behind -----

  /** Files appear in pipeline order, and no folder ever takes the name email.pdf. */
  ghost predicate FilesOk(files: Files, drives: map<UserId, D.Tree>) {
    && files.meta.Keys <= files.pdf <= files.mime
    && (forall id :: id in files.meta ==> "email.pdf" !in files.meta[id].chain)
    && (forall u :: u in drives ==> NoPdfFolder(drives[u]))
  }

  /** A row's stage and status certify the files written so far. */
  predicate RowCertified(files: Files, j: Job) {
    && MailRow(j)
    && (!j.synthetic ==>
          && (j.stage == Render ==> j.id in files.mime)
          && (j.stage == Upload ==> j.id in files.meta)
          && (j.status == Done ==> j.id in files.meta))
  }

  predicate PcCertified(files: Files, stage: Stage, pc: Pc) {
    match pc
    case Working(id, job, k, _) =>
      (match stage
       case Fetch => k >= 1 ==> id in files.mime
       case Render => (k >= 1 ==> id in files.pdf) && (k >= 2 ==> id in files.meta)
       case Upload => k >= 1 ==> id in files.meta
       case Test => true)
    case Advancing(id, next) =>
      (next == Render ==> id in files.mime) && (next == Upload ==> id in files.meta) && next != Fetch
    case Finishing(id) => stage == Test || (stage == Upload && id in files.meta)
    case _ => true
  }

  ghost predicate Certified(s: State) {
    && Wellformed(s.db)
    && ListsFit(s.db, s.lists) && WorkersFit(s.db, s.workers) && PassFits(s.db, s.pass) && ProducersFit(s.db, s.producers)
    && FilesOk(s.files, s.drives)
    && (forall id :: id in s.db ==> RowCertified(s.files, s.db[id]))
    && (forall w :: w in s.workers ==> PcCertified(s.files, s.workers[w].stage, s.workers[w].pc))
  }

  // ----- Everything certified stays certified -----

  /** Rows keep their identity: whatever a statement does, a job stays mail or demo, and keeps its user. */
  ghost predicate Grows(db: Db, db': Db) {
    forall id :: id in db ==> id in db' && db'[id].synthetic == db[id].synthetic && db'[id].user == db[id].user
                              && db'[id].id == db[id].id
  }

  lemma StatementGrows(db: Db, t: Statement, net: Reply)
    ensures Grows(db, Sent(db, Execute(db, t), net).db)
  {
  }

  ghost predicate FilesGrow(files: Files, files': Files) {
    && files.mime <= files'.mime && files.pdf <= files'.pdf
    && (forall id :: id in files.meta ==> id in files'.meta && files'.meta[id] == files.meta[id])
  }

  lemma StepGrows(s: State, e: Event)
    requires Enabled(s, e)
    ensures FilesGrow(s.files, Apply(s, e).files) && Grows(s.db, Apply(s, e).db)
  {
    StatementGrows(s.db, StatementOf(s, e), ReplyOf(e));
  }

  lemma PerformFits(db: Db, ls: R.Lists, c: R.Command)
    requires ListsFit(db, ls) && (c.PushTo? ==> Fits(db, c.stage, c.token))
    ensures ListsFit(db, R.Perform(ls, c))
  {
    forall k, t | k in R.Perform(ls, c) && t in R.Perform(ls, c)[k] ensures Fits(db, k.stage, t) {
      var was := R.CameFrom(ls, c, k, t);
    }
  }

  /** Every push in the system puts a token where its job belongs. */
  lemma PushFits(s: State, e: Event)
    requires Certified(s) && Enabled(s, e) && CommandOf(s, e).PushTo?
    ensures Fits(s.db, CommandOf(s, e).stage, CommandOf(s, e).token)
  {
    if e.OnWorker? {
      assert PcFits(s.db, s.workers[e.worker].stage, s.workers[e.worker].pc);
    }
  }

  lemma ListsFitStep(s: State, e: Event)
    requires Certified(s) && Enabled(s, e)
    ensures ListsFit(Apply(s, e).db, Apply(s, e).lists)
  {
    StepGrows(s, e);
    var c := CommandOf(s, e);
    if c.PushTo? {
      PushFits(s, e);
    }
    PerformFits(s.db, s.lists, c);
    assert ListsFit(s.db, Apply(s, e).lists);
  }

  lemma WorkersFitStep(s: State, e: Event)
    requires Certified(s) && Enabled(s, e)
    ensures WorkersFit(Apply(s, e).db, Apply(s, e).workers)
  {
    StepGrows(s, e);
    var s' := Apply(s, e);
    forall w | w in s'.workers
      ensures PcFits(s'.db, s'.workers[w].stage, s'.workers[w].pc)
    {
      if e.OnWorker? && e.worker == w {
        PcFitsStep(s, w, e.action);
      }
    }
  }

  lemma PcFitsGrows(db: Db, db': Db, stage: Stage, pc: Pc)
    requires Grows(db, db') && PcFits(db, stage, pc)
    ensures PcFits(db', stage, pc)
  {
  }

  /** Whatever a worker takes, claims or returns is for a job of its kind. */
  lemma PcFitsAfter(s: State, w: WorkerId, a: WorkerAction)
    requires ListsFit(s.db, s.lists) && w in s.workers && PcFits(s.db, s.workers[w].stage, s.workers[w].pc)
    requires WorkerEnabled(s, w, a) && forall id :: id in s.db ==> MailRow(s.db[id])
    ensures PcFits(s.db, s.workers[w].stage, PcAfter(s, w, a))
  {
    match a
    case TakeToken(_) =>
      var queue := R.At(s.lists, R.Pending(s.workers[w].stage));
      assert queue != [] ==> R.Last(queue) in queue;
    case HandlerReturn(_, _) => assert MailRow(s.db[s.workers[w].pc.id]);
    case _ =>
  }

  lemma PcFitsStep(s: State, w: WorkerId, a: WorkerAction)
    requires Certified(s) && WorkerEnabled(s, w, a)
    ensures PcFits(Apply(s, OnWorker(w, a)).db, s.workers[w].stage, PcAfter(s, w, a))
  {
    forall id | id in s.db ensures MailRow(s.db[id]) {
      assert RowCertified(s.files, s.db[id]);
    }
    StepGrows(s, OnWorker(w, a));
    PcFitsAfter(s, w, a);
    PcFitsGrows(s.db, Apply(s, OnWorker(w, a)).db, s.workers[w].stage, PcAfter(s, w, a));
  }

  lemma PassFitsStep(s: State, e: Event)
    requires Certified(s) && Enabled(s, e)
    ensures PassFits(Apply(s, e).db, Apply(s, e).pass)
  {
    StepGrows(s, e);
    if e.OnSweeper? && (e.sweep.ListReady? || e.sweep.ListStale?) {
      assert forall i :: 0 <= i < |e.sweep.rows| ==> RowCertified(s.files, s.db[e.sweep.rows[i].id]);
    }
  }

  lemma ProducersFitStep(s: State, e: Event)
    requires Certified(s) && Enabled(s, e)
    ensures ProducersFit(Apply(s, e).db, Apply(s, e).producers)
  {
    StepGrows(s, e);
  }

  lemma FilesOkStep(s: State, e: Event)
    requires Certified(s) && Enabled(s, e)
    ensures FilesOk(Apply(s, e).files, Apply(s, e).drives)
  {
    if e.OnWorker? && e.action.HandlerWrite? {
      assert PcCertified(s.files, s.workers[e.worker].stage, s.workers[e.worker].pc);
    }
    if IsUpload(s, e) {
      NoPdfFolderStep(s, s.workers[e.worker].pc, e.action);
    }
  }

  lemma NoPdfFolderStep(s: State, pc: Pc, a: WorkerAction)
    requires FilesOk(s.files, s.drives) && Uploads(s, Upload, pc) && a.HandlerWrite?
    ensures NoPdfFolder(UploadStep(s, pc, a).tree)
  {
    assert NoPdfFolder(s.drives[pc.job.user.value]);
  }

  lemma PcCertifiedStep(s: State, w: WorkerId, a: WorkerAction)
    requires Certified(s) && WorkerEnabled(s, w, a)
    ensures PcCertified(Apply(s, OnWorker(w, a)).files, s.workers[w].stage, PcAfter(s, w, a))
  {
    StepGrows(s, OnWorker(w, a));
    assert PcCertified(s.files, s.workers[w].stage, s.workers[w].pc);
  }

  lemma PcsCertifiedStep(s: State, e: Event)
    requires Certified(s) && Enabled(s, e)
    ensures var s' := Apply(s, e); forall w :: w in s'.workers ==> PcCertified(s'.files, s'.workers[w].stage, s'.workers[w].pc)
  {
    StepGrows(s, e);
    var s' := Apply(s, e);
    forall w | w in s'.workers
      ensures PcCertified(s'.files, s'.workers[w].stage, s'.workers[w].pc)
    {
      if e.OnWorker? && e.worker == w {
        PcCertifiedStep(s, w, e.action);
      } else if w in s.workers {
        assert PcCertified(s.files, s.workers[w].stage, s.workers[w].pc);
      }
    }
  }

  /** Any other statement leaves the stage alone and makes no row done. */
  lemma OtherStatements(db: Db, t: Statement, net: Reply, id: JobId)
    requires id in db && !(t.AdvanceRow? && t.id == id) && !(t.FinishRow? && t.id == id)
    requires t.EnqueueRow? ==> t.id !in db
    ensures var db' := Sent(db, Execute(db, t), net).db;
            id in db' && db'[id].stage == db[id].stage && (db'[id].status == Done ==> db[id].status == Done)
  {
  }

  /** What an advance or a completion needs, from the worker that makes it. */
  predicate Allows(files: Files, j: Job, t: Statement) {
    match t
    case AdvanceRow(_, next) => RowCertified(files, j.(stage := next, status := Queued))
    case FinishRow(_) => RowCertified(files, j.(status := Done))
    case _ => true
  }

  lemma RowCertifiedAfter(db: Db, t: Statement, net: Reply, id: JobId, files: Files)
    requires id in db && db[id].id == id && RowCertified(files, db[id]) && (t.EnqueueRow? ==> t.id !in db)
    requires (t.AdvanceRow? || t.FinishRow?) && t.id == id ==> Allows(files, db[id], t)
    ensures id in Sent(db, Execute(db, t), net).db && RowCertified(files, Sent(db, Execute(db, t), net).db[id])
  {
    StatementGrows(db, t, net);
    if !((t.AdvanceRow? || t.FinishRow?) && t.id == id) {
      OtherStatements(db, t, net, id);
    }
  }

  /** A settle is allowed because of what the handler of its worker has written. */
  lemma SettleAllowed(s: State, w: WorkerId)
    requires Certified(s) && w in s.workers && (s.workers[w].pc.Advancing? || s.workers[w].pc.Finishing?)
    ensures var id := s.workers[w].pc.id;
            id in s.db && RowCertified(s.files, s.db[id])
            && Allows(s.files, s.db[id], SettleStatement(s.workers[w].pc))
  {
    var Worker(stage, pc) := s.workers[w];
    assert PcFits(s.db, stage, pc) && PcCertified(s.files, stage, pc);
    assert RowCertified(s.files, s.db[pc.id]);
  }

  /** A row that was not there is that of a well-formed new job. */
  lemma NewRowCertified(s: State, e: Event, id: JobId)
    requires Enabled(s, e) && id !in s.db && id in Result(s, e).db
    ensures RowCertified(s.files, Result(s, e).db[id])
  {
  }

  lemma RowCertifiedGrows(files: Files, files': Files, j: Job)
    requires FilesGrow(files, files') && RowCertified(files, j)
    ensures RowCertified(files', j)
  {
  }

  lemma OldRowCertified(s: State, e: Event, id: JobId)
    requires Certified(s) && Enabled(s, e) && id in s.db
    ensures id in Result(s, e).db && RowCertified(s.files, Result(s, e).db[id])
  {
    var t := StatementOf(s, e);
    assert RowCertified(s.files, s.db[id]);
    if (t.AdvanceRow? || t.FinishRow?) && t.id == id {
      SettleAllowed(s, e.worker);
    }
    RowCertifiedAfter(s.db, t, ReplyOf(e), id, s.files);
  }

  lemma RowCertifiedStep(s: State, e: Event, id: JobId)
    requires Certified(s) && Enabled(s, e) && id in Result(s, e).db
    ensures RowCertified(Apply(s, e).files, Result(s, e).db[id])
  {
    if id in s.db {
      OldRowCertified(s, e, id);
    } else {
      NewRowCertified(s, e, id);
    }
    StepGrows(s, e);
    RowCertifiedGrows(s.files, Apply(s, e).files, Result(s, e).db[id]);
  }

  lemma CertifiedStep(s: State, e: Event)
    requires Certified(s) && Enabled(s, e)
    ensures Certified(Apply(s, e))
  {
    ListsFitStep(s, e);
    WorkersFitStep(s, e);
    PassFitsStep(s, e);
    ProducersFitStep(s, e);
    FilesOkStep(s, e);
    PcsCertifiedStep(s, e);
    forall id | id in Apply(s, e).db
      ensures RowCertified(Apply(s, e).files, Apply(s, e).db[id])
    {
      RowCertifiedStep(s, e, id);
    }
    WellformedStep(s.db, StatementOf(s, e), ReplyOf(e));
  }

  lemma WellformedStep(db: Db, t: Statement, net: Reply)
    requires Wellformed(db)
    ensures Wellformed(Sent(db, Execute(db, t), net).db)
  {
    match t
    case EnqueueRow(id, nj, now) => SaveKeepsWellformed(db, id, NewRow(id, nj, now));
    case ClaimFor(id, w) => if id in db { SaveKeepsWellformed(db, id, db[id].(status := Running, worker := Some(w))); }
    case FinishRow(id) => if id in db { SaveKeepsWellformed(db, id, db[id].(status := Done)); }
    case FailRow(id, message, nextRunAt) => if id in db { SaveKeepsWellformed(db, id, AfterFailure(db[id], message, nextRunAt)); }
    case AdvanceRow(id, next) =>
      if id in db { SaveKeepsWellformed(db, id, db[id].(stage := next, status := Queued, worker := None)); }
    case NoStatement =>
  }

  lemma {:induction false} CertifiedInRun(h: Hypotheses, s: State, events: seq<Event>)
    requires Certified(s) && Run(h, s, events)
    ensures Certified(Exec(s, events))
    decreases |events|
  {
    if events != [] {
      CertifiedStep(s, events[0]);
      CertifiedInRun(h, Apply(s, events[0]), events[1..]);
    }
  }

}
