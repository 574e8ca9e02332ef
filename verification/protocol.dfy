/** The queue protocol as a step relation: every database call, Redis call, handler write, crash and
    heartbeat expiry is one step, and steps of workers, sweeper and producers interleave freely.
    `Enabled` says when a step can happen; the `...After` functions give each component of the next state. */
module Protocol {
  import opened Types
  import opened Table
  import R = RedisLists
  import D = Drive
  import C = CachedWalk
  import Backoff

  /** Where a worker process is. `Leaving` still has to run its deferred ack and then exits with
      errPostClaim; `Down` is a process that exited or crashed. */
  datatype Pc =
    | Idle
    | Popped(token: Token)
    | Claimed(id: JobId)
    | Working(id: JobId, job: Job, writes: nat, place: Place)
    | Failing(id: JobId, message: string, nextRunAt: Time)
    | Advancing(id: JobId, next: Stage)
    | Finishing(id: JobId)
    | Pushing(id: JobId, next: Stage)
    | Acking(token: Token)
    | Leaving(token: Token)
    | Down

  /** Where the upload handler is in Drive: the folder it has come to, and the cache path it got there by. */
  datatype Place = Place(node: D.Node, path: string)

  datatype Worker = Worker(stage: Stage, pc: Pc)

  datatype Ref = Ref(stage: Stage, worker: WorkerId)

  /** Where the sweeper is, with what is left of the listing it walks. */
  datatype Pass =
    | Resting
    | Reclaiming(refs: seq<Ref>)
    | Moving(ref: Ref, refs: seq<Ref>)
    | Reviving(rows: seq<Job>)
    | Marking(row: Job, rows: seq<Job>)
    | Promoting(rows: seq<Job>)
    | Repushing(rows: seq<Job>)

  /** A scheduler, backfill or demo request in the middle of enqueueing one job. */
  datatype Producer = Free | Checked(user: UserId, message: MessageId) | Inserted(id: JobId, stage: Stage)

  /** What a meta file says: the folder chain it leads to and the names of the attachments. */
  datatype Meta = Meta(chain: seq<string>, attachments: seq<string>)

  /** The mime, pdf and meta files the handlers have written. */
  datatype Files = Files(mime: set<JobId>, pdf: set<JobId>, meta: map<JobId, Meta>)

  /** What happened so far: effective claims, advances and handler starts by job, pushes and effective acks by token. */
  datatype Log = Log(
    claims: multiset<JobId>,
    advances: multiset<JobId>,
    invocations: multiset<JobId>,
    pushes: multiset<Token>,
    acks: multiset<Token>)

  datatype State = State(
    db: Db,
    lists: R.Lists,
    beats: set<WorkerId>,
    workers: map<WorkerId, Worker>,
    pass: Pass,
    producers: map<nat, Producer>,
    now: Time,
    threshold: Time,
    files: Files,
    drives: map<UserId, D.Tree>,
    cache: C.Cache,
    log: Log)

  datatype WorkerAction =
    | TakeToken(net: Reply)
    | ClaimRow(net: Reply)
    | ReadRow(net: Reply)
    | HandlerWrite(meta: Meta, content: string, sky: C.Weather)
    | HandlerReturn(failure: Option<string>, jitter: real)
    | SettleRow(net: Reply)
    | PushNext(net: Reply)
    | AckToken(net: Reply)
    | Beat
    | Stop

  datatype SweepAction =
    | Scan(refs: seq<Ref>)
    | CheckRef(net: Reply)
    | MoveOne(net: Reply)
    | ListRunning(rows: seq<Job>)
    | CheckOwner(net: Reply)
    | Revive(net: Reply)
    | ListReady(rows: seq<Job>)
    | Promote(net: Reply)
    | ListStale(rows: seq<Job>)
    | Repush(net: Reply)
    | Abandon

  datatype ProducerAction =
    | CheckMessage(user: UserId, message: MessageId, net: Reply)
    | Insert(id: JobId, nj: NewJob, net: Reply)
    | PushNew(net: Reply)
    | GiveUp

  datatype Event =
    | OnWorker(worker: WorkerId, action: WorkerAction)
    | Start(worker: WorkerId, stage: Stage)
    | OnSweeper(sweep: SweepAction)
    | OnProducer(producer: nat, produce: ProducerAction)
    | Lapse(worker: WorkerId)
    | Wipe
    | Tick(elapsed: nat)

  /** The stage a handler names on success; None ends the job. */
  function NextStage(stage: Stage): Option<Stage> {
    match stage
    case Fetch => Some(Render)
    case Render => Some(Upload)
    case Upload => None
    case Test => None
  }

  /** Between claim and settle. */
  predicate Busy(pc: Pc) {
    pc.Claimed? || pc.Working? || pc.Failing? || pc.Advancing? || pc.Finishing?
  }

  /** Still inside the worker's main loop. */
  predicate Looping(pc: Pc) {
    !pc.Leaving? && !pc.Down?
  }

  function ProducerAt(s: State, p: nat): Producer {
    if p in s.producers then s.producers[p] else Free
  }

  // ----- How calls end -----

  function ReplyOf(e: Event): Reply {
    match e
    case OnWorker(_, a) => if a.HandlerWrite? || a.HandlerReturn? || a.Beat? || a.Stop? then Answered else a.net
    case OnSweeper(b) => if b.Scan? || b.ListRunning? || b.ListReady? || b.ListStale? || b.Abandon? then Answered else b.net
    case OnProducer(_, c) => if c.GiveUp? then Answered else c.net
    case _ => Answered
  }

  // ----- The table -----

  function SettleStatement(pc: Pc): Statement {
    match pc
    case Failing(id, message, nextRunAt) => FailRow(id, message, nextRunAt)
    case Advancing(id, next) => AdvanceRow(id, next)
    case Finishing(id) => FinishRow(id)
    case _ => NoStatement
  }

  function StatementOf(s: State, e: Event): Statement {
    match e
    case OnWorker(w, a) =>
      if w !in s.workers then NoStatement
      else if a.ClaimRow? then
        var pc := s.workers[w].pc;
        if pc.Popped? && pc.token.Uuid? then ClaimFor(pc.token.id, w) else NoStatement
      else if a.SettleRow? then SettleStatement(s.workers[w].pc)
      else NoStatement
    case OnSweeper(b) =>
      if b.Revive? && s.pass.Marking? then FailRow(s.pass.row.id, "worker died", s.now) else NoStatement
    case OnProducer(_, c) => if c.Insert? then EnqueueRow(c.id, c.nj, s.now) else NoStatement
    case _ => NoStatement
  }

  /** The table after the step and the error its caller sees. */
  function Result(s: State, e: Event): Written {
    Sent(s.db, Execute(s.db, StatementOf(s, e)), ReplyOf(e))
  }

  predicate Effective(s: State, e: Event) {
    !ReplyOf(e).Refused? && !StatementOf(s, e).NoStatement? && Execute(s.db, StatementOf(s, e)).error.None?
  }

  // ----- The Redis lists -----

  function CommandOf(s: State, e: Event): R.Command {
    match e
    case OnWorker(w, a) =>
      if w !in s.workers then R.NoCommand else
        var Worker(stage, pc) := s.workers[w];
        if a.TakeToken? then R.PopFor(stage, w)
        else if a.PushNext? && pc.Pushing? then R.PushTo(pc.next, Uuid(pc.id))
        else if a.AckToken? && (pc.Acking? || pc.Leaving?) then R.AckFor(stage, w, pc.token)
        else R.NoCommand
    case OnSweeper(b) =>
      if b.MoveOne? && s.pass.Moving? then R.ReclaimFrom(s.pass.ref.stage, s.pass.ref.worker)
      else if b.Promote? && s.pass.Promoting? && s.pass.rows != [] then R.PushTo(s.pass.rows[0].stage, Uuid(s.pass.rows[0].id))
      else if b.Repush? && s.pass.Repushing? && s.pass.rows != [] then R.PushTo(s.pass.rows[0].stage, Uuid(s.pass.rows[0].id))
      else R.NoCommand
    case OnProducer(p, c) =>
      var f := ProducerAt(s, p);
      if c.PushNew? && f.Inserted? then R.PushTo(f.stage, Uuid(f.id)) else R.NoCommand
    case _ => R.NoCommand
  }

  function ListsAfter(s: State, e: Event): R.Lists {
    if e.Wipe? then map[]
    else if ReplyOf(e).Refused? then s.lists
    else R.Perform(s.lists, CommandOf(s, e))
  }

  // ----- The workers -----

  function Returned(now: Time, stage: Stage, id: JobId, job: Job, failure: Option<string>, jitter: real): Pc {
    if failure.Some? then Failing(id, failure.value, now + Backoff.Compute(job.attempts + 1, jitter))
    else
      match NextStage(stage)
      case Some(next) => Advancing(id, next)
      case None => Finishing(id)
  }

  // ----- The upload handler -----

  /** Uploads start at the root of the user's Drive. */
  function Home(job: Job): Place {
    Place(D.Root(if job.user.Some? then job.user.value else 0), "")
  }

  /** The worker is uploading a job that has a meta file and whose user has a Drive. */
  predicate Uploads(s: State, stage: Stage, pc: Pc) {
    && stage.Upload? && pc.Working? && pc.id in s.files.meta
    && pc.job.user.Some? && pc.job.user.value in s.drives
  }

  /** One step for each folder, one for email.pdf and one for each attachment. */
  function UploadSteps(meta: Meta): nat {
    |meta.chain| + 1 + |meta.attachments|
  }

  /** File number i of an upload. */
  function FileName(meta: Meta, i: nat): string {
    if 0 < i <= |meta.attachments| then meta.attachments[i - 1] else "email.pdf"
  }

  /** Step number k of an upload: one folder of the chain, looked up in the cache first, or one file. */
  function StepAlong(walk: C.Walk, u: UserId, meta: Meta, k: nat, content: string, sky: C.Weather): C.Walk {
    if k < |meta.chain| then C.Step(walk, u, meta.chain[k], sky)
    else walk.(tree := D.Upload(walk.tree, walk.parent, D.Wanted(FileName(meta, k - |meta.chain|), content)))
  }

  function UploadStep(s: State, pc: Pc, a: WorkerAction): C.Walk
    requires Uploads(s, Upload, pc) && a.HandlerWrite?
  {
    var u := pc.job.user.value;
    StepAlong(C.Walk(s.drives[u], s.cache, pc.place.node, pc.place.path), u, s.files.meta[pc.id], pc.writes, a.content, a.sky)
  }

  predicate IsUpload(s: State, e: Event) {
    && e.OnWorker? && e.worker in s.workers && e.action.HandlerWrite?
    && Uploads(s, s.workers[e.worker].stage, s.workers[e.worker].pc)
  }

  function DrivesAfter(s: State, e: Event): map<UserId, D.Tree> {
    if IsUpload(s, e) then
      var pc := s.workers[e.worker].pc;
      s.drives[pc.job.user.value := UploadStep(s, pc, e.action).tree]
    else s.drives
  }

  /** The folder cache is in Redis too. */
  function CacheAfter(s: State, e: Event): C.Cache {
    if e.Wipe? then map[]
    else if IsUpload(s, e) then UploadStep(s, s.workers[e.worker].pc, e.action).cache
    else s.cache
  }

  function Settled(pc: Pc, error: Option<StoreError>): Pc {
    match pc
    case Failing(id, _, _) => if error.None? then Acking(Uuid(id)) else Leaving(Uuid(id))
    case Finishing(id) => if error.None? then Acking(Uuid(id)) else Leaving(Uuid(id))
    case Advancing(id, next) => if error.None? then Pushing(id, next) else Leaving(Uuid(id))
    case _ => pc
  }

  function PcAfter(s: State, w: WorkerId, a: WorkerAction): Pc
    requires w in s.workers
  {
    var Worker(stage, pc) := s.workers[w];
    match a
    case TakeToken(net) =>
      var queue := R.At(s.lists, R.Pending(stage));
      if net.Answered? && queue != [] then Popped(R.Last(queue)) else pc
    case ClaimRow(_) =>
      if !pc.Popped? then pc
      else if pc.token.Uuid? && Result(s, OnWorker(w, a)).error.None? then Claimed(pc.token.id)
      else Acking(pc.token)
    case ReadRow(net) =>
      if !pc.Claimed? then pc
      else if net.Answered? && pc.id in s.db then Working(pc.id, s.db[pc.id], 0, Home(s.db[pc.id]))
      else Leaving(Uuid(pc.id))
    case HandlerWrite(_, _, _) =>
      if !pc.Working? then pc
      else if Uploads(s, stage, pc) then
        var walk := UploadStep(s, pc, a);
        pc.(writes := pc.writes + 1, place := Place(walk.parent, walk.path))
      else pc.(writes := pc.writes + 1)
    case HandlerReturn(failure, jitter) =>
      if pc.Working? then Returned(s.now, stage, pc.id, pc.job, failure, jitter) else pc
    case SettleRow(_) => Settled(pc, Result(s, OnWorker(w, a)).error)
    case PushNext(_) => if pc.Pushing? then Acking(Uuid(pc.id)) else pc
    case AckToken(_) => if pc.Acking? then Idle else Down
    case Beat => pc
    case Stop => Down
  }

  function WorkersAfter(s: State, e: Event): map<WorkerId, Worker> {
    match e
    case OnWorker(w, a) =>
      if w in s.workers then s.workers[w := s.workers[w].(pc := PcAfter(s, w, a))] else s.workers
    case Start(w, stage) => s.workers[w := Worker(stage, Idle)]
    case _ => s.workers
  }

  /** When a handler can make its next durable write. Fetch needs a user and a message and writes the mime file;
      render needs the mime file and writes the pdf, then the meta file; upload needs both of those and a Drive, and
      takes one step of its walk or uploads one file. Rendering a message again names the same folder chain and
      attachments, and no folder is called email.pdf. */
  predicate CanWrite(s: State, stage: Stage, pc: Pc, meta: Meta)
    requires pc.Working?
  {
    match stage
    case Fetch => pc.writes == 0 && pc.job.user.Some? && pc.job.message.Some?
    case Render =>
      && pc.id in s.files.mime
      && (pc.writes == 0
          || (pc.writes == 1 && (pc.id in s.files.meta ==> meta == s.files.meta[pc.id]) && "email.pdf" !in meta.chain))
    case Upload => Uploads(s, stage, pc) && pc.id in s.files.pdf && pc.writes < UploadSteps(s.files.meta[pc.id])
    case Test => false
  }

  /** A handler returns without an error only when its writes are done. */
  predicate CanReturn(s: State, stage: Stage, id: JobId, k: nat) {
    match stage
    case Fetch => k == 1
    case Render => k == 2
    case Upload => id in s.files.meta && k == UploadSteps(s.files.meta[id])
    case Test => true
  }

  predicate WorkerEnabled(s: State, w: WorkerId, a: WorkerAction) {
    w in s.workers &&
    var Worker(stage, pc) := s.workers[w];
    match a
    case TakeToken(_) => pc.Idle?
    case ClaimRow(_) => pc.Popped?
    case ReadRow(_) => pc.Claimed?
    case HandlerWrite(meta, _, _) => pc.Working? && CanWrite(s, stage, pc, meta)
    case HandlerReturn(failure, jitter) =>
      pc.Working? && Backoff.IsJitter(jitter) && (failure.None? ==> CanReturn(s, stage, pc.id, pc.writes))
    case SettleRow(_) => pc.Failing? || pc.Advancing? || pc.Finishing?
    case PushNext(_) => pc.Pushing?
    case AckToken(_) => pc.Acking? || pc.Leaving?
    case Beat => !pc.Down?
    case Stop => !pc.Down?
  }

  // ----- Handler output -----

  function FilesAfter(s: State, e: Event): Files {
    if e.OnWorker? && e.worker in s.workers && e.action.HandlerWrite? && s.workers[e.worker].pc.Working? then
      var Worker(stage, pc) := s.workers[e.worker];
      match stage
      case Fetch => s.files.(mime := s.files.mime + {pc.id})
      case Render =>
        if pc.writes == 0 then s.files.(pdf := s.files.pdf + {pc.id})
        else s.files.(meta := s.files.meta[pc.id := e.action.meta])
      case _ => s.files
    else s.files
  }

  // ----- The sweeper -----

  ghost predicate IsScan(refs: seq<Ref>, ls: R.Lists) {
    && (forall r :: r in refs ==> R.Processing(r.stage, r.worker) in ls)
    && (forall k :: k in ls && k.Processing? ==> Ref(k.stage, k.worker) in refs)
  }

  ghost predicate SweepEnabled(s: State, b: SweepAction) {
    match b
    case Scan(refs) => s.pass.Resting? && IsScan(refs, s.lists)
    case CheckRef(_) => s.pass.Reclaiming? && s.pass.refs != []
    case MoveOne(_) => s.pass.Moving?
    case ListRunning(rows) => s.pass == Reclaiming([]) && IsListing(rows, s.db, j => IsRunning(j))
    case CheckOwner(_) => s.pass.Reviving? && s.pass.rows != []
    case Revive(_) => s.pass.Marking?
    case ListReady(rows) => s.pass == Reviving([]) && IsListing(rows, s.db, j => IsReadyRetry(j, s.now))
    case Promote(_) => s.pass.Promoting? && s.pass.rows != []
    case ListStale(rows) => s.pass == Promoting([]) && IsListing(rows, s.db, j => IsStaleQueued(j, s.now, s.threshold))
    case Repush(_) => s.pass.Repushing? && s.pass.rows != []
    case Abandon => true
  }

  function Rest<T>(xs: seq<T>): seq<T> {
    if xs == [] then [] else xs[1..]
  }

  function PassAfter(s: State, b: SweepAction): Pass {
    match b
    case Scan(refs) => Reclaiming(refs)
    case CheckRef(net) =>
      if !s.pass.Reclaiming? || s.pass.refs == [] then s.pass
      else if !net.Answered? || s.pass.refs[0].worker in s.beats then Reclaiming(s.pass.refs[1..])
      else Moving(s.pass.refs[0], s.pass.refs[1..])
    case MoveOne(net) =>
      if !s.pass.Moving? then s.pass
      else if !net.Answered? || R.At(s.lists, R.Processing(s.pass.ref.stage, s.pass.ref.worker)) == []
      then Reclaiming(s.pass.refs)
      else s.pass
    case ListRunning(rows) => Reviving(rows)
    case CheckOwner(net) =>
      if !s.pass.Reviving? || s.pass.rows == [] then s.pass
      else
        var row := s.pass.rows[0];
        if row.worker.None? || !net.Answered? || row.worker.value in s.beats then Reviving(s.pass.rows[1..])
        else Marking(row, s.pass.rows[1..])
    case Revive(_) => if s.pass.Marking? then Reviving(s.pass.rows) else s.pass
    case ListReady(rows) => Promoting(rows)
    case Promote(_) => if s.pass.Promoting? then Promoting(Rest(s.pass.rows)) else s.pass
    case ListStale(rows) => Repushing(rows)
    case Repush(_) => if s.pass.Repushing? then Repushing(Rest(s.pass.rows)) else s.pass
    case Abandon => Resting
  }

  // ----- The producers -----

  /** Mail jobs start at fetch and name their message; demo jobs start at test and name none. */
  predicate WellformedJob(nj: NewJob) {
    if nj.synthetic then nj.stage == Test && nj.user.None? && nj.message.None?
    else nj.stage == Fetch && nj.user.Some? && nj.message.Some?
  }

  predicate ProducerEnabled(s: State, p: nat, c: ProducerAction) {
    match c
    case CheckMessage(_, _, _) => ProducerAt(s, p).Free?
    case Insert(id, nj, _) =>
      && id !in s.db && WellformedJob(nj)
      && (ProducerAt(s, p).Free?
          || (ProducerAt(s, p).Checked?
              && nj.user == Some(ProducerAt(s, p).user) && nj.message == Some(ProducerAt(s, p).message)))
    case PushNew(_) => ProducerAt(s, p).Inserted?
    case GiveUp => true
  }

  function ProducersAfter(s: State, e: Event): map<nat, Producer> {
    if !e.OnProducer? then s.producers else
      s.producers[e.producer :=
        match e.produce
        case CheckMessage(u, m, net) => if net.Answered? && !HasJobFor(s.db, u, m) then Checked(u, m) else Free
        case Insert(id, nj, _) => if Result(s, e).error.None? then Inserted(id, nj.stage) else Free
        case PushNew(_) => Free
        case GiveUp => Free]
  }

  // ----- The log -----

  function Once<T>(happened: bool, x: T): multiset<T> {
    if happened then multiset{x} else multiset{}
  }

  /** The handler invocation that the step begins. */
  function Invoked(s: State, e: Event): multiset<JobId> {
    if e.OnWorker? && e.worker in s.workers && e.action.ReadRow?
       && s.workers[e.worker].pc.Claimed? && PcAfter(s, e.worker, e.action).Working?
    then multiset{s.workers[e.worker].pc.id} else multiset{}
  }

  function Logged(log: Log, t: Statement, effective: bool, invoked: multiset<JobId>, ls: R.Lists, c: R.Command, net: Reply): Log {
    var acked := c.AckFor? && !net.Refused? && c.token in R.At(ls, R.Processing(c.stage, c.worker));
    Log(
      log.claims + (if t.ClaimFor? then Once(effective, t.id) else multiset{}),
      log.advances + (if t.AdvanceRow? then Once(effective, t.id) else multiset{}),
      log.invocations + invoked,
      log.pushes + (if c.PushTo? then Once(!net.Refused?, c.token) else multiset{}),
      log.acks + (if acked then multiset{c.token} else multiset{}))
  }

  function LogAfter(s: State, e: Event): Log {
    Logged(s.log, StatementOf(s, e), Effective(s, e), Invoked(s, e), s.lists, CommandOf(s, e), ReplyOf(e))
  }

  // ----- Steps and runs -----

  ghost predicate Enabled(s: State, e: Event) {
    match e
    case OnWorker(w, a) => WorkerEnabled(s, w, a)
    case Start(w, _) => w !in s.workers
    case OnSweeper(b) => SweepEnabled(s, b)
    case OnProducer(p, c) => ProducerEnabled(s, p, c)
    case Lapse(_) => true
    case Wipe => true
    case Tick(_) => true
  }

  function BeatsAfter(s: State, e: Event): set<WorkerId> {
    match e
    case OnWorker(w, a) => if a.Beat? then s.beats + {w} else s.beats
    case Lapse(w) => s.beats - {w}
    case Wipe => {}
    case _ => s.beats
  }

  function Apply(s: State, e: Event): State {
    State(
      Result(s, e).db,
      ListsAfter(s, e),
      BeatsAfter(s, e),
      WorkersAfter(s, e),
      if e.OnSweeper? then PassAfter(s, e.sweep) else s.pass,
      ProducersAfter(s, e),
      if e.Tick? then s.now + e.elapsed else s.now,
      s.threshold,
      FilesAfter(s, e),
      DrivesAfter(s, e),
      CacheAfter(s, e),
      LogAfter(s, e))
  }

  /** H1: a worker between claim and settle has its heartbeat key. */
  ghost predicate H1(s: State) {
    forall w :: w in s.workers && Busy(s.workers[w].pc) ==> w in s.beats
  }

  /** From ListRunningJobs up to the last liveness check of the same pass. */
  predicate InWindow(pass: Pass) {
    (pass.Reviving? || pass.Marking?) && pass.rows != []
  }

  /** H2: no heartbeat key lapses inside that window. */
  predicate H2(s: State, s': State) {
    InWindow(s.pass) ==> s.beats <= s'.beats
  }

  /** H3: a call that returned an error had no effect. */
  predicate H3(e: Event) {
    ReplyOf(e) != Lost
  }

  /** Which hypotheses a run is subject to. H4 (worker IDs are never reused, one sweeper) is part of every run:
      Start needs an ID no process ever had, and there is one `pass`. */
  datatype Hypotheses = Hypotheses(timing: bool, replies: bool, redis: bool)

  ghost predicate Permits(h: Hypotheses, s: State, e: Event) {
    && (h.timing ==> H1(s) && H1(Apply(s, e)) && H2(s, Apply(s, e)))
    && (h.replies ==> H3(e))
    && (h.redis ==> e != Wipe)
  }

  ghost predicate Run(h: Hypotheses, s: State, events: seq<Event>)
    decreases |events|
  {
    events == [] || (Enabled(s, events[0]) && Permits(h, s, events[0]) && Run(h, Apply(s, events[0]), events[1..]))
  }

  function Exec(s: State, events: seq<Event>): State
    decreases |events|
  {
    if events == [] then s else Exec(Apply(s, events[0]), events[1..])
  }

  lemma {:induction false} RunConcat(h: Hypotheses, s: State, a: seq<Event>, b: seq<Event>)
    requires Run(h, s, a) && Run(h, Exec(s, a), b)
    ensures Run(h, s, a + b) && Exec(s, a + b) == Exec(Exec(s, a), b)
    decreases |a|
  {
    if a == [] {
      assert a + b == b;
    } else {
      assert (a + b)[0] == a[0] && (a + b)[1..] == a[1..] + b;
      RunConcat(h, Apply(s, a[0]), a[1..], b);
    }
  }

  predicate FreshRow(j: Job) {
    && j.status == Queued && j.worker.None? && j.attempts == 0 && j.lastError.None? && j.maxAttempts >= 1
    && (if j.synthetic then j.stage == Test else j.stage == Fetch && j.user.Some?)
  }

  ghost predicate NoPdfFolder(t: D.Tree) {
    forall k :: k in t.folders ==> k.1 != "email.pdf"
  }

  /** A start with any fresh rows, whatever their max_attempts, nothing in Redis or on disk, and anything in the users'
      Drives except a folder called email.pdf. */
  ghost predicate Init(s: State) {
    && Wellformed(s.db) && (forall k :: k in s.db ==> FreshRow(s.db[k]))
    && s.lists == map[] && s.beats == {} && s.workers == map[] && s.pass == Resting && s.producers == map[]
    && s.files == Files({}, {}, map[]) && s.cache == map[] && (forall u :: u in s.drives ==> NoPdfFolder(s.drives[u]))
    && s.log == Log(multiset{}, multiset{}, multiset{}, multiset{}, multiset{})
  }
}
