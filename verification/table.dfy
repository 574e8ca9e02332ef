/** The SQL statements of internal/store, each as a function on the table it reads. */
module Table {
  import opened Types

  type Db = map<JobId, Job>

  datatype StoreError = NotFound | NotClaimable | Duplicate | Unavailable

  /** The table after a statement, and the error the statement reported. */
  datatype Written = Written(db: Db, error: Option<StoreError>)

  datatype NewJob = NewJob(stage: Stage, user: Option<UserId>, message: Option<MessageId>, synthetic: bool)

  const DEFAULT_MAX_ATTEMPTS := 8

  predicate Terminal(j: Job) {
    j.status in {Done, Dead}
  }

  /** The rows covered by the partial unique index pipeline_jobs_user_message_unique. */
  predicate Indexed(j: Job) {
    !Terminal(j) && !j.synthetic && j.user.Some? && j.message.Some?
  }

  predicate SameMessage(a: Job, b: Job) {
    a.user == b.user && a.message == b.message
  }

  predicate Collides(db: Db, id: JobId, j: Job) {
    Indexed(j) && exists k :: k in db && k != id && Indexed(db[k]) && SameMessage(db[k], j)
  }

  /** What the primary key and the unique index enforce on every reachable table. */
  ghost predicate Wellformed(db: Db) {
    && (forall k :: k in db ==> db[k].id == k)
    && UniqueLive(db)
  }

  ghost predicate UniqueLive(db: Db) {
    forall k, l :: k in db && l in db && Indexed(db[k]) && Indexed(db[l]) && SameMessage(db[k], db[l]) ==> k == l
  }

  /** Postgres refuses a row version that would break the unique index. */
  function Save(db: Db, id: JobId, j: Job): Written {
    if Collides(db, id, j) then Written(db, Some(Duplicate)) else Written(db[id := j], None)
  }

  /** A statement as seen through a connection that can fail before or after it ran. */
  function Sent(db: Db, w: Written, net: Reply): Written {
    match net
    case Answered => w
    case Refused => Written(db, Some(Unavailable))
    case Lost => Written(w.db, Some(Unavailable))
  }

  function NewRow(id: JobId, nj: NewJob, now: Time): Job {
    Job(id, nj.stage, Queued, None, 0, DEFAULT_MAX_ATTEMPTS, None, now, now, nj.user, nj.message, nj.synthetic)
  }

  function Enqueue(db: Db, id: JobId, nj: NewJob, now: Time): Written {
    if id in db then Written(db, Some(Unavailable)) else Save(db, id, NewRow(id, nj, now))
  }

  function Claim(db: Db, id: JobId, w: WorkerId): Written {
    if id !in db || db[id].status != Queued then Written(db, Some(NotClaimable))
    else Save(db, id, db[id].(status := Running, worker := Some(w)))
  }

  function Finish(db: Db, id: JobId): Written {
    if id !in db then Written(db, Some(NotFound)) else Save(db, id, db[id].(status := Done))
  }

  function AfterFailure(j: Job, message: string, nextRunAt: Time): Job {
    j.(attempts := j.attempts + 1,
       status := if j.attempts + 1 >= j.maxAttempts then Dead else Queued,
       worker := None,
       lastError := Some(message),
       nextRunAt := nextRunAt)
  }

  function Fail(db: Db, id: JobId, message: string, nextRunAt: Time): Written {
    if id !in db then Written(db, Some(NotFound)) else Save(db, id, AfterFailure(db[id], message, nextRunAt))
  }

  function Advance(db: Db, id: JobId, next: Stage): Written {
    if id !in db || db[id].status != Running then Written(db, Some(NotFound))
    else Save(db, id, db[id].(stage := next, status := Queued, worker := None))
  }

  predicate IsRunning(j: Job) {
    j.status == Running
  }

  predicate IsReadyRetry(j: Job, now: Time) {
    j.status == Queued && j.lastError.Some? && j.nextRunAt <= now
  }

  predicate IsStaleQueued(j: Job, now: Time, threshold: Time) {
    j.status == Queued && j.lastError.None? && j.createdAt < now - threshold
  }

  predicate HasJobFor(db: Db, u: UserId, m: MessageId) {
    exists k :: k in db && db[k].user == Some(u) && db[k].message == Some(m)
  }

  /** `rows` is the answer to SELECT ... WHERE p, in some order. */
  ghost predicate IsListing(rows: seq<Job>, db: Db, p: Job -> bool) {
    && (forall i :: 0 <= i < |rows| ==> rows[i].id in db && db[rows[i].id] == rows[i] && p(rows[i]))
    && (forall i, j :: 0 <= i < j < |rows| ==> rows[i].id != rows[j].id)
    && (forall k :: k in db && p(db[k]) ==> exists i :: 0 <= i < |rows| && rows[i].id == k)
  }

  /** Moving a row between two live states, or ending it, can never trip the unique index. */
  lemma SaveKeepsIndex(db: Db, id: JobId, j: Job)
    requires UniqueLive(db) && id in db
    requires Terminal(j) || (Indexed(j) ==> Indexed(db[id]) && SameMessage(j, db[id]))
    ensures Save(db, id, j) == Written(db[id := j], None)
  {
  }

  /** Whatever row is written, the table keeps its keys and the unique index. */
  lemma SaveKeepsWellformed(db: Db, id: JobId, j: Job)
    requires Wellformed(db) && j.id == id
    ensures Wellformed(Save(db, id, j).db)
  {
  }

  /** The SQL statements that write. */
  datatype Statement =
    | NoStatement
    | EnqueueRow(id: JobId, nj: NewJob, now: Time)
    | ClaimFor(id: JobId, worker: WorkerId)
    | FinishRow(id: JobId)
    | FailRow(id: JobId, message: string, nextRunAt: Time)
    | AdvanceRow(id: JobId, next: Stage)

  function Execute(db: Db, t: Statement): Written {
    match t
    case NoStatement => Written(db, None)
    case EnqueueRow(id, nj, now) => Enqueue(db, id, nj, now)
    case ClaimFor(id, w) => Claim(db, id, w)
    case FinishRow(id) => Finish(db, id)
    case FailRow(id, message, nextRunAt) => Fail(db, id, message, nextRunAt)
    case AdvanceRow(id, next) => Advance(db, id, next)
  }
}
