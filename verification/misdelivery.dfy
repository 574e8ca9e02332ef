/** Runs in which a done job's mail is not where its meta file says, and exactly when there are such runs. */
module Misdelivery {
  import opened Types
  import opened Table
  import opened Rows
  import opened Passes
  import opened Processing
  import opened Traces
  import opened Refinement
  import opened HandlerSteps
  import opened FolderPaths
  import R = RedisLists
  import P = Protocol
  import C = CachedWalk
  import D = Drive
  import Delivery
  import Drain
  import Delivered
  import Misled
  import CacheLimits
  import Imports

  /** A queued mail job of the user, with the only token in the queues. */
  ghost predicate AtStage(s: P.State, id: JobId, stage: Stage) {
    && id in s.db && s.db[id].status == Queued && s.db[id].stage == stage && s.db[id].user == Some(USER)
    && s.db[id].message.Some? && !s.db[id].synthetic && OnlyToken(s.lists, stage, id) && USER in s.drives
  }

  ghost predicate NoToken(ls: R.Lists) {
    forall st :: R.At(ls, R.Pending(st)) == []
  }

  /** A producer inserts a job. */
  lemma IsInserted(before: seq<P.Event>, s: P.State, id: JobId, m: MessageId) returns (events: seq<P.Event>, t: P.State)
    requires Reached(START, before, s) && id !in s.db && P.ProducerAt(s, id).Free? && !HasJobFor(s.db, USER, m)
    ensures Reached(START, events, t) && StorageOf(t) == StorageOf(s) && t.workers == s.workers && t.lists == s.lists
    ensures t.db == s.db[id := NewRow(id, Imports.MailJob(USER, m), s.now)]
    ensures t.producers == s.producers[id := P.Inserted(id, Fetch)]
  {
    Imports.InsertOutcome(s.db, id, USER, m, s.now);
    events, t := Inserting(START, before, s, id, id, Imports.MailJob(USER, m));
  }

  /** A producer inserts and pushes a job. */
  lemma Enters(before: seq<P.Event>, s: P.State, id: JobId, m: MessageId) returns (events: seq<P.Event>, t: P.State)
    requires Reached(START, before, s) && id !in s.db && P.ProducerAt(s, id).Free? && !HasJobFor(s.db, USER, m)
    requires NoToken(s.lists) && USER in s.drives
    ensures Reached(START, events, t) && AtStage(t, id, Fetch) && StorageOf(t) == StorageOf(s) && t.workers == s.workers
    ensures t.db == s.db[id := NewRow(id, Imports.MailJob(USER, m), s.now)]
    ensures t.producers == s.producers[id := P.Inserted(id, Fetch)][id := P.Free]
  {
    events, t := IsInserted(before, s, id, m);
    FirstPush(t.lists, id);
    events, t := PushingNew(START, events, t, id);
  }

  lemma StandsAsNew(events: seq<P.Event>, s: P.State, w: WorkerId, id: JobId, stage: Stage)
    requires Reached(START, events, s) && AtStage(s, id, stage) && w in s.workers && s.workers[w] == P.Worker(stage, P.Idle)
    ensures Standing(s, w, id)
  {
    ReachedIsSound(events, s);
  }

  /** A worker for the job starts. */
  lemma Joins(before: seq<P.Event>, s: P.State, id: JobId, stage: Stage, w: WorkerId) returns (events: seq<P.Event>, t: P.State)
    requires Reached(START, before, s) && AtStage(s, id, stage) && w !in s.workers
    ensures Reached(START, events, t) && AtStage(t, id, stage) && Standing(t, w, id) && StorageOf(t) == StorageOf(s)
    ensures t.db == s.db && t.workers.Keys == s.workers.Keys + {w} && t.producers == s.producers
  {
    events, t := Arrives(before, s, id, stage, w);
    StandsAsNew(events, t, w, id, stage);
  }

  lemma Arrives(before: seq<P.Event>, s: P.State, id: JobId, stage: Stage, w: WorkerId) returns (events: seq<P.Event>, t: P.State)
    requires Reached(START, before, s) && AtStage(s, id, stage) && w !in s.workers
    ensures Reached(START, events, t) && AtStage(t, id, stage) && StorageOf(t) == StorageOf(s) && t.db == s.db
    ensures t.workers == s.workers[w := P.Worker(stage, P.Idle)] && t.producers == s.producers
    ensures t.workers.Keys == s.workers.Keys + {w}
  {
    events, t := Starting(START, before, s, w, stage);
    StillAtStage(s, t, id, stage);
  }

  lemma StillAtStage(s: P.State, t: P.State, id: JobId, stage: Stage)
    requires AtStage(s, id, stage) && Unmoved(s, t) && t.db == s.db && t.lists == s.lists
    ensures AtStage(t, id, stage) && StorageOf(t) == StorageOf(s)
  {
  }

  /** The handler can do these writes and then succeed. */
  lemma PlaysPass(before: seq<P.Event>, s: P.State, w: WorkerId, id: JobId, writes: seq<P.WorkerAction>)
    returns (events: seq<P.Event>, t: P.State)
    requires Reached(START, before, s) && Standing(s, w, id)
    requires HandlerWrites(Started(s, w, id), w, Success(s.db[id].stage, s.now), writes)
    ensures Reached(START, events, t) && t.producers == s.producers && t.workers.Keys == s.workers.Keys
    ensures id in t.db && t.db == s.db[id := t.db[id]] && Advanced(s.db[id], t.db[id])
    ensures var next := P.NextStage(s.db[id].stage); next.Some? ==> OnlyToken(t.lists, next.value, id)
    ensures StorageOf(t) == StorageOf(Wrote(Started(s, w, id), w, writes))
  {
    var more;
    more, t := PassWith(NO_TIMING, s, w, id, writes);
    ThenAll(START, before, s, more, t);
    events := before + more;
  }

  // ----- To the upload stage -----

  /** The handler of a worker that has just started can write these one after the other and then succeed. */
  lemma WritesThenSucceeds(s: P.State, w: WorkerId, c: Call, writes: seq<P.WorkerAction>)
    requires w in s.workers && s.workers[w].pc.Working? && CanWriteAll(s, w, writes) && c.jitter == 1.0
    requires var t := Wrote(s, w, writes);
             w in t.workers && t.workers[w].pc.Working?
             && P.CanReturn(t, t.workers[w].stage, t.workers[w].pc.id, t.workers[w].pc.writes)
    ensures HandlerWrites(s, w, c, writes)
  {
  }

  lemma FetchWrites(s: P.State, w: WorkerId)
    requires w in s.workers && s.workers[w].stage == Fetch && s.workers[w].pc.Working? && s.workers[w].pc.writes == 0
    requires s.workers[w].pc.job.user.Some? && s.workers[w].pc.job.message.Some?
    ensures CanWriteAll(s, w, [Write(NO_META)])
    ensures var (pc, t) := (s.workers[w].pc, Wrote(s, w, [Write(NO_META)]));
            && t.drives == s.drives && t.cache == s.cache && t.files == s.files.(mime := s.files.mime + {pc.id})
            && w in t.workers && t.workers[w] == P.Worker(Fetch, pc.(writes := 1))
  {
    FileView(s, w, NO_META);
    OneWrite(s, w, Write(NO_META));
    assert [Write(NO_META)][1..] == [] && CanWriteAll(P.Apply(s, P.OnWorker(w, Write(NO_META))), w, []);
  }

  lemma FetchPlays(s: P.State, w: WorkerId, id: JobId)
    requires Standing(s, w, id) && s.db[id].stage == Fetch && s.db[id].user.Some?
    ensures HandlerWrites(Started(s, w, id), w, Success(Fetch, s.now), [Write(NO_META)])
    ensures var t := Wrote(Started(s, w, id), w, [Write(NO_META)]);
            t.drives == s.drives && t.cache == s.cache && t.files == s.files.(mime := s.files.mime + {id})
  {
    HandlerStarts(s, w, id);
    FetchWrites(Started(s, w, id), w);
    WritesThenSucceeds(Started(s, w, id), w, Success(Fetch, s.now), [Write(NO_META)]);
  }

  lemma TwoWrites(s: P.State, w: WorkerId, a: P.WorkerAction)
    requires a.HandlerWrite? && P.WorkerEnabled(s, w, a) && P.WorkerEnabled(P.Apply(s, P.OnWorker(w, a)), w, a)
    ensures CanWriteAll(s, w, [a, a])
    ensures Wrote(s, w, [a, a]) == P.Apply(P.Apply(s, P.OnWorker(w, a)), P.OnWorker(w, a))
  {
    var t := P.Apply(s, P.OnWorker(w, a));
    assert [a, a][1..] == [a] && [a][1..] == [];
    OneWrite(t, w, a);
    assert CanWriteAll(P.Apply(t, P.OnWorker(w, a)), w, []) && CanWriteAll(t, w, [a]);
  }

  lemma RenderWrites(s: P.State, w: WorkerId, plan: P.Meta)
    requires w in s.workers && s.workers[w].stage == Render && s.workers[w].pc.Working? && s.workers[w].pc.writes == 0
    requires s.workers[w].pc.id in s.files.mime && s.workers[w].pc.id !in s.files.meta && "email.pdf" !in plan.chain
    ensures CanWriteAll(s, w, [Write(plan), Write(plan)])
    ensures var (pc, t) := (s.workers[w].pc, Wrote(s, w, [Write(plan), Write(plan)]));
            && t.drives == s.drives && t.cache == s.cache
            && t.files == P.Files(s.files.mime, s.files.pdf + {pc.id}, s.files.meta[pc.id := plan])
            && w in t.workers && t.workers[w] == P.Worker(Render, pc.(writes := 2))
  {
    FileView(s, w, plan);
    FileView(P.Apply(s, P.OnWorker(w, Write(plan))), w, plan);
    TwoWrites(s, w, Write(plan));
  }

  lemma RenderPlays(s: P.State, w: WorkerId, id: JobId, plan: P.Meta)
    requires Standing(s, w, id) && s.db[id].stage == Render && id !in s.files.meta && "email.pdf" !in plan.chain
    ensures HandlerWrites(Started(s, w, id), w, Success(Render, s.now), [Write(plan), Write(plan)])
    ensures var t := Wrote(Started(s, w, id), w, [Write(plan), Write(plan)]);
            && t.drives == s.drives && t.cache == s.cache
            && t.files == P.Files(s.files.mime, s.files.pdf + {id}, s.files.meta[id := plan])
  {
    HandlerStarts(s, w, id);
    assert Delivery.RowCertified(s.files, s.db[id]);
    RenderWrites(Started(s, w, id), w, plan);
    WritesThenSucceeds(Started(s, w, id), w, Success(Render, s.now), [Write(plan), Write(plan)]);
  }

  /** Only the row and the data directory have changed. */
  predicate Further(s: P.State, t: P.State, id: JobId, ws: set<WorkerId>) {
    && t.drives == s.drives && t.cache == s.cache && t.producers == s.producers && t.workers.Keys == s.workers.Keys + ws
    && id in s.db && id in t.db && t.db == s.db[id := t.db[id]] && t.db[id].message == s.db[id].message
  }

  lemma FurtherOn(s: P.State, t: P.State, u: P.State, id: JobId, v: WorkerId, w: WorkerId)
    requires Further(s, t, id, {v}) && Further(t, u, id, {w})
    ensures Further(s, u, id, {v, w})
  {
    RowTwice(s.db, id, t.db[id], u.db[id]);
    assert s.workers.Keys + {v} + {w} == s.workers.Keys + {v, w};
  }

  lemma RowTwice(db: Db, id: JobId, a: Job, b: Job)
    ensures db[id := a][id := b] == db[id := b]
  {
  }

  lemma FetchLeg(before: seq<P.Event>, s: P.State, id: JobId, w: WorkerId) returns (events: seq<P.Event>, t: P.State)
    requires Reached(START, before, s) && AtStage(s, id, Fetch) && w !in s.workers
    ensures Reached(START, events, t) && AtStage(t, id, Render) && Further(s, t, id, {w})
    ensures t.files == s.files.(mime := s.files.mime + {id})
  {
    var started, t1 := Joins(before, s, id, Fetch, w);
    FetchPlays(t1, w, id);
    events, t := PlaysPass(started, t1, w, id, [Write(NO_META)]);
  }

  lemma RenderLeg(before: seq<P.Event>, s: P.State, id: JobId, w: WorkerId, plan: P.Meta)
    returns (events: seq<P.Event>, t: P.State)
    requires Reached(START, before, s) && AtStage(s, id, Render) && w !in s.workers
    requires id !in s.files.meta && "email.pdf" !in plan.chain
    ensures Reached(START, events, t) && AtStage(t, id, Upload) && Further(s, t, id, {w})
    ensures t.files == P.Files(s.files.mime, s.files.pdf + {id}, s.files.meta[id := plan])
  {
    var started, t1 := Joins(before, s, id, Render, w);
    RenderPlays(t1, w, id, plan);
    events, t := PlaysPass(started, t1, w, id, [Write(plan), Write(plan)]);
  }

  lemma FetchAndRender(before: seq<P.Event>, s: P.State, id: JobId, v: WorkerId, w: WorkerId, plan: P.Meta)
    returns (events: seq<P.Event>, t: P.State)
    requires Reached(START, before, s) && AtStage(s, id, Fetch) && v !in s.workers && w !in s.workers && v != w
    requires id !in s.files.meta && "email.pdf" !in plan.chain
    ensures Reached(START, events, t) && AtStage(t, id, Upload) && Further(s, t, id, {v, w})
    ensures t.files.meta == s.files.meta[id := plan] && id in t.files.pdf
  {
    var fetched;
    events, fetched := FetchLeg(before, s, id, v);
    events, t := RenderLeg(events, fetched, id, w, plan);
    FurtherOn(s, fetched, t, id, v, w);
  }

  /** A job is inserted, fetched and rendered, with this chain in its meta file. */
  lemma IsPrepared(before: seq<P.Event>, s: P.State, id: JobId, m: MessageId, v: WorkerId, w: WorkerId, chain: seq<string>)
    returns (events: seq<P.Event>, t: P.State)
    requires Reached(START, before, s) && id !in s.db && P.ProducerAt(s, id).Free? && !HasJobFor(s.db, USER, m)
    requires NoToken(s.lists) && USER in s.drives && v !in s.workers && w !in s.workers && v != w
    requires id !in s.files.meta && "email.pdf" !in chain
    ensures Reached(START, events, t) && AtStage(t, id, Upload) && t.drives == s.drives && t.cache == s.cache
    ensures t.workers.Keys == s.workers.Keys + {v, w} && t.producers == s.producers[id := P.Inserted(id, Fetch)][id := P.Free]
    ensures id in t.db && t.db == s.db[id := t.db[id]] && t.db[id].message == Some(m)
    ensures t.files.meta == s.files.meta[id := P.Meta(chain, [])] && id in t.files.pdf
  {
    var inserted;
    events, inserted := Enters(before, s, id, m);
    events, t := FetchAndRender(events, inserted, id, v, w, P.Meta(chain, []));
    RowTwice(s.db, id, inserted.db[id], t.db[id]);
  }

  // ----- Uploading -----

  lemma TakenLast(ls: R.Lists, stage: Stage, w: WorkerId, id: JobId)
    requires OnlyToken(ls, stage, id)
    ensures R.At(ls, R.Pending(stage)) == [Uuid(id)] && NoToken(R.Perform(ls, R.PopFor(stage, w)))
  {
  }

  /** A worker has taken the job. */
  lemma IsTaken(before: seq<P.Event>, s: P.State, id: JobId, w: WorkerId) returns (events: seq<P.Event>, t: P.State)
    requires Reached(START, before, s) && Standing(s, w, id)
    ensures Reached(START, events, t) && StorageOf(t) == StorageOf(s) && t.producers == s.producers && NoToken(t.lists)
    ensures t.workers == s.workers[w := P.Worker(s.db[id].stage, P.Popped(Uuid(id)))] && t.db == s.db
  {
    TakenLast(s.lists, s.db[id].stage, w, id);
    TakeView(s, w, Success(s.db[id].stage, s.now));
    events, t := Acting(START, before, s, w, P.TakeToken(Answered));
  }

  lemma Claims(before: seq<P.Event>, s: P.State, id: JobId, w: WorkerId) returns (events: seq<P.Event>, t: P.State)
    requires Reached(START, before, s) && w in s.workers && s.workers[w].pc == P.Popped(Uuid(id))
    requires TableOk(s.db) && id in s.db && s.db[id].status == Queued
    ensures Reached(START, events, t) && StorageOf(t) == StorageOf(s) && t.producers == s.producers && t.lists == s.lists
    ensures t.workers == s.workers[w := P.Worker(s.workers[w].stage, P.Claimed(id))]
    ensures t.db == s.db[id := s.db[id].(status := Running, worker := Some(w))]
  {
    Drain.ClaimServes(s.db, id, w);
    ClaimGoesThrough(s, w, id);
    events, t := Acting(START, before, s, w, P.ClaimRow(Answered));
  }

  /** It has claimed it. */
  lemma IsClaimed(before: seq<P.Event>, s: P.State, id: JobId, w: WorkerId) returns (events: seq<P.Event>, t: P.State)
    requires Reached(START, before, s) && Standing(s, w, id)
    ensures Reached(START, events, t) && StorageOf(t) == StorageOf(s) && t.producers == s.producers && NoToken(t.lists)
    ensures t.workers == s.workers[w := P.Worker(s.db[id].stage, P.Claimed(id))]
    ensures id in t.db && t.db == s.db[id := t.db[id]] && SameMessage(s.db[id], t.db[id])
  {
    var taken;
    events, taken := IsTaken(before, s, id, w);
    events, t := Claims(events, taken, id, w);
    WorkerTwice(s.workers, w, taken.workers[w], t.workers[w]);
  }

  lemma WorkerTwice(workers: map<WorkerId, P.Worker>, w: WorkerId, a: P.Worker, b: P.Worker)
    ensures workers[w := a][w := b] == workers[w := b]
  {
  }

  /** It has read the row. */
  lemma IsRead(before: seq<P.Event>, s: P.State, id: JobId, w: WorkerId) returns (events: seq<P.Event>, t: P.State)
    requires Reached(START, before, s) && w in s.workers && s.workers[w] == P.Worker(Upload, P.Claimed(id)) && id in s.db
    ensures Reached(START, events, t) && StorageOf(t) == StorageOf(s) && t.producers == s.producers
    ensures t.lists == s.lists && t.db == s.db
    ensures t.workers == s.workers[w := P.Worker(Upload, P.Working(id, s.db[id], 0, P.Home(s.db[id])))]
  {
    ReadsRow(s, w, id);
    events, t := Acting(START, before, s, w, P.ReadRow(Answered));
  }

  lemma IsClaimedAndRead(before: seq<P.Event>, s: P.State, id: JobId, w: WorkerId) returns (events: seq<P.Event>, t: P.State)
    requires Reached(START, before, s) && Standing(s, w, id) && s.db[id].stage == Upload
    ensures Reached(START, events, t) && StorageOf(t) == StorageOf(s) && t.producers == s.producers && NoToken(t.lists)
    ensures t.workers.Keys == s.workers.Keys && id in t.db && t.db == s.db[id := t.db[id]] && SameMessage(s.db[id], t.db[id])
    ensures t.workers[w] == P.Worker(Upload, P.Working(id, t.db[id], 0, P.Home(t.db[id])))
  {
    var claimed;
    events, claimed := IsClaimed(before, s, id, w);
    events, t := IsRead(events, claimed, id, w);
  }

  /** A worker has begun to upload the job. */
  lemma UploadBegins(before: seq<P.Event>, s: P.State, id: JobId, w: WorkerId) returns (events: seq<P.Event>, t: P.State)
    requires Reached(START, before, s) && AtStage(s, id, Upload) && w !in s.workers
    ensures Reached(START, events, t) && StorageOf(t) == StorageOf(s) && NoToken(t.lists) && Further(s, t, id, {w})
    ensures t.workers[w] == P.Worker(Upload, P.Working(id, t.db[id], 0, P.Home(t.db[id]))) && t.db[id].user == Some(USER)
  {
    var joined;
    events, joined := Joins(before, s, id, Upload, w);
    events, t := IsClaimedAndRead(events, joined, id, w);
  }

  /** It has taken n steps along its chain. */
  lemma UploadGoes(before: seq<P.Event>, s: P.State, w: WorkerId, names: seq<string>, sky: nat -> C.Weather, n: nat)
    returns (events: seq<P.Event>, t: P.State)
    requires Reached(START, before, s) && Begins(s, w, names, []) && n <= |names| && s.workers[w].pc.job.user == Some(USER)
    ensures Reached(START, events, t) && t.db == s.db && t.lists == s.lists && t.files == s.files
    ensures t.producers == s.producers && t.workers.Keys == s.workers.Keys
    ensures var walk := C.Walked(s.drives[USER], s.cache, USER, names, sky, n);
            t.drives == s.drives[USER := walk.tree] && t.cache == walk.cache
  {
    var writes := UploadWrites(|names|, [], sky, n);
    UploadIsSteps(s, w, names, [], sky, n);
    WritesAreSteps(NO_TIMING, s, w, writes);
    t := Wrote(s, w, writes);
    ThenAll(START, before, s, Steps(w, writes), t);
    events := before + Steps(w, writes);
  }

  const PDF := [D.Wanted("email.pdf", "")]

  /** A worker uploads the job to the end. */
  lemma UploadEnds(before: seq<P.Event>, s: P.State, id: JobId, w: WorkerId, names: seq<string>, sky: nat -> C.Weather)
    returns (events: seq<P.Event>, t: P.State)
    requires Reached(START, before, s) && AtStage(s, id, Upload) && w !in s.workers
    requires id in s.files.meta && s.files.meta[id] == P.Meta(names, []) && id in s.files.pdf
    ensures Reached(START, events, t) && t.files == s.files && id in t.db
    ensures t.db[id].status == Done && !t.db[id].synthetic && t.db[id].user == Some(USER)
    ensures var walk := C.Walked(s.drives[USER], s.cache, USER, names, sky, |names|);
            t.drives == s.drives[USER := D.UploadAll(walk.tree, walk.parent, PDF)]
  {
    var started, t1 := Joins(before, s, id, Upload, w);
    events, t := UploadPass(started, t1, id, w, names, sky);
  }

  lemma UploadPass(before: seq<P.Event>, s: P.State, id: JobId, w: WorkerId, names: seq<string>, sky: nat -> C.Weather)
    returns (events: seq<P.Event>, t: P.State)
    requires Reached(START, before, s) && Standing(s, w, id) && s.db[id].stage == Upload && s.db[id].user == Some(USER)
    requires USER in s.drives && id in s.files.meta && s.files.meta[id] == P.Meta(names, []) && id in s.files.pdf
    ensures Reached(START, events, t) && t.files == s.files && id in t.db
    ensures t.db[id].status == Done && !t.db[id].synthetic && t.db[id].user == Some(USER)
    ensures var walk := C.Walked(s.drives[USER], s.cache, USER, names, sky, |names|);
            t.drives == s.drives[USER := D.UploadAll(walk.tree, walk.parent, PDF)]
  {
    UploadPlays(s, w, id, names, sky);
    events, t := PlaysPass(before, s, w, id, UploadWrites(|names|, PDF, sky, |names| + 1));
  }

  lemma UploadWritesAll(s: P.State, w: WorkerId, c: Call, names: seq<string>, sky: nat -> C.Weather)
    requires Begins(s, w, names, PDF) && s.workers[w].pc.job.user == Some(USER) && c.jitter == 1.0
    requires s.files.meta[s.workers[w].pc.id] == P.Meta(names, [])
    ensures var writes := UploadWrites(|names|, PDF, sky, |names| + 1);
            && HandlerWrites(s, w, c, writes)
            && var (t, walk) := (Wrote(s, w, writes), C.Walked(s.drives[USER], s.cache, USER, names, sky, |names|));
            t.files == s.files && t.drives == s.drives[USER := D.UploadAll(walk.tree, walk.parent, PDF)]
  {
    var writes := UploadWrites(|names|, PDF, sky, |names| + 1);
    UploadIsSteps(s, w, names, PDF, sky, |names| + 1);
    assert PDF[..1] == PDF;
    WritesThenSucceeds(s, w, c, writes);
  }

  lemma UploadPlays(s: P.State, w: WorkerId, id: JobId, names: seq<string>, sky: nat -> C.Weather)
    requires Standing(s, w, id) && s.db[id].stage == Upload && s.db[id].user == Some(USER) && USER in s.drives
    requires id in s.files.meta && s.files.meta[id] == P.Meta(names, []) && id in s.files.pdf
    ensures var writes := UploadWrites(|names|, PDF, sky, |names| + 1);
            && HandlerWrites(Started(s, w, id), w, Success(Upload, s.now), writes)
            && var (t, walk) := (Wrote(Started(s, w, id), w, writes),
                                 C.Walked(s.drives[USER], s.cache, USER, names, sky, |names|));
            t.files == s.files && t.drives == s.drives[USER := D.UploadAll(walk.tree, walk.parent, PDF)]
  {
    HandlerStarts(s, w, id);
    UploadWritesAll(Started(s, w, id), w, Success(Upload, s.now), names, sky);
  }

  // ----- Two jobs -----

  /** Only the first job exists. */
  predicate OneJob(s: P.State, first: seq<string>, workers: set<WorkerId>) {
    && s.workers.Keys == workers && s.files.meta == map[0 := P.Meta(first, [])] && P.ProducerAt(s, 1).Free?
    && s.db.Keys == {0} && s.db[0].message == Some("m")
  }

  lemma FirstPrepared(first: seq<string>) returns (events: seq<P.Event>, t: P.State)
    requires "email.pdf" !in first
    ensures Reached(START, events, t) && OneJob(t, first, {"f", "r"}) && AtStage(t, 0, Upload) && 0 in t.files.pdf
    ensures t.drives == map[USER := CacheLimits.SCRATCH] && t.cache == map[]
  {
    assert "f"[0] != "r"[0];
    StartIsBare();
    events, t := IsPrepared([], START, 0, "m", "f", "r", first);
  }

  lemma FirstBegins(first: seq<string>) returns (events: seq<P.Event>, t: P.State)
    requires "email.pdf" !in first
    ensures Reached(START, events, t) && OneJob(t, first, {"f", "r", "u"}) && NoToken(t.lists)
    ensures Begins(t, "u", first, []) && t.workers["u"].pc.job.user == Some(USER)
    ensures t.drives == map[USER := CacheLimits.SCRATCH] && t.cache == map[]
  {
    var s;
    events, s := FirstPrepared(first);
    NewName(s.workers.Keys);
    events, t := UploadBegins(events, s, 0, "u");
    HasBegun(t, 0, "u", first);
  }

  lemma NewName(workers: set<WorkerId>)
    requires workers == {"f", "r"}
    ensures "u" !in workers && workers + {"u"} == {"f", "r", "u"}
  {
    assert "f"[0] != "u"[0] && "r"[0] != "u"[0];
  }

  lemma HasBegun(s: P.State, id: JobId, w: WorkerId, chain: seq<string>)
    requires id in s.db && s.db[id].user == Some(USER) && USER in s.drives && w in s.workers
    requires s.workers[w] == P.Worker(Upload, P.Working(id, s.db[id], 0, P.Home(s.db[id])))
    requires id in s.files.pdf && id in s.files.meta && s.files.meta[id] == P.Meta(chain, [])
    ensures Begins(s, w, chain, [])
  {
  }

  /** The first job is under way, its upload stopped after n steps. */
  lemma FirstStops(first: seq<string>, n: nat) returns (events: seq<P.Event>, t: P.State)
    requires n <= |first| && "email.pdf" !in first
    ensures Reached(START, events, t) && OneJob(t, first, {"f", "r", "u"}) && NoToken(t.lists)
    ensures var walk := C.Walked(CacheLimits.SCRATCH, map[], USER, first, Misled.Writing, n);
            t.drives == map[USER := walk.tree] && t.cache == walk.cache
  {
    var s;
    events, s := FirstBegins(first);
    events, t := UploadGoes(events, s, "u", first, Misled.Writing, n);
  }

  lemma StartIsBare()
    ensures P.Init(START) && Reached(START, [], START) && NoToken(START.lists)
    ensures START.db == map[] && START.workers == map[] && START.producers == map[] && START.cache == map[]
    ensures START.files.meta == map[] && START.drives == map[USER := CacheLimits.SCRATCH]
  {
  }

  lemma Strangers(workers: set<WorkerId>)
    requires workers == {"f", "r", "u"}
    ensures "g" !in workers && "s" !in workers && "v" !in workers + {"g", "s"} && "g" != "s"
  {
    assert "g"[0] != "f"[0] && "g"[0] != "r"[0] && "g"[0] != "u"[0] && "g"[0] != "s"[0];
    assert "s"[0] != "f"[0] && "s"[0] != "r"[0] && "s"[0] != "u"[0];
    assert "v"[0] != "f"[0] && "v"[0] != "r"[0] && "v"[0] != "u"[0] && "v"[0] != "g"[0] && "v"[0] != "s"[0];
  }

  lemma OtherMessage(db: Db)
    requires db.Keys == {0} && db[0].message == Some("m")
    ensures !HasJobFor(db, USER, "n")
  {
    assert "n"[0] != "m"[0];
  }

  lemma SecondPrepared(before: seq<P.Event>, s: P.State, first: seq<string>, names: seq<string>)
    returns (events: seq<P.Event>, t: P.State)
    requires Reached(START, before, s) && OneJob(s, first, {"f", "r", "u"}) && NoToken(s.lists) && USER in s.drives
    requires "email.pdf" !in names
    ensures Reached(START, events, t) && AtStage(t, 1, Upload) && 1 in t.files.pdf && "v" !in t.workers
    ensures t.drives == s.drives && t.cache == s.cache
    ensures t.files.meta == map[0 := P.Meta(first, []), 1 := P.Meta(names, [])]
  {
    Strangers(s.workers.Keys);
    OtherMessage(s.db);
    events, t := IsPrepared(before, s, 1, "n", "g", "s", names);
  }

  /** The job is done, and its mail is not in the folder that its meta file names. */
  ghost predicate Lost(t: P.State, id: JobId) {
    id in t.db && Delivered.MailDone(t.db[id]) && !Delivered.Uploaded(t, id)
  }

  /** Two jobs of one user whose chains have beginnings with one cache path. The first upload stops after that beginning;
      the second one is led into its folder, succeeds, and its own folder does not exist. */
  lemma Misdelivers(first: seq<string>, n: nat, names: seq<string>, k: nat) returns (events: seq<P.Event>)
    requires 0 < n <= |first| && k < |names| && "email.pdf" !in first && "email.pdf" !in names
    requires PathOf(first[..n]) == PathOf(names[..k + 1]) && !(names[..k + 1] <= first[..n])
    ensures P.Init(START) && P.Run(NO_TIMING, START, events) && Lost(P.Exec(START, events), 1)
    ensures P.Exec(START, events).files.meta == map[0 := P.Meta(first, []), 1 := P.Meta(names, [])]
  {
    StartIsBare();
    var s, t;
    events, s := FirstStops(first, n);
    events, s := SecondPrepared(events, s, first, names);
    events, t := UploadEnds(events, s, 1, "v", names, Misled.Reading(k));
    Misled.SecondIsLost(USER, first, n, names, k, PDF);
  }

  // ----- Slashes in a sender's address -----

  /** Emails of one subject and minute from the addresses a/b@x and a//b@x: the second one is lost in a run in which the
      first one has only been walked to its folder. */
  lemma TwoSenders() returns (events: seq<P.Event>)
    ensures P.Init(START) && P.Run(NO_TIMING, START, events) && Lost(P.Exec(START, events), 1)
    ensures P.Exec(START, events).files.meta == map[0 := P.Meta(Misled.First(), []), 1 := P.Meta(Misled.Second(), [])]
  {
    Misled.SendersCollide();
    events := Misdelivers(Misled.First(), 4, Misled.Second(), 3);
  }

  // ----- The exact condition -----

  /** What meta files name is in the set, and no job is lost. */
  ghost predicate Delivers(chains: iset<seq<string>>, h: P.Hypotheses, s: P.State, events: seq<P.Event>) {
    P.Init(s) && P.Run(h, s, events) && Named(chains, P.Exec(s, events)) ==> forall id :: !Lost(P.Exec(s, events), id)
  }

  ghost predicate Named(chains: iset<seq<string>>, t: P.State) {
    forall id :: id in t.files.meta ==> t.files.meta[id].chain in chains
  }

  /** In every run over these chains, however the uploads interleave, done means delivered. */
  ghost predicate AlwaysDelivers(chains: iset<seq<string>>) {
    forall h, s, events :: Delivers(chains, h, s, events)
  }

  predicate IsBeginning(names: seq<string>, chain: seq<string>) {
    names <= chain
  }

  ghost function Beginnings(chains: iset<seq<string>>): C.Routes {
    iset r: (UserId, seq<string>) | exists chain :: chain in chains && IsBeginning(r.1, chain)
  }

  lemma DifferDelivers(chains: iset<seq<string>>, h: P.Hypotheses, s: P.State, events: seq<P.Event>)
    requires C.PathsDiffer(Beginnings(chains))
    ensures Delivers(chains, h, s, events)
  {
    if P.Init(s) && P.Run(h, s, events) && Named(chains, P.Exec(s, events)) {
      var t := P.Exec(s, events);
      RoutesNamed(chains, t);
      Delivered.DoneMeansDelivered(h, s, events);
    }
  }

  lemma RoutesNamed(chains: iset<seq<string>>, t: P.State)
    requires Named(chains, t) && C.PathsDiffer(Beginnings(chains))
    ensures C.PathsDiffer(Delivered.RoutesOf(t))
  {
    forall r | r in Delivered.RoutesOf(t) ensures r in Beginnings(chains) {
      var id :| Delivered.LeadsOver(t, id, r.0, r.1);
      assert t.files.meta[id].chain in chains && IsBeginning(r.1, t.files.meta[id].chain);
    }
  }

  lemma CollisionLoses(chains: iset<seq<string>>, a: seq<string>, b: seq<string>, first: seq<string>, names: seq<string>)
    requires first in chains && names in chains && a <= first && b <= names && a != [] && b != [] && !(b <= a)
    requires PathOf(a) == PathOf(b) && "email.pdf" !in first && "email.pdf" !in names
    ensures !AlwaysDelivers(chains)
  {
    assert first[..|a|] == a && names[..|b| - 1 + 1] == b;
    var events := Misdelivers(first, |a|, names, |b| - 1);
    OneLost(chains, events, first, names);
  }

  lemma OneLost(chains: iset<seq<string>>, events: seq<P.Event>, first: seq<string>, names: seq<string>)
    requires first in chains && names in chains && P.Init(START) && P.Run(NO_TIMING, START, events)
    requires Lost(P.Exec(START, events), 1)
    requires P.Exec(START, events).files.meta == map[0 := P.Meta(first, []), 1 := P.Meta(names, [])]
    ensures !AlwaysDelivers(chains)
  {
    assert Named(chains, P.Exec(START, events));
    assert !Delivers(chains, NO_TIMING, START, events);
  }

  /** Exactly when done means delivered: for any set of chains, every run whose meta files name chains of the set delivers
      all done jobs, if and only if no two beginnings of these chains have the same cache path. */
  lemma DeliversExactly(chains: iset<seq<string>>)
    requires forall chain :: chain in chains ==> "email.pdf" !in chain
    ensures AlwaysDelivers(chains) <==> C.PathsDiffer(Beginnings(chains))
  {
    if C.PathsDiffer(Beginnings(chains)) {
      forall h, s, events ensures Delivers(chains, h, s, events) {
        DifferDelivers(chains, h, s, events);
      }
    }
    if AlwaysDelivers(chains) {
      forall u: UserId, a, b | (u, a) in Beginnings(chains) && (u, b) in Beginnings(chains) && a != [] && b != []
                               && PathOf(a) == PathOf(b)
        ensures a == b
      {
        var x :| x in chains && IsBeginning(a, x);
        var y :| y in chains && IsBeginning(b, y);
        if a != b {
          if !(b <= a) {
            CollisionLoses(chains, a, b, x, y);
          } else {
            CollisionLoses(chains, b, a, y, x);
          }
          assert false;
        }
      }
    }
  }
}
