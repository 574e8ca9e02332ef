/** Done means delivered, and when: the uploads of all workers interleave over one folder cache and the users' Drives. */
module Delivered {
  import opened Types
  import opened Table
  import opened Protocol
  import opened Delivery
  import opened FolderPaths
  import C = CachedWalk
  import D = Drive

  // ----- What delivered means -----

  /** The folder that the job's meta file names. */
  function FolderOf(s: State, id: JobId): Option<D.Node> {
    if id in s.db && id in s.files.meta && s.db[id].user.Some? && s.db[id].user.value in s.drives
    then D.Resolve(s.drives[s.db[id].user.value], D.Root(s.db[id].user.value), s.files.meta[id].chain)
    else None
  }

  predicate Present(t: D.Tree, folder: D.Node, name: string) {
    (folder, name) in t.files || (folder, name) in t.folders
  }

  /** The first n files of a job are in the folder: email.pdf as a file, and each attachment unless a folder has taken
      its name. */
  ghost predicate Holds(t: D.Tree, folder: D.Node, meta: Meta, n: nat) {
    && (n > 0 ==> (folder, "email.pdf") in t.files)
    && forall i :: 0 <= i < n ==> Present(t, folder, FileName(meta, i))
  }

  /** email.pdf and all attachments lie in the Drive folder that the job's meta file names. */
  ghost predicate Uploaded(s: State, id: JobId) {
    && FolderOf(s, id).Some?
    && Holds(s.drives[s.db[id].user.value], FolderOf(s, id).value, s.files.meta[id], 1 + |s.files.meta[id].attachments|)
  }

  // ----- The chains in use -----

  /** The chain of user u is the beginning of the one that some job's meta file names. */
  predicate LeadsOver(s: State, id: JobId, u: UserId, names: seq<string>) {
    id in s.db && s.db[id].user == Some(u) && id in s.files.meta && names <= s.files.meta[id].chain
  }

  ghost function RoutesOf(s: State): C.Routes {
    iset r: (UserId, seq<string>) | exists id :: LeadsOver(s, id, r.0, r.1)
  }

  lemma RoutesClosed(s: State)
    ensures C.PrefixClosed(RoutesOf(s))
  {
    var routes := RoutesOf(s);
    forall u, names {:trigger (u, names) in routes} | (u, names) in routes && names != []
      ensures (u, names[..|names| - 1]) in routes
    {
      var id :| LeadsOver(s, id, u, names);
      assert LeadsOver(s, id, u, names[..|names| - 1]);
    }
  }

  lemma RoutesGrow(s: State, s': State)
    requires Grows(s.db, s'.db) && FilesGrow(s.files, s'.files)
    ensures RoutesOf(s) <= RoutesOf(s')
  {
    forall r | r in RoutesOf(s) ensures r in RoutesOf(s') {
      var id :| LeadsOver(s, id, r.0, r.1);
      assert LeadsOver(s', id, r.0, r.1);
    }
  }

  // ----- Where the uploads stand -----

  /** The place of an upload that has followed these names: the folder they lead to and their cache path. */
  predicate StandsAt(drives: map<UserId, D.Tree>, u: UserId, names: seq<string>, place: Place) {
    u in drives && place.path == PathOf(names) && D.Resolve(drives[u], D.Root(u), names) == Some(place.node)
  }

  /** The part of the chain that the first k steps of an upload follow. */
  function Front(chain: seq<string>, k: nat): seq<string> {
    if k < |chain| then chain[..k] else chain
  }

  /** After k steps the upload stands there, and its files so far are in the folder. */
  ghost predicate Reaches(drives: map<UserId, D.Tree>, u: UserId, meta: Meta, k: nat, place: Place) {
    && StandsAt(drives, u, Front(meta.chain, k), place)
    && (k > |meta.chain| ==> Holds(drives[u], place.node, meta, k - |meta.chain|))
  }

  ghost predicate PcPlaced(s: State, stage: Stage, pc: Pc) {
    match pc
    case Working(id, job, k, place) =>
      stage == Upload ==>
        if k == 0 then place == Home(job)
        else
          id in s.files.meta && job.user.Some? && Reaches(s.drives, job.user.value, s.files.meta[id], k, place)
    case Finishing(id) => stage == Upload ==> Uploaded(s, id)
    case _ => true
  }

  predicate MailDone(j: Job) {
    j.status == Done && !j.synthetic
  }

  /** The cache is right about the chains in use, every upload stands where its chain leads, and what is done is there. */
  ghost predicate Placed(routes: C.Routes, s: State) {
    && C.CacheOk(routes, s.cache, s.drives)
    && (forall id :: id in s.db && MailDone(s.db[id]) ==> Uploaded(s, id))
    && (forall w :: w in s.workers ==> PcPlaced(s, s.workers[w].stage, s.workers[w].pc))
  }

  // ----- Drives grow -----

  ghost predicate DrivesGrow(a: map<UserId, D.Tree>, b: map<UserId, D.Tree>) {
    forall u :: u in a ==> u in b && D.Extends(a[u], b[u])
  }

  lemma UploadStepGrows(s: State, pc: Pc, a: WorkerAction)
    requires Uploads(s, Upload, pc) && a.HandlerWrite?
    ensures D.Extends(s.drives[pc.job.user.value], UploadStep(s, pc, a).tree)
  {
  }

  lemma DrivesStep(s: State, e: Event)
    ensures DrivesGrow(s.drives, Apply(s, e).drives)
  {
    if IsUpload(s, e) {
      UploadStepGrows(s, s.workers[e.worker].pc, e.action);
    }
  }

  lemma HoldsStays(t: D.Tree, t': D.Tree, folder: D.Node, meta: Meta, n: nat)
    requires D.Extends(t, t') && Holds(t, folder, meta, n)
    ensures Holds(t', folder, meta, n)
  {
    forall i | 0 <= i < n ensures Present(t', folder, FileName(meta, i)) {
      assert Present(t, folder, FileName(meta, i));
    }
  }

  /** What only grows from one state to the next. */
  ghost predicate Onward(s: State, s': State) {
    Grows(s.db, s'.db) && FilesGrow(s.files, s'.files) && DrivesGrow(s.drives, s'.drives)
  }

  lemma StepOnward(s: State, e: Event)
    requires Enabled(s, e)
    ensures Onward(s, Apply(s, e))
  {
    StepGrows(s, e);
    DrivesStep(s, e);
  }

  lemma UploadedStays(s: State, s': State, id: JobId)
    requires Onward(s, s') && Uploaded(s, id)
    ensures Uploaded(s', id)
  {
    var u := s.db[id].user.value;
    D.ResolveSurvives(s.drives[u], s'.drives[u], D.Root(u), s.files.meta[id].chain);
    HoldsStays(s.drives[u], s'.drives[u], FolderOf(s, id).value, s.files.meta[id], 1 + |s.files.meta[id].attachments|);
  }

  lemma PcPlacedStays(s: State, s': State, stage: Stage, pc: Pc)
    requires Onward(s, s') && PcPlaced(s, stage, pc)
    ensures PcPlaced(s', stage, pc)
  {
    if stage == Upload && pc.Finishing? {
      UploadedStays(s, s', pc.id);
    } else if stage == Upload && pc.Working? && pc.writes > 0 {
      var u, meta := pc.job.user.value, s.files.meta[pc.id];
      D.ResolveSurvives(s.drives[u], s'.drives[u], D.Root(u), Front(meta.chain, pc.writes));
      if pc.writes > |meta.chain| {
        HoldsStays(s.drives[u], s'.drives[u], pc.place.node, meta, pc.writes - |meta.chain|);
      }
    }
  }

  // ----- One step of an upload -----

  /** Before any step an upload stands where the steps so far have led. */
  lemma Standing(s: State, pc: Pc)
    requires PcPlaced(s, Upload, pc) && Uploads(s, Upload, pc)
    ensures StandsAt(s.drives, pc.job.user.value, Front(s.files.meta[pc.id].chain, pc.writes), pc.place)
  {
  }

  /** One folder further on foot. */
  lemma OneNameFurther(drives: map<UserId, D.Tree>, u: UserId, chain: seq<string>, k: nat, parent: D.Node, path: string)
    requires k < |chain| && StandsAt(drives, u, chain[..k], Place(parent, path))
    ensures var (t, node) := D.EnsureFolder(drives[u], parent, chain[k]);
            StandsAt(drives[u := t], u, chain[..k + 1], Place(node, Extended(path, chain[k])))
  {
    var (t, node) := D.EnsureFolder(drives[u], parent, chain[k]);
    assert chain[..k + 1][..k] == chain[..k];
    D.ResolveSurvives(drives[u], t, D.Root(u), chain[..k]);
  }

  /** One folder further: the cache does not mislead. */
  lemma OneFolder(routes: C.Routes, drives: map<UserId, D.Tree>, walk: C.Walk, u: UserId, chain: seq<string>, k: nat,
                  sky: C.Weather)
    requires C.Faithful(routes) && C.CacheOk(routes, walk.cache, drives) && (u, chain) in routes && k < |chain|
    requires u in drives && walk.tree == drives[u] && StandsAt(drives, u, chain[..k], Place(walk.parent, walk.path))
    ensures var w := C.Step(walk, u, chain[k], sky);
            && (w.tree, w.parent) == D.EnsureFolder(walk.tree, walk.parent, chain[k])
            && C.CacheOk(routes, w.cache, drives[u := w.tree])
            && StandsAt(drives[u := w.tree], u, chain[..k + 1], Place(w.parent, w.path))
  {
    C.NextIn(routes, u, chain, k);
    C.StepAgrees(routes, drives, walk, u, chain[..k], chain[k], sky);
    OneNameFurther(drives, u, chain, k, walk.parent, walk.path);
  }

  /** The next folder: the upload comes to stand one folder further, exactly as it would without the cache. */
  lemma FolderStep(routes: C.Routes, s: State, pc: Pc, a: WorkerAction)
    requires C.Faithful(routes) && C.CacheOk(routes, s.cache, s.drives)
    requires Uploads(s, Upload, pc) && PcPlaced(s, Upload, pc) && a.HandlerWrite?
    requires (pc.job.user.value, s.files.meta[pc.id].chain) in routes && pc.writes < |s.files.meta[pc.id].chain|
    ensures var u, chain, w := pc.job.user.value, s.files.meta[pc.id].chain, UploadStep(s, pc, a);
            var drives := s.drives[u := w.tree];
            && (w.tree, w.parent) == D.EnsureFolder(s.drives[u], pc.place.node, chain[pc.writes])
            && C.CacheOk(routes, w.cache, drives)
            && StandsAt(drives, u, Front(chain, pc.writes + 1), Place(w.parent, w.path))
  {
    var u, chain, k := pc.job.user.value, s.files.meta[pc.id].chain, pc.writes;
    Standing(s, pc);
    OneFolder(routes, s.drives, C.Walk(s.drives[u], s.cache, pc.place.node, pc.place.path), u, chain, k, a.sky);
    assert Front(chain, k + 1) == chain[..k + 1];
  }

  /** The next file. */
  lemma FileStep(s: State, pc: Pc, a: WorkerAction)
    requires Uploads(s, Upload, pc) && PcPlaced(s, Upload, pc) && a.HandlerWrite? && NoPdfFolder(s.drives[pc.job.user.value])
    requires |s.files.meta[pc.id].chain| <= pc.writes < UploadSteps(s.files.meta[pc.id])
    ensures var u, meta, w := pc.job.user.value, s.files.meta[pc.id], UploadStep(s, pc, a);
            && w.cache == s.cache && D.Extends(s.drives[u], w.tree)
            && StandsAt(s.drives[u := w.tree], u, meta.chain, Place(w.parent, w.path))
            && Holds(w.tree, w.parent, meta, pc.writes + 1 - |meta.chain|)
  {
    var u, meta, w := pc.job.user.value, s.files.meta[pc.id], UploadStep(s, pc, a);
    var n := pc.writes - |meta.chain|;
    Standing(s, pc);
    D.ResolveSurvives(s.drives[u], w.tree, D.Root(u), meta.chain);
    if n > 0 {
      HoldsStays(s.drives[u], w.tree, pc.place.node, meta, n);
    }
    forall i | 0 <= i < n + 1 ensures Present(w.tree, w.parent, FileName(meta, i)) {
    }
  }

  lemma ChainInUse(s: State, w: WorkerId)
    requires Certified(s) && w in s.workers && Uploads(s, s.workers[w].stage, s.workers[w].pc)
    ensures var pc := s.workers[w].pc; (pc.job.user.value, s.files.meta[pc.id].chain) in RoutesOf(s)
  {
    var pc := s.workers[w].pc;
    assert PcFits(s.db, s.workers[w].stage, pc);
    assert LeadsOver(s, pc.id, pc.job.user.value, s.files.meta[pc.id].chain);
  }

  /** An upload step leaves the cache right, and the upload where its chain leads. */
  lemma WriteStep(routes: C.Routes, s: State, w: WorkerId, a: WorkerAction)
    requires Certified(s) && Placed(routes, s) && C.Faithful(routes) && RoutesOf(s) <= routes
    requires WorkerEnabled(s, w, a) && a.HandlerWrite? && s.workers[w].stage == Upload
    ensures var pc := s.workers[w].pc;
            var (u, walk) := (pc.job.user.value, UploadStep(s, pc, a));
            && C.CacheOk(routes, walk.cache, s.drives[u := walk.tree])
            && Reaches(s.drives[u := walk.tree], u, s.files.meta[pc.id], pc.writes + 1, Place(walk.parent, walk.path))
  {
    var pc := s.workers[w].pc;
    var u := pc.job.user.value;
    assert PcPlaced(s, Upload, pc);
    ChainInUse(s, w);
    if pc.writes < |s.files.meta[pc.id].chain| {
      FolderStep(routes, s, pc, a);
    } else {
      FileStep(s, pc, a);
      C.CacheOkGrows(routes, s.cache, s.drives, u, UploadStep(s, pc, a).tree);
    }
  }

  // ----- Every step -----

  lemma CacheStep(routes: C.Routes, s: State, e: Event)
    requires Certified(s) && Placed(routes, s) && C.Faithful(routes) && RoutesOf(s) <= routes && Enabled(s, e)
    ensures C.CacheOk(routes, Apply(s, e).cache, Apply(s, e).drives)
  {
    if IsUpload(s, e) {
      WriteStep(routes, s, e.worker, e.action);
    }
  }

  lemma ReturnPlaced(s: State, w: WorkerId, a: WorkerAction)
    requires Certified(s) && WorkerEnabled(s, w, a) && a.HandlerReturn? && PcPlaced(s, s.workers[w].stage, s.workers[w].pc)
    ensures PcPlaced(s, s.workers[w].stage, PcAfter(s, w, a))
  {
    var Worker(stage, pc) := s.workers[w];
    assert PcFits(s.db, stage, pc);
  }

  lemma ReturnStep(s: State, w: WorkerId, a: WorkerAction)
    requires Certified(s) && WorkerEnabled(s, w, a) && a.HandlerReturn? && PcPlaced(s, s.workers[w].stage, s.workers[w].pc)
    ensures PcPlaced(Apply(s, OnWorker(w, a)), s.workers[w].stage, PcAfter(s, w, a))
  {
    ReturnPlaced(s, w, a);
    StepOnward(s, OnWorker(w, a));
    PcPlacedStays(s, Apply(s, OnWorker(w, a)), s.workers[w].stage, PcAfter(s, w, a));
  }

  /** A step of the worker that leaves its Drive alone and does not end its handler. */
  lemma OtherStep(s: State, w: WorkerId, a: WorkerAction)
    requires WorkerEnabled(s, w, a) && !a.HandlerReturn? && !a.HandlerWrite?
    requires PcPlaced(s, s.workers[w].stage, s.workers[w].pc)
    ensures PcPlaced(Apply(s, OnWorker(w, a)), s.workers[w].stage, PcAfter(s, w, a))
  {
    StepOnward(s, OnWorker(w, a));
    PcPlacedStays(s, Apply(s, OnWorker(w, a)), s.workers[w].stage, s.workers[w].pc);
  }

  lemma PcStep(routes: C.Routes, s: State, w: WorkerId, a: WorkerAction)
    requires Certified(s) && Placed(routes, s) && C.Faithful(routes) && RoutesOf(s) <= routes && WorkerEnabled(s, w, a)
    ensures PcPlaced(Apply(s, OnWorker(w, a)), s.workers[w].stage, PcAfter(s, w, a))
  {
    var Worker(stage, pc) := s.workers[w];
    assert PcPlaced(s, stage, pc);
    if a.HandlerWrite? && stage == Upload {
      WriteStep(routes, s, w, a);
    } else if a.HandlerReturn? {
      ReturnStep(s, w, a);
    } else if !a.HandlerWrite? {
      OtherStep(s, w, a);
    }
  }

  lemma PcsStep(routes: C.Routes, s: State, e: Event)
    requires Certified(s) && Placed(routes, s) && C.Faithful(routes) && RoutesOf(s) <= routes && Enabled(s, e)
    ensures var s' := Apply(s, e); forall w :: w in s'.workers ==> PcPlaced(s', s'.workers[w].stage, s'.workers[w].pc)
  {
    var s' := Apply(s, e);
    StepOnward(s, e);
    forall w | w in s'.workers ensures PcPlaced(s', s'.workers[w].stage, s'.workers[w].pc) {
      if e.OnWorker? && e.worker == w {
        PcStep(routes, s, w, e.action);
      } else if w in s.workers {
        PcPlacedStays(s, s', s.workers[w].stage, s.workers[w].pc);
      }
    }
  }

  /** A row becomes done by the settle of a worker whose upload is in place, or is a demo job's. */
  lemma FinishPlaced(s: State, w: WorkerId)
    requires Certified(s) && w in s.workers && s.workers[w].pc.Finishing? && PcPlaced(s, s.workers[w].stage, s.workers[w].pc)
    ensures var id := s.workers[w].pc.id; id in s.db && (s.db[id].synthetic || Uploaded(s, id))
  {
    var Worker(stage, pc) := s.workers[w];
    assert PcFits(s.db, stage, pc) && PcCertified(s.files, stage, pc);
  }

  /** A mail row is done after a statement only if it was done, or if the statement completes it. */
  lemma DoneBy(db: Db, t: Statement, net: Reply, id: JobId)
    requires id in db && (t.EnqueueRow? ==> t.id !in db)
    requires id in Sent(db, Execute(db, t), net).db && MailDone(Sent(db, Execute(db, t), net).db[id])
    ensures !db[id].synthetic && (MailDone(db[id]) || t == FinishRow(id))
  {
    StatementGrows(db, t, net);
    if t != FinishRow(id) && !(t.AdvanceRow? && t.id == id) {
      OtherStatements(db, t, net, id);
    }
  }

  lemma DoneNow(routes: C.Routes, s: State, e: Event, id: JobId)
    requires Certified(s) && Placed(routes, s) && Enabled(s, e) && id in s.db
    requires id in Result(s, e).db && MailDone(Result(s, e).db[id])
    ensures Uploaded(s, id)
  {
    DoneBy(s.db, StatementOf(s, e), ReplyOf(e), id);
    if !MailDone(s.db[id]) {
      FinishPlaced(s, e.worker);
    }
  }

  /** A row that was not there is queued. */
  lemma NewIsQueued(db: Db, t: Statement, net: Reply, id: JobId)
    requires id !in db && id in Sent(db, Execute(db, t), net).db
    ensures Sent(db, Execute(db, t), net).db[id].status == Queued
  {
  }

  lemma UploadedStep(s: State, e: Event, id: JobId)
    requires Enabled(s, e) && Uploaded(s, id)
    ensures Uploaded(Apply(s, e), id)
  {
    StepOnward(s, e);
    UploadedStays(s, Apply(s, e), id);
  }

  lemma RowsStep(routes: C.Routes, s: State, e: Event, id: JobId)
    requires Certified(s) && Placed(routes, s) && Enabled(s, e) && id in Result(s, e).db && MailDone(Result(s, e).db[id])
    ensures Uploaded(Apply(s, e), id)
  {
    if id in s.db {
      DoneNow(routes, s, e, id);
      UploadedStep(s, e, id);
    } else {
      NewIsQueued(s.db, StatementOf(s, e), ReplyOf(e), id);
    }
  }

  lemma PlacedStep(routes: C.Routes, s: State, e: Event)
    requires Certified(s) && Placed(routes, s) && C.Faithful(routes) && RoutesOf(s) <= routes && Enabled(s, e)
    ensures Placed(routes, Apply(s, e))
  {
    CacheStep(routes, s, e);
    PcsStep(routes, s, e);
    forall id | id in Apply(s, e).db && MailDone(Apply(s, e).db[id]) ensures Uploaded(Apply(s, e), id) {
      RowsStep(routes, s, e, id);
    }
  }

  // ----- Runs -----

  lemma {:induction false} RunOnward(h: Hypotheses, s: State, events: seq<Event>)
    requires Run(h, s, events)
    ensures Grows(s.db, Exec(s, events).db) && FilesGrow(s.files, Exec(s, events).files)
    decreases |events|
  {
    if events != [] {
      StepGrows(s, events[0]);
      RunOnward(h, Apply(s, events[0]), events[1..]);
    }
  }

  lemma {:induction false} PlacedInRun(routes: C.Routes, h: Hypotheses, s: State, events: seq<Event>)
    requires Certified(s) && Placed(routes, s) && Run(h, s, events)
    requires C.Faithful(routes) && RoutesOf(Exec(s, events)) <= routes
    ensures Placed(routes, Exec(s, events))
    decreases |events|
  {
    if events != [] {
      RunOnward(h, s, events);
      RoutesGrow(s, Exec(s, events));
      CertifiedStep(s, events[0]);
      PlacedStep(routes, s, events[0]);
      PlacedInRun(routes, h, Apply(s, events[0]), events[1..]);
    }
  }

  lemma InitPlaced(routes: C.Routes, s: State)
    requires Init(s)
    ensures Certified(s) && Placed(routes, s)
  {
  }

  /** In every run: a done mail job has its mime, pdf and meta files written; a token in queue:test is always a demo job's,
      any other never is. If moreover no two chains of one user that meta files name, nor two beginnings of them, share a
      cache path, then email.pdf and every attachment of a done mail job are in the Drive folder that its meta file names,
      however the uploads of all workers interleave and whatever the cache does. */
  lemma DoneMeansDelivered(h: Hypotheses, s: State, events: seq<Event>)
    requires Init(s) && Run(h, s, events)
    ensures var t := Exec(s, events);
            && (forall id :: id in t.db && MailDone(t.db[id]) ==>
                  id in t.files.mime && id in t.files.pdf && id in t.files.meta
                  && (C.PathsDiffer(RoutesOf(t)) ==> Uploaded(t, id)))
            && ListsFit(t.db, t.lists)
  {
    var t := Exec(s, events);
    InitPlaced(RoutesOf(t), s);
    CertifiedInRun(h, s, events);
    if C.PathsDiffer(RoutesOf(t)) {
      RoutesClosed(t);
      PlacedInRun(RoutesOf(t), h, s, events);
    }
    forall id | id in t.db && MailDone(t.db[id])
      ensures id in t.files.mime && id in t.files.pdf && id in t.files.meta
    {
      assert RowCertified(t.files, t.db[id]);
    }
  }

  /** Names that path.Join leaves alone are safe: with no empty name, "." or "..", and no slash, everything is delivered. */
  lemma PlainNamesDeliver(h: Hypotheses, s: State, events: seq<Event>, id: JobId)
    requires Init(s) && Run(h, s, events) && id in Exec(s, events).db && MailDone(Exec(s, events).db[id])
    requires forall k :: k in Exec(s, events).files.meta ==> Plain(Exec(s, events).files.meta[k].chain)
    ensures Uploaded(Exec(s, events), id)
  {
    var t := Exec(s, events);
    forall r | r in RoutesOf(t) ensures r in C.PlainRoutes() {
      var k :| LeadsOver(t, k, r.0, r.1);
      assert forall i :: 0 <= i < |r.1| ==> r.1[i] == t.files.meta[k].chain[i];
    }
    C.PlainIsFaithful();
    DoneMeansDelivered(h, s, events);
  }

  // ----- The cache is invisible -----

  /** The same step with every read of the cache failing: the upload handler without a cache. */
  function Blindfolded(e: Event): Event {
    if e.OnWorker? && e.action.HandlerWrite? then e.(action := e.action.(sky := e.action.sky.(getFails := true))) else e
  }

  function Blind(events: seq<Event>): seq<Event> {
    if events == [] then [] else [Blindfolded(events[0])] + Blind(events[1..])
  }

  predicate SameButCache(s: State, t: State) {
    t == s.(cache := t.cache)
  }

  lemma BlindUpload(routes: C.Routes, s: State, t: State, w: WorkerId, a: WorkerAction)
    requires Certified(s) && Placed(routes, s) && C.Faithful(routes) && RoutesOf(s) <= routes && SameButCache(s, t)
    requires WorkerEnabled(s, w, a) && a.HandlerWrite? && s.workers[w].stage == Upload
    ensures var pc := s.workers[w].pc;
            var (x, y) := (UploadStep(s, pc, a), UploadStep(t, pc, a.(sky := a.sky.(getFails := true))));
            x.tree == y.tree && x.parent == y.parent && x.path == y.path
  {
    var pc := s.workers[w].pc;
    assert PcPlaced(s, Upload, pc);
    ChainInUse(s, w);
    if pc.writes < |s.files.meta[pc.id].chain| {
      FolderStep(routes, s, pc, a);
    }
  }

  /** What the step asks of Postgres and Redis, and what they answer. */
  lemma BlindCalls(s: State, t: State, e: Event)
    requires SameButCache(s, t)
    ensures var b := Blindfolded(e);
            && ReplyOf(b) == ReplyOf(e) && StatementOf(t, b) == StatementOf(s, e) && CommandOf(t, b) == CommandOf(s, e)
            && Result(t, b) == Result(s, e) && ListsAfter(t, b) == ListsAfter(s, e) && BeatsAfter(t, b) == BeatsAfter(s, e)
  {
  }

  lemma BlindEnabled(s: State, t: State, e: Event)
    requires SameButCache(s, t) && Enabled(s, e)
    ensures Enabled(t, Blindfolded(e))
  {
  }

  lemma BlindSweeper(s: State, t: State, e: Event)
    requires SameButCache(s, t)
    ensures e.OnSweeper? ==> PassAfter(t, e.sweep) == PassAfter(s, e.sweep)
    ensures ProducersAfter(t, Blindfolded(e)) == ProducersAfter(s, e)
  {
    BlindCalls(s, t, e);
  }

  /** All but an upload takes no notice of the cache. */
  lemma BlindPc(routes: C.Routes, s: State, t: State, w: WorkerId, a: WorkerAction)
    requires Certified(s) && Placed(routes, s) && C.Faithful(routes) && RoutesOf(s) <= routes && SameButCache(s, t)
    requires WorkerEnabled(s, w, a)
    ensures PcAfter(t, w, Blindfolded(OnWorker(w, a)).action) == PcAfter(s, w, a)
  {
    BlindCalls(s, t, OnWorker(w, a));
    if a.HandlerWrite? && s.workers[w].stage == Upload {
      BlindUpload(routes, s, t, w, a);
    }
  }

  lemma BlindWorkers(routes: C.Routes, s: State, t: State, e: Event)
    requires Certified(s) && Placed(routes, s) && C.Faithful(routes) && RoutesOf(s) <= routes && SameButCache(s, t)
    requires Enabled(s, e)
    ensures WorkersAfter(t, Blindfolded(e)) == WorkersAfter(s, e)
  {
    if e.OnWorker? {
      BlindPc(routes, s, t, e.worker, e.action);
    }
  }

  lemma BlindFiles(routes: C.Routes, s: State, t: State, e: Event)
    requires Certified(s) && Placed(routes, s) && C.Faithful(routes) && RoutesOf(s) <= routes && SameButCache(s, t)
    requires Enabled(s, e)
    ensures FilesAfter(t, Blindfolded(e)) == FilesAfter(s, e) && DrivesAfter(t, Blindfolded(e)) == DrivesAfter(s, e)
  {
    if IsUpload(s, e) {
      BlindUpload(routes, s, t, e.worker, e.action);
    }
  }

  lemma BlindLog(s: State, t: State, e: Event)
    requires SameButCache(s, t)
    ensures LogAfter(t, Blindfolded(e)) == LogAfter(s, e)
  {
    BlindCalls(s, t, e);
    BlindInvoked(s, t, e);
  }

  lemma BlindInvoked(s: State, t: State, e: Event)
    requires SameButCache(s, t)
    ensures Invoked(t, Blindfolded(e)) == Invoked(s, e)
  {
    if e.OnWorker? && e.action.ReadRow? {
      assert Blindfolded(e) == e;
    }
  }

  lemma BlindStep(routes: C.Routes, s: State, t: State, e: Event)
    requires Certified(s) && Placed(routes, s) && C.Faithful(routes) && RoutesOf(s) <= routes && SameButCache(s, t)
    requires Enabled(s, e)
    ensures Enabled(t, Blindfolded(e)) && SameButCache(Apply(s, e), Apply(t, Blindfolded(e)))
  {
    BlindEnabled(s, t, e);
    BlindCalls(s, t, e);
    BlindSweeper(s, t, e);
    BlindWorkers(routes, s, t, e);
    BlindFiles(routes, s, t, e);
    BlindLog(s, t, e);
  }

  lemma BlindPermits(h: Hypotheses, s: State, t: State, e: Event)
    requires SameButCache(s, t) && SameButCache(Apply(s, e), Apply(t, Blindfolded(e))) && Permits(h, s, e)
    ensures Permits(h, t, Blindfolded(e))
  {
  }

  lemma {:induction false} BlindRun(routes: C.Routes, h: Hypotheses, s: State, t: State, events: seq<Event>)
    requires Certified(s) && Placed(routes, s) && Run(h, s, events) && SameButCache(s, t)
    requires C.Faithful(routes) && RoutesOf(Exec(s, events)) <= routes
    ensures Run(h, t, Blind(events)) && SameButCache(Exec(s, events), Exec(t, Blind(events)))
    decreases |events|
  {
    if events != [] {
      RunOnward(h, s, events);
      RoutesGrow(s, Exec(s, events));
      CertifiedStep(s, events[0]);
      PlacedStep(routes, s, events[0]);
      BlindStep(routes, s, t, events[0]);
      BlindPermits(h, s, t, events[0]);
      BlindRun(routes, h, Apply(s, events[0]), Apply(t, Blindfolded(events[0])), events[1..]);
      assert Blind(events)[1..] == Blind(events[1..]);
    }
  }

  /** In every run whose chains have different cache paths, the uploads of all workers interleaving over one cache that may
      lose entries and fail at any time: the same run without the cache ends in the same state, Drives and all. */
  lemma CacheIsInvisible(h: Hypotheses, s: State, events: seq<Event>)
    requires Init(s) && Run(h, s, events) && C.PathsDiffer(RoutesOf(Exec(s, events)))
    ensures Run(h, s, Blind(events)) && SameButCache(Exec(s, events), Exec(s, Blind(events)))
  {
    InitPlaced(RoutesOf(Exec(s, events)), s);
    RoutesClosed(Exec(s, events));
    BlindRun(RoutesOf(Exec(s, events)), h, s, s, events);
  }
}
