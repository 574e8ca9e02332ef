/** The mail handlers of internal/handler as protocol steps: what Process leaves, cut off anywhere, is what its writes leave. */
module HandlerSteps {
  import opened Types
  import opened Processing
  import opened Refinement
  import C = CachedWalk
  import D = Drive
  import P = Protocol
  import H = Handlers
  import M = Mime

  /** A write of an upload names no meta file. */
  const NO_META := P.Meta([], [])

  function UploadWrite(folders: nat, wanted: seq<D.Wanted>, sky: nat -> C.Weather, i: nat): P.WorkerAction {
    P.HandlerWrite(NO_META, if folders <= i < folders + |wanted| then wanted[i - folders].content else "", sky(i))
  }

  /** The first n steps of an upload through `folders` folders. */
  function UploadWrites(folders: nat, wanted: seq<D.Wanted>, sky: nat -> C.Weather, n: nat): seq<P.WorkerAction> {
    if n == 0 then [] else UploadWrites(folders, wanted, sky, n - 1) + [UploadWrite(folders, wanted, sky, n - 1)]
  }

  lemma {:induction false} WroteSnoc(s: P.State, w: WorkerId, writes: seq<P.WorkerAction>, a: P.WorkerAction)
    requires CanWriteAll(s, w, writes) && a.HandlerWrite? && P.WorkerEnabled(Wrote(s, w, writes), w, a)
    ensures CanWriteAll(s, w, writes + [a]) && Wrote(s, w, writes + [a]) == P.Apply(Wrote(s, w, writes), P.OnWorker(w, a))
    decreases |writes|
  {
    var more := writes + [a];
    if writes == [] {
      assert more[0] == a && more[1..] == [];
      assert CanWriteAll(P.Apply(s, P.OnWorker(w, a)), w, []);
    } else {
      assert more[0] == writes[0] && more[1..] == writes[1..] + [a];
      WroteSnoc(P.Apply(s, P.OnWorker(w, writes[0])), w, writes[1..], a);
    }
  }

  // ----- Upload -----

  /** The worker has begun to upload a job along `names`. */
  predicate Begins(s: P.State, w: WorkerId, names: seq<string>, wanted: seq<D.Wanted>) {
    && w in s.workers && s.workers[w].stage == Upload && P.Uploads(s, Upload, s.workers[w].pc)
    && var pc := s.workers[w].pc;
    && pc.writes == 0 && pc.place == P.Home(pc.job) && pc.id in s.files.pdf
    && s.files.meta[pc.id].chain == names && |wanted| <= 1 + |s.files.meta[pc.id].attachments|
    && forall i :: 0 <= i < |wanted| ==> wanted[i].name == P.FileName(s.files.meta[pc.id], i)
  }

  /** The walk after n steps, with the files uploaded so far. */
  function Sofar(t: D.Tree, c: C.Cache, u: UserId, names: seq<string>, wanted: seq<D.Wanted>, sky: nat -> C.Weather, n: nat)
    : C.Walk
    requires n <= |names| + |wanted|
  {
    if n <= |names| then C.Walked(t, c, u, names, sky, n)
    else
      var w := C.Walked(t, c, u, names, sky, |names|);
      w.(tree := D.UploadAll(w.tree, w.parent, wanted[..n - |names|]))
  }

  lemma SofarIsUploading(t: D.Tree, c: C.Cache, u: UserId, names: seq<string>, wanted: seq<D.Wanted>, sky: nat -> C.Weather,
                         n: nat)
    requires n <= |names| + |wanted|
    ensures var w := Sofar(t, c, u, names, wanted, sky, n); C.Uploading(t, c, u, names, wanted, sky, n) == (w.tree, w.cache)
  {
  }

  lemma OneMore(t: D.Tree, c: C.Cache, u: UserId, meta: P.Meta, wanted: seq<D.Wanted>, sky: nat -> C.Weather, n: nat,
                content: string)
    requires n < |meta.chain| + |wanted| && (n >= |meta.chain| ==> content == wanted[n - |meta.chain|].content)
    requires forall i :: 0 <= i < |wanted| ==> wanted[i].name == P.FileName(meta, i)
    ensures P.StepAlong(Sofar(t, c, u, meta.chain, wanted, sky, n), u, meta, n, content, sky(n))
            == Sofar(t, c, u, meta.chain, wanted, sky, n + 1)
  {
    if n >= |meta.chain| {
      var w, k := C.Walked(t, c, u, meta.chain, sky, |meta.chain|), n - |meta.chain|;
      FilesSofar(t, c, u, meta.chain, wanted, sky, k);
      D.UploadOneMore(w.tree, w.parent, wanted, k);
      assert D.Wanted(P.FileName(meta, k), content) == wanted[k];
    }
  }

  lemma FilesSofar(t: D.Tree, c: C.Cache, u: UserId, names: seq<string>, wanted: seq<D.Wanted>, sky: nat -> C.Weather, k: nat)
    requires k <= |wanted|
    ensures var w := C.Walked(t, c, u, names, sky, |names|);
            Sofar(t, c, u, names, wanted, sky, |names| + k) == w.(tree := D.UploadAll(w.tree, w.parent, wanted[..k]))
  {
    assert wanted[..0] == [];
  }

  /** Where a state is after n steps of an upload that began in state s. */
  predicate Midway(s: P.State, t: P.State, w: WorkerId, walk: C.Walk, n: nat)
    requires w in s.workers && P.Uploads(s, Upload, s.workers[w].pc)
  {
    var pc := s.workers[w].pc;
    && t.files == s.files && t.drives == s.drives[pc.job.user.value := walk.tree] && t.cache == walk.cache
    && w in t.workers && t.workers[w] == P.Worker(Upload, pc.(writes := n, place := P.Place(walk.parent, walk.path)))
  }

  lemma MidwayOn(s: P.State, t: P.State, w: WorkerId, walk: C.Walk, n: nat, a: P.WorkerAction)
    requires w in s.workers && P.Uploads(s, Upload, s.workers[w].pc) && s.workers[w].pc.id in s.files.pdf
    requires Midway(s, t, w, walk, n) && a.HandlerWrite? && n < P.UploadSteps(s.files.meta[s.workers[w].pc.id])
    ensures var pc := s.workers[w].pc;
            var next := P.StepAlong(walk, pc.job.user.value, s.files.meta[pc.id], n, a.content, a.sky);
            P.WorkerEnabled(t, w, a) && Midway(s, P.Apply(t, P.OnWorker(w, a)), w, next, n + 1)
  {
    assert P.IsUpload(t, P.OnWorker(w, a));
  }

  lemma WroteOneMore(s: P.State, w: WorkerId, writes: seq<P.WorkerAction>, walk: C.Walk, n: nat, a: P.WorkerAction, next: C.Walk)
    requires w in s.workers && P.Uploads(s, Upload, s.workers[w].pc) && s.workers[w].pc.id in s.files.pdf
    requires CanWriteAll(s, w, writes) && Midway(s, Wrote(s, w, writes), w, walk, n)
    requires a.HandlerWrite? && n < P.UploadSteps(s.files.meta[s.workers[w].pc.id])
    requires var pc := s.workers[w].pc;
             next == P.StepAlong(walk, pc.job.user.value, s.files.meta[pc.id], n, a.content, a.sky)
    ensures CanWriteAll(s, w, writes + [a]) && Midway(s, Wrote(s, w, writes + [a]), w, next, n + 1)
  {
    MidwayOn(s, Wrote(s, w, writes), w, walk, n, a);
    WroteSnoc(s, w, writes, a);
  }

  lemma NextWalk(s: P.State, w: WorkerId, names: seq<string>, wanted: seq<D.Wanted>, sky: nat -> C.Weather, n: nat)
    requires Begins(s, w, names, wanted) && n < |names| + |wanted|
    ensures var pc, a := s.workers[w].pc, UploadWrite(|names|, wanted, sky, n);
            var u := pc.job.user.value;
            a.HandlerWrite? && n < P.UploadSteps(s.files.meta[pc.id])
            && Sofar(s.drives[u], s.cache, u, names, wanted, sky, n + 1)
               == P.StepAlong(Sofar(s.drives[u], s.cache, u, names, wanted, sky, n), u, s.files.meta[pc.id], n, a.content, a.sky)
  {
    var pc := s.workers[w].pc;
    OneMore(s.drives[pc.job.user.value], s.cache, pc.job.user.value, s.files.meta[pc.id], wanted, sky, n,
            UploadWrite(|names|, wanted, sky, n).content);
  }

  /** If these are the first n steps, they can be taken, and lead there. */
  ghost predicate Plays(s: P.State, w: WorkerId, names: seq<string>, wanted: seq<D.Wanted>, sky: nat -> C.Weather, n: nat,
                        writes: seq<P.WorkerAction>)
    requires Begins(s, w, names, wanted) && n <= |names| + |wanted|
  {
    writes == UploadWrites(|names|, wanted, sky, n) ==>
      var u := s.workers[w].pc.job.user.value;
      CanWriteAll(s, w, writes)
      && Midway(s, Wrote(s, w, writes), w, Sofar(s.drives[u], s.cache, u, names, wanted, sky, n), n)
  }

  ghost predicate Played(s: P.State, w: WorkerId, names: seq<string>, wanted: seq<D.Wanted>, sky: nat -> C.Weather, n: nat)
    requires Begins(s, w, names, wanted) && n <= |names| + |wanted|
  {
    forall writes :: Plays(s, w, names, wanted, sky, n, writes)
  }

  lemma Begun(s: P.State, w: WorkerId, names: seq<string>, wanted: seq<D.Wanted>, sky: nat -> C.Weather)
    requires Begins(s, w, names, wanted)
    ensures Played(s, w, names, wanted, sky, 0)
  {
    var u := s.workers[w].pc.job.user.value;
    assert s.drives[u := s.drives[u]] == s.drives;
  }

  lemma PlaysOn(s: P.State, w: WorkerId, names: seq<string>, wanted: seq<D.Wanted>, sky: nat -> C.Weather, n: nat,
                writes: seq<P.WorkerAction>)
    requires Begins(s, w, names, wanted) && n < |names| + |wanted| && writes == UploadWrites(|names|, wanted, sky, n)
    requires Plays(s, w, names, wanted, sky, n, writes)
    ensures Plays(s, w, names, wanted, sky, n + 1, writes + [UploadWrite(|names|, wanted, sky, n)])
  {
    var u := s.workers[w].pc.job.user.value;
    NextWalk(s, w, names, wanted, sky, n);
    WroteOneMore(s, w, writes, Sofar(s.drives[u], s.cache, u, names, wanted, sky, n), n,
                 UploadWrite(|names|, wanted, sky, n), Sofar(s.drives[u], s.cache, u, names, wanted, sky, n + 1));
  }

  lemma PlayedOn(s: P.State, w: WorkerId, names: seq<string>, wanted: seq<D.Wanted>, sky: nat -> C.Weather, n: nat)
    requires Begins(s, w, names, wanted) && n < |names| + |wanted| && Played(s, w, names, wanted, sky, n)
    ensures Played(s, w, names, wanted, sky, n + 1)
  {
    var before, more := UploadWrites(|names|, wanted, sky, n), UploadWrites(|names|, wanted, sky, n + 1);
    var next := n + 1;
    assert Plays(s, w, names, wanted, sky, n, before);
    PlaysOn(s, w, names, wanted, sky, n, before);
    forall writes ensures Plays(s, w, names, wanted, sky, next, writes) {
      assert writes == more ==> writes == before + [UploadWrite(|names|, wanted, sky, n)];
    }
  }

  lemma {:induction false} AllPlayed(s: P.State, w: WorkerId, names: seq<string>, wanted: seq<D.Wanted>,
                                     sky: nat -> C.Weather, n: nat)
    requires Begins(s, w, names, wanted) && n <= |names| + |wanted|
    ensures Played(s, w, names, wanted, sky, n)
  {
    if n == 0 {
      Begun(s, w, names, wanted, sky);
    } else {
      AllPlayed(s, w, names, wanted, sky, n - 1);
      PlayedOn(s, w, names, wanted, sky, n - 1);
    }
  }

  /** The steps of an upload, one after the other. */
  lemma UploadIsSteps(s: P.State, w: WorkerId, names: seq<string>, wanted: seq<D.Wanted>, sky: nat -> C.Weather, n: nat)
    requires Begins(s, w, names, wanted) && n <= |names| + |wanted|
    ensures var (u, writes) := (s.workers[w].pc.job.user.value, UploadWrites(|names|, wanted, sky, n));
            CanWriteAll(s, w, writes)
            && Midway(s, Wrote(s, w, writes), w, Sofar(s.drives[u], s.cache, u, names, wanted, sky, n), n)
  {
    AllPlayed(s, w, names, wanted, sky, n);
    assert Plays(s, w, names, wanted, sky, n, UploadWrites(|names|, wanted, sky, n));
  }

  // ----- The handlers -----

  /** The data directory as the protocol sees it: which files there are, and where meta files lead. */
  function Shown(mime: map<JobId, Option<M.Email>>, pdf: map<JobId, string>, meta: map<JobId, H.Meta>,
                 chain: H.Meta -> seq<string>): P.Files
  {
    P.Files(mime.Keys, pdf.Keys, map id | id in meta :: P.Meta(chain(meta[id]), meta[id].attachmentNames))
  }

  lemma {:induction false} ReadableNames(files: H.Attachments, id: JobId, names: seq<string>, i: nat)
    requires i < |H.Readable(files, id, names)|
    ensures H.Readable(files, id, names)[i].name == names[i]
  {
    if i > 0 {
      ReadableNames(files, id, names[1..], i - 1);
    }
  }

  lemma WantedNames(pdf: map<JobId, string>, files: H.Attachments, id: JobId, meta: P.Meta, i: nat)
    requires i < |H.WantedFiles(pdf, files, id, meta.attachments)|
    ensures i < 1 + |meta.attachments| && H.WantedFiles(pdf, files, id, meta.attachments)[i].name == P.FileName(meta, i)
  {
    if i > 0 {
      ReadableNames(files, id, meta.attachments, i - 1);
    }
  }

  lemma AllWanted(pdf: map<JobId, string>, files: H.Attachments, id: JobId, meta: P.Meta)
    ensures var wanted := H.WantedFiles(pdf, files, id, meta.attachments);
            |wanted| <= 1 + |meta.attachments| && forall i :: 0 <= i < |wanted| ==> wanted[i].name == P.FileName(meta, i)
  {
    var wanted := H.WantedFiles(pdf, files, id, meta.attachments);
    forall i | 0 <= i < |wanted| ensures wanted[i].name == P.FileName(meta, i) {
      WantedNames(pdf, files, id, meta, i);
    }
  }

  /** What the first n steps of an upload leave, in the terms of the handler's contract. */
  lemma UploadLeaves(s: P.State, w: WorkerId, names: seq<string>, wanted: seq<D.Wanted>, sky: nat -> C.Weather, halt: H.Halt,
                     n: nat)
    requires Begins(s, w, names, wanted) && n == H.Steps(halt, |names| + |wanted|)
    ensures var (t, u) := (Wrote(s, w, UploadWrites(|names|, wanted, sky, n)), s.workers[w].pc.job.user.value);
            var after := H.CutOffUpload(s.drives[u], s.cache, u, names, wanted, sky, halt);
            && CanWriteAll(s, w, UploadWrites(|names|, wanted, sky, n)) && t.files == s.files
            && t.drives == s.drives[u := after.0] && t.cache == after.1
  {
    var u := s.workers[w].pc.job.user.value;
    UploadIsSteps(s, w, names, wanted, sky, n);
    SofarIsUploading(s.drives[u], s.cache, u, names, wanted, sky, n);
    H.CutOffIsSteps(s.drives[u], s.cache, u, names, wanted, sky, halt);
  }

  /** An upload: by its contract UploadHandler.Process leaves the Drive and the cache of CutOffUpload, wherever `halt` cuts it
      off. As many upload steps leave the same, and if Process answers Finished, the worker may return success. */
  lemma UploadHandlerIsSteps(s: P.State, w: WorkerId, pdf: map<JobId, string>, files: H.Attachments, sky: nat -> C.Weather,
                             halt: H.Halt, meta: P.Meta, wanted: seq<D.Wanted>) returns (n: nat)
    requires w in s.workers && s.workers[w].stage == Upload && P.Uploads(s, Upload, s.workers[w].pc) && s.files.pdf == pdf.Keys
    requires s.workers[w].pc.writes == 0 && s.workers[w].pc.place == P.Home(s.workers[w].pc.job)
    requires s.workers[w].pc.id in pdf && meta == s.files.meta[s.workers[w].pc.id]
    requires wanted == H.WantedFiles(pdf, files, s.workers[w].pc.id, meta.attachments)
    ensures var (t, u) := (Wrote(s, w, UploadWrites(|meta.chain|, wanted, sky, n)), s.workers[w].pc.job.user.value);
            var after := H.CutOffUpload(s.drives[u], s.cache, u, meta.chain, wanted, sky, halt);
            && CanWriteAll(s, w, UploadWrites(|meta.chain|, wanted, sky, n)) && t.files == s.files
            && t.drives == s.drives[u := after.0] && t.cache == after.1
    ensures |wanted| == 1 + |meta.attachments| && !H.CutsOff(halt, |meta.chain| + |wanted|) ==>
              P.CanReturn(Wrote(s, w, UploadWrites(|meta.chain|, wanted, sky, n)), Upload, s.workers[w].pc.id, n)
  {
    AllWanted(pdf, files, s.workers[w].pc.id, meta);
    n := H.Steps(halt, |meta.chain| + |wanted|);
    UploadLeaves(s, w, meta.chain, wanted, sky, halt, n);
  }

  function Write(meta: P.Meta): P.WorkerAction {
    P.HandlerWrite(meta, "", C.Weather({}, false, false))
  }

  lemma FileView(s: P.State, w: WorkerId, meta: P.Meta)
    requires w in s.workers && s.workers[w].pc.Working? && s.workers[w].stage in {Fetch, Render}
    ensures var (pc, t) := (s.workers[w].pc, P.Apply(s, P.OnWorker(w, Write(meta))));
            && t.drives == s.drives && t.cache == s.cache
            && w in t.workers && t.workers[w] == P.Worker(s.workers[w].stage, pc.(writes := pc.writes + 1))
            && t.files == if s.workers[w].stage == Fetch then s.files.(mime := s.files.mime + {pc.id})
                          else if pc.writes == 0 then s.files.(pdf := s.files.pdf + {pc.id})
                          else s.files.(meta := s.files.meta[pc.id := meta])
  {
  }

  lemma OneWrite(s: P.State, w: WorkerId, a: P.WorkerAction)
    ensures Wrote(s, w, [a]) == P.Apply(s, P.OnWorker(w, a))
  {
    assert [a][1..] == [];
    assert Wrote(P.Apply(s, P.OnWorker(w, a)), w, []) == P.Apply(s, P.OnWorker(w, a));
  }

  /** A fetch: the mime file is the one write. */
  lemma FetchHandlerIsSteps(s: P.State, w: WorkerId, mime: map<JobId, Option<M.Email>>, pdf: map<JobId, string>,
                            meta: map<JobId, H.Meta>, chain: H.Meta -> seq<string>, raw: Option<M.Email>)
    requires w in s.workers && s.workers[w].stage == Fetch && s.workers[w].pc.Working? && s.workers[w].pc.writes == 0
    requires s.workers[w].pc.job.user.Some? && s.workers[w].pc.job.message.Some? && s.files == Shown(mime, pdf, meta, chain)
    ensures var (id, a) := (s.workers[w].pc.id, Write(NO_META));
            && P.WorkerEnabled(s, w, a) && Wrote(s, w, [a]).files == Shown(mime[id := raw], pdf, meta, chain)
            && P.CanReturn(Wrote(s, w, [a]), Fetch, id, 1)
  {
    FileView(s, w, NO_META);
    OneWrite(s, w, Write(NO_META));
  }

  lemma RenderPdf(s: P.State, w: WorkerId, mime: map<JobId, Option<M.Email>>, pdf: map<JobId, string>,
                  meta: map<JobId, H.Meta>, chain: H.Meta -> seq<string>, rendered: string, plan: P.Meta)
    requires w in s.workers && s.workers[w].stage == Render && s.workers[w].pc.Working? && s.workers[w].pc.writes == 0
    requires s.files == Shown(mime, pdf, meta, chain) && s.workers[w].pc.id in mime
    ensures var (id, t) := (s.workers[w].pc.id, Wrote(s, w, [Write(plan)]));
            && P.WorkerEnabled(s, w, Write(plan)) && t.files == Shown(mime, pdf[id := rendered], meta, chain)
            && w in t.workers && t.workers[w] == P.Worker(Render, s.workers[w].pc.(writes := 1))
  {
    FileView(s, w, plan);
    OneWrite(s, w, Write(plan));
  }

  lemma RenderMeta(s: P.State, w: WorkerId, mime: map<JobId, Option<M.Email>>, pdf: map<JobId, string>,
                   meta: map<JobId, H.Meta>, chain: H.Meta -> seq<string>, m: H.Meta)
    requires w in s.workers && s.workers[w].stage == Render && s.workers[w].pc.Working? && s.workers[w].pc.writes == 1
    requires s.files == Shown(mime, pdf, meta, chain) && s.workers[w].pc.id in mime && "email.pdf" !in chain(m)
    requires var id := s.workers[w].pc.id;
             id in meta ==> chain(meta[id]) == chain(m) && meta[id].attachmentNames == m.attachmentNames
    ensures var (id, plan) := (s.workers[w].pc.id, P.Meta(chain(m), m.attachmentNames));
            var t := Wrote(s, w, [Write(plan)]);
            && P.WorkerEnabled(s, w, Write(plan)) && t.files == Shown(mime, pdf, meta[id := m], chain)
            && P.CanReturn(t, Render, id, 2)
  {
    var id, plan := s.workers[w].pc.id, P.Meta(chain(m), m.attachmentNames);
    FileView(s, w, plan);
    OneWrite(s, w, Write(plan));
    assert Shown(mime, pdf, meta[id := m], chain).meta == Shown(mime, pdf, meta, chain).meta[id := plan];
  }

  /** A render: the PDF and the meta file are its two writes, in this order, so cut off anywhere it leaves none of them, the
      PDF or both. Rendering again names the same chain and attachments. */
  lemma RenderHandlerIsSteps(s: P.State, w: WorkerId, mime: map<JobId, Option<M.Email>>, pdf: map<JobId, string>,
                             meta: map<JobId, H.Meta>, chain: H.Meta -> seq<string>, rendered: string, m: H.Meta)
    requires w in s.workers && s.workers[w].stage == Render && s.workers[w].pc.Working? && s.workers[w].pc.writes == 0
    requires s.files == Shown(mime, pdf, meta, chain) && s.workers[w].pc.id in mime && "email.pdf" !in chain(m)
    requires var id := s.workers[w].pc.id;
             id in meta ==> chain(meta[id]) == chain(m) && meta[id].attachmentNames == m.attachmentNames
    ensures var (id, plan) := (s.workers[w].pc.id, P.Meta(chain(m), m.attachmentNames));
            var t := Wrote(s, w, [Write(plan)]);
            && P.WorkerEnabled(s, w, Write(plan)) && t.files == Shown(mime, pdf[id := rendered], meta, chain)
            && P.WorkerEnabled(t, w, Write(plan))
            && Wrote(t, w, [Write(plan)]).files == Shown(mime, pdf[id := rendered], meta[id := m], chain)
            && P.CanReturn(Wrote(t, w, [Write(plan)]), Render, id, 2)
  {
    var plan := P.Meta(chain(m), m.attachmentNames);
    RenderPdf(s, w, mime, pdf, meta, chain, rendered, plan);
    RenderMeta(Wrote(s, w, [Write(plan)]), w, mime, pdf[s.workers[w].pc.id := rendered], meta, chain, m);
  }
}
