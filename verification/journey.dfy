/** One email on its way through the three handlers: from its parts and header fields to the folder in Drive. */
module Journey {
  import opened Types
  import opened Mime
  import opened CachedWalk
  import opened Handlers
  import D = Drive

  // ----- New folders are empty -----

  /** Everything in the tree lies below the root or below folders that have been created. */
  ghost predicate Grounded(t: D.Tree) {
    && (forall k :: k in t.folders ==> (k.0.Item? ==> k.0.n < t.next) && (t.folders[k].Item? ==> t.folders[k].n < t.next))
    && (forall k :: k in t.files ==> (k.0.Item? ==> k.0.n < t.next))
  }

  ghost predicate Empty(t: D.Tree, folder: D.Node) {
    forall name :: (folder, name) !in t.files && (folder, name) !in t.folders
  }

  predicate Below(t: D.Tree, node: D.Node) {
    node.Item? ==> node.n < t.next
  }

  lemma OneFolderMore(t: D.Tree, parent: D.Node, name: string)
    requires Grounded(t) && Below(t, parent)
    ensures var (t', node) := D.EnsureFolder(t, parent, name);
            && Grounded(t') && Below(t', node) && ((parent, name) !in t.folders ==> Empty(t', node))
  {
  }

  /** Find-or-create along a chain that did not exist ends in an empty folder. */
  lemma {:induction false} NewIsEmpty(t: D.Tree, root: D.Node, names: seq<string>)
    requires Grounded(t) && root.Root?
    ensures var (t', node) := D.EnsureAll(t, root, names);
            && Grounded(t') && Below(t', node) && (D.Resolve(t, root, names).None? ==> Empty(t', node))
  {
    if names != [] {
      var front, name := names[..|names| - 1], names[|names| - 1];
      var (t1, parent) := D.EnsureAll(t, root, front);
      NewIsEmpty(t, root, front);
      OneFolderMore(t1, parent, name);
      if D.Resolve(t, root, front).Some? {
        D.EnsureAllIdempotent(t, root, front);
      }
    }
  }

  // ----- The folder and its files -----

  /** Where the email goes: the folder named by its date, or by when the job was made, its subject and its sender. */
  function Destination(upload: UploadHandler, e: Email, createdAt: Time): seq<string> {
    upload.folders(if e.date.Some? then e.date.value else createdAt, e.subject, e.fromEmail)
  }

  /** The meta file carries what render has read to the folder names that upload makes of it. */
  lemma MetaCarries(render: RenderHandler, upload: UploadHandler, job: Job, e: Email, names: seq<string>, later: Time)
    requires Parse(Some(e)).Some?
    ensures var meta := render.MetaOf(job, Parse(Some(e)).value, names);
            && upload.Chain(meta, later) == Destination(upload, e, job.createdAt) && meta.attachmentNames == names
            && meta.subject == e.subject && meta.fromEmail == e.fromEmail
  {
    var at := ParseMeaning(e);
  }

  /** What an upload that nothing cuts off leaves, with the cache in front. */
  lemma WholeUpload(routes: Routes, drives: map<UserId, D.Tree>, c: Cache, u: UserId, chain: seq<string>, wanted: seq<D.Wanted>,
                    sky: nat -> Weather)
    requires Faithful(routes) && CacheOk(routes, c, drives) && u in drives && (u, chain) in routes
    ensures var (t, folder) := D.EnsureAll(drives[u], D.Root(u), chain);
            CutOffUpload(drives[u], c, u, chain, wanted, sky, Never).0 == D.UploadAll(t, folder, wanted)
  {
    WalkAgrees(routes, drives, c, u, chain, sky, |chain|);
    assert chain[..|chain|] == chain && wanted[..|wanted|] == wanted;
  }

  /** The folder at the destination holds this. */
  predicate Arrived(t: D.Tree, u: UserId, chain: seq<string>, name: string, content: string) {
    match D.Resolve(t, D.Root(u), chain)
    case Some(folder) => Holds(t, folder, name, content)
    case None => false
  }

  /** Uploaded into a folder that did not exist, the files are where the chain leads. */
  lemma FilesArrive(routes: Routes, drives: map<UserId, D.Tree>, c: Cache, u: UserId, chain: seq<string>, id: JobId,
                    atts: seq<Stored>, files: Attachments, pdf: map<JobId, string>, sky: nat -> Weather)
    requires Faithful(routes) && CacheOk(routes, c, drives) && u in drives && (u, chain) in routes
    requires Grounded(drives[u]) && D.Resolve(drives[u], D.Root(u), chain).None? && id in pdf
    ensures var wanted := WantedFiles(pdf, Written(files, id, atts), id, Names(atts));
            var t := CutOffUpload(drives[u], c, u, chain, wanted, sky, Never).0;
            && Arrived(t, u, chain, "email.pdf", pdf[id])
            && ((forall i :: 0 <= i < |atts| ==> Arrived(t, u, chain, atts[i].name, atts[i].content))
                <==> NoNameClash(atts, pdf[id]))
  {
    var wanted := WantedFiles(pdf, Written(files, id, atts), id, Names(atts));
    var (t, folder) := D.EnsureAll(drives[u], D.Root(u), chain);
    WholeUpload(routes, drives, c, u, chain, wanted, sky);
    NewIsEmpty(drives[u], D.Root(u), chain);
    AttachmentsDelivered(files, id, atts, pdf, t, folder);
    D.EnsureAllResolves(drives[u], D.Root(u), chain);
    D.UploadAllExtends(t, folder, wanted);
    D.ResolveSurvives(t, D.UploadAll(t, folder, wanted), D.Root(u), chain);
  }

  /** Parsed, rendered and uploaded, an email is in the folder that its own date, subject and sender name: email.pdf as render
      made it, and under its sanitized name each part to be stored as a file, with its content, if and only if no two of
      these, and none of them and the PDF, differ under one name. */
  lemma EmailArrives(render: RenderHandler, upload: UploadHandler, job: Job, e: Email, files: Attachments,
                     pdf: map<JobId, string>, routes: Routes, drives: map<UserId, D.Tree>, c: Cache, u: UserId, later: Time,
                     sky: nat -> Weather) returns (at: seq<nat>)
    requires AllUsable(Parts(e.top)) && job.id in pdf
    requires Faithful(routes) && CacheOk(routes, c, drives) && u in drives
    requires var chain := Destination(upload, e, job.createdAt);
             (u, chain) in routes && Grounded(drives[u]) && D.Resolve(drives[u], D.Root(u), chain).None?
    ensures Parse(Some(e)).Some? && AreFrom(Parse(Some(e)).value.content.attachments, Parts(e.top), at)
    ensures var (parsed, chain) := (Parse(Some(e)).value, Destination(upload, e, job.createdAt));
            var atts := render.StoredAs(parsed.content.attachments);
            var meta := render.MetaOf(job, parsed, Names(atts));
            var wanted := WantedFiles(pdf, Written(files, job.id, atts), job.id, meta.attachmentNames);
            var t := CutOffUpload(drives[u], c, u, upload.Chain(meta, later), wanted, sky, Never).0;
            && Arrived(t, u, chain, "email.pdf", pdf[job.id])
            && ((forall i :: 0 <= i < |at| ==>
                   Arrived(t, u, chain, render.sanitize(parsed.content.attachments[i].filename),
                           Parts(e.top)[at[i]].decoded.value))
                <==> NoNameClash(atts, pdf[job.id]))
  {
    at := ParseMeaning(e);
    var parsed, chain := Parse(Some(e)).value, Destination(upload, e, job.createdAt);
    var atts := render.StoredAs(parsed.content.attachments);
    MetaCarries(render, upload, job, e, Names(atts), later);
    FilesArrive(routes, drives, c, u, chain, job.id, atts, files, pdf, sky);
    forall i | 0 <= i < |at|
      ensures atts[i] == Stored(render.sanitize(parsed.content.attachments[i].filename), Parts(e.top)[at[i]].decoded.value)
    {
      assert IsOfPart(parsed.content.attachments[i], Parts(e.top), at[i]);
    }
  }
}
