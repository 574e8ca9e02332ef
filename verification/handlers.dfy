/** internal/handler and internal/drive as objects: the data directory the stages share, Drive, and the mail handlers. */
module Handlers {
  import opened Types
  import opened Mime
  import opened CachedWalk
  import D = Drive

  /** What render leaves for upload. `received` is never missing when render wrote the file. */
  datatype Meta = Meta(subject: string, fromEmail: string, received: Option<Time>, attachmentNames: seq<string>)

  /** An attachment under the file name it is stored by. */
  datatype Stored = Stored(name: string, content: string)

  /** The attachment files, by job and file name. */
  type Attachments = map<(JobId, string), string>

  /** The files under DATA_DIR, by job. A mime file is kept as net/mail would read it. */
  class DataDir {
    var mime: map<JobId, Option<Email>>
    var pdf: map<JobId, string>
    var meta: map<JobId, Meta>
    var attachments: Attachments

    constructor ()
      ensures mime == map[] && pdf == map[] && meta == map[] && attachments == map[]
    {
      mime, pdf, meta, attachments := map[], map[], map[], map[];
    }
  }

  datatype HandlerError = NoUser | NoMessage | CallFailed | Unreadable | Unparsable | Stopped

  /** A handler's answer: the stage it names, if any, or why it failed. */
  datatype Answer = Next(stage: Stage) | Finished | Failed(error: HandlerError)

  /** Where a run of durable steps is cut off by a crash, a cancelled context or a failing call:
      nowhere, before step n took effect, or right after it did. */
  datatype Halt = Never | Before(n: nat) | After(n: nat)

  /** How many of `total` steps take effect. */
  function Steps(h: Halt, total: nat): (k: nat)
    ensures k <= total
  {
    match h
    case Never => total
    case Before(n) => if n < total then n else total
    case After(n) => if n < total then n + 1 else total
  }

  predicate CutsOff(h: Halt, total: nat) {
    !h.Never? && h.n < total
  }

  /** A cut within the first a steps is also one of a longer run. */
  lemma StepsLonger(h: Halt, a: nat, b: nat)
    ensures CutsOff(h, a) ==> CutsOff(h, a + b) && Steps(h, a + b) == Steps(h, a)
    ensures !CutsOff(h, a) ==> Steps(h, a + b) >= a == Steps(h, a)
  {
  }

  // ----- Fetch -----

  class FetchHandler {
    const dir: DataDir

    constructor (dir: DataDir)
      ensures this.dir == dir
    {
      this.dir := dir;
    }

    /** `raw` is Gmail's answer. Naming render means that the mime file holds it. */
    method Process(job: Job, raw: Option<Option<Email>>, halt: Halt) returns (answer: Answer)
      modifies dir`mime
      ensures answer == Next(Render) || (answer.Failed? && answer.error in {NoUser, NoMessage, CallFailed, Stopped})
      ensures answer == Next(Render) <==> job.user.Some? && job.message.Some? && raw.Some? && !CutsOff(halt, 1)
      ensures dir.mime == if job.user.Some? && job.message.Some? && raw.Some? && Steps(halt, 1) == 1
                          then old(dir.mime)[job.id := raw.value] else old(dir.mime)
    {
      if job.user.None? {
        return Failed(NoUser);
      }
      if job.message.None? {
        return Failed(NoMessage);
      }
      if raw.None? {
        return Failed(CallFailed);
      }
      if halt == Before(0) {
        return Failed(Stopped);
      }
      dir.mime := dir.mime[job.id := raw.value];
      if halt == After(0) {
        return Failed(Stopped);
      }
      return Next(Render);
    }
  }

  // ----- Render -----

  /** The attachment files after these have been written in order: a later one overwrites an earlier one of its name. */
  function Written(files: Attachments, id: JobId, atts: seq<Stored>): Attachments {
    if atts == [] then files
    else Written(files, id, atts[..|atts| - 1])[(id, atts[|atts| - 1].name) := atts[|atts| - 1].content]
  }

  function Names(atts: seq<Stored>): (names: seq<string>)
    ensures |names| == |atts| && forall i :: 0 <= i < |atts| ==> names[i] == atts[i].name
  {
    seq(|atts|, i requires 0 <= i < |atts| => atts[i].name)
  }

  class RenderHandler {
    const dir: DataDir
    /** SanitizeFilename. */
    const sanitize: string -> string

    constructor (dir: DataDir, sanitize: string -> string)
      ensures this.dir == dir && this.sanitize == sanitize
    {
      this.dir, this.sanitize := dir, sanitize;
    }

    function StoredAs(atts: seq<Attachment>): (r: seq<Stored>)
      ensures |r| == |atts|
      ensures forall i :: 0 <= i < |atts| ==> r[i] == Stored(sanitize(atts[i].filename), atts[i].content)
    {
      seq(|atts|, i requires 0 <= i < |atts| => Stored(sanitize(atts[i].filename), atts[i].content))
    }

    /** `rendered` is the PDF service's answer. Attachments are written first, then the PDF, then the meta file,
        so a meta file written here means all the others are in place. */
    method Process(job: Job, rendered: Option<string>, halt: Halt) returns (answer: Answer)
      modifies dir`attachments, dir`pdf, dir`meta
      ensures answer == Next(Upload) || answer.Failed?
      ensures job.id !in dir.mime || Parse(dir.mime[job.id]).None? ==>
                && answer.Failed?
                && dir.attachments == old(dir.attachments) && dir.pdf == old(dir.pdf) && dir.meta == old(dir.meta)
      ensures job.id in dir.mime && Parse(dir.mime[job.id]).Some? ==>
                var parsed := Parse(dir.mime[job.id]).value;
                var atts := StoredAs(parsed.content.attachments);
                var n := |atts|;
                && (answer == Next(Upload) <==> rendered.Some? && !CutsOff(halt, n + 2))
                && dir.attachments == Written(old(dir.attachments), job.id, atts[..Steps(halt, n)])
                && dir.pdf == (if rendered.Some? && Steps(halt, n + 2) > n then old(dir.pdf)[job.id := rendered.value]
                               else old(dir.pdf))
                && dir.meta == (if rendered.Some? && Steps(halt, n + 2) > n + 1
                                then old(dir.meta)[job.id := MetaOf(job, parsed, Names(atts))]
                                else old(dir.meta))
    {
      if job.id !in dir.mime {
        return Failed(Unreadable);
      }
      var p := ParseMessage(dir.mime[job.id]);
      if p.None? {
        return Failed(Unparsable);
      }
      var parsed := p.value;
      var n := |parsed.content.attachments|;
      var attachmentNames, stopped := WriteAttachments(job.id, parsed.content.attachments, halt);
      if stopped {
        return Failed(Stopped);
      }
      if rendered.None? {
        return Failed(CallFailed);
      }
      if halt == Before(n) {
        return Failed(Stopped);
      }
      dir.pdf := dir.pdf[job.id := rendered.value];
      if halt == After(n) || halt == Before(n + 1) {
        return Failed(Stopped);
      }
      dir.meta := dir.meta[job.id := MetaOf(job, parsed, attachmentNames)];
      if halt == After(n + 1) {
        return Failed(Stopped);
      }
      return Next(Upload);
    }

    function MetaOf(job: Job, parsed: Parsed, attachmentNames: seq<string>): Meta {
      var received := if parsed.date.Some? then parsed.date.value else job.createdAt;
      Meta(parsed.subject, parsed.fromEmail, Some(received), attachmentNames)
    }

    method WriteAttachments(id: JobId, atts: seq<Attachment>, halt: Halt) returns (names: seq<string>, stopped: bool)
      modifies dir`attachments
      ensures stopped <==> CutsOff(halt, |atts|)
      ensures dir.attachments == Written(old(dir.attachments), id, StoredAs(atts)[..Steps(halt, |atts|)])
      ensures !stopped ==> names == Names(StoredAs(atts))
    {
      ghost var stored := StoredAs(atts);
      names := [];
      var i := 0;
      while i < |atts|
        invariant 0 <= i <= |atts| && !CutsOff(halt, i)
        invariant names == Names(stored)[..i]
        invariant dir.attachments == Written(old(dir.attachments), id, stored[..i])
      {
        if halt == Before(i) {
          return names, true;
        }
        var name := sanitize(atts[i].filename);
        dir.attachments := dir.attachments[(id, name) := atts[i].content];
        names := names + [name];
        assert stored[..i + 1][..i] == stored[..i];
        if halt == After(i) {
          return names, true;
        }
        i := i + 1;
      }
      stopped := false;
    }
  }

  // ----- Drive and the folder cache -----

  /** One user's Drive, as the client that drive.New makes for that user sees it. */
  class Client {
    var tree: D.Tree

    constructor (tree: D.Tree)
      ensures this.tree == tree
    {
      this.tree := tree;
    }

    /** List, and create only if the listing is empty. */
    method EnsureFolder(parent: D.Node, name: string) returns (node: D.Node)
      modifies this
      ensures (tree, node) == D.EnsureFolder(old(tree), parent, name)
    {
      if (parent, name) in tree.folders {
        return tree.folders[(parent, name)];
      }
      node := D.Item(tree.next);
      tree := tree.(folders := tree.folders[(parent, name) := node], next := tree.next + 1);
    }

    method Upload(parent: D.Node, name: string, content: string)
      modifies this
      ensures tree == D.Upload(old(tree), parent, D.Wanted(name, content))
    {
      if (parent, name) !in tree.files && (parent, name) !in tree.folders {
        tree := tree.(files := tree.files[(parent, name) := D.File(D.Item(tree.next), content)], next := tree.next + 1);
      }
    }
  }

  class FolderCache {
    var entries: Cache

    constructor ()
      ensures entries == map[]
    {
      entries := map[];
    }

    /** What Redis drops on its own before the next read. */
    method Expire(lapsed: set<Key>)
      modifies this
      ensures entries == old(entries) - lapsed
    {
      entries := entries - lapsed;
    }

    method Get(u: UserId, path: string, fails: bool) returns (node: Option<D.Node>)
      ensures node == if !fails && (u, path) in entries then Some(entries[(u, path)]) else None
    {
      return if !fails && (u, path) in entries then Some(entries[(u, path)]) else None;
    }

    method Set(u: UserId, path: string, node: D.Node, fails: bool)
      modifies this
      ensures entries == if fails then old(entries) else old(entries)[(u, path) := node]
    {
      if !fails {
        entries := entries[(u, path) := node];
      }
    }
  }

  // ----- Upload -----

  /** The attachments that can be read from disk, up to the first one that cannot. */
  function Readable(files: Attachments, id: JobId, names: seq<string>): (r: seq<D.Wanted>)
    ensures |r| <= |names|
  {
    if names == [] || (id, names[0]) !in files then []
    else [D.Wanted(names[0], files[(id, names[0])])] + Readable(files, id, names[1..])
  }

  lemma {:induction false} ReadableAt(files: Attachments, id: JobId, names: seq<string>, i: nat)
    requires i <= |Readable(files, id, names)| && i < |names|
    ensures i < |Readable(files, id, names)| <==> (id, names[i]) in files
    ensures i < |Readable(files, id, names)| ==> Readable(files, id, names)[i] == D.Wanted(names[i], files[(id, names[i])])
  {
    if i > 0 {
      ReadableAt(files, id, names[1..], i - 1);
    }
  }

  /** The files an upload tries to put in the folder: the PDF, then the attachments. */
  function WantedFiles(pdf: map<JobId, string>, files: Attachments, id: JobId, names: seq<string>): seq<D.Wanted> {
    if id !in pdf then [] else [D.Wanted("email.pdf", pdf[id])] + Readable(files, id, names)
  }

  /** What reading file number i answers: the PDF first, then the attachments. */
  function FileAt(pdf: map<JobId, string>, files: Attachments, id: JobId, names: seq<string>, i: nat): Option<D.Wanted>
    requires i < 1 + |names|
  {
    if i == 0 then if id in pdf then Some(D.Wanted("email.pdf", pdf[id])) else None
    else if (id, names[i - 1]) in files then Some(D.Wanted(names[i - 1], files[(id, names[i - 1])]))
    else None
  }

  /** Reading file after file yields `wanted` and then, unless that is all, a failure. */
  ghost predicate Yields(pdf: map<JobId, string>, files: Attachments, id: JobId, names: seq<string>,
                         wanted: seq<D.Wanted>)
  {
    && |wanted| <= 1 + |names|
    && forall i :: 0 <= i <= |wanted| && i < 1 + |names| ==>
         FileAt(pdf, files, id, names, i) == if i < |wanted| then Some(wanted[i]) else None
  }

  lemma WantedYield(pdf: map<JobId, string>, files: Attachments, id: JobId, names: seq<string>)
    ensures Yields(pdf, files, id, names, WantedFiles(pdf, files, id, names))
  {
    var wanted := WantedFiles(pdf, files, id, names);
    forall i | 0 <= i <= |wanted| && i < 1 + |names|
      ensures FileAt(pdf, files, id, names, i) == if i < |wanted| then Some(wanted[i]) else None
    {
      if i > 0 {
        ReadableAt(files, id, names, i - 1);
      }
    }
  }

  /** Drive and the cache after an upload cut off by `halt`: the walk, and the files if it got that far. */
  function CutOffUpload(t: D.Tree, c: Cache, u: UserId, names: seq<string>, wanted: seq<D.Wanted>,
                        sky: nat -> Weather, halt: Halt): (D.Tree, Cache)
  {
    var w := Walked(t, c, u, names, sky, Steps(halt, |names|));
    var files := if CutsOff(halt, |names|) then [] else wanted[..FileSteps(halt, |names|, |wanted|)];
    (D.UploadAll(w.tree, w.parent, files), w.cache)
  }

  function FileSteps(halt: Halt, folders: nat, files: nat): (k: nat)
    requires !CutsOff(halt, folders)
    ensures k <= files
  {
    Steps(halt, folders + files) - folders
  }

  /** A cut-off upload is the upload after as many steps as took effect. */
  lemma CutOffIsSteps(t: D.Tree, c: Cache, u: UserId, names: seq<string>, wanted: seq<D.Wanted>,
                      sky: nat -> Weather, halt: Halt)
    ensures CutOffUpload(t, c, u, names, wanted, sky, halt)
            == Uploading(t, c, u, names, wanted, sky, Steps(halt, |names| + |wanted|))
  {
    StepsLonger(halt, |names|, |wanted|);
    if !CutsOff(halt, |names|) {
      UploadingFiles(t, c, u, names, wanted, sky, Steps(halt, |names| + |wanted|));
    }
  }

  class UploadHandler {
    const dir: DataDir
    const cache: FolderCache
    /** The folder names under the root: the configured prefix, the date tree and the email folder. */
    const folders: (Time, string, string) -> seq<string>

    constructor (dir: DataDir, cache: FolderCache, folders: (Time, string, string) -> seq<string>)
      ensures this.dir == dir && this.cache == cache && this.folders == folders
    {
      this.dir, this.cache, this.folders := dir, cache, folders;
    }

    function Chain(m: Meta, createdAt: Time): seq<string> {
      folders(if m.received.Some? then m.received.value else createdAt, m.subject, m.fromEmail)
    }

    /** `login` is what drive.New answers for the job's user. */
    method Process(job: Job, login: Option<Client>, sky: nat -> Weather, halt: Halt) returns (answer: Answer)
      modifies if login.Some? then {login.value} else {}, cache
      ensures answer == Finished || answer.Failed?
      ensures job.user.None? || job.id !in dir.meta || login.None? ==>
                && answer.Failed? && cache.entries == old(cache.entries)
                && (login.Some? ==> login.value.tree == old(login.value.tree))
      ensures job.user.Some? && job.id in dir.meta && login.Some? ==>
                var m := dir.meta[job.id];
                var names := Chain(m, job.createdAt);
                var wanted := WantedFiles(dir.pdf, dir.attachments, job.id, m.attachmentNames);
                && (login.value.tree, cache.entries)
                   == CutOffUpload(old(login.value.tree), old(cache.entries), job.user.value, names, wanted, sky, halt)
                && (answer == Finished <==> |wanted| == 1 + |m.attachmentNames| && !CutsOff(halt, |names| + |wanted|))
    {
      if job.user.None? {
        return Failed(NoUser);
      }
      var u := job.user.value;
      if job.id !in dir.meta {
        return Failed(Unreadable);
      }
      var m := dir.meta[job.id];
      if login.None? {
        return Failed(CallFailed);
      }
      answer := WalkAndUpload(login.value, u, job.id, Chain(m, job.createdAt), m.attachmentNames, sky, halt);
    }

    /** The folder chain, then the files. */
    method WalkAndUpload(client: Client, u: UserId, id: JobId, names: seq<string>, attachmentNames: seq<string>,
                         sky: nat -> Weather, halt: Halt)
      returns (answer: Answer)
      modifies client, cache
      ensures answer == Finished || answer.Failed?
      ensures var wanted := WantedFiles(dir.pdf, dir.attachments, id, attachmentNames);
              && (client.tree, cache.entries) == CutOffUpload(old(client.tree), old(cache.entries), u, names, wanted, sky, halt)
              && (answer == Finished <==> |wanted| == 1 + |attachmentNames| && !CutsOff(halt, |names| + |wanted|))
    {
      ghost var wanted := WantedFiles(dir.pdf, dir.attachments, id, attachmentNames);
      StepsLonger(halt, |names|, |wanted|);
      var parent, stopped := WalkChain(client, u, names, sky, halt);
      if stopped {
        return Failed(Stopped);
      }
      WantedYield(dir.pdf, dir.attachments, id, attachmentNames);
      var complete;
      complete, stopped := UploadFiles(client, parent, id, attachmentNames, |names|, halt, wanted);
      return if stopped then Failed(Stopped) else if !complete then Failed(Unreadable) else Finished;
    }

    /** The PDF and the attachments, as steps `first`, `first` + 1 and so on. */
    method UploadFiles(client: Client, parent: D.Node, id: JobId, names: seq<string>, first: nat, halt: Halt,
                       ghost wanted: seq<D.Wanted>)
      returns (complete: bool, stopped: bool)
      requires Yields(dir.pdf, dir.attachments, id, names, wanted) && !CutsOff(halt, first)
      modifies client
      ensures stopped <==> CutsOff(halt, first + |wanted|)
      ensures !stopped ==> (complete <==> |wanted| == 1 + |names|)
      ensures client.tree == D.UploadAll(old(client.tree), parent, wanted[..FileSteps(halt, first, |wanted|)])
    {
      ghost var t := client.tree;
      var i := 0;
      while i < 1 + |names|
        invariant 0 <= i <= |wanted| && !CutsOff(halt, first + i)
        invariant client.tree == D.UploadAll(t, parent, wanted[..i])
      {
        var file := FileAt(dir.pdf, dir.attachments, id, names, i);
        if file.None? {
          return false, false;
        }
        stopped := NextFile(client, parent, file.value, first, halt, wanted, i, t);
        if stopped {
          return true, true;
        }
        i := i + 1;
      }
      return true, false;
    }

    /** File number i, unless the upload is cut off before it. */
    method NextFile(client: Client, parent: D.Node, file: D.Wanted, first: nat, halt: Halt, ghost wanted: seq<D.Wanted>,
                    i: nat, ghost t: D.Tree)
      returns (stopped: bool)
      requires i < |wanted| && file == wanted[i] && client.tree == D.UploadAll(t, parent, wanted[..i])
      requires !CutsOff(halt, first + i)
      modifies client
      ensures stopped <==> CutsOff(halt, first + i + 1)
      ensures client.tree == D.UploadAll(t, parent, wanted[..FileSteps(halt, first, i + 1)])
    {
      if halt == Before(first + i) {
        return true;
      }
      UploadOne(client, parent, file, wanted, i, t);
      stopped := halt == After(first + i);
    }

    method UploadOne(client: Client, parent: D.Node, file: D.Wanted, ghost wanted: seq<D.Wanted>, ghost i: nat, ghost t: D.Tree)
      requires i < |wanted| && file == wanted[i] && client.tree == D.UploadAll(t, parent, wanted[..i])
      modifies client
      ensures client.tree == D.UploadAll(t, parent, wanted[..i + 1])
    {
      assert wanted[..i + 1][..i] == wanted[..i];
      client.Upload(parent, file.name, file.content);
    }

    /** Folder number i: believe the cache, or find or create the folder and remember it. */
    method WalkOne(client: Client, u: UserId, parent: D.Node, pathSoFar: string, names: seq<string>, i: nat,
                   sky: nat -> Weather, ghost t: D.Tree, ghost c: Cache)
      returns (folder: D.Node, path: string)
      requires i < |names| && Walk(client.tree, cache.entries, parent, pathSoFar) == Walked(t, c, u, names, sky, i)
      modifies client, cache
      ensures Walk(client.tree, cache.entries, folder, path) == Walked(t, c, u, names, sky, i + 1)
    {
      path := FolderPaths.Extended(pathSoFar, names[i]);
      cache.Expire(sky(i).lapsed);
      var hit := cache.Get(u, path, sky(i).getFails);
      if hit.Some? {
        return hit.value, path;
      }
      folder := client.EnsureFolder(parent, names[i]);
      cache.Set(u, path, folder, sky(i).setFails);
    }

    /** Folder number i, unless the upload is cut off before it. */
    method NextFolder(client: Client, u: UserId, parent: D.Node, pathSoFar: string, names: seq<string>, i: nat,
                      sky: nat -> Weather, halt: Halt, ghost t: D.Tree, ghost c: Cache)
      returns (folder: D.Node, path: string, stopped: bool)
      requires i < |names| && Walk(client.tree, cache.entries, parent, pathSoFar) == Walked(t, c, u, names, sky, i)
      requires !CutsOff(halt, i)
      modifies client, cache
      ensures Walk(client.tree, cache.entries, folder, path) == Walked(t, c, u, names, sky, Steps(halt, i + 1))
      ensures stopped <==> CutsOff(halt, i + 1)
    {
      if halt == Before(i) {
        return parent, pathSoFar, true;
      }
      folder, path := WalkOne(client, u, parent, pathSoFar, names, i, sky, t, c);
      stopped := halt == After(i);
    }

    /** The loop over the folder chain. */
    method WalkChain(client: Client, u: UserId, names: seq<string>, sky: nat -> Weather, halt: Halt)
      returns (parent: D.Node, stopped: bool)
      modifies client, cache
      ensures stopped <==> CutsOff(halt, |names|)
      ensures var w := Walked(old(client.tree), old(cache.entries), u, names, sky, Steps(halt, |names|));
              client.tree == w.tree && cache.entries == w.cache && (!stopped ==> parent == w.parent)
    {
      ghost var t, c := client.tree, cache.entries;
      parent := D.Root(u);
      var pathSoFar := "";
      var i := 0;
      while i < |names|
        invariant 0 <= i <= |names| && !CutsOff(halt, i)
        invariant Walk(client.tree, cache.entries, parent, pathSoFar) == Walked(t, c, u, names, sky, i)
      {
        parent, pathSoFar, stopped := NextFolder(client, u, parent, pathSoFar, names, i, sky, halt, t, c);
        if stopped {
          return;
        }
        i := i + 1;
      }
      stopped := false;
    }
  }

  // ----- From the email to Drive -----

  /** Any two attachments stored under one name are the same, and one called email.pdf is the PDF. */
  ghost predicate NoNameClash(atts: seq<Stored>, pdf: string) {
    && (forall i, j :: 0 <= i < j < |atts| && atts[i].name == atts[j].name ==> atts[i].content == atts[j].content)
    && (forall i :: 0 <= i < |atts| && atts[i].name == "email.pdf" ==> atts[i].content == pdf)
  }

  /** The folder holds `content` as the file `name`. */
  predicate Holds(t: D.Tree, folder: D.Node, name: string, content: string) {
    (folder, name) in t.files && t.files[(folder, name)].content == content
  }

  /** On disk the last attachment of a name wins. */
  lemma {:induction false} LastWins(files: Attachments, id: JobId, atts: seq<Stored>, i: nat)
    requires i < |atts|
    ensures (id, atts[i].name) in Written(files, id, atts)
    ensures (forall j :: i < j < |atts| ==> atts[j].name != atts[i].name) ==>
              Written(files, id, atts)[(id, atts[i].name)] == atts[i].content
  {
    if i < |atts| - 1 {
      LastWins(files, id, atts[..|atts| - 1], i);
    }
  }

  /** What is stored under a name is the content of some attachment of that name. */
  lemma {:induction false} SomeWins(files: Attachments, id: JobId, atts: seq<Stored>, name: string) returns (j: nat)
    requires exists i :: 0 <= i < |atts| && atts[i].name == name
    ensures j < |atts| && atts[j].name == name
    ensures (id, name) in Written(files, id, atts) && Written(files, id, atts)[(id, name)] == atts[j].content
  {
    var n := |atts| - 1;
    if atts[n].name == name {
      j := n;
    } else {
      var i :| 0 <= i < |atts| && atts[i].name == name;
      assert atts[..n][i].name == name;
      j := SomeWins(files, id, atts[..n], name);
    }
  }

  /** In Drive the first file of a name wins. */
  lemma {:induction false} FirstWins(t: D.Tree, folder: D.Node, wanted: seq<D.Wanted>, i: nat)
    requires i < |wanted|
    requires (folder, wanted[i].name) !in t.files && (folder, wanted[i].name) !in t.folders
    ensures (folder, wanted[i].name) in D.UploadAll(t, folder, wanted).files
    ensures (forall j :: 0 <= j < i ==> wanted[j].name != wanted[i].name) ==>
              Holds(D.UploadAll(t, folder, wanted), folder, wanted[i].name, wanted[i].content)
    decreases |wanted|
  {
    var front := wanted[..|wanted| - 1];
    D.UploadAllExtends(t, folder, front);
    if i < |front| {
      FirstWins(t, folder, front, i);
    } else if j :| 0 <= j < i && wanted[j].name == wanted[i].name {
      FirstWins(t, folder, front, j);
    } else {
      NotUploaded(t, folder, front, wanted[i].name);
    }
  }

  lemma {:induction false} NotUploaded(t: D.Tree, folder: D.Node, wanted: seq<D.Wanted>, name: string)
    requires (folder, name) !in t.files && forall j :: 0 <= j < |wanted| ==> wanted[j].name != name
    ensures (folder, name) !in D.UploadAll(t, folder, wanted).files
  {
    if wanted != [] {
      NotUploaded(t, folder, wanted[..|wanted| - 1], name);
    }
  }

  lemma {:induction false} AllReadable(files: Attachments, id: JobId, names: seq<string>)
    requires forall i :: 0 <= i < |names| ==> (id, names[i]) in files
    ensures |Readable(files, id, names)| == |names|
  {
    if names != [] {
      AllReadable(files, id, names[1..]);
    }
  }

  /** What upload wants after render: every name, with what render left on disk under it. */
  lemma WantedAfterRender(files: Attachments, id: JobId, atts: seq<Stored>, pdf: map<JobId, string>)
    requires id in pdf
    ensures forall i :: 0 <= i < |atts| ==> (id, atts[i].name) in Written(files, id, atts)
    ensures var wanted := WantedFiles(pdf, Written(files, id, atts), id, Names(atts));
            && |wanted| == 1 + |atts| && wanted[0] == D.Wanted("email.pdf", pdf[id])
            && forall i :: 0 <= i < |atts| ==>
                 wanted[i + 1] == D.Wanted(atts[i].name, Written(files, id, atts)[(id, atts[i].name)])
  {
    var stored := Written(files, id, atts);
    forall i | 0 <= i < |atts| ensures (id, atts[i].name) in stored {
      LastWins(files, id, atts, i);
    }
    AllReadable(stored, id, Names(atts));
    forall i | 0 <= i < |atts|
      ensures WantedFiles(pdf, stored, id, Names(atts))[i + 1] == D.Wanted(atts[i].name, stored[(id, atts[i].name)])
    {
      ReadableAt(stored, id, Names(atts), i);
    }
  }

  /** The first wanted file of a name. */
  lemma {:induction false} FirstOf(wanted: seq<D.Wanted>, i: nat) returns (f: nat)
    requires i < |wanted|
    ensures f <= i && wanted[f].name == wanted[i].name && forall j :: 0 <= j < f ==> wanted[j].name != wanted[i].name
    decreases i
  {
    if j :| 0 <= j < i && wanted[j].name == wanted[i].name {
      f := FirstOf(wanted, j);
    } else {
      f := i;
    }
  }

  /** Rendered and then uploaded into a new folder, the PDF is always there as itself, and every attachment is there
      with its own content if and only if no two of them, and none of them and the PDF, differ under one name. */
  lemma AttachmentsDelivered(files: Attachments, id: JobId, atts: seq<Stored>, pdf: map<JobId, string>,
                             t: D.Tree, folder: D.Node)
    requires id in pdf
    requires forall name :: (folder, name) !in t.files && (folder, name) !in t.folders
    ensures var t' := D.UploadAll(t, folder, WantedFiles(pdf, Written(files, id, atts), id, Names(atts)));
            && Holds(t', folder, "email.pdf", pdf[id])
            && ((forall i :: 0 <= i < |atts| ==> Holds(t', folder, atts[i].name, atts[i].content))
                 <==> NoNameClash(atts, pdf[id]))
  {
    var stored := Written(files, id, atts);
    var wanted := WantedFiles(pdf, stored, id, Names(atts));
    var t' := D.UploadAll(t, folder, wanted);
    WantedAfterRender(files, id, atts, pdf);
    FirstWins(t, folder, wanted, 0);
    if NoNameClash(atts, pdf[id]) {
      forall i | 0 <= i < |atts| ensures Holds(t', folder, atts[i].name, atts[i].content) {
        var j := SomeWins(files, id, atts, atts[i].name);
        var f := FirstOf(wanted, i + 1);
        FirstWins(t, folder, wanted, f);
        assert f > 0 ==> wanted[f] == D.Wanted(atts[f - 1].name, stored[(id, atts[f - 1].name)]);
        assert atts[j].content == atts[i].content;
      }
    }
  }
}
