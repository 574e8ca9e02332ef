/** A user's Drive as internal/drive sees it: find-or-create of folders and files by (parent, name). */
module Drive {
  import opened Types

  /** The root is the configured folder, or "root"; every created entry gets a fresh ID. */
  datatype Node = Root(user: UserId) | Item(n: nat)

  datatype File = File(node: Node, content: string)

  datatype Tree = Tree(folders: map<(Node, string), Node>, files: map<(Node, string), File>, next: nat)

  /** A file the upload handler wants to exist under a folder. */
  datatype Wanted = Wanted(name: string, content: string)

  /** EnsureFolder: the listed folder if there is one, otherwise a new one. */
  function EnsureFolder(t: Tree, parent: Node, name: string): (Tree, Node) {
    if (parent, name) in t.folders then (t, t.folders[(parent, name)])
    else (t.(folders := t.folders[(parent, name) := Item(t.next)], next := t.next + 1), Item(t.next))
  }

  /** Upload: its listing does not filter on the MIME type, so a folder of that name also suppresses the upload. */
  function Upload(t: Tree, parent: Node, w: Wanted): Tree {
    if (parent, w.name) in t.files || (parent, w.name) in t.folders then t
    else t.(files := t.files[(parent, w.name) := File(Item(t.next), w.content)], next := t.next + 1)
  }

  function EnsureAll(t: Tree, root: Node, names: seq<string>): (Tree, Node) {
    if names == [] then (t, root) else
      var (t', parent) := EnsureAll(t, root, names[..|names| - 1]);
      EnsureFolder(t', parent, names[|names| - 1])
  }

  function UploadAll(t: Tree, parent: Node, files: seq<Wanted>): Tree {
    if files == [] then t
    else Upload(UploadAll(t, parent, files[..|files| - 1]), parent, files[|files| - 1])
  }

  /** The folder a path of names leads to, if every folder on it exists. */
  function Resolve(t: Tree, root: Node, names: seq<string>): Option<Node> {
    if names == [] then Some(root) else
      match Resolve(t, root, names[..|names| - 1])
      case None => None
      case Some(parent) =>
        var k := (parent, names[|names| - 1]);
        if k in t.folders then Some(t.folders[k]) else None
  }

  /** Nothing that exists is renamed, moved or removed. */
  ghost predicate Extends(t: Tree, t': Tree) {
    && (forall k :: k in t.folders ==> k in t'.folders && t'.folders[k] == t.folders[k])
    && (forall k :: k in t.files ==> k in t'.files && t'.files[k] == t.files[k])
  }

  lemma {:induction false} ResolveSurvives(t: Tree, t': Tree, root: Node, names: seq<string>)
    requires Extends(t, t')
    ensures Resolve(t, root, names).Some? ==> Resolve(t', root, names) == Resolve(t, root, names)
  {
    if names != [] {
      ResolveSurvives(t, t', root, names[..|names| - 1]);
    }
  }

  /** Find-or-create along a path leads to the folder at that path and destroys nothing. */
  lemma {:induction false} EnsureAllResolves(t: Tree, root: Node, names: seq<string>)
    ensures Extends(t, EnsureAll(t, root, names).0)
    ensures Resolve(EnsureAll(t, root, names).0, root, names) == Some(EnsureAll(t, root, names).1)
    ensures EnsureAll(t, root, names).0.files == t.files
  {
    if names != [] {
      var front := names[..|names| - 1];
      EnsureAllResolves(t, root, front);
      var (t', parent) := EnsureAll(t, root, front);
      ResolveSurvives(t', EnsureAll(t, root, names).0, root, front);
    }
  }

  /** On a path that already exists, find-or-create creates nothing. */
  lemma {:induction false} EnsureAllIdempotent(t: Tree, root: Node, names: seq<string>)
    requires Resolve(t, root, names).Some?
    ensures EnsureAll(t, root, names) == (t, Resolve(t, root, names).value)
  {
    if names != [] {
      EnsureAllIdempotent(t, root, names[..|names| - 1]);
    }
  }

  lemma {:induction false} UploadAllExtends(t: Tree, parent: Node, files: seq<Wanted>)
    ensures Extends(t, UploadAll(t, parent, files))
    ensures UploadAll(t, parent, files).folders == t.folders
  {
    if files != [] {
      UploadAllExtends(t, parent, files[..|files| - 1]);
    }
  }

  /** Every wanted name is taken under the folder afterwards, by a file unless a folder had it. */
  lemma {:induction false} UploadAllPresent(t: Tree, parent: Node, files: seq<Wanted>, i: nat)
    requires i < |files|
    ensures var t' := UploadAll(t, parent, files);
            (parent, files[i].name) in t'.files || (parent, files[i].name) in t.folders
  {
    UploadAllExtends(t, parent, files[..|files| - 1]);
    if i < |files| - 1 {
      UploadAllPresent(t, parent, files[..|files| - 1], i);
    }
  }

  lemma UploadOneMore(t: Tree, parent: Node, files: seq<Wanted>, k: nat)
    requires k < |files|
    ensures UploadAll(t, parent, files[..k + 1]) == Upload(UploadAll(t, parent, files[..k]), parent, files[k])
  {
    assert files[..k + 1][..k] == files[..k];
  }

  /** Where all names are already taken, uploading changes nothing. */
  lemma {:induction false} UploadAllIdempotent(t: Tree, parent: Node, files: seq<Wanted>)
    requires forall i :: 0 <= i < |files| ==> (parent, files[i].name) in t.files || (parent, files[i].name) in t.folders
    ensures UploadAll(t, parent, files) == t
  {
    if files != [] {
      UploadAllIdempotent(t, parent, files[..|files| - 1]);
    }
  }

  /** The tree after the first `k` find-or-create operations of the upload handler. */
  function AfterOps(t: Tree, root: Node, names: seq<string>, files: seq<Wanted>, k: nat): Tree
    requires k <= |names| + |files|
  {
    if k <= |names| then EnsureAll(t, root, names[..k]).0
    else
      var (t', folder) := EnsureAll(t, root, names);
      UploadAll(t', folder, files[..k - |names|])
  }

  function Deliver(t: Tree, root: Node, names: seq<string>, files: seq<Wanted>): Tree {
    AfterOps(t, root, names, files, |names| + |files|)
  }

  lemma {:induction false} EnsureAllAgree(t1: Tree, t2: Tree, root: Node, names: seq<string>, k: nat)
    requires k <= |names|
    requires EnsureAll(t1, root, names[..k]) == EnsureAll(t2, root, names[..k])
    ensures EnsureAll(t1, root, names) == EnsureAll(t2, root, names)
  {
    if k < |names| {
      var front := names[..|names| - 1];
      assert front[..k] == names[..k];
      EnsureAllAgree(t1, t2, root, front, k);
    } else {
      assert names[..k] == names;
    }
  }

  lemma {:induction false} UploadAllAgree(t1: Tree, t2: Tree, parent: Node, files: seq<Wanted>, k: nat)
    requires k <= |files|
    requires UploadAll(t1, parent, files[..k]) == UploadAll(t2, parent, files[..k])
    ensures UploadAll(t1, parent, files) == UploadAll(t2, parent, files)
  {
    if k < |files| {
      var front := files[..|files| - 1];
      assert front[..k] == files[..k];
      UploadAllAgree(t1, t2, parent, front, k);
    } else {
      assert files[..k] == files;
    }
  }

  /** Resuming after a crash: stopped after any number of operations and run again from the start,
      the handler leaves exactly the tree of one uninterrupted run, IDs included. */
  lemma ResumeDelivers(t: Tree, root: Node, names: seq<string>, files: seq<Wanted>, k: nat)
    requires k <= |names| + |files|
    ensures Deliver(AfterOps(t, root, names, files, k), root, names, files) == Deliver(t, root, names, files)
  {
    var t1 := AfterOps(t, root, names, files, k);
    assert files[..|files|] == files && names[..|names|] == names;
    if k <= |names| {
      EnsureAllResolves(t, root, names[..k]);
      EnsureAllIdempotent(t1, root, names[..k]);
      EnsureAllAgree(t1, t, root, names, k);
    } else {
      EnsureAllResolves(t, root, names);
      var (t', folder) := EnsureAll(t, root, names);
      UploadAllExtends(t', folder, files[..k - |names|]);
      ResolveSurvives(t', t1, root, names);
      EnsureAllIdempotent(t1, root, names);
      forall i | 0 <= i < k - |names|
        ensures (folder, files[i].name) in t1.files || (folder, files[i].name) in t1.folders
      {
        UploadAllPresent(t', folder, files[..k - |names|], i);
      }
      UploadAllIdempotent(t1, folder, files[..k - |names|]);
      UploadAllAgree(t1, t', folder, files, k - |names|);
    }
  }

  /** A further run after a completed one changes nothing. */
  lemma RerunChangesNothing(t: Tree, root: Node, names: seq<string>, files: seq<Wanted>)
    ensures var t' := Deliver(t, root, names, files); Deliver(t', root, names, files) == t'
  {
    ResumeDelivers(t, root, names, files, |names| + |files|);
  }
}
