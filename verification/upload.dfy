/** The folder walk of the upload handler with its cache in front, as a function of what the cache does meanwhile. */
module CachedWalk {
  import opened Types
  import opened FolderPaths
  import D = Drive

  /** drive_folder_cache:<user>:<path>. */
  type Key = (UserId, string)
  type Cache = map<Key, D.Node>

  /** What Redis does around one step: entries expire, the read fails, the write fails. */
  datatype Weather = Weather(lapsed: set<Key>, getFails: bool, setFails: bool)

  datatype Walk = Walk(tree: D.Tree, cache: Cache, parent: D.Node, path: string)

  /** One pass through the loop: a readable cache entry is believed, otherwise find or create the folder and remember it. */
  function Step(w: Walk, u: UserId, name: string, sky: Weather): Walk {
    var path := Extended(w.path, name);
    var cache := w.cache - sky.lapsed;
    if !sky.getFails && (u, path) in cache then Walk(w.tree, cache, cache[(u, path)], path)
    else
      var (tree, node) := D.EnsureFolder(w.tree, w.parent, name);
      Walk(tree, if sky.setFails then cache else cache[(u, path) := node], node, path)
  }

  /** The loop after its first n folders. */
  function Walked(t: D.Tree, c: Cache, u: UserId, names: seq<string>, sky: nat -> Weather, n: nat): Walk
    requires n <= |names|
  {
    if n == 0 then Walk(t, c, D.Root(u), "")
    else Step(Walked(t, c, u, names, sky, n - 1), u, names[n - 1], sky(n - 1))
  }

  lemma {:induction false} WalkedPath(t: D.Tree, c: Cache, u: UserId, names: seq<string>, sky: nat -> Weather, n: nat)
    requires n <= |names|
    ensures Walked(t, c, u, names, sky, n).path == PathOf(names[..n])
  {
    if n > 0 {
      WalkedPath(t, c, u, names, sky, n - 1);
      assert names[..n][..n - 1] == names[..n - 1];
    }
  }

  /** The folder chains that uploads may walk, each in the Drive of one user. */
  type Routes = iset<(UserId, seq<string>)>

  /** A walk along a chain passes through its beginnings, and no two chains of one user share a path. */
  ghost predicate Faithful(routes: Routes) {
    PrefixClosed(routes) && PathsDiffer(routes)
  }

  ghost predicate PrefixClosed(routes: Routes) {
    forall u, names {:trigger (u, names) in routes} :: (u, names) in routes && names != [] ==> (u, names[..|names| - 1]) in routes
  }

  ghost predicate PathsDiffer(routes: Routes) {
    forall u, a, b {:trigger (u, a) in routes, (u, b) in routes} ::
      (u, a) in routes && (u, b) in routes && a != [] && b != [] && PathOf(a) == PathOf(b) ==> a == b
  }

  lemma {:induction false} PrefixIn(routes: Routes, u: UserId, names: seq<string>, n: nat)
    requires PrefixClosed(routes) && (u, names) in routes && n <= |names|
    ensures (u, names[..n]) in routes
    decreases |names| - n
  {
    if n < |names| {
      PrefixIn(routes, u, names, n + 1);
      assert names[..n + 1][..n] == names[..n];
    } else {
      assert names[..n] == names;
    }
  }

  lemma NextIn(routes: Routes, u: UserId, names: seq<string>, i: nat)
    requires PrefixClosed(routes) && (u, names) in routes && i < |names|
    ensures (u, names[..i] + [names[i]]) in routes
  {
    PrefixIn(routes, u, names, i + 1);
    assert names[..i] + [names[i]] == names[..i + 1];
  }

  /** The chains of names that path.Join leaves alone. */
  ghost function PlainRoutes(): Routes {
    iset r: (UserId, seq<string>) | Plain(r.1)
  }

  /** Chains of plain names, however many, are faithful. */
  lemma PlainIsFaithful()
    ensures Faithful(PlainRoutes())
  {
    forall u: UserId, a, b | (u, a) in PlainRoutes() && (u, b) in PlainRoutes() && PathOf(a) == PathOf(b) ensures a == b {
      PathInjective(a, b);
    }
  }

  /** What the cache says about a chain is where that chain leads. */
  ghost predicate CacheOk(routes: Routes, c: Cache, drives: map<UserId, D.Tree>) {
    forall u, names :: names != [] && (u, names) in routes && (u, PathOf(names)) in c ==>
      u in drives && D.Resolve(drives[u], D.Root(u), names) == Some(c[(u, PathOf(names))])
  }

  lemma CacheOkLapses(routes: Routes, c: Cache, lapsed: set<Key>, drives: map<UserId, D.Tree>)
    requires CacheOk(routes, c, drives)
    ensures CacheOk(routes, c - lapsed, drives)
  {
    forall u, names | names != [] && (u, names) in routes && (u, PathOf(names)) in c - lapsed
      ensures u in drives && D.Resolve(drives[u], D.Root(u), names) == Some((c - lapsed)[(u, PathOf(names))])
    {
      assert (u, PathOf(names)) in c;
    }
  }

  /** Trees only grow, so a cache that is right stays right. */
  lemma CacheOkGrows(routes: Routes, c: Cache, drives: map<UserId, D.Tree>, u: UserId, tree: D.Tree)
    requires CacheOk(routes, c, drives) && u in drives && D.Extends(drives[u], tree)
    ensures CacheOk(routes, c, drives[u := tree])
  {
    forall v, names | names != [] && (v, names) in routes && (v, PathOf(names)) in c
      ensures v in drives && D.Resolve(drives[u := tree][v], D.Root(v), names) == Some(c[(v, PathOf(names))])
    {
      if v == u {
        D.ResolveSurvives(drives[u], tree, D.Root(u), names);
      }
    }
  }

  /** An entry written for a chain can only be read back for that chain. */
  lemma CacheOkSet(routes: Routes, c: Cache, drives: map<UserId, D.Tree>, u: UserId, names: seq<string>)
    requires PathsDiffer(routes) && CacheOk(routes, c, drives) && u in drives && names != [] && (u, names) in routes
    requires D.Resolve(drives[u], D.Root(u), names).Some?
    ensures CacheOk(routes, c[(u, PathOf(names)) := D.Resolve(drives[u], D.Root(u), names).value], drives)
  {
    var c' := c[(u, PathOf(names)) := D.Resolve(drives[u], D.Root(u), names).value];
    forall v, other | other != [] && (v, other) in routes && (v, PathOf(other)) in c'
      ensures v in drives && D.Resolve(drives[v], D.Root(v), other) == Some(c'[(v, PathOf(other))])
    {
      if v == u && PathOf(other) == PathOf(names) {
        assert other == names;
      } else {
        assert (v, PathOf(other)) in c;
      }
    }
  }

  /** The cached walk creates and reaches exactly the folders of the walk without a cache, whatever expires or fails. */
  lemma {:induction false} WalkAgrees(routes: Routes, drives: map<UserId, D.Tree>, c: Cache, u: UserId, names: seq<string>,
                                      sky: nat -> Weather, n: nat)
    requires Faithful(routes) && CacheOk(routes, c, drives) && u in drives && (u, names) in routes && n <= |names|
    ensures var w := Walked(drives[u], c, u, names, sky, n);
            (w.tree, w.parent) == D.EnsureAll(drives[u], D.Root(u), names[..n]) && CacheOk(routes, w.cache, drives[u := w.tree])
  {
    if n == 0 {
      assert drives[u := drives[u]] == drives;
    } else {
      WalkAgrees(routes, drives, c, u, names, sky, n - 1);
      WalkOneMore(routes, drives, c, u, names, sky, n - 1);
    }
  }

  lemma WalkOneMore(routes: Routes, drives: map<UserId, D.Tree>, c: Cache, u: UserId, names: seq<string>,
                    sky: nat -> Weather, i: nat)
    requires Faithful(routes) && u in drives && (u, names) in routes && i < |names|
    requires var w := Walked(drives[u], c, u, names, sky, i);
             (w.tree, w.parent) == D.EnsureAll(drives[u], D.Root(u), names[..i]) && CacheOk(routes, w.cache, drives[u := w.tree])
    ensures var w := Walked(drives[u], c, u, names, sky, i + 1);
            (w.tree, w.parent) == D.EnsureAll(drives[u], D.Root(u), names[..i + 1])
            && CacheOk(routes, w.cache, drives[u := w.tree])
  {
    var front, w := names[..i], Walked(drives[u], c, u, names, sky, i);
    NextIn(routes, u, names, i);
    EnsureAllOneMore(drives[u], D.Root(u), names, i);
    WalkedPath(drives[u], c, u, names, sky, i);
    D.EnsureAllResolves(drives[u], D.Root(u), front);
    StepAgrees(routes, drives[u := w.tree], w, u, front, names[i], sky(i));
    SetTwice(drives, u, w.tree, Step(w, u, names[i], sky(i)).tree);
  }

  lemma SetTwice(drives: map<UserId, D.Tree>, u: UserId, a: D.Tree, b: D.Tree)
    ensures drives[u := a][u := b] == drives[u := b]
  {
  }

  lemma EnsureAllOneMore(t: D.Tree, root: D.Node, names: seq<string>, i: nat)
    requires i < |names|
    ensures var before := D.EnsureAll(t, root, names[..i]);
            D.EnsureAll(t, root, names[..i + 1]) == D.EnsureFolder(before.0, before.1, names[i])
  {
    assert names[..i + 1][..i] == names[..i];
  }

  lemma StepAgrees(routes: Routes, drives: map<UserId, D.Tree>, w: Walk, u: UserId, front: seq<string>,
                   name: string, weather: Weather)
    requires u in drives && w.tree == drives[u] && w.path == PathOf(front) && PathsDiffer(routes) && (u, front + [name]) in routes
    requires CacheOk(routes, w.cache, drives) && D.Resolve(w.tree, D.Root(u), front) == Some(w.parent)
    ensures var w' := Step(w, u, name, weather);
            (w'.tree, w'.parent) == D.EnsureFolder(w.tree, w.parent, name) && CacheOk(routes, w'.cache, drives[u := w'.tree])
  {
    var names := front + [name];
    var cache := w.cache - weather.lapsed;
    CacheOkLapses(routes, w.cache, weather.lapsed, drives);
    assert names[..|names| - 1] == front;
    assert PathOf(names) == Extended(w.path, name);
    if !weather.getFails && (u, PathOf(names)) in cache {
      assert drives[u := w.tree] == drives;
    } else {
      var (tree, node) := D.EnsureFolder(w.tree, w.parent, name);
      CacheOkGrows(routes, cache, drives, u, tree);
      D.ResolveSurvives(w.tree, tree, D.Root(u), front);
      assert D.Resolve(tree, D.Root(u), names) == Some(node);
      CacheOkSet(routes, cache, drives[u := tree], u, names);
    }
  }

  // ----- The whole upload -----

  /** Drive and the cache after the first `k` steps of an upload: one step per folder, then one per file. */
  function Uploading(t: D.Tree, c: Cache, u: UserId, names: seq<string>, wanted: seq<D.Wanted>, sky: nat -> Weather, k: nat)
    : (D.Tree, Cache)
    requires k <= |names| + |wanted|
  {
    if k <= |names| then
      var w := Walked(t, c, u, names, sky, k);
      (w.tree, w.cache)
    else
      var w := Walked(t, c, u, names, sky, |names|);
      (D.UploadAll(w.tree, w.parent, wanted[..k - |names|]), w.cache)
  }

  lemma UploadingFiles(t: D.Tree, c: Cache, u: UserId, names: seq<string>, wanted: seq<D.Wanted>, sky: nat -> Weather, k: nat)
    requires |names| <= k <= |names| + |wanted|
    ensures var w := Walked(t, c, u, names, sky, |names|);
            Uploading(t, c, u, names, wanted, sky, k) == (D.UploadAll(w.tree, w.parent, wanted[..k - |names|]), w.cache)
  {
  }

  lemma UploadAgrees(routes: Routes, drives: map<UserId, D.Tree>, c: Cache, u: UserId, names: seq<string>, wanted: seq<D.Wanted>,
                     sky: nat -> Weather, k: nat)
    requires Faithful(routes) && CacheOk(routes, c, drives) && u in drives && (u, names) in routes && k <= |names| + |wanted|
    ensures var (tree, cache) := Uploading(drives[u], c, u, names, wanted, sky, k);
            tree == D.AfterOps(drives[u], D.Root(u), names, wanted, k) && CacheOk(routes, cache, drives[u := tree])
  {
    if k <= |names| {
      WalkAgrees(routes, drives, c, u, names, sky, k);
    } else {
      WalkAgrees(routes, drives, c, u, names, sky, |names|);
      assert names[..|names|] == names;
      var w := Walked(drives[u], c, u, names, sky, |names|);
      D.UploadAllExtends(w.tree, w.parent, wanted[..k - |names|]);
      var tree := D.UploadAll(w.tree, w.parent, wanted[..k - |names|]);
      CacheOkGrows(routes, w.cache, drives[u := w.tree], u, tree);
      assert drives[u := w.tree][u := tree] == drives[u := tree];
    }
  }

  /** An upload by some user that got through `steps` of its steps. */
  datatype Attempt = Attempt(user: UserId, names: seq<string>, wanted: seq<D.Wanted>, sky: nat -> Weather, steps: nat)

  ghost predicate Sensible(drives: map<UserId, D.Tree>, a: Attempt) {
    a.user in drives && a.steps <= |a.names| + |a.wanted|
  }

  lemma AllSensible(drives: map<UserId, D.Tree>, attempts: seq<Attempt>, tree: D.Tree)
    requires |attempts| > 0 && forall i :: 0 <= i < |attempts| ==> Sensible(drives, attempts[i])
    ensures forall i :: 0 <= i < |attempts[1..]| ==> Sensible(drives[attempts[0].user := tree], attempts[1..][i])
  {
    forall i | 0 <= i < |attempts[1..]| ensures Sensible(drives[attempts[0].user := tree], attempts[1..][i]) {
      assert Sensible(drives, attempts[i + 1]);
    }
  }

  ghost function WithCache(drives: map<UserId, D.Tree>, c: Cache, attempts: seq<Attempt>): (map<UserId, D.Tree>, Cache)
    requires forall i :: 0 <= i < |attempts| ==> Sensible(drives, attempts[i])
    decreases |attempts|
  {
    if |attempts| == 0 then (drives, c) else
      var a := attempts[0];
      assert Sensible(drives, a);
      var (tree, cache) := Uploading(drives[a.user], c, a.user, a.names, a.wanted, a.sky, a.steps);
      AllSensible(drives, attempts, tree);
      WithCache(drives[a.user := tree], cache, attempts[1..])
  }

  ghost function WithoutCache(drives: map<UserId, D.Tree>, attempts: seq<Attempt>): map<UserId, D.Tree>
    requires forall i :: 0 <= i < |attempts| ==> Sensible(drives, attempts[i])
    decreases |attempts|
  {
    if |attempts| == 0 then drives else
      var a := attempts[0];
      assert Sensible(drives, a);
      var tree := D.AfterOps(drives[a.user], D.Root(a.user), a.names, a.wanted, a.steps);
      AllSensible(drives, attempts, tree);
      WithoutCache(drives[a.user := tree], attempts[1..])
  }

  /** Over any sequence of uploads of faithful chains by any users, each cut short anywhere, with any expiry and cache
      failures: every Drive is what it would be without the cache. */
  lemma {:induction false} CacheAgreement(routes: Routes, drives: map<UserId, D.Tree>, c: Cache, attempts: seq<Attempt>)
    requires Faithful(routes) && CacheOk(routes, c, drives)
    requires forall i :: 0 <= i < |attempts| ==> Sensible(drives, attempts[i]) && (attempts[i].user, attempts[i].names) in routes
    ensures WithCache(drives, c, attempts).0 == WithoutCache(drives, attempts)
    ensures CacheOk(routes, WithCache(drives, c, attempts).1, WithCache(drives, c, attempts).0)
    decreases |attempts|
  {
    if |attempts| > 0 {
      var a := attempts[0];
      assert Sensible(drives, a);
      UploadAgrees(routes, drives, c, a.user, a.names, a.wanted, a.sky, a.steps);
      var (tree, cache) := Uploading(drives[a.user], c, a.user, a.names, a.wanted, a.sky, a.steps);
      AllSensible(drives, attempts, tree);
      CacheAgreement(routes, drives[a.user := tree], cache, attempts[1..]);
    }
  }

  /** Crash and resume with the cache in front: an upload stopped after any step and run again, under any weather both times,
      leaves the tree of one uninterrupted run without a cache; a further run changes nothing. */
  lemma CachedResume(routes: Routes, drives: map<UserId, D.Tree>, c: Cache, u: UserId, names: seq<string>, wanted: seq<D.Wanted>,
                     k: nat, sky1: nat -> Weather, sky2: nat -> Weather, sky3: nat -> Weather)
    requires Faithful(routes) && CacheOk(routes, c, drives) && u in drives && (u, names) in routes && k <= |names| + |wanted|
    ensures var total := |names| + |wanted|;
            var (t1, c1) := Uploading(drives[u], c, u, names, wanted, sky1, k);
            var (t2, c2) := Uploading(t1, c1, u, names, wanted, sky2, total);
            t2 == D.Deliver(drives[u], D.Root(u), names, wanted) && Uploading(t2, c2, u, names, wanted, sky3, total).0 == t2
  {
    var total := |names| + |wanted|;
    UploadAgrees(routes, drives, c, u, names, wanted, sky1, k);
    var (t1, c1) := Uploading(drives[u], c, u, names, wanted, sky1, k);
    UploadAgrees(routes, drives[u := t1], c1, u, names, wanted, sky2, total);
    var (t2, c2) := Uploading(t1, c1, u, names, wanted, sky2, total);
    UploadAgrees(routes, drives[u := t1][u := t2], c2, u, names, wanted, sky3, total);
    D.ResumeDelivers(drives[u], D.Root(u), names, wanted, k);
    D.RerunChangesNothing(drives[u], D.Root(u), names, wanted);
  }
}
