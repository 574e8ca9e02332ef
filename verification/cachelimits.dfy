/** For which folder chains the cache can be trusted, exactly. */
module CacheLimits {
  import opened Types
  import opened FolderPaths
  import opened CachedWalk
  import D = Drive

  const SCRATCH := D.Tree(map[], map[], 0)
  const CALM := Weather({}, false, false)

  function Calm(n: nat): Weather {
    CALM
  }

  /** With names that path.Join rewrites, the walk can end in the wrong folder: going a, "..", a from scratch,
      the cache leads back to the first folder instead of the third. */
  lemma DotsMislead(u: UserId)
    ensures Walked(SCRATCH, map[], u, ["a", "..", "a"], Calm, 3).parent == D.Item(0)
    ensures D.EnsureAll(SCRATCH, D.Root(u), ["a", "..", "a"]).1 == D.Item(2)
  {
    DotsLead(u);
    DotsCollide();
    var w1 := Step(Walk(SCRATCH, map[], D.Root(u), ""), u, "a", CALM);
    var w2 := Step(w1, u, "..", CALM);
    var w3 := Step(w2, u, "a", CALM);
    assert ["a"][..0] == [] && ["a", ".."][..1] == ["a"] && ["a", "..", "a"][..2] == ["a", ".."];
    assert PathOf(["a", ".."]) == Extended("a", "..") && PathOf(["a", "..", "a"]) == Extended(".", "a");
    var empty: Cache := map[];
    assert (u, "a") !in empty - CALM.lapsed;
    assert w1.parent == D.Item(0) && w1.path == "a" && w1.cache == map[(u, "a") := D.Item(0)];
    assert w2.path == "." && w2.cache[(u, "a")] == D.Item(0);
    assert w3.parent == D.Item(0);
    var names := ["a", "..", "a"];
    assert Walked(SCRATCH, map[], u, names, Calm, 0) == Walk(SCRATCH, map[], D.Root(u), "");
    assert Walked(SCRATCH, map[], u, names, Calm, 1) == w1;
    assert Walked(SCRATCH, map[], u, names, Calm, 2) == w2;
    assert Walked(SCRATCH, map[], u, names, Calm, 3) == w3;
  }

  lemma DotsLead(u: UserId)
    ensures D.EnsureAll(SCRATCH, D.Root(u), ["a", "..", "a"]).1 == D.Item(2)
  {
    ScratchUncached(u, ["a", "..", "a"]);
  }

  /** No two stretches of the chain, taken from its start, share a path. */
  ghost predicate DistinctPaths(names: seq<string>, n: nat)
    requires n <= |names|
  {
    forall i, j :: 1 <= i < j <= n ==> PathOf(names[..i]) != PathOf(names[..j])
  }

  /** Without a cache, a walk from scratch creates every folder of the chain below the one before. */
  lemma {:induction false} ScratchUncached(u: UserId, names: seq<string>)
    ensures var (t, node) := D.EnsureAll(SCRATCH, D.Root(u), names);
            && t.next == |names| && node == (if names == [] then D.Root(u) else D.Item(|names| - 1))
            && (forall k :: k in t.folders ==> (k.0.Item? ==> k.0.n + 1 < |names|))
            && (names == [] ==> t.folders == map[])
  {
    if names != [] {
      ScratchUncached(u, names[..|names| - 1]);
    }
  }

  ghost predicate HasPath(names: seq<string>, n: nat, path: string)
    requires n <= |names|
  {
    exists i :: 1 <= i <= n && PathOf(names[..i]) == path
  }

  lemma CalmStep(w: Walk, u: UserId, name: string)
    ensures var w', key := Step(w, u, name, CALM), (u, Extended(w.path, name));
            && w'.cache.Keys == w.cache.Keys + {key}
            && (key in w.cache ==> w'.tree == w.tree)
            && (key !in w.cache ==> (w'.tree, w'.parent) == D.EnsureFolder(w.tree, w.parent, name))
  {
    assert w.cache - CALM.lapsed == w.cache;
  }

  /** The cache holds exactly the paths walked so far. */
  lemma {:induction false} ScratchKeys(u: UserId, names: seq<string>, n: nat)
    requires n <= |names|
    ensures forall path :: (u, path) in Walked(SCRATCH, map[], u, names, Calm, n).cache <==> HasPath(names, n, path)
  {
    if n > 0 {
      ScratchKeys(u, names, n - 1);
      var w := Walked(SCRATCH, map[], u, names, Calm, n - 1);
      WalkedPath(SCRATCH, map[], u, names, Calm, n);
      CalmStep(w, u, names[n - 1]);
      forall path ensures (u, path) in Walked(SCRATCH, map[], u, names, Calm, n).cache <==> HasPath(names, n, path) {
        assert HasPath(names, n, path) <==> HasPath(names, n - 1, path) || PathOf(names[..n]) == path;
      }
    }
  }

  /** With a cache that only the walk itself fills, every repeated path saves a folder that should have been created. */
  lemma {:induction false} ScratchCached(u: UserId, names: seq<string>, n: nat)
    requires n <= |names|
    ensures var w := Walked(SCRATCH, map[], u, names, Calm, n);
            && w.tree.next <= n
            && (w.tree.next == n ==> DistinctPaths(names, n))
            && (DistinctPaths(names, n) ==> (w.tree, w.parent) == D.EnsureAll(SCRATCH, D.Root(u), names[..n]))
  {
    if n > 0 {
      ScratchCached(u, names, n - 1);
      ScratchKeys(u, names, n - 1);
      WalkedPath(SCRATCH, map[], u, names, Calm, n);
      EnsureAllOneMore(SCRATCH, D.Root(u), names, n - 1);
      CalmStep(Walked(SCRATCH, map[], u, names, Calm, n - 1), u, names[n - 1]);
      DistinctOneMore(names, n);
    }
  }

  lemma DistinctOneMore(names: seq<string>, n: nat)
    requires 0 < n <= |names|
    ensures DistinctPaths(names, n) <==> DistinctPaths(names, n - 1) && !HasPath(names, n - 1, PathOf(names[..n]))
  {
  }

  /** Exactly when: from scratch and with nothing expiring, the cached walk builds the tree of the uncached one
      if and only if the paths of the chain are pairwise different. */
  lemma ScratchAgreesExactly(u: UserId, names: seq<string>)
    ensures Walked(SCRATCH, map[], u, names, Calm, |names|).tree == D.EnsureAll(SCRATCH, D.Root(u), names).0
            <==> DistinctPaths(names, |names|)
  {
    ScratchUncached(u, names);
    ScratchCached(u, names, |names|);
    assert names[..|names|] == names;
  }

  // ----- Any sequence of uploads -----

  /** A tree that find-or-create has built: folders are created once, below the root or below folders created earlier. */
  ghost predicate Built(t: D.Tree) {
    && (forall k :: k in t.folders ==> t.folders[k].Item? && t.folders[k].n < t.next && (k.0.Item? ==> k.0.n < t.next))
    && (forall k, l :: k in t.folders && l in t.folders && t.folders[k] == t.folders[l] ==> k == l)
  }

  lemma BuiltGrows(t: D.Tree, parent: D.Node, name: string)
    requires Built(t) && (parent.Item? ==> parent.n < t.next)
    ensures var (t', node) := D.EnsureFolder(t, parent, name); Built(t') && node.Item? && node.n < t'.next && t.next <= t'.next
  {
  }

  lemma {:induction false} EnsureAllBuilt(t: D.Tree, u: UserId, names: seq<string>)
    requires Built(t)
    ensures var (t', node) := D.EnsureAll(t, D.Root(u), names); Built(t') && (node.Item? ==> node.n < t'.next)
  {
    if names != [] {
      var front := names[..|names| - 1];
      EnsureAllBuilt(t, u, front);
      var (t', node) := D.EnsureAll(t, D.Root(u), front);
      BuiltGrows(t', node, names[|names| - 1]);
    }
  }

  /** In a built tree different chains lead to different folders. */
  lemma {:induction false} ResolveInjective(t: D.Tree, u: UserId, a: seq<string>, b: seq<string>)
    requires Built(t) && D.Resolve(t, D.Root(u), a).Some? && D.Resolve(t, D.Root(u), a) == D.Resolve(t, D.Root(u), b)
    ensures a == b
    decreases |a|
  {
    if a != [] && b != [] {
      var fa, fb := a[..|a| - 1], b[..|b| - 1];
      var ka := (D.Resolve(t, D.Root(u), fa).value, a[|a| - 1]);
      var kb := (D.Resolve(t, D.Root(u), fb).value, b[|b| - 1]);
      assert ka in t.folders && kb in t.folders && t.folders[ka] == t.folders[kb];
      ResolveInjective(t, u, fa, fb);
      assert a == fa + [a[|a| - 1]] && b == fb + [b[|b| - 1]];
    } else {
      NotRoot(t, u, a);
      NotRoot(t, u, b);
    }
  }

  lemma NotRoot(t: D.Tree, u: UserId, names: seq<string>)
    requires Built(t)
    ensures D.Resolve(t, D.Root(u), names).Some? ==> (D.Resolve(t, D.Root(u), names).value.Root? <==> names == [])
  {
  }

  lemma NewFolder(t: D.Tree, u: UserId, chain: seq<string>, name: string)
    requires Built(t) && D.Resolve(t, D.Root(u), chain).Some?
    requires (D.Resolve(t, D.Root(u), chain).value, name) !in t.folders
    ensures var t' := D.EnsureFolder(t, D.Resolve(t, D.Root(u), chain).value, name).0;
            && D.Extends(t, t') && D.Resolve(t', D.Root(u), chain + [name]) == Some(D.Item(t.next))
            && forall n :: (D.Item(t.next), n) !in t'.folders
  {
    var t' := D.EnsureFolder(t, D.Resolve(t, D.Root(u), chain).value, name).0;
    D.ResolveSurvives(t, t', D.Root(u), chain);
    assert (chain + [name])[..|chain|] == chain;
    ParentExists(t, u, chain);
  }

  /** Creating one folder makes one more chain exist. */
  lemma {:induction false} OneMoreChain(t: D.Tree, u: UserId, chain: seq<string>, name: string, x: seq<string>)
    requires Built(t) && D.Resolve(t, D.Root(u), chain).Some?
    requires (D.Resolve(t, D.Root(u), chain).value, name) !in t.folders
    requires D.Resolve(D.EnsureFolder(t, D.Resolve(t, D.Root(u), chain).value, name).0, D.Root(u), x).Some?
    ensures D.Resolve(t, D.Root(u), x).Some? || x == chain + [name]
    decreases |x|
  {
    var root, parent := D.Root(u), D.Resolve(t, D.Root(u), chain).value;
    var t' := D.EnsureFolder(t, parent, name).0;
    if x != [] {
      var front, last := x[..|x| - 1], x[|x| - 1];
      OneMoreChain(t, u, chain, name, front);
      NewFolder(t, u, chain, name);
      if D.Resolve(t, root, front).Some? {
        D.ResolveSurvives(t, t', root, front);
        LastStep(t, u, chain, name, front, last);
        assert x == front + [last];
      }
    }
  }

  lemma LastStep(t: D.Tree, u: UserId, chain: seq<string>, name: string, front: seq<string>, last: string)
    requires Built(t) && D.Resolve(t, D.Root(u), chain).Some? && D.Resolve(t, D.Root(u), front).Some?
    requires (D.Resolve(t, D.Root(u), front).value, last)
             in D.EnsureFolder(t, D.Resolve(t, D.Root(u), chain).value, name).0.folders
    ensures (D.Resolve(t, D.Root(u), front).value, last) in t.folders || (front == chain && last == name)
  {
    if D.Resolve(t, D.Root(u), front) == D.Resolve(t, D.Root(u), chain) {
      ResolveInjective(t, u, front, chain);
    }
  }

  lemma ParentExists(t: D.Tree, u: UserId, chain: seq<string>)
    requires Built(t) && D.Resolve(t, D.Root(u), chain).Some?
    ensures D.Resolve(t, D.Root(u), chain).value.Item? ==> D.Resolve(t, D.Root(u), chain).value.n < t.next
  {
  }

  /** Find-or-create along a chain makes only its own beginnings exist. */
  lemma {:induction false} OnlyPrefixes(t: D.Tree, u: UserId, names: seq<string>, x: seq<string>)
    requires Built(t) && D.Resolve(D.EnsureAll(t, D.Root(u), names).0, D.Root(u), x).Some?
    ensures D.Resolve(t, D.Root(u), x).Some? || x <= names
    decreases |names|
  {
    if names != [] {
      var front, name := names[..|names| - 1], names[|names| - 1];
      var t1 := D.EnsureAll(t, D.Root(u), front).0;
      EnsureAllBuilt(t, u, front);
      D.EnsureAllResolves(t, D.Root(u), front);
      if (D.Resolve(t1, D.Root(u), front).value, name) !in t1.folders {
        OneMoreChain(t1, u, front, name, x);
      }
      if D.Resolve(t1, D.Root(u), x).Some? {
        OnlyPrefixes(t, u, front, x);
      }
      assert front + [name] == names;
    }
  }

  lemma {:induction false} ScratchIsBare(u: UserId, x: seq<string>)
    ensures D.Resolve(SCRATCH, D.Root(u), x).Some? <==> x == []
  {
    if x != [] {
      ScratchIsBare(u, x[..|x| - 1]);
    }
  }

  /** One complete walk by one user with nothing expiring or failing. */
  function Visit(u: UserId, names: seq<string>): Attempt {
    Attempt(u, names, [], Calm, |names|)
  }

  lemma {:induction false} CalmKeeps(t: D.Tree, c: Cache, u: UserId, names: seq<string>, n: nat)
    requires n <= |names|
    ensures var w := Walked(t, c, u, names, Calm, n);
            c.Keys <= w.cache.Keys && forall i :: 1 <= i <= n ==> (u, PathOf(names[..i])) in w.cache
  {
    if n > 0 {
      CalmKeeps(t, c, u, names, n - 1);
      WalkedPath(t, c, u, names, Calm, n);
      CalmStep(Walked(t, c, u, names, Calm, n - 1), u, names[n - 1]);
    }
  }

  lemma {:induction false} WalkedFront(t: D.Tree, c: Cache, u: UserId, names: seq<string>, m: nat, n: nat)
    requires n <= m <= |names|
    ensures Walked(t, c, u, names[..m], Calm, n) == Walked(t, c, u, names, Calm, n)
  {
    if n > 0 {
      WalkedFront(t, c, u, names, m, n - 1);
    }
  }

  /** A walk whose path is already cached creates no last folder. */
  lemma CachedEnd(t: D.Tree, c: Cache, u: UserId, b: seq<string>)
    requires b != [] && (u, PathOf(b)) in c
    ensures Walked(t, c, u, b, Calm, |b|).tree == Walked(t, c, u, b[..|b| - 1], Calm, |b| - 1).tree
  {
    CalmKeeps(t, c, u, b, |b| - 1);
    WalkedPath(t, c, u, b, Calm, |b|);
    assert b[..|b|] == b;
    CalmStep(Walked(t, c, u, b, Calm, |b| - 1), u, b[|b| - 1]);
    WalkedFront(t, c, u, b, |b| - 1, |b| - 1);
  }

  // ----- Slashes -----

  /** After a calm step the cache leads to where the walk is. */
  lemma CalmRemembers(w: Walk, u: UserId, name: string)
    ensures var w' := Step(w, u, name, CALM); (u, w'.path) in w'.cache && w'.cache[(u, w'.path)] == w'.parent
  {
    assert w.cache - CALM.lapsed == w.cache;
  }

  /** A walk whose paths are all cached creates nothing. */
  lemma {:induction false} AllCached(t: D.Tree, c: Cache, u: UserId, names: seq<string>, n: nat)
    requires n <= |names| && forall i :: 1 <= i <= n ==> (u, PathOf(names[..i])) in c
    ensures var w := Walked(t, c, u, names, Calm, n);
            w.tree == t && w.cache == c && (n > 0 ==> w.parent == c[(u, PathOf(names[..n]))])
  {
    WalkedPath(t, c, u, names, Calm, n);
    if n > 0 {
      AllCached(t, c, u, names, n - 1);
      assert c - CALM.lapsed == c;
    }
  }

  /** The beginnings of a chain whose names are plain but for slashes in the last one have different paths. */
  lemma SlashDistinct(front: seq<string>, p: string, q: string)
    requires front != [] && Plain(front) && PlainName(p) && PlainName(q)
    ensures DistinctPaths(front + [p + "/" + q], |front| + 1)
  {
    var names, plain := front + [p + "/" + q], front + [p, q];
    SlashesCollide(front, p, q);
    forall i, j | 1 <= i < j <= |names| ensures PathOf(names[..i]) != PathOf(names[..j]) {
      var b := if j < |names| then plain[..j] else plain;
      assert names[..i] == plain[..i] && names[..j] == if j < |names| then b else names;
      if PathOf(names[..i]) == PathOf(names[..j]) {
        PathInjective(plain[..i], b);
        assert false;
      }
    }
  }

  lemma SamePaths(front: seq<string>, p: string, q: string, one: seq<string>, two: seq<string>)
    requires front != [] && Plain(front) && PlainName(p) && PlainName(q)
    requires one == front + [p + "/" + q] && two == front + [p + "//" + q]
    ensures |one| == |two| && forall i :: 1 <= i <= |two| ==> PathOf(two[..i]) == PathOf(one[..i])
  {
    SlashesCollide(front, p, q);
    assert one[..|one|] == one && two[..|two|] == two;
    forall i | 1 <= i <= |two| ensures PathOf(two[..i]) == PathOf(one[..i]) {
      assert i < |two| ==> two[..i] == one[..i];
    }
  }

  /** After a calm walk from scratch the cache has all its paths, the last one with where it has come to. */
  lemma CalmWalk(u: UserId, names: seq<string>)
    requires names != []
    ensures var w := Walked(SCRATCH, map[], u, names, Calm, |names|);
            && (forall i :: 1 <= i <= |names| ==> (u, PathOf(names[..i])) in w.cache)
            && w.cache[(u, PathOf(names[..|names|]))] == w.parent
  {
    CalmKeeps(SCRATCH, map[], u, names, |names|);
    WalkedPath(SCRATCH, map[], u, names, Calm, |names|);
    CalmRemembers(Walked(SCRATCH, map[], u, names, Calm, |names| - 1), u, names[|names| - 1]);
  }

  /** The first walk is right, and every path of the second is cached then, the last one with the first's folder. */
  lemma FirstWalk(u: UserId, front: seq<string>, p: string, q: string, one: seq<string>, two: seq<string>)
    requires front != [] && Plain(front) && PlainName(p) && PlainName(q)
    requires one == front + [p + "/" + q] && two == front + [p + "//" + q]
    ensures var first := Walked(SCRATCH, map[], u, one, Calm, |one|);
            && first.tree == D.EnsureAll(SCRATCH, D.Root(u), one).0
            && (forall i :: 1 <= i <= |two| ==> (u, PathOf(two[..i])) in first.cache)
            && first.cache[(u, PathOf(two[..|two|]))] == first.parent
  {
    SlashDistinct(front, p, q);
    ScratchAgreesExactly(u, one);
    CalmWalk(u, one);
    SamePaths(front, p, q, one, two);
  }

  /** Slashes in a name mislead: of two chains that differ only in the number of slashes in the last name, the first is
      walked rightly from scratch, and then the second ends in the folder of the first, and its own is never created. */
  lemma SlashMisleads(u: UserId, front: seq<string>, p: string, q: string)
    requires front != [] && Plain(front) && PlainName(p) && PlainName(q)
    ensures var one, two := front + [p + "/" + q], front + [p + "//" + q];
            var first := Walked(SCRATCH, map[], u, one, Calm, |one|);
            var second := Walked(first.tree, first.cache, u, two, Calm, |two|);
            && first.tree == D.EnsureAll(SCRATCH, D.Root(u), one).0
            && second.parent == first.parent && D.Resolve(second.tree, D.Root(u), two).None?
  {
    var one, two := front + [p + "/" + q], front + [p + "//" + q];
    var first := Walked(SCRATCH, map[], u, one, Calm, |one|);
    FirstWalk(u, front, p, q, one, two);
    AllCached(first.tree, first.cache, u, two, |two|);
    SlashesCollide(front, p, q);
    NoSuchFolder(u, one, two);
  }

  lemma NoSuchFolder(u: UserId, one: seq<string>, two: seq<string>)
    requires |one| == |two| > 0 && one != two
    ensures D.Resolve(D.EnsureAll(SCRATCH, D.Root(u), one).0, D.Root(u), two).None?
  {
    ScratchIsBare(u, two);
    if D.Resolve(D.EnsureAll(SCRATCH, D.Root(u), one).0, D.Root(u), two).Some? {
      OnlyPrefixes(SCRATCH, u, one, two);
      assert false;
    }
  }

  ghost predicate AgreeOn(u: UserId, a: seq<string>, b: seq<string>) {
    var first := Walked(SCRATCH, map[], u, a, Calm, |a|);
    && first.tree == D.EnsureAll(SCRATCH, D.Root(u), a).0
    && Walked(first.tree, first.cache, u, b, Calm, |b|).tree == D.EnsureAll(first.tree, D.Root(u), b).0
  }

  /** If both walks agree, the second chain exists before its last folder has been looked for. */
  lemma AlreadyThere(u: UserId, a: seq<string>, b: seq<string>)
    requires a != [] && b != [] && PathOf(a) == PathOf(b)
    requires AgreeOn(u, a, b) && AgreeOn(u, a, b[..|b| - 1])
    ensures var t := D.EnsureAll(SCRATCH, D.Root(u), a).0;
            D.Resolve(D.EnsureAll(t, D.Root(u), b[..|b| - 1]).0, D.Root(u), b).Some?
  {
    var first := Walked(SCRATCH, map[], u, a, Calm, |a|);
    CalmKeeps(SCRATCH, map[], u, a, |a|);
    assert a[..|a|] == a;
    CachedEnd(first.tree, first.cache, u, b);
    D.EnsureAllResolves(first.tree, D.Root(u), b);
  }

  lemma NotYetThere(u: UserId, a: seq<string>, b: seq<string>)
    requires b != [] && !(b <= a)
    ensures var t := D.EnsureAll(SCRATCH, D.Root(u), a).0;
            D.Resolve(D.EnsureAll(t, D.Root(u), b[..|b| - 1]).0, D.Root(u), b).None?
  {
    var t, front := D.EnsureAll(SCRATCH, D.Root(u), a).0, b[..|b| - 1];
    EnsureAllBuilt(SCRATCH, u, a);
    ScratchIsBare(u, b);
    if D.Resolve(D.EnsureAll(t, D.Root(u), front).0, D.Root(u), b).Some? {
      OnlyPrefixes(t, u, front, b);
      OnlyPrefixes(SCRATCH, u, a, b);
    }
  }

  // ----- The exact condition -----

  /** Any sequence of complete walks along chains of the set, from empty Drives and an empty cache with nothing expiring
      or failing, leaves every Drive as it would be without the cache. */
  ghost predicate AlwaysAgrees(routes: Routes) {
    forall users: set<UserId>, visits: seq<(UserId, seq<string>)> :: From(routes, users, visits) ==> Agrees(users, visits)
  }

  ghost predicate From(routes: Routes, users: set<UserId>, visits: seq<(UserId, seq<string>)>) {
    ByUsers(users, visits) && forall i :: 0 <= i < |visits| ==> visits[i] in routes
  }

  predicate ByUsers(users: set<UserId>, visits: seq<(UserId, seq<string>)>) {
    forall i :: 0 <= i < |visits| ==> visits[i].0 in users
  }

  function Attempts(visits: seq<(UserId, seq<string>)>): (r: seq<Attempt>)
    ensures |r| == |visits|
  {
    if visits == [] then [] else [Visit(visits[0].0, visits[0].1)] + Attempts(visits[1..])
  }

  lemma {:induction false} AttemptAt(visits: seq<(UserId, seq<string>)>, i: nat)
    requires i < |visits|
    ensures Attempts(visits)[i] == Visit(visits[i].0, visits[i].1)
  {
    if i > 0 {
      AttemptAt(visits[1..], i - 1);
    }
  }

  function EmptyDrives(users: set<UserId>): map<UserId, D.Tree> {
    map u | u in users :: SCRATCH
  }

  lemma VisitsSensible(users: set<UserId>, visits: seq<(UserId, seq<string>)>)
    requires ByUsers(users, visits)
    ensures forall i :: 0 <= i < |Attempts(visits)| ==> Sensible(EmptyDrives(users), Attempts(visits)[i])
  {
    forall i | 0 <= i < |visits| ensures Sensible(EmptyDrives(users), Attempts(visits)[i]) {
      AttemptAt(visits, i);
    }
  }

  ghost predicate Agrees(users: set<UserId>, visits: seq<(UserId, seq<string>)>)
    requires ByUsers(users, visits)
  {
    VisitsSensible(users, visits);
    WithCache(EmptyDrives(users), map[], Attempts(visits)).0 == WithoutCache(EmptyDrives(users), Attempts(visits))
  }

  lemma FaithfulAgrees(routes: Routes, users: set<UserId>, visits: seq<(UserId, seq<string>)>)
    requires Faithful(routes) && From(routes, users, visits)
    ensures Agrees(users, visits)
  {
    var attempts, empty: Cache := Attempts(visits), map[];
    forall i | 0 <= i < |attempts|
      ensures Sensible(EmptyDrives(users), attempts[i]) && (attempts[i].user, attempts[i].names) in routes
    {
      AttemptAt(visits, i);
    }
    CacheAgreement(routes, EmptyDrives(users), empty, attempts);
  }

  lemma OneAttempt(drives: map<UserId, D.Tree>, c: Cache, u: UserId, a: seq<string>)
    requires u in drives
    ensures Attempts([(u, a)]) == [Visit(u, a)] && Sensible(drives, Visit(u, a))
    ensures var w := Walked(drives[u], c, u, a, Calm, |a|);
            && WithCache(drives, c, [Visit(u, a)]) == (drives[u := w.tree], w.cache)
            && WithoutCache(drives, [Visit(u, a)]) == drives[u := D.EnsureAll(drives[u], D.Root(u), a).0]
  {
    var visits := [(u, a)];
    assert visits[1..] == [] && Attempts(visits) == [Visit(u, a)] + Attempts([]);
    var attempts := [Visit(u, a)];
    assert attempts[1..] == [] && a[..|a|] == a;
    assert Sensible(drives, attempts[0]);
  }

  lemma TwoAttempts(u: UserId, a: seq<string>, b: seq<string>)
    ensures Attempts([(u, a), (u, b)]) == [Visit(u, a), Visit(u, b)]
  {
    var visits := [(u, a), (u, b)];
    assert visits[1..] == [(u, b)] && [(u, b)][1..] == [];
    assert Attempts(visits[1..]) == [Visit(u, b)] + Attempts([]);
  }

  lemma FirstAttempt(drives: map<UserId, D.Tree>, c: Cache, u: UserId, a: seq<string>, b: seq<string>)
    requires u in drives && Sensible(drives, Visit(u, a)) && Sensible(drives, Visit(u, b))
    ensures var w, attempts := Walked(drives[u], c, u, a, Calm, |a|), [Visit(u, a), Visit(u, b)];
            && WithCache(drives, c, attempts) == WithCache(drives[u := w.tree], w.cache, [Visit(u, b)])
            && WithoutCache(drives, attempts)
               == WithoutCache(drives[u := D.EnsureAll(drives[u], D.Root(u), a).0], [Visit(u, b)])
  {
    var attempts := [Visit(u, a), Visit(u, b)];
    assert attempts[0] == Visit(u, a) && attempts[1..] == [Visit(u, b)] && a[..|a|] == a;
  }

  /** What agreement says of one user walking two chains. */
  lemma TwoVisits(u: UserId, a: seq<string>, b: seq<string>)
    requires Agrees({u}, [(u, a)]) && Agrees({u}, [(u, a), (u, b)])
    ensures AgreeOn(u, a, b)
  {
    var drives := EmptyDrives({u});
    var first := Walked(SCRATCH, map[], u, a, Calm, |a|);
    OneAttempt(drives, map[], u, a);
    assert drives[u := first.tree][u] == first.tree;
    TwoAttempts(u, a, b);
    OneAttempt(drives, map[], u, b);
    FirstAttempt(drives, map[], u, a, b);
    OneAttempt(drives[u := first.tree], first.cache, u, b);
    var second := Walked(first.tree, first.cache, u, b, Calm, |b|);
    assert drives[u := first.tree][u := second.tree][u] == second.tree;
  }

  lemma PairAgrees(routes: Routes, u: UserId, a: seq<string>, b: seq<string>)
    requires AlwaysAgrees(routes) && (u, a) in routes && (u, b) in routes
    ensures AgreeOn(u, a, b)
  {
    assert From(routes, {u}, [(u, a)]);
    assert From(routes, {u}, [(u, a), (u, b)]);
    TwoVisits(u, a, b);
  }

  lemma AgreesDiffers(routes: Routes, u: UserId, a: seq<string>, b: seq<string>)
    requires PrefixClosed(routes) && AlwaysAgrees(routes) && (u, a) in routes && (u, b) in routes
    requires a != [] && b != [] && !(b <= a)
    ensures PathOf(a) != PathOf(b)
  {
    PairAgrees(routes, u, a, b);
    PairAgrees(routes, u, a, b[..|b| - 1]);
    NotYetThere(u, a, b);
    if PathOf(a) == PathOf(b) {
      AlreadyThere(u, a, b);
    }
  }

  /** Exactly when the cache can be trusted: for a set of chains of users closed under beginnings, every sequence of walks from
      empty Drives and an empty cache agrees with the walks without a cache if and only if no two chains of
      one user share a path. CacheAgreement says that then even expiry, cache failures and uploads cut short do no harm. */
  lemma AgreesExactly(routes: Routes)
    requires PrefixClosed(routes)
    ensures AlwaysAgrees(routes) <==> PathsDiffer(routes)
  {
    if PathsDiffer(routes) {
      forall users: set<UserId>, visits: seq<(UserId, seq<string>)> | From(routes, users, visits)
        ensures Agrees(users, visits)
      {
        FaithfulAgrees(routes, users, visits);
      }
    }
    if AlwaysAgrees(routes) {
      forall u: UserId, a, b | (u, a) in routes && (u, b) in routes && a != [] && b != [] && PathOf(a) == PathOf(b)
        ensures a == b
      {
        if !(b <= a) {
          AgreesDiffers(routes, u, a, b);
        } else if !(a <= b) {
          AgreesDiffers(routes, u, b, a);
        }
      }
    }
  }
}
