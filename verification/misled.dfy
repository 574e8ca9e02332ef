/** How two chains with one cache path lead an upload into the wrong folder, as walks. */
module Misled {
  import opened Types
  import opened FolderPaths
  import opened CachedWalk
  import opened CacheLimits
  import D = Drive

  /** The cache cannot be read, but written. */
  const WRITING := Weather({}, true, false)
  /** The cache cannot be written, and not read either but in step number k. */
  function Reading(k: nat): nat -> Weather {
    i => Weather({}, i != k, true)
  }

  function Writing(n: nat): Weather {
    WRITING
  }

  /** A walk that only writes the cache follows the chain, and leaves behind where it leads. */
  lemma {:induction false} WritingWalk(t: D.Tree, c: Cache, u: UserId, names: seq<string>, n: nat)
    requires n <= |names|
    ensures var w := Walked(t, c, u, names, Writing, n);
            && (w.tree, w.parent) == D.EnsureAll(t, D.Root(u), names[..n]) && w.path == PathOf(names[..n])
            && (n > 0 ==> (u, w.path) in w.cache && w.cache[(u, w.path)] == w.parent)
  {
    WalkedPath(t, c, u, names, Writing, n);
    if n > 0 {
      WritingWalk(t, c, u, names, n - 1);
      EnsureAllOneMore(t, D.Root(u), names, n - 1);
    }
  }

  /** Before it can read the cache, the second walk follows its chain too. */
  lemma {:induction false} BeforeReading(t: D.Tree, c: Cache, u: UserId, names: seq<string>, k: nat, n: nat)
    requires n <= k <= |names|
    ensures var w := Walked(t, c, u, names, Reading(k), n);
            (w.tree, w.parent) == D.EnsureAll(t, D.Root(u), names[..n]) && w.cache == c && w.path == PathOf(names[..n])
  {
    WalkedPath(t, c, u, names, Reading(k), n);
    if n > 0 {
      BeforeReading(t, c, u, names, k, n - 1);
      EnsureAllOneMore(t, D.Root(u), names, n - 1);
      assert c - {} == c;
    }
  }

  /** In step number k it is led to where the cache says. */
  lemma Led(t: D.Tree, c: Cache, u: UserId, names: seq<string>, k: nat, other: seq<string>)
    requires k < |names| && (u, PathOf(names[..k + 1])) in c
    requires D.Resolve(t, D.Root(u), other) == Some(c[(u, PathOf(names[..k + 1]))])
    ensures var w := Walked(t, c, u, names, Reading(k), k + 1);
            var t1 := D.EnsureAll(t, D.Root(u), names[..k]).0;
            (w.tree, w.parent) == D.EnsureAll(t1, D.Root(u), other) && w.cache == c
  {
    var t1 := D.EnsureAll(t, D.Root(u), names[..k]).0;
    BeforeReading(t, c, u, names, k, k);
    WalkedPath(t, c, u, names, Reading(k), k + 1);
    assert c - {} == c;
    D.EnsureAllResolves(t, D.Root(u), names[..k]);
    D.ResolveSurvives(t, t1, D.Root(u), other);
    D.EnsureAllIdempotent(t1, D.Root(u), other);
  }

  /** A step that cannot use the cache. */
  lemma LookUp(w: Walk, u: UserId, name: string)
    ensures var w' := Step(w, u, name, Weather({}, true, true));
            (w'.tree, w'.parent) == D.EnsureFolder(w.tree, w.parent, name) && w'.cache == w.cache
  {
    assert w.cache - {} == w.cache;
  }

  lemma EnsureAllSnoc(t: D.Tree, root: D.Node, names: seq<string>, name: string)
    ensures var (t', node) := D.EnsureAll(t, root, names); D.EnsureAll(t, root, names + [name]) == D.EnsureFolder(t', node, name)
  {
    assert (names + [name])[..|names|] == names;
  }

  lemma OneNameMore(names: seq<string>, a: nat, n: nat, other: seq<string>)
    requires a < n <= |names|
    ensures other + names[a..n] == other + names[a..n - 1] + [names[n - 1]]
  {
    assert names[a..n] == names[a..n - 1] + [names[n - 1]];
  }

  /** Where a walk is that follows the rest of `names` from the place of another chain. */
  predicate Astray(w: Walk, u: UserId, t1: D.Tree, other: seq<string>, rest: seq<string>) {
    (w.tree, w.parent) == D.EnsureAll(t1, D.Root(u), other + rest)
  }

  lemma AstrayOn(w: Walk, u: UserId, t1: D.Tree, other: seq<string>, names: seq<string>, a: nat, n: nat)
    requires a < n <= |names| && Astray(w, u, t1, other, names[a..n - 1])
    ensures Astray(Step(w, u, names[n - 1], Weather({}, true, true)), u, t1, other, names[a..n])
  {
    LookUp(w, u, names[n - 1]);
    EnsureAllSnoc(t1, D.Root(u), other + names[a..n - 1], names[n - 1]);
    OneNameMore(names, a, n, other);
  }

  /** It goes on from there. */
  lemma {:induction false} AfterReading(t: D.Tree, c: Cache, u: UserId, names: seq<string>, k: nat, n: nat, t1: D.Tree,
                                        other: seq<string>)
    requires k < n <= |names| && Astray(Walked(t, c, u, names, Reading(k), k + 1), u, t1, other, [])
    ensures Astray(Walked(t, c, u, names, Reading(k), n), u, t1, other, names[k + 1..n])
  {
    if n == k + 1 {
      assert names[n..n] == [];
    } else {
      AfterReading(t, c, u, names, k, n - 1, t1, other);
      AstrayOn(Walked(t, c, u, names, Reading(k), n - 1), u, t1, other, names, k + 1, n);
    }
  }

  /** The second walk never creates the folder its chain names. */
  lemma NeverCreated(t: D.Tree, u: UserId, names: seq<string>, k: nat, other: seq<string>)
    requires k < |names| && !(names[..k + 1] <= other) && t == D.EnsureAll(SCRATCH, D.Root(u), other).0
    ensures D.Resolve(D.EnsureAll(D.EnsureAll(t, D.Root(u), names[..k]).0, D.Root(u), other + names[k + 1..]).0,
                      D.Root(u), names).None?
  {
    var t1 := D.EnsureAll(t, D.Root(u), names[..k]).0;
    EnsureAllBuilt(SCRATCH, u, other);
    EnsureAllBuilt(t, u, names[..k]);
    if D.Resolve(D.EnsureAll(t1, D.Root(u), other + names[k + 1..]).0, D.Root(u), names).Some? {
      OnlyPrefixes(t1, u, other + names[k + 1..], names);
      if names <= other + names[k + 1..] {
        NotABeginning(names, k, other);
        assert false;
      }
      OnlyPrefixes(t, u, names[..k], names);
      OnlyPrefixes(SCRATCH, u, other, names);
      ScratchIsBare(u, names);
      assert false;
    }
  }

  lemma NotABeginning(names: seq<string>, k: nat, other: seq<string>)
    requires k < |names| && names <= other + names[k + 1..]
    ensures names[..k + 1] <= other
  {
    assert |names| <= |other| + |names| - (k + 1);
    assert names[..k + 1] == (other + names[k + 1..])[..k + 1] == other[..k + 1];
  }

  /** The first walk stops after n steps with this tree and this cache; the second one goes all the way with them, and
      the folder its chain names does not exist. */
  lemma SecondIsLost(u: UserId, first: seq<string>, n: nat, names: seq<string>, k: nat, files: seq<D.Wanted>)
    requires 0 < n <= |first| && k < |names|
    requires PathOf(first[..n]) == PathOf(names[..k + 1]) && !(names[..k + 1] <= first[..n])
    ensures var w := Walked(SCRATCH, map[], u, first, Writing, n);
            var w2 := Walked(w.tree, w.cache, u, names, Reading(k), |names|);
            D.Resolve(D.UploadAll(w2.tree, w2.parent, files), D.Root(u), names).None?
  {
    var w := Walked(SCRATCH, map[], u, first, Writing, n);
    WritingWalk(SCRATCH, map[], u, first, n);
    LostWalk(w.tree, w.cache, u, first[..n], names, k);
    NeverCreated(w.tree, u, names, k, first[..n]);
    var w2 := Walked(w.tree, w.cache, u, names, Reading(k), |names|);
    D.UploadAllExtends(w2.tree, w2.parent, files);
    SameFolders(w2.tree, D.UploadAll(w2.tree, w2.parent, files), D.Root(u), names);
  }

  /** The whole second walk. */
  lemma LostWalk(t: D.Tree, c: Cache, u: UserId, other: seq<string>, names: seq<string>, k: nat)
    requires k < |names| && (u, PathOf(names[..k + 1])) in c
    requires t == D.EnsureAll(SCRATCH, D.Root(u), other).0
    requires c[(u, PathOf(names[..k + 1]))] == D.EnsureAll(SCRATCH, D.Root(u), other).1
    ensures Walked(t, c, u, names, Reading(k), |names|).tree
            == D.EnsureAll(D.EnsureAll(t, D.Root(u), names[..k]).0, D.Root(u), other + names[k + 1..]).0
  {
    var t1 := D.EnsureAll(t, D.Root(u), names[..k]).0;
    D.EnsureAllResolves(SCRATCH, D.Root(u), other);
    Led(t, c, u, names, k, other);
    assert other + [] == other;
    AfterReading(t, c, u, names, k, |names|, t1, other);
    assert names[k + 1..|names|] == names[k + 1..];
  }

  lemma {:induction false} SameFolders(t: D.Tree, t': D.Tree, root: D.Node, names: seq<string>)
    requires t'.folders == t.folders
    ensures D.Resolve(t', root, names) == D.Resolve(t, root, names)
  {
    if names != [] {
      SameFolders(t, t', root, names[..|names| - 1]);
    }
  }

  // ----- Slashes in a sender's address -----

  /** The folders of a day, below which each email has its own. */
  const DAY := ["2026", "April 2026", "18 April 2026 (Saturday)"]

  function First(): seq<string> {
    DAY + ["Hi - a/b@x (09:30)"]
  }

  function Second(): seq<string> {
    DAY + ["Hi - a//b@x (09:30)"]
  }

  lemma DayIsPlain()
    ensures Plain(DAY) && "email.pdf" !in DAY
  {
    assert PlainName(DAY[0]) && PlainName(DAY[1]) && PlainName(DAY[2]);
    assert |DAY[0]| == 4 && |DAY[1]| == 10 && |DAY[2]| == 24 && |"email.pdf"| == 9;
  }

  lemma SendersCollide()
    ensures |First()| == |Second()| == 4 && PathOf(First()[..4]) == PathOf(Second()[..3 + 1])
    ensures !(Second()[..3 + 1] <= First()[..4]) && "email.pdf" !in First() && "email.pdf" !in Second()
  {
    var p, q := "Hi - a", "b@x (09:30)";
    var x, y := "Hi - a/b@x (09:30)", "Hi - a//b@x (09:30)";
    assert p + "/" + q == x && p + "//" + q == y;
    DayIsPlain();
    SlashesCollide(DAY, p, q);
    assert First()[..4] == First() && Second()[..3 + 1] == Second() && First()[3] == x && Second()[3] == y;
    assert |x| == 18 && |y| == 19 && |"email.pdf"| == 9;
  }
}
