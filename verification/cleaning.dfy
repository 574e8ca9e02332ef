/** What path.Clean and path.Join promise, of the functions that model them: the text they return is in normal form and leads
    where the text they are given leads. */
module Cleaning {
  import opened FolderPaths

  predicate Rooted(s: string) {
    s != "" && s[0] == '/'
  }

  /** An element that names something. */
  predicate Ordinary(e: string) {
    e != "" && e != "." && e != ".."
  }

  /** Any system of directories in which ".." undoes going down by a name, and leads from the root to itself. */
  ghost predicate Directories<N(!new)>(root: N, up: N -> N, down: (N, string) -> N) {
    up(root) == root && forall d, e :: Ordinary(e) ==> up(down(d, e)) == d
  }

  /** Where the elements lead from a directory. */
  function Follow<N>(parts: seq<string>, d: N, up: N -> N, down: (N, string) -> N): N
    decreases |parts|
  {
    if parts == [] then d
    else Follow(parts[1..], if Ordinary(parts[0]) then down(d, parts[0]) else if parts[0] == ".." then up(d) else d, up, down)
  }

  /** Where a path leads from a directory. */
  function Lead<N>(s: string, root: N, d: N, up: N -> N, down: (N, string) -> N): N {
    Follow(Split(s), if Rooted(s) then root else d, up, down)
  }

  /** Nothing to drop: names only, after any number of ".." if the path is not rooted. */
  ghost predicate Normal(parts: seq<string>, rooted: bool) {
    forall i :: 0 <= i < |parts| ==> NormalAt(parts, rooted, i)
  }

  predicate NormalAt(parts: seq<string>, rooted: bool, i: nat)
    requires i < |parts|
  {
    '/' !in parts[i] && (Ordinary(parts[i]) || (parts[i] == ".." && !rooted && (i > 0 ==> parts[i - 1] == "..")))
  }

  ghost predicate NormalText(s: string) {
    s == "." || s == "/" || exists parts :: parts != [] && Normal(parts, Rooted(s))
                                            && s == (if Rooted(s) then "/" else "") + Joined(parts)
  }

  // ----- Following -----

  lemma {:induction false} FollowOn<N>(a: seq<string>, b: seq<string>, d: N, up: N -> N, down: (N, string) -> N)
    ensures Follow(a + b, d, up, down) == Follow(b, Follow(a, d, up, down), up, down)
    decreases |a|
  {
    if a == [] {
      assert a + b == b;
    } else {
      assert (a + b)[0] == a[0] && (a + b)[1..] == a[1..] + b;
      FollowOn(a[1..], b, if Ordinary(a[0]) then down(d, a[0]) else if a[0] == ".." then up(d) else d, up, down);
    }
  }

  lemma FollowOne<N>(e: string, d: N, up: N -> N, down: (N, string) -> N)
    ensures Follow([e], d, up, down) == if Ordinary(e) then down(d, e) else if e == ".." then up(d) else d
  {
    assert [e][1..] == [];
  }

  lemma FollowSnoc<N>(parts: seq<string>, e: string, d: N, up: N -> N, down: (N, string) -> N)
    ensures var t := Follow(parts, d, up, down);
            Follow(parts + [e], d, up, down) == if Ordinary(e) then down(t, e) else if e == ".." then up(t) else t
  {
    FollowOn(parts, [e], d, up, down);
    FollowOne(e, Follow(parts, d, up, down), up, down);
  }

  // ----- Reducing -----

  /** What is on the stack after one element. */
  function Pushed(stack: seq<string>, e: string, rooted: bool): seq<string> {
    if e == "" || e == "." then stack
    else if e == ".." && stack != [] && stack[|stack| - 1] != ".." then stack[..|stack| - 1]
    else if e == ".." && rooted then stack
    else stack + [e]
  }

  lemma PushedMeans<N(!new)>(stack: seq<string>, e: string, rooted: bool, root: N, d: N, up: N -> N, down: (N, string) -> N)
    requires Normal(stack, rooted) && '/' !in e && Directories(root, up, down) && (rooted ==> d == root)
    ensures Normal(Pushed(stack, e, rooted), rooted)
    ensures Follow(Pushed(stack, e, rooted), d, up, down) == Follow(stack + [e], d, up, down)
  {
    var next := Pushed(stack, e, rooted);
    forall i | 0 <= i < |next| ensures NormalAt(next, rooted, i) {
      if i < |stack| {
        assert NormalAt(stack, rooted, i);
      }
      if e == ".." && i == |stack| > 0 {
        assert NormalAt(stack, rooted, i - 1);
      }
    }
    FollowSnoc(stack, e, d, up, down);
    if e == ".." && stack != [] {
      var front, last := stack[..|stack| - 1], stack[|stack| - 1];
      assert NormalAt(stack, rooted, |stack| - 1);
      assert front + [last] == stack;
      FollowSnoc(front, last, d, up, down);
    }
  }

  predicate NoSlash(parts: seq<string>) {
    forall i :: 0 <= i < |parts| ==> '/' !in parts[i]
  }

  lemma {:induction false} ReduceMeans<N(!new)>(stack: seq<string>, parts: seq<string>, rooted: bool, root: N, d: N,
                                                up: N -> N, down: (N, string) -> N)
    requires Normal(stack, rooted) && NoSlash(parts) && Directories(root, up, down) && (rooted ==> d == root)
    ensures Normal(Reduce(stack, parts, rooted), rooted)
    ensures Follow(Reduce(stack, parts, rooted), d, up, down) == Follow(stack + parts, d, up, down)
    decreases |parts|
  {
    if parts == [] {
      assert stack + parts == stack;
    } else {
      var e, rest := parts[0], parts[1..];
      PushedMeans(stack, e, rooted, root, d, up, down);
      ReduceMeans(Pushed(stack, e, rooted), rest, rooted, root, d, up, down);
      FollowOn(Pushed(stack, e, rooted), rest, d, up, down);
      FollowOn(stack + [e], rest, d, up, down);
      assert stack + [e] + rest == stack + parts;
    }
  }

  // ----- Texts -----

  lemma {:induction false} SplitNoSlash(s: string)
    ensures NoSlash(Split(s))
  {
    if s != [] {
      SplitNoSlash(s[1..]);
    }
  }

  lemma {:induction false} SplitTwo(a: string, b: string)
    ensures Split(a + "/" + b) == Split(a) + Split(b)
  {
    var s := a + "/" + b;
    if a == [] {
      assert s[1..] == b;
    } else {
      assert s[1..] == a[1..] + "/" + b;
      SplitTwo(a[1..], b);
    }
  }

  lemma {:induction false} SplitOfJoined(parts: seq<string>)
    requires parts != [] && NoSlash(parts)
    ensures Split(Joined(parts)) == parts
  {
    if |parts| == 1 {
      SplitPlain(parts[0]);
    } else {
      SplitOfJoined(parts[1..]);
      SplitAt(parts[0], Joined(parts[1..]));
      assert [parts[0]] + parts[1..] == parts;
    }
  }

  lemma NormalParts(parts: seq<string>, rooted: bool)
    requires Normal(parts, rooted)
    ensures NoSlash(parts) && (parts != [] ==> parts[0] != "" && !Rooted(parts[0]))
  {
    forall i | 0 <= i < |parts| ensures '/' !in parts[i] {
      assert NormalAt(parts, rooted, i);
    }
    if parts != [] {
      assert NormalAt(parts, rooted, 0);
    }
  }

  /** A normal form as text: it starts like the path, and its elements are those of the normal form. */
  lemma TextOf<N>(stack: seq<string>, rooted: bool, root: N, d: N, up: N -> N, down: (N, string) -> N)
    requires Normal(stack, rooted)
    ensures var s := if rooted then "/" + Joined(stack) else if stack == [] then "." else Joined(stack);
            && Rooted(s) == rooted && NormalText(s)
            && Lead(s, root, d, up, down) == Follow(stack, if rooted then root else d, up, down)
  {
    var s := if rooted then "/" + Joined(stack) else if stack == [] then "." else Joined(stack);
    var start := if rooted then root else d;
    NormalParts(stack, rooted);
    if stack == [] {
      SplitPlain(".");
      FollowOne(".", start, up, down);
      assert "/"[1..] == "" && Split("/") == [""] + [""];
      FollowOn([""], [""], start, up, down);
      FollowOne("", start, up, down);
    } else {
      SplitOfJoined(stack);
      assert Joined(stack)[0] == stack[0][0];
      assert s == (if rooted then "/" else "") + Joined(stack);
      if rooted {
        assert s[1..] == Joined(stack);
        FollowOn([""], stack, start, up, down);
        FollowOne("", start, up, down);
      }
    }
  }

  // ----- What Clean and Join promise -----

  /** A cleaned path is in normal form, starts at the root exactly if the path does, and leads where the path leads, in any
      system of directories and from any of them. */
  lemma CleanMeans<N(!new)>(s: string, root: N, d: N, up: N -> N, down: (N, string) -> N)
    requires Directories(root, up, down)
    ensures NormalText(Clean(s)) && Rooted(Clean(s)) == Rooted(s)
    ensures Lead(Clean(s), root, d, up, down) == Lead(s, root, d, up, down)
  {
    SplitNoSlash(s);
    ReduceMeans([], Split(s), Rooted(s), root, if Rooted(s) then root else d, up, down);
    assert [] + Split(s) == Split(s);
    TextOf(Reduce([], Split(s), Rooted(s)), Rooted(s), root, d, up, down);
  }

  /** Two paths joined lead where the second one, read from where the first one leads, does. */
  lemma JoinMeans<N(!new)>(a: string, b: string, root: N, d: N, up: N -> N, down: (N, string) -> N)
    requires Directories(root, up, down) && a != ""
    ensures NormalText(Join(a, b)) && Rooted(Join(a, b)) == Rooted(a)
    ensures Lead(Join(a, b), root, d, up, down) == Follow(Split(b), Lead(a, root, d, up, down), up, down)
  {
    if b == "" {
      CleanMeans(a, root, d, up, down);
      FollowOne("", Lead(a, root, d, up, down), up, down);
    } else {
      CleanMeans(a + "/" + b, root, d, up, down);
      SplitTwo(a, b);
      FollowOn(Split(a), Split(b), if Rooted(a) then root else d, up, down);
    }
  }
}
