/** Go's path.Join on slash-separated text, and the folder-cache path it builds for a chain of folder names. */
module FolderPaths {

  /** The stretches between slashes. */
  function Split(s: string): (parts: seq<string>)
    ensures parts != []
  {
    if s == [] then [""]
    else
      var rest := Split(s[1..]);
      if s[0] == '/' then [""] + rest else [[s[0]] + rest[0]] + rest[1..]
  }

  function Joined(names: seq<string>): string {
    if names == [] then ""
    else if |names| == 1 then names[0]
    else names[0] + "/" + Joined(names[1..])
  }

  /** Section by section, as path.Clean does: drop empty and "." elements, let ".." undo the one before it. */
  function Reduce(stack: seq<string>, parts: seq<string>, rooted: bool): seq<string>
    decreases |parts|
  {
    if parts == [] then stack
    else
      var e := parts[0];
      if e == "" || e == "." then Reduce(stack, parts[1..], rooted)
      else if e == ".." && stack != [] && stack[|stack| - 1] != ".." then Reduce(stack[..|stack| - 1], parts[1..], rooted)
      else if e == ".." && rooted then Reduce(stack, parts[1..], rooted)
      else Reduce(stack + [e], parts[1..], rooted)
  }

  function Clean(s: string): string {
    var rooted := s != "" && s[0] == '/';
    var stack := Reduce([], Split(s), rooted);
    if rooted then "/" + Joined(stack)
    else if stack == [] then "."
    else Joined(stack)
  }

  function Join(a: string, b: string): string {
    if a == "" then if b == "" then "" else Clean(b)
    else if b == "" then Clean(a)
    else Clean(a + "/" + b)
  }

  /** What the upload loop holds in pathSoFar after these folder names: the first one as it is, the rest joined on. */
  function PathOf(names: seq<string>): string {
    if names == [] then ""
    else Extended(PathOf(names[..|names| - 1]), names[|names| - 1])
  }

  function Extended(pathSoFar: string, name: string): string {
    if pathSoFar == "" then name else Join(pathSoFar, name)
  }

  /** A name path.Join leaves alone. */
  predicate PlainName(name: string) {
    name != "" && name != "." && name != ".." && '/' !in name
  }

  predicate Plain(names: seq<string>) {
    forall i :: 0 <= i < |names| ==> PlainName(names[i])
  }

  lemma {:induction false} SplitPlain(name: string)
    requires '/' !in name
    ensures Split(name) == [name]
  {
    if name != [] {
      SplitPlain(name[1..]);
      assert [name[0]] + name[1..] == name;
    }
  }

  lemma {:induction false} SplitAt(name: string, rest: string)
    requires '/' !in name
    ensures Split(name + "/" + rest) == [name] + Split(rest)
  {
    var s := name + "/" + rest;
    if name == [] {
      assert s[1..] == rest;
    } else {
      SplitAt(name[1..], rest);
      assert s[1..] == name[1..] + "/" + rest;
      assert [name[0]] + name[1..] == name;
    }
  }

  lemma {:induction false} SplitJoined(names: seq<string>)
    requires names != [] && Plain(names)
    ensures Split(Joined(names)) == names
  {
    assert PlainName(names[0]);
    if |names| == 1 {
      SplitPlain(names[0]);
    } else {
      SplitJoined(names[1..]);
      SplitAt(names[0], Joined(names[1..]));
      assert [names[0]] + names[1..] == names;
    }
  }

  lemma JoinedStarts(names: seq<string>)
    requires names != [] && Plain(names)
    ensures Joined(names) != "" && Joined(names)[0] != '/'
  {
    assert PlainName(names[0]);
    assert Joined(names)[0] == names[0][0];
  }

  lemma {:induction false} ReducePlain(stack: seq<string>, parts: seq<string>)
    requires Plain(parts)
    ensures Reduce(stack, parts, false) == stack + parts
    decreases |parts|
  {
    if parts != [] {
      assert PlainName(parts[0]);
      ReducePlain(stack + [parts[0]], parts[1..]);
    }
  }

  lemma {:induction false} JoinedSnoc(names: seq<string>, name: string)
    requires names != []
    ensures Joined(names + [name]) == Joined(names) + "/" + name
  {
    if |names| > 1 {
      JoinedSnoc(names[1..], name);
      assert (names + [name])[1..] == names[1..] + [name];
    } else {
      assert (names + [name])[1..] == [name];
    }
  }

  /** On plain names, the path is the names with slashes between them. */
  lemma {:induction false} PathIsJoined(names: seq<string>)
    requires Plain(names)
    ensures PathOf(names) == Joined(names)
  {
    if |names| > 1 {
      var front, name := names[..|names| - 1], names[|names| - 1];
      PathIsJoined(front);
      JoinedStarts(front);
      JoinedSnoc(front, name);
      assert front + [name] == names;
      SplitJoined(names);
      JoinedStarts(names);
      ReducePlain([], names);
      assert PlainName(name);
      assert [] + names == names;
    } else if |names| == 1 {
      assert names[..0] == [];
    }
  }

  /** Different chains of plain names have different paths. */
  lemma PathInjective(a: seq<string>, b: seq<string>)
    requires Plain(a) && Plain(b) && PathOf(a) == PathOf(b)
    ensures a == b
  {
    PathIsJoined(a);
    PathIsJoined(b);
    if a != [] {
      SplitJoined(a);
      JoinedStarts(a);
    }
    if b != [] {
      SplitJoined(b);
      JoinedStarts(b);
    }
  }

  lemma JoinedOnward(front: seq<string>, rest: string)
    requires |front| > 1
    ensures Joined(front) + "/" + rest == front[0] + "/" + (Joined(front[1..]) + "/" + rest)
  {
  }

  lemma {:induction false} SplitOnward(front: seq<string>, rest: string)
    requires front != [] && Plain(front)
    ensures Split(Joined(front) + "/" + rest) == front + Split(rest)
  {
    assert PlainName(front[0]);
    var parts := Split(rest);
    if |front| == 1 {
      SplitAt(front[0], rest);
      assert [front[0]] == front;
    } else {
      SplitOnward(front[1..], rest);
      JoinedOnward(front, rest);
      SplitAt(front[0], Joined(front[1..]) + "/" + rest);
      ConsFront(front, parts);
    }
  }

  lemma ConsFront(front: seq<string>, rest: seq<string>)
    requires front != []
    ensures [front[0]] + (front[1..] + rest) == front + rest
  {
  }

  lemma {:induction false} ReduceOnward(stack: seq<string>, front: seq<string>, rest: seq<string>)
    requires Plain(front)
    ensures Reduce(stack, front + rest, false) == Reduce(stack + front, rest, false)
    decreases |front|
  {
    if front == [] {
      assert front + rest == rest && stack + front == stack;
    } else {
      assert PlainName(front[0]);
      assert (front + rest)[1..] == front[1..] + rest && stack + front == stack + [front[0]] + front[1..];
      ReduceOnward(stack + [front[0]], front[1..], rest);
    }
  }

  lemma {:induction false} ReduceSkips(stack: seq<string>, p: string, q: string)
    requires PlainName(p) && PlainName(q)
    ensures Reduce(stack, [p, q], false) == Reduce(stack, [p, "", q], false)
  {
    assert [p, q][1..] == [q] && [p, "", q][1..] == ["", q] && ["", q][1..] == [q];
  }

  /** What the cache path of a chain is whose last name is any text. */
  lemma LastName(front: seq<string>, name: string)
    requires front != [] && Plain(front) && name != ""
    ensures var stack := Reduce(front, Split(name), false);
            PathOf(front + [name]) == if stack == [] then "." else Joined(stack)
  {
    PathIsJoined(front);
    JoinedStarts(front);
    assert (front + [name])[..|front|] == front;
    SplitOnward(front, name);
    ReduceOnward([], front, Split(name));
    assert [] + front == front;
  }

  /** With slashes in the last name, two chains share a path: that of a third, plain one. */
  lemma SlashesCollide(front: seq<string>, p: string, q: string)
    requires front != [] && Plain(front) && PlainName(p) && PlainName(q)
    ensures PathOf(front + [p + "/" + q]) == PathOf(front + [p + "//" + q]) == PathOf(front + [p, q])
    ensures p + "/" + q != p + "//" + q && Plain(front + [p, q])
  {
    SplitAt(p, q);
    SplitPlain(q);
    SplitAt(p, "/" + q);
    SplitAt("", q);
    assert "/" + q == "" + "/" + q && p + "//" + q == p + "/" + ("/" + q);
    LastName(front, p + "/" + q);
    LastName(front, p + "//" + q);
    assert [p] + ([""] + [q]) == [p, "", q] && [p] + [q] == [p, q];
    ReduceSkips(front, p, q);
    ReducePlain(front, [p, q]);
    PathIsJoined(front + [p, q]);
    assert |p + "/" + q| != |p + "//" + q|;
  }

  lemma UpAndBack()
    ensures Join("a", "..") == "." && Join(".", "a") == "a"
  {
    CleanTwo("a", "..");
    var up := ["a", ".."];
    assert up[1..] == [".."] && [] + ["a"] == ["a"] && ["a"][..0] == [];
    assert Reduce([], up, false) == Reduce(["a"], [".."], false) == Reduce([], [], false);
    CleanTwo(".", "a");
    var down := [".", "a"];
    assert down[1..] == ["a"] && ["a"][1..] == [];
    assert Reduce([], down, false) == Reduce([], ["a"], false) == Reduce(["a"], [], false);
  }

  /** With "..", a chain comes back to the path of its own beginning. */
  lemma DotsCollide()
    ensures PathOf(["a", "..", "a"]) == PathOf(["a"]) == "a" && PathOf(["a", ".."]) == "."
  {
    UpAndBack();
    assert ["a"][..0] == [] && ["a", ".."][..1] == ["a"] && ["a", "..", "a"][..2] == ["a", ".."];
  }

  lemma CleanTwo(a: string, b: string)
    requires a != "" && b != "" && '/' !in a && '/' !in b
    ensures Join(a, b) == (var stack := Reduce([], [a, b], false); if stack == [] then "." else Joined(stack))
  {
    SplitAt(a, b);
    SplitPlain(b);
    assert (a + "/" + b)[0] == a[0];
  }
}
