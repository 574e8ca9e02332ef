/** The text of the Redis keys, and what ListProcessing can read back from it. */
module Keys {
  import opened Types

  function ProcessingKey(stage: string, worker: string): string {
    "processing:" + stage + ":" + worker
  }

  /** The position of the first colon, or the length of the text. */
  function Colon(s: string): (i: nat)
    ensures i <= |s| && ':' !in s[..i] && (i < |s| ==> s[i] == ':')
  {
    if s == [] || s[0] == ':' then 0 else
      var i := 1 + Colon(s[1..]);
      assert s[..i] == [s[0]] + s[1..][..i - 1];
      i
  }

  /** Split at the first n - 1 colons. */
  function SplitN(s: string, n: nat): seq<string>
    requires n >= 1
  {
    var i := Colon(s);
    if n == 1 || i == |s| then [s] else [s[..i]] + SplitN(s[i + 1..], n - 1)
  }

  /** How ListProcessing reads a key: the middle and last of three parts. */
  function ParseKey(key: string): Option<(string, string)> {
    var parts := SplitN(key, 3);
    if |parts| == 3 then Some((parts[1], parts[2])) else None
  }

  function StageNamed(name: string): Option<Stage> {
    if name == "fetch" then Some(Fetch)
    else if name == "render" then Some(Render)
    else if name == "upload" then Some(Upload)
    else if name == "test" then Some(Test)
    else None
  }

  lemma ColonAt(front: string, rest: string)
    requires ':' !in front
    ensures Colon(front + ":" + rest) == |front|
  {
    var s := front + ":" + rest;
    var i := Colon(s);
    assert forall k :: 0 <= k < i ==> s[k] == s[..i][k];
    assert s[|front|] == ':';
  }

  /** Splitting off the first of several parts. */
  lemma SplitOff(front: string, rest: string, n: nat)
    requires ':' !in front && n >= 2
    ensures SplitN(front + ":" + rest, n) == [front] + SplitN(rest, n - 1)
  {
    var s := front + ":" + rest;
    ColonAt(front, rest);
    assert s[..|front|] == front && s[|front| + 1..] == rest;
  }

  /** Splitting in two puts everything up to the first colon in the first part. */
  lemma SplitInTwo(stage: string, worker: string)
    ensures var parts := SplitN(stage + ":" + worker, 2);
            |parts| == 2 && ':' !in parts[0] && (':' !in stage ==> parts == [stage, worker])
  {
    var rest := stage + ":" + worker;
    var i := Colon(rest);
    assert rest[|stage|] == ':';
    assert rest[..|rest|] == rest;
    assert ':' in rest;
    assert SplitN(rest, 2) == [rest[..i]] + SplitN(rest[i + 1..], 1);
    if ':' !in stage {
      SplitOff(stage, worker, 2);
    }
  }

  /** Reading a processing key back gives the stage and worker it was built from exactly when the stage has no colon;
      the worker ID may contain anything. */
  lemma ParseInvertsKey(stage: string, worker: string)
    ensures ParseKey(ProcessingKey(stage, worker)) == Some((stage, worker)) <==> ':' !in stage
  {
    var rest := stage + ":" + worker;
    assert ProcessingKey(stage, worker) == "processing" + ":" + rest;
    SplitOff("processing", rest, 3);
    SplitInTwo(stage, worker);
    var parts := SplitN(rest, 2);
    assert ["processing"] + parts == ["processing", parts[0], parts[1]];
  }

  /** The key ListProcessing scans for a worker of one of the four pools, read back. */
  function ReadBack(stage: Stage, worker: string): Option<(Stage, string)> {
    match ParseKey(ProcessingKey(stage.Name(), worker))
    case None => None
    case Some(parts) =>
      match StageNamed(parts.0)
      case None => None
      case Some(st) => Some((st, parts.1))
  }

  lemma ReadBackIsIdentity(stage: Stage, worker: string)
    ensures ReadBack(stage, worker) == Some((stage, worker))
  {
    ParseInvertsKey(stage.Name(), worker);
  }
}

/** internal/queue as an object: the Redis lists and heartbeat keys. */
module Queue {
  import opened Types
  import opened RedisLists
  import Keys
  import P = Protocol

  datatype PopResult = Popped(token: Token) | Empty | Broken

  /** A reclaim breaks off at the LMOVE after some number of moves, which may still have moved a token. */
  datatype Break = Break(after: nat, lost: bool)

  /** How many tokens leave a processing list of length n. */
  function Reclaimed(n: nat, fault: Option<Break>): (moved: nat)
    ensures moved <= n
  {
    if fault.None? || fault.value.after > n then n
    else if fault.value.lost && fault.value.after < n then fault.value.after + 1
    else fault.value.after
  }

  class Queue {
    var lists: Lists
    var beats: set<WorkerId>

    ghost predicate Valid()
      reads this
    {
      NoEmptyList(lists)
    }

    constructor ()
      ensures Valid() && lists == map[] && beats == {}
    {
      lists := map[];
      beats := {};
    }

    /** LPUSH. */
    method Push(stage: Stage, t: Token, net: Reply) returns (ok: bool)
      requires Valid()
      modifies `lists
      ensures Valid() && ok == net.Answered?
      ensures lists == if net.Refused? then old(lists) else Perform(old(lists), PushTo(stage, t))
    {
      if !net.Refused? {
        var k := Pending(stage);
        lists := lists[k := [t] + At(lists, k)];
      }
      ok := net.Answered?;
    }

    /** BLMOVE; the timeout is the empty answer. */
    method BlockingPop(stage: Stage, worker: WorkerId, net: Reply) returns (r: PopResult)
      requires Valid()
      modifies `lists
      ensures Valid()
      ensures lists == if net.Refused? then old(lists) else Perform(old(lists), PopFor(stage, worker))
      ensures r == if !net.Answered? then Broken
                   else if At(old(lists), Pending(stage)) == [] then Empty
                   else Popped(Last(At(old(lists), Pending(stage))))
    {
      var q := At(lists, Pending(stage));
      if !net.Refused? && q != [] {
        lists := Put(lists, Pending(stage), q[..|q| - 1]);
        var k := Processing(stage, worker);
        lists := lists[k := [q[|q| - 1]] + At(lists, k)];
      }
      if !net.Answered? {
        return Broken;
      }
      return if q == [] then Empty else Popped(q[|q| - 1]);
    }

    /** LREM key 1 token: remove the occurrence nearest the head. */
    method Ack(stage: Stage, worker: WorkerId, t: Token, net: Reply) returns (ok: bool)
      requires Valid()
      modifies `lists
      ensures Valid() && ok == net.Answered?
      ensures lists == if net.Refused? then old(lists) else Perform(old(lists), AckFor(stage, worker, t))
    {
      if !net.Refused? {
        var k := Processing(stage, worker);
        var rest := Removed(At(lists, k), t);
        lists := Put(lists, k, rest);
      }
      ok := net.Answered?;
    }

    method Depth(stage: Stage) returns (n: nat)
      ensures n == |At(lists, Pending(stage))|
    {
      n := |At(lists, Pending(stage))|;
    }

    method IsWorkerAlive(worker: WorkerId) returns (alive: bool)
      ensures alive <==> worker in beats
    {
      alive := worker in beats;
    }

    method Heartbeat(worker: WorkerId, net: Reply) returns (ok: bool)
      modifies `beats
      ensures ok == net.Answered?
      ensures beats == if net.Refused? then old(beats) else old(beats) + {worker}
    {
      if !net.Refused? {
        beats := beats + {worker};
      }
      ok := net.Answered?;
    }

    /** SCAN processing:*, reading stage and worker back from the text of each key. */
    method ListProcessing() returns (out: seq<P.Ref>)
      requires Valid()
      ensures P.IsScan(out, lists)
      ensures forall i, j :: 0 <= i < j < |out| ==> out[i] != out[j]
    {
      out := [];
      var left := set k | k in lists && k.Processing?;
      while left != {}
        invariant forall k :: k in left ==> k in lists && k.Processing?
        invariant forall r :: r in out ==> Processing(r.stage, r.worker) in lists && Processing(r.stage, r.worker) !in left
        invariant forall k :: k in lists && k.Processing? && k !in left ==> P.Ref(k.stage, k.worker) in out
        invariant forall i, j :: 0 <= i < j < |out| ==> out[i] != out[j]
        decreases |left|
      {
        var k :| k in left;
        left := left - {k};
        var read := Keys.ReadBack(k.stage, k.worker);
        Keys.ReadBackIsIdentity(k.stage, k.worker);
        if read.Some? {
          out := out + [P.Ref(read.value.0, read.value.1)];
        }
      }
    }

    /** LMOVE processing:stage:worker queue:stage RIGHT RIGHT. */
    method LMove(stage: Stage, worker: WorkerId) returns (some: bool)
      modifies `lists
      ensures some == (At(old(lists), Processing(stage, worker)) != [])
      ensures lists == Perform(old(lists), ReclaimFrom(stage, worker))
    {
      var p := At(lists, Processing(stage, worker));
      some := p != [];
      if some {
        lists := Put(lists, Processing(stage, worker), p[..|p| - 1]);
        lists := Put(lists, Pending(stage), At(lists, Pending(stage)) + [p[|p| - 1]]);
      }
    }

    /** LMOVE until the processing list is empty or a call fails; `moved` counts the answered moves. */
    method ReclaimProcessing(stage: Stage, worker: WorkerId, fault: Option<Break>) returns (moved: nat, ok: bool)
      requires Valid()
      modifies `lists
      ensures Valid()
      ensures var p := At(old(lists), Processing(stage, worker));
              && ok == (fault.None? || fault.value.after > |p|)
              && moved == (if ok then |p| else fault.value.after)
              && lists == Moved(old(lists), stage, worker, Reclaimed(|p|, fault))
    {
      moved := 0;
      ghost var was := lists;
      ghost var p := At(lists, Processing(stage, worker));
      NothingMoved(was, stage, worker);
      while true
        invariant moved <= |p| && (fault.Some? ==> moved <= fault.value.after) && Valid()
        invariant lists == Moved(was, stage, worker, moved)
        decreases |p| - moved
      {
        if fault.Some? && fault.value.after == moved {
          if fault.value.lost {
            var unseen := MoveNext(stage, worker, was, moved);
          }
          return moved, false;
        }
        var some := MoveNext(stage, worker, was, moved);
        if !some {
          return moved, true;
        }
        moved := moved + 1;
      }
    }

    /** The next LMOVE of a reclaim that began with the lists `was`. */
    method MoveNext(stage: Stage, worker: WorkerId, ghost was: Lists, ghost moved: nat) returns (some: bool)
      requires Valid() && NoEmptyList(was) && moved <= |At(was, Processing(stage, worker))|
      requires lists == Moved(was, stage, worker, moved)
      modifies `lists
      ensures Valid() && some == (moved < |At(was, Processing(stage, worker))|)
      ensures lists == Moved(was, stage, worker, if some then moved + 1 else moved)
    {
      NextMove(was, stage, worker, moved);
      PerformKeepsKeys(lists, ReclaimFrom(stage, worker));
      some := LMove(stage, worker);
    }
  }

  lemma {:induction false} WithoutAfter(p: seq<Token>, t: Token, i: nat)
    requires i <= |p| && t !in p[..i]
    ensures Without(p, t) == p[..i] + Without(p[i..], t)
  {
    if i > 0 {
      assert p[1..][..i - 1] == p[..i][1..] && p[1..][i - 1..] == p[i..] && p[..i][0] == p[0];
      WithoutAfter(p[1..], t, i - 1);
    }
  }

  /** The scan and removal that LREM performs on one list. */
  method Removed(p: seq<Token>, t: Token) returns (r: seq<Token>)
    ensures r == Without(p, t)
  {
    var i := 0;
    while i < |p| && p[i] != t
      invariant 0 <= i <= |p| && t !in p[..i]
    {
      i := i + 1;
    }
    WithoutAfter(p, t, i);
    r := if i < |p| then p[..i] + p[i + 1..] else p;
  }
}
