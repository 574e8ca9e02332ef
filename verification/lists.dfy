/** The Redis lists of internal/queue and the atomic list commands it issues. */
module RedisLists {
  import opened Types

  /** `queue:<stage>` and `processing:<stage>:<worker>`. */
  datatype Key = Pending(stage: Stage) | Processing(stage: Stage, worker: WorkerId)

  /** Redis drops a list when it becomes empty, so only non-empty lists are keys. */
  type Lists = map<Key, seq<Token>>

  function At(ls: Lists, k: Key): seq<Token> {
    if k in ls then ls[k] else []
  }

  function Put(ls: Lists, k: Key, v: seq<Token>): Lists {
    if v == [] then ls - {k} else ls[k := v]
  }

  ghost predicate NoEmptyList(ls: Lists) {
    forall k :: k in ls ==> ls[k] != []
  }

  function Last(s: seq<Token>): Token
    requires s != []
  {
    s[|s| - 1]
  }

  function Front(s: seq<Token>): seq<Token>
    requires s != []
  {
    s[..|s| - 1]
  }

  function Reversed(s: seq<Token>): seq<Token> {
    if s == [] then [] else [Last(s)] + Reversed(Front(s))
  }

  /** Back to front. */
  lemma {:induction false} ReversedAt(s: seq<Token>, k: nat)
    requires k < |s|
    ensures |Reversed(s)| == |s| && Reversed(s)[k] == s[|s| - 1 - k]
  {
    if |s| > 1 {
      ReversedAt(Front(s), if k > 0 then k - 1 else 0);
    }
  }

  /** LREM key 1 t: drop the first occurrence, if any. */
  function Without(s: seq<Token>, t: Token): seq<Token> {
    if s == [] then [] else if s[0] == t then s[1..] else [s[0]] + Without(s[1..], t)
  }

  /** LPUSH queue:stage t. */
  function Push(ls: Lists, stage: Stage, t: Token): Lists {
    Put(ls, Pending(stage), [t] + At(ls, Pending(stage)))
  }

  /** BLMOVE queue:stage processing:stage:w RIGHT LEFT, on a non-empty queue. */
  function Pop(ls: Lists, stage: Stage, w: WorkerId): Lists
    requires At(ls, Pending(stage)) != []
  {
    var q := At(ls, Pending(stage));
    Put(Put(ls, Pending(stage), Front(q)), Processing(stage, w), [Last(q)] + At(ls, Processing(stage, w)))
  }

  function Ack(ls: Lists, stage: Stage, w: WorkerId, t: Token): Lists {
    Put(ls, Processing(stage, w), Without(At(ls, Processing(stage, w)), t))
  }

  /** LMOVE processing:stage:w queue:stage RIGHT RIGHT, on a non-empty list. */
  function Reclaim(ls: Lists, stage: Stage, w: WorkerId): Lists
    requires At(ls, Processing(stage, w)) != []
  {
    var p := At(ls, Processing(stage, w));
    Put(Put(ls, Processing(stage, w), Front(p)), Pending(stage), At(ls, Pending(stage)) + [Last(p)])
  }

  /** The list commands that write; a move from an empty list does nothing. */
  datatype Command =
    | NoCommand
    | PushTo(stage: Stage, token: Token)
    | PopFor(stage: Stage, worker: WorkerId)
    | AckFor(stage: Stage, worker: WorkerId, token: Token)
    | ReclaimFrom(stage: Stage, worker: WorkerId)

  function Perform(ls: Lists, c: Command): Lists {
    match c
    case NoCommand => ls
    case PushTo(stage, t) => Push(ls, stage, t)
    case PopFor(stage, w) => if At(ls, Pending(stage)) == [] then ls else Pop(ls, stage, w)
    case AckFor(stage, w, t) => Ack(ls, stage, w, t)
    case ReclaimFrom(stage, w) => if At(ls, Processing(stage, w)) == [] then ls else Reclaim(ls, stage, w)
  }

  /** Redis commands store no empty list. */
  lemma PerformKeepsKeys(ls: Lists, c: Command)
    requires NoEmptyList(ls)
    ensures NoEmptyList(Perform(ls, c))
  {
  }

  /** The lists once the last `n` tokens of a processing list have gone, one by one, to the tail of the queue. */
  function Moved(ls: Lists, stage: Stage, w: WorkerId, n: nat): Lists
    requires n <= |At(ls, Processing(stage, w))|
  {
    var p := At(ls, Processing(stage, w));
    Put(Put(ls, Processing(stage, w), p[..|p| - n]), Pending(stage), At(ls, Pending(stage)) + Reversed(p[|p| - n..]))
  }

  lemma {:induction false} ReversedCons(x: Token, s: seq<Token>)
    ensures Reversed([x] + s) == Reversed(s) + [x]
  {
    if s != [] {
      assert Front([x] + s) == [x] + Front(s);
      ReversedCons(x, Front(s));
    } else {
      assert Front([x] + s) == [];
    }
  }

  lemma NothingMoved(ls: Lists, stage: Stage, w: WorkerId)
    requires NoEmptyList(ls)
    ensures Moved(ls, stage, w, 0) == ls
  {
    var p, q := At(ls, Processing(stage, w)), At(ls, Pending(stage));
    assert p[..|p|] == p && p[|p|..] == [] && q + [] == q;
  }

  lemma MovedLists(ls: Lists, stage: Stage, w: WorkerId, n: nat)
    requires NoEmptyList(ls) && n <= |At(ls, Processing(stage, w))|
    ensures var p := At(ls, Processing(stage, w));
            && NoEmptyList(Moved(ls, stage, w, n))
            && At(Moved(ls, stage, w, n), Processing(stage, w)) == p[..|p| - n]
            && At(Moved(ls, stage, w, n), Pending(stage)) == At(ls, Pending(stage)) + Reversed(p[|p| - n..])
  {
  }

  lemma MovedOthers(ls: Lists, stage: Stage, w: WorkerId, n: nat, k: Key)
    requires n <= |At(ls, Processing(stage, w))| && k != Processing(stage, w) && k != Pending(stage)
    ensures At(Moved(ls, stage, w, n), k) == At(ls, k)
  {
  }

  /** One more LMOVE. */
  lemma MovedOneMore(ls: Lists, stage: Stage, w: WorkerId, n: nat)
    requires NoEmptyList(ls) && n < |At(ls, Processing(stage, w))|
    ensures At(Moved(ls, stage, w, n), Processing(stage, w)) != []
    ensures Reclaim(Moved(ls, stage, w, n), stage, w) == Moved(ls, stage, w, n + 1)
  {
    var p, q := At(ls, Processing(stage, w)), At(ls, Pending(stage));
    var m := |p| - n;
    MovedLists(ls, stage, w, n);
    assert p[m - 1..] == [p[m - 1]] + p[m..];
    ReversedCons(p[m - 1], p[m..]);
    assert Front(p[..m]) == p[..m - 1] && Last(p[..m]) == p[m - 1];
    assert q + Reversed(p[m..]) + [p[m - 1]] == q + Reversed(p[m - 1..]);
    PutTwice(ls, Processing(stage, w), Pending(stage), p[..m], q + Reversed(p[m..]), p[..m - 1], q + Reversed(p[m - 1..]));
  }

  /** The next LMOVE, whether or not there is a token left. */
  lemma NextMove(ls: Lists, stage: Stage, w: WorkerId, n: nat)
    requires NoEmptyList(ls) && n <= |At(ls, Processing(stage, w))|
    ensures At(Moved(ls, stage, w, n), Processing(stage, w)) == [] <==> n == |At(ls, Processing(stage, w))|
    ensures Perform(Moved(ls, stage, w, n), ReclaimFrom(stage, w))
            == if n < |At(ls, Processing(stage, w))| then Moved(ls, stage, w, n + 1) else Moved(ls, stage, w, n)
  {
    if n < |At(ls, Processing(stage, w))| {
      MovedOneMore(ls, stage, w, n);
    } else {
      MovedLists(ls, stage, w, n);
    }
  }

  /** Writing the same two lists again overwrites the first writes. */
  lemma PutTwice(ls: Lists, src: Key, dst: Key, a: seq<Token>, b: seq<Token>, a': seq<Token>, b': seq<Token>)
    requires src != dst
    ensures Put(Put(Put(Put(ls, src, a), dst, b), src, a'), dst, b') == Put(Put(ls, src, a'), dst, b')
  {
  }

  /** Every token held anywhere, with multiplicity. */
  ghost function Tokens(ls: Lists): multiset<Token> {
    if ls == map[] then multiset{} else
      var k :| k in ls;
      multiset(ls[k]) + Tokens(ls - {k})
  }

  /** The pending and processing lists of one stage. */
  function OfStage(ls: Lists, stage: Stage): Lists {
    map k | k in ls && k.stage == stage :: ls[k]
  }

  lemma {:induction false} TokensWithout(ls: Lists, k: Key)
    requires k in ls
    ensures Tokens(ls) == multiset(ls[k]) + Tokens(ls - {k})
    decreases |ls|
  {
    var c :| c in ls && Tokens(ls) == multiset(ls[c]) + Tokens(ls - {c});
    if c != k {
      TokensWithout(ls - {c}, k);
      TokensWithout(ls - {k}, c);
      assert ls - {c} - {k} == ls - {k} - {c};
    }
  }

  /** Replacing one list changes the token count by exactly that list's change. */
  lemma TokensPut(ls: Lists, k: Key, v: seq<Token>)
    ensures Tokens(Put(ls, k, v)) + multiset(At(ls, k)) == Tokens(ls) + multiset(v)
  {
    var ls' := Put(ls, k, v);
    assert ls' - {k} == ls - {k};
    if k in ls {
      TokensWithout(ls, k);
    } else {
      assert ls - {k} == ls;
    }
    if v != [] {
      TokensWithout(ls', k);
    } else {
      assert v == [];
    }
  }

  /** An LREM removes one occurrence, or nothing. */
  lemma {:induction false} WithoutRemovesOne(s: seq<Token>, t: Token)
    ensures multiset(Without(s, t)) == multiset(s) - multiset{t}
    ensures forall x :: x in Without(s, t) ==> x in s
  {
    if s != [] && s[0] != t {
      WithoutRemovesOne(s[1..], t);
      assert s == [s[0]] + s[1..];
    } else if s != [] {
      assert s == [s[0]] + s[1..];
    }
  }

  /** A token in some list was in a list of the same stage before, unless it has just been pushed. */
  lemma CameFrom(ls: Lists, c: Command, k: Key, t: Token) returns (was: Key)
    requires t in At(Perform(ls, c), k)
    ensures was.stage == k.stage
    ensures t in At(ls, was) || (c.PushTo? && c.stage == k.stage && c.token == t)
  {
    was := k;
    match c
    case NoCommand =>
    case PushTo(stage, token) =>
    case AckFor(stage, w, token) => WithoutRemovesOne(At(ls, Processing(stage, w)), token);
    case PopFor(stage, w) =>
      MovedFrom(ls, Pending(stage), Processing(stage, w), c, k, t);
      was := if t in At(ls, k) then k else Pending(stage);
    case ReclaimFrom(stage, w) =>
      MovedFrom(ls, Processing(stage, w), Pending(stage), c, k, t);
      was := if t in At(ls, k) then k else Processing(stage, w);
  }

  /** A move takes the last token of one list to another. */
  lemma MovedFrom(ls: Lists, src: Key, dst: Key, c: Command, k: Key, t: Token)
    requires c.PopFor? ==> src == Pending(c.stage) && dst == Processing(c.stage, c.worker)
    requires c.ReclaimFrom? ==> src == Processing(c.stage, c.worker) && dst == Pending(c.stage)
    requires (c.PopFor? || c.ReclaimFrom?) && t in At(Perform(ls, c), k)
    ensures t in At(ls, k) || (k == dst && t in At(ls, src))
  {
    var p, after := At(ls, src), Perform(ls, c);
    if p != [] {
      assert At(after, src) == Front(p);
      assert At(after, dst) == if c.PopFor? then [Last(p)] + At(ls, dst) else At(ls, dst) + [Last(p)];
      assert k != src && k != dst ==> At(after, k) == At(ls, k);
    }
  }

  lemma Cancel(a: multiset<Token>, b: multiset<Token>, c: multiset<Token>)
    requires a + c == b + c
    ensures a == b
  {
    forall x ensures a[x] == b[x] {
      assert (a + c)[x] == (b + c)[x];
    }
  }

  lemma PushTokens(ls: Lists, stage: Stage, t: Token)
    ensures Tokens(Push(ls, stage, t)) == Tokens(ls) + multiset{t}
  {
    var q := At(ls, Pending(stage));
    TokensPut(ls, Pending(stage), [t] + q);
    assert Tokens(Push(ls, stage, t)) + multiset(q) == Tokens(ls) + multiset{t} + multiset(q);
    Cancel(Tokens(Push(ls, stage, t)), Tokens(ls) + multiset{t}, multiset(q));
  }

  /** Moving the tail token of one list to either end of another keeps the token count. */
  lemma MoveTokens(ls: Lists, src: Key, dst: Key, v: seq<Token>)
    requires src != dst && At(ls, src) != []
    requires multiset(v) == multiset(At(ls, dst)) + multiset{Last(At(ls, src))}
    ensures Tokens(Put(Put(ls, src, Front(At(ls, src))), dst, v)) == Tokens(ls)
  {
    var p := At(ls, src);
    var ls1 := Put(ls, src, Front(p));
    var ls2 := Put(ls1, dst, v);
    assert p == Front(p) + [Last(p)];
    TokensPut(ls, src, Front(p));
    TokensPut(ls1, dst, v);
    var one, rest, there := multiset{Last(p)}, multiset(Front(p)), multiset(At(ls, dst));
    assert multiset(p) == rest + one;
    assert Tokens(ls1) + one + rest == Tokens(ls) + rest;
    Cancel(Tokens(ls1) + one, Tokens(ls), rest);
    assert Tokens(ls2) + there == Tokens(ls1) + one + there;
    Cancel(Tokens(ls2), Tokens(ls), there);
  }

  lemma PopTokens(ls: Lists, stage: Stage, w: WorkerId)
    requires At(ls, Pending(stage)) != []
    ensures Tokens(Pop(ls, stage, w)) == Tokens(ls)
  {
    var q := At(ls, Pending(stage));
    MoveTokens(ls, Pending(stage), Processing(stage, w), [Last(q)] + At(ls, Processing(stage, w)));
  }

  lemma AckTokens(ls: Lists, stage: Stage, w: WorkerId, t: Token)
    ensures Tokens(ls) == Tokens(Ack(ls, stage, w, t))
                          + (if t in At(ls, Processing(stage, w)) then multiset{t} else multiset{})
  {
    var p := At(ls, Processing(stage, w));
    var gone := if t in p then multiset{t} else multiset{};
    WithoutRemovesOne(p, t);
    TokensPut(ls, Processing(stage, w), Without(p, t));
    assert multiset(p) == multiset(Without(p, t)) + gone;
    assert (Tokens(Ack(ls, stage, w, t)) + gone) + multiset(Without(p, t)) == Tokens(ls) + multiset(Without(p, t));
    Cancel(Tokens(Ack(ls, stage, w, t)) + gone, Tokens(ls), multiset(Without(p, t)));
  }

  lemma ReclaimTokens(ls: Lists, stage: Stage, w: WorkerId)
    requires At(ls, Processing(stage, w)) != []
    ensures Tokens(Reclaim(ls, stage, w)) == Tokens(ls)
  {
    var p := At(ls, Processing(stage, w));
    MoveTokens(ls, Processing(stage, w), Pending(stage), At(ls, Pending(stage)) + [Last(p)]);
  }

  /** A write to one stage's lists is the same write on the restriction to that stage, and nothing elsewhere. */
  lemma OfStagePut(ls: Lists, k: Key, v: seq<Token>, stage: Stage)
    ensures OfStage(Put(ls, k, v), stage) == if k.stage == stage then Put(OfStage(ls, stage), k, v) else OfStage(ls, stage)
  {
  }

  lemma StagePush(ls: Lists, stage: Stage, t: Token, other: Stage)
    ensures Tokens(OfStage(Push(ls, stage, t), other))
            == Tokens(OfStage(ls, other)) + (if stage == other then multiset{t} else multiset{})
  {
    if stage == other {
      assert OfStage(Push(ls, stage, t), other) == Push(OfStage(ls, other), stage, t);
      PushTokens(OfStage(ls, other), stage, t);
    } else {
      assert OfStage(Push(ls, stage, t), other) == OfStage(ls, other);
    }
  }

  lemma StageReclaim(ls: Lists, stage: Stage, w: WorkerId, other: Stage)
    requires At(ls, Processing(stage, w)) != []
    ensures Tokens(OfStage(Reclaim(ls, stage, w), other)) == Tokens(OfStage(ls, other))
  {
    var p := At(ls, Processing(stage, w));
    OfStagePut(ls, Processing(stage, w), Front(p), other);
    OfStagePut(Put(ls, Processing(stage, w), Front(p)), Pending(stage), At(ls, Pending(stage)) + [Last(p)], other);
    if stage == other {
      assert OfStage(Reclaim(ls, stage, w), other) == Reclaim(OfStage(ls, other), stage, w);
      ReclaimTokens(OfStage(ls, other), stage, w);
    } else {
      assert OfStage(Reclaim(ls, stage, w), other) == OfStage(ls, other);
    }
  }

  lemma StagePop(ls: Lists, stage: Stage, w: WorkerId, other: Stage)
    requires At(ls, Pending(stage)) != []
    ensures Tokens(OfStage(Pop(ls, stage, w), other)) == Tokens(OfStage(ls, other))
  {
    var q := At(ls, Pending(stage));
    OfStagePut(ls, Pending(stage), Front(q), other);
    OfStagePut(Put(ls, Pending(stage), Front(q)), Processing(stage, w), [Last(q)] + At(ls, Processing(stage, w)), other);
    if stage == other {
      assert OfStage(Pop(ls, stage, w), other) == Pop(OfStage(ls, other), stage, w);
      PopTokens(OfStage(ls, other), stage, w);
    } else {
      assert OfStage(Pop(ls, stage, w), other) == OfStage(ls, other);
    }
  }

  lemma StageAck(ls: Lists, stage: Stage, w: WorkerId, t: Token, other: Stage)
    ensures Tokens(OfStage(ls, other)) == Tokens(OfStage(Ack(ls, stage, w, t), other))
            + (if stage == other && t in At(ls, Processing(stage, w)) then multiset{t} else multiset{})
  {
    OfStagePut(ls, Processing(stage, w), Without(At(ls, Processing(stage, w)), t), other);
    if stage == other {
      assert OfStage(Ack(ls, stage, w, t), other) == Ack(OfStage(ls, other), stage, w, t);
      AckTokens(OfStage(ls, other), stage, w, t);
    } else {
      assert OfStage(Ack(ls, stage, w, t), other) == OfStage(ls, other);
    }
  }

  /** Reclaiming moves tokens within their stage and loses none. */
  lemma {:induction false} StageMoved(ls: Lists, stage: Stage, w: WorkerId, n: nat, other: Stage)
    requires NoEmptyList(ls) && n <= |At(ls, Processing(stage, w))|
    ensures Tokens(OfStage(Moved(ls, stage, w, n), other)) == Tokens(OfStage(ls, other))
  {
    if n == 0 {
      NothingMoved(ls, stage, w);
    } else {
      StageMoved(ls, stage, w, n - 1, other);
      MovedOneMore(ls, stage, w, n - 1);
      StageReclaim(Moved(ls, stage, w, n - 1), stage, w, other);
    }
  }
}
