/** The order in which a stage queue gives out its tokens. */
module Ordering {
  import opened Types
  import opened RedisLists

  function Performed(ls: Lists, commands: seq<Command>): Lists
    decreases |commands|
  {
    if commands == [] then ls else Performed(Perform(ls, commands[0]), commands[1..])
  }

  /** The tokens pushed to the stage, in order. */
  function PushedTo(stage: Stage, commands: seq<Command>): seq<Token> {
    if commands == [] then []
    else (if commands[0].PushTo? && commands[0].stage == stage then [commands[0].token] else [])
         + PushedTo(stage, commands[1..])
  }

  predicate Takes(ls: Lists, stage: Stage, c: Command) {
    c.PopFor? && c.stage == stage && |At(Perform(ls, c), Processing(stage, c.worker))| > |At(ls, Processing(stage, c.worker))|
  }

  /** The tokens that workers of the stage find at the head of their processing list after a pop, in order. */
  function Taken(ls: Lists, stage: Stage, commands: seq<Command>): seq<Token>
    decreases |commands|
  {
    if commands == [] then []
    else (if Takes(ls, stage, commands[0]) then [At(Perform(ls, commands[0]), Processing(stage, commands[0].worker))[0]] else [])
         + Taken(Perform(ls, commands[0]), stage, commands[1..])
  }

  /** The queue, the next token to be popped first. */
  function Waiting(ls: Lists, stage: Stage): seq<Token> {
    Reversed(At(ls, Pending(stage)))
  }

  lemma OneCommand(ls: Lists, stage: Stage, c: Command)
    requires !(c.ReclaimFrom? && c.stage == stage)
    ensures Waiting(ls, stage) + (if c.PushTo? && c.stage == stage then [c.token] else [])
            == (if Takes(ls, stage, c) then [At(Perform(ls, c), Processing(stage, c.worker))[0]] else [])
               + Waiting(Perform(ls, c), stage)
  {
    var queue := At(ls, Pending(stage));
    if c.PushTo? && c.stage == stage {
      ReversedCons(c.token, queue);
    } else if c.PopFor? && c.stage == stage && queue != [] {
      assert At(Perform(ls, c), Pending(stage)) == Front(queue);
    } else {
      assert At(Perform(ls, c), Pending(stage)) == queue;
    }
  }

  lemma Regroup(a: seq<Token>, b: seq<Token>, c: seq<Token>)
    ensures a + b + c == a + (b + c)
  {
  }

  /** First in, first out: unless something is reclaimed to it, what workers take from a queue and what still waits in it are
      what waited before and what has been pushed since, in this order. */
  lemma {:induction false} FirstInFirstOut(ls: Lists, stage: Stage, commands: seq<Command>)
    requires forall i :: 0 <= i < |commands| ==> !(commands[i].ReclaimFrom? && commands[i].stage == stage)
    ensures Taken(ls, stage, commands) + Waiting(Performed(ls, commands), stage)
            == Waiting(ls, stage) + PushedTo(stage, commands)
    decreases |commands|
  {
    if commands != [] {
      var c, rest, ls' := commands[0], commands[1..], Perform(ls, commands[0]);
      var pushed := if c.PushTo? && c.stage == stage then [c.token] else [];
      var taken := if Takes(ls, stage, c) then [At(ls', Processing(stage, c.worker))[0]] else [];
      OneCommand(ls, stage, c);
      FirstInFirstOut(ls', stage, rest);
      Regroup(taken, Taken(ls', stage, rest), Waiting(Performed(ls', rest), stage));
      Regroup(taken, Waiting(ls', stage), PushedTo(stage, rest));
      Regroup(Waiting(ls, stage), pushed, PushedTo(stage, rest));
    }
  }

  /** What is reclaimed waits in front of everything else, the token popped first in front. */
  lemma ReclaimedFirst(ls: Lists, stage: Stage, w: WorkerId, n: nat)
    requires NoEmptyList(ls) && n <= |At(ls, Processing(stage, w))|
    ensures var p := At(ls, Processing(stage, w));
            Waiting(Moved(ls, stage, w, n), stage) == p[|p| - n..] + Waiting(ls, stage)
  {
    var p := At(ls, Processing(stage, w));
    MovedLists(ls, stage, w, n);
    ReversedOn(At(ls, Pending(stage)), Reversed(p[|p| - n..]));
    ReversedTwice(p[|p| - n..]);
  }

  lemma {:induction false} ReversedOn(a: seq<Token>, b: seq<Token>)
    ensures Reversed(a + b) == Reversed(b) + Reversed(a)
  {
    if a == [] {
      assert a + b == b && Reversed(b) + [] == Reversed(b);
    } else {
      assert a == [a[0]] + a[1..] && a + b == [a[0]] + (a[1..] + b);
      ReversedCons(a[0], a[1..]);
      ReversedCons(a[0], a[1..] + b);
      ReversedOn(a[1..], b);
    }
  }

  lemma {:induction false} ReversedTwice(s: seq<Token>)
    ensures Reversed(Reversed(s)) == s
  {
    if s != [] {
      ReversedTwice(Front(s));
      ReversedCons(Last(s), Reversed(Front(s)));
      assert Front(s) + [Last(s)] == s;
    }
  }

  /** An ack takes the occurrence nearest the head, and only that one. */
  lemma AckTakesNearest(ls: Lists, stage: Stage, w: WorkerId, before: seq<Token>, t: Token, after: seq<Token>)
    requires At(ls, Processing(stage, w)) == before + [t] + after && t !in before
    ensures At(Ack(ls, stage, w, t), Processing(stage, w)) == before + after
    ensures forall k :: k != Processing(stage, w) ==> At(Ack(ls, stage, w, t), k) == At(ls, k)
  {
    WithoutNearest(before, t, after);
  }

  lemma {:induction false} WithoutNearest(before: seq<Token>, t: Token, after: seq<Token>)
    requires t !in before
    ensures Without(before + [t] + after, t) == before + after
  {
    var all := before + [t] + after;
    if before == [] {
      assert all[1..] == after && [] + after == after;
    } else {
      assert all[0] == before[0] && all[1..] == before[1..] + [t] + after;
      WithoutNearest(before[1..], t, after);
      assert [before[0]] + (before[1..] + after) == before + after;
    }
  }
}
