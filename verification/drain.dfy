/** Draining the queues: every pass that does work uses up weight, and leaves each served row further on. */
module Drain {
  import opened Types
  import opened Table
  import opened Rows
  import R = RedisLists
  import P = Protocol
  import opened Processing

  datatype Core = Core(db: Db, lists: R.Lists)

  /** One ProcessOne by a worker of some pool. */
  datatype Turn = Turn(stage: Stage, worker: WorkerId, call: Call)

  function After(c: Core, t: Turn): Core {
    var o := OnePass(c.db, c.lists, t.stage, t.worker, t.call);
    Core(o.db, o.lists)
  }

  function Depth(ls: R.Lists, stage: Stage): nat {
    |R.At(ls, R.Pending(stage))|
  }

  /** The weight of the tokens waiting in the four queues: 3 at fetch, 2 at render, 1 at upload and test. */
  function QueueWeight(ls: R.Lists): nat {
    3 * Depth(ls, Fetch) + 2 * Depth(ls, Render) + Depth(ls, Upload) + Depth(ls, Test)
  }

  ghost function Held(ls: R.Lists, stage: Stage): nat {
    |R.Tokens(R.OfStage(ls, stage))|
  }

  /** The weight of all tokens, processing lists included. */
  ghost function TotalWeight(ls: R.Lists): nat {
    3 * Held(ls, Fetch) + 2 * Held(ls, Render) + Held(ls, Upload) + Held(ls, Test)
  }

  /** The handler of a stage names that stage's successor or fails. */
  predicate Answers(stage: Stage, c: Call) {
    c.handled.Named? ==> c.handled.stage == P.NextStage(stage)
  }

  /** The lists between the pop and the ack differ by at most one push to a lighter stage. */
  lemma HandleLists(db: Db, ls: R.Lists, t: Token, stage: Stage, w: WorkerId, c: Call)
    requires Answers(stage, c)
    ensures var ls' := Handle(db, ls, t, w, c).lists;
            ls' == ls || (P.NextStage(stage).Some? && ls' == R.Push(ls, P.NextStage(stage).value, t))
  {
  }

  function One(b: bool): nat {
    if b then 1 else 0
  }

  /** A pass takes one token from its own queue and adds at most one to the next stage's. */
  lemma PassDepth(c: Core, t: Turn, st: Stage)
    requires Answers(t.stage, t.call) && OnePass(c.db, c.lists, t.stage, t.worker, t.call).didWork
    ensures Depth(After(c, t).lists, st) + One(st == t.stage) <= Depth(c.lists, st) + One(P.NextStage(t.stage) == Some(st))
  {
    var popped := R.Pop(c.lists, t.stage, t.worker);
    var token := R.Last(R.At(c.lists, R.Pending(t.stage)));
    HandleLists(c.db, popped, token, t.stage, t.worker, t.call);
    var handled := Handle(c.db, popped, token, t.worker, t.call).lists;
    assert Depth(popped, st) + One(st == t.stage) == Depth(c.lists, st);
    assert R.At(After(c, t).lists, R.Pending(st)) == R.At(handled, R.Pending(st));
  }

  /** Whatever the handler returns and whichever calls fail, a pass that does work lowers the weight of the queues. */
  lemma PassLowersQueues(c: Core, t: Turn)
    requires Answers(t.stage, t.call) && OnePass(c.db, c.lists, t.stage, t.worker, t.call).didWork
    ensures QueueWeight(After(c, t).lists) < QueueWeight(c.lists)
  {
    PassDepth(c, t, Fetch);
    PassDepth(c, t, Render);
    PassDepth(c, t, Upload);
    PassDepth(c, t, Test);
  }

  /** The token a pass works on is at hand to be acked. */
  lemma PoppedIsHeld(c: Core, t: Turn)
    requires Answers(t.stage, t.call) && R.At(c.lists, R.Pending(t.stage)) != []
    ensures var token := R.Last(R.At(c.lists, R.Pending(t.stage)));
            var handled := Handle(c.db, R.Pop(c.lists, t.stage, t.worker), token, t.worker, t.call).lists;
            token in R.At(handled, R.Processing(t.stage, t.worker))
  {
    var popped := R.Pop(c.lists, t.stage, t.worker);
    var token := R.Last(R.At(c.lists, R.Pending(t.stage)));
    HandleLists(c.db, popped, token, t.stage, t.worker, t.call);
    assert R.At(popped, R.Processing(t.stage, t.worker))[0] == token;
  }

  /** The push that the pass hands on, if any. */
  lemma HandledHeld(c: Core, t: Turn, st: Stage)
    requires Answers(t.stage, t.call) && R.At(c.lists, R.Pending(t.stage)) != []
    ensures var popped := R.Pop(c.lists, t.stage, t.worker);
            var token := R.Last(R.At(c.lists, R.Pending(t.stage)));
            var handled := Handle(c.db, popped, token, t.worker, t.call).lists;
            Held(handled, st) <= Held(c.lists, st) + One(P.NextStage(t.stage) == Some(st))
  {
    var popped := R.Pop(c.lists, t.stage, t.worker);
    var token := R.Last(R.At(c.lists, R.Pending(t.stage)));
    R.StagePop(c.lists, t.stage, t.worker, st);
    HandleLists(c.db, popped, token, t.stage, t.worker, t.call);
    if Handle(c.db, popped, token, t.worker, t.call).lists != popped {
      R.StagePush(popped, P.NextStage(t.stage).value, token, st);
    }
  }

  lemma PassHeld(c: Core, t: Turn, st: Stage)
    requires Answers(t.stage, t.call) && OnePass(c.db, c.lists, t.stage, t.worker, t.call).didWork
    requires !t.call.ack.Refused?
    ensures Held(After(c, t).lists, st) + One(st == t.stage) <= Held(c.lists, st) + One(P.NextStage(t.stage) == Some(st))
  {
    var token := R.Last(R.At(c.lists, R.Pending(t.stage)));
    var handled := Handle(c.db, R.Pop(c.lists, t.stage, t.worker), token, t.worker, t.call).lists;
    HandledHeld(c, t, st);
    PoppedIsHeld(c, t);
    R.StageAck(handled, t.stage, t.worker, token, st);
  }

  /** If its ack takes effect, a pass that does work lowers the weight of all tokens there are. */
  lemma PassLowersTotal(c: Core, t: Turn)
    requires Answers(t.stage, t.call) && OnePass(c.db, c.lists, t.stage, t.worker, t.call).didWork
    requires !t.call.ack.Refused?
    ensures TotalWeight(After(c, t).lists) < TotalWeight(c.lists)
  {
    PassHeld(c, t, Fetch);
    PassHeld(c, t, Render);
    PassHeld(c, t, Upload);
    PassHeld(c, t, Test);
  }

  // ----- Runs without call errors -----

  predicate NoErrors(c: Call) {
    c.pop.Answered? && c.claim.Answered? && c.read.Answered? && c.settle.Answered? && c.push.Answered? && c.ack.Answered?
  }

  predicate Serves(c: Core, t: Turn) {
    R.At(c.lists, R.Pending(t.stage)) != [] && NoErrors(t.call) && Answers(t.stage, t.call)
  }

  ghost predicate Drains(c: Core, turns: seq<Turn>)
    decreases |turns|
  {
    turns == [] || (Serves(c, turns[0]) && Drains(After(c, turns[0]), turns[1..]))
  }

  function Drained(c: Core, turns: seq<Turn>): Core
    decreases |turns|
  {
    if turns == [] then c else Drained(After(c, turns[0]), turns[1..])
  }

  predicate Quiet(ls: R.Lists) {
    Depth(ls, Fetch) == 0 && Depth(ls, Render) == 0 && Depth(ls, Upload) == 0 && Depth(ls, Test) == 0
  }

  /** No drain is longer than the weight it starts with. */
  lemma {:induction false} DrainBound(c: Core, turns: seq<Turn>)
    requires Drains(c, turns)
    ensures |turns| + QueueWeight(Drained(c, turns).lists) <= QueueWeight(c.lists)
    decreases |turns|
  {
    if turns != [] {
      PassLowersQueues(c, turns[0]);
      DrainBound(After(c, turns[0]), turns[1..]);
    }
  }

  /** The handlers may be given any results: some drain to the end always exists, and by DrainBound every way of
      going on reaches one. */
  lemma {:induction false} DrainExists(c: Core, w: WorkerId, call: Call) returns (turns: seq<Turn>)
    requires NoErrors(call) && call.handled.Errored?
    ensures Drains(c, turns) && Quiet(Drained(c, turns).lists)
    decreases QueueWeight(c.lists)
  {
    if Quiet(c.lists) {
      turns := [];
    } else {
      var stage := if Depth(c.lists, Fetch) > 0 then Fetch else if Depth(c.lists, Render) > 0 then Render
                   else if Depth(c.lists, Upload) > 0 then Upload else Test;
      var t := Turn(stage, w, call);
      PassLowersQueues(c, t);
      var rest := DrainExists(After(c, t), w, call);
      turns := [t] + rest;
      assert turns[1..] == rest;
    }
  }

  // ----- What a drain does to the rows -----

  ghost predicate NothingRunning(db: Db) {
    forall k :: k in db ==> db[k].status != Running
  }

  ghost predicate Still(c: Core) {
    TableOk(c.db) && NothingRunning(c.db)
  }

  /** A queued row after an error-free pass over its token. */
  function ServedRow(j: Job, c: Call): Job {
    match c.handled
    case Errored(message) =>
      AfterFailure(j.(worker := None), message, c.now + Backoff.Compute(j.attempts + 1, c.jitter))
    case Named(Some(next)) => j.(stage := next, worker := None)
    case Named(None) => j.(status := Done)
  }

  predicate SameButOwner(a: Job, b: Job) {
    a.(worker := None) == b.(worker := None)
  }

  lemma ClaimServes(db: Db, id: JobId, w: WorkerId)
    requires TableOk(db) && id in db && db[id].status == Queued
    ensures var db1 := db[id := db[id].(status := Running, worker := Some(w))];
            Claim(db, id, w) == Written(db1, None) && TableOk(db1)
  {
    SaveKeepsIndex(db, id, db[id].(status := Running, worker := Some(w)));
    StatementKeepsTable(db, ClaimFor(id, w), Answered);
  }

  lemma SettleServes(db: Db, id: JobId, c: Call)
    requires TableOk(db) && id in db && db[id].status == Running
    ensures var w := Execute(db, SettleOf(id, db[id], c));
            && w.error.None? && id in w.db && w.db == db[id := w.db[id]] && TableOk(w.db)
            && SameButOwner(w.db[id], ServedRow(db[id].(status := Queued, worker := None), c))
  {
    var j := db[id];
    StatementKeepsTable(db, SettleOf(id, j, c), Answered);
    match c.handled {
      case Errored(message) =>
        SaveKeepsIndex(db, id, AfterFailure(j, message, c.now + Backoff.Compute(j.attempts + 1, c.jitter)));
      case Named(next) =>
        if next.Some? {
          SaveKeepsIndex(db, id, j.(stage := next.value, status := Queued, worker := None));
        } else {
          SaveKeepsIndex(db, id, j.(status := Done));
        }
    }
  }

  /** An error-free pass over the token of a queued row settles that row and no other, and hands on a token exactly
      when the row advanced. */
  lemma HandleServes(db: Db, ls: R.Lists, id: JobId, w: WorkerId, c: Call)
    requires TableOk(db) && NoErrors(c) && id in db && db[id].status == Queued
    ensures var o := Handle(db, ls, Uuid(id), w, c);
            && id in o.db && SameButOwner(o.db[id], ServedRow(db[id], c))
            && o.db == db[id := o.db[id]]
            && TableOk(o.db)
            && o.lists == (if c.handled.Named? && c.handled.stage.Some? then R.Push(ls, c.handled.stage.value, Uuid(id)) else ls)
  {
    assert RowOk(db[id]);
    ClaimServes(db, id, w);
    SettleServes(Claim(db, id, w).db, id, c);
  }

  /** A token of a row that is not queued, or no token of a row at all, changes nothing. */
  lemma HandleIdle(db: Db, ls: R.Lists, t: Token, w: WorkerId, c: Call)
    requires NoErrors(c) && (t.Uuid? && t.id in db ==> db[t.id].status != Queued)
    ensures Handle(db, ls, t, w, c).db == db && Handle(db, ls, t, w, c).lists == ls
  {
  }

  /** Attempts only grow, and a row that has ended stays as it is. */
  predicate Kept(was: Job, j: Job) {
    && was.attempts <= j.attempts && j.maxAttempts == was.maxAttempts
    && (Terminal(was) ==> j.status == was.status && j.attempts == was.attempts)
  }

  /** The row is finished, or has failed once more. */
  predicate Ended(was: Job, j: Job) {
    Terminal(j) || (j.attempts > was.attempts && j.lastError.Some?)
  }

  predicate Waits(ls: R.Lists, id: JobId) {
    exists st :: Uuid(id) in R.At(ls, R.Pending(st))
  }

  /** Row `id` has been finished, has failed once more, or still has a token waiting somewhere. */
  predicate Moving(was: Job, c: Core, id: JobId) {
    id in c.db && Kept(was, c.db[id]) && (Ended(was, c.db[id]) || Waits(c.lists, id))
  }

  lemma ListsAfterTurn(c: Core, t: Turn, st: Stage, x: Token)
    requires Serves(c, t) && x in R.At(c.lists, R.Pending(st)) && x != R.Last(R.At(c.lists, R.Pending(t.stage)))
    ensures x in R.At(After(c, t).lists, R.Pending(st))
  {
    var popped := R.Pop(c.lists, t.stage, t.worker);
    var token := R.Last(R.At(c.lists, R.Pending(t.stage)));
    HandleLists(c.db, popped, token, t.stage, t.worker, t.call);
    assert x in R.At(popped, R.Pending(st));
  }

  lemma TurnKeepsStill(c: Core, t: Turn)
    requires Still(c) && Serves(c, t)
    ensures Still(After(c, t)) && After(c, t).db.Keys == c.db.Keys
  {
    var popped := R.Pop(c.lists, t.stage, t.worker);
    var token := R.Last(R.At(c.lists, R.Pending(t.stage)));
    if token.Uuid? && token.id in c.db && c.db[token.id].status == Queued {
      HandleServes(c.db, popped, token.id, t.worker, t.call);
    } else {
      HandleIdle(c.db, popped, token, t.worker, t.call);
    }
  }

  lemma TurnOnOwnToken(was: Job, c: Core, t: Turn, id: JobId)
    requires Still(c) && Serves(c, t) && Moving(was, c, id)
    requires R.Last(R.At(c.lists, R.Pending(t.stage))) == Uuid(id)
    ensures Moving(was, After(c, t), id)
  {
    var popped := R.Pop(c.lists, t.stage, t.worker);
    var o := Handle(c.db, popped, Uuid(id), t.worker, t.call);
    if c.db[id].status == Queued {
      HandleServes(c.db, popped, id, t.worker, t.call);
      if t.call.handled.Named? && t.call.handled.stage.Some? {
        var next := t.call.handled.stage.value;
        assert Uuid(id) in R.At(After(c, t).lists, R.Pending(next));
      }
    } else {
      HandleIdle(c.db, popped, Uuid(id), t.worker, t.call);
    }
  }

  lemma TurnOnOtherToken(was: Job, c: Core, t: Turn, id: JobId)
    requires Still(c) && Serves(c, t) && Moving(was, c, id)
    requires R.Last(R.At(c.lists, R.Pending(t.stage))) != Uuid(id)
    ensures Moving(was, After(c, t), id)
  {
    var popped := R.Pop(c.lists, t.stage, t.worker);
    var token := R.Last(R.At(c.lists, R.Pending(t.stage)));
    if token.Uuid? && token.id in c.db && c.db[token.id].status == Queued {
      HandleServes(c.db, popped, token.id, t.worker, t.call);
    } else {
      HandleIdle(c.db, popped, token, t.worker, t.call);
    }
    if st: Stage :| Uuid(id) in R.At(c.lists, R.Pending(st)) {
      ListsAfterTurn(c, t, st, Uuid(id));
    }
  }

  lemma {:induction false} DrainMoves(was: Job, c: Core, turns: seq<Turn>, id: JobId)
    requires Still(c) && Drains(c, turns) && Moving(was, c, id)
    ensures Still(Drained(c, turns)) && Moving(was, Drained(c, turns), id)
    decreases |turns|
  {
    if turns != [] {
      TurnKeepsStill(c, turns[0]);
      if R.Last(R.At(c.lists, R.Pending(turns[0].stage))) == Uuid(id) {
        TurnOnOwnToken(was, c, turns[0], id);
      } else {
        TurnOnOtherToken(was, c, turns[0], id);
      }
      DrainMoves(was, After(c, turns[0]), turns[1..], id);
    }
  }

  lemma {:induction false} DrainKeepsStill(c: Core, turns: seq<Turn>)
    requires Still(c) && Drains(c, turns)
    ensures Still(Drained(c, turns)) && Drained(c, turns).db.Keys == c.db.Keys
    decreases |turns|
  {
    if turns != [] {
      TurnKeepsStill(c, turns[0]);
      DrainKeepsStill(After(c, turns[0]), turns[1..]);
    }
  }

  lemma MovedOn(was: Job, c: Core, id: JobId)
    requires Still(c) && Moving(was, c, id) && Quiet(c.lists)
    ensures Terminal(c.db[id]) || (c.db[id].status == Queued && c.db[id].lastError.Some? && c.db[id].attempts > was.attempts)
  {
    forall st: Stage ensures R.At(c.lists, R.Pending(st)) == [] {
      match st
      case Fetch =>
      case Render =>
      case Upload =>
      case Test =>
    }
  }

  /** When all queues are empty, every row that had a token in some queue is done, dead, or queued with last_error
      set and at least one attempt more, whatever the handlers returned and however many tokens were stale. */
  lemma Quiescence(c: Core, turns: seq<Turn>, id: JobId, st: Stage)
    requires Still(c) && Drains(c, turns) && Quiet(Drained(c, turns).lists)
    requires id in c.db && Uuid(id) in R.At(c.lists, R.Pending(st))
    ensures id in Drained(c, turns).db
    ensures var j := Drained(c, turns).db[id];
            Terminal(j) || (j.status == Queued && j.lastError.Some? && j.attempts > c.db[id].attempts)
  {
    var was := c.db[id];
    assert Moving(was, c, id);
    DrainMoves(was, c, turns, id);
    MovedOn(was, Drained(c, turns), id);
  }
}
