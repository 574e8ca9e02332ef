/** One pass of ProcessOne as a function of the table, the lists and what the outside world answers. */
module Processing {
  import opened Types
  import opened Table
  import R = RedisLists
  import P = Protocol
  import Backoff
  import opened FailStop

  /** What Handler.Process returned: the next stage ("" is None), or an error. */
  datatype Handled = Named(stage: Option<Stage>) | Errored(message: string)

  /** The outside world during one ProcessOne: how each call ends, what the handler returns, the clock
      and the jitter, and whether the context was cancelled meanwhile. */
  datatype Call = Call(
    pop: Reply, claim: Reply, read: Reply, settle: Reply, push: Reply, ack: Reply,
    handled: Handled, now: Time, jitter: real, cancelled: bool)

  /** Recoverable errors are logged by Run; PostClaim is errPostClaim, which ends it. */
  datatype RunError = Fine | Recoverable | PostClaim

  datatype Outcome = Outcome(db: Db, lists: R.Lists, didWork: bool, error: RunError)

  /** What the settle statement is for a handler result; the delay counts from the attempts read after the claim. */
  function SettleOf(id: JobId, job: Job, c: Call): Statement {
    match c.handled
    case Errored(message) => FailRow(id, message, c.now + Backoff.Compute(job.attempts + 1, c.jitter))
    case Named(Some(next)) => AdvanceRow(id, next)
    case Named(None) => FinishRow(id)
  }

  /** From the claim to the settle and push of one popped token. */
  function Handle(db: Db, ls: R.Lists, t: Token, w: WorkerId, c: Call): Outcome {
    if t.Garbage? then Outcome(db, ls, true, Recoverable) else
    var claim := Sent(db, Claim(db, t.id, w), c.claim);
    if claim.error.Some? then Outcome(claim.db, ls, true, if claim.error.value.NotClaimable? then Fine else Recoverable)
    else if !c.read.Answered? || t.id !in claim.db then Outcome(claim.db, ls, true, PostClaim)
    else
      var settle := Sent(claim.db, Execute(claim.db, SettleOf(t.id, claim.db[t.id], c)), c.settle);
      if settle.error.Some? then Outcome(settle.db, ls, true, PostClaim)
      else if c.handled.Named? && c.handled.stage.Some? then
        Outcome(settle.db, if c.push.Refused? then ls else R.Push(ls, c.handled.stage.value, t), true,
                if c.push.Answered? then Fine else Recoverable)
      else Outcome(settle.db, ls, true, Fine)
  }

  function OnePass(db: Db, ls: R.Lists, stage: Stage, w: WorkerId, c: Call): Outcome {
    var queue := R.At(ls, R.Pending(stage));
    var popped := if c.pop.Refused? then ls else R.Perform(ls, R.PopFor(stage, w));
    if !c.pop.Answered? then Outcome(db, popped, false, Recoverable)
    else if queue == [] then Outcome(db, ls, false, Fine)
    else
      var t := R.Last(queue);
      var o := Handle(db, popped, t, w, c);
      o.(lists := if c.ack.Refused? then o.lists else R.Ack(o.lists, stage, w, t))
  }

  /** The loop of Run over a sequence of ProcessOne calls, up to the first that ends it. */
  datatype Exit = Exit(db: Db, lists: R.Lists, error: RunError)

  function RunOver(db: Db, ls: R.Lists, stage: Stage, w: WorkerId, calls: seq<Call>): Exit
    decreases |calls|
  {
    if calls == [] then Exit(db, ls, Fine) else
    var o := OnePass(db, ls, stage, w, calls[0]);
    if o.error != Fine && calls[0].cancelled then Exit(o.db, o.lists, Fine)
    else if o.error == PostClaim then Exit(o.db, o.lists, PostClaim)
    else RunOver(o.db, o.lists, stage, w, calls[1..])
  }

  /** A pass that does not end the loop leaves its worker no running row it did not have before:
      only a claim whose answer was lost, or errPostClaim, can. */
  lemma PassLeavesNothing(db: Db, ls: R.Lists, stage: Stage, w: WorkerId, c: Call, id: JobId)
    requires OnePass(db, ls, stage, w, c).error != PostClaim && c.claim != Lost
    requires Owns(OnePass(db, ls, stage, w, c).db, w, id)
    ensures Owns(db, w, id)
  {
  }
}

/** internal/worker as an object: ProcessOne and the loop of Run over a store and a queue. */
module Worker {
  import opened Types
  import opened Table
  import opened Processing
  import S = Store
  import Q = Queue
  import Backoff

  class Worker {
    const stage: Stage
    const id: WorkerId
    const store: S.Store
    const queue: Q.Queue

    constructor (stage: Stage, id: WorkerId, store: S.Store, queue: Q.Queue)
      ensures this.stage == stage && this.id == id && this.store == store && this.queue == queue
    {
      this.stage, this.id, this.store, this.queue := stage, id, store, queue;
    }

    ghost predicate Valid()
      reads store, queue
    {
      store.Valid() && queue.Valid()
    }

    method ProcessOne(c: Call) returns (didWork: bool, error: RunError)
      requires Valid()
      modifies store`rows, queue`lists
      ensures Valid()
      ensures Outcome(store.rows, queue.lists, didWork, error)
              == OnePass(old(store.rows), old(queue.lists), stage, id, c)
    {
      var popped := queue.BlockingPop(stage, id, c.pop);
      if popped.Empty? {
        return false, Fine;
      }
      if popped.Broken? {
        return false, Recoverable;
      }
      error := HandleToken(popped.token, c);
      var _ := queue.Ack(stage, id, popped.token, c.ack);
      didWork := true;
    }

    /** The body of ProcessOne between the pop and the deferred ack. */
    method HandleToken(t: Token, c: Call) returns (error: RunError)
      requires Valid()
      modifies store`rows, queue`lists
      ensures Valid()
      ensures Outcome(store.rows, queue.lists, true, error) == Handle(old(store.rows), old(queue.lists), t, id, c)
    {
      if t.Garbage? {
        return Recoverable;
      }
      var claimed := store.ClaimJob(t.id, id, c.claim);
      if claimed == Some(NotClaimable) {
        return Fine;
      }
      if claimed.Some? {
        return Recoverable;
      }
      var job := store.GetJob(t.id, c.read);
      if job.Err? {
        return PostClaim;
      }
      match c.handled {
        case Errored(message) =>
          var nextRun := c.now + Backoff.Compute(job.value.attempts + 1, c.jitter);
          var failed := store.MarkFailed(t.id, message, nextRun, c.settle);
          return if failed.Some? then PostClaim else Fine;
        case Named(next) =>
          if next.Some? {
            var advanced := store.AdvanceJob(t.id, next.value, c.settle);
            if advanced.Some? {
              return PostClaim;
            }
            var pushed := queue.Push(next.value, t, c.push);
            return if pushed then Fine else Recoverable;
          }
          var done := store.MarkDone(t.id, c.settle);
          return if done.Some? then PostClaim else Fine;
      }
    }

    /** Run: an initial heartbeat, then ProcessOne until the context ends or errPostClaim; the heartbeat goroutine
        is the Beat step of the protocol. */
    method Run(calls: seq<Call>, beat: Reply) returns (error: RunError)
      requires Valid()
      modifies store`rows, queue
      ensures Valid()
      ensures Exit(store.rows, queue.lists, error) == RunOver(old(store.rows), old(queue.lists), stage, id, calls)
      ensures error in {Fine, PostClaim}
      ensures queue.beats == if beat.Refused? then old(queue.beats) else old(queue.beats) + {id}
    {
      var _ := queue.Heartbeat(id, beat);
      ghost var beats := queue.beats;
      ghost var target := RunOver(store.rows, queue.lists, stage, id, calls);
      var i := 0;
      assert calls[0..] == calls;
      while i < |calls|
        invariant 0 <= i <= |calls| && Valid() && queue.beats == beats
        invariant RunOver(store.rows, queue.lists, stage, id, calls[i..]) == target
      {
        assert calls[i..][0] == calls[i] && calls[i..][1..] == calls[i + 1..];
        var _, e := ProcessOne(calls[i]);
        if e != Fine && calls[i].cancelled {
          return Fine;
        }
        if e == PostClaim {
          return e;
        }
        i := i + 1;
      }
      return Fine;
    }
  }
}
