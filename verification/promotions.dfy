/** What the sweeper puts back into the queues, and when: a retry only after the delay of its last failure. */
module Promotions {
  import opened Types
  import opened Table
  import opened Protocol
  import R = RedisLists
  import Backoff

  /** A run with its states: before each step, and at the end. */
  datatype Trail = Trail(states: seq<State>, events: seq<Event>)

  function States(s: State, events: seq<Event>): (states: seq<State>)
    ensures |states| == |events| + 1
    decreases |events|
  {
    if events == [] then [s] else [s] + States(Apply(s, events[0]), events[1..])
  }

  function TrailOf(s: State, events: seq<Event>): Trail {
    Trail(States(s, events), events)
  }

  ghost predicate StepAt(r: Trail, n: nat) {
    && n < |r.events| && n + 1 < |r.states|
    && Enabled(r.states[n], r.events[n]) && r.states[n + 1] == Apply(r.states[n], r.events[n])
  }

  ghost predicate IsTrail(r: Trail) {
    |r.states| == |r.events| + 1 && forall n :: 0 <= n < |r.events| ==> StepAt(r, n)
  }

  lemma {:induction false} RunIsTrail(h: Hypotheses, s: State, events: seq<Event>)
    requires Run(h, s, events)
    ensures IsTrail(TrailOf(s, events))
    ensures States(s, events)[0] == s && States(s, events)[|events|] == Exec(s, events)
    decreases |events|
  {
    if events != [] {
      var (r, rest) := (TrailOf(s, events), TrailOf(Apply(s, events[0]), events[1..]));
      RunIsTrail(h, Apply(s, events[0]), events[1..]);
      forall n | 0 <= n < |events| ensures StepAt(r, n) {
        if n > 0 {
          assert StepAt(rest, n - 1);
        }
      }
    }
  }

  // ----- Listed before pushed -----

  /** Step number i lists the row, as it is then, among those to promote. */
  ghost predicate ListedAsDue(r: Trail, i: nat, row: Job) {
    && i < |r.events| && i < |r.states| && r.events[i].OnSweeper? && r.events[i].sweep.ListReady? && row in r.events[i].sweep.rows
    && Enabled(r.states[i], r.events[i])
  }

  ghost predicate ListedAsStale(r: Trail, i: nat, row: Job) {
    && i < |r.events| && i < |r.states| && r.events[i].OnSweeper? && r.events[i].sweep.ListStale? && row in r.events[i].sweep.rows
    && Enabled(r.states[i], r.events[i])
  }

  lemma PromotingStep(s: State, e: Event, row: Job)
    requires Enabled(s, e) && Apply(s, e).pass.Promoting? && row in Apply(s, e).pass.rows
    ensures (e.OnSweeper? && e.sweep.ListReady? && row in e.sweep.rows) || (s.pass.Promoting? && row in s.pass.rows)
  {
  }

  lemma RepushingStep(s: State, e: Event, row: Job)
    requires Enabled(s, e) && Apply(s, e).pass.Repushing? && row in Apply(s, e).pass.rows
    ensures (e.OnSweeper? && e.sweep.ListStale? && row in e.sweep.rows) || (s.pass.Repushing? && row in s.pass.rows)
  {
  }

  /** What the listing says about a row in it. */
  lemma DueMeans(s: State, rows: seq<Job>, row: Job)
    requires SweepEnabled(s, ListReady(rows)) && row in rows
    ensures row.id in s.db && s.db[row.id] == row && row.status == Queued && row.lastError.Some? && row.nextRunAt <= s.now
  {
  }

  lemma StaleMeans(s: State, rows: seq<Job>, row: Job)
    requires SweepEnabled(s, ListStale(rows)) && row in rows
    ensures row.id in s.db && s.db[row.id] == row
    ensures row.status == Queued && row.lastError.None? && row.createdAt < s.now - s.threshold
  {
  }

  lemma PushedToken(s: State, b: SweepAction)
    requires (b.Promote? || b.Repush?) && SweepEnabled(s, b)
    ensures CommandOf(s, OnSweeper(b)) == R.PushTo(s.pass.rows[0].stage, Uuid(s.pass.rows[0].id)) && s.pass.rows[0] in s.pass.rows
  {
  }

  lemma {:induction false} DueListing(r: Trail, n: nat, row: Job) returns (i: nat)
    requires IsTrail(r) && n <= |r.events| && r.states[0].pass.Resting?
    requires r.states[n].pass.Promoting? && row in r.states[n].pass.rows
    ensures i < n && ListedAsDue(r, i, row)
  {
    assert StepAt(r, n - 1);
    PromotingStep(r.states[n - 1], r.events[n - 1], row);
    if r.events[n - 1].OnSweeper? && r.events[n - 1].sweep.ListReady? {
      i := n - 1;
    } else {
      i := DueListing(r, n - 1, row);
    }
  }

  lemma {:induction false} StaleListing(r: Trail, n: nat, row: Job) returns (i: nat)
    requires IsTrail(r) && n <= |r.events| && r.states[0].pass.Resting?
    requires r.states[n].pass.Repushing? && row in r.states[n].pass.rows
    ensures i < n && ListedAsStale(r, i, row)
  {
    assert StepAt(r, n - 1);
    RepushingStep(r.states[n - 1], r.events[n - 1], row);
    if r.events[n - 1].OnSweeper? && r.events[n - 1].sweep.ListStale? {
      i := n - 1;
    } else {
      i := StaleListing(r, n - 1, row);
    }
  }

  // ----- The last failure -----

  /** Step number j is the failure that the row tells of. */
  predicate FailedAt(r: Trail, j: nat, row: Job) {
    && j < |r.events| && j < |r.states| && row.lastError.Some? && Effective(r.states[j], r.events[j])
    && StatementOf(r.states[j], r.events[j]) == FailRow(row.id, row.lastError.value, row.nextRunAt)
  }

  predicate Fails(s: State, e: Event, id: JobId) {
    Effective(s, e) && StatementOf(s, e).FailRow? && StatementOf(s, e).id == id
  }

  lemma FailureWrites(db: Db, t: Statement, net: Reply, id: JobId)
    requires var db' := Sent(db, Execute(db, t), net).db; id in db' && db'[id].lastError.Some?
    ensures var j' := Sent(db, Execute(db, t), net).db[id];
            if !net.Refused? && t.FailRow? && t.id == id && Execute(db, t).error.None?
            then t == FailRow(id, j'.lastError.value, j'.nextRunAt)
            else id in db && db[id].lastError == j'.lastError && db[id].nextRunAt == j'.nextRunAt
  {
  }

  /** A row tells of its last failure, and a row that never failed of none. */
  lemma FailureStep(s: State, e: Event, id: JobId)
    requires id in Apply(s, e).db && Apply(s, e).db[id].lastError.Some?
    ensures var j' := Apply(s, e).db[id];
            if Fails(s, e, id) then StatementOf(s, e) == FailRow(id, j'.lastError.value, j'.nextRunAt)
            else id in s.db && s.db[id].lastError == j'.lastError && s.db[id].nextRunAt == j'.nextRunAt
  {
    FailureWrites(s.db, StatementOf(s, e), ReplyOf(e), id);
  }

  /** The row has told of this failure since step number j. */
  predicate Tells(s: State, row: Job) {
    row.id in s.db && s.db[row.id].lastError == row.lastError && s.db[row.id].nextRunAt == row.nextRunAt
  }

  predicate FailsAt(r: Trail, k: nat, id: JobId) {
    k < |r.events| && k < |r.states| && Fails(r.states[k], r.events[k], id)
  }

  lemma TellsStep(s: State, e: Event, row: Job)
    requires Tells(Apply(s, e), row) && row.lastError.Some?
    ensures if Fails(s, e, row.id) then StatementOf(s, e) == FailRow(row.id, row.lastError.value, row.nextRunAt)
            else Tells(s, row)
  {
    FailureStep(s, e, row.id);
  }

  ghost predicate NoneFailed(s: State) {
    forall k :: k in s.db ==> s.db[k].lastError.None?
  }

  /** None of the steps from number a up to number b is a failure of the job. */
  predicate NoFailure(r: Trail, a: nat, b: nat, id: JobId) {
    a >= b || (!FailsAt(r, b - 1, id) && NoFailure(r, a, b - 1, id))
  }

  /** Before the step, the row told of the same failure, or the step is that failure. */
  lemma OneBack(r: Trail, n: nat, row: Job)
    requires IsTrail(r) && n < |r.events| && Tells(r.states[n + 1], row) && row.lastError.Some?
    ensures if FailsAt(r, n, row.id) then FailedAt(r, n, row) else Tells(r.states[n], row)
  {
    assert StepAt(r, n);
    TellsStep(r.states[n], r.events[n], row);
  }

  lemma {:induction false} LastFailure(r: Trail, n: nat, row: Job) returns (j: nat)
    requires IsTrail(r) && n <= |r.events| && NoneFailed(r.states[0])
    requires Tells(r.states[n], row) && row.lastError.Some?
    ensures j < n && FailedAt(r, j, row) && NoFailure(r, j + 1, n, row.id)
    decreases n
  {
    OneBack(r, n - 1, row);
    j := n - 1;
    if !FailsAt(r, n - 1, row.id) {
      j := LastFailure(r, n - 1, row);
    }
    NoFailureOn(r, j, n, row.id);
  }

  lemma NoFailureOn(r: Trail, j: nat, n: nat, id: JobId)
    requires j < n && (j == n - 1 || (!FailsAt(r, n - 1, id) && NoFailure(r, j + 1, n - 1, id)))
    ensures NoFailure(r, j + 1, n, id)
  {
  }

  // ----- The handler's error -----

  /** In step number k the handler of the worker returns this error about the job, and the retry time is set. */
  predicate HandlerFails(r: Trail, k: nat, w: WorkerId, id: JobId, message: string, nextRunAt: Time) {
    && k < |r.events| && k < |r.states| && r.events[k].OnWorker? && r.events[k].worker == w && r.events[k].action.HandlerReturn?
    && r.events[k].action.failure == Some(message) && Backoff.IsJitter(r.events[k].action.jitter)
    && var u := r.states[k];
    && w in u.workers && u.workers[w].pc.Working? && u.workers[w].pc.id == id
    && nextRunAt == u.now + Backoff.Compute(u.workers[w].pc.job.attempts + 1, r.events[k].action.jitter)
  }

  lemma FailingStep(s: State, e: Event, w: WorkerId)
    requires Enabled(s, e) && w in Apply(s, e).workers && Apply(s, e).workers[w].pc.Failing?
    ensures w in s.workers
    ensures s.workers[w].pc == Apply(s, e).workers[w].pc
            || (e.OnWorker? && e.worker == w && e.action.HandlerReturn? && s.workers[w].pc.Working?
                && Backoff.IsJitter(e.action.jitter) && e.action.failure.Some?
                && Apply(s, e).workers[w].pc
                   == Failing(s.workers[w].pc.id, e.action.failure.value,
                              s.now + Backoff.Compute(s.workers[w].pc.job.attempts + 1, e.action.jitter)))
  {
  }

  /** The worker is about to write this failure. */
  predicate AboutToFail(s: State, w: WorkerId, pc: Pc) {
    w in s.workers && s.workers[w].pc == pc && pc.Failing?
  }

  /** Before the step it was about to, too, or the step is the return of its handler. */
  lemma OneBackFailing(r: Trail, n: nat, w: WorkerId, pc: Pc)
    requires IsTrail(r) && n < |r.events| && AboutToFail(r.states[n + 1], w, pc)
    ensures AboutToFail(r.states[n], w, pc) || HandlerFails(r, n, w, pc.id, pc.message, pc.nextRunAt)
  {
    assert StepAt(r, n);
    FailingStep(r.states[n], r.events[n], w);
  }

  lemma {:induction false} FailingSince(r: Trail, n: nat, w: WorkerId, pc: Pc)
    returns (k: nat)
    requires IsTrail(r) && n <= |r.events| && r.states[0].workers == map[] && AboutToFail(r.states[n], w, pc)
    ensures k < n && HandlerFails(r, k, w, pc.id, pc.message, pc.nextRunAt)
  {
    OneBackFailing(r, n - 1, w, pc);
    if AboutToFail(r.states[n - 1], w, pc) {
      k := FailingSince(r, n - 1, w, pc);
    } else {
      k := n - 1;
    }
  }

  /** Who writes a failure: the sweeper, retryable at once, or the worker whose handler has failed. */
  lemma FailureBy(s: State, e: Event)
    requires StatementOf(s, e).FailRow?
    ensures var t := StatementOf(s, e);
            || (e.OnSweeper? && t.message == "worker died" && t.nextRunAt == s.now)
            || (e.OnWorker? && e.worker in s.workers && s.workers[e.worker].pc == Failing(t.id, t.message, t.nextRunAt))
  {
  }

  // ----- What is pushed -----

  /** In every run, what the sweeper pushes as a retry is the token of a row that was queued with a retry time that had come
      when the pass listed it, to the queue of its stage. */
  lemma PromotedWasDue(h: Hypotheses, s: State, events: seq<Event>, net: Reply) returns (r: Trail, i: nat)
    requires Init(s) && Run(h, s, events) && Enabled(Exec(s, events), OnSweeper(Promote(net)))
    ensures r == TrailOf(s, events)
    ensures var (t, row) := (Exec(s, events), Exec(s, events).pass.rows[0]);
            && CommandOf(t, OnSweeper(Promote(net))) == R.PushTo(row.stage, Uuid(row.id))
            && ListedAsDue(r, i, row)
            && var u := r.states[i];
            && row.id in u.db && u.db[row.id] == row
            && row.status == Queued && row.lastError.Some? && row.nextRunAt <= u.now
  {
    var row := Exec(s, events).pass.rows[0];
    r := TrailOf(s, events);
    RunIsTrail(h, s, events);
    PushedToken(Exec(s, events), Promote(net));
    i := DueListing(r, |events|, row);
    DueMeans(r.states[i], r.events[i].sweep.rows, row);
  }

  /** What it pushes as stale is the token of a row that was queued, had never failed, and was older than the threshold. */
  lemma RepushedWasStale(h: Hypotheses, s: State, events: seq<Event>, net: Reply) returns (r: Trail, i: nat)
    requires Init(s) && Run(h, s, events) && Enabled(Exec(s, events), OnSweeper(Repush(net)))
    ensures r == TrailOf(s, events)
    ensures var (t, row) := (Exec(s, events), Exec(s, events).pass.rows[0]);
            && CommandOf(t, OnSweeper(Repush(net))) == R.PushTo(row.stage, Uuid(row.id))
            && ListedAsStale(r, i, row)
            && var u := r.states[i];
            && row.id in u.db && u.db[row.id] == row
            && row.status == Queued && row.lastError.None? && row.createdAt < u.now - u.threshold
  {
    var row := Exec(s, events).pass.rows[0];
    r := TrailOf(s, events);
    RunIsTrail(h, s, events);
    PushedToken(Exec(s, events), Repush(net));
    i := StaleListing(r, |events|, row);
    StaleMeans(r.states[i], r.events[i].sweep.rows, row);
  }

  /** The last failure of the row was written in step j, retryable at once, by the sweeper; or by a worker whose handler
      failed in step k, and since then the whole delay of that failure has passed. */
  ghost predicate Waited(r: Trail, j: nat, k: nat, row: Job, now: Time) {
    && FailedAt(r, j, row)
    && if r.events[j].OnSweeper? then row.lastError == Some("worker died") && row.nextRunAt == r.states[j].now <= now
       else
         && k < j && r.events[j].OnWorker?
         && HandlerFails(r, k, r.events[j].worker, row.id, row.lastError.value, row.nextRunAt)
         && var a := r.states[k].workers[r.events[j].worker].pc.job.attempts + 1;
            4 * (now - r.states[k].now) >= 3 * Backoff.SECOND * Backoff.Base(a)
  }

  /** In every run, a retry that the sweeper pushes has waited: when it was listed, its last failure was a handler's error at
      least three quarters of min(2^a, 600) seconds ago, where a counts the attempts that the handler's worker had read and
      the one that failed; unless that failure was the sweeper's own. */
  lemma RetryWaits(h: Hypotheses, s: State, events: seq<Event>, net: Reply) returns (r: Trail, i: nat, j: nat, k: nat)
    requires Init(s) && Run(h, s, events) && Enabled(Exec(s, events), OnSweeper(Promote(net)))
    ensures r == TrailOf(s, events)
    ensures var row := Exec(s, events).pass.rows[0];
            && ListedAsDue(r, i, row) && j < i && Waited(r, j, k, row, r.states[i].now)
            && NoFailure(r, j + 1, i, row.id)
  {
    var row := Exec(s, events).pass.rows[0];
    r, i := PromotedWasDue(h, s, events, net);
    RunIsTrail(h, s, events);
    j := LastFailure(r, i, row);
    k := Since(r, i, j, row);
  }

  lemma Since(r: Trail, i: nat, j: nat, row: Job) returns (k: nat)
    requires IsTrail(r) && r.states[0].workers == map[] && j < i <= |r.events| && FailedAt(r, j, row)
    requires row.nextRunAt <= r.states[i].now
    ensures Waited(r, j, k, row, r.states[i].now)
  {
    k := 0;
    FailureBy(r.states[j], r.events[j]);
    if r.events[j].OnWorker? {
      var w := r.events[j].worker;
      k := FailingSince(r, j, w, r.states[j].workers[w].pc);
      var u := r.states[k];
      Backoff.ComputeWithin(u.workers[w].pc.job.attempts + 1, r.events[k].action.jitter);
    }
  }
}
