/** Runs built step by step. */
module Traces {
  import opened Types
  import opened Table
  import opened Protocol
  import R = RedisLists

  /** Honest replies and a Redis that keeps its data, but no hypothesis on heartbeats. */
  const NO_TIMING := Hypotheses(false, true, true)

  ghost predicate Reached(start: State, events: seq<Event>, s: State) {
    Run(NO_TIMING, start, events) && Exec(start, events) == s
  }

  lemma Then(start: State, events: seq<Event>, s: State, e: Event)
    requires Reached(start, events, s) && Enabled(s, e) && Permits(NO_TIMING, s, e)
    ensures Reached(start, events + [e], Apply(s, e))
  {
    assert [e][1..] == [];
    assert Run(NO_TIMING, Apply(s, e), []) && Exec(s, [e]) == Exec(Apply(s, e), []);
    RunConcat(NO_TIMING, start, events, [e]);
  }

  lemma ThenAll(start: State, before: seq<Event>, s: State, more: seq<Event>, t: State)
    requires Reached(start, before, s) && Run(NO_TIMING, s, more) && Exec(s, more) == t
    ensures Reached(start, before + more, t)
  {
    RunConcat(NO_TIMING, start, before, more);
  }

  /** What handlers and the sweeper work on is as it was. */
  predicate Unmoved(s: State, s': State) {
    && s'.files == s.files && s'.drives == s.drives && s'.cache == s.cache
    && s'.pass == s.pass && s'.beats == s.beats && s'.now == s.now
  }

  /** A step of a worker other than a heartbeat or a handler write. */
  lemma Acting(start: State, before: seq<Event>, s: State, w: WorkerId, a: WorkerAction)
    returns (events: seq<Event>, s': State)
    requires Reached(start, before, s) && WorkerEnabled(s, w, a) && !a.Beat? && !a.HandlerWrite?
    requires ReplyOf(OnWorker(w, a)) != Lost
    ensures events == before + [OnWorker(w, a)] && Reached(start, events, s') && Unmoved(s, s')
    ensures s'.workers == s.workers[w := Worker(s.workers[w].stage, PcAfter(s, w, a))] && s'.producers == s.producers
    ensures s'.db == Result(s, OnWorker(w, a)).db && s'.lists == ListsAfter(s, OnWorker(w, a))
  {
    Then(start, before, s, OnWorker(w, a));
    events, s' := before + [OnWorker(w, a)], Apply(s, OnWorker(w, a));
  }

  lemma Starting(start: State, before: seq<Event>, s: State, w: WorkerId, stage: Stage)
    returns (events: seq<Event>, s': State)
    requires Reached(start, before, s) && w !in s.workers
    ensures Reached(start, events, s') && Unmoved(s, s') && s'.db == s.db && s'.lists == s.lists && s'.producers == s.producers
    ensures s'.workers == s.workers[w := Worker(stage, Idle)]
  {
    Then(start, before, s, Start(w, stage));
    events, s' := before + [Start(w, stage)], Apply(s, Start(w, stage));
  }

  lemma Inserting(start: State, before: seq<Event>, s: State, p: nat, id: JobId, nj: NewJob)
    returns (events: seq<Event>, s': State)
    requires Reached(start, before, s) && ProducerEnabled(s, p, Insert(id, nj, Answered))
    requires Enqueue(s.db, id, nj, s.now).error.None?
    ensures Reached(start, events, s') && Unmoved(s, s') && s'.workers == s.workers && s'.lists == s.lists
    ensures s'.db == s.db[id := NewRow(id, nj, s.now)] && s'.producers == s.producers[p := Inserted(id, nj.stage)]
  {
    var e := OnProducer(p, Insert(id, nj, Answered));
    InsertGoesThrough(s, p, id, nj);
    Then(start, before, s, e);
    events, s' := before + [e], Apply(s, e);
  }

  lemma InsertGoesThrough(s: State, p: nat, id: JobId, nj: NewJob)
    requires Enqueue(s.db, id, nj, s.now).error.None?
    ensures var e := OnProducer(p, Insert(id, nj, Answered));
            && Result(s, e) == Written(s.db[id := NewRow(id, nj, s.now)], None) && ListsAfter(s, e) == s.lists
            && ProducersAfter(s, e) == s.producers[p := Inserted(id, nj.stage)]
  {
    var e := OnProducer(p, Insert(id, nj, Answered));
    assert StatementOf(s, e) == EnqueueRow(id, nj, s.now) && CommandOf(s, e) == R.NoCommand;
  }

  lemma PushingNew(start: State, before: seq<Event>, s: State, p: nat) returns (events: seq<Event>, s': State)
    requires Reached(start, before, s) && ProducerAt(s, p).Inserted?
    ensures Reached(start, events, s') && Unmoved(s, s') && s'.workers == s.workers && s'.db == s.db
    ensures var f := ProducerAt(s, p);
            s'.lists == R.Perform(s.lists, R.PushTo(f.stage, Uuid(f.id))) && s'.producers == s.producers[p := Free]
  {
    var e := OnProducer(p, PushNew(Answered));
    assert StatementOf(s, e) == NoStatement;
    Then(start, before, s, e);
    events, s' := before + [e], Apply(s, e);
  }

  lemma Checking(start: State, before: seq<Event>, s: State, p: nat, u: UserId, m: MessageId)
    returns (events: seq<Event>, s': State)
    requires Reached(start, before, s) && ProducerAt(s, p).Free? && !HasJobFor(s.db, u, m)
    ensures Reached(start, events, s') && Unmoved(s, s') && s'.workers == s.workers && s'.db == s.db && s'.lists == s.lists
    ensures s'.producers == s.producers[p := Checked(u, m)]
  {
    var e := OnProducer(p, CheckMessage(u, m, Answered));
    assert StatementOf(s, e) == NoStatement && CommandOf(s, e) == R.NoCommand;
    Then(start, before, s, e);
    events, s' := before + [e], Apply(s, e);
  }

  lemma ClaimGoesThrough(s: State, w: WorkerId, id: JobId)
    requires w in s.workers && s.workers[w].pc == Popped(Uuid(id)) && Claim(s.db, id, w).error.None?
    ensures var e := OnWorker(w, ClaimRow(Answered));
            Result(s, e) == Claim(s.db, id, w) && ListsAfter(s, e) == s.lists && PcAfter(s, w, e.action) == Claimed(id)
  {
    var e := OnWorker(w, ClaimRow(Answered));
    assert StatementOf(s, e) == ClaimFor(id, w) && CommandOf(s, e) == R.NoCommand;
  }

  /** The worker reads the row it has claimed. */
  lemma ReadsRow(s: State, w: WorkerId, id: JobId)
    requires w in s.workers && s.workers[w].pc == Claimed(id) && id in s.db
    ensures var e := OnWorker(w, ReadRow(Answered));
            && Result(s, e).db == s.db && ListsAfter(s, e) == s.lists
            && PcAfter(s, w, e.action) == Working(id, s.db[id], 0, Home(s.db[id]))
  {
    var e := OnWorker(w, ReadRow(Answered));
    assert StatementOf(s, e) == NoStatement && CommandOf(s, e) == R.NoCommand;
  }
}
