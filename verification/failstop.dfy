/** Fail-stop: a worker that goes round its loop leaves no row running behind it. */
module FailStop {
  import opened Types
  import opened Table
  import opened Protocol

  /** Row `id` is running and belongs to worker `w`. */
  predicate Owns(db: Db, w: WorkerId, id: JobId) {
    id in db && db[id].status == Running && db[id].worker == Some(w)
  }

  /** The worker is between claim and settle of `id`. */
  predicate Holds(pc: Pc, id: JobId) {
    Busy(pc) && pc.id == id
  }

  /** A running row belongs to a known worker process, which is working on that very row unless it has left its loop. */
  ghost predicate Accounted(db: Db, workers: map<WorkerId, Worker>) {
    forall w, id :: Owns(db, w, id) ==> w in workers && (Looping(workers[w].pc) ==> Holds(workers[w].pc, id))
  }

  ghost predicate AtMostOne(db: Db) {
    forall w, i, j :: Owns(db, w, i) && Owns(db, w, j) ==> i == j
  }

  ghost predicate FailStopped(s: State) {
    Accounted(s.db, s.workers) && AtMostOne(s.db)
  }

  /** A claim that went through although its caller was told it failed. */
  predicate LostClaim(s: State, e: Event) {
    ReplyOf(e) == Lost && StatementOf(s, e).ClaimFor? && Effective(s, e)
  }

  /** A statement other than a claim gives no worker a new running row. */
  lemma OnlyClaimsGive(db: Db, t: Statement, net: Reply, w: WorkerId, id: JobId)
    requires Owns(Sent(db, Execute(db, t), net).db, w, id)
    ensures Owns(db, w, id) || (t == ClaimFor(id, w) && !net.Refused? && Claim(db, id, w).error.None?)
  {
  }

  /** A settle that its caller is told about ends the running state of the row. */
  lemma SettleEnds(db: Db, pc: Pc, net: Reply, w: WorkerId)
    requires pc.Failing? || pc.Advancing? || pc.Finishing?
    requires Sent(db, Execute(db, SettleStatement(pc)), net).error.None?
    ensures !Owns(Sent(db, Execute(db, SettleStatement(pc)), net).db, w, pc.id)
  {
  }

  /** A worker step other than a settle never lets go of a row without leaving the loop, nor takes one but by claiming. */
  lemma QuietPc(s: State, w: WorkerId, a: WorkerAction, id: JobId)
    requires WorkerEnabled(s, w, a) && !a.SettleRow? && Looping(PcAfter(s, w, a))
    ensures Looping(s.workers[w].pc)
    ensures Holds(s.workers[w].pc, id) ==> Holds(PcAfter(s, w, a), id)
    ensures Holds(PcAfter(s, w, a), id) ==> Holds(s.workers[w].pc, id) || a.ClaimRow?
  {
  }

  lemma ClaimKeepsFailStop(s: State, w: WorkerId, net: Reply)
    requires FailStopped(s) && WorkerEnabled(s, w, ClaimRow(net))
    ensures FailStopped(Apply(s, OnWorker(w, ClaimRow(net)))) <==> !LostClaim(s, OnWorker(w, ClaimRow(net)))
  {
    var e := OnWorker(w, ClaimRow(net));
    var s' := Apply(s, e);
    var t := s.workers[w].pc.token;
    assert forall id :: !Owns(s.db, w, id);
    forall v, id | Owns(s'.db, v, id)
      ensures (v != w && Owns(s.db, v, id)) || (v == w && t == Uuid(id) && Effective(s, e))
    {
      OnlyClaimsGive(s.db, StatementOf(s, e), net, v, id);
    }
    if LostClaim(s, e) {
      assert Owns(s'.db, w, t.id);
      assert Looping(s'.workers[w].pc) && !Busy(s'.workers[w].pc);
    }
  }

  lemma SettleKeepsFailStop(s: State, w: WorkerId, net: Reply)
    requires FailStopped(s) && WorkerEnabled(s, w, SettleRow(net))
    ensures FailStopped(Apply(s, OnWorker(w, SettleRow(net))))
  {
    var e := OnWorker(w, SettleRow(net));
    var s' := Apply(s, e);
    var pc := s.workers[w].pc;
    forall v, id | Owns(s'.db, v, id)
      ensures Owns(s.db, v, id) && (v == w ==> !Looping(s'.workers[w].pc))
    {
      OnlyClaimsGive(s.db, StatementOf(s, e), net, v, id);
      if v == w && Result(s, e).error.None? {
        SettleEnds(s.db, pc, net, w);
      }
    }
  }

  lemma QuietKeepsFailStop(s: State, w: WorkerId, a: WorkerAction)
    requires FailStopped(s) && WorkerEnabled(s, w, a) && !a.ClaimRow? && !a.SettleRow?
    ensures FailStopped(Apply(s, OnWorker(w, a)))
  {
    var s' := Apply(s, OnWorker(w, a));
    assert s'.db == s.db;
    forall v, id | Owns(s'.db, v, id) && Looping(s'.workers[v].pc)
      ensures Holds(s'.workers[v].pc, id)
    {
      if v == w {
        QuietPc(s, w, a, id);
      }
    }
  }

  lemma OthersKeepFailStop(s: State, e: Event)
    requires FailStopped(s) && Enabled(s, e) && !e.OnWorker?
    ensures FailStopped(Apply(s, e))
  {
    forall v, id | Owns(Apply(s, e).db, v, id)
      ensures Owns(s.db, v, id)
    {
      OnlyClaimsGive(s.db, StatementOf(s, e), ReplyOf(e), v, id);
    }
  }

  /** From a fail-stopped state a step leads to a fail-stopped state exactly when it is not a claim
      that took effect behind the back of its caller. */
  lemma FailStopExactly(s: State, e: Event)
    requires FailStopped(s) && Enabled(s, e)
    ensures FailStopped(Apply(s, e)) <==> !LostClaim(s, e)
  {
    if e.OnWorker? {
      match e.action
      case ClaimRow(net) => ClaimKeepsFailStop(s, e.worker, net);
      case SettleRow(net) => SettleKeepsFailStop(s, e.worker, net);
      case _ => QuietKeepsFailStop(s, e.worker, e.action);
    } else {
      OthersKeepFailStop(s, e);
    }
  }

  lemma {:induction false} FailStopInRun(h: Hypotheses, s: State, events: seq<Event>)
    requires FailStopped(s) && Run(h, s, events) && h.replies
    ensures FailStopped(Exec(s, events))
    decreases |events|
  {
    if events != [] {
      FailStopExactly(s, events[0]);
      FailStopInRun(h, Apply(s, events[0]), events[1..]);
    }
  }

  lemma InitIsFailStopped(s: State)
    requires Init(s)
    ensures FailStopped(s)
  {
    assert forall v, id :: !Owns(s.db, v, id);
  }

  lemma IdleOwnsNothing(s: State, w: WorkerId, i: JobId)
    requires FailStopped(s) && w in s.workers && s.workers[w].pc.Idle?
    ensures !Owns(s.db, w, i)
  {
  }

  /** In every run under H3, lapsing heartbeats and all: a worker between two ProcessOne calls owns no running row,
      and no worker, dead or alive, owns two. */
  lemma ReachableFailStop(h: Hypotheses, s: State, events: seq<Event>, w: WorkerId, i: JobId, j: JobId)
    requires Init(s) && Run(h, s, events) && h.replies
    ensures var t := Exec(s, events);
            && (w in t.workers && t.workers[w].pc.Idle? ==> !Owns(t.db, w, i))
            && (Owns(t.db, w, i) && Owns(t.db, w, j) ==> i == j)
  {
    InitIsFailStopped(s);
    FailStopInRun(h, s, events);
    var t := Exec(s, events);
    if w in t.workers && t.workers[w].pc.Idle? {
      IdleOwnsNothing(t, w, i);
    }
  }
}
