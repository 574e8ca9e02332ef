/** A sweep as steps: SweepOnce with any failing calls is a run of the sweeper's steps. */
module Sweeping {
  import opened Types
  import opened Table
  import opened RedisLists
  import P = Protocol
  import Q = Queue
  import opened Sweeper
  import W = Sweeper

  // ----- Listings -----

  lemma ScanExists(ls: Lists) returns (refs: seq<P.Ref>)
    ensures P.IsScan(refs, ls) && Distinct(refs)
  {
    refs := ScanOf(ls, set k | k in ls && k.Processing?);
  }

  ghost predicate Distinct<T>(s: seq<T>) {
    forall i, j :: 0 <= i < j < |s| ==> s[i] != s[j]
  }

  lemma {:induction false} ScanOf(ls: Lists, keys: set<Key>) returns (refs: seq<P.Ref>)
    requires forall k :: k in keys ==> k in ls && k.Processing?
    ensures Distinct(refs) && (forall r :: r in refs <==> Processing(r.stage, r.worker) in keys)
    ensures forall k :: k in keys ==> P.Ref(k.stage, k.worker) in refs
    decreases |keys|
  {
    if keys == {} {
      refs := [];
    } else {
      var k :| k in keys;
      var rest := ScanOf(ls, keys - {k});
      refs := [P.Ref(k.stage, k.worker)] + rest;
    }
  }

  lemma ListingExists(db: Db, p: Job -> bool) returns (rows: seq<Job>)
    requires Wellformed(db)
    ensures IsListing(rows, db, p)
  {
    rows := ListingOf(db, p, db.Keys);
  }

  lemma {:induction false} ListingOf(db: Db, p: Job -> bool, keys: set<JobId>) returns (rows: seq<Job>)
    requires Wellformed(db) && keys <= db.Keys
    ensures forall i :: 0 <= i < |rows| ==> rows[i].id in keys && db[rows[i].id] == rows[i] && p(rows[i])
    ensures forall i, j :: 0 <= i < j < |rows| ==> rows[i].id != rows[j].id
    ensures forall k :: k in keys && p(db[k]) ==> exists i :: 0 <= i < |rows| && rows[i].id == k
    decreases |keys|
  {
    if keys == {} {
      rows := [];
    } else {
      var k :| k in keys;
      var rest := ListingOf(db, p, keys - {k});
      if p(db[k]) {
        rows := [db[k]] + rest;
        forall l | l in keys && p(db[l]) ensures exists i :: 0 <= i < |rows| && rows[i].id == l {
          if l == k {
            assert rows[0].id == l;
          } else {
            var i :| 0 <= i < |rest| && rest[i].id == l;
            assert rows[i + 1].id == l;
          }
        }
      } else {
        rows := rest;
      }
    }
  }

  // ----- Steps -----

  /** Nothing but the table, the lists, the sweeper's place and the log has changed. */
  predicate Only(s: P.State, s': P.State) {
    && s'.beats == s.beats && s'.workers == s.workers && s'.producers == s.producers
    && s'.now == s.now && s'.threshold == s.threshold && s'.files == s.files && s'.drives == s.drives && s'.cache == s.cache
  }

  /** The events are a run from s to s'. */
  ghost predicate Leads(h: P.Hypotheses, s: P.State, events: seq<P.Event>, s': P.State) {
    P.Run(h, s, events) && P.Exec(s, events) == s' && Only(s, s')
  }

  /** With H1 assumed, it holds now; no sweeper step changes heartbeats or workers. */
  ghost predicate Fair(h: P.Hypotheses, s: P.State) {
    h.timing ==> P.H1(s)
  }

  /** With H3 assumed, no call takes effect that reports an error. */
  ghost predicate Allowed(h: P.Hypotheses, f: Faults) {
    h.replies ==> f.lost == {} && forall r :: r in f.reclaims ==> !f.reclaims[r].lost
  }

  lemma Nowhere(h: P.Hypotheses, s: P.State)
    ensures Leads(h, s, [], s)
  {
  }

  lemma LeadsOn(h: P.Hypotheses, a: P.State, x: seq<P.Event>, b: P.State, y: seq<P.Event>, c: P.State)
    requires Leads(h, a, x, b) && Leads(h, b, y, c)
    ensures Leads(h, a, x + y, c)
  {
    P.RunConcat(h, a, x, y);
  }

  lemma FairOn(h: P.Hypotheses, s: P.State, s': P.State)
    requires Fair(h, s) && Only(s, s')
    ensures Fair(h, s')
  {
  }

  /** One step of the sweeper. */
  lemma StepLeads(h: P.Hypotheses, s: P.State, b: P.SweepAction) returns (s': P.State)
    requires Fair(h, s) && P.SweepEnabled(s, b) && (h.replies ==> P.ReplyOf(P.OnSweeper(b)) != Lost)
    ensures Leads(h, s, [P.OnSweeper(b)], s') && s' == P.Apply(s, P.OnSweeper(b)) && Fair(h, s')
  {
    var e := P.OnSweeper(b);
    s' := P.Apply(s, e);
    assert Only(s, s');
    FairOn(h, s, s');
    assert P.Permits(h, s, e);
    assert P.Run(h, s', []) && [e][1..] == [];
    assert P.Exec(s, [e]) == P.Exec(s', []);
  }

  /** A listing, a check or the end of the sweep: only the place changes. */
  lemma LookLeads(h: P.Hypotheses, s: P.State, b: P.SweepAction) returns (s': P.State)
    requires Fair(h, s) && P.SweepEnabled(s, b) && P.ReplyOf(P.OnSweeper(b)) != Lost
    requires !b.MoveOne? && !b.Revive? && !b.Promote? && !b.Repush?
    ensures Leads(h, s, [P.OnSweeper(b)], s') && Fair(h, s')
    ensures s'.db == s.db && s'.lists == s.lists && s'.pass == P.PassAfter(s, b)
  {
    s' := StepLeads(h, s, b);
    assert P.CommandOf(s, P.OnSweeper(b)).NoCommand? && P.StatementOf(s, P.OnSweeper(b)).NoStatement?;
  }

  /** A move or a push. */
  lemma CommandLeads(h: P.Hypotheses, s: P.State, b: P.SweepAction) returns (s': P.State)
    requires Fair(h, s) && P.SweepEnabled(s, b) && (b.MoveOne? || b.Promote? || b.Repush?) && (h.replies ==> b.net != Lost)
    ensures Leads(h, s, [P.OnSweeper(b)], s') && Fair(h, s')
    ensures s'.db == s.db && s'.pass == P.PassAfter(s, b)
    ensures s'.lists == if b.net.Refused? then s.lists else Perform(s.lists, P.CommandOf(s, P.OnSweeper(b)))
  {
    s' := StepLeads(h, s, b);
    assert P.StatementOf(s, P.OnSweeper(b)).NoStatement?;
  }

  lemma ReviveLeads(h: P.Hypotheses, s: P.State, net: Reply) returns (s': P.State)
    requires Fair(h, s) && s.pass.Marking? && (h.replies ==> net != Lost)
    ensures Leads(h, s, [P.OnSweeper(P.Revive(net))], s') && Fair(h, s')
    ensures s'.db == (if net.Refused? then s.db else Fail(s.db, s.pass.row.id, "worker died", s.now).db)
    ensures s'.lists == s.lists && s'.pass == P.Reviving(s.pass.rows)
  {
    s' := StepLeads(h, s, P.Revive(net));
    assert P.CommandOf(s, P.OnSweeper(P.Revive(net))).NoCommand?;
  }

  // ----- The reclaim pass -----

  /** n moves. */
  lemma {:induction false} MovesLead(h: P.Hypotheses, s: P.State, n: nat) returns (events: seq<P.Event>, s': P.State)
    requires Fair(h, s) && s.pass.Moving? && NoEmptyList(s.lists)
    requires n <= |At(s.lists, Processing(s.pass.ref.stage, s.pass.ref.worker))|
    ensures Leads(h, s, events, s') && Fair(h, s')
    ensures s'.lists == Moved(s.lists, s.pass.ref.stage, s.pass.ref.worker, n) && s'.pass == s.pass && s'.db == s.db
  {
    var (stage, w) := (s.pass.ref.stage, s.pass.ref.worker);
    if n == 0 {
      NothingMoved(s.lists, stage, w);
      events, s' := [], s;
      Nowhere(h, s);
    } else {
      var most, before := MovesLead(h, s, n - 1);
      MovedOneMore(s.lists, stage, w, n - 1);
      s' := CommandLeads(h, before, P.MoveOne(Answered));
      LeadsOn(h, s, most, before, [P.OnSweeper(P.MoveOne(Answered))], s');
      events := most + [P.OnSweeper(P.MoveOne(Answered))];
    }
  }

  /** The move that finds the list empty, or fails. */
  lemma LastMoveLeads(h: P.Hypotheses, s: P.State, net: Reply) returns (s': P.State)
    requires Fair(h, s) && s.pass.Moving? && (h.replies ==> net != Lost)
    requires net.Answered? ==> At(s.lists, Processing(s.pass.ref.stage, s.pass.ref.worker)) == []
    ensures Leads(h, s, [P.OnSweeper(P.MoveOne(net))], s') && Fair(h, s')
    ensures s'.lists == if net.Lost? then Perform(s.lists, ReclaimFrom(s.pass.ref.stage, s.pass.ref.worker)) else s.lists
    ensures s'.pass == P.Reclaiming(s.pass.refs) && s'.db == s.db
  {
    s' := CommandLeads(h, s, P.MoveOne(net));
  }

  /** How many moves are answered with a token, and how the last call ends. */
  function Moves(n: nat, fault: Option<Q.Break>): nat {
    if fault.Some? && fault.value.after <= n then fault.value.after else n
  }

  function LastReply(n: nat, fault: Option<Q.Break>): Reply {
    if fault.None? || fault.value.after > n then Answered else if fault.value.lost then Lost else Refused
  }

  lemma BrokenOff(ls: Lists, stage: Stage, w: WorkerId, fault: Option<Q.Break>)
    requires NoEmptyList(ls)
    ensures var n := |At(ls, Processing(stage, w))|;
            var almost, net := Moved(ls, stage, w, Moves(n, fault)), LastReply(n, fault);
            && (net.Answered? ==> At(almost, Processing(stage, w)) == [])
            && NoEmptyList(Moved(ls, stage, w, Q.Reclaimed(n, fault)))
            && (if net.Lost? then Perform(almost, ReclaimFrom(stage, w)) else almost)
               == Moved(ls, stage, w, Q.Reclaimed(n, fault))
  {
    var n := |At(ls, Processing(stage, w))|;
    MovedLists(ls, stage, w, Q.Reclaimed(n, fault));
    NextMove(ls, stage, w, Moves(n, fault));
  }

  /** All moves from one list, and the one that finds it empty or fails. */
  lemma DrainListLeads(h: P.Hypotheses, s: P.State, fault: Option<Q.Break>) returns (events: seq<P.Event>, s': P.State)
    requires Fair(h, s) && s.pass.Moving? && NoEmptyList(s.lists)
    requires h.replies && fault.Some? ==> !fault.value.lost
    ensures Leads(h, s, events, s') && Fair(h, s') && NoEmptyList(s'.lists)
    ensures var ref := s.pass.ref;
            var n := |At(s.lists, Processing(ref.stage, ref.worker))|;
            s'.lists == Moved(s.lists, ref.stage, ref.worker, Q.Reclaimed(n, fault))
    ensures s'.pass == P.Reclaiming(s.pass.refs) && s'.db == s.db
  {
    var ref := s.pass.ref;
    var n := |At(s.lists, Processing(ref.stage, ref.worker))|;
    BrokenOff(s.lists, ref.stage, ref.worker, fault);
    var most, before := MovesLead(h, s, Moves(n, fault));
    var net := LastReply(n, fault);
    s' := LastMoveLeads(h, before, net);
    LeadsOn(h, s, most, before, [P.OnSweeper(P.MoveOne(net))], s');
    events := most + [P.OnSweeper(P.MoveOne(net))];
  }

  /** One entry of the scan. */
  lemma RefLeads(h: P.Hypotheses, s: P.State, was: Lists, seen: set<P.Ref>, f: Faults)
    returns (events: seq<P.Event>, s': P.State)
    requires Fair(h, s) && Allowed(h, f) && s.pass.Reclaiming? && s.pass.refs != [] && s.pass.refs[0] !in seen
    requires NoEmptyList(s.lists) && ReclaimedUpTo(was, s.lists, seen, s.beats, f)
    ensures Leads(h, s, events, s') && Fair(h, s') && NoEmptyList(s'.lists)
    ensures ReclaimedUpTo(was, s'.lists, seen + {s.pass.refs[0]}, s.beats, f)
    ensures s'.pass == P.Reclaiming(s.pass.refs[1..]) && s'.db == s.db
  {
    var ref := s.pass.refs[0];
    var check := P.CheckRef(if ref in f.scans then Refused else Answered);
    var next := LookLeads(h, s, check);
    if W.Dead(ref.worker, s.beats, ref in f.scans) {
      var moves;
      moves, s' := DrainListLeads(h, next, FaultAt(f, ref));
      LeadsOn(h, s, [P.OnSweeper(check)], next, moves, s');
      events := [P.OnSweeper(check)] + moves;
      assert At(s.lists, Processing(ref.stage, ref.worker)) == At(was, Processing(ref.stage, ref.worker));
      ReclaimedStep(was, s.lists, seen, ref, s.beats, f,
                    Q.Reclaimed(|At(was, Processing(ref.stage, ref.worker))|, FaultAt(f, ref)));
    } else {
      events, s' := [P.OnSweeper(check)], next;
      ReclaimedSkip(was, s.lists, seen, ref, s.beats, f);
    }
  }

  lemma {:induction false} RefsLead(h: P.Hypotheses, s: P.State, was: Lists, seen: set<P.Ref>, f: Faults)
    returns (events: seq<P.Event>, s': P.State)
    requires Fair(h, s) && Allowed(h, f) && s.pass.Reclaiming? && NoEmptyList(s.lists)
    requires Distinct(s.pass.refs) && forall r :: r in s.pass.refs ==> r !in seen
    requires ReclaimedUpTo(was, s.lists, seen, s.beats, f)
    ensures Leads(h, s, events, s') && Fair(h, s') && NoEmptyList(s'.lists)
    ensures ReclaimedUpTo(was, s'.lists, seen + SetOf(s.pass.refs), s.beats, f)
    ensures s'.pass == P.Reclaiming([]) && s'.db == s.db
    decreases |s.pass.refs|
  {
    var refs := s.pass.refs;
    if refs == [] {
      events, s' := [], s;
      Nowhere(h, s);
      assert seen + SetOf(refs) == seen;
    } else {
      var first, next := RefLeads(h, s, was, seen, f);
      var rest;
      rest, s' := RefsLead(h, next, was, seen + {refs[0]}, f);
      LeadsOn(h, s, first, next, rest, s');
      events := first + rest;
      assert seen + {refs[0]} + SetOf(refs[1..]) == seen + SetOf(refs);
    }
  }

  /** The first pass. */
  lemma ReclaimLeads(h: P.Hypotheses, s: P.State, f: Faults) returns (events: seq<P.Event>, s': P.State)
    requires Fair(h, s) && Allowed(h, f) && s.pass == P.Resting && NoEmptyList(s.lists)
    ensures Leads(h, s, events, s') && Fair(h, s') && NoEmptyList(s'.lists)
    ensures ReclaimedAll(s.lists, s'.lists, s.beats, f)
    ensures s'.pass == P.Reclaiming([]) && s'.db == s.db
  {
    var refs := ScanExists(s.lists);
    var next := LookLeads(h, s, P.Scan(refs));
    var rest;
    rest, s' := RefsLead(h, next, s.lists, {}, f);
    LeadsOn(h, s, [P.OnSweeper(P.Scan(refs))], next, rest, s');
    events := [P.OnSweeper(P.Scan(refs))] + rest;
    assert {} + SetOf(refs) == SetOf(refs);
    ReclaimedEnd(s.lists, s'.lists, refs, s.beats, f);
  }

  // ----- The revive pass -----

  /** One running row. */
  lemma OwnerLeads(h: P.Hypotheses, s: P.State, was: Db, ids: set<JobId>, f: Faults)
    returns (events: seq<P.Event>, s': P.State)
    requires Fair(h, s) && Allowed(h, f) && s.pass.Reviving? && s.pass.rows != [] && UniqueLive(s.db)
    requires s.db == Revived(was, ids, s.beats, f, s.now)
    requires var j := s.pass.rows[0]; j.id in was && was[j.id] == j && j.id !in ids && IsRunning(j)
    ensures Leads(h, s, events, s') && Fair(h, s') && UniqueLive(s'.db)
    ensures s'.db == Revived(was, ids + {s.pass.rows[0].id}, s.beats, f, s.now)
    ensures s'.pass == P.Reviving(s.pass.rows[1..]) && s'.lists == s.lists
  {
    var j := s.pass.rows[0];
    RevivedStep(was, ids, j, s.beats, f, s.now);
    var check := P.CheckOwner(if j.id in f.checks then Refused else Answered);
    var next := LookLeads(h, s, check);
    if j.worker.Some? && W.Dead(j.worker.value, s.beats, j.id in f.checks) {
      var net := ReplyFor(j.id, f.revivals, f.lost);
      s' := ReviveLeads(h, next, net);
      LeadsOn(h, s, [P.OnSweeper(check)], next, [P.OnSweeper(P.Revive(net))], s');
      events := [P.OnSweeper(check)] + [P.OnSweeper(P.Revive(net))];
      FailKeepsUnique(s.db, j.id, s.now);
    } else {
      events, s' := [P.OnSweeper(check)], next;
    }
  }

  lemma FailKeepsUnique(db: Db, id: JobId, now: Time)
    requires UniqueLive(db)
    ensures UniqueLive(Fail(db, id, "worker died", now).db)
  {
  }

  lemma {:induction false} OwnersLead(h: P.Hypotheses, s: P.State, was: Db, running: seq<Job>, i: nat, f: Faults)
    returns (events: seq<P.Event>, s': P.State)
    requires Fair(h, s) && Allowed(h, f) && i <= |running| && s.pass == P.Reviving(running[i..]) && UniqueLive(s.db)
    requires IsListing(running, was, j => IsRunning(j))
    requires s.db == Revived(was, Ids(running[..i]), s.beats, f, s.now)
    ensures Leads(h, s, events, s') && Fair(h, s')
    ensures s'.db == Revived(was, Ids(running), s.beats, f, s.now)
    ensures s'.pass == P.Reviving([]) && s'.lists == s.lists
    decreases |running| - i
  {
    if i == |running| {
      events, s' := [], s;
      Nowhere(h, s);
      assert running[..i] == running;
    } else {
      NextId(running, i);
      var first, next := OwnerLeads(h, s, was, Ids(running[..i]), f);
      assert running[i..][1..] == running[i + 1..];
      var rest;
      rest, s' := OwnersLead(h, next, was, running, i + 1, f);
      LeadsOn(h, s, first, next, rest, s');
      events := first + rest;
    }
  }

  /** The second pass. */
  lemma ReviveAllLeads(h: P.Hypotheses, s: P.State, f: Faults) returns (events: seq<P.Event>, s': P.State)
    requires Fair(h, s) && Allowed(h, f) && s.pass == P.Reclaiming([]) && Wellformed(s.db)
    ensures Leads(h, s, events, s') && Fair(h, s')
    ensures s'.db == Revived(s.db, s.db.Keys, s.beats, f, s.now)
    ensures s'.pass == P.Reviving([]) && s'.lists == s.lists
  {
    var running := ListingExists(s.db, j => IsRunning(j));
    var next := LookLeads(h, s, P.ListRunning(running));
    assert running[0..] == running && Ids(running[..0]) == {};
    assert Revived(s.db, {}, s.beats, f, s.now) == s.db;
    var rest;
    rest, s' := OwnersLead(h, next, s.db, running, 0, f);
    LeadsOn(h, s, [P.OnSweeper(P.ListRunning(running))], next, rest, s');
    events := [P.OnSweeper(P.ListRunning(running))] + rest;
    RevivedEnd(s.db, running, s.beats, f, s.now);
  }

  // ----- The pushing passes -----

  function PushStep(s: P.State, j: Job, refused: set<JobId>, lost: set<JobId>): P.SweepAction {
    var net := ReplyFor(j.id, refused, lost);
    if s.pass.Promoting? then P.Promote(net) else P.Repush(net)
  }

  predicate Pushing(pass: P.Pass, rows: seq<Job>) {
    pass == P.Promoting(rows) || pass == P.Repushing(rows)
  }

  lemma PushLeads(h: P.Hypotheses, s: P.State, was: Lists, rows: seq<Job>, i: nat, refused: set<JobId>, lost: set<JobId>)
    returns (s': P.State)
    requires Fair(h, s) && (h.replies ==> lost == {}) && i < |rows| && Pushing(s.pass, rows[i..]) && NoEmptyList(s.lists)
    requires forall i, j :: 0 <= i < j < |rows| ==> rows[i].id != rows[j].id
    requires PushedUpTo(was, s.lists, rows[..i], refused)
    ensures Leads(h, s, [P.OnSweeper(PushStep(s, rows[i], refused, lost))], s') && Fair(h, s') && NoEmptyList(s'.lists)
    ensures PushedUpTo(was, s'.lists, rows[..i + 1], refused)
    ensures s'.pass == (if s.pass.Promoting? then P.Promoting(rows[i + 1..]) else P.Repushing(rows[i + 1..])) && s'.db == s.db
  {
    var j := rows[i];
    assert rows[i..][0] == j && rows[i..][1..] == rows[i + 1..] && rows[..i + 1] == rows[..i] + [j];
    PushedStep(was, s.lists, rows[..i], j, refused);
    s' := CommandLeads(h, s, PushStep(s, j, refused, lost));
  }

  lemma {:induction false} PushesLead(h: P.Hypotheses, s: P.State, was: Lists, rows: seq<Job>, i: nat, refused: set<JobId>,
                                      lost: set<JobId>)
    returns (events: seq<P.Event>, s': P.State)
    requires Fair(h, s) && (h.replies ==> lost == {}) && i <= |rows| && Pushing(s.pass, rows[i..]) && NoEmptyList(s.lists)
    requires forall i, j :: 0 <= i < j < |rows| ==> rows[i].id != rows[j].id
    requires PushedUpTo(was, s.lists, rows[..i], refused)
    ensures Leads(h, s, events, s') && Fair(h, s') && NoEmptyList(s'.lists)
    ensures PushedUpTo(was, s'.lists, rows, refused)
    ensures s'.pass == (if s.pass.Promoting? then P.Promoting([]) else P.Repushing([])) && s'.db == s.db
    decreases |rows| - i
  {
    if i == |rows| {
      events, s' := [], s;
      Nowhere(h, s);
      assert rows[..i] == rows;
    } else {
      var next := PushLeads(h, s, was, rows, i, refused, lost);
      var first := [P.OnSweeper(PushStep(s, rows[i], refused, lost))];
      var rest;
      rest, s' := PushesLead(h, next, was, rows, i + 1, refused, lost);
      LeadsOn(h, s, first, next, rest, s');
      events := first + rest;
    }
  }

  /** The third pass. */
  lemma PromoteLeads(h: P.Hypotheses, s: P.State, f: Faults) returns (events: seq<P.Event>, s': P.State, ready: seq<Job>)
    requires Fair(h, s) && Allowed(h, f) && s.pass == P.Reviving([]) && Wellformed(s.db) && NoEmptyList(s.lists)
    ensures Leads(h, s, events, s') && Fair(h, s') && NoEmptyList(s'.lists)
    ensures IsListing(ready, s.db, j => IsReadyRetry(j, s.now)) && PushedUpTo(s.lists, s'.lists, ready, f.promotions)
    ensures s'.pass == P.Promoting([]) && s'.db == s.db
  {
    ready := ListingExists(s.db, j => IsReadyRetry(j, s.now));
    var next := LookLeads(h, s, P.ListReady(ready));
    assert ready[0..] == ready && ready[..0] == [];
    PushedNothing(s.lists, f.promotions);
    var rest;
    rest, s' := PushesLead(h, next, s.lists, ready, 0, f.promotions, f.lost);
    LeadsOn(h, s, [P.OnSweeper(P.ListReady(ready))], next, rest, s');
    events := [P.OnSweeper(P.ListReady(ready))] + rest;
  }

  /** The fourth pass. */
  lemma RepushLeads(h: P.Hypotheses, s: P.State, f: Faults) returns (events: seq<P.Event>, s': P.State, stale: seq<Job>)
    requires Fair(h, s) && Allowed(h, f) && s.pass == P.Promoting([]) && Wellformed(s.db) && NoEmptyList(s.lists)
    ensures Leads(h, s, events, s') && Fair(h, s') && NoEmptyList(s'.lists)
    ensures IsListing(stale, s.db, j => IsStaleQueued(j, s.now, s.threshold)) && PushedUpTo(s.lists, s'.lists, stale, f.repushes)
    ensures s'.pass == P.Repushing([]) && s'.db == s.db
  {
    stale := ListingExists(s.db, j => IsStaleQueued(j, s.now, s.threshold));
    var next := LookLeads(h, s, P.ListStale(stale));
    assert stale[0..] == stale && stale[..0] == [];
    PushedNothing(s.lists, f.repushes);
    var rest;
    rest, s' := PushesLead(h, next, s.lists, stale, 0, f.repushes, f.lost);
    LeadsOn(h, s, [P.OnSweeper(P.ListStale(stale))], next, rest, s');
    events := [P.OnSweeper(P.ListStale(stale))] + rest;
  }

  // ----- The sweep -----

  lemma EndLeads(h: P.Hypotheses, s: P.State) returns (s': P.State)
    requires Fair(h, s)
    ensures Leads(h, s, [P.OnSweeper(P.Abandon)], s') && Fair(h, s')
    ensures s'.db == s.db && s'.lists == s.lists && s'.pass == P.Resting
  {
    s' := LookLeads(h, s, P.Abandon);
  }

  /** The first two passes, as far as the listings let them come. */
  lemma FirstHalfLeads(h: P.Hypotheses, s: P.State, f: Faults) returns (events: seq<P.Event>, s': P.State)
    requires Fair(h, s) && Allowed(h, f) && s.pass == P.Resting && Wellformed(s.db) && NoEmptyList(s.lists)
    ensures Leads(h, s, events, s') && Fair(h, s') && NoEmptyList(s'.lists)
    ensures if Passed(f, 0) then ReclaimedAll(s.lists, s'.lists, s.beats, f) else s'.lists == s.lists
    ensures s'.db == if Passed(f, 1) then Revived(s.db, s.db.Keys, s.beats, f, s.now) else s.db
    ensures Passed(f, 1) ==> s'.pass == P.Reviving([])
  {
    events, s' := [], s;
    Nowhere(h, s);
    if Passed(f, 0) {
      var next;
      events, next := ReclaimLeads(h, s, f);
      s' := next;
      if Passed(f, 1) {
        var more;
        more, s' := ReviveAllLeads(h, next, f);
        LeadsOn(h, s, events, next, more, s');
        events := events + more;
      }
    }
  }

  /** The last two. */
  lemma SecondHalfLeads(h: P.Hypotheses, s: P.State, f: Faults)
    returns (events: seq<P.Event>, s': P.State, middle: Lists, ready: seq<Job>, stale: seq<Job>)
    requires Fair(h, s) && Allowed(h, f) && (Passed(f, 1) ==> s.pass == P.Reviving([]))
    requires Wellformed(s.db) && NoEmptyList(s.lists)
    ensures Leads(h, s, events, s') && NoEmptyList(s'.lists) && s'.db == s.db
    ensures PushedBy(Passed(f, 2), s.db, s.lists, middle, ready, j => IsReadyRetry(j, s.now), f.promotions)
    ensures PushedBy(Passed(f, 3), s.db, middle, s'.lists, stale, j => IsStaleQueued(j, s.now, s.threshold), f.repushes)
  {
    events, s', middle, ready, stale := [], s, s.lists, [], [];
    Nowhere(h, s);
    if Passed(f, 2) {
      var next;
      events, next, ready := PromoteLeads(h, s, f);
      s', middle := next, next.lists;
      if Passed(f, 3) {
        var more;
        more, s', stale := RepushLeads(h, next, f);
        LeadsOn(h, s, events, next, more, s');
        events := events + more;
      }
    }
  }

  /** A sweep with any failing calls is a run of steps, under any hypotheses that allow those failures: from a resting
      sweeper, over any table and any lists, to a resting sweeper, with what the sweep does to both and to nothing else. */
  lemma SweepIsSteps(h: P.Hypotheses, s: P.State, f: Faults) returns (events: seq<P.Event>, s': P.State)
    requires Fair(h, s) && Allowed(h, f) && s.pass == P.Resting && Wellformed(s.db) && NoEmptyList(s.lists)
    ensures P.Run(h, s, events) && P.Exec(s, events) == s' && Only(s, s') && s'.pass == P.Resting
    ensures Swept(s.db, s.lists, s.beats, s.now, s.threshold, f, s'.db, s'.lists) && NoEmptyList(s'.lists)
  {
    var first, half := FirstHalfLeads(h, s, f);
    RevivedWellformed(s.db, s.beats, f, s.now);
    var second, almost, middle, ready, stale := SecondHalfLeads(h, half, f);
    s' := EndLeads(h, almost);
    LeadsOn(h, s, first, half, second, almost);
    LeadsOn(h, s, first + second, almost, [P.OnSweeper(P.Abandon)], s');
    events := first + second + [P.OnSweeper(P.Abandon)];
    SweptWhole(s.db, s.lists, s.beats, s.now, s.threshold, f, half.db, half.lists, middle, s'.lists, ready, stale);
  }
}
