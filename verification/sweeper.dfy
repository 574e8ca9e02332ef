/** internal/sweeper as an object: the four recovery passes of SweepOnce. */
module Sweeper {
  import opened Types
  import opened Table
  import opened RedisLists
  import P = Protocol
  import S = Store
  import Q = Queue

  /** The calls that fail during one sweep: the listing that aborts it (0 to 3, in pass order), the liveness checks, each
      for a processing list or for a running row, the LMOVE at which a reclaim breaks off, and the writes about single
      jobs that are refused, pass by pass, or, in `lost`, take effect and still report an error. */
  datatype Faults = Faults(
    listing: Option<nat>, scans: set<P.Ref>, checks: set<JobId>, reclaims: map<P.Ref, Q.Break>,
    revivals: set<JobId>, promotions: set<JobId>, repushes: set<JobId>, lost: set<JobId>)

  const NO_FAULTS := Faults(None, {}, {}, map[], {}, {}, {}, {})

  function ReplyFor(id: JobId, refused: set<JobId>, lost: set<JobId>): Reply {
    if id in refused then Refused else if id in lost then Lost else Answered
  }

  /** The sweeper acts on a worker only when the check does not fail and finds no heartbeat. */
  predicate Dead(w: WorkerId, beats: set<WorkerId>, failed: bool) {
    w !in beats && !failed
  }

  function FaultAt(f: Faults, ref: P.Ref): Option<Q.Break> {
    if ref in f.reclaims then Some(f.reclaims[ref]) else None
  }

  /** What is left of a processing list after the reclaim pass. */
  function Remaining(ls: Lists, ref: P.Ref, beats: set<WorkerId>, f: Faults): seq<Token> {
    var p := At(ls, Processing(ref.stage, ref.worker));
    if Dead(ref.worker, beats, ref in f.scans) then p[..|p| - Q.Reclaimed(|p|, FaultAt(f, ref))] else p
  }

  predicate Revivable(j: Job, beats: set<WorkerId>, f: Faults) {
    j.status == Running && j.worker.Some? && Dead(j.worker.value, beats, j.id in f.checks) && j.id !in f.revivals
  }

  /** The table once the rows in `ids` have been through the revive pass. */
  function Revived(db: Db, ids: set<JobId>, beats: set<WorkerId>, f: Faults, now: Time): Db {
    map k | k in db :: if k in ids && Revivable(db[k], beats, f) then AfterFailure(db[k], "worker died", now) else db[k]
  }

  /** The jobs a pushing pass sends to one stage's queue. */
  function PushedTo(db: Db, stage: Stage, p: Job -> bool, skipped: set<JobId>): set<Token> {
    set k | k in db && p(db[k]) && db[k].stage == stage && k !in skipped :: Uuid(k)
  }

  function Retries(db: Db, stage: Stage, now: Time, f: Faults): set<Token> {
    PushedTo(db, stage, j => IsReadyRetry(j, now), f.promotions)
  }

  function Stale(db: Db, stage: Stage, now: Time, threshold: Time, f: Faults): set<Token> {
    PushedTo(db, stage, j => IsStaleQueued(j, now, threshold), f.repushes)
  }

  function Passed(f: Faults, pass: nat): bool {
    f.listing.None? || f.listing.value > pass
  }

  ghost predicate StillPending(ls: Lists, ls': Lists) {
    forall st, t :: t in At(ls, Pending(st)) ==> t in At(ls', Pending(st))
  }

  /** Everything one sweep does, whatever the order of its listings: which tokens leave which processing list, which
      rows change and how, and which tokens each stage gains. */
  ghost predicate Swept(db: Db, ls: Lists, beats: set<WorkerId>, now: Time, threshold: Time, f: Faults, db': Db, ls': Lists) {
    && db' == (if Passed(f, 1) then Revived(db, db.Keys, beats, f, now) else db)
    && (forall st, w :: At(ls', Processing(st, w)) ==
          if Passed(f, 0) then Remaining(ls, P.Ref(st, w), beats, f) else At(ls, Processing(st, w)))
    && (forall st :: Tokens(OfStage(ls', st)) == Tokens(OfStage(ls, st))
          + (if Passed(f, 2) then multiset(Retries(db', st, now, f)) else multiset{})
          + (if Passed(f, 3) then multiset(Stale(db', st, now, threshold, f)) else multiset{}))
    && StillPending(ls, ls')
    && (Passed(f, 2) ==> forall st, t :: t in Retries(db', st, now, f) ==> t in At(ls', Pending(st)))
    && (Passed(f, 3) ==> forall st, t :: t in Stale(db', st, now, threshold, f) ==> t in At(ls', Pending(st)))
  }

  function SetOf(refs: seq<P.Ref>): set<P.Ref> {
    set r | r in refs
  }

  function Ids(rows: seq<Job>): set<JobId> {
    set i | 0 <= i < |rows| :: rows[i].id
  }

  /** The tokens that the first rows of a listing contribute to a stage. */
  function Contributed(rows: seq<Job>, stage: Stage, skipped: set<JobId>): set<Token> {
    set i | 0 <= i < |rows| && rows[i].stage == stage && rows[i].id !in skipped :: Uuid(rows[i].id)
  }

  lemma ContributedSnoc(rows: seq<Job>, j: Job, stage: Stage, skipped: set<JobId>)
    ensures Contributed(rows + [j], stage, skipped) ==
            Contributed(rows, stage, skipped) + (if j.stage == stage && j.id !in skipped then {Uuid(j.id)} else {})
  {
    var all := rows + [j];
    forall t | t in Contributed(rows, stage, skipped) ensures t in Contributed(all, stage, skipped) {
      var i :| 0 <= i < |rows| && rows[i].stage == stage && rows[i].id !in skipped && t == Uuid(rows[i].id);
      assert all[i] == rows[i];
    }
    assert all[|rows|] == j;
  }

  lemma ContributedAll(rows: seq<Job>, db: Db, p: Job -> bool, stage: Stage, skipped: set<JobId>)
    requires IsListing(rows, db, p) && Wellformed(db)
    ensures Contributed(rows, stage, skipped) == PushedTo(db, stage, p, skipped)
  {
    forall t | t in PushedTo(db, stage, p, skipped) ensures t in Contributed(rows, stage, skipped) {
      var i :| 0 <= i < |rows| && rows[i].id == t.id;
      assert rows[i].stage == stage;
    }
  }

  // ----- One loop iteration of each pass -----

  /** The reclaim pass after the processing lists in `seen` have been visited. */
  ghost predicate ReclaimedUpTo(was: Lists, ls: Lists, seen: set<P.Ref>, beats: set<WorkerId>, f: Faults) {
    && (forall st, w :: At(ls, Processing(st, w)) ==
          if P.Ref(st, w) in seen then Remaining(was, P.Ref(st, w), beats, f) else At(was, Processing(st, w)))
    && (forall st :: Tokens(OfStage(ls, st)) == Tokens(OfStage(was, st)))
    && StillPending(was, ls)
  }

  /** The reclaim pass as a whole. */
  ghost predicate ReclaimedAll(was: Lists, ls: Lists, beats: set<WorkerId>, f: Faults) {
    && (forall st, w :: At(ls, Processing(st, w)) == Remaining(was, P.Ref(st, w), beats, f))
    && (forall st :: Tokens(OfStage(ls, st)) == Tokens(OfStage(was, st)))
    && StillPending(was, ls)
  }

  lemma ReclaimedList(was: Lists, ls: Lists, seen: set<P.Ref>, ref: P.Ref, beats: set<WorkerId>, f: Faults, moved: nat,
                      other: P.Ref)
    requires NoEmptyList(ls) && ReclaimedUpTo(was, ls, seen, beats, f) && ref !in seen && Dead(ref.worker, beats, ref in f.scans)
    requires moved == Q.Reclaimed(|At(was, Processing(ref.stage, ref.worker))|, FaultAt(f, ref))
    ensures At(Moved(ls, ref.stage, ref.worker, moved), Processing(other.stage, other.worker)) ==
            if other in seen + {ref} then Remaining(was, other, beats, f) else At(was, Processing(other.stage, other.worker))
  {
    assert At(ls, Processing(ref.stage, ref.worker)) == At(was, Processing(ref.stage, ref.worker));
    if other == ref {
      MovedLists(ls, ref.stage, ref.worker, moved);
    } else {
      MovedOthers(ls, ref.stage, ref.worker, moved, Processing(other.stage, other.worker));
    }
  }

  lemma ReclaimedStep(was: Lists, ls: Lists, seen: set<P.Ref>, ref: P.Ref, beats: set<WorkerId>, f: Faults, moved: nat)
    requires NoEmptyList(ls) && ReclaimedUpTo(was, ls, seen, beats, f) && ref !in seen && Dead(ref.worker, beats, ref in f.scans)
    requires moved == Q.Reclaimed(|At(was, Processing(ref.stage, ref.worker))|, FaultAt(f, ref))
    ensures ReclaimedUpTo(was, Moved(ls, ref.stage, ref.worker, moved), seen + {ref}, beats, f)
  {
    var ls' := Moved(ls, ref.stage, ref.worker, moved);
    forall st, w
      ensures At(ls', Processing(st, w)) ==
        if P.Ref(st, w) in seen + {ref} then Remaining(was, P.Ref(st, w), beats, f) else At(was, Processing(st, w))
    {
      ReclaimedList(was, ls, seen, ref, beats, f, moved, P.Ref(st, w));
    }
    forall st ensures Tokens(OfStage(ls', st)) == Tokens(OfStage(was, st)) {
      StageMoved(ls, ref.stage, ref.worker, moved, st);
    }
    MovedLists(ls, ref.stage, ref.worker, moved);
    forall st, t | t in At(ls, Pending(st)) ensures t in At(ls', Pending(st)) {
      if st != ref.stage { MovedOthers(ls, ref.stage, ref.worker, moved, Pending(st)); }
    }
  }

  lemma ReclaimedSkip(was: Lists, ls: Lists, seen: set<P.Ref>, ref: P.Ref, beats: set<WorkerId>, f: Faults)
    requires ReclaimedUpTo(was, ls, seen, beats, f) && !Dead(ref.worker, beats, ref in f.scans)
    ensures ReclaimedUpTo(was, ls, seen + {ref}, beats, f)
  {
  }

  lemma ReclaimedEnd(was: Lists, ls: Lists, refs: seq<P.Ref>, beats: set<WorkerId>, f: Faults)
    requires P.IsScan(refs, was) && ReclaimedUpTo(was, ls, SetOf(refs), beats, f)
    ensures ReclaimedAll(was, ls, beats, f)
  {
    forall st, w ensures At(ls, Processing(st, w)) == Remaining(was, P.Ref(st, w), beats, f) {
      if Processing(st, w) in was {
        assert P.Ref(st, w) in refs;
      } else {
        assert At(was, Processing(st, w)) == [];
      }
    }
  }

  /** One MarkFailed of the revive pass: it is never refused by the index, and changes just that row. */
  lemma RevivedStep(was: Db, ids: set<JobId>, j: Job, beats: set<WorkerId>, f: Faults, now: Time)
    requires j.id in was && was[j.id] == j && j.id !in ids && UniqueLive(Revived(was, ids, beats, f, now))
    ensures var db, next := Revived(was, ids, beats, f, now), Revived(was, ids + {j.id}, beats, f, now);
            && (!Revivable(j, beats, f) ==> next == db)
            && (Revivable(j, beats, f) ==> Fail(db, j.id, "worker died", now) == Written(next, None))
  {
    var db := Revived(was, ids, beats, f, now);
    assert db[j.id] == j;
    if Revivable(j, beats, f) {
      SaveKeepsIndex(db, j.id, AfterFailure(j, "worker died", now));
      assert Revived(was, ids + {j.id}, beats, f, now) == db[j.id := AfterFailure(j, "worker died", now)];
    } else {
      assert Revived(was, ids + {j.id}, beats, f, now) == db;
    }
  }

  lemma RevivedEnd(was: Db, running: seq<Job>, beats: set<WorkerId>, f: Faults, now: Time)
    requires IsListing(running, was, j => IsRunning(j))
    ensures Revived(was, Ids(running), beats, f, now) == Revived(was, was.Keys, beats, f, now)
  {
    forall k | k in was && IsRunning(was[k]) ensures k in Ids(running) {
      var i :| 0 <= i < |running| && running[i].id == k;
    }
  }

  lemma NextId(rows: seq<Job>, i: nat)
    requires i < |rows| && forall i, j :: 0 <= i < j < |rows| ==> rows[i].id != rows[j].id
    ensures Ids(rows[..i + 1]) == Ids(rows[..i]) + {rows[i].id} && rows[i].id !in Ids(rows[..i])
  {
    assert rows[..i + 1] == rows[..i] + [rows[i]];
    forall k | k in Ids(rows[..i + 1]) ensures k in Ids(rows[..i]) + {rows[i].id} {
    }
    forall k | k in Ids(rows[..i]) ensures k in Ids(rows[..i + 1]) {
      var n :| 0 <= n < i && rows[..i][n].id == k;
      assert rows[..i + 1][n].id == k;
    }
    assert rows[..i + 1][i] == rows[i];
  }

  /** A pushing pass after some rows of its listing. */
  ghost predicate PushedUpTo(was: Lists, ls: Lists, rows: seq<Job>, skipped: set<JobId>) {
    && (forall st, w :: At(ls, Processing(st, w)) == At(was, Processing(st, w)))
    && (forall st :: Tokens(OfStage(ls, st)) == Tokens(OfStage(was, st)) + multiset(Contributed(rows, st, skipped)))
    && StillPending(was, ls)
    && (forall st, t :: t in Contributed(rows, st, skipped) ==> t in At(ls, Pending(st)))
  }

  lemma PushedNothing(ls: Lists, skipped: set<JobId>)
    ensures PushedUpTo(ls, ls, [], skipped)
  {
    forall st ensures Tokens(OfStage(ls, st)) == Tokens(OfStage(ls, st)) + multiset(Contributed([], st, skipped)) {
      assert Contributed([], st, skipped) == {};
    }
  }

  lemma ContributedOnce(rows: seq<Job>, j: Job, stage: Stage, skipped: set<JobId>)
    requires forall i :: 0 <= i < |rows| ==> rows[i].id != j.id
    ensures multiset(Contributed(rows + [j], stage, skipped)) == multiset(Contributed(rows, stage, skipped))
            + (if j.stage == stage && j.id !in skipped then multiset{Uuid(j.id)} else multiset{})
  {
    ContributedSnoc(rows, j, stage, skipped);
    assert Uuid(j.id) !in Contributed(rows, stage, skipped);
  }

  lemma PushedStage(was: Lists, ls: Lists, rows: seq<Job>, j: Job, skipped: set<JobId>, st: Stage)
    requires Tokens(OfStage(ls, st)) == Tokens(OfStage(was, st)) + multiset(Contributed(rows, st, skipped))
    requires forall i :: 0 <= i < |rows| ==> rows[i].id != j.id
    ensures Tokens(OfStage(if j.id in skipped then ls else Push(ls, j.stage, Uuid(j.id)), st))
            == Tokens(OfStage(was, st)) + multiset(Contributed(rows + [j], st, skipped))
  {
    StagePush(ls, j.stage, Uuid(j.id), st);
    ContributedOnce(rows, j, st, skipped);
  }

  lemma PushedStep(was: Lists, ls: Lists, rows: seq<Job>, j: Job, skipped: set<JobId>)
    requires PushedUpTo(was, ls, rows, skipped) && (forall i :: 0 <= i < |rows| ==> rows[i].id != j.id)
    ensures PushedUpTo(was, if j.id in skipped then ls else Push(ls, j.stage, Uuid(j.id)), rows + [j], skipped)
  {
    var ls' := if j.id in skipped then ls else Push(ls, j.stage, Uuid(j.id));
    assert forall st, w :: At(ls', Processing(st, w)) == At(ls, Processing(st, w));
    forall st ensures Tokens(OfStage(ls', st)) == Tokens(OfStage(was, st)) + multiset(Contributed(rows + [j], st, skipped)) {
      PushedStage(was, ls, rows, j, skipped, st);
    }
    forall st, t | t in Contributed(rows + [j], st, skipped) ensures t in At(ls', Pending(st)) {
      ContributedSnoc(rows, j, st, skipped);
    }
  }

  /** A pushing pass as a whole, if the sweep gets to it. */
  ghost predicate PushedBy(passed: bool, db: Db, was: Lists, ls: Lists, rows: seq<Job>, p: Job -> bool, skipped: set<JobId>) {
    if passed then IsListing(rows, db, p) && PushedUpTo(was, ls, rows, skipped) else ls == was
  }

  lemma PushedByAll(passed: bool, db: Db, was: Lists, ls: Lists, rows: seq<Job>, p: Job -> bool, skipped: set<JobId>)
    requires PushedBy(passed, db, was, ls, rows, p, skipped) && Wellformed(db)
    ensures forall st, w :: At(ls, Processing(st, w)) == At(was, Processing(st, w))
    ensures forall st :: Tokens(OfStage(ls, st)) == Tokens(OfStage(was, st))
                         + if passed then multiset(PushedTo(db, st, p, skipped)) else multiset{}
    ensures StillPending(was, ls)
    ensures passed ==> forall st, t :: t in PushedTo(db, st, p, skipped) ==> t in At(ls, Pending(st))
  {
    if passed {
      forall st ensures Contributed(rows, st, skipped) == PushedTo(db, st, p, skipped) {
        ContributedAll(rows, db, p, st, skipped);
      }
    }
  }

  lemma RevivedWellformed(db: Db, beats: set<WorkerId>, f: Faults, now: Time)
    requires Wellformed(db)
    ensures Wellformed(Revived(db, db.Keys, beats, f, now))
  {
    var db' := Revived(db, db.Keys, beats, f, now);
    forall k | k in db' ensures db'[k].id == k && (Indexed(db'[k]) ==> Indexed(db[k])) && SameMessage(db[k], db'[k]) {
    }
  }

  lemma SweptTokens(was: Lists, ls1: Lists, ls2: Lists, ls3: Lists, st: Stage, a: multiset<Token>, b: multiset<Token>)
    requires Tokens(OfStage(ls1, st)) == Tokens(OfStage(was, st))
    requires Tokens(OfStage(ls2, st)) == Tokens(OfStage(ls1, st)) + a && Tokens(OfStage(ls3, st)) == Tokens(OfStage(ls2, st)) + b
    ensures Tokens(OfStage(ls3, st)) == Tokens(OfStage(was, st)) + a + b
  {
  }

  lemma PendingOn(a: Lists, b: Lists, c: Lists)
    requires StillPending(a, b) && StillPending(b, c)
    ensures StillPending(a, c)
  {
  }

  /** The four passes together. */
  lemma SweptWhole(db: Db, ls: Lists, beats: set<WorkerId>, now: Time, threshold: Time, f: Faults,
                   db': Db, ls1: Lists, ls2: Lists, ls3: Lists, ready: seq<Job>, stale: seq<Job>)
    requires Wellformed(db') && db' == if Passed(f, 1) then Revived(db, db.Keys, beats, f, now) else db
    requires if Passed(f, 0) then ReclaimedAll(ls, ls1, beats, f) else ls1 == ls
    requires PushedBy(Passed(f, 2), db', ls1, ls2, ready, j => IsReadyRetry(j, now), f.promotions)
    requires PushedBy(Passed(f, 3), db', ls2, ls3, stale, j => IsStaleQueued(j, now, threshold), f.repushes)
    ensures Swept(db, ls, beats, now, threshold, f, db', ls3)
  {
    PushedByAll(Passed(f, 2), db', ls1, ls2, ready, j => IsReadyRetry(j, now), f.promotions);
    PushedByAll(Passed(f, 3), db', ls2, ls3, stale, j => IsStaleQueued(j, now, threshold), f.repushes);
    PendingOn(ls1, ls2, ls3);
    PendingOn(ls, ls1, ls3);
    forall st
      ensures Tokens(OfStage(ls3, st)) == Tokens(OfStage(ls, st))
                + (if Passed(f, 2) then multiset(Retries(db', st, now, f)) else multiset{})
                + (if Passed(f, 3) then multiset(Stale(db', st, now, threshold, f)) else multiset{})
    {
      SweptTokens(ls, ls1, ls2, ls3, st, if Passed(f, 2) then multiset(Retries(db', st, now, f)) else multiset{},
                  if Passed(f, 3) then multiset(Stale(db', st, now, threshold, f)) else multiset{});
    }
  }

  class Sweeper {
    const store: S.Store
    const queue: Q.Queue
    const threshold: Time

    constructor (store: S.Store, queue: Q.Queue, threshold: Time)
      ensures this.store == store && this.queue == queue && this.threshold == threshold
    {
      this.store, this.queue, this.threshold := store, queue, threshold;
    }

    ghost predicate Valid()
      reads store, queue
    {
      store.Valid() && queue.Valid()
    }

    /** One sweep, at one instant of the clock. */
    method SweepOnce(now: Time, f: Faults) returns (ok: bool)
      requires Valid()
      modifies store`rows, queue`lists
      ensures Valid() && ok == Passed(f, 3)
      ensures Swept(old(store.rows), old(queue.lists), queue.beats, now, threshold, f, store.rows, queue.lists)
      ensures ok <==> f.listing.None? || f.listing.value > 3
      ensures store.rows == if f.listing.None? || f.listing.value > 1
                            then Revived(old(store.rows), old(store.rows).Keys, queue.beats, f, now) else old(store.rows)
      ensures f.listing == Some(0) ==> queue.lists == old(queue.lists)
      ensures f.listing.Some? && f.listing.value <= 2 ==>
                forall st :: Tokens(OfStage(queue.lists, st)) == Tokens(OfStage(old(queue.lists), st))
      ensures f.listing == Some(3) ==>
                forall st :: Tokens(OfStage(queue.lists, st))
                             == Tokens(OfStage(old(queue.lists), st)) + multiset(Retries(store.rows, st, now, f))
    {
      if !Passed(f, 0) { return false; }
      ReclaimProcessing(f);
      if !Passed(f, 1) { return false; }
      ReviveOrphans(now, f);
      if !Passed(f, 2) { return false; }
      PromoteDelayed(now, f);
      if !Passed(f, 3) { return false; }
      RepushStale(now, f);
      return true;
    }

    method ReclaimProcessing(f: Faults)
      requires Valid()
      modifies queue`lists
      ensures Valid()
      ensures ReclaimedAll(old(queue.lists), queue.lists, queue.beats, f)
    {
      var refs := queue.ListProcessing();
      ghost var was := queue.lists;
      var i := 0;
      while i < |refs|
        invariant 0 <= i <= |refs| && Valid()
        invariant ReclaimedUpTo(was, queue.lists, SetOf(refs[..i]), queue.beats, f)
      {
        var ref := refs[i];
        ghost var seen := SetOf(refs[..i]);
        assert SetOf(refs[..i + 1]) == seen + {ref};
        i := i + 1;
        var alive := queue.IsWorkerAlive(ref.worker);
        if ref in f.scans || alive {
          ReclaimedSkip(was, queue.lists, seen, ref, queue.beats, f);
          continue;
        }
        ghost var here := queue.lists;
        ghost var n := |At(was, Processing(ref.stage, ref.worker))|;
        ReclaimedStep(was, here, seen, ref, queue.beats, f, Q.Reclaimed(n, FaultAt(f, ref)));
        var moved, _ := queue.ReclaimProcessing(ref.stage, ref.worker, FaultAt(f, ref));
      }
      assert refs[..i] == refs;
      ReclaimedEnd(was, queue.lists, refs, queue.beats, f);
    }

    method ReviveOrphans(now: Time, f: Faults)
      requires Valid()
      modifies store`rows
      ensures Valid()
      ensures store.rows == Revived(old(store.rows), old(store.rows).Keys, queue.beats, f, now)
    {
      var running := store.ListRunningJobs();
      ghost var was := store.rows;
      assert Revived(was, Ids(running[..0]), queue.beats, f, now) == was;
      var i := 0;
      while i < |running|
        invariant 0 <= i <= |running| && Valid()
        invariant store.rows == Revived(was, Ids(running[..i]), queue.beats, f, now)
      {
        NextId(running, i);
        ReviveOne(running[i], now, f, was, Ids(running[..i]));
        i := i + 1;
      }
      assert running[..i] == running;
      RevivedEnd(was, running, queue.beats, f, now);
    }

    /** A running row of the listing; `ids` are those before it. */
    method ReviveOne(j: Job, now: Time, f: Faults, ghost was: Db, ghost ids: set<JobId>)
      requires Valid() && store.rows == Revived(was, ids, queue.beats, f, now)
      requires j.id in was && was[j.id] == j && j.id !in ids && IsRunning(j)
      modifies store`rows
      ensures Valid() && store.rows == Revived(was, ids + {j.id}, queue.beats, f, now)
    {
      RevivedStep(was, ids, j, queue.beats, f, now);
      if j.worker.None? || j.id in f.checks {
        return;
      }
      var alive := queue.IsWorkerAlive(j.worker.value);
      if alive {
        return;
      }
      var _ := store.MarkFailed(j.id, "worker died", now, ReplyFor(j.id, f.revivals, f.lost));
    }

    method PromoteDelayed(now: Time, f: Faults)
      requires Valid()
      modifies queue`lists
      ensures Valid()
      ensures forall st, w :: At(queue.lists, Processing(st, w)) == At(old(queue.lists), Processing(st, w))
      ensures forall st :: Tokens(OfStage(queue.lists, st)) ==
                Tokens(OfStage(old(queue.lists), st))
                + multiset(set k | k in store.rows && store.rows[k].status == Queued && store.rows[k].lastError.Some?
                                   && store.rows[k].nextRunAt <= now && store.rows[k].stage == st
                                   && k !in f.promotions :: Uuid(k))
      ensures forall st :: Tokens(OfStage(queue.lists, st)) ==
                           Tokens(OfStage(old(queue.lists), st)) + multiset(Retries(store.rows, st, now, f))
      ensures StillPending(old(queue.lists), queue.lists)
      ensures forall st, t :: t in Retries(store.rows, st, now, f) ==> t in At(queue.lists, Pending(st))
    {
      var ready := store.ListReadyRetryJobs(now);
      PushAll(ready, f.promotions, f.lost);
      forall st ensures Contributed(ready, st, f.promotions) == Retries(store.rows, st, now, f) {
        ContributedAll(ready, store.rows, j => IsReadyRetry(j, now), st, f.promotions);
      }
    }

    method RepushStale(now: Time, f: Faults)
      requires Valid()
      modifies queue`lists
      ensures Valid()
      ensures forall st, w :: At(queue.lists, Processing(st, w)) == At(old(queue.lists), Processing(st, w))
      ensures forall st :: Tokens(OfStage(queue.lists, st)) ==
                Tokens(OfStage(old(queue.lists), st))
                + multiset(set k | k in store.rows && store.rows[k].status == Queued && store.rows[k].lastError.None?
                                   && store.rows[k].createdAt < now - threshold && store.rows[k].stage == st
                                   && k !in f.repushes :: Uuid(k))
      ensures forall st :: Tokens(OfStage(queue.lists, st)) ==
                           Tokens(OfStage(old(queue.lists), st)) + multiset(Stale(store.rows, st, now, threshold, f))
      ensures StillPending(old(queue.lists), queue.lists)
      ensures forall st, t :: t in Stale(store.rows, st, now, threshold, f) ==> t in At(queue.lists, Pending(st))
    {
      var stale := store.ListStaleQueuedJobs(now, threshold);
      PushAll(stale, f.repushes, f.lost);
      forall st ensures Contributed(stale, st, f.repushes) == Stale(store.rows, st, now, threshold, f) {
        ContributedAll(stale, store.rows, j => IsStaleQueued(j, now, threshold), st, f.repushes);
      }
    }

    /** The loop shared by the two pushing passes. */
    method PushAll(rows: seq<Job>, refused: set<JobId>, lost: set<JobId>)
      requires Valid() && forall i, j :: 0 <= i < j < |rows| ==> rows[i].id != rows[j].id
      modifies queue`lists
      ensures Valid()
      ensures PushedUpTo(old(queue.lists), queue.lists, rows, refused)
    {
      ghost var was := queue.lists;
      PushedNothing(was, refused);
      var i := 0;
      assert rows[..0] == [];
      while i < |rows|
        invariant 0 <= i <= |rows| && Valid()
        invariant PushedUpTo(was, queue.lists, rows[..i], refused)
      {
        var j := rows[i];
        PushedStep(was, queue.lists, rows[..i], j, refused);
        assert rows[..i + 1] == rows[..i] + [j];
        var _ := queue.Push(j.stage, Uuid(j.id), ReplyFor(j.id, refused, lost));
        i := i + 1;
      }
      assert rows[..i] == rows;
    }
  }
}
