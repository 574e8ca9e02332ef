/** internal/store as an object: the rows of pipeline_jobs and the statements that read and write them. */
module Store {
  import opened Types
  import opened Table

  datatype Result<T> = Ok(value: T) | Err(error: StoreError)

  class Store {
    var rows: Db
    /** uuid.New never repeats: every ID in the table is below this one. */
    var nextId: JobId

    ghost predicate Valid()
      reads this
    {
      Wellformed(rows) && forall k :: k in rows ==> k < nextId
    }

    constructor ()
      ensures Valid() && rows == map[]
    {
      rows := map[];
      nextId := 0;
    }

    /** One INSERT. A row is live for its message at most once: a second live one is refused as a duplicate. */
    method EnqueueJob(nj: NewJob, now: Time, net: Reply) returns (r: Result<Job>)
      requires Valid()
      modifies this
      ensures Valid() && nextId == old(nextId) + 1
      ensures Written(rows, if r.Ok? then None else Some(r.error))
              == Sent(old(rows), Enqueue(old(rows), old(nextId), nj, now), net)
      ensures r.Ok? ==> r.value == NewRow(old(nextId), nj, now) && rows == old(rows)[old(nextId) := r.value]
    {
      var id := nextId;
      nextId := nextId + 1;
      var row := NewRow(id, nj, now);
      SaveKeepsWellformed(rows, id, row);
      var duplicate := Collides(rows, id, row);
      if net.Refused? {
        return Err(Unavailable);
      }
      if !duplicate {
        rows := rows[id := row];
      }
      if net.Lost? {
        return Err(Unavailable);
      }
      if duplicate {
        return Err(Duplicate);
      }
      return Ok(row);
    }

    /** UPDATE ... WHERE id = $1 AND status = 'queued': the system's only lock. */
    method ClaimJob(id: JobId, worker: WorkerId, net: Reply) returns (error: Option<StoreError>)
      requires Valid()
      modifies `rows
      ensures Valid()
      ensures Written(rows, error) == Sent(old(rows), Claim(old(rows), id, worker), net)
    {
      if id !in rows || rows[id].status != Queued {
        return if net.Answered? then Some(NotClaimable) else Some(Unavailable);
      }
      error := Update(id, rows[id].(status := Running, worker := Some(worker)), net);
    }

    method MarkDone(id: JobId, net: Reply) returns (error: Option<StoreError>)
      requires Valid()
      modifies `rows
      ensures Valid()
      ensures Written(rows, error) == Sent(old(rows), Finish(old(rows), id), net)
    {
      if id !in rows {
        return if net.Answered? then Some(NotFound) else Some(Unavailable);
      }
      error := Update(id, rows[id].(status := Done), net);
    }

    method MarkFailed(id: JobId, message: string, nextRunAt: Time, net: Reply) returns (error: Option<StoreError>)
      requires Valid()
      modifies `rows
      ensures Valid()
      ensures Written(rows, error) == Sent(old(rows), Fail(old(rows), id, message, nextRunAt), net)
    {
      if id !in rows {
        return if net.Answered? then Some(NotFound) else Some(Unavailable);
      }
      var j := rows[id];
      j := j.(attempts := j.attempts + 1, worker := None, lastError := Some(message), nextRunAt := nextRunAt);
      j := j.(status := if j.attempts >= j.maxAttempts then Dead else Queued);
      error := Update(id, j, net);
    }

    method AdvanceJob(id: JobId, next: Stage, net: Reply) returns (error: Option<StoreError>)
      requires Valid()
      modifies `rows
      ensures Valid()
      ensures Written(rows, error) == Sent(old(rows), Advance(old(rows), id, next), net)
    {
      if id !in rows || rows[id].status != Running {
        return if net.Answered? then Some(NotFound) else Some(Unavailable);
      }
      error := Update(id, rows[id].(stage := next, status := Queued, worker := None), net);
    }

    /** A new version of one row, subject to the unique index. */
    method Update(id: JobId, j: Job, net: Reply) returns (error: Option<StoreError>)
      requires Valid() && id in rows && j.id == id
      modifies `rows
      ensures Valid()
      ensures Written(rows, error) == Sent(old(rows), Save(old(rows), id, j), net)
    {
      SaveKeepsWellformed(rows, id, j);
      if net.Refused? {
        return Some(Unavailable);
      }
      if Collides(rows, id, j) {
        return if net.Answered? then Some(Duplicate) else Some(Unavailable);
      }
      rows := rows[id := j];
      return if net.Answered? then None else Some(Unavailable);
    }

    method GetJob(id: JobId, net: Reply) returns (r: Result<Job>)
      ensures r == if !net.Answered? then Err(Unavailable) else if id in rows then Ok(rows[id]) else Err(NotFound)
    {
      if !net.Answered? {
        return Err(Unavailable);
      }
      if id !in rows {
        return Err(NotFound);
      }
      return Ok(rows[id]);
    }

    /** SELECT 1 ... LIMIT 1, in any status: scan until a row matches. */
    method HasJobForMessage(u: UserId, m: MessageId) returns (has: bool)
      ensures has <==> HasJobFor(rows, u, m)
    {
      var left := rows.Keys;
      while left != {}
        invariant left <= rows.Keys
        invariant forall k :: k in rows && k !in left ==> !(rows[k].user == Some(u) && rows[k].message == Some(m))
        decreases |left|
      {
        var k :| k in left;
        if rows[k].user == Some(u) && rows[k].message == Some(m) {
          return true;
        }
        left := left - {k};
      }
      return false;
    }

    /** SELECT ... WHERE p, scanned row by row in whatever order the database returns. */
    method Select(p: Job -> bool) returns (out: seq<Job>)
      requires Valid()
      ensures IsListing(out, rows, p) && forall k :: k in rows ==> (p(rows[k]) <==> rows[k] in out)
    {
      out := [];
      var left := rows.Keys;
      while left != {}
        invariant left <= rows.Keys
        invariant forall i :: 0 <= i < |out| ==> out[i].id in rows && out[i].id !in left && rows[out[i].id] == out[i] && p(out[i])
        invariant forall i, j :: 0 <= i < j < |out| ==> out[i].id != out[j].id
        invariant forall k :: k in rows && k !in left && p(rows[k]) ==> exists i :: 0 <= i < |out| && out[i].id == k
        decreases |left|
      {
        var k :| k in left;
        left := left - {k};
        if p(rows[k]) {
          ghost var before := out;
          out := out + [rows[k]];
          assert out[|out| - 1].id == k;
          assert forall i :: 0 <= i < |before| ==> out[i] == before[i];
        }
      }
    }

    method ListRunningJobs() returns (out: seq<Job>)
      requires Valid()
      ensures IsListing(out, rows, j => IsRunning(j))
      ensures forall k :: k in rows ==> (rows[k].status == Running <==> rows[k] in out)
    {
      out := Select(j => IsRunning(j));
    }

    method ListReadyRetryJobs(now: Time) returns (out: seq<Job>)
      requires Valid()
      ensures IsListing(out, rows, j => IsReadyRetry(j, now))
      ensures forall k :: k in rows ==>
                (rows[k].status == Queued && rows[k].lastError.Some? && rows[k].nextRunAt <= now <==> rows[k] in out)
    {
      out := Select(j => IsReadyRetry(j, now));
    }

    method ListStaleQueuedJobs(now: Time, threshold: Time) returns (out: seq<Job>)
      requires Valid()
      ensures IsListing(out, rows, j => IsStaleQueued(j, now, threshold))
      ensures forall k :: k in rows ==>
                (rows[k].status == Queued && rows[k].lastError.None? && rows[k].createdAt < now - threshold <==> rows[k] in out)
    {
      out := Select(j => IsStaleQueued(j, now, threshold));
    }
  }
}
