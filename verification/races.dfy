/** A run in which a message gets two rows. */
module Races {
  import opened Types
  import opened Table
  import opened Rows
  import opened Imports
  import opened Passes
  import R = RedisLists
  import P = Protocol
  import opened Traces

  // ----- The run -----

  const MAIL: MessageId := "m"

  /** A producer has found the message unknown; job 0 is the only row, its message's. */
  predicate Underway(s: P.State, stage: Stage) {
    && s.db.Keys == {0} && s.db[0].user == Some(USER) && s.db[0].message == Some(MAIL) && !s.db[0].synthetic
    && s.db[0].status == Queued && s.db[0].stage == stage
    && P.ProducerAt(s, 0) == P.Checked(USER, MAIL) && USER in s.drives
  }

  /** The state before a stage's turn, with the workers that there are. */
  ghost predicate Turn(s: P.State, stage: Stage, workers: set<WorkerId>) {
    Underway(s, stage) && OnlyToken(s.lists, stage, 0) && s.workers.Keys == workers
  }

  /** That row has ended. */
  ghost predicate Over(s: P.State) {
    HasJobFor(s.db, USER, MAIL) && AllEnded(s.db, USER, MAIL) && 1 !in s.db && P.ProducerAt(s, 0) == P.Checked(USER, MAIL)
  }

  /** Only the first producer has done something: its check. */
  predicate OnlyChecked(s: P.State) {
    && s.db == map[] && s.lists == map[] && s.workers == map[] && USER in s.drives
    && s.producers == map[0 := P.Checked(USER, MAIL)]
  }

  lemma Checks() returns (events: seq<P.Event>, s: P.State)
    ensures Reached(START, events, s) && OnlyChecked(s)
  {
    assert P.Run(NO_TIMING, START, []) && P.Exec(START, []) == START;
    events, s := Checking(START, [], START, 0, USER, MAIL);
  }

  lemma OtherInserts(before: seq<P.Event>, s: P.State) returns (events: seq<P.Event>, s': P.State)
    requires Reached(START, before, s) && OnlyChecked(s)
    ensures Reached(START, events, s') && Underway(s', Fetch) && s'.lists == map[] && s'.workers == map[]
    ensures P.ProducerAt(s', 1) == P.Inserted(0, Fetch)
  {
    events, s' := Inserting(START, before, s, 1, 0, MailJob(USER, MAIL));
  }

  lemma FirstTurn(s: P.State, s': P.State)
    requires Underway(s, Fetch) && s.lists == map[] && s.workers == map[] && P.ProducerAt(s, 1) == P.Inserted(0, Fetch)
    requires Unmoved(s, s') && s'.workers == s.workers && s'.db == s.db && s'.producers == s.producers[1 := P.Free]
    requires s'.lists == R.Perform(s.lists, R.PushTo(Fetch, Uuid(0)))
    ensures Turn(s', Fetch, {})
  {
    FirstPush(s.lists, 0);
  }

  lemma OtherPushes(before: seq<P.Event>, s: P.State) returns (events: seq<P.Event>, s': P.State)
    requires Reached(START, before, s) && Underway(s, Fetch) && s.lists == map[] && s.workers == map[]
    requires P.ProducerAt(s, 1) == P.Inserted(0, Fetch)
    ensures Reached(START, events, s') && Turn(s', Fetch, {})
  {
    events, s' := PushingNew(START, before, s, 1);
    FirstTurn(s, s');
  }

  lemma LegEnds(s: P.State, s': P.State, stage: Stage)
    requires Underway(s, stage) && s'.producers == s.producers && USER in s'.drives
    requires 0 in s'.db && s'.db == s.db[0 := s'.db[0]] && Advanced(s.db[0], s'.db[0])
    ensures match P.NextStage(stage)
            case Some(next) => Underway(s', next)
            case None => Over(s')
  {
  }

  /** A new worker of the stage takes the job one stage further. */
  lemma Leg(before: seq<P.Event>, s: P.State, w: WorkerId, stage: Stage) returns (events: seq<P.Event>, s': P.State)
    requires Reached(START, before, s) && Underway(s, stage) && OnlyToken(s.lists, stage, 0) && w !in s.workers
    ensures Reached(START, events, s') && s'.workers.Keys == s.workers.Keys + {w}
    ensures match P.NextStage(stage)
            case Some(next) => Underway(s', next) && OnlyToken(s'.lists, next, 0)
            case None => Over(s')
  {
    var started, t := Stands(before, s, w, stage);
    var more;
    more, s' := PassAdvances(NO_TIMING, t, w, 0);
    ThenAll(START, started, t, more, s');
    events := started + more;
    LegEnds(t, s', stage);
  }

  lemma Stands(before: seq<P.Event>, s: P.State, w: WorkerId, stage: Stage) returns (events: seq<P.Event>, s': P.State)
    requires Reached(START, before, s) && Underway(s, stage) && OnlyToken(s.lists, stage, 0) && w !in s.workers
    ensures Reached(START, events, s') && Underway(s', stage) && Standing(s', w, 0) && s'.workers.Keys == s.workers.Keys + {w}
  {
    events, s' := Arrives(before, s, w, stage);
    StandsAsNew(events, s', w, stage);
  }

  lemma Arrives(before: seq<P.Event>, s: P.State, w: WorkerId, stage: Stage) returns (events: seq<P.Event>, s': P.State)
    requires Reached(START, before, s) && Underway(s, stage) && OnlyToken(s.lists, stage, 0) && w !in s.workers
    ensures Reached(START, events, s') && Underway(s', stage) && OnlyToken(s'.lists, stage, 0)
    ensures s'.workers == s.workers[w := P.Worker(stage, P.Idle)] && s'.workers.Keys == s.workers.Keys + {w}
  {
    events, s' := Starting(START, before, s, w, stage);
  }

  lemma StandsAsNew(events: seq<P.Event>, s: P.State, w: WorkerId, stage: Stage)
    requires Reached(START, events, s) && Underway(s, stage) && OnlyToken(s.lists, stage, 0)
    requires w in s.workers && s.workers[w] == P.Worker(stage, P.Idle)
    ensures Standing(s, w, 0)
  {
    ReachedIsSound(events, s);
  }

  /** A run from nothing, with honest replies: a producer finds a message unknown, another one
      inserts it, its job goes through all stages and is done, and then the first producer inserts it again. */
  lemma TwoRowsOneMessage() returns (events: seq<P.Event>)
    ensures P.Init(START) && P.Run(NO_TIMING, START, events) && TwoRows(P.Exec(START, events).db, USER, MAIL)
  {
    StartIsInit();
    var s;
    events, s := Prologue();
    events, s := FetchLeg(events, s);
    events, s := RenderLeg(events, s);
    events, s := UploadLeg(events, s);
    events := SecondInsert(events, s);
  }

  lemma Prologue() returns (events: seq<P.Event>, s: P.State)
    ensures Reached(START, events, s) && Turn(s, Fetch, {})
  {
    events, s := Checks();
    events, s := OtherInserts(events, s);
    events, s := OtherPushes(events, s);
  }

  lemma FetchLeg(before: seq<P.Event>, s: P.State) returns (events: seq<P.Event>, s': P.State)
    requires Reached(START, before, s) && Turn(s, Fetch, {})
    ensures Reached(START, events, s') && Turn(s', Render, {"f"})
  {
    events, s' := Leg(before, s, "f", Fetch);
  }

  lemma RenderLeg(before: seq<P.Event>, s: P.State) returns (events: seq<P.Event>, s': P.State)
    requires Reached(START, before, s) && Turn(s, Render, {"f"})
    ensures Reached(START, events, s') && Turn(s', Upload, {"f", "r"})
  {
    assert "f"[0] != "r"[0];
    events, s' := Leg(before, s, "r", Render);
  }

  lemma UploadLeg(before: seq<P.Event>, s: P.State) returns (events: seq<P.Event>, s': P.State)
    requires Reached(START, before, s) && Turn(s, Upload, {"f", "r"})
    ensures Reached(START, events, s') && Over(s')
  {
    assert "f"[0] != "u"[0] && "r"[0] != "u"[0];
    events, s' := Leg(before, s, "u", Upload);
  }

  lemma SecondInsert(before: seq<P.Event>, s: P.State) returns (events: seq<P.Event>)
    requires Reached(START, before, s) && Over(s)
    ensures P.Run(NO_TIMING, START, events) && TwoRows(P.Exec(START, events).db, USER, MAIL)
  {
    var e := P.OnProducer(0, P.Insert(1, MailJob(USER, MAIL), Answered));
    CheckedTooEarly(s, 0, USER, MAIL, 1);
    Then(START, before, s, e);
    events := before + [e];
  }
}
