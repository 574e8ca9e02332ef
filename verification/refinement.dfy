/** The two layers agree: an undisturbed ProcessOne is a run of protocol steps of one worker. */
module Refinement {
  import opened Types
  import opened Table
  import R = RedisLists
  import C = CachedWalk
  import D = Drive
  import P = Protocol
  import Backoff
  import opened Processing

  function FailureOf(c: Call): Option<string> {
    if c.handled.Errored? then Some(c.handled.message) else None
  }

  /** No call of the pass is executed with its answer lost, if the hypotheses say so. */
  predicate Honest(h: P.Hypotheses, c: Call) {
    h.replies ==> Lost !in {c.pop, c.claim, c.read, c.settle, c.push, c.ack}
  }

  /** If the hypotheses ask for heartbeats, the worker has one. */
  ghost predicate Calm(h: P.Hypotheses, s: P.State, w: WorkerId) {
    h.timing ==> P.H1(s) && w in s.beats
  }

  /** The worker is idle, and the call describes what its stage's handler can return now. */
  ghost predicate Ready(h: P.Hypotheses, s: P.State, w: WorkerId, c: Call) {
    && w in s.workers && s.workers[w].pc.Idle? && c.now == s.now && Backoff.IsJitter(c.jitter)
    && (c.handled.Named? ==> c.handled.stage == P.NextStage(s.workers[w].stage))
    && Honest(h, c) && Calm(h, s, w)
  }

  /** What handlers write: the data directory, the users' Drives and the folder cache. */
  datatype Storage = Storage(files: P.Files, drives: map<UserId, D.Tree>, cache: C.Cache)

  function StorageOf(s: P.State): Storage {
    Storage(s.files, s.drives, s.cache)
  }

  /** From `s` the events are a run, and they end in `t`; producers do nothing meanwhile, no worker starts, and no time passes. */
  ghost predicate Path(h: P.Hypotheses, s: P.State, events: seq<P.Event>, t: P.State) {
    && P.Run(h, s, events) && P.Exec(s, events) == t
    && t.producers == s.producers && t.workers.Keys == s.workers.Keys && t.now == s.now
  }

  lemma Join(h: P.Hypotheses, s: P.State, a: seq<P.Event>, t: P.State, b: seq<P.Event>, z: P.State)
    requires Path(h, s, a, t) && Path(h, t, b, z)
    ensures Path(h, s, a + b, z)
  {
    P.RunConcat(h, s, a, b);
  }

  /** One step of a worker is a run of its own. */
  lemma One(h: P.Hypotheses, s: P.State, w: WorkerId, a: P.WorkerAction)
    requires P.WorkerEnabled(s, w, a) && Calm(h, s, w) && !a.Beat? && (h.replies ==> P.H3(P.OnWorker(w, a)))
    ensures Path(h, s, [P.OnWorker(w, a)], P.Apply(s, P.OnWorker(w, a)))
    ensures Calm(h, P.Apply(s, P.OnWorker(w, a)), w)
    ensures !a.HandlerWrite? ==> StorageOf(P.Apply(s, P.OnWorker(w, a))) == StorageOf(s)
  {
    var e := P.OnWorker(w, a);
    var events, t := [e], P.Apply(s, e);
    assert events[1..] == [];
    CalmStays(h, s, w, a);
    assert P.Permits(h, s, e);
    assert P.Run(h, t, []);
  }

  lemma CalmStays(h: P.Hypotheses, s: P.State, w: WorkerId, a: P.WorkerAction)
    requires w in s.workers && Calm(h, s, w) && !a.Beat?
    ensures Calm(h, P.Apply(s, P.OnWorker(w, a)), w) && P.Apply(s, P.OnWorker(w, a)).beats == s.beats
  {
  }

  lemma TakeView(s: P.State, w: WorkerId, c: Call)
    requires w in s.workers && s.workers[w].pc.Idle?
    ensures var t := P.Apply(s, P.OnWorker(w, P.TakeToken(c.pop)));
            var stage := s.workers[w].stage;
            var queue := R.At(s.lists, R.Pending(stage));
            && t.db == s.db && t.now == s.now && t.workers.Keys == s.workers.Keys && t.workers[w].stage == stage
            && t.lists == (if c.pop.Refused? then s.lists else R.Perform(s.lists, R.PopFor(stage, w)))
            && t.workers[w].pc == if c.pop.Answered? && queue != [] then P.Popped(R.Last(queue)) else P.Idle
  {
  }

  lemma ClaimView(s: P.State, w: WorkerId, net: Reply)
    requires w in s.workers && s.workers[w].pc.Popped?
    ensures var t := P.Apply(s, P.OnWorker(w, P.ClaimRow(net)));
            var tok := s.workers[w].pc.token;
            && t.now == s.now && t.workers.Keys == s.workers.Keys && t.workers[w].stage == s.workers[w].stage
            && t.lists == s.lists
            && (tok.Garbage? ==> t.db == s.db && t.workers[w].pc == P.Acking(tok))
            && (tok.Uuid? ==>
                  var claim := Sent(s.db, Claim(s.db, tok.id, w), net);
                  && t.db == claim.db
                  && t.workers[w].pc == if claim.error.None? then P.Claimed(tok.id) else P.Acking(tok))
  {
  }

  lemma ReadView(s: P.State, w: WorkerId, net: Reply)
    requires w in s.workers && s.workers[w].pc.Claimed?
    ensures var t := P.Apply(s, P.OnWorker(w, P.ReadRow(net)));
            var id := s.workers[w].pc.id;
            && t.now == s.now && t.workers.Keys == s.workers.Keys && t.workers[w].stage == s.workers[w].stage
            && t.lists == s.lists && t.db == s.db
            && t.workers[w].pc == if net.Answered? && id in s.db then P.Working(id, s.db[id], 0, P.Home(s.db[id]))
                                  else P.Leaving(Uuid(id))
  {
  }

  lemma ReturnView(s: P.State, w: WorkerId, c: Call)
    requires w in s.workers && s.workers[w].pc.Working? && c.now == s.now
    requires c.handled.Named? ==> c.handled.stage == P.NextStage(s.workers[w].stage)
    ensures var t := P.Apply(s, P.OnWorker(w, P.HandlerReturn(FailureOf(c), c.jitter)));
            var pc := t.workers[w].pc;
            && t.workers.Keys == s.workers.Keys && t.workers[w].stage == s.workers[w].stage
            && t.lists == s.lists && t.db == s.db
            && P.SettleStatement(pc) == SettleOf(s.workers[w].pc.id, s.workers[w].pc.job, c)
            && (pc.Failing? || pc.Advancing? || pc.Finishing?) && pc.id == s.workers[w].pc.id
  {
  }

  lemma SettleView(s: P.State, w: WorkerId, net: Reply)
    requires w in s.workers
    requires s.workers[w].pc.Failing? || s.workers[w].pc.Advancing? || s.workers[w].pc.Finishing?
    ensures var t := P.Apply(s, P.OnWorker(w, P.SettleRow(net)));
            var pc := s.workers[w].pc;
            var settle := Sent(s.db, Execute(s.db, P.SettleStatement(pc)), net);
            && t.workers.Keys == s.workers.Keys && t.workers[w].stage == s.workers[w].stage
            && t.lists == s.lists && t.db == settle.db
            && t.workers[w].pc == if settle.error.Some? then P.Leaving(Uuid(pc.id))
                                  else if pc.Advancing? then P.Pushing(pc.id, pc.next) else P.Acking(Uuid(pc.id))
  {
  }

  lemma PushView(s: P.State, w: WorkerId, net: Reply)
    requires w in s.workers && s.workers[w].pc.Pushing?
    ensures var t := P.Apply(s, P.OnWorker(w, P.PushNext(net)));
            var pc := s.workers[w].pc;
            && t.workers.Keys == s.workers.Keys && t.workers[w].stage == s.workers[w].stage && t.db == s.db
            && t.lists == (if net.Refused? then s.lists else R.Push(s.lists, pc.next, Uuid(pc.id)))
            && t.workers[w].pc == P.Acking(Uuid(pc.id))
  {
  }

  lemma AckView(s: P.State, w: WorkerId, net: Reply)
    requires w in s.workers && (s.workers[w].pc.Acking? || s.workers[w].pc.Leaving?)
    ensures var t := P.Apply(s, P.OnWorker(w, P.AckToken(net)));
            var stage, pc := s.workers[w].stage, s.workers[w].pc;
            && w in t.workers && t.workers[w].stage == stage && t.db == s.db
            && t.lists == (if net.Refused? then s.lists else R.Ack(s.lists, stage, w, pc.token))
            && t.workers[w].pc == if pc.Acking? then P.Idle else P.Down
  {
  }

  // ----- The handler's durable writes -----

  /** The writes are what the handler can do next, one after the other. */
  ghost predicate CanWriteAll(s: P.State, w: WorkerId, writes: seq<P.WorkerAction>)
    decreases |writes|
  {
    writes == [] ||
    (writes[0].HandlerWrite? && P.WorkerEnabled(s, w, writes[0])
     && CanWriteAll(P.Apply(s, P.OnWorker(w, writes[0])), w, writes[1..]))
  }

  function Wrote(s: P.State, w: WorkerId, writes: seq<P.WorkerAction>): P.State
    decreases |writes|
  {
    if writes == [] then s else Wrote(P.Apply(s, P.OnWorker(w, writes[0])), w, writes[1..])
  }

  function Steps(w: WorkerId, actions: seq<P.WorkerAction>): (events: seq<P.Event>)
    ensures |events| == |actions| && forall i :: 0 <= i < |actions| ==> events[i] == P.OnWorker(w, actions[i])
  {
    if actions == [] then [] else [P.OnWorker(w, actions[0])] + Steps(w, actions[1..])
  }

  /** The handler of a worker that has just read its row writes these and may then return what the call says. */
  ghost predicate HandlerWrites(s: P.State, w: WorkerId, c: Call, writes: seq<P.WorkerAction>) {
    && w in s.workers && s.workers[w].pc.Working? && CanWriteAll(s, w, writes)
    && (c.handled.Named? ==> P.WorkerEnabled(Wrote(s, w, writes), w, P.HandlerReturn(None, c.jitter)))
  }

  lemma WriteView(s: P.State, w: WorkerId, a: P.WorkerAction)
    requires w in s.workers && s.workers[w].pc.Working? && a.HandlerWrite?
    ensures var t, pc := P.Apply(s, P.OnWorker(w, a)), s.workers[w].pc;
            && t.db == s.db && t.lists == s.lists && t.now == s.now && t.workers.Keys == s.workers.Keys
            && var pc' := t.workers[w].pc;
            t.workers[w].stage == s.workers[w].stage && pc'.Working?
            && pc'.id == pc.id && pc'.job == pc.job && pc'.writes == pc.writes + 1
  {
  }

  /** Writing touches neither the table nor the lists, and the worker goes on with the same job. */
  lemma {:induction false} WritesAreSteps(h: P.Hypotheses, s: P.State, w: WorkerId, writes: seq<P.WorkerAction>)
    requires w in s.workers && s.workers[w].pc.Working? && CanWriteAll(s, w, writes) && Calm(h, s, w)
    ensures var t := Wrote(s, w, writes);
            && Path(h, s, Steps(w, writes), t) && Calm(h, t, w)
            && t.db == s.db && t.lists == s.lists && t.now == s.now
            && w in t.workers && t.workers[w].stage == s.workers[w].stage
            && t.workers[w].pc.Working? && t.workers[w].pc.id == s.workers[w].pc.id && t.workers[w].pc.job == s.workers[w].pc.job
    decreases |writes|
  {
    if writes != [] {
      var t := P.Apply(s, P.OnWorker(w, writes[0]));
      One(h, s, w, writes[0]);
      WriteView(s, w, writes[0]);
      WritesAreSteps(h, t, w, writes[1..]);
      Join(h, s, [P.OnWorker(w, writes[0])], t, Steps(w, writes[1..]), Wrote(t, w, writes[1..]));
    }
  }

  // ----- Successful handlers have such writes -----

  /** What a handler finds when it can succeed: fetch a user and a message, render the mime file, upload the user's
      Drive and the files of render. */
  predicate Provided(s: P.State, stage: Stage, id: JobId, job: Job) {
    match stage
    case Fetch => job.user.Some? && job.message.Some?
    case Render => id in s.files.mime && (id in s.files.meta ==> "email.pdf" !in s.files.meta[id].chain)
    case Upload => job.user.Some? && job.user.value in s.drives && id in s.files.meta && id in s.files.pdf
    case Test => true
  }

  /** The number of writes with which the handler of a stage may return. */
  function Enough(s: P.State, stage: Stage, id: JobId): nat {
    match stage
    case Fetch => 1
    case Render => 2
    case Upload => if id in s.files.meta then P.UploadSteps(s.files.meta[id]) else 0
    case Test => 0
  }

  function NextWrite(s: P.State, id: JobId): P.WorkerAction {
    P.HandlerWrite(if id in s.files.meta then s.files.meta[id] else P.Meta([], []), "", C.Weather({}, false, false))
  }

  lemma NextWriteWorks(s: P.State, w: WorkerId)
    requires w in s.workers && s.workers[w].pc.Working?
    requires var stage, pc := s.workers[w].stage, s.workers[w].pc;
             Provided(s, stage, pc.id, pc.job) && pc.writes < Enough(s, stage, pc.id)
    ensures var stage, pc := s.workers[w].stage, s.workers[w].pc;
            var a := NextWrite(s, pc.id);
            var t := P.Apply(s, P.OnWorker(w, a));
            && P.WorkerEnabled(s, w, a)
            && Provided(t, stage, pc.id, pc.job) && Enough(t, stage, pc.id) == Enough(s, stage, pc.id)
  {
  }

  /** A handler that finds what it needs can do its writes and return without an error. */
  lemma {:induction false} CanSucceed(s: P.State, w: WorkerId, c: Call) returns (writes: seq<P.WorkerAction>)
    requires w in s.workers && s.workers[w].pc.Working? && Backoff.IsJitter(c.jitter)
    requires var stage, pc := s.workers[w].stage, s.workers[w].pc;
             Provided(s, stage, pc.id, pc.job) && pc.writes <= Enough(s, stage, pc.id)
    ensures HandlerWrites(s, w, c, writes)
    decreases Enough(s, s.workers[w].stage, s.workers[w].pc.id) - s.workers[w].pc.writes
  {
    var stage, pc := s.workers[w].stage, s.workers[w].pc;
    if pc.writes == Enough(s, stage, pc.id) {
      writes := [];
    } else {
      var a := NextWrite(s, pc.id);
      NextWriteWorks(s, w);
      WriteView(s, w, a);
      var rest := CanSucceed(P.Apply(s, P.OnWorker(w, a)), w, c);
      writes := [a] + rest;
      assert writes[1..] == rest;
    }
  }

  // ----- From the popped token to the end of the handler -----

  /** Where the claim, the read and the handler leave a worker that has popped token `t`. */
  predicate Handled(db: Db, t: Token, w: WorkerId, c: Call, db': Db, pc: P.Pc) {
    if t.Garbage? then db' == db && pc == P.Acking(t) else
    var claim := Sent(db, Claim(db, t.id, w), c.claim);
    && db' == claim.db
    && (if claim.error.Some? then pc == P.Acking(t)
        else if !c.read.Answered? || t.id !in claim.db then pc == P.Leaving(t)
        else (pc.Failing? || pc.Advancing? || pc.Finishing?) && pc.id == t.id
             && P.SettleStatement(pc) == SettleOf(t.id, claim.db[t.id], c))
  }

  /** The state in which the handler starts, if the claim and the read go well. */
  function AtHandler(s: P.State, w: WorkerId, c: Call): P.State {
    var s2 := P.Apply(s, P.OnWorker(w, P.ClaimRow(c.claim)));
    P.Apply(s2, P.OnWorker(w, P.ReadRow(c.read)))
  }

  predicate Starts(s: P.State, w: WorkerId, c: Call) {
    w in AtHandler(s, w, c).workers && AtHandler(s, w, c).workers[w].pc.Working?
  }

  /** The call's handler, if it starts at all, can do these writes. */
  ghost predicate Handles(s: P.State, w: WorkerId, c: Call, writes: seq<P.WorkerAction>) {
    Starts(s, w, c) ==> HandlerWrites(AtHandler(s, w, c), w, c, writes)
  }

  /** What the handler leaves, if it starts. */
  function Leaves(s: P.State, w: WorkerId, c: Call, writes: seq<P.WorkerAction>): Storage {
    if Starts(s, w, c) then StorageOf(Wrote(AtHandler(s, w, c), w, writes)) else StorageOf(s)
  }

  lemma HandlerIsRun(h: P.Hypotheses, s: P.State, w: WorkerId, c: Call, writes: seq<P.WorkerAction>)
    returns (events: seq<P.Event>, t: P.State)
    requires HandlerWrites(s, w, c, writes) && Calm(h, s, w) && c.now == s.now && Backoff.IsJitter(c.jitter)
    requires c.handled.Named? ==> c.handled.stage == P.NextStage(s.workers[w].stage)
    ensures Path(h, s, events, t) && Calm(h, t, w) && w in t.workers
    ensures t.db == s.db && t.lists == s.lists && t.workers[w].stage == s.workers[w].stage
    ensures StorageOf(t) == StorageOf(Wrote(s, w, writes))
    ensures var pc, was := t.workers[w].pc, s.workers[w].pc;
            && (pc.Failing? || pc.Advancing? || pc.Finishing?) && pc.id == was.id
            && P.SettleStatement(pc) == SettleOf(was.id, was.job, c)
  {
    WritesAreSteps(h, s, w, writes);
    var s1, back := Wrote(s, w, writes), P.HandlerReturn(FailureOf(c), c.jitter);
    ReturnView(s1, w, c);
    One(h, s1, w, back);
    t := P.Apply(s1, P.OnWorker(w, back));
    events := Steps(w, writes) + [P.OnWorker(w, back)];
    Join(h, s, Steps(w, writes), s1, [P.OnWorker(w, back)], t);
  }

  lemma ClaimIsRun(h: P.Hypotheses, s: P.State, w: WorkerId, c: Call) returns (events: seq<P.Event>, t: P.State)
    requires w in s.workers && s.workers[w].pc.Popped? && Honest(h, c) && Calm(h, s, w)
    ensures Path(h, s, events, t) && Calm(h, t, w)
    ensures w in t.workers && t.workers[w].stage == s.workers[w].stage && t.lists == s.lists && t.now == s.now
    ensures var pc, tok := t.workers[w].pc, s.workers[w].pc.token;
            if pc.Working? then
              && tok.Uuid? && t == AtHandler(s, w, c)
              && (var claim := Sent(s.db, Claim(s.db, tok.id, w), c.claim);
                  && claim.error.None? && c.read.Answered? && t.db == claim.db
                  && tok.id in t.db && pc.id == tok.id && pc.job == t.db[tok.id])
            else (pc.Acking? || pc.Leaving?) && Handled(s.db, tok, w, c, t.db, pc) && !Starts(s, w, c)
    ensures t.workers[w].pc.Working? ==> Starts(s, w, c)
    ensures StorageOf(t) == StorageOf(s)
  {
    ClaimView(s, w, c.claim);
    One(h, s, w, P.ClaimRow(c.claim));
    t := P.Apply(s, P.OnWorker(w, P.ClaimRow(c.claim)));
    events := [P.OnWorker(w, P.ClaimRow(c.claim))];
    if t.workers[w].pc.Claimed? {
      events, t := ReadIsRun(h, s, w, c, events, t);
    }
  }

  lemma ReadIsRun(h: P.Hypotheses, s: P.State, w: WorkerId, c: Call, before: seq<P.Event>, s2: P.State)
    returns (events: seq<P.Event>, t: P.State)
    requires Path(h, s, before, s2) && w in s2.workers && s2.workers[w].pc.Claimed? && Honest(h, c) && Calm(h, s2, w)
    ensures t == P.Apply(s2, P.OnWorker(w, P.ReadRow(c.read))) && Path(h, s, events, t) && Calm(h, t, w)
    ensures w in t.workers && t.workers[w].stage == s2.workers[w].stage && t.lists == s2.lists && t.now == s2.now && t.db == s2.db
    ensures var id := s2.workers[w].pc.id;
            t.workers[w].pc == if c.read.Answered? && id in s2.db then P.Working(id, s2.db[id], 0, P.Home(s2.db[id]))
                               else P.Leaving(Uuid(id))
    ensures StorageOf(t) == StorageOf(s2)
  {
    ReadView(s2, w, c.read);
    One(h, s2, w, P.ReadRow(c.read));
    t := P.Apply(s2, P.OnWorker(w, P.ReadRow(c.read)));
    events := before + [P.OnWorker(w, P.ReadRow(c.read))];
    Join(h, s, before, s2, [P.OnWorker(w, P.ReadRow(c.read))], t);
  }

  lemma TokenIsRun(h: P.Hypotheses, s: P.State, w: WorkerId, c: Call, writes: seq<P.WorkerAction>)
    returns (events: seq<P.Event>, t: P.State)
    requires w in s.workers && s.workers[w].pc.Popped? && c.now == s.now && Backoff.IsJitter(c.jitter)
    requires c.handled.Named? ==> c.handled.stage == P.NextStage(s.workers[w].stage)
    requires Honest(h, c) && Calm(h, s, w) && Handles(s, w, c, writes)
    ensures Path(h, s, events, t) && Calm(h, t, w)
    ensures w in t.workers && t.workers[w].stage == s.workers[w].stage && t.lists == s.lists
    ensures Handled(s.db, s.workers[w].pc.token, w, c, t.db, t.workers[w].pc)
    ensures StorageOf(t) == Leaves(s, w, c, writes)
  {
    events, t := ClaimIsRun(h, s, w, c);
    if t.workers[w].pc.Working? {
      var more, s3 := [], t;
      more, t := HandlerIsRun(h, s3, w, c, writes);
      Join(h, s, events, s3, more, t);
      events := events + more;
    }
  }

  // ----- From the settle to the ack -----

  lemma SettleIsRun(h: P.Hypotheses, s: P.State, w: WorkerId, c: Call) returns (events: seq<P.Event>, t: P.State)
    requires w in s.workers && Honest(h, c) && Calm(h, s, w)
    requires s.workers[w].pc.Failing? || s.workers[w].pc.Advancing? || s.workers[w].pc.Finishing?
    ensures Path(h, s, events, t) && Calm(h, t, w)
    ensures var stage, pc := s.workers[w].stage, s.workers[w].pc;
            var settle := Sent(s.db, Execute(s.db, P.SettleStatement(pc)), c.settle);
            && w in t.workers && t.workers[w].stage == stage && t.db == settle.db
            && t.lists == (if settle.error.None? && pc.Advancing? && !c.push.Refused?
                           then R.Push(s.lists, pc.next, Uuid(pc.id)) else s.lists)
            && t.workers[w].pc == if settle.error.Some? then P.Leaving(Uuid(pc.id)) else P.Acking(Uuid(pc.id))
    ensures StorageOf(t) == StorageOf(s)
  {
    SettleView(s, w, c.settle);
    One(h, s, w, P.SettleRow(c.settle));
    t := P.Apply(s, P.OnWorker(w, P.SettleRow(c.settle)));
    events := [P.OnWorker(w, P.SettleRow(c.settle))];
    if t.workers[w].pc.Pushing? {
      events, t := PushIsRun(h, s, w, c, events, t);
    }
  }

  lemma PushIsRun(h: P.Hypotheses, s: P.State, w: WorkerId, c: Call, before: seq<P.Event>, s1: P.State)
    returns (events: seq<P.Event>, t: P.State)
    requires Path(h, s, before, s1) && w in s1.workers && s1.workers[w].pc.Pushing? && Honest(h, c) && Calm(h, s1, w)
    ensures Path(h, s, events, t) && Calm(h, t, w)
    ensures var pc := s1.workers[w].pc;
            && w in t.workers && t.workers[w] == P.Worker(s1.workers[w].stage, P.Acking(Uuid(pc.id))) && t.db == s1.db
            && t.lists == (if c.push.Refused? then s1.lists else R.Push(s1.lists, pc.next, Uuid(pc.id)))
    ensures StorageOf(t) == StorageOf(s1)
  {
    PushView(s1, w, c.push);
    One(h, s1, w, P.PushNext(c.push));
    t := P.Apply(s1, P.OnWorker(w, P.PushNext(c.push)));
    events := before + [P.OnWorker(w, P.PushNext(c.push))];
    Join(h, s, before, s1, [P.OnWorker(w, P.PushNext(c.push))], t);
  }

  lemma HandleUnsettled(db: Db, ls: R.Lists, t: Token, w: WorkerId, c: Call, db': Db, pc: P.Pc)
    requires Handled(db, t, w, c, db', pc) && (pc.Acking? || pc.Leaving?)
    ensures var o := Handle(db, ls, t, w, c);
            o.db == db' && o.lists == ls && pc.token == t && (o.error == PostClaim <==> pc.Leaving?)
  {
  }

  lemma HandleSettled(db: Db, ls: R.Lists, t: Token, w: WorkerId, c: Call, db': Db, pc: P.Pc)
    requires Handled(db, t, w, c, db', pc) && (pc.Failing? || pc.Advancing? || pc.Finishing?)
    ensures var settle := Sent(db', Execute(db', P.SettleStatement(pc)), c.settle);
            var o := Handle(db, ls, t, w, c);
            && t == Uuid(pc.id) && o.db == settle.db
            && o.lists == (if settle.error.None? && pc.Advancing? && !c.push.Refused? then R.Push(ls, pc.next, t) else ls)
            && (o.error == PostClaim <==> settle.error.Some?)
  {
  }

  lemma AckIsRun(h: P.Hypotheses, s: P.State, w: WorkerId, c: Call, before: seq<P.Event>, s1: P.State)
    returns (events: seq<P.Event>, t: P.State)
    requires Path(h, s, before, s1) && w in s1.workers && (s1.workers[w].pc.Acking? || s1.workers[w].pc.Leaving?)
    requires Honest(h, c) && Calm(h, s1, w)
    ensures Path(h, s, events, t) && Calm(h, t, w)
    ensures var stage, pc := s1.workers[w].stage, s1.workers[w].pc;
            && w in t.workers && t.workers[w].stage == stage && t.db == s1.db
            && t.lists == (if c.ack.Refused? then s1.lists else R.Ack(s1.lists, stage, w, pc.token))
            && t.workers[w].pc == if pc.Acking? then P.Idle else P.Down
    ensures StorageOf(t) == StorageOf(s1)
  {
    AckView(s1, w, c.ack);
    One(h, s1, w, P.AckToken(c.ack));
    t := P.Apply(s1, P.OnWorker(w, P.AckToken(c.ack)));
    events := before + [P.OnWorker(w, P.AckToken(c.ack))];
    Join(h, s, before, s1, [P.OnWorker(w, P.AckToken(c.ack))], t);
  }

  lemma RestIsRun(h: P.Hypotheses, s: P.State, w: WorkerId, c: Call, db: Db, tok: Token)
    returns (events: seq<P.Event>, t: P.State)
    requires w in s.workers && Handled(db, tok, w, c, s.db, s.workers[w].pc) && Honest(h, c) && Calm(h, s, w)
    ensures Path(h, s, events, t) && Calm(h, t, w)
    ensures var o := Handle(db, s.lists, tok, w, c);
            && t.db == o.db && w in t.workers && t.workers[w].stage == s.workers[w].stage
            && t.lists == (if c.ack.Refused? then o.lists else R.Ack(o.lists, s.workers[w].stage, w, tok))
            && t.workers[w].pc == if o.error == PostClaim then P.Down else P.Idle
    ensures StorageOf(t) == StorageOf(s)
  {
    var pc := s.workers[w].pc;
    events, t := [], s;
    if pc.Acking? || pc.Leaving? {
      HandleUnsettled(db, s.lists, tok, w, c, s.db, pc);
    } else {
      HandleSettled(db, s.lists, tok, w, c, s.db, pc);
      events, t := SettleIsRun(h, s, w, c);
    }
    events, t := AckIsRun(h, s, w, c, events, t);
  }

  /** Undisturbed, ProcessOne is a run of the worker's protocol steps, handler writes included, whatever its calls answer:
      the run ends with the table and the lists ProcessOne leaves, and with the worker idle, or down if ProcessOne
      returned errPostClaim; and with what the handler left in the data directory, the Drives and the cache. */
  lemma PassIsSteps(h: P.Hypotheses, s: P.State, w: WorkerId, c: Call, writes: seq<P.WorkerAction>) returns (events: seq<P.Event>)
    requires Ready(h, s, w, c)
    requires var s1 := P.Apply(s, P.OnWorker(w, P.TakeToken(c.pop)));
             s1.workers[w].pc.Popped? ==> Handles(s1, w, c, writes)
    ensures P.Run(h, s, events)
    ensures var o, t := OnePass(s.db, s.lists, s.workers[w].stage, w, c), P.Exec(s, events);
            && t.db == o.db && t.lists == o.lists
            && w in t.workers && t.workers[w] == P.Worker(s.workers[w].stage, if o.error == PostClaim then P.Down else P.Idle)
            && t.producers == s.producers && t.workers.Keys == s.workers.Keys && t.now == s.now && Calm(h, t, w)
    ensures var s1 := P.Apply(s, P.OnWorker(w, P.TakeToken(c.pop)));
            StorageOf(P.Exec(s, events)) == if s1.workers[w].pc.Popped? then Leaves(s1, w, c, writes) else StorageOf(s)
  {
    TakeView(s, w, c);
    One(h, s, w, P.TakeToken(c.pop));
    var s1 := P.Apply(s, P.OnWorker(w, P.TakeToken(c.pop)));
    events := [P.OnWorker(w, P.TakeToken(c.pop))];
    if s1.workers[w].pc.Popped? {
      var more, rest, s2, t;
      more, s2 := TokenIsRun(h, s1, w, c, writes);
      rest, t := RestIsRun(h, s2, w, c, s.db, s1.workers[w].pc.token);
      Join(h, s1, more, s2, rest, t);
      Join(h, s, events, s1, more + rest, t);
      events := events + (more + rest);
    }
  }
}
