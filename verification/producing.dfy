/** What a producer does about one message, as protocol steps. */
module Producing {
  import opened Types
  import opened Table
  import opened Protocol
  import opened Imports
  import opened Enqueueing
  import R = RedisLists
  import SchedulerPoll

  function CheckReply(fault: Option<Fault>): Reply {
    if fault == Some(CheckFails) then Refused else Answered
  }

  /** With H1 assumed it holds now, and with H3 assumed no call takes effect that reports an error. */
  ghost predicate Allowed(h: Hypotheses, s: State, fault: Option<Fault>) {
    (h.timing ==> H1(s)) && (h.replies ==> InsertReply(fault) != Lost && PushReply(fault) != Lost)
  }

  lemma One(h: Hypotheses, s: State, p: nat, a: ProducerAction)
    requires ProducerEnabled(s, p, a) && (h.timing ==> H1(s)) && (h.replies ==> ReplyOf(OnProducer(p, a)) != Lost)
    ensures var t := Apply(s, OnProducer(p, a));
            && Run(h, s, [OnProducer(p, a)]) && Exec(s, [OnProducer(p, a)]) == t && (h.timing ==> H1(t))
            && t.workers == s.workers && t.beats == s.beats && t.now == s.now
  {
    var e := OnProducer(p, a);
    assert [e][1..] == [];
    assert Permits(h, s, e) && Run(h, Apply(s, e), []);
  }

  lemma CheckView(s: State, p: nat, u: UserId, m: MessageId, fault: Option<Fault>)
    ensures var t := Apply(s, OnProducer(p, CheckMessage(u, m, CheckReply(fault))));
            && t.db == s.db && t.lists == s.lists
            && ProducerAt(t, p) == if GoesOn(s.db, u, m, fault) then Checked(u, m) else Free
  {
  }

  lemma InsertView(s: State, p: nat, u: UserId, m: MessageId, id: JobId, fault: Option<Fault>)
    requires id !in s.db
    ensures var (t, e) := (Apply(s, OnProducer(p, Insert(id, MailJob(u, m), InsertReply(fault)))),
                           InsertEffect(s.db, id, u, m, fault));
            && t.db == WithRow(s.db, e.own, u, m, s.now) && t.lists == s.lists
            && ProducerAt(t, p) == (if InsertReply(fault).Answered? && e.own.Some? then Inserted(id, Fetch) else Free)
            && (!(InsertReply(fault).Answered? && e.own.Some?) ==> !e.pushed)
  {
    var e := OnProducer(p, Insert(id, MailJob(u, m), InsertReply(fault)));
    InsertOutcome(s.db, id, u, m, s.now);
    assert StatementOf(s, e) == EnqueueRow(id, MailJob(u, m), s.now) && CommandOf(s, e) == R.NoCommand;
  }

  lemma PushView(s: State, p: nat, id: JobId, fault: Option<Fault>)
    requires ProducerAt(s, p) == Inserted(id, Fetch)
    ensures var t := Apply(s, OnProducer(p, PushNew(PushReply(fault))));
            t.db == s.db && t.lists == if PushReply(fault).Refused? then s.lists else R.Push(s.lists, Fetch, Uuid(id))
  {
    assert StatementOf(s, OnProducer(p, PushNew(PushReply(fault)))) == NoStatement;
  }

  /** The insert and the push. */
  lemma InsertIsSteps(h: Hypotheses, s: State, p: nat, u: UserId, m: MessageId, id: JobId, fault: Option<Fault>)
    returns (events: seq<Event>, t: State)
    requires Allowed(h, s, fault) && (ProducerAt(s, p).Free? || ProducerAt(s, p) == Checked(u, m)) && id !in s.db
    ensures Run(h, s, events) && Exec(s, events) == t
    ensures var e := InsertEffect(s.db, id, u, m, fault);
            && t.db == WithRow(s.db, e.own, u, m, s.now)
            && t.lists == if e.pushed && e.own.Some? then R.Push(s.lists, Fetch, Uuid(e.own.value)) else s.lists
  {
    var insert, push := Insert(id, MailJob(u, m), InsertReply(fault)), PushNew(PushReply(fault));
    One(h, s, p, insert);
    InsertView(s, p, u, m, id, fault);
    t := Apply(s, OnProducer(p, insert));
    events := [OnProducer(p, insert)];
    if ProducerAt(t, p).Inserted? {
      One(h, t, p, push);
      PushView(t, p, id, fault);
      RunConcat(h, s, events, [OnProducer(p, push)]);
      events, t := events + [OnProducer(p, push)], Apply(t, OnProducer(p, push));
    }
  }

  /** What the scheduler does about a message, which does not ask first, is the insert and the push of a producer. */
  lemma OfferIsSteps(h: Hypotheses, s: State, p: nat, u: UserId, m: MessageId, id: JobId, fault: Option<Fault>)
    returns (events: seq<Event>)
    requires Allowed(h, s, fault) && ProducerAt(s, p).Free? && id !in s.db
    ensures Run(h, s, events)
    ensures var offered := SchedulerPoll.Offered(SchedulerPoll.Stores(s.db, id, s.lists), u, m, s.now, fault);
            Exec(s, events).db == offered.db && Exec(s, events).lists == offered.lists
  {
    var t;
    events, t := InsertIsSteps(h, s, p, u, m, id, fault);
    InsertOutcome(s.db, id, u, m, s.now);
  }

  /** What EnqueueOne does about a message is a run of steps of one producer: the check, then whatever the others do, then the
      insert and the push. By its contract EnqueueOne leaves this table and these lists, whichever call fails. */
  lemma EnqueueIsSteps(h: Hypotheses, s: State, p: nat, u: UserId, m: MessageId, fault: Option<Fault>,
                       between: seq<Event>, id: JobId) returns (events: seq<Event>)
    requires Allowed(h, s, fault) && ProducerAt(s, p).Free?
    requires var s1 := Apply(s, OnProducer(p, CheckMessage(u, m, CheckReply(fault))));
             var s2 := Exec(s1, between);
             GoesOn(s.db, u, m, fault) ==>
               Run(h, s1, between) && Allowed(h, s2, fault) && ProducerAt(s2, p) == Checked(u, m) && id !in s2.db
    ensures Run(h, s, events)
    ensures var s1 := Apply(s, OnProducer(p, CheckMessage(u, m, CheckReply(fault))));
            var s2 := if GoesOn(s.db, u, m, fault) then Exec(s1, between) else s1;
            var (e, t) := (EnqueueEffect(s.db, s2.db, id, u, m, fault), Exec(s, events));
            && t.db == WithRow(s2.db, e.own, u, m, s2.now)
            && t.lists == if e.pushed && e.own.Some? then R.Push(s2.lists, Fetch, Uuid(e.own.value)) else s2.lists
  {
    var check := CheckMessage(u, m, CheckReply(fault));
    One(h, s, p, check);
    CheckView(s, p, u, m, fault);
    events := [OnProducer(p, check)];
    if GoesOn(s.db, u, m, fault) {
      var s1 := Apply(s, OnProducer(p, check));
      var more, t := InsertIsSteps(h, Exec(s1, between), p, u, m, id, fault);
      RunConcat(h, s, events, between);
      RunConcat(h, s, events + between, more);
      events := events + between + more;
    }
  }
}
