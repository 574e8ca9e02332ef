/** No token is created, duplicated or dropped except by a push and an effective ack. */
module Conservation {
  import opened Types
  import opened Protocol
  import R = RedisLists

  function PushedBy(c: R.Command): multiset<Token> {
    if c.PushTo? then multiset{c.token} else multiset{}
  }

  function AckedBy(ls: R.Lists, c: R.Command): multiset<Token> {
    if c.AckFor? && c.token in R.At(ls, R.Processing(c.stage, c.worker)) then multiset{c.token} else multiset{}
  }

  lemma CommandConserves(ls: R.Lists, c: R.Command)
    ensures R.Tokens(R.Perform(ls, c)) + AckedBy(ls, c) == R.Tokens(ls) + PushedBy(c)
  {
    match c
    case NoCommand =>
    case PushTo(stage, t) => R.PushTokens(ls, stage, t);
    case PopFor(stage, w) => if R.At(ls, R.Pending(stage)) != [] { R.PopTokens(ls, stage, w); }
    case AckFor(stage, w, t) => R.AckTokens(ls, stage, w, t);
    case ReclaimFrom(stage, w) => if R.At(ls, R.Processing(stage, w)) != [] { R.ReclaimTokens(ls, stage, w); }
  }

  ghost predicate Conserved(s: State) {
    s.log.pushes == R.Tokens(s.lists) + s.log.acks
  }

  lemma Rebalance(pushes: multiset<Token>, lists: multiset<Token>, acks: multiset<Token>,
                  lists': multiset<Token>, pushed: multiset<Token>, acked: multiset<Token>)
    requires pushes == lists + acks && lists' + acked == lists + pushed
    ensures pushes + pushed == lists' + (acks + acked)
  {
    forall t ensures (pushes + pushed)[t] == (lists' + (acks + acked))[t] {
      assert (lists' + acked)[t] == (lists + pushed)[t];
    }
  }

  lemma LogOfStep(s: State, e: Event)
    requires e != Wipe
    ensures var c, log := CommandOf(s, e), Apply(s, e).log;
            if ReplyOf(e).Refused? then log.pushes == s.log.pushes && log.acks == s.log.acks
            else log.pushes == s.log.pushes + PushedBy(c) && log.acks == s.log.acks + AckedBy(s.lists, c)
  {
  }

  lemma ConservedStep(s: State, e: Event)
    requires Conserved(s) && e != Wipe
    ensures Conserved(Apply(s, e))
  {
    var c := CommandOf(s, e);
    LogOfStep(s, e);
    if !ReplyOf(e).Refused? {
      CommandConserves(s.lists, c);
      Rebalance(s.log.pushes, R.Tokens(s.lists), s.log.acks,
                R.Tokens(R.Perform(s.lists, c)), PushedBy(c), AckedBy(s.lists, c));
    }
  }

  lemma {:induction false} ConservedInRun(h: Hypotheses, s: State, events: seq<Event>)
    requires Conserved(s) && Run(h, s, events) && h.redis
    ensures Conserved(Exec(s, events))
    decreases |events|
  {
    if events != [] {
      ConservedStep(s, events[0]);
      ConservedInRun(h, Apply(s, events[0]), events[1..]);
    }
  }

  /** In every run without Redis loss, crashes and lost replies included, each token was pushed exactly as often
      as it now lies in some list plus as often as it was acked. */
  lemma TokenConservation(h: Hypotheses, s: State, events: seq<Event>, t: Token)
    requires Init(s) && Run(h, s, events) && h.redis
    ensures var s' := Exec(s, events); s'.log.pushes[t] == R.Tokens(s'.lists)[t] + s'.log.acks[t]
  {
    ConservedInRun(h, s, events);
  }
}
