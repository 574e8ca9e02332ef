/** What producers do to the job table: which rows an import adds, whatever other processes do to the table meanwhile. */
module Imports {
  import opened Types
  import opened Table
  import P = Protocol

  // ----- Messages -----

  /** The messages of a user that have a row, in whatever status. */
  function Known(db: Db, u: UserId): set<MessageId> {
    set k | k in db && db[k].user == Some(u) && db[k].message.Some? :: db[k].message.value
  }

  lemma KnownMeans(db: Db, u: UserId, m: MessageId)
    ensures m in Known(db, u) <==> HasJobFor(db, u, m)
  {
  }

  lemma KnownRow(db: Db, u: UserId, k: JobId)
    requires k in db && db[k].user == Some(u) && db[k].message.Some?
    ensures db[k].message.value in Known(db, u)
  {
  }

  /** The messages among the first i. */
  function Among(ids: seq<MessageId>, i: nat): (r: set<MessageId>)
    requires i <= |ids|
  {
    if i == 0 then {} else Among(ids, i - 1) + {ids[i - 1]}
  }

  function Messages(ids: seq<MessageId>): set<MessageId> {
    Among(ids, |ids|)
  }

  lemma {:induction false} AmongGrows(ids: seq<MessageId>, i: nat, j: nat)
    requires i <= j <= |ids|
    ensures Among(ids, i) <= Among(ids, j)
  {
    if i < j {
      AmongGrows(ids, i, j - 1);
    }
  }

  function LargestPage(pages: seq<seq<MessageId>>): nat {
    LargestTo(pages, |pages|)
  }

  function LargestTo(pages: seq<seq<MessageId>>, p: nat): nat
    requires p <= |pages|
  {
    if p == 0 then 0
    else if LargestTo(pages, p - 1) < |pages[p - 1]| then |pages[p - 1]|
    else LargestTo(pages, p - 1)
  }

  /** No page is larger, and one is as large. */
  lemma {:induction false} LargestIs(pages: seq<seq<MessageId>>, p: nat)
    requires p <= |pages|
    ensures forall q :: 0 <= q < p ==> |pages[q]| <= LargestTo(pages, p)
    ensures p > 0 ==> exists q :: 0 <= q < p && |pages[q]| == LargestTo(pages, p)
  {
    if p > 1 {
      LargestIs(pages, p - 1);
    }
  }

  /** All listed message IDs in order, repeats included. */
  function Flat(pages: seq<seq<MessageId>>): seq<MessageId> {
    FlatTo(pages, |pages|)
  }

  function FlatTo(pages: seq<seq<MessageId>>, p: nat): seq<MessageId>
    requires p <= |pages|
  {
    if p == 0 then [] else FlatTo(pages, p - 1) + pages[p - 1]
  }

  /** The page after the first p starts where they end. */
  lemma {:induction false} FlatAt(pages: seq<seq<MessageId>>, p: nat, q: nat, i: nat)
    requires p < q <= |pages| && i < |pages[p]|
    ensures |FlatTo(pages, p)| + i < |FlatTo(pages, q)| && FlatTo(pages, q)[|FlatTo(pages, p)| + i] == pages[p][i]
  {
    if p < q - 1 {
      FlatAt(pages, p, q - 1, i);
    }
  }

  lemma {:induction false} FlatGrows(pages: seq<seq<MessageId>>, p: nat, q: nat)
    requires p <= q <= |pages|
    ensures |FlatTo(pages, p)| <= |FlatTo(pages, q)|
  {
    if p < q {
      FlatGrows(pages, p, q - 1);
    }
  }

  /** How many of the first i messages are neither known at the start nor a repeat of an earlier one. */
  function NewCount(known: set<MessageId>, ids: seq<MessageId>, i: nat): nat
    requires i <= |ids|
  {
    if i == 0 then 0
    else NewCount(known, ids, i - 1) + (if ids[i - 1] in known + Among(ids, i - 1) then 0 else 1)
  }

  lemma {:induction false} NewCountCounts(known: set<MessageId>, ids: seq<MessageId>, i: nat)
    requires i <= |ids|
    ensures NewCount(known, ids, i) == |Among(ids, i) - known|
  {
    if i > 0 {
      NewCountCounts(known, ids, i - 1);
      NewOnes(Among(ids, i - 1), Among(ids, i), known, ids[i - 1]);
    }
  }

  lemma NewOnes(done: set<MessageId>, more: set<MessageId>, known: set<MessageId>, m: MessageId)
    requires more == done + {m}
    ensures |more - known| == |done - known| + (if m in known + done then 0 else 1)
  {
    if m in known + done {
      assert more - known == done - known;
    } else {
      assert more - known == (done - known) + {m};
    }
  }

  // ----- One insert -----

  function MailJob(u: UserId, m: MessageId): NewJob {
    NewJob(Fetch, Some(u), Some(m), false)
  }

  predicate LiveRow(db: Db, u: UserId, m: MessageId) {
    exists k :: k in db && Indexed(db[k]) && db[k].user == Some(u) && db[k].message == Some(m)
  }

  /** Every row of the message has ended; demo rows, which the index ignores, do not count. */
  predicate AllEnded(db: Db, u: UserId, m: MessageId) {
    forall k :: k in db && db[k].user == Some(u) && db[k].message == Some(m) ==> db[k].status in {Done, Dead} || db[k].synthetic
  }

  predicate TwoRows(db: Db, u: UserId, m: MessageId) {
    exists k, l :: k in db && l in db && k != l
                   && db[k].user == db[l].user == Some(u) && db[k].message == db[l].message == Some(m)
  }

  lemma InsertOutcome(db: Db, id: JobId, u: UserId, m: MessageId, now: Time)
    requires id !in db
    ensures Enqueue(db, id, MailJob(u, m), now)
            == if LiveRow(db, u, m) then Written(db, Some(Duplicate)) else Written(db[id := NewRow(id, MailJob(u, m), now)], None)
    ensures LiveRow(db, u, m) <==> !AllEnded(db, u, m)
  {
    var row := NewRow(id, MailJob(u, m), now);
    if k :| k in db && Indexed(db[k]) && db[k].user == Some(u) && db[k].message == Some(m) {
      assert SameMessage(db[k], row);
    }
  }

  /** The insert goes through exactly when every row of the message has ended, and then adds a second one exactly when
      there was one. */
  lemma SecondRowExactly(db: Db, id: JobId, u: UserId, m: MessageId, now: Time)
    requires id !in db
    ensures var after := Enqueue(db, id, MailJob(u, m), now).db;
            && (id in after <==> AllEnded(db, u, m))
            && (TwoRows(after, u, m) <==> TwoRows(db, u, m) || (HasJobFor(db, u, m) && AllEnded(db, u, m)))
  {
    InsertOutcome(db, id, u, m, now);
    var after := Enqueue(db, id, MailJob(u, m), now).db;
    forall k | k in db ensures k in after && after[k] == db[k] {
    }
    if HasJobFor(db, u, m) && AllEnded(db, u, m) {
      var k :| k in db && db[k].user == Some(u) && db[k].message == Some(m);
      assert k in after && after[id].user == Some(u) && after[id].message == Some(m);
    }
  }

  /** The race that the check before the insert does not prevent: a producer has found the message unknown, and by now
      there are rows of it and all have ended. The insert goes through, and the message has two rows. */
  lemma CheckedTooEarly(s: P.State, p: nat, u: UserId, m: MessageId, id: JobId)
    requires P.ProducerAt(s, p) == P.Checked(u, m) && HasJobFor(s.db, u, m) && AllEnded(s.db, u, m) && id !in s.db
    ensures var e := P.OnProducer(p, P.Insert(id, MailJob(u, m), Answered));
            P.Enabled(s, e) && TwoRows(P.Apply(s, e).db, u, m)
  {
    SecondRowExactly(s.db, id, u, m, s.now);
  }

  // ----- What an import adds -----

  predicate SameOrigin(a: Job, b: Job) {
    a.user == b.user && a.message == b.message
  }

  predicate Traced(db: Db, db': Db, k: JobId) {
    k in db ==> k in db' && SameOrigin(db[k], db'[k])
  }

  /** No row disappears, and none changes what it is for. */
  ghost predicate Carried(db: Db, db': Db) {
    forall k :: Traced(db, db', k)
  }

  /** A row the import inserted: new, for one of the messages in `ids`, which had no row at the start. */
  predicate OwnRow(was: Db, db: Db, u: UserId, ids: set<MessageId>, k: JobId) {
    && k in db && k !in was && db[k].user == Some(u)
    && db[k].message.Some? && db[k].message.value in ids && db[k].message.value !in Known(was, u)
  }

  predicate NoTwin(db: Db, k: JobId, l: JobId) {
    k in db && l in db && db[k].message == db[l].message ==> k == l
  }

  predicate NoRepeats<T(==)>(s: seq<T>) {
    s == [] || (s[0] !in s[1..] && NoRepeats(s[1..]))
  }

  /** The import has inserted the rows `own`, newest first: each is the only one of its message that it inserted, and
      the message was unknown when it began. Everything else in the table is somebody else's doing. */
  ghost predicate Imported(was: Db, db: Db, u: UserId, ids: set<MessageId>, own: seq<JobId>) {
    && Carried(was, db)
    && (forall k {:trigger OwnRow(was, db, u, ids, k)} :: k in own ==> OwnRow(was, db, u, ids, k))
    && (forall k, l {:trigger NoTwin(db, k, l)} :: k in own && l in own ==> NoTwin(db, k, l))
    && NoRepeats(own)
  }

  predicate Ours(was: Db, db: Db, u: UserId, own: seq<JobId>, k: JobId) {
    k in db && k !in was && db[k].user == Some(u) ==> k in own
  }

  /** Nobody else has inserted a row for this user. */
  ghost predicate Sole(was: Db, db: Db, u: UserId, own: seq<JobId>) {
    forall k :: Ours(was, db, u, own, k)
  }

  function Grown(own: seq<JobId>, more: Option<JobId>): seq<JobId> {
    if more.Some? then [more.value] + own else own
  }

  /** What dealing with one message does to the table. */
  ghost predicate Stepped(db: Db, db': Db, u: UserId, m: MessageId, more: Option<JobId>) {
    && Carried(db, db')
    && (more.Some? ==> && more.value !in db && more.value in db' && m !in Known(db, u)
                       && db'[more.value].user == Some(u) && db'[more.value].message == Some(m))
  }

  lemma CarriedTransitive(a: Db, b: Db, c: Db)
    requires Carried(a, b) && Carried(b, c)
    ensures Carried(a, c)
  {
    forall k ensures Traced(a, c, k) {
      assert Traced(a, b, k) && Traced(b, c, k);
    }
  }

  lemma KnownStays(db: Db, db': Db, u: UserId)
    requires Carried(db, db')
    ensures Known(db, u) <= Known(db', u)
  {
    forall m | m in Known(db, u) ensures m in Known(db', u) {
      var k :| k in db && db[k].user == Some(u) && db[k].message == Some(m);
      assert Traced(db, db', k);
      KnownRow(db', u, k);
    }
  }

  lemma NoneAdded(db: Db, db': Db, u: UserId)
    requires Carried(db, db') && Sole(db, db', u, [])
    ensures Known(db', u) == Known(db, u)
  {
    KnownStays(db, db', u);
    forall m | m in Known(db', u) ensures m in Known(db, u) {
      var k :| k in db' && db'[k].user == Some(u) && db'[k].message == Some(m);
      assert Ours(db, db', u, [], k) && Traced(db, db', k);
      KnownRow(db, u, k);
    }
  }

  lemma LiveIsKnown(db: Db, u: UserId, m: MessageId)
    requires LiveRow(db, u, m)
    ensures m in Known(db, u)
  {
    var k :| k in db && Indexed(db[k]) && db[k].user == Some(u) && db[k].message == Some(m);
    KnownRow(db, u, k);
  }

  /** Without other producers, the known messages are the old ones and imported ones. */
  lemma KnownBound(was: Db, db: Db, u: UserId, ids: set<MessageId>, own: seq<JobId>)
    requires Imported(was, db, u, ids, own) && Sole(was, db, u, own)
    ensures Known(db, u) <= Known(was, u) + ids
  {
    forall m | m in Known(db, u) ensures m in Known(was, u) + ids {
      var k :| k in db && db[k].user == Some(u) && db[k].message == Some(m);
      assert Traced(was, db, k) && Ours(was, db, u, own, k);
      if k in was {
        KnownRow(was, u, k);
      } else {
        assert OwnRow(was, db, u, ids, k);
      }
    }
  }

  lemma OwnStays(was: Db, db: Db, db': Db, u: UserId, a: set<MessageId>, b: set<MessageId>, own: seq<JobId>)
    requires Imported(was, db, u, a, own) && Carried(db, db') && a <= b
    ensures Imported(was, db', u, b, own)
  {
    CarriedTransitive(was, db, db');
    forall k | k in own ensures OwnRow(was, db', u, b, k) {
      assert OwnRow(was, db, u, a, k) && Traced(db, db', k);
    }
    forall k, l | k in own && l in own ensures NoTwin(db', k, l) {
      assert NoTwin(db, k, l) && Traced(db, db', k) && Traced(db, db', l);
      assert OwnRow(was, db, u, a, k) && OwnRow(was, db, u, a, l);
    }
  }

  lemma OwnWasUnknown(was: Db, db: Db, u: UserId, ids: set<MessageId>, own: seq<JobId>, k: JobId)
    requires Imported(was, db, u, ids, own) && k in own
    ensures exists m :: m in ids && m !in Known(was, u)
  {
    assert OwnRow(was, db, u, ids, k);
  }

  lemma ImportedStep(was: Db, db: Db, db': Db, u: UserId, ids: set<MessageId>, own: seq<JobId>, m: MessageId, more: Option<JobId>)
    requires Imported(was, db, u, ids, own) && Stepped(db, db', u, m, more)
    ensures Imported(was, db', u, ids + {m}, Grown(own, more))
  {
    OwnStays(was, db, db', u, ids, ids + {m}, own);
    KnownStays(was, db, u);
    if more.Some? {
      var id := more.value;
      assert Traced(was, db, id);
      forall k | k in own ensures k != id && k in db' && db'[k].message != Some(m) {
        assert OwnRow(was, db, u, ids, k) && Traced(db, db', k);
        KnownRow(db, u, k);
      }
      assert OwnRow(was, db', u, ids + {m}, id);
      forall k, l | k in [id] + own && l in [id] + own ensures NoTwin(db', k, l) {
        assert k != id && l != id ==> NoTwin(db', k, l);
      }
      assert ([id] + own)[1..] == own;
    }
  }

  lemma SoleStep(was: Db, db: Db, db': Db, u: UserId, own: seq<JobId>, more: Option<JobId>)
    requires Sole(was, db, u, own) && Carried(db, db') && Sole(db, db', u, Grown([], more))
    ensures Sole(was, db', u, Grown(own, more))
  {
    forall k ensures Ours(was, db', u, Grown(own, more), k) {
      assert Ours(was, db, u, own, k) && Ours(db, db', u, Grown([], more), k) && Traced(db, db', k);
    }
  }

  lemma SoleTwice(a: Db, b: Db, c: Db, u: UserId, x: seq<JobId>, y: seq<JobId>)
    requires Carried(b, c) && Sole(a, b, u, x) && Sole(b, c, u, y)
    ensures Sole(a, c, u, y + x)
  {
    forall k ensures Ours(a, c, u, y + x, k) {
      assert Ours(a, b, u, x, k) && Ours(b, c, u, y, k) && Traced(b, c, k);
    }
  }

  lemma NothingYet(db: Db, u: UserId, ids: set<MessageId>)
    ensures Imported(db, db, u, ids, []) && Sole(db, db, u, [])
  {
    forall k ensures Traced(db, db, k) && Ours(db, db, u, [], k) {
    }
  }

  // ----- Tokens -----

  function TokensOf(own: seq<JobId>): (r: seq<Token>)
    ensures |r| == |own| && forall i :: 0 <= i < |own| ==> r[i] == Uuid(own[i])
  {
    seq(|own|, i requires 0 <= i < |own| => Uuid(own[i]))
  }

  lemma TokensMore(own: seq<JobId>, id: JobId)
    ensures TokensOf([id] + own) == [Uuid(id)] + TokensOf(own)
  {
  }

  /** Every token pushed is that of a row the import inserted, and none was pushed twice. */
  ghost predicate PushedFor(pushes: seq<JobId>, own: seq<JobId>) {
    NoRepeats(pushes) && forall k :: k in pushes ==> k in own
  }

  lemma PushedMore(pushes: seq<JobId>, own: seq<JobId>, more: Option<JobId>, pushed: bool)
    requires PushedFor(pushes, own) && (pushed ==> more.Some?) && (more.Some? ==> more.value !in own)
    ensures PushedFor(if pushed then [more.value] + pushes else pushes, Grown(own, more))
  {
    if pushed {
      assert ([more.value] + pushes)[1..] == pushes;
    }
  }

  // ----- Stopping and running again -----

  /** Between two runs, workers and the sweeper change rows, and nobody adds one for this user. */
  ghost predicate Meanwhile(db: Db, db': Db, u: UserId) {
    Carried(db, db') && Sole(db, db', u, [])
  }

  ghost predicate OneRow(db: Db, u: UserId, m: MessageId) {
    exists k :: k in db && db[k].user == Some(u) && db[k].message == Some(m)
                && forall l :: l in db && db[l].user == Some(u) && db[l].message == Some(m) ==> l == k
  }

  lemma ImportedTwice(a: Db, b: Db, c: Db, d: Db, u: UserId, ids: set<MessageId>, x: seq<JobId>, y: seq<JobId>)
    requires Imported(a, b, u, ids, x) && Carried(b, c) && Imported(c, d, u, ids, y)
    ensures Imported(a, d, u, ids, y + x)
  {
    OwnStays(a, b, c, u, ids, ids, x);
    OwnStays(a, c, d, u, ids, ids, x);
    KnownStays(a, c, u);
    forall k | k in x ensures k in c {
      assert OwnRow(a, c, u, ids, k);
    }
    forall k | k in y ensures OwnRow(a, d, u, ids, k) && k !in x && d[k].message.Some? && d[k].message.value !in Known(c, u) {
      assert OwnRow(c, d, u, ids, k) && Traced(a, c, k);
    }
    forall k | k in x ensures OwnRow(a, d, u, ids, k) && d[k].message.Some? && d[k].message.value in Known(c, u) {
      assert OwnRow(a, d, u, ids, k) && OwnRow(a, c, u, ids, k) && Traced(c, d, k);
      KnownRow(c, u, k);
    }
    forall k, l | k in y + x && l in y + x ensures NoTwin(d, k, l) {
      assert (k in x && l in x) || (k in y && l in y) ==> NoTwin(d, k, l);
    }
    NoRepeatsConcat(y, x);
  }

  lemma {:induction false} NoRepeatsConcat<T>(a: seq<T>, b: seq<T>)
    requires NoRepeats(a) && NoRepeats(b) && forall t :: t in a ==> t !in b
    ensures NoRepeats(a + b)
  {
    if a == [] {
      assert a + b == b;
    } else {
      assert a[0] in a;
      assert (a + b)[1..] == a[1..] + b;
      NoRepeatsConcat(a[1..], b);
    }
  }

  /** Stopped anywhere and run again to its end, without other producers: the messages of one full run have rows,
      and each new one has a single row, inserted by one of the two runs. */
  lemma StopAndRerun(db: Db, stopped: Db, later: Db, rerun: Db, u: UserId, ids: set<MessageId>, x: seq<JobId>, y: seq<JobId>)
    requires Imported(db, stopped, u, ids, x) && Sole(db, stopped, u, x) && Meanwhile(stopped, later, u)
    requires Imported(later, rerun, u, ids, y) && Sole(later, rerun, u, y) && ids <= Known(rerun, u)
    ensures Known(rerun, u) == Known(db, u) + ids
    ensures forall m :: m in ids - Known(db, u) ==> OneRow(rerun, u, m)
    ensures Imported(db, rerun, u, ids, y + x) && Sole(db, rerun, u, y + x)
  {
    ImportedTwice(db, stopped, later, rerun, u, ids, x, y);
    SoleTwice(db, stopped, later, u, x, []);
    assert [] + x == x;
    SoleTwice(db, later, rerun, u, x, y);
    KnownStays(db, rerun, u);
    KnownBound(db, rerun, u, ids, y + x);
    forall m | m in ids - Known(db, u) ensures OneRow(rerun, u, m) {
      NewHasOneRow(db, rerun, u, ids, y + x, m);
    }
  }

  lemma NewHasOneRow(db: Db, db': Db, u: UserId, ids: set<MessageId>, own: seq<JobId>, m: MessageId)
    requires Imported(db, db', u, ids, own) && Sole(db, db', u, own) && m in Known(db', u) && m !in Known(db, u)
    ensures OneRow(db', u, m)
  {
    var k :| k in db' && db'[k].user == Some(u) && db'[k].message == Some(m);
    NewIsOwn(db, db', u, ids, own, k);
    forall l | l in db' && db'[l].user == Some(u) && db'[l].message == Some(m) ensures l == k {
      NewIsOwn(db, db', u, ids, own, l);
      assert NoTwin(db', k, l);
    }
  }

  lemma NewIsOwn(db: Db, db': Db, u: UserId, ids: set<MessageId>, own: seq<JobId>, k: JobId)
    requires Imported(db, db', u, ids, own) && Sole(db, db', u, own)
    requires k in db' && db'[k].user == Some(u) && db'[k].message.Some? && db'[k].message.value !in Known(db, u)
    ensures k in own
  {
    assert Traced(db, db', k) && Ours(db, db', u, own, k);
    if k in db {
      KnownRow(db, u, k);
    }
  }

  /** Run again after completion, an import inserts no row and has no new message to count, whoever else is at work. */
  lemma RerunAddsNothing(db: Db, db': Db, u: UserId, ids: seq<MessageId>, own: seq<JobId>)
    requires Messages(ids) <= Known(db, u) && Imported(db, db', u, Messages(ids), own)
    ensures own == [] && |Messages(ids) - Known(db, u)| == 0
  {
    if own != [] {
      OwnWasUnknown(db, db', u, Messages(ids), own, own[0]);
      assert false;
    }
    assert Messages(ids) - Known(db, u) == {};
  }
}
