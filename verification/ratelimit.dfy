/** internal/api/ratelimit.go: the lazily refilled token bucket, over exact reals. Times are in seconds. */
module RateLimit {
  import opened Types

  datatype Bucket = Bucket(tokens: real, lastSeen: real)

  type Buckets = map<string, Bucket>

  datatype Limits = Limits(interval: real, burst: int)

  datatype Call = Call(key: string, at: real)

  function Gain(elapsed: real, interval: real): real
    requires interval > 0.0
  {
    elapsed / interval
  }

  function Min(a: real, b: real): real {
    if a > b then b else a
  }

  /** What a bucket holds at time `now`; a key never seen has a full one. */
  function Level(l: Limits, b: Option<Bucket>, now: real): real
    requires l.interval > 0.0
  {
    match b
    case None => l.burst as real
    case Some(b) => Min(b.tokens + Gain(now - b.lastSeen, l.interval), l.burst as real)
  }

  /** A key's first call is let through without looking at the level. */
  function Allowed(l: Limits, b: Option<Bucket>, now: real): bool
    requires l.interval > 0.0
  {
    b.None? || Level(l, b, now) >= 1.0
  }

  function Next(l: Limits, b: Option<Bucket>, now: real): Bucket
    requires l.interval > 0.0
  {
    Bucket(Level(l, b, now) - (if Allowed(l, b, now) then 1.0 else 0.0), now)
  }

  function At(m: Buckets, key: string): Option<Bucket> {
    if key in m then Some(m[key]) else None
  }

  /** The buckets and the decisions after a run of calls. */
  function Play(l: Limits, m: Buckets, calls: seq<Call>): (r: (Buckets, seq<bool>))
    requires l.interval > 0.0
    ensures |r.1| == |calls|
    decreases |calls|
  {
    if calls == [] then (m, []) else
      var b := At(m, calls[0].key);
      var rest := Play(l, m[calls[0].key := Next(l, b, calls[0].at)], calls[1..]);
      (rest.0, [Allowed(l, b, calls[0].at)] + rest.1)
  }

  lemma PlayOne(l: Limits, m: Buckets, c: Call)
    requires l.interval > 0.0
    ensures Play(l, m, [c]).0 == m[c.key := Next(l, At(m, c.key), c.at)]
    ensures Play(l, m, [c]).1 == [Allowed(l, At(m, c.key), c.at)]
  {
    var calls, m' := [c], m[c.key := Next(l, At(m, c.key), c.at)];
    assert calls[1..] == [];
  }

  class TokenBucket {
    const limits: Limits
    var buckets: Buckets

    constructor (interval: real, burst: int)
      requires interval > 0.0
      ensures limits == Limits(interval, burst) && buckets == map[]
    {
      limits := Limits(interval, burst);
      buckets := map[];
    }

    method Allow(key: string, now: real) returns (ok: bool)
      requires limits.interval > 0.0
      modifies `buckets
      ensures buckets == Play(limits, old(buckets), [Call(key, now)]).0
      ensures [ok] == Play(limits, old(buckets), [Call(key, now)]).1
    {
      PlayOne(limits, buckets, Call(key, now));
      if key !in buckets {
        buckets := buckets[key := Bucket(limits.burst as real - 1.0, now)];
        return true;
      }
      var b := buckets[key];
      var refill := Gain(now - b.lastSeen, limits.interval);
      b := b.(tokens := b.tokens + refill);
      if b.tokens > limits.burst as real {
        b := b.(tokens := limits.burst as real);
      }
      b := b.(lastSeen := now);
      if b.tokens < 1.0 {
        buckets := buckets[key := b];
        return false;
      }
      buckets := buckets[key := b.(tokens := b.tokens - 1.0)];
      return true;
    }
  }

  /** The clock never steps back, and every bucket was last touched before it. */
  ghost predicate InOrder(m: Buckets, calls: seq<Call>) {
    && (forall i, j :: 0 <= i < j < |calls| ==> calls[i].at <= calls[j].at)
    && (forall k, i :: k in m && 0 <= i < |calls| ==> m[k].lastSeen <= calls[i].at)
  }

  ghost predicate InRange(l: Limits, m: Buckets) {
    forall k :: k in m ==> 0.0 <= m[k].tokens <= l.burst as real
  }

  lemma GainAdds(a: real, b: real, interval: real)
    requires interval > 0.0
    ensures Gain(a + b, interval) == Gain(a, interval) + Gain(b, interval)
  {
  }

  lemma GainGrows(a: real, b: real, interval: real)
    requires interval > 0.0 && a <= b
    ensures Gain(a, interval) <= Gain(b, interval)
  {
    var d := b - a;
    GainAdds(a, d, interval);
    assert d / interval >= 0.0;
  }

  lemma GainOne(interval: real)
    requires interval > 0.0
    ensures Gain(interval, interval) == 1.0
  {
  }

  lemma InOrderLater(l: Limits, m: Buckets, calls: seq<Call>)
    requires l.interval > 0.0 && InOrder(m, calls) && calls != []
    ensures InOrder(m[calls[0].key := Next(l, At(m, calls[0].key), calls[0].at)], calls[1..])
  {
  }

  lemma StepInRange(l: Limits, m: Buckets, c: Call)
    requires l.interval > 0.0 && l.burst >= 1
    requires InOrder(m, [c]) && InRange(l, m)
    ensures InRange(l, m[c.key := Next(l, At(m, c.key), c.at)])
  {
    if c.key in m {
      assert [c][0].at >= m[c.key].lastSeen;
      GainGrows(0.0, c.at - m[c.key].lastSeen, l.interval);
    }
  }

  /** Tokens stay between 0 and the burst in every run. */
  lemma {:induction false} TokensInRange(l: Limits, m: Buckets, calls: seq<Call>)
    requires l.interval > 0.0 && l.burst >= 1
    requires InOrder(m, calls) && InRange(l, m)
    ensures InRange(l, Play(l, m, calls).0)
    decreases |calls|
  {
    if calls != [] {
      InOrderLater(l, m, calls);
      StepInRange(l, m, calls[0]);
      TokensInRange(l, m[calls[0].key := Next(l, At(m, calls[0].key), calls[0].at)], calls[1..]);
    }
  }

  // Rate bound.

  /** How many calls of one key were let through. */
  function Count(calls: seq<Call>, decisions: seq<bool>, key: string): nat
    requires |calls| == |decisions|
  {
    if calls == [] then 0
    else (if calls[0].key == key && decisions[0] then 1 else 0) + Count(calls[1..], decisions[1..], key)
  }

  lemma LevelLater(l: Limits, b: Option<Bucket>, t: real, u: real)
    requires l.interval > 0.0 && t <= u
    ensures Level(l, b, u) <= Level(l, b, t) + Gain(u - t, l.interval)
  {
    GainGrows(0.0, u - t, l.interval);
    if b.Some? {
      GainAdds(t - b.value.lastSeen, u - t, l.interval);
    }
  }

  lemma LevelAfter(l: Limits, b: Option<Bucket>, t: real, u: real)
    requires l.interval > 0.0 && t <= u
    ensures Level(l, Some(Next(l, b, t)), u)
            <= Level(l, b, t) - (if Allowed(l, b, t) then 1.0 else 0.0) + Gain(u - t, l.interval)
  {
  }

  lemma {:induction false} CountBound(l: Limits, m: Buckets, calls: seq<Call>, key: string, from: real, until: real)
    requires l.interval > 0.0 && l.burst >= 1
    requires InOrder(m, calls) && InRange(l, m)
    requires from <= until && forall i :: 0 <= i < |calls| ==> from <= calls[i].at <= until
    requires key in m ==> m[key].lastSeen <= from
    ensures Count(calls, Play(l, m, calls).1, key) as real <= Level(l, At(m, key), from) + Gain(until - from, l.interval)
    decreases |calls|
  {
    var start := Level(l, At(m, key), from);
    if calls == [] {
      LevelFloor(l, m, key, from);
      GainGrows(0.0, until - from, l.interval);
    } else {
      var c := calls[0];
      var m' := m[c.key := Next(l, At(m, c.key), c.at)];
      var rest := calls[1..];
      var decisions := Play(l, m, calls).1;
      assert decisions[1..] == Play(l, m', rest).1;
      InOrderLater(l, m, calls);
      assert InOrder(m, [c]) by {
        assert forall k :: k in m ==> m[k].lastSeen <= calls[0].at;
      }
      StepInRange(l, m, c);
      LevelLater(l, At(m, key), from, c.at);
      if c.key == key {
        CountBound(l, m', rest, key, c.at, until);
        LevelAfter(l, At(m, key), c.at, c.at);
        GainAdds(c.at - from, until - c.at, l.interval);
      } else {
        CountBound(l, m', rest, key, from, until);
      }
    }
  }

  lemma LevelFloor(l: Limits, m: Buckets, key: string, now: real)
    requires l.interval > 0.0 && l.burst >= 1 && InRange(l, m)
    requires key in m ==> m[key].lastSeen <= now
    ensures 0.0 <= Level(l, At(m, key), now) <= l.burst as real
  {
    if key in m {
      GainGrows(0.0, now - m[key].lastSeen, l.interval);
    }
  }

  lemma PlayThree(l: Limits, m: Buckets, a: seq<Call>, b: seq<Call>, c: seq<Call>)
    requires l.interval > 0.0
    ensures var m1 := Play(l, m, a).0;
            Play(l, m, a + (b + c)).1 == Play(l, m, a).1 + (Play(l, m1, b).1 + Play(l, Play(l, m1, b).0, c).1)
  {
    PlayConcat(l, m, a, b + c);
    PlayConcat(l, Play(l, m, a).0, b, c);
  }

  /** A stretch of a run is a run from the buckets it starts with. */
  lemma PlayWindow(l: Limits, calls: seq<Call>, i: nat, j: nat)
    requires l.interval > 0.0 && i <= j <= |calls|
    ensures Play(l, map[], calls).1[i..j] == Play(l, Play(l, map[], calls[..i]).0, calls[i..j]).1
  {
    var a, b, c := calls[..i], calls[i..j], calls[j..];
    Slices(calls, i, j);
    PlayThree(l, map[], a, b, c);
    var m := Play(l, map[], a).0;
    Stretch(Play(l, map[], a).1, Play(l, m, b).1, Play(l, Play(l, m, b).0, c).1);
  }

  lemma Slices(calls: seq<Call>, i: nat, j: nat)
    requires i <= j <= |calls|
    ensures calls == calls[..i] + (calls[i..j] + calls[j..])
  {
  }

  lemma Stretch(x: seq<bool>, y: seq<bool>, z: seq<bool>)
    ensures (x + (y + z))[|x|..|x| + |y|] == y
  {
  }

  /** In any run from an empty limiter, the calls of a key let through within a window of length L
      number at most burst + L/interval. The window is calls[i..j]. */
  lemma RateBound(l: Limits, calls: seq<Call>, i: nat, j: nat, key: string, from: real, length: real)
    requires l.interval > 0.0 && l.burst >= 1
    requires InOrder(map[], calls) && i <= j <= |calls| && length >= 0.0
    requires forall n :: i <= n < j ==> from <= calls[n].at <= from + length
    ensures Count(calls[i..j], Play(l, map[], calls).1[i..j], key) as real <= l.burst as real + Gain(length, l.interval)
  {
    GainGrows(0.0, length, l.interval);
    PlayWindow(l, calls, i, j);
    if i < j {
      var m, first := Play(l, map[], calls[..i]).0, calls[i].at;
      TokensInRange(l, map[], calls[..i]);
      SeenBefore(l, map[], calls[..i], first);
      CountBound(l, m, calls[i..j], key, first, from + length);
      LevelFloor(l, m, key, first);
      GainGrows(from + length - first, length, l.interval);
    }
  }

  lemma Appended(x: seq<bool>, y: seq<bool>, z: seq<bool>)
    ensures x + (y + z) == (x + y) + z
  {
  }

  lemma {:induction false} PlayConcat(l: Limits, m: Buckets, a: seq<Call>, b: seq<Call>)
    requires l.interval > 0.0
    ensures Play(l, m, a + b).0 == Play(l, Play(l, m, a).0, b).0
    ensures Play(l, m, a + b).1 == Play(l, m, a).1 + Play(l, Play(l, m, a).0, b).1
    decreases |a|
  {
    if a == [] {
      assert a + b == b;
    } else {
      assert (a + b)[0] == a[0] && (a + b)[1..] == a[1..] + b;
      var m', d := m[a[0].key := Next(l, At(m, a[0].key), a[0].at)], [Allowed(l, At(m, a[0].key), a[0].at)];
      PlayConcat(l, m', a[1..], b);
      Appended(d, Play(l, m', a[1..]).1, Play(l, Play(l, m', a[1..]).0, b).1);
    }
  }

  lemma {:induction false} SeenBefore(l: Limits, m: Buckets, calls: seq<Call>, t: real)
    requires l.interval > 0.0
    requires forall i :: 0 <= i < |calls| ==> calls[i].at <= t
    requires forall k :: k in m ==> m[k].lastSeen <= t
    ensures forall k :: k in Play(l, m, calls).0 ==> Play(l, m, calls).0[k].lastSeen <= t
    decreases |calls|
  {
    if calls != [] {
      SeenBefore(l, m[calls[0].key := Next(l, At(m, calls[0].key), calls[0].at)], calls[1..], t);
    }
  }

  /** With a burst below 1 the bound fails at the very first call, which is let through and leaves a negative level. */
  lemma BoundNeedsBurst(l: Limits, key: string, now: real)
    requires l.interval > 0.0
    ensures var (m, decisions) := Play(l, map[], [Call(key, now)]);
            && decisions == [true]
            && (InRange(l, m) <==> l.burst >= 1)
            && (Count([Call(key, now)], decisions, key) as real <= l.burst as real + Gain(0.0, l.interval) <==> l.burst >= 1)
  {
    var calls := [Call(key, now)];
    var after := map[][key := Next(l, None, now)];
    PlayOne(l, map[], calls[0]);
    assert Count(calls[1..], [true][1..], key) == 0;
    assert Count(calls, [true], key) == 1;
    assert after[key].tokens == l.burst as real - 1.0;
    if l.burst >= 1 {
      assert InRange(l, after);
    }
  }

  /** A key that has been silent for one interval is let through. */
  lemma WaitedEnough(l: Limits, m: Buckets, key: string, now: real)
    requires l.interval > 0.0 && l.burst >= 1 && InRange(l, m)
    requires key in m ==> m[key].lastSeen + l.interval <= now
    ensures Allowed(l, At(m, key), now)
  {
    if key in m {
      GainGrows(l.interval, now - m[key].lastSeen, l.interval);
      GainOne(l.interval);
    }
  }

  function Repeat(c: Call, n: nat): seq<Call> {
    if n == 0 then [] else [c] + Repeat(c, n - 1)
  }

  lemma {:induction false} SameInstant(l: Limits, m: Buckets, c: Call, n: nat, i: nat)
    requires l.interval > 0.0 && i < n
    requires c.key in m && m[c.key].lastSeen == c.at && m[c.key].tokens <= l.burst as real
    ensures |Repeat(c, n)| == n
    ensures Play(l, m, Repeat(c, n)).1[i] <==> m[c.key].tokens >= (i + 1) as real
  {
    assert Gain(0.0, l.interval) == 0.0;
    RepeatLength(c, n);
    if i > 0 {
      var m' := m[c.key := Next(l, At(m, c.key), c.at)];
      assert Repeat(c, n)[1..] == Repeat(c, n - 1);
      SameInstant(l, m', c, n - 1, i - 1);
    }
  }

  lemma {:induction false} RepeatLength(c: Call, n: nat)
    ensures |Repeat(c, n)| == n
  {
    if n > 0 {
      RepeatLength(c, n - 1);
    }
  }

  /** Of any number of calls at one instant on a fresh key, exactly the first `burst` are let through: the bound is attained. */
  lemma BurstExact(l: Limits, m: Buckets, c: Call, n: nat, i: nat)
    requires l.interval > 0.0 && l.burst >= 1 && i < n && c.key !in m
    ensures |Repeat(c, n)| == n
    ensures Play(l, m, Repeat(c, n)).1[i] <==> i < l.burst
  {
    RepeatLength(c, n);
    if i > 0 {
      var m' := m[c.key := Next(l, None, c.at)];
      assert Repeat(c, n)[1..] == Repeat(c, n - 1);
      SameInstant(l, m', c, n - 1, i - 1);
    }
  }

  /** Of any number of calls at one instant on a known key, exactly as many are let through as tokens have come together
      since it was last seen, but no more than the burst. */
  lemma RefilledExactly(l: Limits, m: Buckets, c: Call, n: nat, i: nat)
    requires l.interval > 0.0 && i < n && c.key in m
    ensures |Repeat(c, n)| == n
    ensures Play(l, m, Repeat(c, n)).1[i]
            <==> i < l.burst && (i + 1) as real <= m[c.key].tokens + (c.at - m[c.key].lastSeen) / l.interval
  {
    RepeatLength(c, n);
    if i > 0 {
      var m' := m[c.key := Next(l, At(m, c.key), c.at)];
      assert Repeat(c, n)[1..] == Repeat(c, n - 1);
      SameInstant(l, m', c, n - 1, i - 1);
    }
  }

  /** A key that has been silent for as many intervals as the burst gets its whole burst. */
  lemma SilentGetsBurst(l: Limits, m: Buckets, c: Call, n: nat, i: nat)
    requires l.interval > 0.0 && i < n && c.key in m && m[c.key].tokens >= 0.0
    requires m[c.key].lastSeen + l.interval * l.burst as real <= c.at
    ensures |Repeat(c, n)| == n
    ensures Play(l, m, Repeat(c, n)).1[i] <==> i < l.burst
  {
    RefilledExactly(l, m, c, n, i);
    GainAtLeast(c.at - m[c.key].lastSeen, l.interval, l.burst as real);
  }

  lemma GainAtLeast(elapsed: real, interval: real, x: real)
    requires interval > 0.0 && elapsed >= interval * x
    ensures elapsed / interval >= x
  {
    GainGrows(interval * x, elapsed, interval);
    assert interval * x / interval == x;
  }

  // Keys do not affect each other.

  function Only(calls: seq<Call>, key: string): seq<Call> {
    if calls == [] then []
    else (if calls[0].key == key then [calls[0]] else []) + Only(calls[1..], key)
  }

  /** The decisions taken for one key, in order. */
  function DecisionsFor(calls: seq<Call>, decisions: seq<bool>, key: string): seq<bool>
    requires |calls| == |decisions|
  {
    if calls == [] then []
    else (if calls[0].key == key then [decisions[0]] else []) + DecisionsFor(calls[1..], decisions[1..], key)
  }

  /** A key sees the same bucket and the same decisions as if it were the only one calling. */
  lemma {:induction false} KeysIndependent(l: Limits, m: Buckets, n: Buckets, calls: seq<Call>, key: string)
    requires l.interval > 0.0 && At(m, key) == At(n, key)
    ensures At(Play(l, m, calls).0, key) == At(Play(l, n, Only(calls, key)).0, key)
    ensures DecisionsFor(calls, Play(l, m, calls).1, key) == Play(l, n, Only(calls, key)).1
    decreases |calls|
  {
    if calls != [] {
      var c := calls[0];
      var m' := m[c.key := Next(l, At(m, c.key), c.at)];
      assert Play(l, m, calls).1[1..] == Play(l, m', calls[1..]).1;
      if c.key == key {
        var n' := n[key := Next(l, At(n, key), c.at)];
        KeysIndependent(l, m', n', calls[1..], key);
        assert Only(calls, key)[0] == c && Only(calls, key)[1..] == Only(calls[1..], key);
      } else {
        KeysIndependent(l, m', n, calls[1..], key);
        assert Only(calls, key) == Only(calls[1..], key);
      }
    }
  }

  // Rejected calls leave no trace.

  /** From time `t` on, both buckets will be seen at the same level. */
  ghost predicate Alike(l: Limits, b: Option<Bucket>, c: Option<Bucket>, t: real)
    requires l.interval > 0.0
  {
    b.Some? && c.Some? && forall u :: u >= t ==> Level(l, b, u) == Level(l, c, u)
  }

  ghost predicate AllAlike(l: Limits, m: Buckets, n: Buckets, t: real)
    requires l.interval > 0.0
  {
    m.Keys == n.Keys && forall k :: k in m ==> Alike(l, At(m, k), At(n, k), t)
  }

  lemma RejectedAlike(l: Limits, b: Bucket, t: real)
    requires l.interval > 0.0 && b.lastSeen <= t && !Allowed(l, Some(b), t)
    ensures Alike(l, Some(Next(l, Some(b), t)), Some(b), t)
  {
    forall u | u >= t ensures Level(l, Some(Next(l, Some(b), t)), u) == Level(l, Some(b), u) {
      GainAdds(t - b.lastSeen, u - t, l.interval);
      assert t - b.lastSeen + (u - t) == u - b.lastSeen;
      GainGrows(0.0, u - t, l.interval);
    }
  }

  lemma {:induction false} AlikeDecide(l: Limits, m: Buckets, n: Buckets, calls: seq<Call>, t: real)
    requires l.interval > 0.0 && AllAlike(l, m, n, t)
    requires forall i :: 0 <= i < |calls| ==> t <= calls[i].at
    ensures Play(l, m, calls).1 == Play(l, n, calls).1
    decreases |calls|
  {
    if calls != [] {
      var c := calls[0];
      var m', n' := m[c.key := Next(l, At(m, c.key), c.at)], n[c.key := Next(l, At(n, c.key), c.at)];
      if c.key in m {
        assert Alike(l, At(m, c.key), At(n, c.key), t);
        assert Level(l, At(m, c.key), c.at) == Level(l, At(n, c.key), c.at);
      }
      assert m'[c.key] == n'[c.key];
      forall k | k in m' ensures Alike(l, At(m', k), At(n', k), t) {
        if k != c.key {
          assert At(m', k) == At(m, k) && At(n', k) == At(n, k);
        }
      }
      AlikeDecide(l, m', n', calls[1..], t);
    }
  }

  /** Between a stretch of calls and another, a rejected call is as good as absent. */
  lemma RejectedBetween(l: Limits, a: seq<Call>, c: Call, z: seq<Call>)
    requires l.interval > 0.0 && InOrder(map[], a + ([c] + z))
    requires !Allowed(l, At(Play(l, map[], a).0, c.key), c.at)
    ensures Play(l, map[], a + ([c] + z)).1 == Play(l, map[], a).1 + ([false] + Play(l, Play(l, map[], a).0, z).1)
  {
    var m := Play(l, map[], a).0;
    var b := At(m, c.key);
    var m' := m[c.key := Next(l, b, c.at)];
    PlayThree(l, map[], a, [c], z);
    PlayOne(l, m, c);
    var calls := a + ([c] + z);
    assert forall i :: 0 <= i < |a| ==> a[i] == calls[i];
    assert calls[|a|] == c;
    assert forall i :: 0 <= i < |z| ==> z[i] == calls[|a| + 1 + i];
    SeenBefore(l, map[], a, c.at);
    RejectedAlike(l, b.value, c.at);
    forall k | k in m' ensures Alike(l, At(m', k), At(m, k), c.at) {
      if k != c.key {
        assert At(m', k) == At(m, k);
      }
    }
    assert m'.Keys == m.Keys;
    AlikeDecide(l, m', m, z, c.at);
  }

  lemma SplitAtCall(l: Limits, calls: seq<Call>, i: nat)
    requires l.interval > 0.0 && i < |calls|
    ensures calls == calls[..i] + ([calls[i]] + calls[i + 1..])
    ensures Play(l, map[], calls).1[i] == Allowed(l, At(Play(l, map[], calls[..i]).0, calls[i].key), calls[i].at)
  {
    var a, c, z := calls[..i], calls[i], calls[i + 1..];
    assert calls == a + ([c] + z);
    PlayThree(l, map[], a, [c], z);
    PlayOne(l, Play(l, map[], a).0, c);
  }

  /** Deleting a rejected call from a run changes no other decision. */
  lemma StutterFree(l: Limits, calls: seq<Call>, i: nat)
    requires l.interval > 0.0 && InOrder(map[], calls)
    requires i < |calls| && !Play(l, map[], calls).1[i]
    ensures Play(l, map[], calls[..i] + calls[i + 1..]).1
            == Play(l, map[], calls).1[..i] + Play(l, map[], calls).1[i + 1..]
  {
    var a, z := calls[..i], calls[i + 1..];
    SplitAtCall(l, calls, i);
    RejectedBetween(l, a, calls[i], z);
    PlayConcat(l, map[], a, z);
  }
}
