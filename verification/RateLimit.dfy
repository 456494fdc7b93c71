/**
 The token buckets of the broker.

 `RateLimiter` keeps one bucket per key in a map, creates a bucket the first time its key is
 used and forgets it once it is full again. The reference it is proved against keeps no
 bucket at all: `Fill` reads what a key has left off the times its takes were granted, in
 milliseconds of refill. Refused takes and prunes do not appear in that history, so they
 change no answer.

 Clock readings are whole milliseconds; tokens and fills are real numbers.
 */
module RateLimit {

  /** A full bucket holds `windowMs` milliseconds of refill and a take costs `msPerToken` of them. */
  datatype Limit = Limit(windowMs: nat, msPerToken: real) {
    predicate Valid() {
      0.0 < msPerToken <= windowMs as real
    }

    /** A full bucket is worth `capacity` takes, and a window refills it. */
    ghost predicate Allows(capacity: nat, window: nat) {
      Valid() && windowMs == window && capacity as real * msPerToken == window as real
    }
  }

  function Min(a: real, b: real): real {
    if a <= b then a else b
  }

  /** The least whole number not below `x`. */
  function Ceil(x: real): int {
    -((-x).Floor)
  }

  // ---------------------------------------------------------------------------------------------
  // The reference: what a key has left is a function of its granted takes

  /** What a key has left at `now`, whose takes were granted at `grants`. */
  function Fill(l: Limit, grants: seq<int>, now: int): (fill: real)
    ensures fill <= l.windowMs as real
  {
    if grants == [] then l.windowMs as real
    else
      var last := grants[|grants| - 1];
      var left := Fill(l, grants[..|grants| - 1], last) - l.msPerToken;
      Min(l.windowMs as real, left + (now - last) as real)
  }

  /** How long a take at `now` has to wait; zero when it is granted. */
  function Wait(l: Limit, grants: seq<int>, now: int): (wait: int)
    ensures 0 <= wait
  {
    var fill := Fill(l, grants, now);
    if fill >= l.msPerToken then 0 else Ceil(l.msPerToken - fill)
  }

  /** The grants ascend, each of them found a whole token, and none is later than `now`. */
  ghost predicate Admissible(l: Limit, grants: seq<int>, now: int) {
    grants == [] ||
    var n := |grants| - 1;
    && grants[n] <= now
    && Fill(l, grants[..n], grants[n]) >= l.msPerToken
    && Admissible(l, grants[..n], grants[n])
  }

  lemma GrantStaysAdmissible(l: Limit, grants: seq<int>, now: int)
    requires l.Valid() && Admissible(l, grants, now) && Fill(l, grants, now) >= l.msPerToken
    ensures Admissible(l, grants + [now], now)
    ensures Fill(l, grants + [now], now) == Fill(l, grants, now) - l.msPerToken
  {
    assert (grants + [now])[..|grants|] == grants;
  }

  lemma LaterIsAdmissible(l: Limit, grants: seq<int>, now: int, later: int)
    requires Admissible(l, grants, now) && now <= later
    ensures Admissible(l, grants, later)
  {
  }

  /** Between two moments a key only refills, up to a full bucket. */
  lemma FillGrows(l: Limit, grants: seq<int>, now: int, later: int)
    requires now <= later && (grants != [] ==> grants[|grants| - 1] <= now)
    ensures Fill(l, grants, later) == Min(l.windowMs as real, Fill(l, grants, now) + (later - now) as real)
  {
  }

  lemma FillIsNotNegative(l: Limit, grants: seq<int>, now: int)
    requires l.Valid() && Admissible(l, grants, now)
    ensures Fill(l, grants, now) >= 0.0
  {
  }

  /** A refusal names the least number of milliseconds after which a take is granted, if none was granted before. */
  lemma WaitIsLeast(l: Limit, grants: seq<int>, now: int, later: int)
    requires l.Valid() && Admissible(l, grants, now) && now <= later
    ensures Wait(l, grants, later) == 0 <==> now + Wait(l, grants, now) <= later
  {
    FillGrows(l, grants, now, later);
  }

  // ---------------------------------------------------------------------------------------------
  // The window bound

  /** How many of `times` lie in the window. */
  function CountIn(times: seq<int>, from: int, to: int): nat {
    if times == [] then 0
    else
      var n := |times| - 1;
      CountIn(times[..n], from, to) + if from <= times[n] <= to then 1 else 0
  }

  /** The cost of `count` takes. */
  function Cost(l: Limit, count: nat): real {
    if count == 0 then 0.0 else Cost(l, count - 1) + l.msPerToken
  }

  /** What was taken since `from` and what is left never exceed one full bucket and the time since. */
  lemma {:induction false} TakenAndLeft(l: Limit, grants: seq<int>, from: int, now: int)
    requires l.Valid() && Admissible(l, grants, now) && from <= now
    ensures Cost(l, CountIn(grants, from, now)) + Fill(l, grants, now) <= (l.windowMs + now - from) as real
  {
    if grants != [] {
      var n := |grants| - 1;
      var last := grants[n];
      if from <= last {
        TakenAndLeft(l, grants[..n], from, last);
        Ascends(l, grants[..n], last);
        CountGrows(grants[..n], from, last, now);
      } else {
        Ascends(l, grants, last);
        NoneIn(grants, from, now);
      }
    }
  }

  lemma {:induction false} Ascends(l: Limit, grants: seq<int>, now: int)
    requires Admissible(l, grants, now)
    ensures forall i :: 0 <= i < |grants| ==> grants[i] <= now
  {
    if grants != [] {
      Ascends(l, grants[..|grants| - 1], grants[|grants| - 1]);
    }
  }

  lemma {:induction false} CountGrows(times: seq<int>, from: int, last: int, now: int)
    requires last <= now && forall i :: 0 <= i < |times| ==> times[i] <= last
    ensures CountIn(times, from, now) == CountIn(times, from, last)
  {
    if times != [] {
      CountGrows(times[..|times| - 1], from, last, now);
    }
  }

  lemma {:induction false} NoneIn(times: seq<int>, from: int, to: int)
    requires forall i :: 0 <= i < |times| ==> times[i] < from || to < times[i]
    ensures CountIn(times, from, to) == 0
  {
    if times != [] {
      NoneIn(times[..|times| - 1], from, to);
    }
  }

  /** The takes granted in any window of `d` milliseconds cost at most one full bucket and the window. */
  lemma {:induction false} WindowCost(l: Limit, grants: seq<int>, now: int, from: int, d: nat)
    requires l.Valid() && Admissible(l, grants, now)
    ensures Cost(l, CountIn(grants, from, from + d)) <= (l.windowMs + d) as real
  {
    if grants != [] {
      var n := |grants| - 1;
      if grants[n] > from + d {
        WindowCost(l, grants[..n], grants[n], from, d);
      } else {
        TakenAndLeft(l, grants, from, from + d);
        FillIsNotNegative(l, grants, from + d);
      }
    }
  }

  lemma {:induction false} CostIsProduct(l: Limit, count: nat)
    ensures Cost(l, count) == count as real * l.msPerToken
  {
    if count > 0 {
      CostIsProduct(l, count - 1);
      Distributes((count - 1) as real, 1.0, l.msPerToken);
    }
  }

  lemma Distributes(a: real, b: real, c: real)
    ensures (a + b) * c == a * c + b * c
  {
  }

  lemma MulPositive(a: real, b: real)
    requires a > 0.0 && b > 0.0
    ensures a * b > 0.0
  {
  }

  lemma MulKeepsOrder(a: real, b: real, c: real)
    requires a <= b && c >= 0.0
    ensures a * c <= b * c
  {
  }

  /** In any window of `d` milliseconds at most `capacity * (1 + d / windowMs)` takes of a key are granted. */
  lemma WindowBound(l: Limit, capacity: nat, grants: seq<int>, now: int, from: int, d: nat)
    requires l.Allows(capacity, l.windowMs) && Admissible(l, grants, now)
    ensures CountIn(grants, from, from + d) * l.windowMs <= capacity * (l.windowMs + d)
  {
    WindowCost(l, grants, now, from, d);
    CountOfCost(l, capacity, CountIn(grants, from, from + d), d);
  }

  lemma CountOfCost(l: Limit, capacity: nat, count: nat, d: nat)
    requires l.Allows(capacity, l.windowMs) && Cost(l, count) <= (l.windowMs + d) as real
    ensures count * l.windowMs <= capacity * (l.windowMs + d)
  {
    CostIsProduct(l, count);
    CountBound(count, capacity, l.windowMs, l.windowMs + d, l.msPerToken);
  }

  lemma CountBound(count: nat, capacity: nat, windowMs: nat, total: nat, per: real)
    requires capacity as real * per == windowMs as real
    requires count as real * per <= total as real
    ensures count * windowMs <= capacity * total
  {
    var n := count as real;
    var c := capacity as real;
    MulKeepsOrder(n * per, total as real, c);
    Reassociates(n, per, c);
    assert (count * windowMs) as real == n * windowMs as real;
    assert (capacity * total) as real == c * total as real;
  }

  lemma Reassociates(n: real, per: real, c: real)
    ensures (n * per) * c == n * (c * per)
  {
  }

  // ---------------------------------------------------------------------------------------------
  // The limiter itself

  datatype Bucket = Bucket(tokens: real, updatedAt: int)

  type Grants = map<string, seq<int>>

  function GrantsOf(history: Grants, key: string): seq<int> {
    if key in history then history[key] else []
  }

  function Granted(history: Grants, key: string, now: int): Grants {
    history[key := GrantsOf(history, key) + [now]]
  }

  /** `tokens` are worth `ms` milliseconds of refill. */
  ghost predicate Worth(l: Limit, tokens: real, ms: real) {
    tokens * l.msPerToken == ms
  }

  /** The tokens of a bucket after some time, and what they are worth. */
  lemma Refills(l: Limit, capacity: nat, tokens: real, ms: real, elapsed: int)
    requires l.Valid() && Worth(l, capacity as real, l.windowMs as real) && Worth(l, tokens, ms)
    ensures var after := Min(capacity as real, tokens + elapsed as real / l.msPerToken);
            Worth(l, after, Min(l.windowMs as real, ms + elapsed as real))
  {
    var more := elapsed as real / l.msPerToken;
    assert more * l.msPerToken == elapsed as real;
    Distributes(tokens, more, l.msPerToken);
    WorthCompares(l, capacity as real, l.windowMs as real, tokens + more, ms + elapsed as real);
  }

  lemma WorthCompares(l: Limit, a: real, aMs: real, b: real, bMs: real)
    requires l.Valid() && Worth(l, a, aMs) && Worth(l, b, bMs)
    ensures a <= b <==> aMs <= bMs
  {
    Distributes(a - b, b, l.msPerToken);
    if a <= b {
      MulKeepsOrder(a, b, l.msPerToken);
    } else {
      MulPositive(a - b, l.msPerToken);
    }
  }

  /** A bucket decides as the reference does, and stays worth what it should after giving a token. */
  lemma TokenDecides(l: Limit, tokens: real, ms: real)
    requires l.Valid() && Worth(l, tokens, ms)
    ensures tokens >= 1.0 <==> ms >= l.msPerToken
    ensures Worth(l, tokens - 1.0, ms - l.msPerToken)
    ensures (1.0 - tokens) * l.msPerToken == l.msPerToken - ms
  {
    WorthCompares(l, 1.0, l.msPerToken, tokens, ms);
    Distributes(tokens, -1.0, l.msPerToken);
    Distributes(1.0, -tokens, l.msPerToken);
    assert (-tokens) * l.msPerToken == -(tokens * l.msPerToken);
  }

  /** How long until there is a whole token. */
  function Refill(l: Limit, tokens: real): int {
    Ceil((1.0 - tokens) * l.msPerToken)
  }

  /** The tokens of a key tell its wait. */
  lemma WaitOfTokens(l: Limit, grants: seq<int>, now: int, tokens: real)
    requires l.Valid() && Worth(l, tokens, Fill(l, grants, now))
    ensures Wait(l, grants, now) == if tokens >= 1.0 then 0 else Refill(l, tokens)
    ensures Wait(l, grants, now) == 0 <==> tokens >= 1.0
  {
    TokenDecides(l, tokens, Fill(l, grants, now));
    hide Fill, Worth;
  }

  /**
   What is kept for `key` says what the reference says: a bucket has the fill of its last update, no
   bucket is a full one.
   */
  ghost predicate KeyFits(l: Limit, buckets: map<string, Bucket>, history: Grants, clock: int, key: string) {
    var grants := GrantsOf(history, key);
    if key in buckets then
      && buckets[key].updatedAt <= clock
      && Admissible(l, grants, buckets[key].updatedAt)
      && Worth(l, buckets[key].tokens, Fill(l, grants, buckets[key].updatedAt))
    else
      && Admissible(l, grants, clock)
      && Fill(l, grants, clock) == l.windowMs as real
  }

  lemma FitsLater(l: Limit, buckets: map<string, Bucket>, history: Grants, clock: int, now: int, key: string)
    requires clock <= now && KeyFits(l, buckets, history, clock, key)
    ensures KeyFits(l, buckets, history, now, key)
  {
    if key !in buckets {
      FillGrows(l, GrantsOf(history, key), clock, now);
      LaterIsAdmissible(l, GrantsOf(history, key), clock, now);
    }
  }

  lemma ShareIsSmaller(share: real, count: nat)
    requires count >= 1 && share * count as real > 0.0
    ensures 0.0 < share <= share * count as real
  {
    if share <= 0.0 {
      MulKeepsOrder(share, 0.0, count as real);
    } else {
      MulKeepsOrder(1.0, count as real, share);
    }
  }

  function LimitOf(capacity: nat, windowMs: nat): Limit
    requires capacity >= 1
  {
    Limit(windowMs, windowMs as real / capacity as real)
  }

  class RateLimiter {
    const capacity: nat
    const limit: Limit
    var buckets: map<string, Bucket>
    // The granted takes per key, and the last moment the clock was read.
    ghost var history: Grants
    ghost var clock: int

    ghost predicate Valid()
      reads this
    {
      && limit.Valid() && Worth(limit, capacity as real, limit.windowMs as real)
      && forall key :: KeyFits(limit, buckets, history, clock, key)
    }

    constructor (capacity: nat, windowMs: nat, now: int)
      requires capacity >= 1 && windowMs >= 1
      ensures Valid() && limit == LimitOf(capacity, windowMs) && limit.Allows(capacity, windowMs)
      ensures this.capacity == capacity
      ensures history == map[] && clock == now
    {
      this.capacity := capacity;
      limit := LimitOf(capacity, windowMs);
      assert windowMs as real / capacity as real * capacity as real == windowMs as real;
      ShareIsSmaller(windowMs as real / capacity as real, capacity);
      buckets := map[];
      history := map[];
      clock := now;
    }

    /** The wait of the reference; only a take granted counts, and only for its key. */
    method Take(key: string, now: int) returns (wait: int)
      requires Valid() && clock <= now
      modifies this
      ensures Valid() && clock == now
      ensures wait == Wait(limit, GrantsOf(old(history), key), now)
      ensures history == if wait == 0 then Granted(old(history), key, now) else old(history)
    {
      hide Worth, KeyFits, Fill, Wait, Admissible, Refill;
      AdvanceClock(now);
      var tokens := Level(key, now);
      WaitOfTokens(limit, GrantsOf(history, key), now, tokens);
      if tokens >= 1.0 {
        Spend(key, tokens, now);
        wait := 0;
      } else {
        Keep(key, tokens, now);
        wait := Refill(limit, tokens);
      }
    }

    /** One of the tokens of a key goes. */
    method Spend(key: string, tokens: real, now: int)
      requires Valid() && clock == now && tokens >= 1.0
      requires Worth(limit, tokens, Fill(limit, GrantsOf(history, key), now))
      requires Admissible(limit, GrantsOf(history, key), now)
      modifies this`buckets, this`history
      ensures Valid() && history == Granted(old(history), key, now)
    {
      ghost var grants := GrantsOf(history, key);
      TokenDecides(limit, tokens, Fill(limit, grants, now));
      GrantStaysAdmissible(limit, grants, now);
      hide Worth, Fill, Admissible;
      Put(key, Bucket(tokens - 1.0, now), true);
    }

    /** A key without a whole token keeps what it has. */
    method Keep(key: string, tokens: real, now: int)
      requires Valid() && clock == now
      requires Worth(limit, tokens, Fill(limit, GrantsOf(history, key), now))
      requires Admissible(limit, GrantsOf(history, key), now)
      modifies this`buckets, this`history
      ensures Valid() && history == old(history)
    {
      hide Worth, Fill, Admissible;
      Put(key, Bucket(tokens, now), false);
    }

    /** The tokens a key has now; a key without a bucket has them all. */
    method Level(key: string, now: int) returns (tokens: real)
      requires Valid() && clock == now
      ensures Worth(limit, tokens, Fill(limit, GrantsOf(history, key), now))
      ensures Admissible(limit, GrantsOf(history, key), now)
      ensures key !in buckets ==> Fill(limit, GrantsOf(history, key), now) == limit.windowMs as real
    {
      ghost var grants := GrantsOf(history, key);
      assert KeyFits(limit, buckets, history, clock, key);
      var bucket := if key in buckets then buckets[key] else Bucket(capacity as real, now);
      FillGrows(limit, grants, bucket.updatedAt, now);
      LaterIsAdmissible(limit, grants, bucket.updatedAt, now);
      Refills(limit, capacity, bucket.tokens, Fill(limit, grants, bucket.updatedAt), now - bucket.updatedAt);
      tokens := Min(capacity as real, bucket.tokens + (now - bucket.updatedAt) as real / limit.msPerToken);
    }

    /** The grants, with one more of a key now when it took one. */
    ghost function With(key: string, taken: bool): Grants
      reads this`history, this`clock
    {
      if taken then Granted(history, key, clock) else history
    }

    /** Writes one bucket, which leaves what is known of every other key alone. */
    method Put(key: string, bucket: Bucket, taken: bool)
      requires Valid() && KeyFits(limit, buckets[key := bucket], With(key, taken), clock, key)
      modifies this`buckets, this`history
      ensures Valid() && history == old(With(key, taken)) && buckets == old(buckets)[key := bucket]
    {
      ghost var updated, after := buckets[key := bucket], With(key, taken);
      forall other | other != key ensures KeyFits(limit, updated, after, clock, other) {
        assert KeyFits(limit, buckets, history, clock, other);
      }
      buckets := buckets[key := bucket];
      history := after;
    }

    /** Drops the buckets that have refilled; what stays is exactly the keys that still wait for refill. */
    method Prune(now: int)
      requires Valid() && clock <= now
      modifies this
      ensures Valid() && clock == now && history == old(history)
      ensures forall key :: key in buckets <==> key in old(buckets) && !Full(key)
      ensures forall key :: key in buckets ==> buckets[key] == old(buckets)[key]
    {
      AdvanceClock(now);
      var keys := buckets.Keys;
      while keys != {}
        invariant Valid() && clock == now && history == old(history) && keys <= buckets.Keys
        invariant forall key :: key in buckets ==> key in old(buckets) && buckets[key] == old(buckets)[key]
        invariant forall key :: key in old(buckets) && key !in keys ==> (key in buckets <==> !Full(key))
        decreases keys
      {
        var key :| key in keys;
        PruneKey(key, now);
        keys := keys - {key};
      }
    }

    method PruneKey(key: string, now: int)
      requires Valid() && clock == now && key in buckets
      modifies this`buckets
      ensures Valid() && buckets == if Full(key) then old(buckets) - {key} else old(buckets)
    {
      var tokens := Level(key, now);
      WorthCompares(limit, capacity as real, limit.windowMs as real, tokens, Fill(limit, GrantsOf(history, key), now));
      if tokens >= capacity as real {
        forall other | other != key ensures KeyFits(limit, buckets - {key}, history, clock, other) {
          assert KeyFits(limit, buckets, history, clock, other);
        }
        buckets := buckets - {key};
      }
    }

    /** Whether the key has all its tokens at the last reading of the clock. */
    ghost predicate Full(key: string)
      reads this`history, this`clock
    {
      Fill(limit, GrantsOf(history, key), clock) == limit.windowMs as real
    }

    /** A later reading of the clock fits every bucket as it stands. */
    ghost method AdvanceClock(now: int)
      requires Valid() && clock <= now
      modifies this`clock
      ensures Valid() && clock == now
    {
      forall key ensures KeyFits(limit, buckets, history, now, key) {
        assert KeyFits(limit, buckets, history, clock, key);
        FitsLater(limit, buckets, history, clock, now, key);
      }
      clock := now;
    }
  }

  // ---------------------------------------------------------------------------------------------
  // Whole runs of one limiter

  datatype Call = TakeAt(key: string, at: int) | PruneAt(at: int)

  predicate ClockRuns(calls: seq<Call>) {
    forall i, j :: 0 <= i < j < |calls| ==> calls[i].at <= calls[j].at
  }

  /** What the reference has granted and answered; a prune is nothing to it. */
  function IdealRun(l: Limit, calls: seq<Call>): (Grants, seq<int>) {
    if calls == [] then (map[], [])
    else
      var (history, answers) := IdealRun(l, calls[..|calls| - 1]);
      match calls[|calls| - 1]
      case PruneAt(_) => (history, answers)
      case TakeAt(key, at) =>
        var wait := Wait(l, GrantsOf(history, key), at);
        (if wait == 0 then Granted(history, key, at) else history, answers + [wait])
  }

  /** The times of the takes of a key that were answered with no wait, the answers being those of the takes in order. */
  function GrantTimes(calls: seq<Call>, answers: seq<int>, key: string): seq<int> {
    if calls == [] then []
    else
      var n := |calls| - 1;
      match calls[n]
      case PruneAt(_) => GrantTimes(calls[..n], answers, key)
      case TakeAt(other, at) =>
        if answers == [] then []
        else
          var before := GrantTimes(calls[..n], answers[..|answers| - 1], key);
          if other == key && answers[|answers| - 1] == 0 then before + [at] else before
  }

  lemma {:induction false} GrantTimesAreGrants(l: Limit, calls: seq<Call>, key: string)
    ensures GrantTimes(calls, IdealRun(l, calls).1, key) == GrantsOf(IdealRun(l, calls).0, key)
  {
    if calls != [] {
      var n := |calls| - 1;
      var (history, answers) := IdealRun(l, calls[..n]);
      GrantTimesAreGrants(l, calls[..n], key);
      match calls[n] {
        case PruneAt(_) =>
        case TakeAt(other, at) =>
          var wait := Wait(l, GrantsOf(history, other), at);
          assert IdealRun(l, calls) == (if wait == 0 then Granted(history, other, at) else history, answers + [wait]);
          hide Wait, IdealRun;
          LastAnswer(calls, answers, wait, key);
      }
    }
  }

  lemma LastAnswer(calls: seq<Call>, answers: seq<int>, wait: int, key: string)
    requires calls != [] && calls[|calls| - 1].TakeAt?
    ensures var last := calls[|calls| - 1];
            var before := GrantTimes(calls[..|calls| - 1], answers, key);
            GrantTimes(calls, answers + [wait], key)
            == if last.key == key && wait == 0 then before + [last.at] else before
  {
    assert (answers + [wait])[..|answers|] == answers;
  }

  /** In a run with a clock that does not go back the reference grants a take only for a whole token. */
  lemma {:induction false} RunIsAdmissible(l: Limit, calls: seq<Call>, key: string, now: int)
    requires l.Valid() && ClockRuns(calls) && (calls != [] ==> calls[|calls| - 1].at <= now)
    ensures Admissible(l, GrantsOf(IdealRun(l, calls).0, key), now)
  {
    if calls != [] {
      var n := |calls| - 1;
      RunIsAdmissible(l, calls[..n], key, calls[n].at);
      var grants := GrantsOf(IdealRun(l, calls[..n]).0, key);
      LaterIsAdmissible(l, grants, calls[n].at, now);
      if calls[n].TakeAt? && calls[n].key == key {
        GrantAtWaitZero(l, grants, calls[n].at, now);
      }
    }
  }

  lemma GrantAtWaitZero(l: Limit, grants: seq<int>, at: int, now: int)
    requires l.Valid() && Admissible(l, grants, at) && at <= now
    ensures Wait(l, grants, at) == 0 ==> Admissible(l, grants + [at], now)
  {
    if Wait(l, grants, at) == 0 {
      GrantStaysAdmissible(l, grants, at);
      LaterIsAdmissible(l, grants + [at], at, now);
    }
  }

  /**
   Over every run of takes and prunes, in any window of `d` milliseconds at most
   `capacity * (1 + d / windowMs)` takes of a key are granted.
   */
  lemma RunWindowBound(l: Limit, capacity: nat, calls: seq<Call>, key: string)
    requires l.Allows(capacity, l.windowMs) && ClockRuns(calls)
    ensures Bounded(GrantTimes(calls, IdealRun(l, calls).1, key), capacity, l.windowMs)
  {
    var now := if calls == [] then 0 else calls[|calls| - 1].at;
    var times := GrantTimes(calls, IdealRun(l, calls).1, key);
    RunIsAdmissible(l, calls, key, now);
    GrantTimesAreGrants(l, calls, key);
    forall from, to | from <= to ensures CountIn(times, from, to) * l.windowMs <= capacity * (l.windowMs + to - from) {
      WindowBound(l, capacity, times, now, from, to - from);
    }
  }

  /** At most `capacity * (1 + (to - from) / windowMs)` of the times lie in any window. */
  ghost predicate Bounded(times: seq<int>, capacity: nat, windowMs: nat) {
    forall from, to :: from <= to ==> CountIn(times, from, to) * windowMs <= capacity * (windowMs + to - from)
  }

  /**
   Lazily created and pruned buckets answer every run of takes as the reference does, wherever the
   prunes fall, and grant each key no more than its rate.
   */
  method Play(capacity: nat, windowMs: nat, calls: seq<Call>) returns (answers: seq<int>)
    requires capacity >= 1 && windowMs >= 1 && ClockRuns(calls)
    ensures answers == IdealRun(LimitOf(capacity, windowMs), calls).1
    ensures forall key :: Bounded(GrantTimes(calls, answers, key), capacity, windowMs)
  {
    answers := [];
    var limiter := new RateLimiter(capacity, windowMs, if calls == [] then 0 else calls[0].at);
    for i := 0 to |calls|
      invariant limiter.Valid() && limiter.limit == LimitOf(capacity, windowMs) && fresh(limiter)
      invariant i < |calls| ==> limiter.clock <= calls[i].at
      invariant (limiter.history, answers) == IdealRun(limiter.limit, calls[..i])
    {
      assert calls[..i + 1][..i] == calls[..i];
      match calls[i] {
        case TakeAt(key, at) =>
          var wait := limiter.Take(key, at);
          answers := answers + [wait];
        case PruneAt(at) =>
          limiter.Prune(at);
      }
    }
    assert calls[..|calls|] == calls;
    forall key ensures Bounded(GrantTimes(calls, answers, key), capacity, windowMs) {
      RunWindowBound(limiter.limit, capacity, calls, key);
    }
  }

  /** Two limiters answer alike when one of them is never pruned. */
  method PlayWithoutPrunes(capacity: nat, windowMs: nat, calls: seq<Call>)
    returns (answers: seq<int>, unpruned: seq<int>)
    requires capacity >= 1 && windowMs >= 1 && ClockRuns(calls)
    ensures answers == unpruned && |answers| == |Takes(calls)|
    ensures answers == IdealRun(LimitOf(capacity, windowMs), calls).1
  {
    answers := Play(capacity, windowMs, calls);
    TakesInOrder(calls);
    unpruned := Play(capacity, windowMs, Takes(calls));
    PrunesChangeNothing(LimitOf(capacity, windowMs), calls);
  }

  /** The calls of a run with its prunes left out. */
  function Takes(calls: seq<Call>): seq<Call> {
    if calls == [] then []
    else
      var n := |calls| - 1;
      if calls[n].TakeAt? then Takes(calls[..n]) + [calls[n]] else Takes(calls[..n])
  }

  lemma {:induction false} TakesInOrder(calls: seq<Call>)
    requires ClockRuns(calls)
    ensures ClockRuns(Takes(calls))
    ensures forall i :: 0 <= i < |Takes(calls)| ==> Takes(calls)[i] in calls
  {
    if calls != [] {
      TakesInOrder(calls[..|calls| - 1]);
    }
  }

  /** Prunes are nothing to the reference. */
  lemma {:induction false} PrunesChangeNothing(l: Limit, calls: seq<Call>)
    ensures IdealRun(l, calls) == IdealRun(l, Takes(calls)) && |IdealRun(l, calls).1| == |Takes(calls)|
  {
    if calls != [] {
      var n := |calls| - 1;
      PrunesChangeNothing(l, calls[..n]);
      if calls[n].TakeAt? {
        assert Takes(calls)[..|Takes(calls)| - 1] == Takes(calls[..n]);
      }
    }
  }
}
