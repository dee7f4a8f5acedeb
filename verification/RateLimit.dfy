/** The token bucket of one client, as a value. Times are readings of a clock that never runs backwards. */
module TokenBuckets {

  datatype Bucket = Bucket(qps: real, burst: nat, tokens: real, last: real)

  function MinReal(a: real, b: real): real {
    if a < b then a else b
  }

  predicate Sane(b: Bucket) {
    b.qps >= 0.0 && b.burst >= 1 && 0.0 <= b.tokens <= b.burst as real
  }

  function NewBucket(qps: real, burst: int, now: real): (b: Bucket)
    ensures Sane(b)
  {
    var most := if burst < 1 then 1 else burst;
    Bucket(if qps < 0.0 then 0.0 else qps, most, most as real, now)
  }

  /** What flows into a bucket between two times. */
  function Flow(qps: real, from: real, to: real): real {
    (to - from) * qps
  }

  function Refilled(b: Bucket, now: real): Bucket {
    b.(tokens := MinReal(b.burst as real, b.tokens + Flow(b.qps, b.last, now)), last := now)
  }

  predicate Grants(b: Bucket, now: real) {
    Refilled(b, now).tokens >= 1.0
  }

  function Acquired(b: Bucket, now: real): Bucket {
    var r := Refilled(b, now);
    if r.tokens >= 1.0 then r.(tokens := r.tokens - 1.0) else r
  }

  function RetryAfter(b: Bucket): real {
    if b.tokens >= 1.0 then 0.0 else if b.qps > 0.0 then (1.0 - b.tokens) / b.qps else 1.0
  }

  predicate Idle(b: Bucket) {
    b.tokens >= b.burst as real
  }

  function After(b: Bucket, times: seq<real>): Bucket
    decreases |times|
  {
    if times == [] then b else After(Acquired(b, times[0]), times[1..])
  }

  function Granted(b: Bucket, times: seq<real>): nat
    decreases |times|
  {
    if times == [] then 0 else (if Grants(b, times[0]) then 1 else 0) + Granted(Acquired(b, times[0]), times[1..])
  }

  ghost predicate Ordered(times: seq<real>) {
    forall i, j :: 0 <= i <= j < |times| ==> times[i] <= times[j]
  }

  lemma FlowIsPositive(qps: real, from: real, to: real)
    requires qps >= 0.0 && from <= to
    ensures Flow(qps, from, to) >= 0.0
  {
  }

  lemma FlowsAddUp(qps: real, a: real, b: real, c: real)
    ensures Flow(qps, a, b) + Flow(qps, b, c) == Flow(qps, a, c)
  {
  }

  lemma MinIsLower(a: real, b: real)
    ensures MinReal(a, b) <= a && MinReal(a, b) <= b && (MinReal(a, b) == a || MinReal(a, b) == b)
  {
  }

  lemma RefillIsSane(b: Bucket, now: real)
    requires Sane(b) && b.last <= now
    ensures Sane(Refilled(b, now)) && Refilled(b, now).tokens <= b.tokens + Flow(b.qps, b.last, now)
  {
    FlowIsPositive(b.qps, b.last, now);
    MinIsLower(b.burst as real, b.tokens + Flow(b.qps, b.last, now));
  }

  lemma AcquiredIsSane(b: Bucket, now: real)
    requires Sane(b) && b.last <= now
    ensures Sane(Acquired(b, now)) && Acquired(b, now).last == now
    ensures Acquired(b, now).qps == b.qps && Acquired(b, now).burst == b.burst
    ensures Acquired(b, now).tokens + (if Grants(b, now) then 1.0 else 0.0) == Refilled(b, now).tokens
  {
    RefillIsSane(b, now);
  }

  /** The tokens after a refill and after taking one, if one was there. */
  lemma OneMore(granted: nat, rest: nat, one: real, before: real, after: real, flow: real)
    requires granted as real == one + rest as real && rest as real <= after + flow && one + after <= before
    ensures granted as real <= before + flow
  {
  }

  lemma GrantedStep(b: Bucket, times: seq<real>)
    requires times != []
    ensures Granted(b, times) as real
         == (if Grants(b, times[0]) then 1.0 else 0.0) + Granted(Acquired(b, times[0]), times[1..]) as real
  {
  }

  /** What is granted was in the bucket or has flowed in since. */
  lemma {:induction false} GrantsComeFromTokens(b: Bucket, times: seq<real>, end: real)
    requires Sane(b) && Ordered(times) && b.last <= end
    requires times != [] ==> b.last <= times[0] && times[|times| - 1] <= end
    ensures Granted(b, times) as real <= b.tokens + Flow(b.qps, b.last, end)
    decreases |times|
  {
    FlowIsPositive(b.qps, b.last, end);
    if times != [] {
      var now, rest, b1 := times[0], times[1..], Acquired(b, times[0]);
      assert now <= times[|times| - 1];
      RefillIsSane(b, now);
      AcquiredIsSane(b, now);
      assert rest != [] ==> rest[|rest| - 1] == times[|times| - 1];
      GrantsComeFromTokens(b1, rest, end);
      FlowsAddUp(b.qps, b.last, now, end);
      GrantedStep(b, times);
      OneMore(Granted(b, times), Granted(b1, rest), if Grants(b, now) then 1.0 else 0.0,
              b.tokens + Flow(b.qps, b.last, now), b1.tokens, Flow(b.qps, now, end));
    }
  }

  lemma {:induction false} AfterIsSane(b: Bucket, times: seq<real>)
    requires Sane(b) && Ordered(times) && (times != [] ==> b.last <= times[0])
    ensures Sane(After(b, times)) && After(b, times).qps == b.qps && After(b, times).burst == b.burst
    ensures After(b, times).last == if times == [] then b.last else times[|times| - 1]
    decreases |times|
  {
    if times != [] {
      AcquiredIsSane(b, times[0]);
      AfterIsSane(Acquired(b, times[0]), times[1..]);
    }
  }

  lemma GrantsFromNow(s: Bucket, window: seq<real>)
    requires Sane(s) && window != [] && Ordered(window) && s.last <= window[0]
    ensures Granted(s, window) as real <= s.burst as real + Flow(s.qps, window[0], window[|window| - 1])
  {
    var now, end, rest, s1 := window[0], window[|window| - 1], window[1..], Acquired(s, window[0]);
    RefillIsSane(s, now);
    AcquiredIsSane(s, now);
    assert rest != [] ==> rest[|rest| - 1] == end;
    GrantsComeFromTokens(s1, rest, end);
    GrantedStep(s, window);
    OneMore(Granted(s, window), Granted(s1, rest), if Grants(s, now) then 1.0 else 0.0, s.burst as real, s1.tokens,
            Flow(s.qps, now, end));
  }

  lemma OrderedParts(a: seq<real>, b: seq<real>)
    requires Ordered(a + b)
    ensures Ordered(a) && Ordered(b) && (a != [] && b != [] ==> a[|a| - 1] <= b[0])
  {
    var all := a + b;
    assert forall i :: 0 <= i < |b| ==> b[i] == all[|a| + i];
    assert forall i :: 0 <= i < |a| ==> a[i] == all[i];
  }

  /** Whatever happened before, the calls of a window are granted at most the burst plus what flows in during the
      window. */
  lemma GrantsInAnyWindow(b: Bucket, before: seq<real>, window: seq<real>)
    requires Sane(b) && window != [] && Ordered(before + window) && b.last <= (before + window)[0]
    ensures Granted(After(b, before), window) as real
         <= b.burst as real + Flow(b.qps, window[0], window[|window| - 1])
  {
    OrderedParts(before, window);
    AfterIsSane(b, before);
    GrantsFromNow(After(b, before), window);
  }

  /** A refused caller is served exactly when it has waited as long as it was told: neither sooner, nor later. A
      bucket that is never refilled serves it at no time, whatever it was told; the server itself installs the limiter
      for a positive rate only. */
  lemma RetryAfterIsExact(b: Bucket, wait: real)
    requires Sane(b) && b.tokens < 1.0 && wait >= 0.0
    ensures Grants(b, b.last + wait) <==> b.qps > 0.0 && wait >= RetryAfter(b)
  {
    assert Flow(b.qps, b.last, b.last + wait) == wait * b.qps;
    if b.qps > 0.0 {
      WaitEnough(b.qps, wait, 1.0 - b.tokens);
    } else {
      assert wait * b.qps == 0.0;
    }
  }

  lemma WaitEnough(qps: real, wait: real, missing: real)
    requires qps > 0.0
    ensures wait >= missing / qps <==> wait * qps >= missing
  {
    var exact := missing / qps;
    assert exact * qps == missing;
    if wait >= exact { assert (wait - exact) * qps >= 0.0; } else { assert (exact - wait) * qps > 0.0; }
  }

  /** The whole seconds that the response names are long enough. */
  lemma HeaderIsLongEnough(b: Bucket)
    ensures var header := if RetryAfter(b).Floor + 1 < 1 then 1 else RetryAfter(b).Floor + 1;
            header as real > RetryAfter(b) && header >= 1
  {
  }

  /** Answering a request, be it with yes or no, leaves a bucket that is not idle. */
  lemma AnsweredIsNotIdle(b: Bucket, now: real)
    requires b.burst >= 1
    ensures !Idle(Acquired(b, now))
  {
  }
}

/** The buckets of all clients, with the sweep that forgets idle ones. */
module BucketRegistry {
  import opened TokenBuckets

  datatype Registry = Registry(qps: real, burst: int, buckets: map<string, Bucket>, lastCleanup: real)

  const CLEANUP_INTERVAL := 60.0

  /** The clock as read while one request is answered: when a bucket is made, when the sweep is considered, and when
      a token is asked for. */
  datatype Clock = Clock(made: real, swept: real, asked: real)

  datatype Request = Request(key: string, clock: Clock)

  function NewRegistry(qps: real, burst: int, now: real): Registry {
    Registry(if qps < 0.0 then 0.0 else qps, if burst < 1 then 1 else burst, map[], now)
  }

  predicate CleanupDue(r: Registry, now: real) {
    now - r.lastCleanup >= CLEANUP_INTERVAL
  }

  function WithBucket(r: Registry, key: string, now: real): (w: Registry)
    ensures key in w.buckets
  {
    if key in r.buckets then r else r.(buckets := r.buckets[key := NewBucket(r.qps, r.burst, now)])
  }

  function Swept(r: Registry, now: real): Registry {
    if !CleanupDue(r, now) then r
    else r.(lastCleanup := now, buckets := map k | k in r.buckets && !Idle(r.buckets[k]) :: r.buckets[k])
  }

  /** The bucket that answers, which the sweep may just have forgotten. */
  function BucketOf(r: Registry, q: Request): Bucket {
    WithBucket(r, q.key, q.clock.made).buckets[q.key]
  }

  predicate Serves(r: Registry, q: Request) {
    Grants(BucketOf(r, q), q.clock.asked)
  }

  function Served(r: Registry, q: Request): Registry {
    var s := Swept(WithBucket(r, q.key, q.clock.made), q.clock.swept);
    if q.key in s.buckets then s.(buckets := s.buckets[q.key := Acquired(BucketOf(r, q), q.clock.asked)]) else s
  }

  function ServedAll(r: Registry, qs: seq<Request>): Registry
    decreases |qs|
  {
    if qs == [] then r else ServedAll(Served(r, qs[0]), qs[1..])
  }

  /** How many requests of a client are served. */
  function ServedCount(r: Registry, qs: seq<Request>, key: string): nat
    decreases |qs|
  {
    if qs == [] then 0
    else (if qs[0].key == key && Serves(r, qs[0]) then 1 else 0) + ServedCount(Served(r, qs[0]), qs[1..], key)
  }

  /** When a client asked. */
  function Times(qs: seq<Request>, key: string): seq<real> {
    if qs == [] then [] else (if qs[0].key == key then [qs[0].clock.asked] else []) + Times(qs[1..], key)
  }

  /** Every registered bucket has answered somebody, so that none is idle. */
  ghost predicate NoneIdle(r: Registry) {
    r.burst >= 1 && forall k :: k in r.buckets ==> !Idle(r.buckets[k]) && r.buckets[k].burst >= 1
  }

  lemma ServedKeepsNoneIdle(r: Registry, q: Request)
    requires NoneIdle(r)
    ensures NoneIdle(Served(r, q))
  {
    AnsweredIsNotIdle(BucketOf(r, q), q.clock.asked);
  }

  lemma {:induction false} NeverIdle(r: Registry, qs: seq<Request>)
    requires NoneIdle(r)
    ensures NoneIdle(ServedAll(r, qs))
    decreases |qs|
  {
    if qs != [] {
      ServedKeepsNoneIdle(r, qs[0]);
      NeverIdle(Served(r, qs[0]), qs[1..]);
    }
  }

  /** The sweep resets nobody: a client with a bucket keeps it, with exactly the tokens it had, while others are
      served; and a client without one gets a lasting one exactly if no sweep is due when it asks. */
  lemma SweepsResetNobody(r: Registry, q: Request, key: string)
    requires NoneIdle(r)
    ensures key in r.buckets && key != q.key ==>
              key in Served(r, q).buckets && Served(r, q).buckets[key] == r.buckets[key]
    ensures q.key in r.buckets ==>
              q.key in Served(r, q).buckets && Served(r, q).buckets[q.key] == Acquired(r.buckets[q.key], q.clock.asked)
    ensures q.key !in r.buckets ==> (q.key in Served(r, q).buckets <==> !CleanupDue(r, q.clock.swept))
  {
  }

  /** From its first lasting bucket on, a client is served as by a single token bucket of its own, whoever else asks
      and whenever the registry is swept. */
  lemma {:induction false} ServedAsByABucket(r: Registry, qs: seq<Request>, key: string)
    requires NoneIdle(r) && key in r.buckets
    ensures key in ServedAll(r, qs).buckets
    ensures ServedAll(r, qs).buckets[key] == After(r.buckets[key], Times(qs, key))
    ensures ServedCount(r, qs, key) == Granted(r.buckets[key], Times(qs, key))
    decreases |qs|
  {
    if qs != [] {
      SweepsResetNobody(r, qs[0], key);
      ServedKeepsNoneIdle(r, qs[0]);
      ServedAsByABucket(Served(r, qs[0]), qs[1..], key);
      if qs[0].key == key {
        assert Times(qs, key)[1..] == Times(qs[1..], key);
      } else {
        assert Times(qs, key) == Times(qs[1..], key);
      }
    }
  }

  // ---------- what a client gets at least ----------

  /** Every bucket has the registry's rate and burst, and room for a token. */
  ghost predicate Uniform(r: Registry) {
    && r.qps >= 0.0 && r.burst >= 1
    && forall k :: k in r.buckets ==>
         Sane(r.buckets[k]) && r.buckets[k].qps == r.qps && r.buckets[k].burst == r.burst
  }

  lemma NewRegistryIsUniform(qps: real, burst: int, now: real)
    ensures var r := NewRegistry(qps, burst, now);
            Uniform(r) && (qps >= 0.0 ==> r.qps == qps) && (burst >= 1 ==> r.burst == burst)
  {
  }

  lemma BucketIsUniform(r: Registry, q: Request)
    requires Uniform(r)
    ensures var b := BucketOf(r, q); Sane(b) && b.qps == r.qps && b.burst == r.burst
  {
  }

  /** Whoever asks is served with the registry's rate and burst. */
  lemma ServedIsUniform(r: Registry, q: Request)
    requires Uniform(r) && BucketOf(r, q).last <= q.clock.asked
    ensures Uniform(Served(r, q)) && Served(r, q).qps == r.qps && Served(r, q).burst == r.burst
  {
    BucketIsUniform(r, q);
    AcquiredIsSane(BucketOf(r, q), q.clock.asked);
  }

  /** A client that waits at least as long as one token takes to flow in is always served. */
  lemma {:induction false} PatientBucketsGrant(b: Bucket, times: seq<real>)
    requires Sane(b) && b.qps > 0.0
    requires times != [] ==> times[0] >= b.last + 1.0 / b.qps || (b.tokens >= 1.0 && times[0] >= b.last)
    requires forall i :: 0 < i < |times| ==> times[i] >= times[i - 1] + 1.0 / b.qps
    ensures Granted(b, times) == |times|
    decreases |times|
  {
    if times != [] {
      var now, rest := times[0], times[1..];
      assert 1.0 / b.qps > 0.0;
      EnoughFlowsIn(b, now);
      AcquiredIsSane(b, now);
      assert rest != [] ==> rest[0] == times[1];
      forall i | 0 < i < |rest| ensures rest[i] >= rest[i - 1] + 1.0 / b.qps {
        assert times[i + 1] >= times[i] + 1.0 / b.qps;
      }
      PatientBucketsGrant(Acquired(b, now), rest);
    }
  }

  lemma EnoughFlowsIn(b: Bucket, now: real)
    requires Sane(b) && b.qps > 0.0 && (now >= b.last + 1.0 / b.qps || (b.tokens >= 1.0 && now >= b.last))
    ensures Grants(b, now)
  {
    assert 1.0 / b.qps > 0.0;
    FlowIsPositive(b.qps, b.last, now);
    if now >= b.last + 1.0 / b.qps {
      var wait := now - b.last;
      WaitEnough(b.qps, wait, 1.0);
      assert Flow(b.qps, b.last, now) == wait * b.qps && wait * b.qps >= 1.0;
    }
    assert b.tokens + Flow(b.qps, b.last, now) >= 1.0 && b.burst as real >= 1.0;
  }

  /** Whatever others do, a registered client that asks no more often than the rate says is never refused. */
  lemma PatientClientsAreServed(r: Registry, qs: seq<Request>, key: string)
    requires NoneIdle(r) && Uniform(r) && r.qps > 0.0 && key in r.buckets && Times(qs, key) != []
    requires Times(qs, key)[0] >= r.buckets[key].last + 1.0 / r.qps
    requires forall i :: 0 < i < |Times(qs, key)| ==> Times(qs, key)[i] >= Times(qs, key)[i - 1] + 1.0 / r.qps
    ensures ServedCount(r, qs, key) == |Times(qs, key)|
  {
    ServedAsByABucket(r, qs, key);
    PatientBucketsGrant(r.buckets[key], Times(qs, key));
  }

  /** And a new one is served at once, up to its burst. */
  lemma NewClientsAreServed(r: Registry, q: Request)
    requires Uniform(r) && q.key !in r.buckets && q.clock.made <= q.clock.asked
    ensures Serves(r, q) && BucketOf(r, q).tokens == r.burst as real
  {
    FlowIsPositive(r.qps, q.clock.made, q.clock.asked);
  }

  /** The rate limit: among any requests of a client that has a bucket, at most the burst plus what flows in is
      served. */
  lemma ClientsAreLimited(r: Registry, before: seq<Request>, window: seq<Request>, key: string)
    requires NoneIdle(r) && key in r.buckets && Sane(r.buckets[key])
    requires Times(window, key) != [] && Ordered(Times(before, key) + Times(window, key))
    requires r.buckets[key].last <= (Times(before, key) + Times(window, key))[0]
    ensures var times, b := Times(window, key), r.buckets[key];
            ServedCount(ServedAll(r, before), window, key) as real
            <= b.burst as real + Flow(b.qps, times[0], times[|times| - 1])
  {
    NeverIdle(r, before);
    var b, r1 := r.buckets[key], ServedAll(r, before);
    ServedAsByABucket(r, before, key);
    ServedAsByABucket(r1, window, key);
    assert ServedCount(r1, window, key) == Granted(After(b, Times(before, key)), Times(window, key));
    GrantsInAnyWindow(b, Times(before, key), Times(window, key));
  }

  // ---------- clients without a bucket ----------

  /** The client's new bucket is lost to the sweep that its own request sets off. */
  predicate Forgotten(r: Registry, q: Request) {
    q.key !in r.buckets && CleanupDue(r, q.clock.swept)
  }

  /** How often that happens to a client. */
  function ForgottenCount(r: Registry, qs: seq<Request>, key: string): nat
    decreases |qs|
  {
    if qs == [] then 0
    else
      (if qs[0].key == key && Forgotten(r, qs[0]) then 1 else 0) + ForgottenCount(Served(r, qs[0]), qs[1..], key)
  }

  predicate ClockRuns(q: Request) {
    q.clock.made <= q.clock.asked
  }

  ghost predicate Clocked(qs: seq<Request>, key: string) {
    Ordered(Times(qs, key)) && forall i :: 0 <= i < |qs| ==> ClockRuns(qs[i])
  }

  /** What a registry is made for. */
  ghost predicate Proper(r: Registry) {
    NoneIdle(r) && r.qps >= 0.0
  }

  function First(qs: seq<Request>, key: string): real
    requires Times(qs, key) != []
  {
    Times(qs, key)[0]
  }

  function Last(qs: seq<Request>, key: string): real
    requires Times(qs, key) != []
  {
    Times(qs, key)[|Times(qs, key)| - 1]
  }

  lemma ClockedTail(qs: seq<Request>, key: string)
    requires qs != [] && Clocked(qs, key)
    ensures Clocked(qs[1..], key)
  {
    var times, rest := Times(qs, key), Times(qs[1..], key);
    if qs[0].key == key {
      assert times[1..] == rest;
    } else {
      assert times == rest;
    }
    forall i | 0 <= i < |qs[1..]| ensures ClockRuns(qs[1..][i]) { assert ClockRuns(qs[i + 1]); }
  }

  /** A request that is not the client's, or is forgotten, leaves the client without a bucket. */
  lemma StillWithout(r: Registry, q: Request, key: string)
    requires NoneIdle(r) && key !in r.buckets && (q.key != key || Forgotten(r, q))
    ensures key !in Served(r, q).buckets && Served(r, q).qps == r.qps && Served(r, q).burst == r.burst
  {
  }

  /** The first bucket that lasts serves as a full one. */
  lemma FromTheLastingBucketOn(r: Registry, qs: seq<Request>, key: string)
    requires Proper(r) && key !in r.buckets && qs != [] && qs[0].key == key && !Forgotten(r, qs[0])
    requires Clocked(qs, key)
    ensures Times(qs, key) != [] && ForgottenCount(r, qs, key) == 0
    ensures ServedCount(r, qs, key) as real <= r.burst as real + Flow(r.qps, First(qs, key), Last(qs, key))
  {
    var q, b := qs[0], NewBucket(r.qps, r.burst, qs[0].clock.made);
    var s := Served(r, q);
    ServedKeepsNoneIdle(r, q);
    assert b == BucketOf(r, q) && key in s.buckets && s.buckets[key] == Acquired(b, q.clock.asked);
    ServedAsByABucket(s, qs[1..], key);
    NeverForgottenAgain(s, qs[1..], key);
    var times := Times(qs, key);
    assert times[0] == q.clock.asked && times[1..] == Times(qs[1..], key);
    assert ClockRuns(qs[0]);
    assert ServedCount(r, qs, key) == Granted(b, times);
    GrantsFromNow(b, times);
  }

  lemma {:induction false} NeverForgottenAgain(r: Registry, qs: seq<Request>, key: string)
    requires NoneIdle(r) && key in r.buckets
    ensures ForgottenCount(r, qs, key) == 0
    decreases |qs|
  {
    if qs != [] {
      SweepsResetNobody(r, qs[0], key);
      ServedKeepsNoneIdle(r, qs[0]);
      NeverForgottenAgain(Served(r, qs[0]), qs[1..], key);
    }
  }

  lemma AddOne(total: nat, rest: nat, forgotten: nat, burst: real, flow: real)
    requires rest as real <= forgotten as real + burst + flow && total <= rest + 1
    ensures total as real <= (forgotten + 1) as real + burst + flow
  {
  }

  lemma LaterFlowIsLess(qps: real, a: real, b: real, c: real)
    requires qps >= 0.0 && a <= b
    ensures Flow(qps, b, c) <= Flow(qps, a, c)
  {
    FlowsAddUp(qps, a, b, c);
    FlowIsPositive(qps, a, b);
  }

  /** The rate limit for a client that has no bucket yet: the burst plus what flows in during the window, plus one for
      every time that its bucket was forgotten. */
  lemma {:induction false} NewClientsAreLimited(r: Registry, qs: seq<Request>, key: string)
    requires Proper(r) && key !in r.buckets && Clocked(qs, key) && Times(qs, key) != []
    ensures ServedCount(r, qs, key) as real
         <= ForgottenCount(r, qs, key) as real + r.burst as real + Flow(r.qps, First(qs, key), Last(qs, key))
    decreases |qs|
  {
    var q, rest := qs[0], qs[1..];
    var s := Served(r, q);
    ServedKeepsNoneIdle(r, q);
    if q.key == key && !Forgotten(r, q) {
      FromTheLastingBucketOn(r, qs, key);
    } else {
      StillWithout(r, q, key);
      ClockedTail(qs, key);
      if q.key != key {
        assert Times(qs, key) == Times(rest, key);
        NewClientsAreLimited(s, rest, key);
      } else {
        ForgottenFirst(r, qs, key);
      }
    }
  }

  lemma ForgottenFirst(r: Registry, qs: seq<Request>, key: string)
    requires Proper(r) && key !in r.buckets && Clocked(qs, key)
    requires qs != [] && qs[0].key == key && Forgotten(r, qs[0]) && Clocked(qs[1..], key)
    requires key !in Served(r, qs[0]).buckets && Proper(Served(r, qs[0]))
    requires Served(r, qs[0]).qps == r.qps && Served(r, qs[0]).burst == r.burst
    ensures Times(qs, key) != []
    ensures ServedCount(r, qs, key) as real
         <= ForgottenCount(r, qs, key) as real + r.burst as real + Flow(r.qps, First(qs, key), Last(qs, key))
    decreases |qs|, 0
  {
    var rest, s := qs[1..], Served(r, qs[0]);
    var times, later := Times(qs, key), Times(rest, key);
    assert times == [qs[0].clock.asked] + later;
    var n, m := ServedCount(s, rest, key), ForgottenCount(s, rest, key);
    if later == [] {
      NobodyAsks(s, rest, key);
      FlowIsPositive(r.qps, times[0], times[0]);
    } else {
      NewClientsAreLimited(s, rest, key);
      assert later[|later| - 1] == times[|times| - 1] && later[0] == times[1];
      LaterFlowIsLess(r.qps, times[0], later[0], times[|times| - 1]);
      AddOne(ServedCount(r, qs, key), n, m, r.burst as real, Flow(r.qps, times[0], times[|times| - 1]));
    }
  }

  lemma {:induction false} NobodyAsks(r: Registry, qs: seq<Request>, key: string)
    requires Times(qs, key) == []
    ensures ServedCount(r, qs, key) == 0 && ForgottenCount(r, qs, key) == 0
    decreases |qs|
  {
    if qs != [] { NobodyAsks(Served(r, qs[0]), qs[1..], key); }
  }

  /** Within less than the cleanup interval a client is forgotten at most once. */
  lemma {:induction false} ForgottenOnceWithinAnInterval(r: Registry, qs: seq<Request>, key: string, from: real)
    requires forall i :: 0 <= i < |qs| ==> from <= qs[i].clock.swept < from + 60.0
    ensures ForgottenCount(r, qs, key) <= 1
    ensures r.lastCleanup >= from ==> ForgottenCount(r, qs, key) == 0
    decreases |qs|
  {
    if qs != [] {
      assert from <= qs[0].clock.swept < from + 60.0;
      forall i | 0 <= i < |qs[1..]| ensures from <= qs[1..][i].clock.swept < from + 60.0 {
        assert qs[1..][i] == qs[i + 1];
      }
      ForgottenOnceWithinAnInterval(Served(r, qs[0]), qs[1..], key, from);
    }
  }

  /** Each request comes when the next sweep is due. */
  ghost predicate EachAtASweep(r: Registry, qs: seq<Request>, key: string) {
    && (forall i :: 0 <= i < |qs| ==> qs[i].key == key && ClockRuns(qs[i]))
    && (qs != [] ==> CleanupDue(r, qs[0].clock.swept))
    && (forall i :: 0 < i < |qs| ==> qs[i].clock.swept - qs[i - 1].clock.swept >= CLEANUP_INTERVAL)
  }

  /** Over longer windows it can be forgotten again and again: a client that asks only when a sweep is due is served
      every time, whatever the burst and the rate. */
  lemma {:induction false} ForgottenAtEverySweep(r: Registry, qs: seq<Request>, key: string)
    requires Proper(r) && key !in r.buckets && EachAtASweep(r, qs, key)
    ensures ServedCount(r, qs, key) == |qs| == ForgottenCount(r, qs, key)
    decreases |qs|
  {
    if qs != [] {
      var q, s, rest := qs[0], Served(r, qs[0]), qs[1..];
      assert ClockRuns(qs[0]);
      FullStaysFull(NewBucket(r.qps, r.burst, q.clock.made), q.clock.asked);
      StillWithout(r, q, key);
      ServedKeepsNoneIdle(r, q);
      forall i | 0 <= i < |rest|
        ensures rest[i].key == key && ClockRuns(rest[i])
        ensures i > 0 ==> rest[i].clock.swept - rest[i - 1].clock.swept >= CLEANUP_INTERVAL
      {
        assert rest[i] == qs[i + 1] && ClockRuns(qs[i + 1]);
        assert qs[i + 1].clock.swept - qs[i].clock.swept >= CLEANUP_INTERVAL;
      }
      if rest != [] { assert qs[1].clock.swept - qs[0].clock.swept >= CLEANUP_INTERVAL; }
      ForgottenAtEverySweep(s, rest, key);
    }
  }

  /** Nothing but the burst and the flow is served to the client, whatever it and others ask after this request. */
  ghost predicate LimitedFrom(r: Registry, q: Request) {
    forall more :: Clocked([q] + more, q.key) ==>
      Times([q] + more, q.key) != []
      && ServedCount(r, [q] + more, q.key) as real
         <= r.burst as real + Flow(r.qps, First([q] + more, q.key), Last([q] + more, q.key))
  }

  /** So many times the same request. */
  function Copies(q: Request, n: nat): seq<Request> {
    seq(n, _ => q)
  }

  /** A full bucket serves as many requests at one moment as its burst allows. */
  lemma {:induction false} BurstIsServed(b: Bucket, now: real, n: nat)
    requires b.last == now && b.tokens >= n as real && b.tokens <= b.burst as real
    ensures Granted(b, seq(n, _ => now)) == n
    decreases n
  {
    if n > 0 {
      assert Flow(b.qps, now, now) == 0.0;
      assert Refilled(b, now).tokens == b.tokens;
      BurstIsServed(Acquired(b, now), now, n - 1);
      assert seq(n, _ => now)[1..] == seq((n - 1) as nat, _ => now);
    }
  }

  lemma {:induction false} TimesOfCopies(q: Request, n: nat)
    ensures Times(Copies(q, n), q.key) == seq(n, _ => q.clock.asked)
  {
    if n > 0 {
      assert Copies(q, n)[1..] == Copies(q, (n - 1) as nat);
      TimesOfCopies(q, n - 1);
    }
  }

  /** A client that asks for the first time while a sweep is due is served once more than its burst, at one moment. */
  lemma OneMoreThanTheBurst(r: Registry, q: Request)
    requires Proper(r) && Forgotten(r, q) && ClockRuns(q)
    ensures ServedCount(r, [q] + Copies(q, r.burst), q.key) == r.burst + 1
  {
    var s, b := Served(r, q), NewBucket(r.qps, r.burst, q.clock.made);
    StillWithout(r, q, q.key);
    ServedKeepsNoneIdle(r, q);
    assert Serves(r, q) by { RefillIsSane(b, q.clock.asked); FullStaysFull(b, q.clock.asked); }
    assert ([q] + Copies(q, r.burst))[1..] == Copies(q, r.burst);
    assert s.lastCleanup == q.clock.swept && !CleanupDue(s, q.clock.swept);
    ServesTheBurst(s, q);
  }

  lemma FullStaysFull(b: Bucket, now: real)
    requires Sane(b) && b.tokens == b.burst as real && b.last <= now
    ensures Refilled(b, now).tokens == b.tokens
  {
    FlowIsPositive(b.qps, b.last, now);
  }

  lemma ServesTheBurst(s: Registry, q: Request)
    requires Proper(s) && q.key !in s.buckets && !CleanupDue(s, q.clock.swept) && ClockRuns(q)
    ensures ServedCount(s, Copies(q, s.burst), q.key) == s.burst
  {
    var n: nat := s.burst;
    var qs, now := Copies(q, n), q.clock.asked;
    var b, t := NewBucket(s.qps, s.burst, q.clock.made), Served(s, q);
    FullStaysFull(b, now);
    ServedKeepsNoneIdle(s, q);
    assert t.buckets[q.key] == Acquired(b, now);
    assert qs[1..] == Copies(q, n - 1);
    ServedAsByABucket(t, qs[1..], q.key);
    TimesOfCopies(q, n - 1);
    BurstIsServed(Acquired(b, now), now, n - 1);
  }

  /** Exactly when the limit holds for a client without a bucket: if and only if no sweep is due at its first
      request. */
  lemma NewClientIsLimitedExactlyWhen(r: Registry, q: Request)
    requires Proper(r) && q.key !in r.buckets && ClockRuns(q)
    ensures LimitedFrom(r, q) <==> !CleanupDue(r, q.clock.swept)
  {
    if CleanupDue(r, q.clock.swept) {
      var more := Copies(q, r.burst);
      var qs, n: nat := [q] + more, r.burst + 1;
      assert qs == Copies(q, n);
      TimesOfCopies(q, n);
      assert Clocked(qs, q.key);
      OneMoreThanTheBurst(r, q);
      assert Flow(r.qps, q.clock.asked, q.clock.asked) == 0.0;
    } else {
      forall more | Clocked([q] + more, q.key)
        ensures Times([q] + more, q.key) != []
                && ServedCount(r, [q] + more, q.key) as real
                   <= r.burst as real + Flow(r.qps, First([q] + more, q.key), Last([q] + more, q.key))
      {
        FromTheLastingBucketOn(r, [q] + more, q.key);
      }
    }
  }

  /** An instance: with a burst of one, at whatever rate, a client whose first request comes with a sweep is served
      twice at one moment. */
  lemma SweepForgetsANewClient(qps: real)
    requires qps >= 0.0
    ensures var r := NewRegistry(qps, 1, 0.0);
            var q := Request("ip", Clock(60.0, 60.0, 60.0));
            NoneIdle(r) && "ip" !in Served(r, q).buckets && ServedCount(r, [q, q, q], "ip") == 2
  {
    var r := NewRegistry(qps, 1, 0.0);
    var q := Request("ip", Clock(60.0, 60.0, 60.0));
    assert Flow(qps, 60.0, 60.0) == 0.0;
    var r1 := Served(r, q);
    var r2 := Served(r1, q);
    assert Serves(r, q) && r1.buckets == map[] && r1.lastCleanup == 60.0;
    assert Serves(r1, q) && r2.buckets["ip"] == Bucket(qps, 1, 0.0, 60.0);
    assert !Serves(r2, q);
    assert [q, q, q][1..] == [q, q] && [q, q][1..] == [q] && [q][1..] == [];
    assert ServedCount(Served(r2, q), [], "ip") == 0;
    assert ServedCount(r2, [q], "ip") == 0;
    assert ServedCount(r1, [q, q], "ip") == 1;
  }
}

/** The two classes, with the buckets as objects that the registry and its callers share. */
module RateLimiter {
  import opened TokenBuckets
  import opened BucketRegistry

  class TokenBucket {
    const qps: real
    const burst: nat
    var tokens: real
    var lastRefill: real

    function State(): Bucket
      reads this
    {
      Bucket(qps, burst, tokens, lastRefill)
    }

    constructor (qps: real, burst: int, now: real)
      ensures State() == NewBucket(qps, burst, now)
    {
      this.qps := if qps < 0.0 then 0.0 else qps;
      var most := if burst < 1 then 1 else burst;
      this.burst := most;
      tokens := most as real;
      lastRefill := now;
    }

    method Acquire(now: real) returns (ok: bool)
      modifies this
      ensures ok == Grants(old(State()), now) && State() == Acquired(old(State()), now)
    {
      ghost var refilled := Refilled(State(), now);
      var elapsed := now - lastRefill;
      assert elapsed * qps == Flow(qps, lastRefill, now);
      tokens := MinReal(burst as real, tokens + elapsed * qps);
      lastRefill := now;
      assert State() == refilled;
      if tokens >= 1.0 {
        tokens := tokens - 1.0;
        return true;
      }
      return false;
    }

    method SecondsToWait() returns (seconds: real)
      ensures seconds == RetryAfter(State())
    {
      if tokens >= 1.0 { return 0.0; }
      return if qps > 0.0 then (1.0 - tokens) / qps else 1.0;
    }
  }

  class Registrar {
    const qps: real
    const burst: int
    var buckets: map<string, TokenBucket>
    var lastCleanup: real

    ghost predicate Apart()
      reads this
    {
      forall k, l :: k in buckets && l in buckets && buckets[k] == buckets[l] ==> k == l
    }

    ghost function Contents(): Registry
      reads this, buckets.Values
    {
      Registry(qps, burst, map k | k in buckets :: buckets[k].State(), lastCleanup)
    }

    constructor (qps: real, burst: int, now: real)
      ensures Apart() && Contents() == NewRegistry(qps, burst, now)
    {
      this.qps := if qps < 0.0 then 0.0 else qps;
      this.burst := if burst < 1 then 1 else burst;
      buckets := map[];
      lastCleanup := now;
    }

    method MaybeCleanup(now: real)
      requires Apart()
      modifies this
      ensures Apart() && Contents() == Swept(old(Contents()), now)
      ensures forall k :: k in buckets ==> k in old(buckets) && buckets[k] == old(buckets)[k]
    {
      if now - lastCleanup < CLEANUP_INTERVAL { return; }
      lastCleanup := now;
      var stale := set k | k in buckets && buckets[k].tokens >= buckets[k].burst as real;
      buckets := buckets - stale;
    }

    method GetBucket(key: string, made: real, swept: real) returns (bucket: TokenBucket)
      requires Apart()
      modifies this
      ensures Apart() && Contents() == Swept(WithBucket(old(Contents()), key, made), swept)
      ensures bucket.State() == WithBucket(old(Contents()), key, made).buckets[key]
      ensures key in buckets ==> buckets[key] == bucket
      ensures forall k :: k in buckets && k != key ==> buckets[k] != bucket
      ensures key in old(buckets) || fresh(bucket)
      ensures key in old(buckets) ==> bucket == old(buckets)[key]
    {
      if key in buckets {
        bucket := buckets[key];
      } else {
        bucket := new TokenBucket(qps, burst, made);
        buckets := buckets[key := bucket];
      }
      assert Contents().buckets == WithBucket(old(Contents()), key, made).buckets;
      MaybeCleanup(swept);
    }

    /** What the middleware does with a request: false stands for the refusal. */
    method Dispatch(q: Request) returns (ok: bool)
      requires Apart()
      modifies this, buckets.Values
      ensures Apart() && ok == Serves(old(Contents()), q) && Contents() == Served(old(Contents()), q)
    {
      var bucket := GetBucket(q.key, q.clock.made, q.clock.swept);
      ok := bucket.Acquire(q.clock.asked);
    }
  }
}
