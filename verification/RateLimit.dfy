/** The token bucket per endpoint: golang.org/x/time/rate in exact arithmetic, with the rate,
    the burst and the keying that the proxy gives it. Times are in nanoseconds; a token is
    60 * 10^9 units, so that a bucket of `rpm` requests per minute gains `rpm` units each
    nanosecond. */
module RateLimit {

  const TOKEN := 60_000_000_000
  const SECOND := 1_000_000_000

  /** What the proxy sends in Retry-After. */
  const RETRY_AFTER := 10 * SECOND

  datatype Bucket = Bucket(rpm: nat, level: int, started: bool, last: int)

  function Burst(rpm: nat): nat {
    if rpm / 10 < 1 then 1 else rpm / 10
  }

  function Capacity(rpm: nat): nat {
    Burst(rpm) * TOKEN
  }

  /** A new bucket is full. */
  function New(rpm: nat): Bucket {
    Bucket(rpm, Capacity(rpm), false, 0)
  }

  function Gain(rpm: nat, elapsed: int): int {
    rpm * elapsed
  }

  /** The level at `now`; a clock that went back adds nothing. */
  function LevelAt(b: Bucket, now: int): int {
    if !b.started || now <= b.last then b.level
    else
      var filled := b.level + Gain(b.rpm, now - b.last);
      if filled > Capacity(b.rpm) then Capacity(b.rpm) else filled
  }

  predicate Grants(b: Bucket, now: int) {
    LevelAt(b, now) >= TOKEN
  }

  /** A request takes a token or leaves the bucket as it is. */
  function Request(b: Bucket, now: int): Bucket {
    if Grants(b, now) then b.(level := LevelAt(b, now) - TOKEN, started := true, last := now) else b
  }

  function Decisions(b: Bucket, times: seq<int>): (r: seq<bool>)
    ensures |r| == |times|
    decreases |times|
  {
    if times == [] then [] else [Grants(b, times[0])] + Decisions(Request(b, times[0]), times[1..])
  }

  function After(b: Bucket, times: seq<int>): Bucket
    decreases |times|
  {
    if times == [] then b else After(Request(b, times[0]), times[1..])
  }

  function Count(bs: seq<bool>): nat {
    if bs == [] then 0 else (if bs[0] then 1 else 0) + Count(bs[1..])
  }

  ghost predicate Valid(b: Bucket) {
    0 <= b.level <= Capacity(b.rpm) && (!b.started ==> b.level == Capacity(b.rpm))
  }

  ghost predicate Ordered(times: seq<int>) {
    forall i, j :: 0 <= i <= j < |times| ==> times[i] <= times[j]
  }

  /** The bucket has seen nothing later than `t`. */
  ghost predicate SeenBy(b: Bucket, t: int) {
    b.started ==> b.last <= t
  }

  lemma GainAdds(rpm: nat, a: int, b: int)
    ensures Gain(rpm, a + b) == Gain(rpm, a) + Gain(rpm, b)
    ensures a >= 0 ==> Gain(rpm, a) >= 0
  {
  }

  lemma GainTakesTime(rpm: nat, elapsed: int)
    requires Gain(rpm, elapsed) >= TOKEN
    ensures elapsed > 0
  {
  }

  lemma RetryGain(rpm: nat)
    ensures Gain(rpm, RETRY_AFTER) >= TOKEN <==> rpm >= 6
  {
  }

  /** Waiting fills at most at the rate, and never past the burst. */
  lemma LevelGrows(b: Bucket, t0: int, t: int)
    requires Valid(b) && SeenBy(b, t0) && t0 <= t
    ensures 0 <= LevelAt(b, t0) <= LevelAt(b, t) <= Capacity(b.rpm)
    ensures LevelAt(b, t) <= LevelAt(b, t0) + Gain(b.rpm, t - t0)
  {
    if b.started {
      GainAdds(b.rpm, t0 - b.last, t - t0);
    }
    GainAdds(b.rpm, t - t0, 0);
  }

  lemma RequestKeeps(b: Bucket, t: int)
    requires Valid(b) && SeenBy(b, t)
    ensures Valid(Request(b, t)) && SeenBy(Request(b, t), t) && Request(b, t).rpm == b.rpm
    ensures LevelAt(Request(b, t), t) + (if Grants(b, t) then TOKEN else 0) == LevelAt(b, t)
  {
    LevelGrows(b, t, t);
  }

  /** What is granted from `t0` to `t1` is paid for by the level at `t0` and the gain since. */
  lemma {:induction false} GrantsArePaid(b: Bucket, times: seq<int>, t0: int, t1: int)
    requires Valid(b) && SeenBy(b, t0) && t0 <= t1
    requires Ordered(times)
    requires forall i :: 0 <= i < |times| ==> t0 <= times[i] <= t1
    ensures Count(Decisions(b, times)) * TOKEN <= LevelAt(b, t0) + Gain(b.rpm, t1 - t0)
    decreases |times|
  {
    LevelGrows(b, t0, t1);
    if times != [] {
      var t := times[0];
      LevelGrows(b, t0, t);
      RequestKeeps(b, t);
      GrantsArePaid(Request(b, t), times[1..], t, t1);
      GainAdds(b.rpm, t - t0, t1 - t);
    }
  }

  lemma {:induction false} AfterKeeps(b: Bucket, times: seq<int>, t: int)
    requires Valid(b) && Ordered(times)
    requires times != [] ==> SeenBy(b, times[0])
    requires SeenBy(b, t) && forall i :: 0 <= i < |times| ==> times[i] <= t
    ensures Valid(After(b, times)) && SeenBy(After(b, times), t) && After(b, times).rpm == b.rpm
    decreases |times|
  {
    if times != [] {
      RequestKeeps(b, times[0]);
      AfterKeeps(Request(b, times[0]), times[1..], t);
    }
  }

  lemma {:induction false} DecisionsSplit(b: Bucket, times: seq<int>, i: nat)
    requires i <= |times|
    ensures Decisions(b, times)[i..] == Decisions(After(b, times[..i]), times[i..])
    decreases i
  {
    if i > 0 {
      assert times[1..][..i - 1] == times[..i][1..];
      assert times[1..][i - 1..] == times[i..];
      DecisionsSplit(Request(b, times[0]), times[1..], i - 1);
      assert Decisions(b, times)[i..] == Decisions(Request(b, times[0]), times[1..])[i - 1..];
    }
  }

  lemma {:induction false} DecisionsPrefix(b: Bucket, times: seq<int>, j: nat)
    requires j <= |times|
    ensures Decisions(b, times)[..j] == Decisions(b, times[..j])
    decreases j
  {
    if j > 0 {
      assert times[..j][1..] == times[1..][..j - 1];
      DecisionsPrefix(Request(b, times[0]), times[1..], j - 1);
    }
  }

  lemma DecisionsSlice(b: Bucket, times: seq<int>, i: nat, j: nat)
    requires i <= j <= |times|
    ensures Decisions(b, times)[i..j] == Decisions(After(b, times[..i]), times[i..j])
  {
    DecisionsSplit(b, times, i);
    DecisionsPrefix(After(b, times[..i]), times[i..], j - i);
    assert Decisions(b, times)[i..j] == Decisions(b, times)[i..][..j - i];
    assert times[i..][..j - i] == times[i..j];
  }

  lemma BeforeWindow(rpm: nat, times: seq<int>, i: nat)
    requires Ordered(times) && i < |times|
    ensures var b := After(New(rpm), times[..i]); Valid(b) && SeenBy(b, times[i]) && b.rpm == rpm
  {
    AfterKeeps(New(rpm), times[..i], times[i]);
  }

  lemma PaidFromFull(b: Bucket, times: seq<int>, window: int)
    requires Valid(b) && Ordered(times) && times != [] && SeenBy(b, times[0])
    requires times[|times| - 1] <= times[0] + window
    ensures Count(Decisions(b, times)) * TOKEN <= Capacity(b.rpm) + Gain(b.rpm, window)
  {
    LevelGrows(b, times[0], times[0]);
    GrantsArePaid(b, times, times[0], times[0] + window);
  }

  lemma PaidAfter(rpm: nat, times: seq<int>, i: nat, j: nat, window: int)
    requires Ordered(times) && i < j <= |times| && times[j - 1] - times[i] <= window
    ensures Count(Decisions(After(New(rpm), times[..i]), times[i..j])) * TOKEN <= Capacity(rpm) + Gain(rpm, window)
  {
    BeforeWindow(rpm, times, i);
    PaidFromFull(After(New(rpm), times[..i]), times[i..j], window);
  }

  /** Sliding window: whatever came before, a stretch of requests of one key that takes no
      longer than `window` sees at most the burst plus the rate times the window admitted. */
  lemma SlidingWindow(rpm: nat, times: seq<int>, i: nat, j: nat, window: int)
    requires Ordered(times) && i < j <= |times| && times[j - 1] - times[i] <= window
    ensures Count(Decisions(New(rpm), times)[i..j]) * 60_000_000_000
            <= (if rpm < 10 then 1 else rpm / 10) * 60_000_000_000 + rpm * window
  {
    DecisionsSlice(New(rpm), times, i, j);
    PaidAfter(rpm, times, i, j, window);
  }

  // ----- callers that pace themselves -----

  /** Successive requests are at least 60/rpm seconds apart. */
  ghost predicate Paced(rpm: nat, times: seq<int>) {
    forall i :: 0 <= i < |times| - 1 ==> rpm * (times[i + 1] - times[i]) >= 60_000_000_000
  }

  lemma {:induction false} PacedFrom(b: Bucket, times: seq<int>)
    requires Valid(b) && b.rpm > 0 && Paced(b.rpm, times)
    requires times != [] ==> SeenBy(b, times[0]) && Grants(b, times[0])
    ensures forall i :: 0 <= i < |times| ==> Decisions(b, times)[i]
    decreases |times|
  {
    if times != [] {
      var b' := Request(b, times[0]);
      RequestKeeps(b, times[0]);
      if |times| > 1 {
        assert Gain(b.rpm, times[1] - times[0]) >= TOKEN;
        GainTakesTime(b.rpm, times[1] - times[0]);
        forall i | 0 <= i < |times[1..]| - 1 ensures Gain(b.rpm, times[1..][i + 1] - times[1..][i]) >= TOKEN {
          assert times[1..][i + 1] == times[i + 2] && times[1..][i] == times[i + 1];
        }
      }
      PacedFrom(b', times[1..]);
    }
  }

  /** No starvation: callers that keep to the rate are all admitted, for every rate, because
      the burst is never less than one. */
  lemma NoStarvation(rpm: nat, times: seq<int>)
    requires rpm > 0 && Paced(rpm, times)
    ensures forall i :: 0 <= i < |times| ==> Decisions(New(rpm), times)[i]
  {
    PacedFrom(New(rpm), times);
  }

  /** A rejected caller that waits as told, with no competing request, is admitted. */
  ghost predicate RetryIsHonoured(rpm: nat) {
    forall times: seq<int>, t: int ::
      Ordered(times + [t]) && !Grants(After(New(rpm), times), t) ==> Grants(After(New(rpm), times), t + RETRY_AFTER)
  }

  /** Retry-After: 10 keeps its word exactly for rates of six a minute and above. */
  lemma RetryAfterIsEnough(rpm: nat)
    ensures RetryIsHonoured(rpm) <==> rpm >= 6
  {
    RetryGain(rpm);
    if rpm >= 6 {
      forall times: seq<int>, t: int | Ordered(times + [t]) && !Grants(After(New(rpm), times), t)
        ensures Grants(After(New(rpm), times), t + RETRY_AFTER)
      {
        var b := After(New(rpm), times);
        forall i, j | 0 <= i <= j < |times| ensures times[i] <= times[j] {
          assert (times + [t])[i] <= (times + [t])[j];
        }
        forall i | 0 <= i < |times| ensures times[i] <= t {
          assert (times + [t])[i] <= (times + [t])[|times|];
        }
        AfterKeeps(New(rpm), times, t);
        if b.started {
          GainAdds(rpm, t - b.last, RETRY_AFTER);
        }
      }
    } else {
      var once := [0];
      assert After(New(rpm), once) == Bucket(rpm, 0, true, 0);
      assert !Grants(After(New(rpm), once), 0);
      assert Ordered(once + [0]);
      assert !Grants(After(New(rpm), once), 0 + RETRY_AFTER);
    }
  }

  // ----- the map of buckets -----

  /** The two steps of an /invoke request at the limiter, interleaved in any way with those of
      other requests. */
  datatype Event = Lookup(key: string, rpm: nat) | Ask(key: string, now: int)

  type Buckets = map<string, Bucket>

  function Next(m: Buckets, e: Event): Buckets {
    match e
    case Lookup(key, rpm) => if key in m then m else m[key := New(rpm)]
    case Ask(key, now) => if key in m then m[key := Request(m[key], now)] else m
  }

  /** The decisions about one key, in order. */
  function Verdicts(m: Buckets, events: seq<Event>, key: string): seq<bool>
    decreases |events|
  {
    if events == [] then []
    else
      var rest := Verdicts(Next(m, events[0]), events[1..], key);
      if events[0].Ask? && events[0].key == key && key in m then [Grants(m[key], events[0].now)] + rest else rest
  }

  /** When the limiter of `key` was asked. */
  function Times(events: seq<Event>, key: string): seq<int> {
    if events == [] then []
    else if events[0].Ask? && events[0].key == key then [events[0].now] + Times(events[1..], key)
    else Times(events[1..], key)
  }

  /** The rate at the first use of `key`, and the events from there on. */
  function FirstUse(events: seq<Event>, key: string): (i: nat)
    ensures i <= |events|
    ensures i < |events| ==> events[i].Lookup? && events[i].key == key
  {
    if events == [] then 0
    else if events[0].Lookup? && events[0].key == key then 0
    else 1 + FirstUse(events[1..], key)
  }

  lemma {:induction false} OwnTrafficOnly(m: Buckets, events: seq<Event>, key: string)
    requires key in m
    ensures Verdicts(m, events, key) == Decisions(m[key], Times(events, key))
    decreases |events|
  {
    if events != [] {
      OwnTrafficOnly(Next(m, events[0]), events[1..], key);
      if events[0].Ask? && events[0].key == key {
        assert Times(events, key)[1..] == Times(events[1..], key);
      }
    }
  }

  lemma {:induction false} NothingBeforeFirstUse(m: Buckets, events: seq<Event>, key: string)
    requires key !in m
    ensures var i := FirstUse(events, key);
            Verdicts(m, events, key) ==
            if i == |events| then [] else Decisions(New(events[i].rpm), Times(events[i + 1..], key))
    decreases |events|
  {
    if events != [] {
      if events[0].Lookup? && events[0].key == key {
        OwnTrafficOnly(Next(m, events[0]), events[1..], key);
      } else {
        NothingBeforeFirstUse(Next(m, events[0]), events[1..], key);
        var i := FirstUse(events[1..], key);
        if i < |events[1..]| {
          assert events[1..][i + 1..] == events[i + 2..];
        }
      }
    }
  }

  /** Isolation: in any interleaving of requests over any endpoints, the decisions about one
      key are those of a single bucket with the rate of its first use, fed with the key's own
      requests. Other keys and later changes of the rate do not matter. */
  lemma Isolation(events: seq<Event>, key: string)
    requires FirstUse(events, key) < |events|
    ensures Verdicts(map[], events, key) ==
            Decisions(New(events[FirstUse(events, key)].rpm), Times(events[FirstUse(events, key) + 1..], key))
  {
    NothingBeforeFirstUse(map[], events, key);
  }

  /** The bound on a whole run of the proxy. */
  lemma SlidingWindowOfRun(events: seq<Event>, key: string, i: nat, j: nat, window: int)
    requires FirstUse(events, key) < |events|
    requires var times := Times(events[FirstUse(events, key) + 1..], key);
             Ordered(times) && i < j <= |times| && times[j - 1] - times[i] <= window
    ensures var rpm := events[FirstUse(events, key)].rpm;
            var times := Times(events[FirstUse(events, key) + 1..], key);
            && |Verdicts(map[], events, key)| == |times|
            && Count(Verdicts(map[], events, key)[i..j]) * 60_000_000_000
               <= (if rpm < 10 then 1 else rpm / 10) * 60_000_000_000 + rpm * window
  {
    Isolation(events, key);
    SlidingWindow(events[FirstUse(events, key)].rpm, Times(events[FirstUse(events, key) + 1..], key), i, j, window);
  }

  // ----- the objects -----

  /** One rate.Limiter. */
  class Limiter {
    var bucket: Bucket

    constructor (rpm: nat)
      ensures bucket == New(rpm)
    {
      bucket := New(rpm);
    }

    method Allow(now: int) returns (ok: bool)
      modifies this
      ensures ok == Grants(old(bucket), now) && bucket == Request(old(bucket), now)
    {
      var level := bucket.level;
      if bucket.started && bucket.last < now {
        level := level + bucket.rpm * (now - bucket.last);
        if level > Capacity(bucket.rpm) {
          level := Capacity(bucket.rpm);
        }
      }
      ok := level - TOKEN >= 0;
      if ok {
        bucket := Bucket(bucket.rpm, level - TOKEN, true, now);
      }
    }
  }

  /** The map that getLimiter fills. */
  class Limiters {
    var rateLimiters: map<string, Limiter>

    ghost predicate Valid()
      reads this
    {
      forall k, l :: k in rateLimiters && l in rateLimiters && k != l ==> rateLimiters[k] != rateLimiters[l]
    }

    ghost function Contents(): Buckets
      reads this, rateLimiters.Values
    {
      map k | k in rateLimiters :: rateLimiters[k].bucket
    }

    constructor ()
      ensures Valid() && Contents() == map[]
    {
      rateLimiters := map[];
    }

    method GetLimiter(key: string, rpm: nat) returns (limiter: Limiter)
      requires Valid()
      modifies this
      ensures Valid() && key in rateLimiters && limiter == rateLimiters[key]
      ensures Contents() == Next(old(Contents()), Lookup(key, rpm))
      ensures forall k :: k in old(rateLimiters) ==> k in rateLimiters && rateLimiters[k] == old(rateLimiters[k])
      ensures forall k :: k in rateLimiters && k !in old(rateLimiters) ==> fresh(rateLimiters[k])
    {
      if key !in rateLimiters {
        limiter := new Limiter(rpm);
        rateLimiters := rateLimiters[key := limiter];
      } else {
        limiter := rateLimiters[key];
      }
    }

    /** The rate-limiting check of one /invoke request. */
    method Admit(namespace: string, name: string, rpm: nat, now: int) returns (ok: bool)
      requires Valid()
      modifies this, rateLimiters.Values
      ensures Valid()
      ensures var key := namespace + "/" + name;
              var got := Next(old(Contents()), Lookup(key, rpm));
              ok == Grants(got[key], now) && Contents() == Next(got, Ask(key, now))
    {
      var key := namespace + "/" + name;
      var limiter := GetLimiter(key, rpm);
      ghost var got := Contents();
      ok := limiter.Allow(now);
      assert Contents() == got[key := Request(got[key], now)];
    }
  }
}
