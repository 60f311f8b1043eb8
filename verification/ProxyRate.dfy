/** The rate limit as a caller of /invoke sees it: any sequence of requests, from a fresh proxy,
    against the rate in the endpoint's own spec. */
module ProxyRate {
  import opened ApiServer
  import opened Paths
  import opened Proxy
  import opened RateLimit

  datatype Call = Call(post: bool, path: string, decoded: bool, at: int)

  /** Namespace and name of an endpoint. */
  type EndpointName = (string, string)

  function Gates(calls: seq<Call>, endpoints: Names, buckets: Buckets): (r: seq<Gate>)
    ensures |r| == |calls|
    decreases |calls|
  {
    if calls == [] then []
    else
      var c := calls[0];
      var (g, after) := InvokeGate(c.post, c.path, c.decoded, endpoints, buckets, c.at);
      [g] + Gates(calls[1..], endpoints, after)
  }

  function BucketsAfter(calls: seq<Call>, endpoints: Names, buckets: Buckets): Buckets
    decreases |calls|
  {
    if calls == [] then buckets
    else
      var c := calls[0];
      BucketsAfter(calls[1..], endpoints, InvokeGate(c.post, c.path, c.decoded, endpoints, buckets, c.at).1)
  }

  predicate For(c: Call, n: EndpointName) {
    ParsePathSegments(c.path, "/invoke/") == Some(n)
  }

  /** Nothing but the rate can stand in the way of this request for `n`. */
  predicate Asks(c: Call, endpoints: Names, n: EndpointName) {
    c.post && c.decoded && For(c, n) && n in endpoints && endpoints[n].available
  }

  /** How many requests for `n` are let through. */
  function PassedFor(calls: seq<Call>, gates: seq<Gate>, n: EndpointName): nat
    requires |calls| == |gates|
  {
    if calls == [] then 0
    else (if For(calls[0], n) && gates[0].Passed? then 1 else 0) + PassedFor(calls[1..], gates[1..], n)
  }

  ghost predicate InOrder(calls: seq<Call>) {
    forall i, j :: 0 <= i <= j < |calls| ==> calls[i].at <= calls[j].at
  }

  /** Endpoint `n`, as Kubernetes names it, allows `r` requests a minute. */
  ghost predicate Allows(endpoints: Names, n: EndpointName, r: nat) {
    Segments(n.0, n.1) && n in endpoints && endpoints[n].requestsPerMinute == Some(r)
  }

  // ----- one request -----

  /** The bucket of `n`, if it had one of rate `r` from the start. */
  function BucketOf(buckets: Buckets, n: EndpointName, r: nat): Bucket {
    if Key(n.0, n.1) in buckets then buckets[Key(n.0, n.1)] else New(r)
  }

  lemma OneCall(c: Call, endpoints: Names, buckets: Buckets, n: EndpointName, r: nat)
    requires Allows(endpoints, n, r)
    ensures var (g, after) := InvokeGate(c.post, c.path, c.decoded, endpoints, buckets, c.at);
            var b := BucketOf(buckets, n, r);
            && BucketOf(after, n, r) == (if Asks(c, endpoints, n) then Request(b, c.at) else b)
            && (For(c, n) && g.Passed? <==> Asks(c, endpoints, n) && Grants(b, c.at))
  {
    ParsedExactly(c.path, "/invoke/", n.0, n.1);
    if !For(c, n) {
      InvokeGateSpendsItsOwn(c.post, c.path, c.decoded, endpoints, buckets, c.at, Key(n.0, n.1));
    }
  }

  // ----- all requests -----

  /** When the limiter of `n` is asked. */
  function AskTimes(calls: seq<Call>, endpoints: Names, n: EndpointName): seq<int> {
    if calls == [] then []
    else (if Asks(calls[0], endpoints, n) then [calls[0].at] else []) + AskTimes(calls[1..], endpoints, n)
  }

  lemma {:induction false} OneBucket(calls: seq<Call>, endpoints: Names, buckets: Buckets, n: EndpointName, r: nat)
    requires Allows(endpoints, n, r)
    ensures var times := AskTimes(calls, endpoints, n);
            && BucketOf(BucketsAfter(calls, endpoints, buckets), n, r)
               == RateLimit.After(BucketOf(buckets, n, r), times)
            && PassedFor(calls, Gates(calls, endpoints, buckets), n)
               == Count(Decisions(BucketOf(buckets, n, r), times))
    decreases |calls|
  {
    if calls != [] {
      var c := calls[0];
      var after := InvokeGate(c.post, c.path, c.decoded, endpoints, buckets, c.at).1;
      OneCall(c, endpoints, buckets, n, r);
      OneBucket(calls[1..], endpoints, after, n, r);
      var rest := AskTimes(calls[1..], endpoints, n);
      if Asks(c, endpoints, n) {
        assert AskTimes(calls, endpoints, n) == [c.at] + rest;
        assert ([c.at] + rest)[1..] == rest;
      } else {
        assert AskTimes(calls, endpoints, n) == rest;
      }
      assert Gates(calls, endpoints, buckets)[1..] == Gates(calls[1..], endpoints, after);
    }
  }

  lemma {:induction false} GatesFrom(calls: seq<Call>, endpoints: Names, buckets: Buckets, i: nat)
    requires i <= |calls|
    ensures Gates(calls, endpoints, buckets)[i..] ==
            Gates(calls[i..], endpoints, BucketsAfter(calls[..i], endpoints, buckets))
    decreases i
  {
    if i > 0 {
      var c := calls[0];
      var after := InvokeGate(c.post, c.path, c.decoded, endpoints, buckets, c.at).1;
      GatesFrom(calls[1..], endpoints, after, i - 1);
      assert calls[..i][1..] == calls[1..][..i - 1];
      assert calls[1..][i - 1..] == calls[i..];
    }
  }

  lemma {:induction false} GatesUpTo(calls: seq<Call>, endpoints: Names, buckets: Buckets, j: nat)
    requires j <= |calls|
    ensures Gates(calls, endpoints, buckets)[..j] == Gates(calls[..j], endpoints, buckets)
    decreases j
  {
    if j > 0 {
      var c := calls[0];
      var after := InvokeGate(c.post, c.path, c.decoded, endpoints, buckets, c.at).1;
      GatesUpTo(calls[1..], endpoints, after, j - 1);
      assert calls[..j][1..] == calls[1..][..j - 1];
    }
  }

  lemma GatesOfWindow(calls: seq<Call>, endpoints: Names, i: nat, j: nat)
    requires i <= j <= |calls|
    ensures Gates(calls, endpoints, map[])[i..j] ==
            Gates(calls[i..j], endpoints, BucketsAfter(calls[..i], endpoints, map[]))
  {
    GatesFrom(calls, endpoints, map[], i);
    GatesUpTo(calls[i..], endpoints, BucketsAfter(calls[..i], endpoints, map[]), j - i);
    assert Gates(calls, endpoints, map[])[i..j] == Gates(calls, endpoints, map[])[i..][..j - i];
    assert calls[i..][..j - i] == calls[i..j];
  }

  lemma {:induction false} AskTimesInOrder(calls: seq<Call>, endpoints: Names, n: EndpointName, from: int, to: int)
    requires InOrder(calls) && forall i :: 0 <= i < |calls| ==> from <= calls[i].at <= to
    ensures var times := AskTimes(calls, endpoints, n);
            Ordered(times) && forall i :: 0 <= i < |times| ==> from <= times[i] <= to
    decreases |calls|
  {
    if calls != [] {
      AskTimesInOrder(calls[1..], endpoints, n, calls[0].at, to);
    }
  }

  /** The window law on the handler: in any run of requests from a fresh proxy, the requests for
      an endpoint that pass within a window number at most its burst plus its rate times the
      window, with the rate that its spec says. */
  lemma InvokeWindow(calls: seq<Call>, endpoints: Names, n: EndpointName, r: nat, i: nat, j: nat, window: int)
    requires InOrder(calls) && Allows(endpoints, n, r)
    requires i < j <= |calls| && calls[j - 1].at - calls[i].at <= window
    ensures PassedFor(calls[i..j], Gates(calls, endpoints, map[])[i..j], n) * 60_000_000_000
            <= (if r < 10 then 1 else r / 10) * 60_000_000_000 + r * window
  {
    var before := BucketsAfter(calls[..i], endpoints, map[]);
    GatesOfWindow(calls, endpoints, i, j);
    OneBucket(calls[..i], endpoints, map[], n, r);
    OneBucket(calls[i..j], endpoints, before, n, r);
    WindowOfOne(calls, endpoints, n, r, i, j, window);
  }

  lemma WindowOfOne(calls: seq<Call>, endpoints: Names, n: EndpointName, r: nat, i: nat, j: nat, window: int)
    requires InOrder(calls) && i < j <= |calls| && calls[j - 1].at - calls[i].at <= window
    ensures Count(Decisions(RateLimit.After(New(r), AskTimes(calls[..i], endpoints, n)),
                            AskTimes(calls[i..j], endpoints, n))) * TOKEN <= Capacity(r) + Gain(r, window)
  {
    var t0 := calls[i].at;
    var earlier, times := AskTimes(calls[..i], endpoints, n), AskTimes(calls[i..j], endpoints, n);
    AskTimesInOrder(calls[..i], endpoints, n, calls[0].at, t0);
    AskTimesInOrder(calls[i..j], endpoints, n, t0, t0 + window);
    PaidBetween(r, earlier, times, t0, window);
  }

  lemma PaidBetween(r: nat, earlier: seq<int>, times: seq<int>, t0: int, window: int)
    requires Ordered(earlier) && forall i :: 0 <= i < |earlier| ==> earlier[i] <= t0
    requires Ordered(times) && window >= 0 && forall i :: 0 <= i < |times| ==> t0 <= times[i] <= t0 + window
    ensures Count(Decisions(RateLimit.After(New(r), earlier), times)) * TOKEN <= Capacity(r) + Gain(r, window)
  {
    AfterKeeps(New(r), earlier, t0);
    PaidSince(RateLimit.After(New(r), earlier), times, t0, window);
  }

  lemma PaidSince(b: Bucket, times: seq<int>, t0: int, window: int)
    requires Valid(b) && SeenBy(b, t0)
    requires Ordered(times) && window >= 0 && forall i :: 0 <= i < |times| ==> t0 <= times[i] <= t0 + window
    ensures Count(Decisions(b, times)) * TOKEN <= Capacity(b.rpm) + Gain(b.rpm, window)
  {
    LevelGrows(b, t0, t0);
    GrantsArePaid(b, times, t0, t0 + window);
  }

  // ----- callers that pace themselves -----

  predicate Apart(r: nat, t0: int, t1: int) {
    r * (t1 - t0) >= 60_000_000_000
  }

  /** Requests for `n` that reach the limiter are at least 60/r seconds apart. */
  ghost predicate PacedFor(calls: seq<Call>, endpoints: Names, n: EndpointName, r: nat) {
    forall i, j :: 0 <= i < j < |calls| && Asks(calls[i], endpoints, n) && Asks(calls[j], endpoints, n) ==>
      Apart(r, calls[i].at, calls[j].at)
  }

  /** Whoever asks next is granted a token. */
  ghost predicate ReadyFor(calls: seq<Call>, endpoints: Names, n: EndpointName, b: Bucket) {
    forall i :: 0 <= i < |calls| && Asks(calls[i], endpoints, n) ==> SeenBy(b, calls[i].at) && Grants(b, calls[i].at)
  }

  lemma NextIsReady(calls: seq<Call>, endpoints: Names, n: EndpointName, r: nat, b: Bucket)
    requires calls != [] && PacedFor(calls, endpoints, n, r) && ReadyFor(calls, endpoints, n, b)
    requires Valid(b) && b.rpm == r && r > 0
    requires Asks(calls[0], endpoints, n)
    ensures Valid(Request(b, calls[0].at)) && Request(b, calls[0].at).rpm == r
    ensures ReadyFor(calls[1..], endpoints, n, Request(b, calls[0].at))
  {
    var t := calls[0].at;
    var b' := Request(b, t);
    RequestKeeps(b, t);
    forall i | 0 <= i < |calls[1..]| && Asks(calls[1..][i], endpoints, n)
      ensures SeenBy(b', calls[1..][i].at) && Grants(b', calls[1..][i].at)
    {
      assert calls[1..][i] == calls[i + 1];
      assert Apart(r, t, calls[i + 1].at);
      GainTakesTime(r, calls[i + 1].at - t);
    }
  }

  lemma {:induction false} PacedPass(calls: seq<Call>, endpoints: Names, buckets: Buckets, n: EndpointName, r: nat)
    requires Allows(endpoints, n, r) && r > 0 && PacedFor(calls, endpoints, n, r)
    requires Valid(BucketOf(buckets, n, r)) && BucketOf(buckets, n, r).rpm == r
    requires ReadyFor(calls, endpoints, n, BucketOf(buckets, n, r))
    ensures forall k :: 0 <= k < |calls| && Asks(calls[k], endpoints, n) ==> Gates(calls, endpoints, buckets)[k].Passed?
    decreases |calls|
  {
    if calls != [] {
      var c := calls[0];
      var after := InvokeGate(c.post, c.path, c.decoded, endpoints, buckets, c.at).1;
      OneCall(c, endpoints, buckets, n, r);
      PacedTail(calls, endpoints, n, r);
      ReadyTail(calls, endpoints, n, BucketOf(buckets, n, r));
      if Asks(c, endpoints, n) {
        NextIsReady(calls, endpoints, n, r, BucketOf(buckets, n, r));
      }
      PacedPass(calls[1..], endpoints, after, n, r);
      assert Gates(calls, endpoints, buckets)[1..] == Gates(calls[1..], endpoints, after);
      forall k | 0 <= k < |calls| && Asks(calls[k], endpoints, n)
        ensures Gates(calls, endpoints, buckets)[k].Passed?
      {
        if k > 0 {
          assert calls[k] == calls[1..][k - 1];
          assert Gates(calls, endpoints, buckets)[k] == Gates(calls, endpoints, buckets)[1..][k - 1];
        }
      }
    }
  }

  lemma PacedTail(calls: seq<Call>, endpoints: Names, n: EndpointName, r: nat)
    requires calls != [] && PacedFor(calls, endpoints, n, r)
    ensures PacedFor(calls[1..], endpoints, n, r)
  {
    var rest := calls[1..];
    forall i, j | 0 <= i < j < |rest| && Asks(rest[i], endpoints, n) && Asks(rest[j], endpoints, n)
      ensures Apart(r, rest[i].at, rest[j].at)
    {
      assert rest[i] == calls[i + 1] && rest[j] == calls[j + 1];
      assert Apart(r, calls[i + 1].at, calls[j + 1].at);
    }
  }

  lemma ReadyTail(calls: seq<Call>, endpoints: Names, n: EndpointName, b: Bucket)
    requires calls != [] && ReadyFor(calls, endpoints, n, b)
    ensures ReadyFor(calls[1..], endpoints, n, b)
  {
    forall i | 0 <= i < |calls[1..]| && Asks(calls[1..][i], endpoints, n)
      ensures SeenBy(b, calls[1..][i].at) && Grants(b, calls[1..][i].at)
    {
      assert calls[1..][i] == calls[i + 1];
    }
  }

  /** No starvation on the handler: whatever else is asked of the proxy, requests for an endpoint
      that keep 60/r seconds apart, with the rate r of its spec, all pass. */
  lemma InvokeNoStarvation(calls: seq<Call>, endpoints: Names, n: EndpointName, r: nat)
    requires Allows(endpoints, n, r) && r > 0 && PacedFor(calls, endpoints, n, r)
    ensures forall k :: 0 <= k < |calls| && Asks(calls[k], endpoints, n) ==> Gates(calls, endpoints, map[])[k].Passed?
  {
    PacedPass(calls, endpoints, map[], n, r);
  }
}
