/** The two request handlers of the proxy, with what the outside world answers passed in. */
module Proxy {
  import opened ApiServer
  import opened Accounting
  import opened Cost
  import opened Paths
  import opened RateLimit
  import opened RenderVariables

  /** The fields of a ModelEndpoint that the proxy reads. */
  datatype Endpoint = Endpoint(
    available: bool,
    modelId: string,
    region: string,
    roleArn: string,
    maxTokens: Option<int>,
    requestsPerMinute: Option<nat>
  )

  datatype Template = Template(
    text: string,
    variables: seq<Variable>,
    endpointRef: string,
    systemPrompt: string,
    maxTokens: Option<int>
  )

  datatype Message = Message(role: string, content: string)

  datatype InvokeBody = InvokeBody(messages: seq<Message>, systemPrompt: string, maxTokens: int, temperature: real)

  datatype InferenceConfig = InferenceConfig(maxTokens: Option<int>, temperature: Option<real>)

  /** The body of one Bedrock call, together with the credentials it is made with. */
  datatype Converse = Converse(
    roleArn: string,
    region: string,
    modelId: string,
    messages: seq<Message>,
    system: Option<string>,
    inferenceConfig: Option<InferenceConfig>
  )

  datatype ResponseBody = ResponseBody(content: string, inputTokens: int, outputTokens: int, stopReason: string,
                                       costUSD: string)

  /** `retryAfter` is the header, in seconds. `Aborted` is a request whose handler panicked. */
  datatype Response = Response(status: nat, retryAfter: Option<nat>, body: Option<ResponseBody>) | Aborted

  type Names = map<(string, string), Endpoint>
  type Templates = map<(string, string), Template>

  /** The variables of a render request; a body may come without any. */
  type Variables = Option<map<string, string>>

  // ----- the token cap -----

  function Cap(requested: int, cap: Option<int>): int {
    if cap.Some? && (requested == 0 || requested > cap.value) then cap.value else requested
  }

  /** Only positive values are sent; with neither of them there is no configuration at all. */
  function InferenceFor(maxTokens: int, temperature: real): Option<InferenceConfig> {
    if maxTokens > 0 || temperature > 0.0 then
      Some(InferenceConfig(Positive(maxTokens), if temperature > 0.0 then Some(temperature) else None))
    else None
  }

  function Positive(n: int): Option<int> {
    if n > 0 then Some(n) else None
  }

  function ConverseFor(ep: Endpoint, messages: seq<Message>, systemPrompt: string, maxTokens: int,
                       temperature: real): Converse {
    Converse(ep.roleArn, ep.region, ep.modelId, messages, if systemPrompt != "" then Some(systemPrompt) else None,
             InferenceFor(maxTokens, temperature))
  }

  method BuildInferenceConfig(maxTokens: int, temperature: real) returns (cfg: Option<InferenceConfig>)
    ensures cfg == InferenceFor(maxTokens, temperature)
  {
    cfg := None;
    if maxTokens > 0 || temperature > 0.0 {
      var c := InferenceConfig(None, None);
      if maxTokens > 0 {
        c := c.(maxTokens := Some(maxTokens));
      }
      if temperature > 0.0 {
        c := c.(temperature := Some(temperature));
      }
      cfg := Some(c);
    }
  }

  method BuildConverse(ep: Endpoint, messages: seq<Message>, systemPrompt: string, maxTokens: int, temperature: real)
    returns (c: Converse)
    ensures c == ConverseFor(ep, messages, systemPrompt, maxTokens, temperature)
  {
    var sent := [];
    for i := 0 to |messages|
      invariant sent == messages[..i]
    {
      sent := sent + [Message(messages[i].role, messages[i].content)];
    }
    var system := None;
    if systemPrompt != "" {
      system := Some(systemPrompt);
    }
    var cfg := BuildInferenceConfig(maxTokens, temperature);
    c := Converse(ep.roleArn, ep.region, ep.modelId, sent, system, cfg);
  }

  /** What Bedrock is told about the token limit. */
  function SentLimit(c: Converse): Option<int> {
    if c.inferenceConfig.Some? then c.inferenceConfig.value.maxTokens else None
  }

  /** The call carries a limit, and none above the endpoint's own. */
  ghost predicate WithinCap(c: Converse, ep: Endpoint) {
    ep.maxTokens.Some? ==> SentLimit(c).Some? && 0 < SentLimit(c).value <= ep.maxTokens.value
  }

  /** The cap of an endpoint is kept exactly for callers that do not ask for a negative number
      of tokens: such a request passes the comparison and is then sent without any limit.
      Callers may ask for less than the cap, and then get what they asked for; without a cap
      they always do. */
  lemma CapIsKept(ep: Endpoint, messages: seq<Message>, systemPrompt: string, requested: int, temperature: real)
    requires ep.maxTokens.Some? ==> ep.maxTokens.value >= 1
    ensures var c := ConverseFor(ep, messages, systemPrompt, Cap(requested, ep.maxTokens), temperature);
            && (ep.maxTokens.Some? ==> (WithinCap(c, ep) <==> requested >= 0))
            && (ep.maxTokens.Some? && (requested == 0 || requested > ep.maxTokens.value) ==>
                  SentLimit(c) == ep.maxTokens)
            && (requested > 0 && (ep.maxTokens.None? || requested <= ep.maxTokens.value) ==>
                  SentLimit(c) == Some(requested))
            && (requested < 0 || (requested == 0 && ep.maxTokens.None?) ==> SentLimit(c) == None)
  {
  }

  /** The limit of a template, where it has one, up to the cap of the endpoint. */
  lemma RenderLimit(pt: Template, ep: Endpoint, messages: seq<Message>)
    requires pt.maxTokens.Some? ==> pt.maxTokens.value >= 1
    requires ep.maxTokens.Some? ==> ep.maxTokens.value >= 1
    ensures var c := ConverseFor(ep, messages, pt.systemPrompt, Cap(TemplateLimit(pt), ep.maxTokens), 0.0);
            SentLimit(c) == if pt.maxTokens.None? then ep.maxTokens
                            else if ep.maxTokens.None? || pt.maxTokens.value <= ep.maxTokens.value then pt.maxTokens
                            else ep.maxTokens
  {
  }

  /** Everything about a request can be read off the Bedrock call: whose credentials it uses,
      which model it is for, what is said and how it is tuned. */
  lemma CallTells(ep: Endpoint, messages: seq<Message>, systemPrompt: string, maxTokens: int, temperature: real)
    ensures var c := ConverseFor(ep, messages, systemPrompt, maxTokens, temperature);
            var tuned := c.inferenceConfig;
            && c.roleArn == ep.roleArn && c.region == ep.region && c.modelId == ep.modelId
            && c.messages == messages
            && (if c.system.Some? then c.system.value == systemPrompt != "" else systemPrompt == "")
            && (tuned.Some? <==> maxTokens > 0 || temperature > 0.0)
            && (tuned.Some? && maxTokens > 0 ==> tuned.value.maxTokens == Some(maxTokens))
            && (tuned.Some? && maxTokens <= 0 ==> tuned.value.maxTokens == None)
            && (tuned.Some? && temperature > 0.0 ==> tuned.value.temperature == Some(temperature))
            && (tuned.Some? && temperature <= 0.0 ==> tuned.value.temperature == None)
  {
  }

  // ----- admission -----

  /** How far a request gets before Bedrock is called. */
  datatype Gate =
    | TurnedAway(status: nat, retryAfter: Option<nat>)
    | Panicking
    | Passed(labels: Label, endpoint: Endpoint, rendered: string)

  /** The rate limit: the answer, and the buckets afterwards. */
  function LimitGate(labels: Label, ep: Endpoint, rpm: nat, buckets: Buckets, now: int): (Gate, Buckets) {
    var key := Key(labels.namespace, labels.endpoint);
    var got := RateLimit.Next(buckets, Lookup(key, rpm));
    (if Grants(got[key], now) then Passed(labels, ep, "") else TurnedAway(429, Some(10)),
     RateLimit.Next(got, Ask(key, now)))
  }

  /** The checks of HandleInvoke, in order. */
  function InvokeGate(post: bool, path: string, decoded: bool, endpoints: Names, buckets: Buckets, now: int)
    : (Gate, Buckets)
  {
    var parsed := ParsePathSegments(path, "/invoke/");
    if !post then (TurnedAway(405, None), buckets)
    else if parsed.None? || !decoded then (TurnedAway(400, None), buckets)
    else if parsed.value !in endpoints then (TurnedAway(404, None), buckets)
    else
      var ep := endpoints[parsed.value];
      var labels := Label(parsed.value.0, parsed.value.1, ep.modelId);
      if !ep.available then (TurnedAway(503, None), buckets)
      else if ep.requestsPerMinute.Some? then LimitGate(labels, ep, ep.requestsPerMinute.value, buckets, now)
      else (Passed(labels, ep, ""), buckets)
  }

  type Renderer = (string, map<string, string>) -> Option<string>

  /** The checks of HandleRender; no limiter is asked. */
  function RenderGate(post: bool, path: string, body: Option<Variables>, templates: Templates,
                      endpoints: Names, render: Renderer): Gate {
    var parsed := ParsePathSegments(path, "/render/");
    if !post then TurnedAway(405, None)
    else if parsed.None? || body.None? then TurnedAway(400, None)
    else if parsed.value !in templates then TurnedAway(404, None)
    else
      var pt := templates[parsed.value];
      match Prepare(pt.variables, body.value)
      case Missing(_) => TurnedAway(400, None)
      case Panicked => Panicking
      case Ready(vars) =>
        var rendered := render(pt.text, vars);
        var name := (parsed.value.0, pt.endpointRef);
        if rendered.None? then TurnedAway(400, None)
        else if name !in endpoints then TurnedAway(404, None)
        else if !endpoints[name].available then TurnedAway(503, None)
        else Passed(Label(name.0, name.1, endpoints[name].modelId), endpoints[name], rendered.value)
  }

  /** A request that is let through names an endpoint that was available, by its own path. */
  lemma InvokeGateIsFair(post: bool, path: string, decoded: bool, endpoints: Names, buckets: Buckets, now: int)
    requires InvokeGate(post, path, decoded, endpoints, buckets, now).0.Passed?
    ensures var g := InvokeGate(post, path, decoded, endpoints, buckets, now).0;
            && path == (if "/invoke/" <= path then "/invoke/" else "") + Key(g.labels.namespace, g.labels.endpoint)
            && (g.labels.namespace, g.labels.endpoint) in endpoints
            && g.endpoint == endpoints[(g.labels.namespace, g.labels.endpoint)]
            && g.endpoint.available && g.labels.modelId == g.endpoint.modelId
  {
    var parsed := ParsePathSegments(path, "/invoke/").value;
    assert InvokeGate(post, path, decoded, endpoints, buckets, now).0.labels
           == Label(parsed.0, parsed.1, endpoints[parsed].modelId);
    ParsedExactly(path, "/invoke/", parsed.0, parsed.1);
    if "/invoke/" <= path {
      PathRebuilds(path, "/invoke/");
    }
  }

  /** Which answer a request gets before Bedrock is called, and that an endpoint without a rate
      turns nobody away for it. */
  lemma InvokeAnswers(post: bool, path: string, decoded: bool, endpoints: Names, buckets: Buckets, now: int)
    ensures var g := InvokeGate(post, path, decoded, endpoints, buckets, now).0;
            var parsed := ParsePathSegments(path, "/invoke/");
            var known := post && parsed.Some? && decoded && parsed.value in endpoints;
            && (g == TurnedAway(405, None) <==> !post)
            && (g == TurnedAway(400, None) <==> post && (parsed.None? || !decoded))
            && (g == TurnedAway(404, None) <==> post && parsed.Some? && decoded && parsed.value !in endpoints)
            && (g == TurnedAway(503, None) <==> known && !endpoints[parsed.value].available)
            && (g == TurnedAway(429, Some(10)) || g.Passed? <==> known && endpoints[parsed.value].available)
            && (g == TurnedAway(429, Some(10)) ==> endpoints[parsed.value].requestsPerMinute.Some?)
  {
  }

  /** A request that is turned away for any reason but its rate spends no token, and no request
      touches the bucket of another endpoint. */
  lemma InvokeGateSpendsItsOwn(post: bool, path: string, decoded: bool, endpoints: Names, buckets: Buckets, now: int,
                               other: string)
    ensures var (g, after) := InvokeGate(post, path, decoded, endpoints, buckets, now);
            && (g.TurnedAway? && g.status != 429 ==> after == buckets)
            && (other != TrimPrefix(path, "/invoke/") ==>
                  && (other in after <==> other in buckets)
                  && (other in buckets ==> after[other] == buckets[other]))
  {
    var parsed := ParsePathSegments(path, "/invoke/");
    if parsed.Some? {
      ParsedExactly(path, "/invoke/", parsed.value.0, parsed.value.1);
    }
  }

  /** A caller that is told to wait, waits that long and asks again, with no other request in
      between, is let through, at any rate of six a minute or more. */
  lemma RetryAsTold(post: bool, path: string, decoded: bool, endpoints: Names, buckets: Buckets, now: int, rpm: nat,
                    times: seq<int>)
    requires var key := TrimPrefix(path, "/invoke/");
             key in buckets && buckets[key] == RateLimit.After(New(rpm), times) && Ordered(times + [now])
    requires rpm >= 6
    requires var g := InvokeGate(post, path, decoded, endpoints, buckets, now).0; g.TurnedAway? && g.retryAfter.Some?
    ensures var (g, after) := InvokeGate(post, path, decoded, endpoints, buckets, now);
            InvokeGate(post, path, decoded, endpoints, after, now + g.retryAfter.value * SECOND).0.Passed?
  {
    var parsed := ParsePathSegments(path, "/invoke/");
    ParsedExactly(path, "/invoke/", parsed.value.0, parsed.value.1);
    RetryAfterIsEnough(rpm);
  }

  /** `text` is the rendering of the template with the supplied variables and the defaults of
      the optional ones that were not supplied. */
  ghost predicate RendersTo(pt: Template, supplied: Variables, render: Renderer, text: Option<string>) {
    && AllRequiredGiven(pt.variables, Entries(supplied))
    && exists vars :: Completed(pt.variables, Entries(supplied), vars) && render(pt.text, vars) == text
  }

  /** How far a template gets: it panics, misses a variable, or renders to one thing only. */
  lemma RenderedEither(pt: Template, supplied: Variables, render: Renderer, text: Option<string>)
    requires DistinctNames(pt.variables)
    ensures var r := Prepare(pt.variables, supplied);
            && (r.Panicked? <==> supplied.None? && exists i :: WritesDefaultAt(pt.variables, i))
            && (r.Missing? ==> !AllRequiredGiven(pt.variables, Entries(supplied)))
            && (r.Ready? ==> (RendersTo(pt, supplied, render, text) <==> render(pt.text, r.vars) == text))
  {
    PreparedEither(pt.variables, supplied);
    var r := Prepare(pt.variables, supplied);
    if r.Ready? {
      forall vars | Completed(pt.variables, Entries(supplied), vars) ensures vars == r.vars {
        CompletedIsUnique(pt.variables, Entries(supplied), vars, r.vars);
      }
    }
  }

  /** What /render lets through also names an available endpoint, in the template's namespace,
      has every required variable, and is rendered with the defaults of the optional ones. */
  lemma RenderGateIsFair(post: bool, path: string, body: Option<Variables>, templates: Templates,
                         endpoints: Names, render: Renderer)
    requires forall n :: n in templates ==> DistinctNames(templates[n].variables)
    requires RenderGate(post, path, body, templates, endpoints, render).Passed?
    ensures var g := RenderGate(post, path, body, templates, endpoints, render);
            var parsed := ParsePathSegments(path, "/render/");
            && parsed.Some? && parsed.value in templates
            && var pt := templates[parsed.value];
            && g.labels.namespace == parsed.value.0 && g.labels.endpoint == pt.endpointRef
            && (g.labels.namespace, g.labels.endpoint) in endpoints
            && g.endpoint == endpoints[(g.labels.namespace, g.labels.endpoint)]
            && g.endpoint.available && g.labels.modelId == g.endpoint.modelId
            && RendersTo(pt, body.value, render, Some(g.rendered))
  {
    var parsed := ParsePathSegments(path, "/render/");
    var g := RenderGate(post, path, body, templates, endpoints, render);
    RenderedEither(templates[parsed.value], body.value, render, Some(g.rendered));
    PreparedEither(templates[parsed.value].variables, body.value);
  }

  /** Which answer a render gets before Bedrock is called, for a template with distinct names. */
  lemma RenderAnswers(post: bool, path: string, body: Option<Variables>, templates: Templates,
                      endpoints: Names, render: Renderer)
    requires forall n :: n in templates ==> DistinctNames(templates[n].variables)
    ensures var g := RenderGate(post, path, body, templates, endpoints, render);
            var parsed := ParsePathSegments(path, "/render/");
            && (g == TurnedAway(405, None) <==> !post)
            && (post && (parsed.None? || body.None?) ==> g == TurnedAway(400, None))
            && (post && parsed.Some? && body.Some? && parsed.value !in templates ==> g == TurnedAway(404, None))
            && (post && parsed.Some? && body.Some? && parsed.value in templates ==>
                  RenderAnswersFor(g, templates[parsed.value], parsed.value.0, body.value, endpoints, render))
  {
    var parsed := ParsePathSegments(path, "/render/");
    if post && parsed.Some? && body.Some? && parsed.value in templates {
      RenderAnswered(post, path, body, templates, endpoints, render);
    }
  }

  /** The answers once the template is known. */
  ghost predicate RenderAnswersFor(g: Gate, pt: Template, namespace: string, supplied: Variables, endpoints: Names,
                                   render: Renderer)
  {
    var name := (namespace, pt.endpointRef);
    && (g.Panicking? <==> supplied.None? && exists i :: WritesDefaultAt(pt.variables, i))
    && (g == TurnedAway(400, None)
        <==> !g.Panicking?
             && (!AllRequiredGiven(pt.variables, Entries(supplied)) || RendersTo(pt, supplied, render, None)))
    && (g == TurnedAway(404, None) ==> name !in endpoints)
    && (g == TurnedAway(503, None) ==> name in endpoints && !endpoints[name].available)
    && (g.Passed? ==> name in endpoints && endpoints[name].available)
    && (g.TurnedAway? ==> g.retryAfter.None? && (g.status == 400 || g.status == 404 || g.status == 503))
  }

  lemma RenderAnswered(post: bool, path: string, body: Option<Variables>, templates: Templates,
                       endpoints: Names, render: Renderer)
    requires post && ParsePathSegments(path, "/render/").Some? && body.Some?
    requires ParsePathSegments(path, "/render/").value in templates
    requires DistinctNames(templates[ParsePathSegments(path, "/render/").value].variables)
    ensures var parsed := ParsePathSegments(path, "/render/").value;
            RenderAnswersFor(RenderGate(post, path, body, templates, endpoints, render), templates[parsed], parsed.0,
                             body.value, endpoints, render)
  {
    var pt := templates[ParsePathSegments(path, "/render/").value];
    RenderedEither(pt, body.value, render, None);
    PreparedEither(pt.variables, body.value);
  }

  // ----- requests at one instant -----

  datatype Arrival = Invocation(path: string, decoded: bool) | Rendering(path: string, body: Option<Variables>)

  /** The decisions on requests that all arrive at `now`, one after the other. */
  function Decide(arrivals: seq<Arrival>, templates: Templates, endpoints: Names, render: Renderer, buckets: Buckets,
                  now: int): seq<Gate>
  {
    if arrivals == [] then []
    else
      match arrivals[0]
      case Invocation(path, decoded) =>
        var (g, after) := InvokeGate(true, path, decoded, endpoints, buckets, now);
        [g] + Decide(arrivals[1..], templates, endpoints, render, after, now)
      case Rendering(path, body) =>
        [RenderGate(true, path, body, templates, endpoints, render)]
        + Decide(arrivals[1..], templates, endpoints, render, buckets, now)
  }

  /** The rate of an endpoint does not bind /render: while its bucket is empty, any number of
      renders go out at one instant, and an invocation right after them is still turned away. */
  lemma {:induction false} RendersIgnoreTheRate(n: nat, path: string, body: Option<Variables>, templates: Templates,
                                                endpoints: Names, render: Renderer, buckets: Buckets, now: int)
    requires var g := RenderGate(true, path, body, templates, endpoints, render);
             && g.Passed? && g.endpoint.requestsPerMinute.Some? && g.labels.endpoint != ""
             && var key := Key(g.labels.namespace, g.labels.endpoint);
             && key in buckets && !Grants(buckets[key], now)
    ensures var g := RenderGate(true, path, body, templates, endpoints, render);
            var invocation := Invocation("/invoke/" + Key(g.labels.namespace, g.labels.endpoint), true);
            Decide(seq(n, _ => Rendering(path, body)) + [invocation], templates, endpoints, render, buckets, now)
            == seq(n, _ => g) + [TurnedAway(429, Some(10))]
  {
    var g := RenderGate(true, path, body, templates, endpoints, render);
    var invocation := Invocation("/invoke/" + Key(g.labels.namespace, g.labels.endpoint), true);
    var renders := seq(n, _ => Rendering(path, body));
    if n == 0 {
      var parsed := ParsePathSegments(path, "/render/").value;
      ParsedExactly(path, "/render/", parsed.0, parsed.1);
      PathRoundTrip("/invoke/", g.labels.namespace, g.labels.endpoint);
      assert renders + [invocation] == [invocation];
    } else {
      assert (renders + [invocation])[1..] == seq(n - 1, _ => Rendering(path, body)) + [invocation];
      RendersIgnoreTheRate(n - 1, path, body, templates, endpoints, render, buckets, now);
      assert [g] + (seq(n - 1, _ => g) + [TurnedAway(429, Some(10))]) == seq(n, _ => g) + [TurnedAway(429, Some(10))];
    }
  }

  // ----- the handlers -----

  function FormatDollars(micros: int): string {
    if micros >= 0 then FormatCost(micros) else "-" + FormatCost(-micros)
  }

  function Respond(reply: Reply, cost: Option<int>): Response {
    if reply.Error? then Response(502, None, None)
    else Response(200, None, Some(ResponseBody(reply.content, reply.input, reply.output, reply.stopReason,
                                         if cost.Some? then FormatDollars(cost.value) else "unknown")))
  }

  /** A caller gets what Bedrock answered, or a 502. */
  lemma ResponseTellsTheReply(reply: Reply, cost: Option<int>)
    ensures var r := Respond(reply, cost);
            && (r == Response(502, None, None) <==> reply.Error?)
            && (reply.Answer? ==>
                  && r.Response? && r.status == 200 && r.retryAfter.None? && r.body.Some?
                  && var body := r.body.value;
                  && body.content == reply.content && body.stopReason == reply.stopReason
                  && body.inputTokens == reply.input && body.outputTokens == reply.output)
  {
  }

  /** The cost in the response of a priced call is, to the last digit, what was added to the
      cost counter; without a price nothing was added. */
  lemma ResponseTellsTheCharge(prices: Prices, handler: Handler, modelId: string, reply: Reply)
    requires reply.Answer? && Nonnegative(reply)
    ensures var r := Respond(reply, CostOf(prices, modelId, reply));
            var charged := Owed(prices, handler, modelId, reply, CostMicros);
            && r.status == 200 && r.body.Some?
            && (if modelId in prices then ParseCost(r.body.value.costUSD) == charged
                else r.body.value.costUSD == "unknown" && charged == 0)
  {
    if modelId in prices {
      ExactMonotone(prices[modelId], 0, 0, reply.input, reply.output);
      PrintedCostLosesNothing(Round(Exact(prices[modelId], reply.input, reply.output)));
    }
  }

  /** The counters are exactly what the replies of Bedrock amount to. */
  ghost predicate Settled(prices: Prices, counters: Counters, bedrock: seq<Called>) {
    forall x :: At(counters, x) == Tally(Bill(prices), bedrock, x)
  }

  /** What one reply adds to which series, in the order of Accounting; nothing is added for a
      cost that is not known. */
  function Added(handler: Handler, labels: Label, reply: Reply, cost: Option<int>): seq<(Series, int)> {
    var updates := Updates(handler, reply);
    var n := if reply.Answer? && cost.None? then |updates| - 1 else |updates|;
    seq(n, i requires 0 <= i < n => (Series(labels, updates[i]), OwedFor(handler, reply, cost, updates[i])))
  }

  lemma AddedInOrder(before: seq<(Series, int)>, handler: Handler, labels: Label, reply: Reply, cost: Option<int>)
    requires reply.Answer?
    ensures before + Added(handler, labels, reply, cost) ==
            before + [(Series(labels, Successes), 1)] + [(Series(labels, InputTokens), reply.input)]
            + [(Series(labels, OutputTokens), reply.output)]
            + if cost.Some? then [(Series(labels, CostMicros), cost.value)] else []
  {
  }

  /** `calls` and `bedrock` are what was sent to Bedrock and what came back, `added` every
      update of a counter in order. */
  class ProxyHandler {
    const prices: Prices
    const limiters: Limiters
    var counters: Counters
    ghost var calls: seq<Converse>
    ghost var bedrock: seq<Called>
    ghost var added: seq<(Series, int)>

    constructor (prices: Prices)
      ensures this.prices == prices && fresh(limiters) && limiters.Valid() && limiters.Contents() == map[]
      ensures Accounted() && bedrock == []
    {
      this.prices := prices;
      limiters := new Limiters();
      counters, calls, bedrock, added := map[], [], [], [];
    }

    ghost predicate Accounted()
      reads this
    {
      |calls| == |bedrock| && Settled(prices, counters, bedrock)
    }

    /** One Add on one counter. */
    method Add(x: Series, n: int)
      modifies this`counters, this`added
      ensures forall y :: At(counters, y) == At(old(counters), y) + if y == x then n else 0
      ensures added == old(added) + [(x, n)]
    {
      counters, added := Credit(counters, x, n), added + [(x, n)];
    }

    method CountTokens(labels: Label, reply: Reply)
      requires reply.Answer?
      modifies this`counters, this`added
      ensures forall x ::
                At(counters, x) == At(old(counters), x)
                + if x.labels != labels || x.counter.CostMicros? then 0
                  else OwedFor(InvokeHandler, reply, None, x.counter)
      ensures added == old(added) + [(Series(labels, Successes), 1)] + [(Series(labels, InputTokens), reply.input)]
                       + [(Series(labels, OutputTokens), reply.output)]
    {
      Add(Series(labels, Successes), 1);
      Add(Series(labels, InputTokens), reply.input);
      Add(Series(labels, OutputTokens), reply.output);
    }

    /** The four counter updates of a success, one by one. */
    method CountSuccess(handler: Handler, labels: Label, reply: Reply, cost: Option<int>)
      requires reply.Answer?
      modifies this`counters, this`added
      ensures Adds(old(counters), counters, labels, handler, reply, cost)
      ensures added == old(added) + Added(handler, labels, reply, cost)
    {
      CountTokens(labels, reply);
      if cost.Some? {
        Add(Series(labels, CostMicros), cost.value);
      }
      AddedInOrder(old(added), handler, labels, reply, cost);
    }

    /** The counter updates for one reply: /render has none for an error. */
    method Record(handler: Handler, labels: Label, reply: Reply, cost: Option<int>)
      modifies this`counters, this`added
      ensures Adds(old(counters), counters, labels, handler, reply, cost)
      ensures added == old(added) + Added(handler, labels, reply, cost)
    {
      match reply
      case Error =>
        if handler.InvokeHandler? {
          Add(Series(labels, Errors), 1);
        }
      case Answer(_, _, _, _) =>
        CountSuccess(handler, labels, reply, cost);
    }

    /** Calls Bedrock, updates the counters and answers. */
    method Forward(handler: Handler, labels: Label, call: Converse, reply: Reply) returns (resp: Response)
      requires Accounted() && Nonnegative(reply)
      modifies this`counters, this`added, this`calls, this`bedrock
      ensures Accounted()
      ensures calls == old(calls) + [call]
      ensures bedrock == old(bedrock) + [Called(handler, labels, reply)]
      ensures added == old(added) + Added(handler, labels, reply, CostOf(prices, labels.modelId, reply))
      ensures resp == Respond(reply, CostOf(prices, labels.modelId, reply))
    {
      var cost := CostOf(prices, labels.modelId, reply);
      ghost var before := counters;
      Record(handler, labels, reply, cost);
      StaysSettled(prices, before, counters, bedrock, handler, labels, reply);
      calls := calls + [call];
      bedrock := bedrock + [Called(handler, labels, reply)];
      if reply.Error? {
        return Response(502, None, None);
      }
      var costText := "unknown";
      if cost.Some? {
        costText := FormatDollars(cost.value);
      }
      return Response(200, None,
                      Some(ResponseBody(reply.content, reply.input, reply.output, reply.stopReason, costText)));
    }

    /** The checks of HandleInvoke; the limiter is asked last. */
    method AdmitInvoke(post: bool, path: string, decoded: bool, endpoints: Names, now: int) returns (g: Gate)
      requires limiters.Valid()
      modifies limiters, limiters.rateLimiters.Values
      ensures limiters.Valid()
      ensures (g, limiters.Contents()) == InvokeGate(post, path, decoded, endpoints, old(limiters.Contents()), now)
    {
      if !post {
        return TurnedAway(405, None);
      }
      var parsed := ParsePathSegments(path, "/invoke/");
      if parsed.None? || !decoded {
        return TurnedAway(400, None);
      }
      var (namespace, name) := parsed.value;
      if (namespace, name) !in endpoints {
        return TurnedAway(404, None);
      }
      var ep := endpoints[(namespace, name)];
      if !ep.available {
        return TurnedAway(503, None);
      }
      if ep.requestsPerMinute.Some? {
        var ok := limiters.Admit(namespace, name, ep.requestsPerMinute.value, now);
        if !ok {
          return TurnedAway(429, Some(10));
        }
      }
      return Passed(Label(namespace, name, ep.modelId), ep, "");
    }

    method HandleInvoke(post: bool, path: string, body: Option<InvokeBody>, endpoints: Names, now: int, reply: Reply)
      returns (resp: Response)
      requires limiters.Valid() && Accounted() && Nonnegative(reply)
      modifies this`counters, this`added, this`calls, this`bedrock, limiters, limiters.rateLimiters.Values
      ensures limiters.Valid() && Accounted()
      ensures var (g, after) := InvokeGate(post, path, body.Some?, endpoints, old(limiters.Contents()), now);
              && limiters.Contents() == after
              && (g.TurnedAway? ==>
                    && resp == Response(g.status, g.retryAfter, None)
                    && calls == old(calls) && bedrock == old(bedrock) && counters == old(counters))
              && (g.Passed? ==>
                    && resp == Respond(reply, CostOf(prices, g.labels.modelId, reply))
                    && bedrock == old(bedrock) + [Called(InvokeHandler, g.labels, reply)]
                    && calls == old(calls) + [ConverseFor(g.endpoint, body.value.messages, body.value.systemPrompt,
                                                          Cap(body.value.maxTokens, g.endpoint.maxTokens),
                                                          body.value.temperature)])
    {
      var g := AdmitInvoke(post, path, body.Some?, endpoints, now);
      if g.TurnedAway? {
        return Response(g.status, g.retryAfter, None);
      }
      var ep := g.endpoint;
      var maxTokens := body.value.maxTokens;
      if ep.maxTokens.Some? && (maxTokens == 0 || maxTokens > ep.maxTokens.value) {
        maxTokens := ep.maxTokens.value;
      }
      var call := BuildConverse(ep, body.value.messages, body.value.systemPrompt, maxTokens, body.value.temperature);
      resp := Forward(InvokeHandler, g.labels, call, reply);
    }

    method HandleRender(post: bool, path: string, body: Option<Variables>,
                        templates: Templates, endpoints: Names, render: Renderer, reply: Reply)
      returns (resp: Response)
      requires Accounted() && Nonnegative(reply)
      modifies this`counters, this`added, this`calls, this`bedrock
      ensures Accounted()
      ensures var g := RenderGate(post, path, body, templates, endpoints, render);
              && (g.Panicking? ==> resp == Aborted)
              && (g.TurnedAway? ==> resp == Response(g.status, g.retryAfter, None))
              && (!g.Passed? ==> calls == old(calls) && bedrock == old(bedrock) && counters == old(counters))
              && (g.Passed? ==>
                    && resp == Respond(reply, CostOf(prices, g.labels.modelId, reply))
                    && bedrock == old(bedrock) + [Called(RenderHandler, g.labels, reply)]
                    && var pt := templates[ParsePathSegments(path, "/render/").value];
                    && calls == old(calls) + [ConverseFor(g.endpoint, [Message("user", g.rendered)], pt.systemPrompt,
                                                          Cap(TemplateLimit(pt), g.endpoint.maxTokens), 0.0)])
    {
      if !post {
        return Response(405, None, None);
      }
      var parsed := ParsePathSegments(path, "/render/");
      if parsed.None? || body.None? {
        return Response(400, None, None);
      }
      var (namespace, name) := parsed.value;
      if (namespace, name) !in templates {
        return Response(404, None, None);
      }
      var pt := templates[(namespace, name)];
      var prepared := PrepareVariables(pt.variables, body.value);
      if prepared.Panicked? {
        return Aborted;
      }
      if prepared.Missing? {
        return Response(400, None, None);
      }
      var rendered := render(pt.text, prepared.vars);
      if rendered.None? {
        return Response(400, None, None);
      }
      if (namespace, pt.endpointRef) !in endpoints {
        return Response(404, None, None);
      }
      var ep := endpoints[(namespace, pt.endpointRef)];
      if !ep.available {
        return Response(503, None, None);
      }
      var maxTokens := 0;
      if pt.maxTokens.Some? {
        maxTokens := pt.maxTokens.value;
      }
      if ep.maxTokens.Some? && (maxTokens == 0 || maxTokens > ep.maxTokens.value) {
        maxTokens := ep.maxTokens.value;
      }
      var call := BuildConverse(ep, [Message("user", rendered.value)], pt.systemPrompt, maxTokens, 0.0);
      resp := Forward(RenderHandler, Label(namespace, pt.endpointRef, ep.modelId), call, reply);
    }
  }

  function TemplateLimit(pt: Template): int {
    if pt.maxTokens.Some? then pt.maxTokens.value else 0
  }

  /** `after` is `before` plus what one reply under `labels` is worth, and nothing else. */
  ghost predicate Adds(before: Counters, after: Counters, labels: Label, handler: Handler, reply: Reply,
                       cost: Option<int>) {
    forall x ::
      At(after, x) == At(before, x) + if x.labels == labels then OwedFor(handler, reply, cost, x.counter) else 0
  }

  /** One more reply, and the updates for it, keep the counters accounted for. */
  lemma StaysSettled(prices: Prices, before: Counters, after: Counters, bedrock: seq<Called>, handler: Handler,
                     labels: Label, reply: Reply)
    requires Settled(prices, before, bedrock)
    requires Adds(before, after, labels, handler, reply, CostOf(prices, labels.modelId, reply))
    ensures Settled(prices, after, bedrock + [Called(handler, labels, reply)])
  {
    forall x ensures At(after, x) == Tally(Bill(prices), bedrock + [Called(handler, labels, reply)], x) {
      TallySnoc(Bill(prices), bedrock, Called(handler, labels, reply), x);
    }
  }
}
