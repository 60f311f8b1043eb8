/** The Prometheus counters of the proxy under any interleaving of requests. Every counter
    update is a step of its own. */
module Accounting {
  import opened ApiServer
  import opened Cost
  import opened Runs

  datatype Label = Label(namespace: string, endpoint: string, modelId: string)

  datatype Counter = Successes | Errors | InputTokens | OutputTokens | CostMicros

  /** One time series: a counter under one set of labels. */
  datatype Series = Series(labels: Label, counter: Counter)

  type Counters = map<Series, int>

  datatype Handler = InvokeHandler | RenderHandler

  datatype Reply = Answer(content: string, input: int, output: int, stopReason: string) | Error

  /** Bedrock reports no negative token counts; a Prometheus counter would refuse them. */
  predicate Nonnegative(r: Reply) {
    r.Answer? ==> r.input >= 0 && r.output >= 0
  }

  /** What one reply of Bedrock is worth to a counter, given handler and model. */
  type Worth = (Handler, string, Reply, Counter) -> int

  /** The counters that a handler updates for a reply, in order; /render counts no errors. */
  function Updates(handler: Handler, reply: Reply): seq<Counter> {
    if reply.Answer? then [Successes, InputTokens, OutputTokens, CostMicros]
    else if handler.InvokeHandler? then [Errors]
    else []
  }

  /** A reply is worth nothing to a counter that is not updated for it. */
  ghost predicate Sane(worth: Worth) {
    forall h: Handler, m: string, r: Reply, c: Counter :: c !in Updates(h, r) ==> worth(h, m, r, c) == 0
  }

  /** A request on its way through a handler. Once it has its reply, `done` is how many of the
      updates have happened. */
  datatype Stage =
    | Admitting
    | Rejected
    | Calling
    | Counting(reply: Reply, done: nat)
    | Responded(reply: Reply)

  datatype Request = Request(handler: Handler, labels: Label, stage: Stage)

  datatype Called = Called(handler: Handler, labels: Label, reply: Reply)

  /** `bedrock` is what Bedrock answered, in order; no code reads it. */
  datatype State = State(requests: seq<Request>, counters: Counters, bedrock: seq<Called>)

  datatype Action =
    | Arrive(handler: Handler, labels: Label)
    | Reject(r: nat)
    | Admit(r: nat)
    | Return(r: nat, reply: Reply)
    | Count(r: nat)

  const INIT := State([], map[], [])

  function At(counters: Counters, x: Series): int {
    if x in counters then counters[x] else 0
  }

  function Credit(counters: Counters, x: Series, n: int): Counters {
    counters[x := At(counters, x) + n]
  }

  function Due(worth: Worth, q: Request, c: Counter): int {
    match q.stage
    case Counting(reply, _) => worth(q.handler, q.labels.modelId, reply, c)
    case Responded(reply) => worth(q.handler, q.labels.modelId, reply, c)
    case _ => 0
  }

  /** What a request has put into a counter so far. */
  function Counted(worth: Worth, q: Request, c: Counter): int {
    if q.stage.Counting? && c !in Updates(q.handler, q.stage.reply)[..Done(q)] then 0 else Due(worth, q, c)
  }

  function Done(q: Request): (n: nat)
    requires q.stage.Counting?
    ensures n <= |Updates(q.handler, q.stage.reply)|
  {
    var all := |Updates(q.handler, q.stage.reply)|;
    if q.stage.done <= all then q.stage.done else all
  }

  function SetStage(s: State, r: nat, stage: Stage): State
    requires r < |s.requests|
  {
    s.(requests := s.requests[r := s.requests[r].(stage := stage)])
  }

  function Next(worth: Worth, s: State, a: Action): State {
    match a
    case Arrive(h, l) => s.(requests := s.requests + [Request(h, l, Admitting)])
    case Reject(r) => if r < |s.requests| && s.requests[r].stage.Admitting? then SetStage(s, r, Rejected) else s
    case Admit(r) => if r < |s.requests| && s.requests[r].stage.Admitting? then SetStage(s, r, Calling) else s
    case Return(r, reply) =>
      if r < |s.requests| && s.requests[r].stage.Calling? && Nonnegative(reply) then ReturnStep(s, r, reply) else s
    case Count(r) => if r < |s.requests| && s.requests[r].stage.Counting? then CountStep(worth, s, r) else s
  }

  function ReturnStep(s: State, r: nat, reply: Reply): State
    requires r < |s.requests|
  {
    SetStage(s, r, Counting(reply, 0)).(bedrock := s.bedrock
                                        + [Called(s.requests[r].handler, s.requests[r].labels, reply)])
  }

  function CountStep(worth: Worth, s: State, r: nat): State
    requires r < |s.requests| && s.requests[r].stage.Counting?
  {
    var q := s.requests[r];
    var Counting(reply, done) := q.stage;
    var updates := Updates(q.handler, reply);
    if done >= |updates| then SetStage(s, r, Responded(reply))
    else
      SetStage(s, r, Counting(reply, done + 1)).(
        counters := Credit(s.counters, Series(q.labels, updates[done]),
                           worth(q.handler, q.labels.modelId, reply, updates[done])))
  }

  function Machine(worth: Worth): (State, Action) -> State {
    (s, a) => Next(worth, s, a)
  }

  // ----- sums over the requests -----

  /** What has been counted, or what will have been counted in the end; for summing. */
  datatype Column = SoFar | InTheEnd

  function Share(worth: Worth, column: Column, q: Request, c: Counter): int {
    if column.SoFar? then Counted(worth, q, c) else Due(worth, q, c)
  }

  function Sum(worth: Worth, column: Column, requests: seq<Request>, x: Series): int {
    if requests == [] then 0
    else
      var n := |requests| - 1;
      Sum(worth, column, requests[..n], x)
      + if requests[n].labels == x.labels then Share(worth, column, requests[n], x.counter) else 0
  }

  /** What the replies of Bedrock amount to in one series. */
  function Tally(worth: Worth, bedrock: seq<Called>, x: Series): int {
    if bedrock == [] then 0
    else
      var c := bedrock[|bedrock| - 1];
      Tally(worth, bedrock[..|bedrock| - 1], x)
      + if c.labels == x.labels then worth(c.handler, c.labels.modelId, c.reply, x.counter) else 0
  }

  lemma {:induction false} SumUpdate(worth: Worth, column: Column, requests: seq<Request>, r: nat, q: Request,
                                     x: Series)
    requires r < |requests| && q.labels == requests[r].labels
    ensures Sum(worth, column, requests[r := q], x) ==
            Sum(worth, column, requests, x)
            + if q.labels != x.labels then 0
              else Share(worth, column, q, x.counter) - Share(worth, column, requests[r], x.counter)
  {
    var n := |requests| - 1;
    if r == n {
      assert requests[r := q][..n] == requests[..n];
    } else {
      SumUpdate(worth, column, requests[..n], r, q, x);
      assert requests[r := q][..n] == requests[..n][r := q];
    }
  }

  lemma SumSnoc(worth: Worth, column: Column, requests: seq<Request>, q: Request, x: Series)
    ensures Sum(worth, column, requests + [q], x) ==
            Sum(worth, column, requests, x) + if q.labels == x.labels then Share(worth, column, q, x.counter) else 0
  {
    assert (requests + [q])[..|requests|] == requests;
  }

  lemma TallySnoc(worth: Worth, bedrock: seq<Called>, c: Called, x: Series)
    ensures Tally(worth, bedrock + [c], x) ==
            Tally(worth, bedrock, x)
            + if c.labels == x.labels then worth(c.handler, c.labels.modelId, c.reply, x.counter) else 0
  {
    assert (bedrock + [c])[..|bedrock|] == bedrock;
  }

  // ----- invariant -----

  ghost predicate Balanced(worth: Worth, s: State, x: Series) {
    && At(s.counters, x) == Sum(worth, SoFar, s.requests, x)
    && Tally(worth, s.bedrock, x) == Sum(worth, InTheEnd, s.requests, x)
  }

  predicate StageOk(q: Request) {
    && (q.stage.Counting? ==> q.stage.done <= |Updates(q.handler, q.stage.reply)|)
    && (q.stage.Counting? || q.stage.Responded? ==> Nonnegative(q.stage.reply))
  }

  ghost predicate StagesOk(s: State) {
    forall r :: 0 <= r < |s.requests| ==> StageOk(s.requests[r])
  }

  /** How both sums change when one request moves on. */
  lemma SumsMove(worth: Worth, s: State, s': State, r: nat, x: Series)
    requires r < |s.requests| == |s'.requests|
    requires s'.requests == s.requests[r := s'.requests[r]] && s'.requests[r].labels == s.requests[r].labels
    ensures var q, q' := s.requests[r], s'.requests[r];
            var mine := q.labels == x.labels;
            && Sum(worth, SoFar, s'.requests, x) ==
               Sum(worth, SoFar, s.requests, x)
                 + (if mine then Counted(worth, q', x.counter) - Counted(worth, q, x.counter) else 0)
            && Sum(worth, InTheEnd, s'.requests, x) ==
               Sum(worth, InTheEnd, s.requests, x)
                 + (if mine then Due(worth, q', x.counter) - Due(worth, q, x.counter) else 0)
  {
    SumUpdate(worth, SoFar, s.requests, r, s'.requests[r], x);
    SumUpdate(worth, InTheEnd, s.requests, r, s'.requests[r], x);
  }

  /** No counter is updated twice for one reply, and after the last update none is missing. */
  lemma UpdatesOnce(h: Handler, reply: Reply, done: nat, c: Counter)
    requires done <= |Updates(h, reply)|
    ensures done < |Updates(h, reply)| ==> Updates(h, reply)[done] !in Updates(h, reply)[..done]
    ensures done < |Updates(h, reply)| ==>
              (c in Updates(h, reply)[..done + 1] <==> c in Updates(h, reply)[..done] || c == Updates(h, reply)[done])
    ensures done == |Updates(h, reply)| ==> Updates(h, reply)[..done] == Updates(h, reply)
  {
  }

  /** One step moves the request exactly as far as the counter. */
  lemma CountedStep(worth: Worth, s: State, r: nat, c: Counter)
    requires Sane(worth)
    requires r < |s.requests| && s.requests[r].stage.Counting? && StageOk(s.requests[r])
    ensures var q, s' := s.requests[r], CountStep(worth, s, r);
            && Due(worth, s'.requests[r], c) == Due(worth, q, c)
            && At(s'.counters, Series(q.labels, c)) - At(s.counters, Series(q.labels, c))
               == Counted(worth, s'.requests[r], c) - Counted(worth, q, c)
  {
    var q := s.requests[r];
    UpdatesOnce(q.handler, q.stage.reply, q.stage.done, c);
  }

  lemma BalancedCount(worth: Worth, s: State, r: nat, x: Series)
    requires Sane(worth) && StagesOk(s) && Balanced(worth, s, x)
    requires r < |s.requests| && s.requests[r].stage.Counting?
    ensures Balanced(worth, CountStep(worth, s, r), x)
  {
    var s' := CountStep(worth, s, r);
    assert StageOk(s.requests[r]);
    CountedStep(worth, s, r, x.counter);
    SumsMove(worth, s, s', r, x);
    if s.requests[r].labels != x.labels {
      assert At(s'.counters, x) == At(s.counters, x);
    }
  }

  lemma BalancedReturn(worth: Worth, s: State, r: nat, reply: Reply, x: Series)
    requires Balanced(worth, s, x)
    requires r < |s.requests| && s.requests[r].stage.Calling?
    ensures Balanced(worth, ReturnStep(s, r, reply), x)
  {
    var q := s.requests[r];
    SumsMove(worth, s, ReturnStep(s, r, reply), r, x);
    TallySnoc(worth, s.bedrock, Called(q.handler, q.labels, reply), x);
  }

  lemma BalancedStep(worth: Worth, s: State, a: Action, x: Series)
    requires Sane(worth) && StagesOk(s) && Balanced(worth, s, x)
    ensures StagesOk(Next(worth, s, a)) && Balanced(worth, Next(worth, s, a), x)
  {
    match a
    case Arrive(h, l) =>
      SumSnoc(worth, SoFar, s.requests, Request(h, l, Admitting), x);
      SumSnoc(worth, InTheEnd, s.requests, Request(h, l, Admitting), x);
    case Reject(r) =>
      if r < |s.requests| {
        SumsMove(worth, s, Next(worth, s, a), r, x);
      }
    case Admit(r) =>
      if r < |s.requests| {
        SumsMove(worth, s, Next(worth, s, a), r, x);
      }
    case Return(r, reply) =>
      if r < |s.requests| && s.requests[r].stage.Calling? {
        BalancedReturn(worth, s, r, reply, x);
      }
    case Count(r) =>
      if r < |s.requests| && s.requests[r].stage.Counting? {
        assert StageOk(s.requests[r]);
        BalancedCount(worth, s, r, x);
      }
  }

  lemma {:induction false} BalancedRun(worth: Worth, s: State, actions: seq<Action>, x: Series)
    requires Sane(worth) && StagesOk(s) && Balanced(worth, s, x)
    ensures StagesOk(Run(Machine(worth), s, actions)) && Balanced(worth, Run(Machine(worth), s, actions), x)
    decreases |actions|
  {
    if actions != [] {
      BalancedStep(worth, s, actions[0], x);
      BalancedRun(worth, Next(worth, s, actions[0]), actions[1..], x);
    }
  }

  /** No request is in the middle of its updates. */
  ghost predicate AtRest(s: State) {
    forall r :: 0 <= r < |s.requests| ==> !s.requests[r].stage.Counting?
  }

  lemma {:induction false} SameSums(worth: Worth, requests: seq<Request>, x: Series)
    requires forall r :: 0 <= r < |requests| ==> !requests[r].stage.Counting?
    ensures Sum(worth, SoFar, requests, x) == Sum(worth, InTheEnd, requests, x)
  {
    if requests != [] {
      SameSums(worth, requests[..|requests| - 1], x);
    }
  }

  /** Conservation: whenever no request is in the middle of its updates, every series is
      exactly what the Bedrock replies under its labels amount to, from both handlers, whatever
      the interleaving. Rejected requests are not among those replies. */
  lemma CountersConserved(worth: Worth, actions: seq<Action>, x: Series)
    requires Sane(worth) && AtRest(Run(Machine(worth), INIT, actions))
    ensures At(Run(Machine(worth), INIT, actions).counters, x)
            == Tally(worth, Run(Machine(worth), INIT, actions).bedrock, x)
  {
    BalancedRun(worth, INIT, actions, x);
    SameSums(worth, Run(Machine(worth), INIT, actions).requests, x);
  }

  ghost predicate NeverNegative(worth: Worth) {
    forall h: Handler, m: string, r: Reply, c: Counter :: Nonnegative(r) ==> worth(h, m, r, c) >= 0
  }

  lemma {:induction false} CountedAtMostDue(worth: Worth, requests: seq<Request>, x: Series)
    requires NeverNegative(worth)
    requires forall r :: 0 <= r < |requests| ==> StageOk(requests[r])
    ensures Sum(worth, SoFar, requests, x) <= Sum(worth, InTheEnd, requests, x)
  {
    if requests != [] {
      var q := requests[|requests| - 1];
      CountedAtMostDue(worth, requests[..|requests| - 1], x);
      assert StageOk(q);
      assert Due(worth, q, x.counter) >= 0;
    }
  }

  /** At every other moment they lag behind, and never run ahead. */
  lemma CountersNeverAhead(worth: Worth, actions: seq<Action>, x: Series)
    requires Sane(worth) && NeverNegative(worth)
    ensures var s := Run(Machine(worth), INIT, actions); At(s.counters, x) <= Tally(worth, s.bedrock, x)
  {
    BalancedRun(worth, INIT, actions, x);
    CountedAtMostDue(worth, Run(Machine(worth), INIT, actions).requests, x);
  }

  // ----- the counters against the replies and the price list -----

  /** The cost of a reply, if it is a success and its model has a price. */
  function CostOf(prices: Prices, modelId: string, reply: Reply): Option<int> {
    match reply
    case Answer(_, i, o, _) => CalculateCost(prices, modelId, i, o)
    case Error => None
  }

  /** What a reply that costs `cost` is worth to each counter. */
  function OwedFor(handler: Handler, reply: Reply, cost: Option<int>, c: Counter): int {
    match c
    case Successes => if reply.Answer? then 1 else 0
    case Errors => if reply.Error? && handler.InvokeHandler? then 1 else 0
    case InputTokens => if reply.Answer? then reply.input else 0
    case OutputTokens => if reply.Answer? then reply.output else 0
    case CostMicros => if reply.Answer? && cost.Some? then cost.value else 0
  }

  function Owed(prices: Prices, handler: Handler, modelId: string, reply: Reply, c: Counter): int {
    OwedFor(handler, reply, CostOf(prices, modelId, reply), c)
  }

  /** The worth of replies under a price list; a model without a price adds no cost. */
  function Bill(prices: Prices): Worth {
    (handler, modelId, reply, c) => Owed(prices, handler, modelId, reply, c)
  }

  lemma BillIsSane(prices: Prices)
    ensures Sane(Bill(prices)) && NeverNegative(Bill(prices))
  {
    forall h: Handler, m: string, r: Reply, c: Counter | Nonnegative(r) ensures Bill(prices)(h, m, r, c) >= 0 {
      if r.Answer? && m in prices {
        ExactMonotone(prices[m], 0, 0, r.input, r.output);
      }
    }
  }

  /** The successful calls of a label. */
  function Usages(bedrock: seq<Called>, l: Label): seq<Usage> {
    if bedrock == [] then []
    else
      var c := bedrock[|bedrock| - 1];
      (if c.labels == l && c.reply.Answer? then [Usage(l.modelId, c.reply.input, c.reply.output)] else [])
      + Usages(bedrock[..|bedrock| - 1], l)
  }

  /** How many calls of a label failed, counting /invoke only. */
  function FailedInvokes(bedrock: seq<Called>, l: Label): nat {
    if bedrock == [] then 0
    else
      var c := bedrock[|bedrock| - 1];
      FailedInvokes(bedrock[..|bedrock| - 1], l)
        + (if c.labels == l && c.handler.InvokeHandler? && c.reply.Error? then 1 else 0)
  }

  lemma UsagesSnoc(before: seq<Called>, c: Called, l: Label)
    ensures var u := Usages(before + [c], l);
            if c.labels == l && c.reply.Answer?
            then u != [] && u[0] == Usage(l.modelId, c.reply.input, c.reply.output) && u[1..] == Usages(before, l)
            else u == Usages(before, l)
  {
    assert (before + [c])[..|before|] == before;
  }

  /** Each counter, said of the whole list of replies at once. */
  function Explained(prices: Prices, bedrock: seq<Called>, l: Label, c: Counter): int {
    match c
    case Successes => |Usages(bedrock, l)|
    case Errors => FailedInvokes(bedrock, l)
    case InputTokens => InputOf(Usages(bedrock, l))
    case OutputTokens => OutputOf(Usages(bedrock, l))
    case CostMicros => Billed(prices, Usages(bedrock, l))
  }

  lemma {:induction false} TallyExplained(prices: Prices, bedrock: seq<Called>, l: Label, c: Counter)
    ensures Tally(Bill(prices), bedrock, Series(l, c)) == Explained(prices, bedrock, l, c)
  {
    if bedrock != [] {
      var last, before := bedrock[|bedrock| - 1], bedrock[..|bedrock| - 1];
      TallyExplained(prices, before, l, c);
      UsagesSnoc(before, last, l);
      assert before + [last] == bedrock;
    }
  }

  /** End to end: at rest, the counters of a label are the number of its successful calls, the
      sums of their tokens and the number of its failed /invoke calls, and its cost counter is
      within half a micro-dollar per success of the exact price of all of them. */
  lemma CountersExplained(prices: Prices, actions: seq<Action>, l: Label)
    requires AtRest(Run(Machine(Bill(prices)), INIT, actions))
    ensures var s := Run(Machine(Bill(prices)), INIT, actions);
            var calls := Usages(s.bedrock, l);
            && At(s.counters, Series(l, Successes)) == |calls|
            && At(s.counters, Series(l, Errors)) == FailedInvokes(s.bedrock, l)
            && At(s.counters, Series(l, InputTokens)) == InputOf(calls)
            && At(s.counters, Series(l, OutputTokens)) == OutputOf(calls)
            && var error := 1000 * At(s.counters, Series(l, CostMicros)) - ExactTotal(prices, calls);
            -500 * |calls| <= error <= 500 * |calls|
  {
    var s := Run(Machine(Bill(prices)), INIT, actions);
    BillIsSane(prices);
    forall c ensures At(s.counters, Series(l, c)) == Explained(prices, s.bedrock, l, c) {
      CountersConserved(Bill(prices), actions, Series(l, c));
      TallyExplained(prices, s.bedrock, l, c);
    }
    PricedAtMost(prices, Usages(s.bedrock, l));
    AccumulatedError(prices, Usages(s.bedrock, l));
  }
}
