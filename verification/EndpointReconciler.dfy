/** ModelEndpointReconciler as it is written, proved to be a run of EndpointSync. */
module EndpointReconciler {
  import opened ApiServer
  import opened Conditions
  import opened EndpointSync
  import opened EndpointSafety
  import opened Requeue
  import opened Runs
  import BedrockClient
  import ClientCache
  import Items = EndpointResidue
  import Residue

  datatype Fetched = Found(ep: Endpoint) | NotFound | GetError

  /** How each call of one reconcile ends and what others do before it. */
  datatype Schedule = Schedule(
    getOk: bool,
    health: Health,
    service: Outcome,
    last: Outcome,
    reachableAt: int,
    readyAt: int,
    before1: seq<Action>,
    before2: seq<Action>,
    before3: seq<Action>
  )

  ghost predicate EnvironmentOnly(actions: seq<Action>) {
    forall i :: 0 <= i < |actions| ==> actions[i].Environment()
  }

  /** What a state knows for good: the endpoint's name and where the proxy runs. */
  function Site(s: State): (Name, string, string) {
    (s.name, s.proxyService, s.proxyNamespace)
  }

  /** The API server, the Service and Bedrock, reached only through calls that the protocol
      is ready for. */
  class Cluster {
    ghost const start: State
    ghost var trace: seq<Action>
    var state: State

    constructor (state: State)
      requires Inv(state)
      ensures Valid() && this.state == state && trace == []
    {
      this.state, this.start, trace := state, state, [];
    }

    ghost predicate Valid()
      reads this
    {
      state == Run(Next, start, trace) && Inv(state)
    }

    method Step(a: Action)
      requires Valid()
      modifies this
      ensures Valid() && state == Next(old(state), a) && trace == old(trace) + [a]
    {
      KeepStep(state, a);
      RunSnoc(Next, start, trace, a);
      state, trace := Next(state, a), trace + [a];
    }

    method Interleave(env: seq<Action>)
      requires Valid() && EnvironmentOnly(env)
      modifies this
      ensures Valid() && trace == old(trace) + env
      ensures state.pc == old(state.pc)
      ensures Site(state) == Site(old(state))
      ensures env == [] ==> state == old(state)
    {
      for i := 0 to |env|
        invariant Valid() && trace == old(trace) + env[..i]
        invariant state.pc == old(state.pc)
        invariant Site(state) == Site(old(state))
        invariant i == 0 ==> state == old(state)
      {
        Step(env[i]);
      }
      assert env[..|env|] == env;
    }

    method Get(ok: bool) returns (r: Fetched)
      requires Valid() && state.pc.Idle? && state.queued
      modifies this
      ensures Valid() && state == Next(old(state), Fetch(ok)) && trace == old(trace) + [Fetch(ok)]
      ensures r == if !ok then GetError
                   else if old(state).server.obj.None? then NotFound
                   else Found(old(state).server.obj.value)
    {
      r := if !ok then GetError else if state.server.obj.None? then NotFound else Found(state.server.obj.value);
      Step(Fetch(ok));
    }

    method Update(ep: Endpoint, outcome: Outcome) returns (err: bool)
      requires Valid()
      requires state.pc == if ep.ours then AddingFinalizer(ep.(ours := false)) else RemovingFinalizer(ep.(ours := true))
      modifies this
      ensures Valid() && state.pc.Idle?
      ensures trace == old(trace) + [if ep.ours then AddFinalizer(outcome) else RemoveFinalizer(outcome)]
      ensures err <==> outcome != Answered || Conflicts(old(state).server, ep)
      ensures err ==> state.queued
      ensures !err ==> if ep.ours then state.queued else Released(state)
    {
      err := outcome != Answered || Conflicts(state.server, ep);
      if !ep.ours && !err {
        UpdateKeeps(state.server, state.pc.copy, false);
      }
      Step(if ep.ours then AddFinalizer(outcome) else RemoveFinalizer(outcome));
    }

    method CheckHealth(ep: Endpoint, health: Health) returns (h: Health)
      requires Valid() && state.pc == Checking(ep)
      modifies this
      ensures Valid() && trace == old(trace) + [HealthCheck(health)] && h == health
      ensures state.pc.Serving? && state.pc.copy == ep && state.pc.health == h
      ensures Site(state) == Site(old(state))
    {
      h := health;
      Step(HealthCheck(health));
    }

    method CreateOrUpdate(desired: ServiceSpec, outcome: Outcome) returns (err: bool)
      requires Valid() && state.pc.Serving? && desired == Desired(state)
      modifies this
      ensures Valid() && trace == old(trace) + [ReconcileService(outcome)]
      ensures Site(state) == Site(old(state))
      ensures err <==> outcome != Answered
      ensures err ==> state.pc.Idle? && state.queued
      ensures !err ==> state.service == Some(desired)
                       && state.pc == Reporting(old(state).pc.copy, old(state).pc.health, old(state).pc.check)
    {
      err := outcome != Answered;
      Step(ReconcileService(outcome));
    }

    method StatusPatch(ep: Endpoint, base: Endpoint, sch: Schedule) returns (err: bool)
      requires Valid() && state.pc.Reporting? && state.pc.copy == base
      requires ep.status == NextStatus(state, base, state.pc.health, sch.reachableAt, sch.readyAt)
      modifies this
      ensures Valid() && trace == old(trace) + [PatchStatus(sch.last, sch.reachableAt, sch.readyAt)]
      ensures state.pc.Idle? && state.queued
      ensures err <==> sch.last != Answered
      ensures !err ==> state.server.obj.Some? && state.server.obj.value.status == ep.status
    {
      err := sch.last != Answered;
      Step(PatchStatus(sch.last, sch.reachableAt, sch.readyAt));
    }
  }

  // ----- what one reconcile is meant to do -----

  /** Everything that happens during a reconcile that starts in `s`, in order. */
  function Plan(s: State, sch: Schedule): seq<Action> {
    if !sch.getOk || s.server.obj.None? then [Fetch(sch.getOk)]
    else [Fetch(true)] + PlanFor(s.server.obj.value, sch)
  }

  function PlanFor(ep: Endpoint, sch: Schedule): seq<Action> {
    if ep.deleting then (if ep.ours then sch.before1 + [RemoveFinalizer(sch.last)] else [])
    else if !ep.ours then sch.before1 + [AddFinalizer(sch.last)]
    else ServePlan(sch) + ReportPlan(sch)
  }

  /** The health check comes before the Service. */
  function ServePlan(sch: Schedule): seq<Action> {
    (sch.before1 + [HealthCheck(sch.health)]) + (sch.before2 + [ReconcileService(sch.service)])
  }

  /** No status is written when the Service could not be. */
  function ReportPlan(sch: Schedule): seq<Action> {
    if sch.service == Answered then sch.before3 + [PatchStatus(sch.last, sch.reachableAt, sch.readyAt)] else []
  }

  /** How the last call to the API server ends; an error is the error of the reconcile. */
  function LastOutcome(s: State, sch: Schedule): Outcome {
    if !sch.getOk then Refused
    else if s.server.obj.None? then Answered
    else OutcomeFor(s.server.obj.value, sch)
  }

  function OutcomeFor(ep: Endpoint, sch: Schedule): Outcome {
    if ep.deleting then (if ep.ours then sch.last else Answered)
    else if ep.ours && sch.service != Answered then sch.service
    else sch.last
  }

  /** Nothing fails and nobody interferes. */
  predicate Quiet(sch: Schedule) {
    sch.getOk && sch.service == sch.last == Answered && sch.before1 == sch.before2 == sch.before3 == []
  }

  /** The result of a reconcile that returns no error, given the object that it read. */
  ghost predicate Concludes(read: Option<Endpoint>, after: State, health: Health, result: Result) {
    if read.None? || read.value.deleting then result == DONE && Released(after)
    else if !read.value.ours then result == Result(true, 0)
    else ReportsHealth(read.value, after, health, result)
  }

  /** The persisted status is about the endpoint that was read, both conditions say what the
      health check answered, and the requeue interval goes by it: five minutes while Bedrock is
      available, ten seconds while it is not. */
  ghost predicate ReportsHealth(read: Endpoint, s: State, h: Health, result: Result) {
    && s.server.obj.Some?
    && var st := s.server.obj.value.status;
    && var verdict := if h.available then ConditionTrue else ConditionFalse;
    && st.available == h.available
    && st.serviceName == "model-" + s.name.name
    && st.observedGeneration == read.generation
    && Says(st.conditions, "BedrockReachable", verdict, h.reason, h.message)
    && Says(st.conditions, "Ready", verdict, h.reason, h.message)
    && result == Result(false, if h.available then 300 else 10)
  }

  /** The gauge of a live endpoint shows the availability that was persisted. */
  ghost predicate Gauged(name: Name, read: Option<Endpoint>, after: State, gauge: Gauge) {
    read.Some? && read.value.ours && !read.value.deleting ==>
      var series := (name, read.value.spec.modelId);
      after.server.obj.Some? && series in gauge && gauge[series] == after.server.obj.value.status.available
  }

  function HealthResult(h: Health): Result {
    Result(false, if h.available then REQUEUE_STEADY_STATE else REQUEUE_TRANSIENT)
  }

  lemma Appended(t: seq<Action>, a: seq<Action>, x: Action, b: seq<Action>, y: Action)
    ensures t + a + [x] + b + [y] == t + ((a + [x]) + (b + [y]))
    ensures t + a + [x] == t + (a + [x])
  {
  }

  /** A quiet reconcile ends where the convergence theorems say. */
  lemma QuietPlan(s: State, sch: Schedule)
    requires s.pc.Idle? && s.queued && Quiet(sch)
    ensures Run(Next, s, Plan(s, sch)) == EndpointSafety.Reconcile(s, sch.health, sch.reachableAt, sch.readyAt)
  {
    var s1 := Next(s, Fetch(true));
    if s.server.obj.None? {
      Unrolled(Next, s, [Fetch(true)]);
    } else {
      var plan := PlanFor(s.server.obj.value, sch);
      assert ([Fetch(true)] + plan)[1..] == plan;
      QuietRest(s1, sch, plan);
    }
  }

  lemma QuietRest(s: State, sch: Schedule, plan: seq<Action>)
    requires Quiet(sch)
    requires match s.pc
             case Idle => plan == []
             case AddingFinalizer(_) => plan == [AddFinalizer(Answered)]
             case Checking(_) =>
               plan == [HealthCheck(sch.health), ReconcileService(Answered),
                        PatchStatus(Answered, sch.reachableAt, sch.readyAt)]
             case RemovingFinalizer(_) => plan == [RemoveFinalizer(Answered)]
             case _ => false
    ensures Run(Next, s, plan) == Finish(s, sch.health, sch.reachableAt, sch.readyAt)
  {
    Unrolled(Next, s, plan);
    FinishWalks(s, sch.health, sch.reachableAt, sch.readyAt);
    if s.pc.Checking? {
      var s1 := Next(s, HealthCheck(sch.health));
      FinishWalks(s1, sch.health, sch.reachableAt, sch.readyAt);
      FinishWalks(Next(s1, ReconcileService(Answered)), sch.health, sch.reachableAt, sch.readyAt);
    }
  }

  // ----- the availability gauge and the client cache -----

  /** One series per endpoint and model. */
  type Gauge = map<(Name, string), bool>

  function GaugeFor(gauge: Gauge, name: Name, read: Option<Endpoint>, sch: Schedule): Gauge {
    if !sch.getOk || read.None? || !read.value.ours then gauge
    else
      var series := (name, read.value.spec.modelId);
      if read.value.deleting then gauge - {series}
      else if sch.service == Answered then gauge[series := sch.health.available]
      else gauge
  }

  function SeriesOf(gauge: Gauge): set<Items.Item> {
    set k | k in gauge :: Items.Series(k.0, k.1)
  }

  /** The series are what EndpointResidue says the planned calls leave behind: its theorems are
      about the code. */
  lemma GaugeFollows(s: State, sch: Schedule, gauge: Gauge, n: Name, m: string)
    requires s.pc.Idle? && s.queued
    requires EnvironmentOnly(sch.before1) && EnvironmentOnly(sch.before2) && EnvironmentOnly(sch.before3)
    ensures Items.Series(n, m) in Residue.Left(Items.ALONE, SeriesOf(gauge), s, Plan(s, sch))
            <==> (n, m) in GaugeFor(gauge, s.name, s.server.obj, sch)
  {
    var kept, s1 := SeriesOf(gauge), Next(s, Fetch(sch.getOk));
    var kept1 := Residue.After(Items.ALONE, kept, s, Fetch(sch.getOk));
    assert Items.Series(n, m) in kept <==> (n, m) in gauge;
    if !sch.getOk || s.server.obj.None? {
      Residue.LeftUnrolled(Items.ALONE, kept, s, [Fetch(sch.getOk)]);
    } else {
      var ep := s.server.obj.value;
      assert ([Fetch(true)] + PlanFor(ep, sch))[1..] == PlanFor(ep, sch);
      if ep.deleting || !ep.ours {
        SeriesKept(kept1, s1, PlanFor(ep, sch), n, m);
      } else {
        ServiceSetsSeries(s1, sch, ep, kept1, n, m);
      }
    }
  }

  /** The calls that set no series and delete none. */
  predicate KeepsSeries(a: Action) {
    !a.Crash? && !a.Fetch? && !a.ReconcileService?
  }

  lemma {:induction false} SeriesKept(kept: set<Items.Item>, s: State, actions: seq<Action>, n: Name, m: string)
    requires forall i :: 0 <= i < |actions| ==> KeepsSeries(actions[i])
    ensures Items.Series(n, m) in Residue.Left(Items.ALONE, kept, s, actions) <==> Items.Series(n, m) in kept
    decreases |actions|
  {
    if actions != [] {
      assert Items.Series(n, m) in Residue.After(Items.ALONE, kept, s, actions[0]) <==> Items.Series(n, m) in kept;
      SeriesKept(Residue.After(Items.ALONE, kept, s, actions[0]), Next(s, actions[0]), actions[1..], n, m);
    }
  }

  lemma {:induction false} EnvironmentWaits(s: State, env: seq<Action>)
    requires EnvironmentOnly(env)
    ensures Run(Next, s, env).pc == s.pc && Run(Next, s, env).name == s.name
    decreases |env|
  {
    if env != [] {
      EnvironmentWaits(Next(s, env[0]), env[1..]);
    }
  }

  /** The state in which the Service is reconciled. */
  lemma ServiceIsNext(s: State, sch: Schedule, ep: Endpoint)
    requires s.pc == Checking(ep)
    requires EnvironmentOnly(sch.before1) && EnvironmentOnly(sch.before2)
    ensures var s' := Run(Next, s, sch.before1 + [HealthCheck(sch.health)] + sch.before2);
            s'.pc.Serving? && s'.pc.copy == ep && s'.name == s.name
  {
    EnvironmentWaits(s, sch.before1);
    RunSnoc(Next, s, sch.before1, HealthCheck(sch.health));
    var s1 := Run(Next, s, sch.before1 + [HealthCheck(sch.health)]);
    RunConcat(Next, s, sch.before1 + [HealthCheck(sch.health)], sch.before2);
    EnvironmentWaits(s1, sch.before2);
  }

  lemma PlanSplits(sch: Schedule)
    ensures ServePlan(sch) + ReportPlan(sch)
            == sch.before1 + [HealthCheck(sch.health)] + sch.before2
              + ([ReconcileService(sch.service)] + ReportPlan(sch))
  {
  }

  lemma ServiceWrites(s: State, kept: set<Items.Item>, o: Outcome, n: Name, m: string)
    requires s.pc.Serving?
    ensures Items.Series(n, m) in Residue.Left(Items.ALONE, kept, s, [ReconcileService(o)])
            <==> Items.Series(n, m) in kept || (o == Answered && n == s.name && m == s.pc.copy.spec.modelId)
  {
    Residue.LeftUnrolled(Items.ALONE, kept, s, [ReconcileService(o)]);
  }

  lemma ServiceSetsSeries(s: State, sch: Schedule, ep: Endpoint, kept: set<Items.Item>, n: Name, m: string)
    requires s.pc == Checking(ep)
    requires EnvironmentOnly(sch.before1) && EnvironmentOnly(sch.before2) && EnvironmentOnly(sch.before3)
    ensures Items.Series(n, m) in Residue.Left(Items.ALONE, kept, s, ServePlan(sch) + ReportPlan(sch))
            <==> Items.Series(n, m) in kept || (sch.service == Answered && n == s.name && m == ep.spec.modelId)
  {
    var before, service := sch.before1 + [HealthCheck(sch.health)] + sch.before2, [ReconcileService(sch.service)];
    PlanSplits(sch);
    var s1, kept1 := Run(Next, s, before), Residue.Left(Items.ALONE, kept, s, before);
    Residue.LeftConcat(Items.ALONE, kept, s, before, service + ReportPlan(sch));
    Residue.LeftConcat(Items.ALONE, kept1, s1, service, ReportPlan(sch));
    SeriesKept(kept, s, before, n, m);
    ServiceIsNext(s, sch, ep);
    ServiceWrites(s1, kept1, sch.service, n, m);
    SeriesKept(Residue.Left(Items.ALONE, kept1, s1, service), Run(Next, s1, service), ReportPlan(sch), n, m);
  }

  class Reconciler {
    const cluster: Cluster
    const bedrock: BedrockClient.BedrockClient
    const proxyServiceName: string
    const proxyNamespace: string
    var gauge: Gauge

    constructor (cluster: Cluster, bedrock: BedrockClient.BedrockClient, proxyServiceName: string,
                 proxyNamespace: string)
      ensures this.cluster == cluster && this.bedrock == bedrock && gauge == map[]
      ensures this.proxyServiceName == proxyServiceName && this.proxyNamespace == proxyNamespace
    {
      this.cluster, this.bedrock := cluster, bedrock;
      this.proxyServiceName, this.proxyNamespace, gauge := proxyServiceName, proxyNamespace, map[];
    }

    ghost predicate Ready()
      reads cluster
    {
      && cluster.Valid()
      && Site(cluster.state) == (cluster.state.name, proxyServiceName, proxyNamespace)
    }

    /** Runs one reconcile. Exactly the planned calls are made; an error is an error of the
        API server, and after it the endpoint is queued again. */
    method Reconcile(sch: Schedule) returns (result: Result, failed: bool)
      requires Ready() && cluster.state.pc.Idle? && cluster.state.queued && bedrock.Valid()
      requires EnvironmentOnly(sch.before1) && EnvironmentOnly(sch.before2) && EnvironmentOnly(sch.before3)
      modifies cluster, this`gauge, bedrock, bedrock.mu
      ensures cluster.Valid() && cluster.trace == old(cluster.trace) + Plan(old(cluster.state), sch)
      ensures cluster.state.pc.Idle?
      ensures failed || result != DONE ==> cluster.state.queued
      ensures !failed ==> LastOutcome(old(cluster.state), sch) == Answered
      ensures !failed ==> Concludes(old(cluster.state).server.obj, cluster.state, sch.health, result)
      ensures Quiet(sch) ==> !failed
      ensures gauge == GaugeFor(old(gauge), old(cluster.state.name), old(cluster.state).server.obj, sch)
      ensures !failed ==> Gauged(old(cluster.state.name), old(cluster.state).server.obj, cluster.state, gauge)
      ensures bedrock.Valid()
      ensures var read := old(cluster.state).server.obj;
              forall plane, key :: key in ClientCache.Table(old(bedrock.Contents()), plane) ==>
                (key !in ClientCache.Table(bedrock.Contents(), plane)
                 <==> sch.getOk && read.Some? && read.value.deleting && read.value.ours
                      && key == ClientCache.Key(read.value.spec.roleArn, read.value.spec.region))
    {
      var got := cluster.Get(sch.getOk);
      if got.GetError? {
        return DONE, true;
      }
      if got.NotFound? {
        return DONE, false;
      }
      var ep := got.ep;
      if ep.deleting {
        result := DONE;
        failed := HandleDeletion(ep, sch);
      } else if !ep.ours {
        failed := EnsureFinalizer(ep, sch);
        result := if failed then DONE else Result(true, 0);
      } else {
        result, failed := CheckAndReport(ep, sch);
      }
      Joined(old(cluster.trace), [Fetch(true)], PlanFor(got.ep, sch));
    }

    method EnsureFinalizer(ep: Endpoint, sch: Schedule) returns (failed: bool)
      requires cluster.Valid() && !ep.ours && cluster.state.pc == AddingFinalizer(ep)
      requires cluster.state.server.obj == Some(ep) && !ep.deleting
      requires EnvironmentOnly(sch.before1)
      modifies cluster
      ensures cluster.Valid() && cluster.trace == old(cluster.trace) + PlanFor(ep, sch)
      ensures cluster.state.pc.Idle? && cluster.state.queued
      ensures sch.last != Answered ==> failed
      ensures Quiet(sch) ==> !failed
    {
      cluster.Interleave(sch.before1);
      failed := cluster.Update(ep.(ours := true), sch.last);
    }

    /** The rest of Reconcile, for a live endpoint that has our finalizer. */
    method CheckAndReport(endpoint: Endpoint, sch: Schedule) returns (result: Result, failed: bool)
      requires Ready() && cluster.state.pc == Checking(endpoint)
      requires EnvironmentOnly(sch.before1) && EnvironmentOnly(sch.before2) && EnvironmentOnly(sch.before3)
      modifies cluster, this`gauge
      ensures cluster.Valid() && cluster.trace == old(cluster.trace) + (ServePlan(sch) + ReportPlan(sch))
      ensures cluster.state.pc.Idle? && cluster.state.queued
      ensures failed <==> sch.service != Answered || sch.last != Answered
      ensures failed || ReportsHealth(endpoint, cluster.state, sch.health, result)
      ensures gauge ==
              if sch.service != Answered then old(gauge)
              else old(gauge)[(old(cluster.state.name), endpoint.spec.modelId) := sch.health.available]
    {
      var health, svcName;
      health, svcName, failed := CheckAndServe(endpoint, sch);
      if failed {
        Joined(old(cluster.trace), ServePlan(sch), []);
        return Result(false, REQUEUE_TRANSIENT), true;
      }
      gauge := gauge[(cluster.state.name, endpoint.spec.modelId) := health.available];
      failed := Report(endpoint, health, svcName, sch);
      Joined(old(cluster.trace), ServePlan(sch), ReportPlan(sch));
      result := if failed then DONE else HealthResult(health);
    }

    /** The status patch at the end. */
    method Report(base: Endpoint, health: Health, svcName: string, sch: Schedule) returns (failed: bool)
      requires cluster.Valid() && cluster.state.pc.Reporting? && cluster.state.pc.copy == base
      requires health == cluster.state.pc.health && svcName == ServiceName(cluster.state)
      requires EnvironmentOnly(sch.before3) && sch.service == Answered
      modifies cluster
      ensures cluster.Valid() && cluster.trace == old(cluster.trace) + ReportPlan(sch)
      ensures cluster.state.pc.Idle? && cluster.state.queued
      ensures failed <==> sch.last != Answered
      ensures !failed ==> ReportsHealth(base, cluster.state, health, HealthResult(health))
    {
      var ep := base;
      var conditions := ConditionsFor(ep, health, sch);
      UpsertSays(Upsert(ep.status.conditions, ReachableCondition(health, sch.reachableAt)),
                 ReadyCondition(health, sch.readyAt), REACHABLE);
      UpsertSays(ep.status.conditions, ReachableCondition(health, sch.reachableAt), REACHABLE);
      ep := ep.(status := Status(health.available, svcName, conditions, ep.generation));
      cluster.Interleave(sch.before3);
      failed := cluster.StatusPatch(ep, base, sch);
    }

    /** The health check, then the Service. */
    method CheckAndServe(ep: Endpoint, sch: Schedule) returns (health: Health, svcName: string, err: bool)
      requires Ready() && cluster.state.pc == Checking(ep)
      requires EnvironmentOnly(sch.before1) && EnvironmentOnly(sch.before2)
      modifies cluster
      ensures cluster.Valid() && cluster.trace == old(cluster.trace) + ServePlan(sch)
      ensures health == sch.health && cluster.state.name == old(cluster.state.name)
      ensures err <==> sch.service != Answered
      ensures err ==> cluster.state.pc.Idle? && cluster.state.queued
      ensures !err ==>
                && svcName == ServiceName(cluster.state)
                && cluster.state.pc.Reporting? && cluster.state.pc.copy == ep && cluster.state.pc.health == health
    {
      cluster.Interleave(sch.before1);
      health := cluster.CheckHealth(ep, sch.health);
      svcName, err := ReconcileServiceOf(sch);
      Appended(old(cluster.trace), sch.before1, HealthCheck(sch.health), sch.before2, ReconcileService(sch.service));
    }

    method ReconcileServiceOf(sch: Schedule) returns (svcName: string, err: bool)
      requires Ready() && cluster.state.pc.Serving?
      requires EnvironmentOnly(sch.before2)
      modifies cluster
      ensures cluster.Valid() && cluster.trace == old(cluster.trace) + sch.before2 + [ReconcileService(sch.service)]
      ensures cluster.state.name == old(cluster.state.name)
      ensures err <==> sch.service != Answered
      ensures err ==> cluster.state.pc.Idle? && cluster.state.queued
      ensures !err ==>
                && svcName == "model-" + cluster.state.name.name
                && cluster.state.service.Some?
                && ('.' !in proxyServiceName ==>
                      LeadsToProxy(cluster.state.service.value, proxyServiceName, proxyNamespace))
                && cluster.state.pc
                   == Reporting(old(cluster.state).pc.copy, old(cluster.state).pc.health, old(cluster.state).pc.check)
    {
      cluster.Interleave(sch.before2);
      svcName := "model-" + cluster.state.name.name;
      var desired := ServiceSpec("ExternalName", proxyServiceName + "." + proxyNamespace + ".svc.cluster.local",
                                 [ServicePort("proxy", PROXY_PORT, PROXY_PORT)]);
      DesiredLeadsToProxy(cluster.state);
      err := cluster.CreateOrUpdate(desired, sch.service);
    }

    /** The gauge series and the cached clients go first, then our finalizer. */
    method HandleDeletion(ep: Endpoint, sch: Schedule) returns (failed: bool)
      requires cluster.Valid() && bedrock.Valid()
      requires cluster.state.pc == if ep.ours then RemovingFinalizer(ep) else Idle
      requires cluster.state.server.obj == Some(ep) && ep.deleting
      requires EnvironmentOnly(sch.before1)
      modifies cluster, this`gauge, bedrock, bedrock.mu
      ensures cluster.Valid() && cluster.trace == old(cluster.trace) + PlanFor(ep, sch)
      ensures cluster.state.pc.Idle?
      ensures if failed then cluster.state.queued else Released(cluster.state)
      ensures ep.ours && sch.last != Answered ==> failed
      ensures Quiet(sch) ==> !failed
      ensures gauge == if ep.ours then old(gauge) - {(old(cluster.state.name), ep.spec.modelId)} else old(gauge)
      ensures bedrock.Valid()
      ensures var key := ClientCache.Key(ep.spec.roleArn, ep.spec.region);
              bedrock.Contents() ==
              if ep.ours then ClientCache.Tables(old(bedrock.runtime) - {key}, old(bedrock.control) - {key})
              else old(bedrock.Contents())
    {
      if !ep.ours {
        return false;
      }
      gauge := gauge - {(cluster.state.name, ep.spec.modelId)};
      bedrock.InvalidateCache(ClientCache.Key(ep.spec.roleArn, ep.spec.region));
      cluster.Interleave(sch.before1);
      failed := cluster.Update(ep.(ours := false), sch.last);
    }
  }

  /** Both conditions, written from the one health check. */
  method ConditionsFor(ep: Endpoint, health: Health, sch: Schedule) returns (cs: seq<Condition>)
    ensures cs == Upsert(Upsert(ep.status.conditions, ReachableCondition(health, sch.reachableAt)),
                         ReadyCondition(health, sch.readyAt))
  {
    var conditions := new ConditionList(ep.status.conditions);
    conditions.SetCondition(ReachableCondition(health, sch.reachableAt));
    conditions.SetCondition(ReadyCondition(health, sch.readyAt));
    cs := conditions.items;
  }
}
