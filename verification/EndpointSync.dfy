/** The ModelEndpoint reconciler as a protocol over the API server, the Service it owns and
    the Bedrock control plane, together with the proxy that reads its status. As in
    GuardrailSync, an action that does not apply leaves the state as it is. */
module EndpointSync {
  import opened ApiServer
  import opened Conditions
  import opened Runs

  const READY := "Ready"
  const REACHABLE := "BedrockReachable"
  const PROXY_PORT := 8090

  datatype Name = Name(namespace: string, name: string)

  datatype Spec = Spec(modelId: string, region: string, roleArn: string, maxTokens: Option<int>,
                       requestsPerMinute: Option<int>)

  datatype Health = Health(available: bool, reason: string, message: string)

  datatype Status = Status(available: bool, serviceName: string, conditions: seq<Condition>, observedGeneration: nat)

  const BLANK := Status(false, "", [], 0)

  type Endpoint = Object<Spec, Status>

  datatype ServicePort = ServicePort(name: string, port: int, targetPort: int)

  datatype ServiceSpec = ServiceSpec(kind: string, externalName: string, ports: seq<ServicePort>)

  datatype Pc =
    | Idle
    | AddingFinalizer(copy: Endpoint)
    | Checking(copy: Endpoint)
    | Serving(copy: Endpoint, health: Health, check: nat)
    | Reporting(copy: Endpoint, health: Health, check: nat)
    | RemovingFinalizer(copy: Endpoint)

  /** What Bedrock gets to see: health checks by the reconciler, invocations by the proxy. */
  datatype Event =
    | Checked(uid: nat, generation: nat, spec: Spec, health: Health)
    | Invoked(uid: nat, generation: nat, spec: Spec, observedGeneration: nat)

  /** One status patch that landed: the check it reports and the two clock readings it used. */
  datatype Report = Report(check: nat, generation: nat, health: Health, reachableAt: int, readyAt: int)

  /** `log` and `reports` are history; no code reads them. `reports` belongs to the current
      incarnation of the object. */
  datatype State = State(
    name: Name,
    proxyService: string,
    proxyNamespace: string,
    server: Server<Spec, Status>,
    service: Option<ServiceSpec>,
    pc: Pc,
    queued: bool,
    log: seq<Event>,
    reports: seq<Report>
  )

  datatype Action =
    // the environment
    | User(event: UserEvent<Spec>)
    | ServiceChanged(service: Option<ServiceSpec>)
    | Enqueue
    | Crash
    | Serve
    // the reconciler
    | Fetch(ok: bool)
    | AddFinalizer(outcome: Outcome)
    | HealthCheck(health: Health)
    | ReconcileService(outcome: Outcome)
    | PatchStatus(outcome: Outcome, reachableAt: int, readyAt: int)
    | RemoveFinalizer(outcome: Outcome)
  {
    predicate Environment() {
      User? || ServiceChanged? || Enqueue? || Serve?
    }
  }

  function ServiceName(s: State): string {
    "model-" + s.name.name
  }

  function Desired(s: State): ServiceSpec {
    ServiceSpec("ExternalName", s.proxyService + "." + s.proxyNamespace + ".svc.cluster.local",
                [ServicePort("proxy", PROXY_PORT, PROXY_PORT)])
  }

  function ReachableCondition(h: Health, now: int): Condition {
    Condition(REACHABLE, StatusOf(h.available), h.reason, h.message, now)
  }

  function ReadyCondition(h: Health, now: int): Condition {
    Condition(READY, StatusOf(h.available), h.reason, h.message, now)
  }

  function NextStatus(s: State, copy: Endpoint, h: Health, reachableAt: int, readyAt: int): Status {
    Status(h.available, ServiceName(s),
           Upsert(Upsert(copy.status.conditions, ReachableCondition(h, reachableAt)), ReadyCondition(h, readyAt)),
           copy.generation)
  }

  function Next(s: State, a: Action): State {
    match a
    case User(e) =>
      s.(server := Apply(s.server, e, BLANK), queued := true, reports := if s.server.obj.None? then [] else s.reports)
    case ServiceChanged(service) => s.(service := service, queued := s.queued || s.server.obj.Some?)
    case Enqueue => s.(queued := true)
    case Crash => s.(pc := Idle, queued := s.server.obj.Some?)
    case Serve =>
      if s.server.obj.None? || !s.server.obj.value.status.available then s
      else
        var ep := s.server.obj.value;
        s.(log := s.log + [Invoked(ep.uid, ep.generation, ep.spec, ep.status.observedGeneration)])
    case Fetch(ok) => if s.pc.Idle? && s.queued then FetchStep(s, ok) else s
    case AddFinalizer(o) =>
      if !s.pc.AddingFinalizer? then s
      else if o == Refused || Conflicts(s.server, s.pc.copy) then s.(pc := Idle, queued := true)
      else s.(server := Update(s.server, s.pc.copy, true), pc := Idle, queued := true)
    case HealthCheck(h) =>
      if !s.pc.Checking? then s
      else
        var ep := s.pc.copy;
        s.(log := s.log + [Checked(ep.uid, ep.generation, ep.spec, h)], pc := Serving(ep, h, |s.log|))
    case ReconcileService(o) =>
      if !s.pc.Serving? then s
      else if o == Refused then s.(pc := Idle, queued := true)
      else if o == Unanswered then s.(service := Some(Desired(s)), pc := Idle, queued := true)
      else s.(service := Some(Desired(s)), pc := Reporting(s.pc.copy, s.pc.health, s.pc.check))
    case PatchStatus(o, reachableAt, readyAt) =>
      if !s.pc.Reporting? then s
      else if o == Refused || s.server.obj.None? then s.(pc := Idle, queued := true)
      else
        s.(server := PutStatus(s.server, NextStatus(s, s.pc.copy, s.pc.health, reachableAt, readyAt)),
           reports := s.reports + [Report(s.pc.check, s.pc.copy.generation, s.pc.health, reachableAt, readyAt)],
           pc := Idle, queued := true)
    case RemoveFinalizer(o) =>
      if !s.pc.RemovingFinalizer? then s
      else if o == Refused || Conflicts(s.server, s.pc.copy) then s.(pc := Idle, queued := true)
      else s.(server := Update(s.server, s.pc.copy, false), pc := Idle, queued := s.queued || o == Unanswered)
  }

  function FetchStep(s: State, ok: bool): State {
    if !ok then s
    else if s.server.obj.None? then s.(queued := false)
    else
      var ep := s.server.obj.value;
      s.(queued := false,
         pc := if ep.deleting then (if ep.ours then RemovingFinalizer(ep) else Idle)
               else if !ep.ours then AddingFinalizer(ep)
               else Checking(ep))
  }

  function Init(name: Name, proxyService: string, proxyNamespace: string): State {
    State(name, proxyService, proxyNamespace, Server(None, 0, map[]), None, Idle, false, [], [])
  }

  // ----- the status as a fold over the landed reports -----

  function ReportedConditions(reports: seq<Report>): seq<Condition> {
    if reports == [] then []
    else
      var last := reports[|reports| - 1];
      Upsert(Upsert(ReportedConditions(reports[..|reports| - 1]), ReachableCondition(last.health, last.reachableAt)),
             ReadyCondition(last.health, last.readyAt))
  }

  function ReportedStatus(name: string, reports: seq<Report>): Status {
    if reports == [] then BLANK
    else
      var last := reports[|reports| - 1];
      Status(last.health.available, "model-" + name, ReportedConditions(reports), last.generation)
  }

  lemma ReportedSnoc(name: string, reports: seq<Report>, r: Report)
    ensures ReportedStatus(name, reports + [r]) ==
            Status(r.health.available, "model-" + name,
                   Upsert(Upsert(ReportedStatus(name, reports).conditions, ReachableCondition(r.health, r.reachableAt)),
                          ReadyCondition(r.health, r.readyAt)),
                   r.generation)
  {
    assert (reports + [r])[..|reports|] == reports;
  }

  /** The report that began the final unbroken run of the same availability. */
  function Flip(reports: seq<Report>): (r: nat)
    requires reports != []
    ensures r < |reports|
    ensures forall j :: r <= j < |reports| ==> reports[j].health.available == reports[|reports| - 1].health.available
    ensures r == 0 || reports[r - 1].health.available != reports[|reports| - 1].health.available
  {
    var n := |reports| - 1;
    if n == 0 || reports[n - 1].health.available != reports[n].health.available then n else Flip(reports[..n])
  }

  lemma {:induction false} ConditionsOfReports(reports: seq<Report>)
    requires reports != []
    ensures var cs := ReportedConditions(reports);
            var last := reports[|reports| - 1];
            && StatusIn(cs, READY) == StatusIn(cs, REACHABLE) == StatusOf(last.health.available)
            && SinceIn(cs, REACHABLE) == Some(reports[Flip(reports)].reachableAt)
            && SinceIn(cs, READY) == Some(reports[Flip(reports)].readyAt)
  {
    var n := |reports| - 1;
    var last, before := reports[n], reports[..n];
    var cs := ReportedConditions(before);
    var c1, c2 := ReachableCondition(last.health, last.reachableAt), ReadyCondition(last.health, last.readyAt);
    if before != [] {
      ConditionsOfReports(before);
    }
    UpsertStatus(cs, c1, READY);
    UpsertStatus(cs, c1, REACHABLE);
    UpsertSince(cs, c1, READY);
    UpsertSince(cs, c1, REACHABLE);
    UpsertStatus(Upsert(cs, c1), c2, READY);
    UpsertStatus(Upsert(cs, c1), c2, REACHABLE);
    UpsertSince(Upsert(cs, c1), c2, READY);
    UpsertSince(Upsert(cs, c1), c2, REACHABLE);
  }

  // ----- invariant -----

  ghost predicate IsCheck(s: State, check: nat, uid: nat, generation: nat, health: Health) {
    && check < |s.log|
    && generation in s.server.specs
    && s.log[check] == Checked(uid, generation, s.server.specs[generation], health)
  }

  ghost predicate ObjectOk(s: State) {
    s.server.obj.Some? ==>
      && s.server.obj.value.status == ReportedStatus(s.name.name, s.reports)
      && forall i :: 0 <= i < |s.reports| ==>
           var r := s.reports[i];
           r.generation > 0 && IsCheck(s, r.check, s.server.obj.value.uid, r.generation, r.health)
  }

  ghost predicate PcOk(s: State) {
    match s.pc
    case Idle => true
    case AddingFinalizer(c) => ReadFrom(s.server, c) && !c.deleting
    case Checking(c) => Holds(s.server, c) && !c.deleting
    case Serving(c, h, check) => Holds(s.server, c) && !c.deleting && IsCheck(s, check, c.uid, c.generation, h)
    case Reporting(c, h, check) => Holds(s.server, c) && !c.deleting && IsCheck(s, check, c.uid, c.generation, h)
    case RemovingFinalizer(c) => Holds(s.server, c) && c.deleting
  }

  ghost predicate Positive(s: State) {
    s.server.obj.Some? ==> s.server.obj.value.generation > 0 && forall g :: g in s.server.specs ==> g > 0
  }

  /** A check that found this incarnation of the endpoint available, at the generation that
      the status seen by the proxy was about. */
  predicate Justifies(check: Event, invocation: Event) {
    && check.Checked? && invocation.Invoked?
    && check.health.available
    && check.uid == invocation.uid
    && check.generation == invocation.observedGeneration
  }

  /** The same, of the spec that was invoked if that still was of this generation. */
  predicate Covers(check: Event, invocation: Event) {
    Justifies(check, invocation) && (check.generation == invocation.generation ==> check.spec == invocation.spec)
  }

  ghost predicate Justified(log: seq<Event>) {
    forall k :: 0 <= k < |log| && log[k].Invoked? ==> exists j :: 0 <= j < k && Covers(log[j], log[k])
  }

  ghost predicate Attended(s: State) {
    s.server.obj.Some? && (!s.server.obj.value.deleting || s.server.obj.value.ours) ==> s.queued || !s.pc.Idle?
  }

  ghost predicate Inv(s: State) {
    Sound(s.server) && Positive(s) && ObjectOk(s) && PcOk(s) && Justified(s.log) && Attended(s)
  }

  lemma KeepUser(s: State, e: UserEvent<Spec>)
    requires Inv(s)
    ensures Inv(Next(s, User(e)))
  {
    UserEvolves(s.server, e, BLANK);
    if !s.pc.Idle? {
      UserKeeps(s.server, e, BLANK, s.pc.copy);
    }
    KeepEvolution(s, Apply(s.server, e, BLANK));
  }

  lemma KeepEvolution(s: State, sv: Server<Spec, Status>)
    requires Inv(s) && Evolves(s.server, sv, BLANK)
    requires !s.pc.Idle? && ReadFrom(s.server, s.pc.copy) ==> ReadFrom(sv, s.pc.copy)
    requires !s.pc.Idle? && Holds(s.server, s.pc.copy) ==> Holds(sv, s.pc.copy)
    ensures Inv(s.(server := sv, queued := true, reports := if s.server.obj.None? then [] else s.reports))
  {
  }

  lemma KeepFetch(s: State, ok: bool)
    requires Inv(s)
    ensures Inv(Next(s, Fetch(ok)))
  {
  }

  lemma KeepService(s: State, o: Outcome)
    requires Inv(s)
    ensures Inv(Next(s, ReconcileService(o)))
  {
  }

  lemma JustifiedSnoc(log: seq<Event>, e: Event)
    requires Justified(log)
    requires e.Invoked? ==> exists j :: 0 <= j < |log| && Covers(log[j], e)
    ensures Justified(log + [e])
  {
    var log' := log + [e];
    forall k | 0 <= k < |log'| && log'[k].Invoked? ensures exists j :: 0 <= j < k && Covers(log'[j], log'[k]) {
      var j :| 0 <= j < k && j < |log| && Covers(log[j], log'[k]);
      assert Covers(log'[j], log'[k]);
    }
  }

  lemma KeepCheck(s: State, h: Health)
    requires Inv(s)
    ensures Inv(Next(s, HealthCheck(h)))
  {
    if s.pc.Checking? {
      JustifiedSnoc(s.log, Checked(s.pc.copy.uid, s.pc.copy.generation, s.pc.copy.spec, h));
    }
  }

  lemma KeepServe(s: State)
    requires Inv(s)
    ensures Inv(Next(s, Serve))
  {
    if s.server.obj.Some? && s.server.obj.value.status.available {
      var r := s.reports[|s.reports| - 1];
      var ep := s.server.obj.value;
      var e := Invoked(ep.uid, ep.generation, ep.spec, ep.status.observedGeneration);
      assert Covers(s.log[r.check], e);
      JustifiedSnoc(s.log, e);
    }
  }

  lemma KeepPatch(s: State, a: Action)
    requires Inv(s) && a.PatchStatus?
    ensures Inv(Next(s, a))
  {
    var s' := Next(s, a);
    if s.pc.Reporting? && a.outcome != Refused {
      var r := Report(s.pc.check, s.pc.copy.generation, s.pc.health, a.reachableAt, a.readyAt);
      assert s'.reports == s.reports + [r];
      ReportedSnoc(s.name.name, s.reports, r);
      assert s.pc.copy.status == ReportedStatus(s.name.name, s.reports);
      assert s'.server.obj.value.status == ReportedStatus(s.name.name, s'.reports);
      assert IsCheck(s', r.check, s'.server.obj.value.uid, r.generation, r.health);
    }
  }

  lemma KeepFinalizer(s: State, a: Action)
    requires Inv(s)
    requires a.AddFinalizer? || a.RemoveFinalizer?
    ensures Inv(Next(s, a))
  {
    if (s.pc.AddingFinalizer? || s.pc.RemovingFinalizer?) && !Conflicts(s.server, s.pc.copy) {
      UpdateKeeps(s.server, s.pc.copy, s.pc.AddingFinalizer?);
    }
  }

  lemma KeepStep(s: State, a: Action)
    requires Inv(s)
    ensures Inv(Next(s, a))
  {
    match a
    case User(e) => KeepUser(s, e);
    case Serve => KeepServe(s);
    case Fetch(ok) => KeepFetch(s, ok);
    case HealthCheck(h) => KeepCheck(s, h);
    case ReconcileService(o) => KeepService(s, o);
    case PatchStatus(_, _, _) => KeepPatch(s, a);
    case AddFinalizer(_) => KeepFinalizer(s, a);
    case RemoveFinalizer(_) => KeepFinalizer(s, a);
    case _ =>
  }

  lemma KeepRun(s: State, actions: seq<Action>)
    requires Inv(s)
    ensures Inv(Run(Next, s, actions))
  {
    forall t: State, a: Action | Inv(t) ensures Inv(Next(t, a)) {
      KeepStep(t, a);
    }
    RunKeeps(Next, Inv, s, actions);
  }

  // ----- the reports follow the generations -----

  /** Reports never go back in generations, and none is ahead of the object or of the copy that
      is being worked on. */
  ghost predicate Chronological(s: State) {
    s.server.obj.Some? ==>
      && (forall i, j :: 0 <= i <= j < |s.reports| ==> s.reports[i].generation <= s.reports[j].generation)
      && (forall i :: 0 <= i < |s.reports| ==> s.reports[i].generation <= s.server.obj.value.generation)
      && (s.pc.Checking? || s.pc.Serving? || s.pc.Reporting? ==>
            forall i :: 0 <= i < |s.reports| ==> s.reports[i].generation <= s.pc.copy.generation)
  }

  lemma KeepChronological(s: State, a: Action)
    requires Inv(s) && Chronological(s)
    ensures Chronological(Next(s, a))
  {
    match a
    case User(e) =>
      UserEvolves(s.server, e, BLANK);
      ChronologicalAfter(s, Apply(s.server, e, BLANK));
    case AddFinalizer(_) => ChronologicalFinalizer(s, a);
    case RemoveFinalizer(_) => ChronologicalFinalizer(s, a);
    case PatchStatus(_, _, _) => ChronologicalPatch(s, a);
    case _ =>
  }

  lemma ChronologicalFinalizer(s: State, a: Action)
    requires Inv(s) && Chronological(s)
    requires a.AddFinalizer? || a.RemoveFinalizer?
    ensures Chronological(Next(s, a))
  {
    if (s.pc.AddingFinalizer? || s.pc.RemovingFinalizer?) && !Conflicts(s.server, s.pc.copy) {
      UpdateKeeps(s.server, s.pc.copy, s.pc.AddingFinalizer?);
    }
  }

  lemma ChronologicalPatch(s: State, a: Action)
    requires Inv(s) && Chronological(s) && a.PatchStatus?
    ensures Chronological(Next(s, a))
  {
  }

  lemma ChronologicalAfter(s: State, sv: Server<Spec, Status>)
    requires Inv(s) && Chronological(s) && Evolves(s.server, sv, BLANK)
    ensures Chronological(s.(server := sv, queued := true, reports := if s.server.obj.None? then [] else s.reports))
  {
  }
}
