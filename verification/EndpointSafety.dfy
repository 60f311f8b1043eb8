/** What holds in every run of the endpoint protocol. */
module EndpointSafety {
  import opened ApiServer
  import opened ClusterDns
  import opened Conditions
  import opened EndpointSync
  import opened Runs

  function Reach(name: Name, proxyService: string, proxyNamespace: string, actions: seq<Action>): State {
    Run(Next, Init(name, proxyService, proxyNamespace), actions)
  }

  lemma Reachable(name: Name, proxyService: string, proxyNamespace: string, actions: seq<Action>)
    ensures Inv(Reach(name, proxyService, proxyNamespace, actions))
  {
    KeepRun(Init(name, proxyService, proxyNamespace), actions);
  }

  /** Report `r` is about a health check of the spec that `generation` had. */
  ghost predicate FromCheck(s: State, r: Report) {
    && s.server.obj.Some?
    && r.check < |s.log|
    && r.generation in s.server.specs
    && s.log[r.check] == Checked(s.server.obj.value.uid, r.generation, s.server.specs[r.generation], r.health)
  }

  /** Untorn status: once a patch has landed, the available flag, Ready and BedrockReachable
      agree, all come from one health check of the spec at the observed generation, and both
      conditions are dated by the one reconcile that began the current run. */
  lemma UntornStatus(name: Name, proxyService: string, proxyNamespace: string, actions: seq<Action>)
    requires Reach(name, proxyService, proxyNamespace, actions).server.obj.Some?
    requires Reach(name, proxyService, proxyNamespace, actions).server.obj.value.status.observedGeneration > 0
    ensures var s := Reach(name, proxyService, proxyNamespace, actions);
            var st := s.server.obj.value.status;
            && s.reports != []
            && var last, flip := s.reports[|s.reports| - 1], s.reports[Flip(s.reports)];
            && FromCheck(s, last) && FromCheck(s, flip)
            && st.observedGeneration == last.generation
            && st.available == last.health.available == flip.health.available
            && StatusIn(st.conditions, "Ready") == StatusIn(st.conditions, "BedrockReachable")
            && StatusIn(st.conditions, "Ready") == (if st.available then ConditionTrue else ConditionFalse)
            && SinceIn(st.conditions, "BedrockReachable") == Some(flip.reachableAt)
            && SinceIn(st.conditions, "Ready") == Some(flip.readyAt)
  {
    var s := Reach(name, proxyService, proxyNamespace, actions);
    Reachable(name, proxyService, proxyNamespace, actions);
    ConditionsOfReports(s.reports);
  }

  /** Justified traffic: every invocation is preceded by a health check that found the
      endpoint available, made at the generation that the status seen by the proxy was about. */
  lemma JustifiedTraffic(name: Name, proxyService: string, proxyNamespace: string, actions: seq<Action>, k: nat)
    requires k < |Reach(name, proxyService, proxyNamespace, actions).log|
    requires Reach(name, proxyService, proxyNamespace, actions).log[k].Invoked?
    ensures var log := Reach(name, proxyService, proxyNamespace, actions).log;
            exists j :: 0 <= j < k && Justifies(log[j], log[k])
  {
    Reachable(name, proxyService, proxyNamespace, actions);
    var log := Reach(name, proxyService, proxyNamespace, actions).log;
    var j :| 0 <= j < k && Covers(log[j], log[k]);
  }

  /** When the status was about the generation that is invoked, the check was of the very spec
      that is invoked. */
  lemma JustifiedSpec(name: Name, proxyService: string, proxyNamespace: string, actions: seq<Action>, k: nat)
    requires k < |Reach(name, proxyService, proxyNamespace, actions).log|
    requires var e := Reach(name, proxyService, proxyNamespace, actions).log[k];
             e.Invoked? && e.observedGeneration == e.generation
    ensures var log := Reach(name, proxyService, proxyNamespace, actions).log;
            exists j :: 0 <= j < k && Justifies(log[j], log[k]) && log[j].spec == log[k].spec
  {
    Reachable(name, proxyService, proxyNamespace, actions);
    var log := Reach(name, proxyService, proxyNamespace, actions).log;
    var j :| 0 <= j < k && Covers(log[j], log[k]);
  }

  lemma ReachableInOrder(name: Name, proxyService: string, proxyNamespace: string, actions: seq<Action>)
    ensures var s := Reach(name, proxyService, proxyNamespace, actions); Inv(s) && Chronological(s)
  {
    var inv := (t: State) => Inv(t) && Chronological(t);
    forall t: State, a: Action | inv(t) ensures inv(Next(t, a)) {
      KeepStep(t, a);
      KeepChronological(t, a);
    }
    RunKeeps(Next, inv, Init(name, proxyService, proxyNamespace), actions);
  }

  /** Exactly when that guard holds: the observed generation is the current one if and only if
      some health check of the current spec has been reported. */
  lemma CurrentExactly(name: Name, proxyService: string, proxyNamespace: string, actions: seq<Action>)
    requires Reach(name, proxyService, proxyNamespace, actions).server.obj.Some?
    ensures var s := Reach(name, proxyService, proxyNamespace, actions);
            var o := s.server.obj.value;
            o.status.observedGeneration == o.generation
            <==> exists i ::
                   0 <= i < |s.reports| && s.reports[i].generation == o.generation && FromCheck(s, s.reports[i])
  {
    var s := Reach(name, proxyService, proxyNamespace, actions);
    ReachableInOrder(name, proxyService, proxyNamespace, actions);
    if s.reports != [] {
      var last := s.reports[|s.reports| - 1];
      assert FromCheck(s, last);
    }
  }

  /** The guard is needed: between an edit and the next reconcile the proxy invokes a model that
      no check has ever seen. */
  lemma TrafficAheadOfChecks(name: Name, proxyService: string, proxyNamespace: string, a: Spec, b: Spec, h: Health)
    requires a != b && h.available
    ensures var run := [User(Created(a)), Fetch(true), AddFinalizer(Answered), Fetch(true), HealthCheck(h),
                        ReconcileService(Answered), PatchStatus(Answered, 0, 0), User(Edited(b)), Serve];
            var log := Reach(name, proxyService, proxyNamespace, run).log;
            log == [Checked(0, 1, a, h), Invoked(0, 2, b, 1)]
  {
    var s0 := Init(name, proxyService, proxyNamespace);
    var create := [User(Created(a)), Fetch(true), AddFinalizer(Answered)];
    var check := [Fetch(true), HealthCheck(h), ReconcileService(Answered)];
    var edit := [PatchStatus(Answered, 0, 0), User(Edited(b)), Serve];
    CreatedAndChecked(s0, create, check, a, h);
    EditedAndServed(Run(Next, Run(Next, s0, create), check), edit, a, b, h);
    RunConcat(Next, s0, create, check + edit);
    RunConcat(Next, Run(Next, s0, create), check, edit);
    assert create + (check + edit)
           == [User(Created(a)), Fetch(true), AddFinalizer(Answered), Fetch(true), HealthCheck(h),
                                       ReconcileService(Answered), PatchStatus(Answered, 0, 0), User(Edited(b)), Serve];
  }

  /** Ready to report the first check of a new endpoint. */
  ghost predicate FirstCheck(s: State, a: Spec, h: Health) {
    && s.log == [Checked(0, 1, a, h)]
    && s.server.obj.Some? && s.server.obj.value.uid == 0 && s.server.obj.value.generation == 1
    && s.server.obj.value.spec == a
    && s.server.obj.value.ours && !s.server.obj.value.foreign && !s.server.obj.value.deleting
    && s.pc.Reporting? && s.pc.copy == s.server.obj.value && s.pc.health == h
  }

  lemma CreatedAndChecked(s: State, create: seq<Action>, check: seq<Action>, a: Spec, h: Health)
    requires s == Init(s.name, s.proxyService, s.proxyNamespace)
    requires create == [User(Created(a)), Fetch(true), AddFinalizer(Answered)]
    requires check == [Fetch(true), HealthCheck(h), ReconcileService(Answered)]
    ensures FirstCheck(Run(Next, Run(Next, s, create), check), a, h)
  {
    Unrolled(Next, s, create);
    Unrolled(Next, Run(Next, s, create), check);
  }

  lemma EditedAndServed(s: State, edit: seq<Action>, a: Spec, b: Spec, h: Health)
    requires FirstCheck(s, a, h) && a != b && h.available
    requires edit == [PatchStatus(Answered, 0, 0), User(Edited(b)), Serve]
    ensures Run(Next, s, edit).log == [Checked(0, 1, a, h), Invoked(0, 2, b, 1)]
  {
    Unrolled(Next, s, edit);
  }

  predicate Released(s: State) {
    s.server.obj.None? || (s.server.obj.value.deleting && !s.server.obj.value.ours)
  }

  lemma NoStalledEndpoint(name: Name, proxyService: string, proxyNamespace: string, actions: seq<Action>)
    ensures var s := Reach(name, proxyService, proxyNamespace, actions);
            !Released(s) ==> s.queued || !s.pc.Idle?
  {
    Reachable(name, proxyService, proxyNamespace, actions);
  }

  // ----- convergence -----

  /** The calls of a reconcile after its Get, all answered. */
  function Finish(s: State, h: Health, reachableAt: int, readyAt: int): State {
    Next(Next(Next(Next(Next(s, AddFinalizer(Answered)), HealthCheck(h)), ReconcileService(Answered)),
              PatchStatus(Answered, reachableAt, readyAt)), RemoveFinalizer(Answered))
  }

  function Reconcile(s: State, h: Health, reachableAt: int, readyAt: int): State {
    Finish(Next(s, Fetch(true)), h, reachableAt, readyAt)
  }

  ghost predicate Wanted(s: State) {
    s.server.obj.Some? && !s.server.obj.value.deleting
  }

  /** Callers of the Service are led to port 8090 of the proxy's own Service. */
  predicate LeadsToProxy(service: ServiceSpec, proxyService: string, proxyNamespace: string) {
    && service.kind == "ExternalName"
    && ServiceOf(service.externalName) == Some((proxyService, proxyNamespace))
    && service.ports == [ServicePort("proxy", 8090, 8090)]
  }

  lemma DesiredLeadsToProxy(s: State)
    ensures LeadsToProxy(Desired(s), s.proxyService, s.proxyNamespace) <==> '.' !in s.proxyService
  {
    ServiceRead(Desired(s).externalName, s.proxyService, s.proxyNamespace);
  }

  /** The Service is as desired and the status reports `available` for the current spec. */
  ghost predicate Converged(s: State, available: bool) {
    && s.pc.Idle? && s.queued
    && Wanted(s)
    && var o := s.server.obj.value;
    && o.ours
    && s.service == Some(Desired(s))
    && ('.' !in s.proxyService ==> LeadsToProxy(s.service.value, s.proxyService, s.proxyNamespace))
    && o.status.serviceName == "model-" + s.name.name
    && o.status.observedGeneration == o.generation
    && o.status.available == available
    && StatusIn(o.status.conditions, "Ready") == StatusIn(o.status.conditions, "BedrockReachable")
    && StatusIn(o.status.conditions, "Ready") == if available then ConditionTrue else ConditionFalse
  }

  /** Calls that do not apply are skipped, so Finish walks from one program point to the next. */
  lemma FinishWalks(s: State, h: Health, reachableAt: int, readyAt: int)
    ensures s.pc.Idle? ==> Finish(s, h, reachableAt, readyAt) == s
    ensures s.pc.AddingFinalizer? ==> Finish(s, h, reachableAt, readyAt) == Next(s, AddFinalizer(Answered))
    ensures s.pc.Checking? ==>
              Finish(s, h, reachableAt, readyAt) == Finish(Next(s, HealthCheck(h)), h, reachableAt, readyAt)
    ensures s.pc.Serving? ==>
              Finish(s, h, reachableAt, readyAt) == Finish(Next(s, ReconcileService(Answered)), h, reachableAt, readyAt)
    ensures s.pc.Reporting? ==>
              Finish(s, h, reachableAt, readyAt) == Next(s, PatchStatus(Answered, reachableAt, readyAt))
  {
  }

  /** The patch that ends a reconcile. */
  lemma FinishReporting(s: State, h: Health, reachableAt: int, readyAt: int)
    requires Inv(s) && Wanted(s) && s.pc.Reporting?
    ensures var s' := Finish(s, h, reachableAt, readyAt);
            && Inv(s') && s'.pc.Idle? && s'.queued && Wanted(s')
            && s'.server.obj.value
               == s.server.obj.value.(version := s.server.clock, status := s'.server.obj.value.status)
            && s'.service == s.service && s'.name == s.name && Desired(s') == Desired(s)
            && s'.reports == s.reports + [Report(s.pc.check, s.pc.copy.generation, s.pc.health, reachableAt, readyAt)]
  {
    FinishWalks(s, h, reachableAt, readyAt);
    KeepStep(s, PatchStatus(Answered, reachableAt, readyAt));
  }

  lemma FinishServing(s: State, h: Health, reachableAt: int, readyAt: int)
    requires Inv(s) && Wanted(s) && s.pc.Serving?
    ensures var s' := Finish(s, h, reachableAt, readyAt); Inv(s') && s'.pc.Idle? && Wanted(s')
  {
    FinishWalks(s, h, reachableAt, readyAt);
    KeepService(s, Answered);
    FinishReporting(Next(s, ReconcileService(Answered)), h, reachableAt, readyAt);
  }

  lemma FinishAdding(s: State)
    requires Inv(s) && Wanted(s) && s.pc.AddingFinalizer?
    ensures var s' := Next(s, AddFinalizer(Answered)); Inv(s') && s'.pc.Idle? && Wanted(s')
  {
    KeepFinalizer(s, AddFinalizer(Answered));
  }

  /** Whatever reconcile is in progress ends, and the endpoint is still wanted. */
  lemma FinishInProgress(s: State, h: Health, reachableAt: int, readyAt: int)
    requires Inv(s) && Wanted(s)
    ensures var s' := Finish(s, h, reachableAt, readyAt); Inv(s') && s'.pc.Idle? && Wanted(s')
  {
    FinishWalks(s, h, reachableAt, readyAt);
    match s.pc
    case Idle =>
    case AddingFinalizer(_) =>
      FinishAdding(s);
    case Checking(_) =>
      KeepCheck(s, h);
      FinishServing(Next(s, HealthCheck(h)), h, reachableAt, readyAt);
    case Serving(_, _, _) =>
      FinishServing(s, h, reachableAt, readyAt);
    case Reporting(_, _, _) =>
      FinishReporting(s, h, reachableAt, readyAt);
    case RemovingFinalizer(_) =>
  }

  /** The patch reports the health check that the reconcile made. */
  lemma FinishConverges(s: State, reachableAt: int, readyAt: int)
    requires Inv(s) && Wanted(s) && s.pc.Reporting?
    requires s.server.obj.value == s.pc.copy && s.service == Some(Desired(s))
    ensures Converged(Finish(s, s.pc.health, reachableAt, readyAt), s.pc.health.available)
  {
    FinishReporting(s, s.pc.health, reachableAt, readyAt);
    DesiredLeadsToProxy(Finish(s, s.pc.health, reachableAt, readyAt));
    ConditionsOfReports(Finish(s, s.pc.health, reachableAt, readyAt).reports);
  }

  lemma FinishChecking(s: State, h: Health, reachableAt: int, readyAt: int)
    requires Inv(s) && Wanted(s) && s.pc.Checking? && s.server.obj.value == s.pc.copy
    ensures var s' := Finish(s, h, reachableAt, readyAt);
            && Inv(s') && Converged(s', h.available)
            && s'.service == Some(Desired(s))
            && s'.reports == s.reports + [Report(|s.log|, s.pc.copy.generation, h, reachableAt, readyAt)]
  {
    var s2 := Next(s, HealthCheck(h));
    var s3 := Next(s2, ReconcileService(Answered));
    KeepStep(s, HealthCheck(h));
    KeepStep(s2, ReconcileService(Answered));
    FinishWalks(s, h, reachableAt, readyAt);
    FinishWalks(s2, h, reachableAt, readyAt);
    FinishReporting(s3, h, reachableAt, readyAt);
    FinishConverges(s3, reachableAt, readyAt);
  }

  /** One reconcile either adds the finalizer or converges. */
  lemma ReconcileOnce(s: State, h: Health, reachableAt: int, readyAt: int)
    requires Inv(s) && s.pc.Idle? && Wanted(s)
    ensures var s' := Reconcile(s, h, reachableAt, readyAt);
            && Inv(s') && s'.pc.Idle? && Wanted(s') && s'.server.obj.value.ours
            && (s.server.obj.value.ours ==>
                  && Converged(s', h.available)
                  && s'.service == Some(Desired(s))
                  && s'.reports == s.reports
                     + [Report(|s.log|, s.server.obj.value.generation, h, reachableAt, readyAt)])
  {
    var s1 := Next(s, Fetch(true));
    KeepStep(s, Fetch(true));
    if s.server.obj.value.ours {
      FinishChecking(s1, h, reachableAt, readyAt);
    } else {
      FinishWalks(s1, h, reachableAt, readyAt);
      KeepStep(s1, AddFinalizer(Answered));
    }
  }

  /** From any reachable state, once edits and faults stop, the reconcile in progress and two
      more bring finalizer, Service and status in line with the last health check. */
  lemma Converges(name: Name, proxyService: string, proxyNamespace: string, actions: seq<Action>,
                  h0: Health, h1: Health, h2: Health, t: int)
    requires Wanted(Reach(name, proxyService, proxyNamespace, actions))
    ensures var s := Reach(name, proxyService, proxyNamespace, actions);
            Converged(Reconcile(Reconcile(Finish(s, h0, t, t), h1, t, t), h2, t, t), h2.available)
  {
    var s := Reach(name, proxyService, proxyNamespace, actions);
    Reachable(name, proxyService, proxyNamespace, actions);
    FinishInProgress(s, h0, t, t);
    var s0 := Finish(s, h0, t, t);
    ReconcileOnce(s0, h1, t, t);
    ReconcileOnce(Reconcile(s0, h1, t, t), h2, t, t);
  }

  /** While checks keep giving the same answer, a converged endpoint keeps its conditions,
      their transition times included. */
  lemma StaysConverged(s: State, h: Health, reachableAt: int, readyAt: int)
    requires Inv(s) && Converged(s, h.available)
    ensures var s' := Reconcile(s, h, reachableAt, readyAt);
            && Inv(s') && Converged(s', h.available)
            && s'.service == s.service
            && SinceIn(s'.server.obj.value.status.conditions, READY)
               == SinceIn(s.server.obj.value.status.conditions, READY)
            && SinceIn(s'.server.obj.value.status.conditions, REACHABLE)
               == SinceIn(s.server.obj.value.status.conditions, REACHABLE)
  {
    ReconcileOnce(s, h, reachableAt, readyAt);
    assert s.reports != [];
    SameAnswer(s.reports, Report(|s.log|, s.server.obj.value.generation, h, reachableAt, readyAt));
  }

  lemma SameAnswer(reports: seq<Report>, r: Report)
    requires reports != [] && reports[|reports| - 1].health.available == r.health.available
    ensures SinceIn(ReportedConditions(reports + [r]), READY) == SinceIn(ReportedConditions(reports), READY)
    ensures SinceIn(ReportedConditions(reports + [r]), REACHABLE) == SinceIn(ReportedConditions(reports), REACHABLE)
  {
    ConditionsOfReports(reports);
    ConditionsOfReports(reports + [r]);
    assert (reports + [r])[..|reports|] == reports;
  }

  /** An endpoint being deleted loses our finalizer in one reconcile. */
  lemma TeardownInOne(s: State, h: Health, t: int)
    requires Inv(s) && s.pc.Idle?
    requires s.server.obj.Some? && s.server.obj.value.deleting && s.server.obj.value.ours
    ensures Reconcile(s, h, t, t).pc.Idle? && Released(Reconcile(s, h, t, t))
  {
    var s1 := Next(s, Fetch(true));
    KeepStep(s, Fetch(true));
    UpdateKeeps(s1.server, s1.pc.copy, false);
  }
}
