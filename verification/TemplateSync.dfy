/** The PromptTemplate reconciler, run beside the endpoint protocols of its namespace: its
    Ready condition combines its own spec with the status that another reconciler wrote. */
module TemplateSync {
  import opened ApiServer
  import opened Conditions
  import E = EndpointSync
  import opened Runs

  const READY := "Ready"
  const TEMPLATE_VALID := "TemplateValid"

  datatype Spec = Spec(template: string, endpointRef: string)

  datatype Status = Status(conditions: seq<Condition>, observedGeneration: nat)

  const BLANK := Status([], 0)

  type Template = Object<Spec, Status>

  /** What the read of the referenced endpoint found. For an available one, which incarnation,
      the generation its status was about, and how many events its history had by then; that
      much is for the theorems and no code reads it. */
  datatype Reading = NotFound | Unavailable | Available(uid: nat, generation: nat, seen: nat)

  /** The text/template parser: the error, if there is one. */
  type Parser = string -> Option<string>

  /** A status patch that landed. */
  datatype Report = Report(generation: nat, valid: bool, reading: Reading)

  datatype Pc =
    | Idle
    | AddingFinalizer(copy: Template)
    | Validating(copy: Template)
    | Reporting(copy: Template, reading: Reading)
    | RemovingFinalizer(copy: Template)

  /** `endpoints` is every endpoint name of the namespace with its whole protocol state; `last`
      is history that no code reads. */
  datatype State = State(
    parser: Parser,
    endpoints: map<string, E.State>,
    server: Server<Spec, Status>,
    pc: Pc,
    queued: bool,
    last: Option<Report>
  )

  datatype Action =
    // the environment
    | Endpoint(name: string, action: E.Action)
    | User(event: UserEvent<Spec>)
    | Enqueue
    | Crash
    // the reconciler
    | Fetch(ok: bool)
    | AddFinalizer(outcome: Outcome)
    | ReadEndpoint(ok: bool)
    | PatchStatus(outcome: Outcome, validAt: int, readyAt: int)
    | RemoveFinalizer(outcome: Outcome)
  {
    predicate Environment() {
      Endpoint? || User? || Enqueue?
    }
  }

  function Read(s: State, name: string): Reading {
    if name !in s.endpoints || s.endpoints[name].server.obj.None? then NotFound
    else
      var ep := s.endpoints[name].server.obj.value;
      if ep.status.available then Available(ep.uid, ep.status.observedGeneration,
                                            |s.endpoints[name].log|) else Unavailable
  }

  function Reason(r: Reading): string {
    match r
    case NotFound => "EndpointNotFound"
    case Unavailable => "EndpointUnavailable"
    case Available(_, _, _) => "EndpointFound"
  }

  function Message(name: string, r: Reading): string {
    match r
    case NotFound => "ModelEndpoint not found"
    case Unavailable => "ModelEndpoint \"" + name + "\" exists but is not available"
    case Available(_, _, _) => "ModelEndpoint \"" + name + "\" is available"
  }

  function ValidCondition(error: Option<string>, now: int): Condition {
    Condition(TEMPLATE_VALID, StatusOf(error.None?), "ParseCheck",
              if error.None? then "template syntax is valid" else "template syntax error: " + error.value, now)
  }

  function ReadyCondition(valid: bool, name: string, r: Reading, now: int): Condition {
    Condition(READY, StatusOf(valid && r.Available?), Reason(r), Message(name, r), now)
  }

  function NextStatus(copy: Template, error: Option<string>, r: Reading, validAt: int, readyAt: int): Status {
    Status(Upsert(Upsert(copy.status.conditions, ValidCondition(error, validAt)),
                  ReadyCondition(error.None?, copy.spec.endpointRef, r, readyAt)),
           copy.generation)
  }

  function Next(s: State, a: Action): State {
    match a
    case Endpoint(name, action) =>
      if name !in s.endpoints then s
      else s.(endpoints := s.endpoints[name := E.Next(s.endpoints[name], action)])
    case User(e) =>
      s.(server := Apply(s.server, e, BLANK), queued := true, last := if s.server.obj.None? then None else s.last)
    case Enqueue => s.(queued := true)
    case Crash => s.(pc := Idle, queued := s.server.obj.Some?)
    case Fetch(ok) => if s.pc.Idle? && s.queued then FetchStep(s, ok) else s
    case AddFinalizer(o) =>
      if !s.pc.AddingFinalizer? then s
      else if o == Refused || Conflicts(s.server, s.pc.copy) then s.(pc := Idle, queued := true)
      else s.(server := Update(s.server, s.pc.copy, true), pc := Idle, queued := true)
    case ReadEndpoint(ok) =>
      if !s.pc.Validating? then s
      else if !ok then s.(pc := Idle, queued := true)
      else s.(pc := Reporting(s.pc.copy, Read(s, s.pc.copy.spec.endpointRef)))
    case PatchStatus(o, validAt, readyAt) =>
      if !s.pc.Reporting? then s
      else if o == Refused || s.server.obj.None? then s.(pc := Idle, queued := true)
      else
        var error := s.parser(s.pc.copy.spec.template);
        s.(server := PutStatus(s.server, NextStatus(s.pc.copy, error, s.pc.reading, validAt, readyAt)),
           last := Some(Report(s.pc.copy.generation, error.None?, s.pc.reading)),
           pc := Idle, queued := true)
    case RemoveFinalizer(o) =>
      if !s.pc.RemovingFinalizer? then s
      else if o == Refused || Conflicts(s.server, s.pc.copy) then s.(pc := Idle, queued := true)
      else s.(server := Update(s.server, s.pc.copy, false), pc := Idle, queued := s.queued || o == Unanswered)
  }

  function FetchStep(s: State, ok: bool): State {
    if !ok then s
    else if s.server.obj.None? then s.(queued := false)
    else
      var pt := s.server.obj.value;
      s.(queued := false,
         pc := if pt.deleting then (if pt.ours then RemovingFinalizer(pt) else Idle)
               else if !pt.ours then AddingFinalizer(pt)
               else Validating(pt))
  }

  function Init(parser: Parser, namespace: string, names: set<string>, proxyService: string,
                proxyNamespace: string): State {
    State(parser, map n | n in names ::
          E.Init(E.Name(namespace, n), proxyService, proxyNamespace), Server(None, 0, map[]), Idle, false, None)
  }

  // ----- invariant -----

  ghost predicate EndpointsOk(s: State) {
    forall n :: n in s.endpoints ==> E.Inv(s.endpoints[n])
  }

  /** Before it was read, a health check had found this incarnation of the endpoint called
      `name` available, at the generation its status was about. */
  ghost predicate SeenAvailable(s: State, name: string, r: Reading)
    requires r.Available?
  {
    && name in s.endpoints
    && exists k :: 0 <= k < |s.endpoints[name].log| && ChecksOut(s.endpoints[name].log[k], k, r)
  }

  predicate ChecksOut(e: E.Event, k: nat, r: Reading)
    requires r.Available?
  {
    k < r.seen && e.Checked? && e.health.available && e.uid == r.uid && e.generation == r.generation
  }

  ghost predicate ObjectOk(s: State) {
    s.server.obj.Some? ==>
      var st := s.server.obj.value.status;
      if s.last.None? then st == BLANK
      else
        var r := s.last.value;
        && st.observedGeneration == r.generation
        && r.generation in s.server.specs
        && r.valid == s.parser(s.server.specs[r.generation].template).None?
        && (r.reading.Available? ==> SeenAvailable(s, s.server.specs[r.generation].endpointRef, r.reading))
        && StatusIn(st.conditions, TEMPLATE_VALID) == StatusOf(r.valid)
        && StatusIn(st.conditions, READY) == StatusOf(r.valid && r.reading.Available?)
  }

  ghost predicate PcOk(s: State) {
    match s.pc
    case Idle => true
    case AddingFinalizer(c) => ReadFrom(s.server, c) && !c.deleting
    case Validating(c) => Holds(s.server, c) && !c.deleting
    case Reporting(c, r) =>
      Holds(s.server, c) && !c.deleting && (r.Available? ==> SeenAvailable(s, c.spec.endpointRef, r))
    case RemovingFinalizer(c) => Holds(s.server, c) && c.deleting
  }

  ghost predicate Attended(s: State) {
    s.server.obj.Some? && (!s.server.obj.value.deleting || s.server.obj.value.ours) ==> s.queued || !s.pc.Idle?
  }

  ghost predicate Inv(s: State) {
    Sound(s.server) && EndpointsOk(s) && ObjectOk(s) && PcOk(s) && Attended(s)
  }

  /** Endpoints forget nothing that Bedrock was asked. */
  lemma LogGrows(s: E.State, a: E.Action)
    ensures s.log <= E.Next(s, a).log
  {
  }

  lemma SeenStays(s: State, name: string, action: E.Action, seen: string, r: Reading)
    requires name in s.endpoints && r.Available?
    ensures SeenAvailable(s, seen, r) ==> SeenAvailable(Next(s, Endpoint(name, action)), seen, r)
  {
    LogGrows(s.endpoints[name], action);
    if SeenAvailable(s, seen, r) {
      var k :| 0 <= k < |s.endpoints[seen].log| && ChecksOut(s.endpoints[seen].log[k], k, r);
      assert Next(s, Endpoint(name, action)).endpoints[seen].log[k] == s.endpoints[seen].log[k];
    }
  }

  lemma KeepEndpoint(s: State, name: string, action: E.Action)
    requires Inv(s)
    ensures Inv(Next(s, Endpoint(name, action)))
  {
    if name in s.endpoints {
      E.KeepStep(s.endpoints[name], action);
      forall seen, r: Reading | r.Available?
        ensures SeenAvailable(s, seen, r) ==> SeenAvailable(Next(s, Endpoint(name, action)), seen, r)
      {
        SeenStays(s, name, action, seen, r);
      }
    }
  }

  lemma KeepUser(s: State, e: UserEvent<Spec>)
    requires Inv(s)
    ensures Inv(Next(s, User(e)))
  {
    UserEvolves(s.server, e, BLANK);
    if !s.pc.Idle? {
      UserKeeps(s.server, e, BLANK, s.pc.copy);
    }
    KeepEvolution(s, Apply(s.server, e, BLANK));
  }

  lemma KeepEvolution(s: State, sv: Server<Spec, Status>)
    requires Inv(s) && Evolves(s.server, sv, BLANK)
    requires !s.pc.Idle? && ReadFrom(s.server, s.pc.copy) ==> ReadFrom(sv, s.pc.copy)
    requires !s.pc.Idle? && Holds(s.server, s.pc.copy) ==> Holds(sv, s.pc.copy)
    ensures Inv(s.(server := sv, queued := true, last := if s.server.obj.None? then None else s.last))
  {
  }

  /** An endpoint whose status says available was found so by a health check. */
  lemma AvailableWasSeen(s: State, name: string)
    requires EndpointsOk(s) && Read(s, name).Available?
    ensures SeenAvailable(s, name, Read(s, name))
  {
    var ep := s.endpoints[name];
    var last := ep.reports[|ep.reports| - 1];
    assert ChecksOut(ep.log[last.check], last.check, Read(s, name));
  }

  lemma KeepRead(s: State, ok: bool)
    requires Inv(s)
    ensures Inv(Next(s, ReadEndpoint(ok)))
  {
    if s.pc.Validating? && Read(s, s.pc.copy.spec.endpointRef).Available? {
      AvailableWasSeen(s, s.pc.copy.spec.endpointRef);
    }
  }

  lemma KeepPatch(s: State, a: Action)
    requires Inv(s) && a.PatchStatus?
    ensures Inv(Next(s, a))
  {
    if s.pc.Reporting? {
      var error := s.parser(s.pc.copy.spec.template);
      var cs := s.pc.copy.status.conditions;
      var c1 := ValidCondition(error, a.validAt);
      var c2 := ReadyCondition(error.None?, s.pc.copy.spec.endpointRef, s.pc.reading, a.readyAt);
      UpsertStatus(cs, c1, TEMPLATE_VALID);
      UpsertStatus(Upsert(cs, c1), c2, TEMPLATE_VALID);
      UpsertStatus(Upsert(cs, c1), c2, READY);
    }
  }

  lemma KeepFinalizer(s: State, a: Action)
    requires Inv(s)
    requires a.AddFinalizer? || a.RemoveFinalizer?
    ensures Inv(Next(s, a))
  {
    if (s.pc.AddingFinalizer? || s.pc.RemovingFinalizer?) && !Conflicts(s.server, s.pc.copy) {
      UpdateKeeps(s.server, s.pc.copy, s.pc.AddingFinalizer?);
    }
  }

  lemma KeepStep(s: State, a: Action)
    requires Inv(s)
    ensures Inv(Next(s, a))
  {
    match a
    case Endpoint(name, action) => KeepEndpoint(s, name, action);
    case User(e) => KeepUser(s, e);
    case ReadEndpoint(ok) => KeepRead(s, ok);
    case PatchStatus(_, _, _) => KeepPatch(s, a);
    case AddFinalizer(_) => KeepFinalizer(s, a);
    case RemoveFinalizer(_) => KeepFinalizer(s, a);
    case _ =>
  }

  lemma KeepRun(s: State, actions: seq<Action>)
    requires Inv(s)
    ensures Inv(Run(Next, s, actions))
  {
    forall t: State, a: Action | Inv(t) ensures Inv(Next(t, a)) {
      KeepStep(t, a);
    }
    RunKeeps(Next, Inv, s, actions);
  }
}

/** What holds in every run of the template protocol. */
module TemplateSafety {
  import opened ApiServer
  import opened Conditions
  import opened TemplateSync
  import E = EndpointSync
  import opened Runs

  function Reach(parser: Parser, namespace: string, names: set<string>, proxyService: string, proxyNamespace: string,
                 actions: seq<Action>): State {
    Run(Next, Init(parser, namespace, names, proxyService, proxyNamespace), actions)
  }

  lemma Reachable(parser: Parser, namespace: string, names: set<string>, proxyService: string, proxyNamespace: string,
                  actions: seq<Action>)
    ensures Inv(Reach(parser, namespace, names, proxyService, proxyNamespace, actions))
  {
    KeepRun(Init(parser, namespace, names, proxyService, proxyNamespace), actions);
  }

  lemma {:induction false} ParserStays(s: State, actions: seq<Action>)
    ensures Run(Next, s, actions).parser == s.parser
    decreases |actions|
  {
    if actions != [] {
      ParserStays(Next(s, actions[0]), actions[1..]);
    }
  }

  /** A persisted Ready=True means that one reconcile, whose patch was the last to land, found
      the template of the observed generation valid and its endpoint available, and that before
      it read the endpoint a Bedrock health check had found that same incarnation available, at
      the generation the endpoint's status was about: through two reconcilers that share
      nothing but the endpoint's status. */
  lemma ReadyTemplate(parser: Parser, namespace: string, names: set<string>, proxyService: string,
                      proxyNamespace: string, actions: seq<Action>)
    requires Reach(parser, namespace, names, proxyService, proxyNamespace, actions).server.obj.Some?
    requires StatusIn(Reach(parser, namespace, names, proxyService, proxyNamespace,
                            actions).server.obj.value.status.conditions, "Ready") == ConditionTrue
    ensures var s := Reach(parser, namespace, names, proxyService, proxyNamespace, actions);
            var st := s.server.obj.value.status;
            && s.last.Some? && s.last.value.generation == st.observedGeneration
            && s.last.value.valid && s.last.value.reading.Available?
            && st.observedGeneration in s.server.specs
            && parser(s.server.specs[st.observedGeneration].template).None?
            && StatusIn(st.conditions, "TemplateValid") == ConditionTrue
            && SeenAvailable(s, s.server.specs[st.observedGeneration].endpointRef, s.last.value.reading)
  {
    Reachable(parser, namespace, names, proxyService, proxyNamespace, actions);
    ParserStays(Init(parser, namespace, names, proxyService, proxyNamespace), actions);
  }

  predicate Released(s: State) {
    s.server.obj.None? || (s.server.obj.value.deleting && !s.server.obj.value.ours)
  }

  lemma NoStalledTemplate(parser: Parser, namespace: string, names: set<string>, proxyService: string,
                          proxyNamespace: string, actions: seq<Action>)
    ensures var s := Reach(parser, namespace, names, proxyService, proxyNamespace, actions);
            !Released(s) ==> s.queued || !s.pc.Idle?
  {
    Reachable(parser, namespace, names, proxyService, proxyNamespace, actions);
  }

  /** The calls of a reconcile after its Get, all answered. */
  function Finish(s: State, validAt: int, readyAt: int): State {
    Next(Next(Next(Next(s, AddFinalizer(Answered)), ReadEndpoint(true)),
              PatchStatus(Answered, validAt, readyAt)), RemoveFinalizer(Answered))
  }

  function Reconcile(s: State, validAt: int, readyAt: int): State {
    Finish(Next(s, Fetch(true)), validAt, readyAt)
  }

  ghost predicate Wanted(s: State) {
    s.server.obj.Some? && !s.server.obj.value.deleting
  }

  /** An endpoint of this name exists and its status says available. */
  predicate AvailableNow(s: State, name: string) {
    && name in s.endpoints && s.endpoints[name].server.obj.Some?
    && s.endpoints[name].server.obj.value.status.available
  }

  /** Ready is true exactly when the template parses and the endpoint is available now. */
  ghost predicate Converged(s: State) {
    && s.pc.Idle? && s.queued
    && Wanted(s)
    && var o := s.server.obj.value;
    && o.ours
    && o.status.observedGeneration == o.generation
    && (StatusIn(o.status.conditions, "TemplateValid") == ConditionTrue <==> s.parser(o.spec.template).None?)
    && (StatusIn(o.status.conditions, "Ready") == ConditionTrue
        <==> s.parser(o.spec.template).None? && AvailableNow(s, o.spec.endpointRef))
  }

  lemma FinishWalks(s: State, validAt: int, readyAt: int)
    ensures s.pc.Idle? ==> Finish(s, validAt, readyAt) == s
    ensures s.pc.AddingFinalizer? ==> Finish(s, validAt, readyAt) == Next(s, AddFinalizer(Answered))
    ensures s.pc.Validating? ==> Finish(s, validAt, readyAt) == Finish(Next(s, ReadEndpoint(true)), validAt, readyAt)
    ensures s.pc.Reporting? ==> Finish(s, validAt, readyAt) == Next(s, PatchStatus(Answered, validAt, readyAt))
  {
  }

  lemma FinishReporting(s: State, validAt: int, readyAt: int)
    requires Inv(s) && Wanted(s) && s.pc.Reporting?
    ensures var s' := Finish(s, validAt, readyAt);
            && Inv(s') && s'.pc.Idle? && Wanted(s')
            && (s.server.obj.value == s.pc.copy && s.pc.reading == Read(s, s.pc.copy.spec.endpointRef)
                ==> Converged(s'))
  {
    FinishWalks(s, validAt, readyAt);
    KeepPatch(s, PatchStatus(Answered, validAt, readyAt));
    if s.server.obj.value == s.pc.copy {
      PatchReports(s, validAt, readyAt);
    }
  }

  lemma PatchReports(s: State, validAt: int, readyAt: int)
    requires Wanted(s) && s.pc.Reporting? && s.server.obj.value == s.pc.copy && Holds(s.server, s.pc.copy)
    requires ObjectOk(Next(s, PatchStatus(Answered, validAt, readyAt)))
    ensures s.pc.reading == Read(s, s.pc.copy.spec.endpointRef)
            ==> Converged(Next(s, PatchStatus(Answered, validAt, readyAt)))
  {
    var s' := Next(s, PatchStatus(Answered, validAt, readyAt));
    assert s'.last == Some(Report(s.pc.copy.generation, s.parser(s.pc.copy.spec.template).None?, s.pc.reading));
    assert s'.server.specs[s.pc.copy.generation] == s.pc.copy.spec;
  }

  /** Whatever reconcile is in progress ends, and the template is still wanted. */
  lemma FinishInProgress(s: State, validAt: int, readyAt: int)
    requires Inv(s) && Wanted(s)
    ensures var s' := Finish(s, validAt, readyAt);
            && Inv(s') && s'.pc.Idle? && Wanted(s')
            && (s.pc.AddingFinalizer? && s.server.obj.value == s.pc.copy ==> s'.server.obj.value.ours)
            && (s.pc.Validating? && s.server.obj.value == s.pc.copy ==> Converged(s'))
  {
    FinishWalks(s, validAt, readyAt);
    match s.pc
    case Idle =>
    case AddingFinalizer(_) =>
      KeepFinalizer(s, AddFinalizer(Answered));
    case Validating(_) =>
      KeepRead(s, true);
      FinishReporting(Next(s, ReadEndpoint(true)), validAt, readyAt);
    case Reporting(_, _) =>
      FinishReporting(s, validAt, readyAt);
    case RemovingFinalizer(_) =>
  }

  /** One reconcile either adds the finalizer or converges. */
  lemma ReconcileOnce(s: State, validAt: int, readyAt: int)
    requires Inv(s) && s.pc.Idle? && Wanted(s)
    ensures var s' := Reconcile(s, validAt, readyAt);
            && Inv(s') && s'.pc.Idle? && Wanted(s') && s'.server.obj.value.ours
            && (s.server.obj.value.ours ==> Converged(s'))
  {
    KeepStep(s, Fetch(true));
    FinishInProgress(Next(s, Fetch(true)), validAt, readyAt);
  }

  /** From any reachable state, once edits and faults stop, the reconcile in progress and two
      more bring both conditions in line with the spec and the endpoint. */
  lemma Converges(parser: Parser, namespace: string, names: set<string>, proxyService: string, proxyNamespace: string,
                  actions: seq<Action>, t: int)
    requires Wanted(Reach(parser, namespace, names, proxyService, proxyNamespace, actions))
    ensures var s := Reach(parser, namespace, names, proxyService, proxyNamespace, actions);
            Converged(Reconcile(Reconcile(Finish(s, t, t), t, t), t, t))
  {
    var s := Reach(parser, namespace, names, proxyService, proxyNamespace, actions);
    Reachable(parser, namespace, names, proxyService, proxyNamespace, actions);
    FinishInProgress(s, t, t);
    var s0 := Finish(s, t, t);
    ReconcileOnce(s0, t, t);
    ReconcileOnce(Reconcile(s0, t, t), t, t);
  }
}
