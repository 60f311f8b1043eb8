/** PromptTemplateReconciler as it is written, proved to be a run of TemplateSync. */
module TemplateReconciler {
  import opened ApiServer
  import opened Conditions
  import opened TemplateSync
  import opened TemplateSafety
  import opened Requeue
  import opened Runs

  datatype Fetched = Found(pt: Template) | Absent | GetError

  /** How each call of one reconcile ends and what others do before it. */
  datatype Schedule = Schedule(
    getOk: bool,
    endpointOk: bool,
    last: Outcome,
    validAt: int,
    readyAt: int,
    before1: seq<Action>,
    before2: seq<Action>
  )

  ghost predicate EnvironmentOnly(actions: seq<Action>) {
    forall i :: 0 <= i < |actions| ==> actions[i].Environment()
  }

  /** The API server, reached only through calls that the protocol is ready for. */
  class Cluster {
    ghost const start: State
    ghost var trace: seq<Action>
    var state: State

    constructor (state: State)
      requires Inv(state)
      ensures Valid() && this.state == state && trace == []
    {
      this.state, this.start, trace := state, state, [];
    }

    ghost predicate Valid()
      reads this
    {
      state == Run(Next, start, trace) && Inv(state)
    }

    method Step(a: Action)
      requires Valid()
      modifies this
      ensures Valid() && state == Next(old(state), a) && trace == old(trace) + [a]
    {
      KeepStep(state, a);
      RunSnoc(Next, start, trace, a);
      state, trace := Next(state, a), trace + [a];
    }

    method Interleave(env: seq<Action>)
      requires Valid() && EnvironmentOnly(env)
      modifies this
      ensures Valid() && trace == old(trace) + env
      ensures state.pc == old(state.pc) && state.parser == old(state.parser)
      ensures env == [] ==> state == old(state)
    {
      for i := 0 to |env|
        invariant Valid() && trace == old(trace) + env[..i]
        invariant state.pc == old(state.pc) && state.parser == old(state.parser)
        invariant i == 0 ==> state == old(state)
      {
        Step(env[i]);
      }
      assert env[..|env|] == env;
    }

    method Get(ok: bool) returns (r: Fetched)
      requires Valid() && state.pc.Idle? && state.queued
      modifies this
      ensures Valid() && state == Next(old(state), Fetch(ok)) && trace == old(trace) + [Fetch(ok)]
      ensures r == if !ok then GetError
                   else if old(state).server.obj.None? then Absent
                   else Found(old(state).server.obj.value)
    {
      r := if !ok then GetError else if state.server.obj.None? then Absent else Found(state.server.obj.value);
      Step(Fetch(ok));
    }

    method Update(pt: Template, outcome: Outcome) returns (err: bool)
      requires Valid()
      requires state.pc == if pt.ours then AddingFinalizer(pt.(ours := false)) else RemovingFinalizer(pt.(ours := true))
      modifies this
      ensures Valid() && state.pc.Idle?
      ensures trace == old(trace) + [if pt.ours then AddFinalizer(outcome) else RemoveFinalizer(outcome)]
      ensures err <==> outcome != Answered || Conflicts(old(state).server, pt)
      ensures err ==> state.queued
      ensures !err ==> if pt.ours then state.queued else Released(state)
    {
      err := outcome != Answered || Conflicts(state.server, pt);
      if !pt.ours && !err {
        UpdateKeeps(state.server, state.pc.copy, false);
      }
      Step(if pt.ours then AddFinalizer(outcome) else RemoveFinalizer(outcome));
    }

    /** Reads the endpoint of this name; an answer that it does not exist is no error. */
    method GetEndpoint(name: string, ok: bool) returns (r: Reading, err: bool)
      requires Valid() && state.pc.Validating? && name == state.pc.copy.spec.endpointRef
      modifies this
      ensures Valid() && trace == old(trace) + [ReadEndpoint(ok)]
      ensures state.parser == old(state.parser)
      ensures err <==> !ok
      ensures err ==> state.pc.Idle? && state.queued
      ensures !err ==> r == Read(state, name) && state.pc == Reporting(old(state).pc.copy, r)
    {
      r, err := Read(state, name), !ok;
      Step(ReadEndpoint(ok));
    }

    method StatusPatch(pt: Template, base: Template, sch: Schedule) returns (err: bool)
      requires Valid() && state.pc.Reporting? && state.pc.copy == base
      requires pt.status == NextStatus(base, state.parser(base.spec.template), state.pc.reading, sch.validAt,
                                       sch.readyAt)
      modifies this
      ensures Valid() && trace == old(trace) + [PatchStatus(sch.last, sch.validAt, sch.readyAt)]
      ensures state.pc.Idle? && state.queued
      ensures state.parser == old(state.parser)
      ensures err <==> sch.last != Answered
      ensures !err ==> state.server.obj.Some? && state.server.obj.value.status == pt.status
      ensures !err ==> state.last == Some(TemplateSync.Report(base.generation, state.parser(base.spec.template).None?,
                                                              old(state.pc.reading)))
    {
      err := sch.last != Answered;
      Step(PatchStatus(sch.last, sch.validAt, sch.readyAt));
    }
  }

  // ----- what one reconcile is meant to do -----

  /** Everything that happens during a reconcile that starts in `s`, in order. */
  function Plan(s: State, sch: Schedule): seq<Action> {
    if !sch.getOk || s.server.obj.None? then [Fetch(sch.getOk)]
    else [Fetch(true)] + PlanFor(s.server.obj.value, sch)
  }

  function PlanFor(pt: Template, sch: Schedule): seq<Action> {
    if pt.deleting then (if pt.ours then sch.before1 + [RemoveFinalizer(sch.last)] else [])
    else if !pt.ours then sch.before1 + [AddFinalizer(sch.last)]
    else (sch.before1 + [ReadEndpoint(sch.endpointOk)]) + ReportPlan(sch)
  }

  /** No status is written when the endpoint could not be read. */
  function ReportPlan(sch: Schedule): seq<Action> {
    if sch.endpointOk then sch.before2 + [PatchStatus(sch.last, sch.validAt, sch.readyAt)] else []
  }

  /** How the last call to the API server ends; an error is the error of the reconcile. */
  function LastOutcome(s: State, sch: Schedule): Outcome {
    if !sch.getOk then Refused
    else if s.server.obj.None? then Answered
    else OutcomeFor(s.server.obj.value, sch)
  }

  function OutcomeFor(pt: Template, sch: Schedule): Outcome {
    if pt.deleting then (if pt.ours then sch.last else Answered)
    else if pt.ours && !sch.endpointOk then Refused
    else sch.last
  }

  /** Nothing fails and nobody interferes. */
  predicate Quiet(sch: Schedule) {
    sch.getOk && sch.endpointOk && sch.last == Answered && sch.before1 == sch.before2 == []
  }

  /** The result of a reconcile that returns no error, given the object that it read. */
  ghost predicate Concludes(read: Option<Template>, after: State, sch: Schedule, result: Result) {
    if read.None? || read.value.deleting then result == DONE && Released(after)
    else if !read.value.ours then result == Result(true, 0)
    else ReportsReadiness(read.value, after, sch, result)
  }

  function ReadinessResult(endpointReady: bool): Result {
    Result(false, if endpointReady then REQUEUE_STEADY_STATE else REQUEUE_TRANSIENT)
  }

  /** The persisted status is about the template that was read: TemplateValid says what the
      parser answered, Ready says that and what was found of the endpoint, and the requeue
      interval follows the endpoint alone, five minutes or ten seconds. */
  ghost predicate ReportsReadiness(read: Template, s: State, sch: Schedule, result: Result) {
    && s.server.obj.Some? && s.last.Some?
    && s.last.value.generation == read.generation == s.server.obj.value.status.observedGeneration
    && var reading, error := s.last.value.reading, s.parser(read.spec.template);
    && s.last.value.valid == error.None?
    && result == Result(false, if reading.Available? then 300 else 10)
    && SaysValid(s.server.obj.value.status.conditions, error)
    && SaysReady(s.server.obj.value.status.conditions, error.None?, read.spec.endpointRef, reading)
    && Dated(read.status.conditions, s.server.obj.value.status.conditions, "TemplateValid", sch.validAt)
    && Dated(read.status.conditions, s.server.obj.value.status.conditions, "Ready", sch.readyAt)
  }

  predicate SaysValid(cs: seq<Condition>, error: Option<string>) {
    match error
    case None => Says(cs, "TemplateValid", ConditionTrue, "ParseCheck", "template syntax is valid")
    case Some(e) => Says(cs, "TemplateValid", ConditionFalse, "ParseCheck", "template syntax error: " + e)
  }

  predicate SaysReady(cs: seq<Condition>, valid: bool, name: string, r: Reading) {
    match r
    case NotFound => Says(cs, "Ready", ConditionFalse, "EndpointNotFound", "ModelEndpoint not found")
    case Unavailable =>
      Says(cs, "Ready", ConditionFalse, "EndpointUnavailable",
           "ModelEndpoint \"" + name + "\" exists but is not available")
    case Available(_, _, _) =>
      Says(cs, "Ready", if valid then ConditionTrue else ConditionFalse, "EndpointFound",
           "ModelEndpoint \"" + name + "\" is available")
  }

  /** The status of Report says what was found, under either kind. */
  lemma NextStatusSays(copy: Template, error: Option<string>, r: Reading, sch: Schedule)
    ensures var cs := NextStatus(copy, error, r, sch.validAt, sch.readyAt).conditions;
            && SaysValid(cs, error) && SaysReady(cs, error.None?, copy.spec.endpointRef, r)
            && Dated(copy.status.conditions, cs, "TemplateValid", sch.validAt)
            && Dated(copy.status.conditions, cs, "Ready", sch.readyAt)
  {
    var cs := copy.status.conditions;
    var c1 := ValidCondition(error, sch.validAt);
    var c2 := ReadyCondition(error.None?, copy.spec.endpointRef, r, sch.readyAt);
    UpsertSays(cs, c1, READY);
    UpsertSays(Upsert(cs, c1), c2, TEMPLATE_VALID);
    UpsertSince(cs, c1, READY);
    UpsertStatus(cs, c1, READY);
    UpsertSince(Upsert(cs, c1), c2, TEMPLATE_VALID);
    UpsertStatus(Upsert(cs, c1), c2, TEMPLATE_VALID);
  }

  lemma Appended(t: seq<Action>, a: seq<Action>, x: Action, more: seq<Action>)
    ensures t + a + [x] + more == t + ((a + [x]) + more)
  {
  }

  /** A quiet reconcile ends where the convergence theorems say. */
  lemma QuietPlan(s: State, sch: Schedule)
    requires s.pc.Idle? && s.queued && Quiet(sch)
    ensures Run(Next, s, Plan(s, sch)) == TemplateSafety.Reconcile(s, sch.validAt, sch.readyAt)
  {
    var s1 := Next(s, Fetch(true));
    if s.server.obj.None? {
      Unrolled(Next, s, [Fetch(true)]);
    } else {
      var plan := PlanFor(s.server.obj.value, sch);
      assert ([Fetch(true)] + plan)[1..] == plan;
      Unrolled(Next, s1, plan);
      QuietRest(s1, sch, plan);
    }
  }

  lemma QuietRest(s: State, sch: Schedule, plan: seq<Action>)
    requires Quiet(sch)
    requires match s.pc
             case Idle => plan == []
             case AddingFinalizer(_) => plan == [AddFinalizer(Answered)]
             case Validating(_) => plan == [ReadEndpoint(true), PatchStatus(Answered, sch.validAt, sch.readyAt)]
             case RemovingFinalizer(_) => plan == [RemoveFinalizer(Answered)]
             case Reporting(_, _) => false
    ensures Finish(s, sch.validAt, sch.readyAt) ==
            if plan == [] then s else if |plan| == 1 then Next(s, plan[0]) else Next(Next(s, plan[0]), plan[1])
  {
  }

  class Reconciler {
    const cluster: Cluster
    const parser: Parser

    constructor (cluster: Cluster, parser: Parser)
      ensures this.cluster == cluster && this.parser == parser
    {
      this.cluster, this.parser := cluster, parser;
    }

    /** Runs one reconcile. Exactly the planned calls are made; an error is an error of the
        API server, and after it the template is queued again. */
    method Reconcile(sch: Schedule) returns (result: Result, failed: bool)
      requires cluster.Valid() && cluster.state.parser == parser
      requires cluster.state.pc.Idle? && cluster.state.queued
      requires EnvironmentOnly(sch.before1) && EnvironmentOnly(sch.before2)
      modifies cluster
      ensures cluster.Valid() && cluster.trace == old(cluster.trace) + Plan(old(cluster.state), sch)
      ensures cluster.state.pc.Idle?
      ensures failed || result != DONE ==> cluster.state.queued
      ensures !failed ==> LastOutcome(old(cluster.state), sch) == Answered
      ensures !failed ==> Concludes(old(cluster.state).server.obj, cluster.state, sch, result)
      ensures Quiet(sch) ==> !failed
    {
      var got := cluster.Get(sch.getOk);
      if got.GetError? {
        return DONE, true;
      }
      if got.Absent? {
        return DONE, false;
      }
      var pt := got.pt;
      if pt.deleting {
        result, failed := DONE, false;
        if pt.ours {
          failed := UpdateFinalizer(pt.(ours := false), sch);
        }
      } else if !pt.ours {
        failed := UpdateFinalizer(pt.(ours := true), sch);
        result := if failed then DONE else Result(true, 0);
      } else {
        result, failed := ValidateAndReport(pt, sch);
      }
      Joined(old(cluster.trace), [Fetch(true)], PlanFor(got.pt, sch));
    }

    method UpdateFinalizer(pt: Template, sch: Schedule) returns (failed: bool)
      requires cluster.Valid() && EnvironmentOnly(sch.before1)
      requires cluster.state.pc
               == if pt.ours then AddingFinalizer(pt.(ours := false)) else RemovingFinalizer(pt.(ours := true))
      requires !Conflicts(cluster.state.server, pt)
      modifies cluster
      ensures cluster.Valid() && cluster.state.pc.Idle?
      ensures cluster.trace == old(cluster.trace)
              + (sch.before1 + [if pt.ours then AddFinalizer(sch.last) else RemoveFinalizer(sch.last)])
      ensures if failed || pt.ours then cluster.state.queued else Released(cluster.state)
      ensures sch.last != Answered ==> failed
      ensures Quiet(sch) ==> !failed
    {
      cluster.Interleave(sch.before1);
      failed := cluster.Update(pt, sch.last);
    }

    /** The rest of Reconcile, for a live template that has our finalizer. */
    method ValidateAndReport(base: Template, sch: Schedule) returns (result: Result, failed: bool)
      requires cluster.Valid() && cluster.state.parser == parser
      requires cluster.state.pc == Validating(base)
      requires EnvironmentOnly(sch.before1) && EnvironmentOnly(sch.before2)
      modifies cluster
      ensures cluster.Valid()
      ensures cluster.trace == old(cluster.trace) + ((sch.before1 + [ReadEndpoint(sch.endpointOk)]) + ReportPlan(sch))
      ensures cluster.state.pc.Idle? && cluster.state.queued
      ensures failed <==> !sch.endpointOk || sch.last != Answered
      ensures failed || ReportsReadiness(base, cluster.state, sch, result)
    {
      var error := parser(base.spec.template);
      cluster.Interleave(sch.before1);
      var reading, err := cluster.GetEndpoint(base.spec.endpointRef, sch.endpointOk);
      Appended(old(cluster.trace), sch.before1, ReadEndpoint(sch.endpointOk), ReportPlan(sch));
      if err {
        return DONE, true;
      }
      failed := Report(base, error, reading, sch);
      result := if failed then DONE else ReadinessResult(reading.Available?);
    }

    /** The status patch at the end. */
    method Report(base: Template, error: Option<string>, reading: Reading, sch: Schedule) returns (failed: bool)
      requires cluster.Valid() && cluster.state.pc == Reporting(base, reading)
      requires error == cluster.state.parser(base.spec.template)
      requires EnvironmentOnly(sch.before2) && sch.endpointOk
      modifies cluster
      ensures cluster.Valid() && cluster.trace == old(cluster.trace) + ReportPlan(sch)
      ensures cluster.state.pc.Idle? && cluster.state.queued
      ensures failed <==> sch.last != Answered
      ensures !failed ==> ReportsReadiness(base, cluster.state, sch, ReadinessResult(reading.Available?))
    {
      var pt := Conclude(base, error, reading, sch);
      cluster.Interleave(sch.before2);
      failed := cluster.StatusPatch(pt, base, sch);
      NextStatusSays(base, error, reading, sch);
    }
  }

  /** The new status of a template, field by field. */
  method Conclude(base: Template, error: Option<string>, reading: Reading, sch: Schedule) returns (pt: Template)
    ensures pt == base.(status := NextStatus(base, error, reading, sch.validAt, sch.readyAt))
  {
    pt := base.(status := base.status.(observedGeneration := base.generation));
    var templateValid, templateMsg := true, "template syntax is valid";
    if error.Some? {
      templateValid, templateMsg := false, "template syntax error: " + error.value;
    }
    var endpointReady, endpointMsg, endpointReason := Describe(base.spec.endpointRef, reading);
    var conditions := new ConditionList(pt.status.conditions);
    conditions.SetCondition(Condition(TEMPLATE_VALID, StatusOf(templateValid), "ParseCheck", templateMsg, sch.validAt));
    conditions.SetCondition(Condition(READY, StatusOf(templateValid && endpointReady), endpointReason, endpointMsg,
                                      sch.readyAt));
    pt := pt.(status := pt.status.(conditions := conditions.items));
  }

  method Describe(name: string, reading: Reading)
    returns (endpointReady: bool, endpointMsg: string, endpointReason: string)
    ensures endpointReady == reading.Available?
    ensures endpointMsg == Message(name, reading) && endpointReason == Reason(reading)
  {
    endpointReady, endpointMsg, endpointReason := false, "ModelEndpoint not found", "EndpointNotFound";
    if !reading.NotFound? {
      endpointReady, endpointReason := reading.Available?, "EndpointFound";
      if endpointReady {
        endpointMsg := "ModelEndpoint \"" + name + "\" is available";
      } else {
        endpointMsg := "ModelEndpoint \"" + name + "\" exists but is not available";
        endpointReason := "EndpointUnavailable";
      }
    }
  }
}
