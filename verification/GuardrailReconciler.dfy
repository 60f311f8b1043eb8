/** The reconciler as it is written: local variables, early returns, one call after another.
    Its contract says that whatever the calls answer and whatever happens between them, an
    execution is a run of the protocol in GuardrailSync. */
module GuardrailReconciler {
  import opened ApiServer
  import opened Conditions
  import opened GuardrailConfig
  import opened GuardrailSync
  import opened GuardrailSafety
  import opened Requeue
  import opened Runs

  datatype Fetched = Found(gp: Policy) | NotFound | GetError

  /** What the outside world does during one reconcile: how each call ends and what happens
      before the first and the second call that follow the Get. */
  datatype Schedule = Schedule(
    getOk: bool,
    before1: seq<Action>,
    outcome1: Outcome,
    id: string,
    version: string,
    error: string,
    now: int,
    before2: seq<Action>,
    outcome2: Outcome
  )

  ghost predicate EnvironmentOnly(actions: seq<Action>) {
    forall i :: 0 <= i < |actions| ==> actions[i].Environment()
  }

  /** The two stores, reached only through calls. A call may be made only when it is the one
      the protocol is at, with the arguments the protocol expects. `trace` is everything that
      has happened since `start`. */
  class Cluster {
    ghost const start: State
    ghost var trace: seq<Action>
    var state: State

    constructor (state: State)
      requires Inv(state)
      ensures Valid() && this.state == state && trace == []
    {
      this.state, this.start, trace := state, state, [];
    }

    ghost predicate Valid()
      reads this
    {
      state == Run(Next, start, trace) && Inv(state)
    }

    method Step(a: Action)
      requires Valid()
      modifies this
      ensures Valid() && state == Next(old(state), a) && trace == old(trace) + [a]
    {
      KeepStep(state, a);
      RunSnoc(Next, start, trace, a);
      state, trace := Next(state, a), trace + [a];
    }

    /** Other parties take steps while the reconciler waits. */
    method Interleave(env: seq<Action>)
      requires Valid() && EnvironmentOnly(env)
      modifies this
      ensures Valid() && trace == old(trace) + env
      ensures state.pc == old(state.pc) && state.name == old(state.name)
      ensures forall id :: Fresh(old(state), id) ==> Fresh(state, id)
      ensures env == [] ==> state == old(state)
    {
      for i := 0 to |env|
        invariant Valid() && trace == old(trace) + env[..i]
        invariant state.pc == old(state.pc) && state.name == old(state.name)
        invariant forall id :: Fresh(old(state), id) ==> Fresh(state, id)
        invariant i == 0 ==> state == old(state)
      {
        Step(env[i]);
      }
      assert env[..|env|] == env;
    }

    method Get(ok: bool) returns (r: Fetched)
      requires Valid() && state.pc.Idle? && state.queued
      modifies this
      ensures Valid() && state == Next(old(state), Fetch(ok)) && trace == old(trace) + [Fetch(ok)]
      ensures r == if !ok then GetError
                   else if old(state).server.obj.None? then NotFound
                   else Found(old(state).server.obj.value)
    {
      r := if !ok then GetError else if state.server.obj.None? then NotFound else Found(state.server.obj.value);
      Step(Fetch(ok));
    }

    method Update(gp: Policy, outcome: Outcome) returns (err: bool)
      requires Valid()
      requires if gp.ours then state.pc == AddingFinalizer(gp.(ours := false))
               else state.pc.RemovingFinalizer? && state.pc.copy == gp.(ours := true)
      modifies this
      ensures Valid() && state.pc.Idle?
      ensures trace == old(trace) + [if gp.ours then AddFinalizer(outcome) else RemoveFinalizer(outcome)]
      ensures err <==> outcome != Answered || Conflicts(old(state).server, gp)
      ensures err ==> state.queued
      ensures !err ==> if gp.ours then state.queued else Released(state)
    {
      err := outcome != Answered || Conflicts(state.server, gp);
      if !gp.ours && !err {
        UpdateKeeps(state.server, state.pc.copy, false);
      }
      Step(if gp.ours then AddFinalizer(outcome) else RemoveFinalizer(outcome));
    }

    method CreateGuardrail(input: Config, sch: Schedule) returns (id: string, version: string, err: bool)
      requires Valid()
      requires state.pc.Syncing? && state.pc.copy.status.guardrailId == ""
      requires input == Translate(state.name, state.pc.copy.spec)
      requires Fresh(state, sch.id)
      modifies this
      ensures Valid() && trace == old(trace) + [Sync(sch.outcome1, sch.id, sch.version, sch.error, sch.now)]
      ensures state.pc.Reporting? && state.pc.copy == old(state).pc.copy
      ensures Synced(state.pc.next) <==> !err
      ensures err ==> state.pc.next == FailureStatus(state.pc.copy, sch.error, sch.now)
      ensures !err ==> id == sch.id && version == sch.version
                       && state.pc.next == SuccessStatus(state.pc.copy, id, version, sch.now)
    {
      err := sch.outcome1 != Answered;
      id, version := if err then "" else sch.id, if err then "" else sch.version;
      ReportedStatus(state.pc.copy, if err then "" else sch.id, sch.version, sch.error, sch.now);
      Step(Sync(sch.outcome1, sch.id, sch.version, sch.error, sch.now));
    }

    method UpdateGuardrail(id: string, input: Config, sch: Schedule) returns (version: string, err: bool)
      requires Valid()
      requires state.pc.Syncing? && state.pc.copy.status.guardrailId == id && id != ""
      requires input == Translate(state.name, state.pc.copy.spec)
      modifies this
      ensures Valid() && trace == old(trace) + [Sync(sch.outcome1, sch.id, sch.version, sch.error, sch.now)]
      ensures state.pc.Reporting? && state.pc.copy == old(state).pc.copy
      ensures Synced(state.pc.next) <==> !err
      ensures err ==> state.pc.next == FailureStatus(state.pc.copy, sch.error, sch.now)
      ensures !err ==> version == sch.version
                       && state.pc.next == SuccessStatus(state.pc.copy, id, version, sch.now)
    {
      err := UpdateOutcome(state, state.pc.copy, sch.outcome1) != Answered;
      version := if err then "" else sch.version;
      ReportedStatus(state.pc.copy, id, sch.version, sch.error, sch.now);
      Step(Sync(sch.outcome1, sch.id, sch.version, sch.error, sch.now));
    }

    method StatusPatch(gp: Policy, base: Policy, outcome: Outcome) returns (err: bool)
      requires Valid()
      requires state.pc.Reporting? && state.pc.copy == base && state.pc.next == gp.status
      modifies this
      ensures Valid() && trace == old(trace) + [PatchStatus(outcome)]
      ensures state.pc.Idle? && state.queued
      ensures err <==> outcome != Answered
      ensures !err ==> state.server.obj.Some? && state.server.obj.value.status == gp.status
    {
      err := outcome != Answered;
      MergePatchOfDiff(base.status, gp.status);
      Step(PatchStatus(outcome));
    }

    method DeleteGuardrail(id: string, outcome: Outcome) returns (err: bool)
      requires Valid()
      requires state.pc.Deleting? && state.pc.copy.status.guardrailId == id
      modifies this
      ensures Valid() && trace == old(trace) + [DeleteRemote(outcome)]
      ensures state.pc.RemovingFinalizer? && state.pc.copy == old(state).pc.copy
      ensures state.server == old(state).server
    {
      err := outcome != Answered;
      Step(DeleteRemote(outcome));
    }
  }

  // ----- what one reconcile is meant to do -----

  /** Everything that happens during a reconcile that starts in `s`, in order. */
  function Plan(s: State, sch: Schedule): seq<Action> {
    if !sch.getOk || s.server.obj.None? then [Fetch(sch.getOk)]
    else [Fetch(true)] + PlanFor(s.server.obj.value, sch)
  }

  function PlanFor(gp: Policy, sch: Schedule): seq<Action> {
    if gp.deleting then DeletionPlan(gp, sch)
    else if !gp.ours then sch.before1 + [AddFinalizer(sch.outcome1)]
    else (sch.before1 + [SyncCall(sch)]) + (sch.before2 + [PatchStatus(sch.outcome2)])
  }

  function SyncCall(sch: Schedule): Action {
    Sync(sch.outcome1, sch.id, sch.version, sch.error, sch.now)
  }

  /** The guardrail goes before the finalizer does. */
  function DeletionPlan(gp: Policy, sch: Schedule): seq<Action> {
    if !gp.ours then []
    else (if gp.status.guardrailId != "" then sch.before1 + [DeleteRemote(sch.outcome1)] else [])
         + (sch.before2 + [RemoveFinalizer(sch.outcome2)])
  }

  /** How the last call to the API server ends; an error is the error of the reconcile. */
  function LastOutcome(s: State, sch: Schedule): Outcome {
    if !sch.getOk then Refused
    else if s.server.obj.None? then Answered
    else OutcomeFor(s.server.obj.value, sch)
  }

  function OutcomeFor(gp: Policy, sch: Schedule): Outcome {
    if gp.ours then sch.outcome2 else if gp.deleting then Answered else sch.outcome1
  }

  /** Nothing fails and nobody interferes. */
  predicate Quiet(sch: Schedule) {
    sch.getOk && sch.outcome1 == sch.outcome2 == Answered && sch.before1 == sch.before2 == []
  }

  /** Nobody interferes and the API server answers. An error of Bedrock is no error of the
      reconcile: a failed sync is reported, and a failed delete does not keep the finalizer. Only
      where the finalizer is added does the first call go to the API server. */
  predicate OnlyBedrockFails(read: Option<Policy>, sch: Schedule) {
    && sch.getOk && sch.outcome2 == Answered && sch.before1 == sch.before2 == []
    && (read.None? || read.value.ours || read.value.deleting || sch.outcome1 == Answered)
  }

  /** The result of a reconcile that returns no error, given the object that it read. */
  ghost predicate Concludes(read: Option<Policy>, after: State, sch: Schedule, result: Result) {
    if read.None? || read.value.deleting then result == DONE && Released(after)
    else if !read.value.ours then result == Result(true, 0)
    else ReportsSync(read.value, after, sch, result)
  }

  /** The persisted status is about the policy that was read and names what Bedrock answered, and
      the requeue interval goes by it: five minutes after a success, ten seconds after a failure. */
  ghost predicate ReportsSync(read: Policy, s: State, sch: Schedule, result: Result) {
    && s.server.obj.Some?
    && s.server.obj.value.status.observedGeneration == read.generation
    && Dated(read.status.conditions, s.server.obj.value.status.conditions, "GuardrailSynced", sch.now)
    && var st := s.server.obj.value.status;
    && if Synced(st) then
         && result == Result(false, 300)
         && st.guardrailId == (if read.status.guardrailId == "" then sch.id else read.status.guardrailId)
         && st.guardrailVersion == sch.version
         && Says(st.conditions, "GuardrailSynced", ConditionTrue, "Synced",
                 "guardrail " + st.guardrailId + " version " + st.guardrailVersion + " synced to Bedrock")
       else
         && result == Result(false, 10)
         && st.guardrailId == read.status.guardrailId && st.guardrailVersion == read.status.guardrailVersion
         && Says(st.conditions, "GuardrailSynced", ConditionFalse, "SyncFailed", sch.error)
  }

  lemma Appended(t: seq<Action>, a: seq<Action>, x: Action, b: seq<Action>, y: Action)
    ensures t + a + [x] + b + [y] == t + ((a + [x]) + (b + [y]))
    ensures t + b + [y] == t + ([] + (b + [y]))
    ensures t + a + [x] == t + (a + [x])
  {
  }

  /** A quiet reconcile ends where the convergence theorems say. */
  lemma QuietPlan(s: State, sch: Schedule)
    requires s.pc.Idle? && s.queued && Quiet(sch)
    ensures Run(Next, s, Plan(s, sch)) == GuardrailSafety.Reconcile(s, sch.id, sch.version, sch.error, sch.now)
  {
    var s1 := Next(s, Fetch(true));
    if s.server.obj.None? {
      Unrolled(Next, s, [Fetch(true)]);
    } else {
      var plan := PlanFor(s.server.obj.value, sch);
      assert ([Fetch(true)] + plan)[1..] == plan;
      Unrolled(Next, s1, plan);
      QuietRest(s1, sch, plan);
    }
  }

  lemma QuietRest(s: State, sch: Schedule, plan: seq<Action>)
    requires Quiet(sch)
    requires match s.pc
             case Idle => plan == []
             case AddingFinalizer(_) => plan == [AddFinalizer(Answered)]
             case Syncing(_) => plan == [SyncCall(sch), PatchStatus(Answered)]
             case Deleting(_) => plan == [DeleteRemote(Answered), RemoveFinalizer(Answered)]
             case RemovingFinalizer(_, _) => plan == [RemoveFinalizer(Answered)]
             case Reporting(_, _, _) => false
    ensures Finish(s, sch.id, sch.version, sch.error, sch.now) ==
            if plan == [] then s else if |plan| == 1 then Next(s, plan[0]) else Next(Next(s, plan[0]), plan[1])
  {
  }

  class Reconciler {
    const cluster: Cluster

    constructor (cluster: Cluster)
      ensures this.cluster == cluster
    {
      this.cluster := cluster;
    }

    /** Runs one reconcile. Exactly the planned calls are made; an error is an error of the
        API server, and after it the policy is queued again. */
    method Reconcile(sch: Schedule) returns (result: Result, failed: bool)
      requires cluster.Valid() && cluster.state.pc.Idle? && cluster.state.queued
      requires EnvironmentOnly(sch.before1) && EnvironmentOnly(sch.before2)
      requires Fresh(cluster.state, sch.id)
      modifies cluster
      ensures cluster.Valid() && cluster.trace == old(cluster.trace) + Plan(old(cluster.state), sch)
      ensures cluster.state.pc.Idle?
      ensures failed || result != DONE ==> cluster.state.queued
      ensures !failed ==> LastOutcome(old(cluster.state), sch) == Answered
      ensures !failed ==> Concludes(old(cluster.state).server.obj, cluster.state, sch, result)
      ensures OnlyBedrockFails(old(cluster.state).server.obj, sch) ==> !failed
    {
      var got := cluster.Get(sch.getOk);
      if got.GetError? {
        return DONE, true;
      }
      if got.NotFound? {
        return DONE, false;
      }
      ghost var fetched := cluster.trace;
      var gp := got.gp;
      if gp.deleting {
        result, failed := HandleDeletion(gp, sch);
      } else if !gp.ours {
        gp := gp.(ours := true);
        cluster.Interleave(sch.before1);
        failed := cluster.Update(gp, sch.outcome1);
        Appended(fetched, sch.before1, AddFinalizer(sch.outcome1), [], Fetch(true));
        result := if failed then DONE else Result(true, 0);
      } else {
        result, failed := SyncPolicy(gp, sch);
      }
      Joined(old(cluster.trace), [Fetch(true)], PlanFor(got.gp, sch));
    }

    /** The rest of Reconcile, for a live policy that has our finalizer. */
    method SyncPolicy(policy: Policy, sch: Schedule) returns (result: Result, failed: bool)
      requires cluster.Valid() && cluster.state.pc == Syncing(policy)
      requires !policy.deleting && policy.ours
      requires EnvironmentOnly(sch.before1) && EnvironmentOnly(sch.before2)
      requires Fresh(cluster.state, sch.id)
      modifies cluster
      ensures cluster.Valid() && cluster.trace == old(cluster.trace) + PlanFor(policy, sch)
      ensures cluster.state.pc.Idle? && cluster.state.queued
      ensures failed <==> sch.outcome2 != Answered
      ensures failed || ReportsSync(policy, cluster.state, sch, result)
    {
      var base := policy;
      var gp := policy.(status := policy.status.(observedGeneration := policy.generation));
      var id, version, syncErr := SyncToBedrock(gp, base, sch);
      var conditions := new ConditionList(gp.status.conditions);
      if syncErr {
        conditions.SetCondition(FailedCondition(sch.error, sch.now));
        UpsertSays(gp.status.conditions, FailedCondition(sch.error, sch.now), SYNCED);
        gp := gp.(status := gp.status.(conditions := conditions.items));
      } else {
        conditions.SetCondition(SyncedCondition(id, version, sch.now));
        UpsertSays(gp.status.conditions, SyncedCondition(id, version, sch.now), SYNCED);
        gp := gp.(status := gp.status.(guardrailId := id, guardrailVersion := version, conditions := conditions.items));
      }

      cluster.Interleave(sch.before2);
      failed := cluster.StatusPatch(gp, base, sch.outcome2);
      Appended(old(cluster.trace), sch.before1, SyncCall(sch), sch.before2, PatchStatus(sch.outcome2));
      result := if failed then DONE else Result(false, if syncErr then REQUEUE_TRANSIENT else REQUEUE_STEADY_STATE);
    }

    /** Creates the guardrail, or updates the one on record. */
    method SyncToBedrock(gp: Policy, base: Policy, sch: Schedule) returns (id: string, version: string, err: bool)
      requires cluster.Valid() && cluster.state.pc == Syncing(base)
      requires gp == base.(status := base.status.(observedGeneration := base.generation))
      requires EnvironmentOnly(sch.before1)
      requires Fresh(cluster.state, sch.id)
      modifies cluster
      ensures cluster.Valid() && cluster.trace == old(cluster.trace) + sch.before1 + [SyncCall(sch)]
      ensures cluster.state.pc.Reporting? && cluster.state.pc.copy == base
      ensures cluster.state.pc.next ==
              if err then FailureStatus(base, sch.error, sch.now) else SuccessStatus(base, id, version, sch.now)
      ensures Synced(cluster.state.pc.next) <==> !err
      ensures !err ==> version == sch.version
                       && id == if gp.status.guardrailId == "" then sch.id else gp.status.guardrailId
    {
      cluster.Interleave(sch.before1);
      var input := BuildInput(cluster.state.name, gp.spec);
      if gp.status.guardrailId == "" {
        id, version, err := cluster.CreateGuardrail(input, sch);
      } else {
        id := gp.status.guardrailId;
        version, err := cluster.UpdateGuardrail(id, input, sch);
      }
    }

    /** The guardrail is deleted, whether or not that fails, and then our finalizer goes. */
    method HandleDeletion(gp: Policy, sch: Schedule) returns (result: Result, failed: bool)
      requires cluster.Valid()
      requires cluster.state.pc ==
               if !gp.ours then Idle
               else if gp.status.guardrailId != "" then Deleting(gp)
               else RemovingFinalizer(gp, false)
      requires cluster.state.server.obj == Some(gp) && gp.deleting
      requires EnvironmentOnly(sch.before1) && EnvironmentOnly(sch.before2)
      modifies cluster
      ensures cluster.Valid() && cluster.trace == old(cluster.trace) + DeletionPlan(gp, sch)
      ensures cluster.state.pc.Idle? && result == DONE
      ensures if failed then cluster.state.queued else Released(cluster.state)
      ensures gp.ours && sch.outcome2 != Answered ==> failed
      ensures sch.before1 == sch.before2 == [] && sch.outcome2 == Answered ==> !failed
    {
      if !gp.ours {
        return DONE, false;
      }
      if gp.status.guardrailId != "" {
        cluster.Interleave(sch.before1);
        var err := cluster.DeleteGuardrail(gp.status.guardrailId, sch.outcome1);
      }
      cluster.Interleave(sch.before2);
      failed := cluster.Update(gp.(ours := false), sch.outcome2);
      Appended(old(cluster.trace), sch.before1, DeleteRemote(sch.outcome1), sch.before2, RemoveFinalizer(sch.outcome2));
      result := DONE;
    }
  }
}
