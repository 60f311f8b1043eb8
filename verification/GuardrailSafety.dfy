/** What holds in every run of the guardrail protocol. */
module GuardrailSafety {
  import opened ApiServer
  import opened Conditions
  import opened GuardrailConfig
  import opened GuardrailSync
  import opened Runs

  lemma KeepStep(s: State, a: Action)
    requires Inv(s)
    ensures Inv(Next(s, a))
  {
    match a
    case User(e) => KeepUser(s, e);
    case Fetch(ok) => KeepFetch(s, ok);
    case AddFinalizer(o) => KeepAddFinalizer(s, o);
    case Sync(o, id, version, error, now) => KeepSync(s, o, id, version, error, now);
    case PatchStatus(o) => KeepPatch(s, o);
    case DeleteRemote(o) => KeepDelete(s, o);
    case RemoveFinalizer(o) => KeepRemoveFinalizer(s, o);
    case _ => KeepEnvironment(s, a);
  }

  lemma KeepRun(s: State, actions: seq<Action>)
    requires Inv(s)
    ensures Inv(Run(Next, s, actions))
  {
    forall t: State, a: Action | Inv(t) ensures Inv(Next(t, a)) {
      KeepStep(t, a);
    }
    RunKeeps(Next, Inv, s, actions);
  }

  lemma Reachable(name: string, remote: map<string, Guardrail>, actions: seq<Action>)
    ensures Inv(Run(Next, Init(name, remote), actions))
  {
    KeepRun(Init(name, remote), actions);
  }

  function Reach(name: string, remote: map<string, Guardrail>, actions: seq<Action>): State {
    Run(Next, Init(name, remote), actions)
  }

  /** The guardrails created for the policy that Bedrock still holds. */
  function Live(s: State): set<string> {
    s.ledger.issued * s.remote.Keys
  }

  // ----- the ledger -----

  /** Every live guardrail created for the policy stands in exactly one column: recorded in
      the object, just created, its patch lost, its answer lost, or its deletion failed. */
  lemma GuardrailLedger(name: string, remote: map<string, Guardrail>, actions: seq<Action>)
    ensures var s := Reach(name, remote, actions);
            && Live(s) == (s.ledger.unrecorded + s.ledger.unanswered + s.ledger.abandoned + Inflight(s)
                           + Recorded(s)) * s.remote.Keys
            && s.ledger.unrecorded !! s.ledger.unanswered !! s.ledger.abandoned !! Inflight(s) !! Recorded(s)
  {
    Reachable(name, remote, actions);
  }

  /** The steps that lose track of a guardrail: the patch that was to record a new one does not
      land, the answer to a create is lost, or a guardrail that is still there is not deleted. */
  predicate Loses(s: State, a: Action) {
    match a
    case Crash => Inflight(s) != {}
    case PatchStatus(o) => o == Refused && Inflight(s) != {}
    case Sync(o, id, _, _, _) => o == Unanswered && s.pc.Syncing? && s.pc.copy.status.guardrailId == "" && Fresh(s, id)
    case DeleteRemote(o) => o == Refused && s.pc.Deleting? && s.pc.copy.status.guardrailId in s.remote
    case _ => false
  }

  /** How often that happens in a run. */
  function Losses(s: State, actions: seq<Action>): nat
    decreases |actions|
  {
    if actions == [] then 0 else (if Loses(s, actions[0]) then 1 else 0) + Losses(Next(s, actions[0]), actions[1..])
  }

  function Burden(s: State): nat {
    |s.ledger.unrecorded| + |s.ledger.unanswered| + |s.ledger.abandoned| + |Left(s)|
  }

  lemma OneMore<T>(a: set<T>, b: set<T>)
    ensures |a + b| <= |a| + |b|
    ensures b == {} ==> a + b == a
  {
    assert a + b == a + (b - a);
    assert b == (b - a) + (b * a);
  }

  lemma BurdenStep(s: State, a: Action)
    requires s.pc.Reporting? ==> s.server.obj.Some?
    ensures Burden(Next(s, a)) <= Burden(s) + (if Loses(s, a) then 1 else 0)
  {
    match a
    case Sync(_, id, _, _, _) => BurdenSync(s, a);
    case RemoveFinalizer(_) => BurdenRelease(s, a);
    case Crash => BurdenForget(s, a);
    case PatchStatus(_) => BurdenForget(s, a);
    case OutOfBandDelete(id) => BurdenOthers(s, id);
    case DeleteRemote(o) => BurdenDelete(s, o);
    case _ =>
  }

  lemma BurdenForget(s: State, a: Action)
    requires a.Crash? || a.PatchStatus?
    requires s.pc.Reporting? ==> s.server.obj.Some?
    ensures Burden(Next(s, a)) <= Burden(s) + (if Loses(s, a) then 1 else 0)
  {
    OneMore(s.ledger.unrecorded, Inflight(s));
    assert Next(s, a).ledger.unanswered == s.ledger.unanswered;
    assert Next(s, a).ledger.abandoned == s.ledger.abandoned;
  }

  lemma BurdenOthers(s: State, id: string)
    ensures Burden(Next(s, OutOfBandDelete(id))) <= Burden(s)
  {
    var s' := Next(s, OutOfBandDelete(id));
    assert s'.ledger.unrecorded == s.ledger.unrecorded && s'.ledger.unanswered == s.ledger.unanswered;
    assert s'.ledger.abandoned == s.ledger.abandoned;
    assert Left(s') == Left(s) || Left(s') == {};
  }

  lemma BurdenDelete(s: State, o: Outcome)
    ensures Burden(Next(s, DeleteRemote(o))) <= Burden(s) + (if Loses(s, DeleteRemote(o)) then 1 else 0)
  {
  }

  lemma BurdenSync(s: State, a: Action)
    requires a.Sync?
    ensures Burden(Next(s, a)) <= Burden(s) + (if Loses(s, a) then 1 else 0)
  {
    OneMore(s.ledger.unanswered, {a.id});
    assert Next(s, a).ledger.unrecorded == s.ledger.unrecorded;
    assert Next(s, a).ledger.abandoned == s.ledger.abandoned;
  }

  lemma BurdenRelease(s: State, a: Action)
    requires a.RemoveFinalizer?
    ensures Burden(Next(s, a)) <= Burden(s)
  {
    OneMore(s.ledger.abandoned, Left(s));
    if s.pc.RemovingFinalizer? {
      assert Left(Next(s, a)) == {};
    }
  }

  lemma {:induction false} BurdenRun(s: State, actions: seq<Action>)
    requires Inv(s)
    ensures Burden(Run(Next, s, actions)) <= Burden(s) + Losses(s, actions)
    decreases |actions|
  {
    if actions != [] {
      KeepStep(s, actions[0]);
      BurdenStep(s, actions[0]);
      BurdenRun(Next(s, actions[0]), actions[1..]);
    }
  }

  lemma SmallerSet<T>(a: set<T>, b: set<T>)
    requires a <= b
    ensures |a| <= |b|
  {
    assert b == a + (b - a);
  }

  /** At most one guardrail more is live than the run lost track of. */
  lemma LiveBound(name: string, remote: map<string, Guardrail>, actions: seq<Action>)
    ensures |Live(Reach(name, remote, actions))| <= 1 + Losses(Init(name, remote), actions)
  {
    var s := Reach(name, remote, actions);
    Reachable(name, remote, []);
    Reachable(name, remote, actions);
    BurdenRun(Init(name, remote), actions);
    SmallerSet(Live(s), Lost(s) + (Inflight(s) + Recorded(s)));
    assert |Lost(s) + (Inflight(s) + Recorded(s))| <= |Lost(s)| + |Inflight(s) + Recorded(s)|;
  }

  /** Gone: the object does not exist, or waits only for somebody else's finalizer. */
  predicate Released(s: State) {
    s.server.obj.None? || (s.server.obj.value.deleting && !s.server.obj.value.ours)
  }

  /** In a run that loses track of none, no guardrail outlives its policy, whenever the delete
      arrives, whatever crashes, and however often a delete is repeated on a guardrail that is
      already gone. */
  lemma CleanTeardown(name: string, remote: map<string, Guardrail>, actions: seq<Action>)
    requires Losses(Init(name, remote), actions) == 0
    requires Released(Reach(name, remote, actions))
    ensures Live(Reach(name, remote, actions)) == {}
  {
    var s := Reach(name, remote, actions);
    Reachable(name, remote, []);
    Reachable(name, remote, actions);
    BurdenRun(Init(name, remote), actions);
    UnburdenedTeardown(s);
  }

  lemma UnburdenedTeardown(s: State)
    requires Inv(s) && Released(s) && Burden(s) == 0
    ensures Live(s) == {}
  {
    assert s.ledger.unrecorded == {} && s.ledger.unanswered == {} && s.ledger.abandoned == {};
  }

  // ----- what the status says -----

  /** GuardrailSynced=True on a policy that is not being deleted means what it says, once the
      last write to Bedrock has been reported: the recorded guardrail carries the translation
      of the spec at the observed generation, whatever was edited in between, and is of the
      recorded version. */
  lemma TruthfulSynced(name: string, remote: map<string, Guardrail>, actions: seq<Action>)
    ensures var s := Reach(name, remote, actions);
            s.server.obj.Some? && !s.server.obj.value.deleting && !s.ledger.unreported
              && Synced(s.server.obj.value.status) ==>
              var st := s.server.obj.value.status;
              && st.observedGeneration in s.server.specs
              && Carries(s, st.guardrailId, s.server.specs[st.observedGeneration])
              && (st.guardrailId in s.ledger.tampered
                  || (st.guardrailId in s.remote && s.remote[st.guardrailId].version == st.guardrailVersion))
  {
    Reachable(name, remote, actions);
  }

  /** UpdateGuardrail and DeleteGuardrail are only ever sent for a guardrail that was created
      for this policy; the one to update still exists unless somebody else deleted it. */
  lemma AddressesOwnGuardrail(name: string, remote: map<string, Guardrail>, actions: seq<Action>)
    ensures var s := Reach(name, remote, actions);
            && (s.pc.Syncing? && s.pc.copy.status.guardrailId != "" ==>
                  && s.pc.copy.status.guardrailId in s.ledger.issued
                  && Exists(s, s.pc.copy.status.guardrailId))
            && (s.pc.Deleting? ==> s.pc.copy.status.guardrailId in s.ledger.issued)
  {
    var s := Reach(name, remote, actions);
    Reachable(name, remote, actions);
    if s.pc.Syncing? || s.pc.Deleting? {
      assert s.pc.copy.status.guardrailId != "" ==> s.pc.copy.status.guardrailId in Recorded(s);
    }
  }

  lemma OthersStep(s: State, a: Action, id: string)
    requires Inv(s)
    requires id !in Next(s, a).ledger.issued
    ensures id !in s.ledger.issued
    ensures id in s.remote <==> id in Next(s, a).remote
    ensures id in s.remote ==> s.remote[id] == Next(s, a).remote[id]
  {
    if (s.pc.Syncing? || s.pc.Deleting?) && s.pc.copy.status.guardrailId != "" {
      assert s.pc.copy.status.guardrailId in Recorded(s);
    }
  }

  lemma {:induction false} OthersRun(s: State, actions: seq<Action>, id: string)
    requires Inv(s)
    requires id !in Run(Next, s, actions).ledger.issued
    ensures id !in s.ledger.issued
    ensures id in s.remote <==> id in Run(Next, s, actions).remote
    ensures id in s.remote ==> s.remote[id] == Run(Next, s, actions).remote[id]
    decreases |actions|
  {
    if actions != [] {
      KeepStep(s, actions[0]);
      OthersRun(Next(s, actions[0]), actions[1..], id);
      OthersStep(s, actions[0], id);
    }
  }

  /** Guardrails of other people come through every run as they were. */
  lemma OthersUntouched(name: string, remote: map<string, Guardrail>, actions: seq<Action>)
    ensures var s := Reach(name, remote, actions);
            forall id :: id !in s.ledger.issued ==>
              && (id in remote <==> id in s.remote)
              && (id in remote ==> remote[id] == s.remote[id])
  {
    var s := Reach(name, remote, actions);
    Reachable(name, remote, []);
    forall id | id !in s.ledger.issued
      ensures (id in remote <==> id in s.remote) && (id in remote ==> remote[id] == s.remote[id])
    {
      OthersRun(Init(name, remote), actions, id);
    }
  }

  /** No policy is forgotten: one that is not being deleted, or that still has our finalizer,
      is always queued or being worked on. */
  lemma NoStalledPolicy(name: string, remote: map<string, Guardrail>, actions: seq<Action>)
    ensures var s := Reach(name, remote, actions);
            !Released(s) ==> s.queued || !s.pc.Idle?
  {
    Reachable(name, remote, actions);
  }

  // ----- convergence -----

  /** The calls of a reconcile after its Get, all answered; those that do not apply do nothing. */
  function Finish(s: State, id: string, version: string, error: string, now: int): State {
    Next(Next(Next(Next(Next(s, AddFinalizer(Answered)), Sync(Answered, id, version, error, now)),
                   PatchStatus(Answered)), DeleteRemote(Answered)), RemoveFinalizer(Answered))
  }

  /** One whole reconcile without faults or edits. */
  function Reconcile(s: State, id: string, version: string, error: string, now: int): State {
    Finish(Next(s, Fetch(true)), id, version, error, now)
  }

  ghost predicate Converged(s: State) {
    && s.pc.Idle? && s.queued && !s.ledger.unreported
    && s.server.obj.Some?
    && var o := s.server.obj.value;
    && o.ours && !o.deleting
    && o.status.guardrailId in s.remote
    && s.remote[o.status.guardrailId].config == Translate(s.name, o.spec)
    && s.remote[o.status.guardrailId].version == o.status.guardrailVersion
    && o.status.observedGeneration == o.generation
    && Synced(o.status)
  }

  /** The recorded guardrail, if there is one, is still there to be updated. */
  ghost predicate Repairable(s: State) {
    Recorded(s) + Inflight(s) <= s.remote.Keys
  }

  ghost predicate Wanted(s: State) {
    s.server.obj.Some? && !s.server.obj.value.deleting
  }

  /** `id` is what Bedrock would answer to a create, should one be needed. */
  ghost predicate Supplied(s: State, id: string) {
    Fresh(s, id) || Recorded(s) != {}
  }

  lemma KeepFinish(s: State, id: string, version: string, error: string, now: int)
    requires Inv(s)
    ensures Inv(Finish(s, id, version, error, now))
  {
    var s1 := Next(s, AddFinalizer(Answered));
    KeepStep(s, AddFinalizer(Answered));
    var s2 := Next(s1, Sync(Answered, id, version, error, now));
    KeepStep(s1, Sync(Answered, id, version, error, now));
    var s3 := Next(s2, PatchStatus(Answered));
    KeepStep(s2, PatchStatus(Answered));
    KeepStep(s3, DeleteRemote(Answered));
    KeepStep(Next(s3, DeleteRemote(Answered)), RemoveFinalizer(Answered));
  }

  /** Once the sync was answered, the patch reports it. */
  lemma FinishReport(s: State, s': State)
    requires Inv(s) && s.pc.Reporting? && s.server.obj.value == s.pc.copy
    requires s' == Next(s, PatchStatus(Answered))
    ensures s'.pc.Idle? && s'.queued && !s'.ledger.unreported
    ensures s'.remote == s.remote && s'.name == s.name
    ensures s'.server.obj == Some(s.pc.copy.(status := s.pc.next, version := s.server.clock))
  {
    MergePatchOfDiff(s.pc.copy.status, s.pc.next);
  }

  lemma FinishIdle(s: State, id: string, version: string, error: string, now: int)
    ensures s.pc.Idle? ==> Finish(s, id, version, error, now) == s
    ensures s.pc.Reporting? && Next(s, PatchStatus(Answered)).pc.Idle? ==>
              Finish(s, id, version, error, now) == Next(s, PatchStatus(Answered))
    ensures var s2 := Next(s, Sync(Answered, id, version, error, now));
            s.pc.Syncing? && s2.pc.Reporting? ==>
              Finish(s, id, version, error, now) == Finish(s2, id, version, error, now)
  {
  }

  /** From Syncing, the rest of the reconcile converges exactly when the guardrail to update
      exists. */
  lemma FinishSync(s: State, id: string, version: string, error: string, now: int)
    requires Inv(s) && s.pc.Syncing? && s.server.obj == Some(s.pc.copy)
    requires Fresh(s, id) || s.pc.copy.status.guardrailId != ""
    ensures Finish(s, id, version, error, now).pc.Idle?
    ensures Wanted(Finish(s, id, version, error, now))
    ensures Converged(Finish(s, id, version, error, now)) <==> Repairable(s)
    ensures !Repairable(s) ==> !Repairable(Finish(s, id, version, error, now))
  {
    var copy := s.pc.copy;
    var recorded := copy.status.guardrailId;
    var s2 := Next(s, Sync(Answered, id, version, error, now));
    KeepSync(s, Answered, id, version, error, now);
    ReportedStatus(copy, if recorded == "" then id else recorded, version, error, now);
    var s3 := Next(s2, PatchStatus(Answered));
    FinishReport(s2, s3);
    FinishIdle(s2, id, version, error, now);
    FinishIdle(s, id, version, error, now);
    assert Recorded(s) == if recorded == "" then {} else {recorded};
    if recorded == "" {
      assert s2.pc.next == SuccessStatus(copy, id, version, now);
      assert Converged(s3);
    } else if recorded in s.remote {
      assert s2.pc.next == SuccessStatus(copy, recorded, version, now);
      assert Converged(s3);
    } else {
      assert s2.pc.next == FailureStatus(copy, error, now);
      assert recorded in Recorded(s3);
    }
  }

  /** One reconcile of a policy that nobody deletes: either it only adds the finalizer, or it
      converges exactly when it can. */
  lemma ReconcileOnce(s: State, id: string, version: string, error: string, now: int)
    requires Inv(s) && s.pc.Idle? && Wanted(s) && Supplied(s, id)
    ensures var s' := Reconcile(s, id, version, error, now);
            && Inv(s') && s'.pc.Idle? && Wanted(s')
            && s'.server.obj.value.ours
            && (Repairable(s') <==> Repairable(s))
            && Supplied(s', id)
            && (s.server.obj.value.ours ==> (Converged(s') <==> Repairable(s)))
  {
    var s1 := Next(s, Fetch(true));
    KeepFetch(s, true);
    KeepFinish(s1, id, version, error, now);
    assert s.queued;
    var gp := s.server.obj.value;
    if gp.ours {
      FinishSync(s1, id, version, error, now);
    } else {
      FinishAdding(s1, id, version, error, now);
      assert gp.status == BLANK;
    }
  }

  lemma FinishAdding(s: State, id: string, version: string, error: string, now: int)
    requires Inv(s) && s.pc.AddingFinalizer? && s.server.obj == Some(s.pc.copy) && s.pc.copy.status == BLANK
    ensures var s' := Finish(s, id, version, error, now);
            && s'.pc.Idle? && Wanted(s') && s'.server.obj.value.ours
            && Recorded(s') == Recorded(s) == {} == Inflight(s') == Inflight(s)
            && s'.ledger == s.ledger && s'.remote == s.remote
  {
    assert Finish(s, id, version, error, now) == Next(s, AddFinalizer(Answered));
  }

  ghost predicate FinishesWell(s: State, s': State, id: string) {
    && s'.pc.Idle? && Wanted(s') && Supplied(s', id)
    && (Repairable(s') <==> Repairable(s))
  }

  lemma FinishReporting(s: State, id: string)
    requires Inv(s) && Wanted(s) && Supplied(s, id) && s.pc.Reporting?
    ensures FinishesWell(s, Next(s, PatchStatus(Answered)), id)
  {
    MergePatchOfDiff(s.pc.copy.status, s.pc.next);
  }

  lemma FinishSyncing(s: State, id: string, version: string, error: string, now: int)
    requires Inv(s) && Wanted(s) && Supplied(s, id) && s.pc.Syncing?
    ensures var s2 := Next(s, Sync(Answered, id, version, error, now));
            FinishesWell(s, Next(s2, PatchStatus(Answered)), id)
  {
    var s2 := Next(s, Sync(Answered, id, version, error, now));
    KeepSync(s, Answered, id, version, error, now);
    if s.pc.copy.status.guardrailId == "" {
      FinishCreated(s2, id);
    } else {
      FinishReporting(s2, id);
    }
  }

  lemma FinishCreated(s: State, id: string)
    requires Inv(s) && Wanted(s) && s.pc.Reporting? && s.pc.created && s.pc.next.guardrailId == id
    requires id != "" && id in s.remote && s.pc.copy.status.guardrailId == ""
    ensures var s' := Next(s, PatchStatus(Answered));
            && s'.pc.Idle? && Wanted(s') && Recorded(s') == {id} && Inflight(s') == {} && s'.remote == s.remote
  {
    MergePatchOfDiff(s.pc.copy.status, s.pc.next);
  }

  /** Finishing whatever reconcile is in progress leaves a wanted policy wanted, and as
      repairable as it was. */
  lemma FinishInProgress(s: State, id: string, version: string, error: string, now: int)
    requires Inv(s) && Wanted(s) && Supplied(s, id)
    ensures var s' := Finish(s, id, version, error, now); Inv(s') && FinishesWell(s, s', id)
  {
    KeepFinish(s, id, version, error, now);
    FinishIdle(s, id, version, error, now);
    match s.pc
    case Idle =>
    case AddingFinalizer(_) =>
      assert Finish(s, id, version, error, now) == Next(s, AddFinalizer(Answered));
    case Syncing(_) =>
      FinishIdle(Next(s, Sync(Answered, id, version, error, now)), id, version, error, now);
      FinishSyncing(s, id, version, error, now);
    case Reporting(_, _, _) =>
      FinishReporting(s, id);
    case _ =>
  }

  /** From any reachable state, once edits and faults stop, the reconcile in progress and two
      more make the policy converge if and only if neither the guardrail it records nor one it
      has just created was deleted behind the operator's back. */
  lemma Converges(name: string, remote: map<string, Guardrail>, actions: seq<Action>,
                  id: string, version: string, error: string, t0: int, t1: int, t2: int)
    requires Wanted(Reach(name, remote, actions)) && Fresh(Reach(name, remote, actions), id)
    ensures var s := Reach(name, remote, actions);
            Converged(Reconcile(Reconcile(Finish(s, id, version, error, t0), id, version, error, t1), id, version,
                                error, t2))
            <==> Repairable(s)
  {
    var s := Reach(name, remote, actions);
    Reachable(name, remote, actions);
    FinishInProgress(s, id, version, error, t0);
    var s0 := Finish(s, id, version, error, t0);
    ReconcileOnce(s0, id, version, error, t1);
    ReconcileOnce(Reconcile(s0, id, version, error, t1), id, version, error, t2);
  }

  /** A converged policy stays so: same guardrail, same content, same condition status and
      transition time. */
  lemma StaysConverged(s: State, id: string, version: string, error: string, now: int)
    requires Inv(s) && Converged(s)
    ensures var s' := Reconcile(s, id, version, error, now);
            && Inv(s') && Converged(s')
            && s'.server.obj.value.status.guardrailId == s.server.obj.value.status.guardrailId
            && s'.remote.Keys == s.remote.Keys
            && (forall g :: g in s.remote ==> s'.remote[g].config == s.remote[g].config)
            && SinceIn(s'.server.obj.value.status.conditions, SYNCED)
               == SinceIn(s.server.obj.value.status.conditions, SYNCED)
  {
    var s1 := Next(s, Fetch(true));
    KeepFetch(s, true);
    var copy := s.server.obj.value;
    var recorded := copy.status.guardrailId;
    assert recorded in Recorded(s) by {
      assert "" !in s.ledger.issued;
      TruthOfConverged(s);
    }
    ReconcileOnce(s, id, version, error, now);
    var s2 := Next(s1, Sync(Answered, id, version, error, now));
    KeepSync(s1, Answered, id, version, error, now);
    FinishReport(s2, Next(s2, PatchStatus(Answered)));
    FinishIdle(s1, id, version, error, now);
    FinishIdle(s2, id, version, error, now);
    UpsertSince(copy.status.conditions, SyncedCondition(recorded, version, now), SYNCED);
    SyncedHasTime(copy.status.conditions);
  }

  /** The recorded guardrail `id` carries the spec of incarnation `uid`, and so does whatever
      the reconcile in progress, if there is one, is working on. */
  ghost predicate InLine(s: State, uid: nat, id: string, spec: Spec) {
    && Inv(s) && Wanted(s)
    && s.server.obj.value.uid == uid && s.server.obj.value.spec == spec
    && Recorded(s) == {id}
    && id in s.remote && s.remote[id].config == Translate(s.name, spec)
    && (!s.pc.Idle? ==> s.pc.copy.spec == spec)
  }

  /** Anything but an edit or a delete of the policy, or of its guardrail. */
  predicate Harmless(a: Action) {
    !a.OutOfBandDelete? && !(a.User? && (a.event.Edited? || a.event.Deleted?))
  }

  lemma InLineUser(s: State, e: UserEvent<Spec>, uid: nat, id: string, spec: Spec)
    requires InLine(s, uid, id, spec) && Harmless(User(e))
    ensures InLine(Next(s, User(e)), uid, id, spec)
  {
    KeepUser(s, e);
    UserEvolves(s.server, e, BLANK);
  }

  lemma InLineStep(s: State, a: Action, uid: nat, id: string, spec: Spec)
    requires InLine(s, uid, id, spec) && Harmless(a)
    ensures InLine(Next(s, a), uid, id, spec)
  {
    match a
    case User(e) => InLineUser(s, e, uid, id, spec);
    case Sync(o, _, version, error, now) => InLineSync(s, a, uid, id, spec);
    case PatchStatus(o) => InLinePatch(s, o, uid, id, spec);
    case _ => KeepStep(s, a);
  }

  lemma InLineSync(s: State, a: Action, uid: nat, id: string, spec: Spec)
    requires InLine(s, uid, id, spec) && a.Sync?
    ensures InLine(Next(s, a), uid, id, spec)
  {
    KeepStep(s, a);
    if s.pc.Syncing? {
      assert s.pc.copy.status.guardrailId == id;
    }
  }

  lemma InLinePatch(s: State, o: Outcome, uid: nat, id: string, spec: Spec)
    requires InLine(s, uid, id, spec)
    ensures InLine(Next(s, PatchStatus(o)), uid, id, spec)
  {
    KeepPatch(s, o);
    if s.pc.Reporting? {
      MergePatchOfDiff(s.pc.copy.status, s.pc.next);
    }
  }

  lemma {:induction false} InLineRun(s: State, actions: seq<Action>, uid: nat, id: string, spec: Spec)
    requires InLine(s, uid, id, spec)
    requires forall i :: 0 <= i < |actions| ==> Harmless(actions[i])
    ensures InLine(Run(Next, s, actions), uid, id, spec)
    decreases |actions|
  {
    if actions != [] {
      InLineStep(s, actions[0], uid, id, spec);
      InLineRun(Next(s, actions[0]), actions[1..], uid, id, spec);
    }
  }

  /** From a converged policy on, every run without edits and deletes keeps the recorded
      identifier and the content of the guardrail, whatever crashes, fails or is restarted. */
  lemma StaysInLine(s: State, actions: seq<Action>)
    requires Inv(s) && Converged(s)
    requires forall i :: 0 <= i < |actions| ==> Harmless(actions[i])
    ensures var s', id := Run(Next, s, actions), s.server.obj.value.status.guardrailId;
            && s'.server.obj.Some? && s'.server.obj.value.uid == s.server.obj.value.uid
            && s'.server.obj.value.status.guardrailId == id
            && id in s'.remote && s'.remote[id].config == s.remote[id].config
  {
    TruthOfConverged(s);
    var o := s.server.obj.value;
    InLineRun(s, actions, o.uid, o.status.guardrailId, o.spec);
    SameName(s, actions);
  }

  lemma {:induction false} SameName(s: State, actions: seq<Action>)
    ensures Run(Next, s, actions).name == s.name
    decreases |actions|
  {
    if actions != [] {
      SameName(Next(s, actions[0]), actions[1..]);
    }
  }

  lemma TruthOfConverged(s: State)
    requires Inv(s) && Converged(s)
    ensures s.server.obj.value.status.guardrailId != ""
  {
    assert Truthful(s);
  }

  lemma {:induction false} SyncedHasTime(cs: seq<Condition>)
    requires StatusIn(cs, SYNCED) == ConditionTrue
    ensures SinceIn(cs, SYNCED).Some?
  {
    if cs[0].kind != SYNCED {
      SyncedHasTime(cs[1..]);
    }
  }

  /** The guardrail `id` of incarnation `uid` is gone for good. */
  ghost predicate Stuck(s: State, uid: nat, id: string) {
    && Inv(s)
    && uid < s.server.clock
    && id in s.ledger.issued && id !in s.remote
    && (s.server.obj.Some? && s.server.obj.value.uid == uid && !s.server.obj.value.deleting ==> Recorded(s) == {id})
  }

  lemma StuckStep(s: State, a: Action, uid: nat, id: string)
    requires Stuck(s, uid, id)
    ensures Stuck(Next(s, a), uid, id)
  {
    KeepStep(s, a);
    StuckRemote(s, a, uid, id);
    StuckRecord(s, a, uid, id);
  }

  /** Bedrock never hands out an id twice, and an update does not bring a guardrail back. */
  lemma StuckRemote(s: State, a: Action, uid: nat, id: string)
    requires Stuck(s, uid, id)
    ensures uid < Next(s, a).server.clock
    ensures id in Next(s, a).ledger.issued && id !in Next(s, a).remote
  {
    if s.pc.Syncing? && s.pc.copy.status.guardrailId != "" {
      assert Recorded(s) == {s.pc.copy.status.guardrailId};
    }
  }

  /** A recorded id is never replaced while the object lives. */
  lemma StuckRecord(s: State, a: Action, uid: nat, id: string)
    requires Stuck(s, uid, id)
    ensures var s' := Next(s, a);
            s'.server.obj.Some? && s'.server.obj.value.uid == uid && !s'.server.obj.value.deleting ==>
              Recorded(s') == {id}
  {
    if s.pc.Reporting? {
      MergePatchOfDiff(s.pc.copy.status, s.pc.next);
    }
  }

  lemma {:induction false} StuckForever(s: State, actions: seq<Action>, uid: nat, id: string)
    requires Stuck(s, uid, id)
    ensures Stuck(Run(Next, s, actions), uid, id)
    ensures var s' := Run(Next, s, actions);
            s'.server.obj.Some? && s'.server.obj.value.uid == uid ==> !Converged(s')
    decreases |actions|
  {
    if actions == [] {
      assert Wanted(s) && s.server.obj.value.uid == uid ==> s.server.obj.value.status.guardrailId in Recorded(s);
    } else {
      StuckStep(s, actions[0], uid, id);
      StuckForever(Next(s, actions[0]), actions[1..], uid, id);
    }
  }

  /** After the recorded guardrail was deleted out of band, no run whatsoever makes the policy
      converge again, short of deleting the policy itself. */
  lemma NeverConvergesAgain(name: string, remote: map<string, Guardrail>, actions: seq<Action>, more: seq<Action>,
                            id: string)
    requires Wanted(Reach(name, remote, actions))
    requires Recorded(Reach(name, remote, actions)) == {id} && id !in Reach(name, remote, actions).remote
    ensures !Recovers(Reach(name, remote, actions), more)
  {
    Reachable(name, remote, actions);
    StuckForever(Reach(name, remote, actions), more, Reach(name, remote, actions).server.obj.value.uid, id);
  }

  /** `more` brings the same incarnation of the policy in line with Bedrock. */
  ghost predicate Recovers(s: State, more: seq<Action>) {
    var s' := Run(Next, s, more);
    s.server.obj.Some? && s'.server.obj.Some? && s'.server.obj.value.uid == s.server.obj.value.uid && Converged(s')
  }

  /** Exactly when a policy can still converge, by whatever run: its recorded guardrail, if it
      has one, exists. A guardrail that was created and not yet recorded does not matter. */
  lemma RecoversExactly(name: string, remote: map<string, Guardrail>, actions: seq<Action>)
    requires Wanted(Reach(name, remote, actions))
    ensures var s := Reach(name, remote, actions);
            (exists more :: Recovers(s, more)) <==> Recorded(s) <= s.remote.Keys
  {
    var s := Reach(name, remote, actions);
    Reachable(name, remote, actions);
    if Recorded(s) <= s.remote.Keys {
      var id := UnusedId(s.remote.Keys + s.ledger.issued);
      Recovery(s, id, "", "", 0);
    } else {
      var id :| id in Recorded(s) && id !in s.remote;
      forall more ensures !Recovers(s, more) {
        NeverConvergesAgain(name, remote, actions, more, id);
      }
    }
  }

  /** Such a policy exists: its guardrail was recorded and then deleted by somebody else. */
  lemma StuckIsReachable(name: string, remote: map<string, Guardrail>, spec: Spec, id: string, version: string)
    requires id != "" && id !in remote
    ensures exists actions ::
              var s := Reach(name, remote, actions);
              Wanted(s) && Recorded(s) == {id} && id !in s.remote
  {
    var s0 := Init(name, remote);
    var create := [User(Created(spec)), Fetch(true), AddFinalizer(Answered)];
    var sync := [Fetch(true), Sync(Answered, id, version, "", 0), PatchStatus(Answered)];
    var s1, s2 := Run(Next, s0, create), Run(Next, Run(Next, s0, create), sync);
    Unrolled(Next, s0, create);
    Unrolled(Next, s1, sync);
    assert s2.server.obj.value.status.guardrailId == id;
    Unrolled(Next, s2, [OutOfBandDelete(id)]);
    RunConcat(Next, s0, create, sync);
    RunConcat(Next, s0, create + sync, [OutOfBandDelete(id)]);
    assert Reach(name, remote, create + sync + [OutOfBandDelete(id)]) == Next(s2, OutOfBandDelete(id));
  }

  /** The calls of a reconcile, all answered. */
  function Calls(id: string, version: string, error: string, now: int): seq<Action> {
    [Fetch(true), AddFinalizer(Answered), Sync(Answered, id, version, error, now)]
    + [PatchStatus(Answered), DeleteRemote(Answered), RemoveFinalizer(Answered)]
  }

  lemma ReconcileIsRun(s: State, id: string, version: string, error: string, now: int)
    ensures Run(Next, s, Calls(id, version, error, now)) == Reconcile(s, id, version, error, now)
  {
    var first := [Fetch(true), AddFinalizer(Answered), Sync(Answered, id, version, error, now)];
    var second := [PatchStatus(Answered), DeleteRemote(Answered), RemoveFinalizer(Answered)];
    RunConcat(Next, s, first, second);
    Unrolled(Next, s, first);
    Unrolled(Next, Run(Next, s, first), second);
  }

  /** A restart forgets what was in flight; two reconciles do the rest. */
  lemma Recovery(s: State, id: string, version: string, error: string, now: int)
    requires Inv(s) && Wanted(s) && Fresh(s, id)
    requires Recorded(s) <= s.remote.Keys
    ensures Recovers(s, [Crash] + (Calls(id, version, error, now) + Calls(id, version, error, now)))
  {
    var calls := Calls(id, version, error, now);
    var s1 := Next(s, Crash);
    KeepStep(s, Crash);
    ReconcileOnce(s1, id, version, error, now);
    ReconcileOnce(Reconcile(s1, id, version, error, now), id, version, error, now);
    CrashAndTwice(s, id, version, error, now);
    SameIncarnation(s, [Crash] + (calls + calls));
  }

  lemma CrashAndTwice(s: State, id: string, version: string, error: string, now: int)
    ensures var calls := Calls(id, version, error, now);
            Run(Next, s, [Crash] + (calls + calls))
            == Reconcile(Reconcile(Next(s, Crash), id, version, error, now), id, version, error, now)
  {
    var calls, s1 := Calls(id, version, error, now), Next(s, Crash);
    RunConcat(Next, s, [Crash], calls + calls);
    Unrolled(Next, s, [Crash]);
    RunConcat(Next, s1, calls, calls);
    ReconcileIsRun(s1, id, version, error, now);
    ReconcileIsRun(Reconcile(s1, id, version, error, now), id, version, error, now);
  }

  lemma IncarnationStep(s: State, a: Action)
    requires Inv(s) && !a.User?
    ensures Next(s, a).server.obj.Some?
            ==> s.server.obj.Some? && Next(s, a).server.obj.value.uid == s.server.obj.value.uid
  {
  }

  /** Only a user makes a new incarnation. */
  lemma {:induction false} SameIncarnation(s: State, actions: seq<Action>)
    requires Inv(s) && forall i :: 0 <= i < |actions| ==> !actions[i].User?
    ensures var s' := Run(Next, s, actions);
            s'.server.obj.Some? ==> s.server.obj.Some? && s'.server.obj.value.uid == s.server.obj.value.uid
    decreases |actions|
  {
    if actions != [] {
      KeepStep(s, actions[0]);
      IncarnationStep(s, actions[0]);
      SameIncarnation(Next(s, actions[0]), actions[1..]);
    }
  }

  function Repeated(n: nat): string {
    seq(n, i => 'x')
  }

  lemma {:induction false} Longest(used: set<string>) returns (n: nat)
    ensures forall id :: id in used ==> |id| <= n
  {
    if used == {} {
      return 0;
    }
    var some :| some in used;
    n := Longest(used - {some});
    n := if |some| > n then |some| else n;
  }

  /** Bedrock never runs out of identifiers. */
  lemma UnusedId(used: set<string>) returns (id: string)
    ensures id != "" && id !in used
  {
    var n := Longest(used);
    id := Repeated(n + 1);
  }

  /** A policy being deleted loses our finalizer in one reconcile, its guardrail goes with it
      and nothing else is left behind. */
  lemma TeardownInOne(s: State, id: string, version: string, error: string, now: int)
    requires Inv(s) && s.pc.Idle?
    requires s.server.obj.Some? && s.server.obj.value.deleting && s.server.obj.value.ours
    ensures var s' := Reconcile(s, id, version, error, now);
            && s'.pc.Idle? && Released(s')
            && Live(s') == Lost(s) * s.remote.Keys
            && s'.remote == s.remote - Recorded(s)
  {
    var s1 := Next(s, Fetch(true));
    KeepFetch(s, true);
    FinishTeardown(s1, id, version, error, now);
  }

  lemma FinishTeardown(s: State, id: string, version: string, error: string, now: int)
    requires Inv(s)
    requires s.pc.Deleting? || s.pc.RemovingFinalizer?
    requires s.server.obj == Some(s.pc.copy) && s.pc.copy.deleting && s.pc.copy.ours
    requires s.pc.RemovingFinalizer? ==> s.pc.copy.status.guardrailId == ""
    ensures var s' := Finish(s, id, version, error, now);
            && s'.pc.Idle? && Released(s')
            && Live(s') == Lost(s) * s.remote.Keys
            && s'.remote == s.remote - Recorded(s)
  {
    var s1 := Next(s, DeleteRemote(Answered));
    KeepDelete(s, Answered);
    UpdateKeeps(s1.server, s1.pc.copy, false);
    assert Finish(s, id, version, error, now) == Next(s1, RemoveFinalizer(Answered));
  }
}
