/** The GuardrailPolicy reconciler against two stores: the API server and Bedrock.

    A reconcile is a sequence of calls that fail separately. Between any two of them users
    edit and delete the policy, somebody may delete the guardrail behind the operator's back,
    and the operator may crash. `Next` is one step of that system; `Run` is any interleaving
    of such steps. An action that does not apply in a state leaves it as it is. */
module GuardrailSync {
  import opened ApiServer
  import opened Conditions
  import opened GuardrailConfig
  import opened Runs

  const SYNCED := "GuardrailSynced"

  datatype Status = Status(guardrailId: string, guardrailVersion: string, conditions: seq<Condition>,
                           observedGeneration: nat)

  const BLANK := Status("", "", [], 0)

  type Policy = Object<Spec, Status>

  datatype Guardrail = Guardrail(config: Config, version: string)

  /** Where the single worker of this policy stands: the call it is about to make. */
  datatype Pc =
    | Idle
    | AddingFinalizer(copy: Policy)
    | Syncing(copy: Policy)
    | Reporting(copy: Policy, next: Status, created: bool)
    | Deleting(copy: Policy)
    | RemovingFinalizer(copy: Policy, failed: bool)

  /** History that no code reads. `issued`: every guardrail created for this policy name.
      `unrecorded`: created, but its status patch never landed. `unanswered`: created by a
      call whose answer was lost. `abandoned`: our finalizer was removed after DeleteGuardrail
      errored. `tampered`: deleted by somebody else. `unreported`: Bedrock was written and no
      status patch has landed since. */
  datatype Ledger = Ledger(
    issued: set<string>,
    unrecorded: set<string>,
    unanswered: set<string>,
    abandoned: set<string>,
    tampered: set<string>,
    unreported: bool
  )

  datatype State = State(
    name: string,
    server: Server<Spec, Status>,
    remote: map<string, Guardrail>,
    pc: Pc,
    queued: bool,
    ledger: Ledger
  )

  datatype Action =
    // the environment
    | User(event: UserEvent<Spec>)
    | OutOfBandDelete(id: string)
    | Enqueue
    | Crash
    // the reconciler
    | Fetch(ok: bool)
    | AddFinalizer(outcome: Outcome)
    | Sync(outcome: Outcome, id: string, version: string, error: string, now: int)
    | PatchStatus(outcome: Outcome)
    | DeleteRemote(outcome: Outcome)
    | RemoveFinalizer(outcome: Outcome)
  {
    predicate Environment() {
      User? || OutOfBandDelete? || Enqueue?
    }
  }

  // ----- the status patch -----

  /** A merge patch (section 2 of RFC 7396): only the fields that differ are sent, lists whole. */
  datatype StatusPatch = StatusPatch(
    guardrailId: Option<string>,
    guardrailVersion: Option<string>,
    conditions: Option<seq<Condition>>,
    observedGeneration: Option<nat>
  )

  function Changed<T(==)>(from: T, to: T): Option<T> {
    if from == to then None else Some(to)
  }

  function Diff(base: Status, to: Status): StatusPatch {
    StatusPatch(
      Changed(base.guardrailId, to.guardrailId),
      Changed(base.guardrailVersion, to.guardrailVersion),
      Changed(base.conditions, to.conditions),
      Changed(base.observedGeneration, to.observedGeneration))
  }

  function Patched<T>(current: T, change: Option<T>): T {
    if change.Some? then change.value else current
  }

  function MergePatch(current: Status, p: StatusPatch): Status {
    Status(
      Patched(current.guardrailId, p.guardrailId),
      Patched(current.guardrailVersion, p.guardrailVersion),
      Patched(current.conditions, p.conditions),
      Patched(current.observedGeneration, p.observedGeneration))
  }

  // ----- steps -----

  function SyncedCondition(id: string, version: string, now: int): Condition {
    Condition(SYNCED, ConditionTrue, "Synced", "guardrail " + id + " version " + version + " synced to Bedrock", now)
  }

  function FailedCondition(error: string, now: int): Condition {
    Condition(SYNCED, ConditionFalse, "SyncFailed", error, now)
  }

  function SuccessStatus(copy: Policy, id: string, version: string, now: int): Status {
    Status(id, version, Upsert(copy.status.conditions, SyncedCondition(id, version, now)), copy.generation)
  }

  function FailureStatus(copy: Policy, error: string, now: int): Status {
    copy.status.(observedGeneration := copy.generation,
                 conditions := Upsert(copy.status.conditions, FailedCondition(error, now)))
  }

  predicate Fresh(s: State, id: string) {
    id != "" && id !in s.remote && id !in s.ledger.issued
  }

  /** UpdateGuardrail on an identifier that Bedrock does not have can only fail. */
  function UpdateOutcome(s: State, copy: Policy, o: Outcome): Outcome {
    if copy.status.guardrailId in s.remote then o else Refused
  }

  function Next(s: State, a: Action): State {
    match a
    case User(e) => s.(server := Apply(s.server, e, BLANK), queued := true)
    case OutOfBandDelete(id) =>
      if id in s.ledger.issued && id in s.remote then
        s.(remote := s.remote - {id}, ledger := s.ledger.(tampered := s.ledger.tampered + {id}))
      else s
    case Enqueue => s.(queued := true)
    case Crash =>
      s.(pc := Idle, queued := s.server.obj.Some?, ledger := s.ledger.(unrecorded := s.ledger.unrecorded + Inflight(s)))
    case Fetch(ok) => if s.pc.Idle? && s.queued then FetchStep(s, ok) else s
    case AddFinalizer(o) =>
      if !s.pc.AddingFinalizer? then s
      else if o == Refused || Conflicts(s.server, s.pc.copy) then s.(pc := Idle, queued := true)
      else s.(server := Update(s.server, s.pc.copy, true), pc := Idle, queued := true)
    case Sync(o, id, version, error, now) =>
      if !s.pc.Syncing? then s
      else if s.pc.copy.status.guardrailId == "" then CreateStep(s, o, id, version, error, now)
      else UpdateStep(s, UpdateOutcome(s, s.pc.copy, o), version, error, now)
    case PatchStatus(o) =>
      if !s.pc.Reporting? then s
      else if o == Refused || s.server.obj.None? then
        s.(pc := Idle, queued := true, ledger := s.ledger.(unrecorded := s.ledger.unrecorded + Inflight(s)))
      else
        s.(server := PutStatus(s.server, MergePatch(s.server.obj.value.status, Diff(s.pc.copy.status, s.pc.next))),
           pc := Idle, queued := true, ledger := s.ledger.(unreported := false))
    case DeleteRemote(o) =>
      if !s.pc.Deleting? then s
      else if o == Refused then s.(pc := RemovingFinalizer(s.pc.copy, true))
      else s.(remote := s.remote - {s.pc.copy.status.guardrailId}, pc := RemovingFinalizer(s.pc.copy, false))
    case RemoveFinalizer(o) =>
      if !s.pc.RemovingFinalizer? then s
      else if o == Refused || Conflicts(s.server, s.pc.copy) then s.(pc := Idle, queued := true)
      else
        s.(server := Update(s.server, s.pc.copy, false), pc := Idle, queued := s.queued || o == Unanswered,
           ledger := s.ledger.(abandoned := s.ledger.abandoned + Left(s)))
  }

  function FetchStep(s: State, ok: bool): State {
    if !ok then s
    else if s.server.obj.None? then s.(queued := false)
    else
      var gp := s.server.obj.value;
      var s' := s.(queued := false);
      if gp.deleting then
        if !gp.ours then s'
        else if gp.status.guardrailId != "" then s'.(pc := Deleting(gp))
        else s'.(pc := RemovingFinalizer(gp, false))
      else if !gp.ours then s'.(pc := AddingFinalizer(gp))
      else s'.(pc := Syncing(gp))
  }

  function CreateStep(s: State, o: Outcome, id: string, version: string, error: string, now: int): State
    requires s.pc.Syncing?
  {
    var copy := s.pc.copy;
    if o == Refused then s.(pc := Reporting(copy, FailureStatus(copy, error, now), false))
    else if !Fresh(s, id) then s
    else
      var made := s.(remote := s.remote[id := Guardrail(Translate(s.name, copy.spec), version)]);
      var ledger := s.ledger.(issued := s.ledger.issued + {id}, unreported := true);
      if o == Answered then
        made.(pc := Reporting(copy, SuccessStatus(copy, id, version, now), true), ledger := ledger)
      else
        made.(pc := Reporting(copy, FailureStatus(copy, error, now), false),
              ledger := ledger.(unanswered := ledger.unanswered + {id}))
  }

  function UpdateStep(s: State, o: Outcome, version: string, error: string, now: int): State
    requires s.pc.Syncing?
  {
    var copy := s.pc.copy;
    var id := copy.status.guardrailId;
    var failure := FailureStatus(copy, error, now);
    if o == Refused then s.(pc := Reporting(copy, failure, false))
    else
      s.(remote := s.remote[id := Guardrail(Translate(s.name, copy.spec), version)],
         ledger := s.ledger.(unreported := true),
         pc := Reporting(copy, if o == Answered then SuccessStatus(copy, id, version, now) else failure, false))
  }

  /** No policy of this name yet; Bedrock may already hold guardrails of other people. */
  function Init(name: string, remote: map<string, Guardrail>): State {
    State(name, Server(None, 0, map[]), remote, Idle, false, Ledger({}, {}, {}, {}, {}, false))
  }

  // ----- the columns of the ledger -----

  /** The guardrail that the policy object answers for. */
  function Recorded(s: State): set<string> {
    if s.server.obj.Some? && s.server.obj.value.ours && s.server.obj.value.status.guardrailId != ""
    then {s.server.obj.value.status.guardrailId} else {}
  }

  /** Created by the reconcile in progress, its status patch still to come. */
  function Inflight(s: State): set<string> {
    if s.pc.Reporting? && s.pc.created then {s.pc.next.guardrailId} else {}
  }

  /** What removing the finalizer now would leave behind. */
  function Left(s: State): set<string> {
    if s.pc.RemovingFinalizer? && s.pc.failed && s.pc.copy.status.guardrailId in s.remote
    then {s.pc.copy.status.guardrailId} else {}
  }

  function Lost(s: State): set<string> {
    s.ledger.unrecorded + s.ledger.unanswered + s.ledger.abandoned
  }

  function Synced(st: Status): bool {
    StatusIn(st.conditions, SYNCED) == ConditionTrue
  }

  // ----- invariant -----

  ghost predicate Columns(s: State) {
    var g := s.ledger;
    && "" !in g.issued
    && g.unrecorded !! g.unanswered !! g.abandoned !! Inflight(s) !! Recorded(s)
    && (Inflight(s) == {} || Recorded(s) == {})
    && Lost(s) + Inflight(s) + Recorded(s) + g.tampered <= g.issued
    && g.issued * s.remote.Keys <= Lost(s) + Inflight(s) + Recorded(s)
    && Lost(s) + Inflight(s) <= s.remote.Keys + g.tampered
  }

  /** The identifier exists in Bedrock unless somebody else removed it. */
  ghost predicate Exists(s: State, id: string) {
    id in s.remote || id in s.ledger.tampered
  }

  /** Guardrail `id` holds the translation of `spec`, unless somebody else removed it. */
  ghost predicate Carries(s: State, id: string, spec: Spec) {
    && id != ""
    && (id in s.ledger.tampered || (id in s.remote && s.remote[id].config == Translate(s.name, spec)))
  }

  /** The version in the status is the one that Bedrock gave the guardrail last. */
  ghost predicate Versioned(s: State, st: Status) {
    || st.guardrailId in s.ledger.tampered
    || (st.guardrailId in s.remote && s.remote[st.guardrailId].version == st.guardrailVersion)
  }

  ghost predicate ObjectOk(s: State) {
    s.server.obj.Some? ==>
      var o := s.server.obj.value;
      && (!o.ours && !o.deleting ==> o.status == BLANK)
      && (o.ours && !o.deleting && o.status.guardrailId != "" ==> Exists(s, o.status.guardrailId))
  }

  ghost predicate Truthful(s: State) {
    s.server.obj.Some? && !s.server.obj.value.deleting && !s.ledger.unreported && Synced(s.server.obj.value.status) ==>
      var st := s.server.obj.value.status;
      && st.observedGeneration in s.server.specs
      && Carries(s, st.guardrailId, s.server.specs[st.observedGeneration])
      && Versioned(s, st)
  }

  ghost predicate PcOk(s: State) {
    match s.pc
    case Idle => true
    case AddingFinalizer(c) => ReadFrom(s.server, c) && !c.deleting
    case Syncing(c) =>
      Holds(s.server, c) && !c.deleting && (c.status.guardrailId != "" ==> Exists(s, c.status.guardrailId))
    case Reporting(c, next, created) =>
      && Holds(s.server, c) && !c.deleting
      && next.observedGeneration == c.generation
      && (if created then c.status.guardrailId == "" else next.guardrailId == c.status.guardrailId)
      && (next.guardrailId != "" ==> Exists(s, next.guardrailId))
      && (Synced(next) ==> Carries(s, next.guardrailId, c.spec) && Versioned(s, next))
    case Deleting(c) => Holds(s.server, c) && c.deleting && c.status.guardrailId != ""
    case RemovingFinalizer(c, failed) =>
      && Holds(s.server, c) && c.deleting && (failed ==> c.status.guardrailId != "")
      && (c.status.guardrailId != "" && !failed ==> c.status.guardrailId !in s.remote)
  }

  /** A policy with work left to do is either being worked on or queued. */
  ghost predicate Attended(s: State) {
    s.server.obj.Some? && (!s.server.obj.value.deleting || s.server.obj.value.ours) ==> s.queued || !s.pc.Idle?
  }

  ghost predicate Inv(s: State) {
    Sound(s.server) && Columns(s) && ObjectOk(s) && PcOk(s) && Truthful(s) && Attended(s)
  }

  lemma MergePatchOfDiff(base: Status, to: Status)
    ensures MergePatch(base, Diff(base, to)) == to
  {
  }

  lemma KeepUserPc(s: State, e: UserEvent<Spec>)
    requires Sound(s.server) && PcOk(s)
    ensures Sound(Next(s, User(e)).server)
    ensures PcOk(Next(s, User(e)))
  {
    if !s.pc.Idle? {
      UserKeeps(s.server, e, BLANK, s.pc.copy);
    } else if s.server.obj.Some? {
      UserKeeps(s.server, e, BLANK, s.server.obj.value);
    }
  }

  lemma KeepUserStores(s: State, e: UserEvent<Spec>)
    requires Columns(s) && ObjectOk(s)
    ensures Columns(Next(s, User(e)))
    ensures ObjectOk(Next(s, User(e)))
  {
    var s' := Next(s, User(e));
    assert Recorded(s') == Recorded(s);
    assert Inflight(s') == Inflight(s);
  }

  lemma KeepUserTruth(s: State, e: UserEvent<Spec>)
    requires Sound(s.server) && Truthful(s)
    ensures Truthful(Next(s, User(e)))
  {
  }

  lemma KeepUser(s: State, e: UserEvent<Spec>)
    requires Inv(s)
    ensures Inv(Next(s, User(e)))
  {
    KeepUserPc(s, e);
    KeepUserStores(s, e);
    KeepUserTruth(s, e);
  }

  lemma KeepEnvironment(s: State, a: Action)
    requires Inv(s)
    requires a.OutOfBandDelete? || a.Enqueue? || a.Crash?
    ensures Inv(Next(s, a))
  {
  }

  lemma KeepFetch(s: State, ok: bool)
    requires Inv(s)
    ensures Inv(Next(s, Fetch(ok)))
  {
  }

  lemma KeepAddFinalizer(s: State, o: Outcome)
    requires Inv(s)
    ensures Inv(Next(s, AddFinalizer(o)))
  {
    if s.pc.AddingFinalizer? && !Conflicts(s.server, s.pc.copy) {
      UpdateKeeps(s.server, s.pc.copy, true);
    }
  }

  lemma ReportedStatus(copy: Policy, id: string, version: string, error: string, now: int)
    ensures Synced(SuccessStatus(copy, id, version, now))
    ensures !Synced(FailureStatus(copy, error, now))
  {
    UpsertStatus(copy.status.conditions, SyncedCondition(id, version, now), SYNCED);
    UpsertStatus(copy.status.conditions, FailedCondition(error, now), SYNCED);
  }

  lemma KeepCreate(s: State, o: Outcome, id: string, version: string, error: string, now: int)
    requires Inv(s)
    requires s.pc.Syncing? && s.pc.copy.status.guardrailId == ""
    ensures Inv(CreateStep(s, o, id, version, error, now))
  {
    ReportedStatus(s.pc.copy, id, version, error, now);
    var s' := CreateStep(s, o, id, version, error, now);
    assert Recorded(s') == Recorded(s) == {};
  }

  lemma KeepUpdate(s: State, o: Outcome, version: string, error: string, now: int)
    requires Inv(s)
    requires s.pc.Syncing? && s.pc.copy.status.guardrailId != ""
    requires o == UpdateOutcome(s, s.pc.copy, o)
    ensures Inv(UpdateStep(s, o, version, error, now))
  {
    ReportedStatus(s.pc.copy, s.pc.copy.status.guardrailId, version, error, now);
    var s' := UpdateStep(s, o, version, error, now);
    assert Recorded(s') == Recorded(s) == {s.pc.copy.status.guardrailId};
  }

  lemma KeepSync(s: State, o: Outcome, id: string, version: string, error: string, now: int)
    requires Inv(s)
    ensures Inv(Next(s, Sync(o, id, version, error, now)))
  {
    if s.pc.Syncing? {
      if s.pc.copy.status.guardrailId == "" {
        KeepCreate(s, o, id, version, error, now);
      } else {
        KeepUpdate(s, UpdateOutcome(s, s.pc.copy, o), version, error, now);
      }
    }
  }

  lemma KeepPatch(s: State, o: Outcome)
    requires Inv(s)
    ensures Inv(Next(s, PatchStatus(o)))
  {
    if s.pc.Reporting? {
      MergePatchOfDiff(s.pc.copy.status, s.pc.next);
    }
  }

  lemma KeepDelete(s: State, o: Outcome)
    requires Inv(s)
    ensures Inv(Next(s, DeleteRemote(o)))
  {
  }

  lemma KeepRemoveFinalizer(s: State, o: Outcome)
    requires Inv(s)
    ensures Inv(Next(s, RemoveFinalizer(o)))
  {
    if s.pc.RemovingFinalizer? && !Conflicts(s.server, s.pc.copy) {
      UpdateKeeps(s.server, s.pc.copy, false);
    }
  }
}
