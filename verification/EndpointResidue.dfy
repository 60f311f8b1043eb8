/** What endpoints leave behind in the process: the availability series of the metrics registry
    and the cached clients, which all endpoints and the proxy share. */
module EndpointResidue {
  import opened ApiServer
  import opened EndpointSafety
  import opened EndpointSync
  import opened Residue
  import opened Runs
  import ClientCache

  /** An entry of the availability gauge, or the clients cached under a key. */
  datatype Item = Series(endpoint: Name, modelId: string) | Clients(key: ClientCache.Key)

  function KeyOf(spec: Spec): ClientCache.Key {
    ClientCache.Key(spec.roleArn, spec.region)
  }

  // ----- one endpoint -----

  /** A health check and an invocation cache a client; an answered Service sets the gauge. */
  function Writes(s: State, a: Action): set<Item> {
    match a
    case HealthCheck(_) => if s.pc.Checking? then {Clients(KeyOf(s.pc.copy.spec))} else {}
    case Serve =>
      if s.server.obj.None? || !s.server.obj.value.status.available then {}
      else {Clients(KeyOf(s.server.obj.value.spec))}
    case ReconcileService(o) =>
      if s.pc.Serving? && o == Answered then {Series(s.name, s.pc.copy.spec.modelId)} else {}
    case _ => {}
  }

  /** A deletion reconcile starts, and reads `spec`. */
  predicate Deletes(s: State, a: Action, spec: Spec) {
    && a == Fetch(true) && s.pc.Idle? && s.queued
    && s.server.obj.Some? && s.server.obj.value.deleting && s.server.obj.value.ours
    && s.server.obj.value.spec == spec
  }

  /** It deletes the series and the clients of the spec that it reads; a crash deletes all. */
  predicate Erases(s: State, a: Action, x: Item) {
    || a.Crash?
    || (s.server.obj.Some?
        && Deletes(s, a, s.server.obj.value.spec)
        && (x == Series(s.name, s.server.obj.value.spec.modelId) || x == Clients(KeyOf(s.server.obj.value.spec))))
  }

  const ALONE: Machine<State, Action, Item> := Machine(Next, Writes, Erases)

  // ----- all endpoints of a process -----

  type Fleet = map<Name, State>

  /** One step of one endpoint, or a restart of the process that serves them all. */
  datatype Move = Of(name: Name, action: Action) | Restart

  function Step(f: Fleet, m: Move): Fleet {
    match m
    case Of(n, a) => if n in f && !a.Crash? then f[n := Next(f[n], a)] else f
    case Restart => map n | n in f :: Next(f[n], Crash)
  }

  function FleetWrites(f: Fleet, m: Move): set<Item> {
    if m.Of? && m.name in f && !m.action.Crash? then Writes(f[m.name], m.action) else {}
  }

  predicate FleetErases(f: Fleet, m: Move, x: Item) {
    m.Restart? || (m.name in f && !m.action.Crash? && Erases(f[m.name], m.action, x))
  }

  const TOGETHER: Machine<Fleet, Move, Item> := Machine(Step, FleetWrites, FleetErases)

  function Start(names: set<Name>, proxyService: string, proxyNamespace: string): Fleet {
    map n | n in names :: Init(n, proxyService, proxyNamespace)
  }

  ghost predicate Named(f: Fleet) {
    forall n :: n in f ==> f[n].name == n
  }

  lemma NamedRun(f: Fleet, moves: seq<Move>)
    requires Named(f)
    ensures Named(Run(Step, f, moves)) && Run(Step, f, moves).Keys == f.Keys
  {
    var inv := (g: Fleet) => Named(g) && g.Keys == f.Keys;
    forall g: Fleet, m: Move | inv(g) ensures inv(Step(g, m)) {
    }
    RunKeeps(Step, inv, f, moves);
  }

  // ----- which items are left -----

  /** The fleet before move `i`. */
  function Before(f: Fleet, moves: seq<Move>, i: nat): Fleet
    requires i <= |moves|
  {
    Run(Step, f, moves[..i])
  }

  /** Move `i` is a deletion reconcile of endpoint `n` that reads `spec`. */
  predicate DeletionReads(f: Fleet, moves: seq<Move>, i: nat, n: Name, spec: Spec) {
    && i < |moves| && moves[i].Of? && moves[i].name == n
    && n in Before(f, moves, i) && Deletes(Before(f, moves, i)[n], moves[i].action, spec)
  }

  predicate Restarts(moves: seq<Move>, i: nat) {
    i < |moves| && moves[i].Restart?
  }

  /** Move `i` sets the gauge of endpoint `n` under the model `m`. */
  predicate ServedAs(f: Fleet, moves: seq<Move>, i: nat, n: Name, m: string) {
    && i < |moves| && moves[i] == Of(n, ReconcileService(Answered))
    && n in Before(f, moves, i)
    && var pc := Before(f, moves, i)[n].pc;
    && pc.Serving? && pc.copy.spec.modelId == m
  }

  /** Move `i` looks a client up under `key`, for a health check or an invocation. */
  predicate LooksUp(f: Fleet, moves: seq<Move>, i: nat, key: ClientCache.Key) {
    && i < |moves| && moves[i].Of? && moves[i].name in Before(f, moves, i)
    && var s := Before(f, moves, i)[moves[i].name];
    && (match moves[i].action
        case HealthCheck(_) => s.pc.Checking? && Uses(s.pc.copy.spec, key)
        case Serve =>
          s.server.obj.Some? && s.server.obj.value.status.available && Uses(s.server.obj.value.spec, key)
        case _ => false)
  }

  /** The clients of `spec` are those of its role in its region. */
  predicate Uses(spec: Spec, key: ClientCache.Key) {
    spec.roleArn == key.roleArn && spec.region == key.region
  }

  /** Move `i` deletes the series of endpoint `n` under the model `m`. */
  ghost predicate DropsSeries(f: Fleet, moves: seq<Move>, i: nat, n: Name, m: string) {
    Restarts(moves, i) || exists spec :: DeletionReads(f, moves, i, n, spec) && spec.modelId == m
  }

  /** Move `i` drops the clients cached under `key`, whichever endpoint is being deleted. */
  ghost predicate DropsClients(f: Fleet, moves: seq<Move>, i: nat, key: ClientCache.Key) {
    Restarts(moves, i) || exists n, spec :: DeletionReads(f, moves, i, n, spec) && Uses(spec, key)
  }

  lemma SeriesMoment(f: Fleet, moves: seq<Move>, i: nat, n: Name, m: string)
    requires Named(f)
    ensures WrittenAt(TOGETHER, f, moves, i, Series(n, m)) <==> ServedAs(f, moves, i, n, m)
    ensures ErasedAt(TOGETHER, f, moves, i, Series(n, m)) <==> DropsSeries(f, moves, i, n, m)
  {
    if i < |moves| {
      NamedRun(f, moves[..i]);
      var g := Before(f, moves, i);
      if moves[i].Of? && moves[i].name in g && g[moves[i].name].server.obj.Some? {
        var spec := g[moves[i].name].server.obj.value.spec;
        assert ErasedAt(TOGETHER, f, moves, i, Series(n, m)) ==> DeletionReads(f, moves, i, n, spec);
      }
    }
  }

  lemma ClientsMoment(f: Fleet, moves: seq<Move>, i: nat, key: ClientCache.Key)
    ensures WrittenAt(TOGETHER, f, moves, i, Clients(key)) <==> LooksUp(f, moves, i, key)
    ensures ErasedAt(TOGETHER, f, moves, i, Clients(key)) <==> DropsClients(f, moves, i, key)
  {
    if i < |moves| {
      var g := Before(f, moves, i);
      if moves[i].Of? && moves[i].name in g && g[moves[i].name].server.obj.Some? {
        var spec := g[moves[i].name].server.obj.value.spec;
        assert ErasedAt(TOGETHER, f, moves, i, Clients(key)) ==> DeletionReads(f, moves, i, moves[i].name, spec);
      }
    }
  }

  ghost predicate SeriesKeptFrom(f: Fleet, moves: seq<Move>, from: nat, n: Name, m: string) {
    forall j: nat :: from <= j ==> !DropsSeries(f, moves, j, n, m)
  }

  ghost predicate ClientsKeptFrom(f: Fleet, moves: seq<Move>, from: nat, key: ClientCache.Key) {
    forall j: nat :: from <= j ==> !DropsClients(f, moves, j, key)
  }

  lemma SeriesNoneErased(f: Fleet, moves: seq<Move>, from: nat, n: Name, m: string)
    requires Named(f)
    ensures NoneErased(TOGETHER, f, moves, from, Series(n, m)) <==> SeriesKeptFrom(f, moves, from, n, m)
  {
    forall j: nat ensures ErasedAt(TOGETHER, f, moves, j, Series(n, m)) <==> DropsSeries(f, moves, j, n, m) {
      SeriesMoment(f, moves, j, n, m);
    }
  }

  lemma ClientsNoneErased(f: Fleet, moves: seq<Move>, from: nat, key: ClientCache.Key)
    ensures NoneErased(TOGETHER, f, moves, from, Clients(key)) <==> ClientsKeptFrom(f, moves, from, key)
  {
    forall j: nat ensures ErasedAt(TOGETHER, f, moves, j, Clients(key)) <==> DropsClients(f, moves, j, key) {
      ClientsMoment(f, moves, j, key);
    }
  }

  /** A series is left after a run exactly when some reconcile of the endpoint served that model
      and since then neither the process restarted nor a deletion reconcile of the endpoint
      found the model current. */
  lemma SeriesLeftExactly(f: Fleet, moves: seq<Move>, n: Name, m: string)
    requires Named(f)
    ensures Series(n, m) in Left(TOGETHER, {}, f, moves)
            <==> exists i: nat :: ServedAs(f, moves, i, n, m) && SeriesKeptFrom(f, moves, i + 1, n, m)
  {
    LeftExactly(TOGETHER, {}, f, moves, Series(n, m));
    if i: nat :| WrittenAt(TOGETHER, f, moves, i, Series(n, m)) && NoneErased(TOGETHER, f, moves, i + 1, Series(n, m)) {
      SeriesMoment(f, moves, i, n, m);
      SeriesNoneErased(f, moves, i + 1, n, m);
      assert ServedAs(f, moves, i, n, m) && SeriesKeptFrom(f, moves, i + 1, n, m);
    }
    if i: nat :| ServedAs(f, moves, i, n, m) && SeriesKeptFrom(f, moves, i + 1, n, m) {
      SeriesMoment(f, moves, i, n, m);
      SeriesNoneErased(f, moves, i + 1, n, m);
      assert WrittenAt(TOGETHER, f, moves, i, Series(n, m)) && NoneErased(TOGETHER, f, moves, i + 1, Series(n, m));
    }
  }

  /** Clients are cached after a run exactly when they were looked up at some moment, or cached
      from the beginning, and since then neither the process restarted nor any deletion
      reconcile read their role and region as the current ones of its endpoint. An edit drops
      nothing. */
  lemma ClientsLeftExactly(cached: set<Item>, f: Fleet, moves: seq<Move>, key: ClientCache.Key)
    ensures Clients(key) in Left(TOGETHER, cached, f, moves)
            <==> || (Clients(key) in cached && ClientsKeptFrom(f, moves, 0, key))
                 || exists i: nat :: LooksUp(f, moves, i, key) && ClientsKeptFrom(f, moves, i + 1, key)
  {
    LeftExactly(TOGETHER, cached, f, moves, Clients(key));
    ClientsNoneErased(f, moves, 0, key);
    if i: nat :| WrittenAt(TOGETHER, f, moves, i, Clients(key)) && NoneErased(TOGETHER, f, moves, i + 1, Clients(key)) {
      ClientsMoment(f, moves, i, key);
      ClientsNoneErased(f, moves, i + 1, key);
      assert LooksUp(f, moves, i, key) && ClientsKeptFrom(f, moves, i + 1, key);
    }
    if i: nat :| LooksUp(f, moves, i, key) && ClientsKeptFrom(f, moves, i + 1, key) {
      ClientsMoment(f, moves, i, key);
      ClientsNoneErased(f, moves, i + 1, key);
      assert WrittenAt(TOGETHER, f, moves, i, Clients(key)) && NoneErased(TOGETHER, f, moves, i + 1, Clients(key));
    }
  }

  /** Over any run in which nobody looks a cached key up again, its clients go if and only if
      the process restarts or a deletion reconcile reads the key as the current one. */
  lemma ClientsGoExactly(cached: set<Item>, f: Fleet, moves: seq<Move>, key: ClientCache.Key)
    requires Clients(key) in cached
    requires forall i: nat :: !LooksUp(f, moves, i, key)
    ensures Clients(key) !in Left(TOGETHER, cached, f, moves) <==> exists j: nat :: DropsClients(f, moves, j, key)
  {
    ClientsLeftExactly(cached, f, moves, key);
  }

  /** An endpoint has no series left exactly when every model it was served as was, after its
      last service, either lost to a restart or current in a deletion reconcile. */
  lemma NoSeriesLeftExactly(f: Fleet, moves: seq<Move>, n: Name)
    requires Named(f)
    ensures (forall m :: Series(n, m) !in Left(TOGETHER, {}, f, moves))
            <==> forall i: nat, m :: ServedAs(f, moves, i, n, m) ==> !SeriesKeptFrom(f, moves, i + 1, n, m)
  {
    forall m
      ensures Series(n, m) in Left(TOGETHER, {}, f, moves)
              <==> exists i: nat :: ServedAs(f, moves, i, n, m) && SeriesKeptFrom(f, moves, i + 1, n, m)
    {
      SeriesLeftExactly(f, moves, n, m);
    }
    if i: nat, m :| ServedAs(f, moves, i, n, m) && SeriesKeptFrom(f, moves, i + 1, n, m) {
      assert Series(n, m) in Left(TOGETHER, {}, f, moves);
    }
  }

  // ----- endpoints whose model is never edited -----

  /** Every spec that anybody gives endpoint `n` names the model `m`. */
  ghost predicate OneModel(moves: seq<Move>, n: Name, m: string) {
    forall i :: 0 <= i < |moves| ==> KeepsModel(moves[i], n, m)
  }

  predicate KeepsModel(move: Move, n: Name, m: string) {
    move.Of? && move.name == n && move.action.User? ==>
      && (move.action.event.Created? ==> move.action.event.spec.modelId == m)
      && (move.action.event.Edited? ==> move.action.event.spec.modelId == m)
  }

  /** The spec and the copy name `m`, and the series of `m` is gone before our finalizer is. */
  ghost predicate TidyState(s: State, left: bool, m: string) {
    && (s.server.obj.Some? ==> s.server.obj.value.spec.modelId == m)
    && (!s.pc.Idle? ==> s.pc.copy.spec.modelId == m)
    && (left ==> s.server.obj.Some? && s.server.obj.value.ours && !s.pc.RemovingFinalizer?)
  }

  /** Whether the series of `m` is left after a step. */
  function LeftAfter(s: State, a: Action, left: bool, m: string): bool {
    (left && !Erases(s, a, Series(s.name, m))) || Series(s.name, m) in Writes(s, a)
  }

  lemma TidyUser(s: State, e: UserEvent<Spec>, left: bool, m: string)
    requires Inv(s) && TidyState(s, left, m)
    requires (e.Created? ==> e.spec.modelId == m) && (e.Edited? ==> e.spec.modelId == m)
    ensures TidyState(Next(s, User(e)), left, m)
  {
  }

  lemma TidyFinalizer(s: State, a: Action, left: bool, m: string)
    requires Inv(s) && TidyState(s, left, m)
    requires a.AddFinalizer? || a.RemoveFinalizer?
    ensures TidyState(Next(s, a), left, m)
  {
    if (s.pc.AddingFinalizer? || s.pc.RemovingFinalizer?) && !Conflicts(s.server, s.pc.copy) {
      UpdateKeeps(s.server, s.pc.copy, s.pc.AddingFinalizer?);
    }
  }

  lemma TidyNext(s: State, a: Action, left: bool, m: string)
    requires Inv(s) && TidyState(s, left, m)
    requires a.User? && (a.event.Created? || a.event.Edited?) ==> a.event.spec.modelId == m
    ensures TidyState(Next(s, a), LeftAfter(s, a, left, m), m)
  {
    match a
    case User(e) => TidyUser(s, e, left, m);
    case AddFinalizer(_) => TidyFinalizer(s, a, left, m);
    case RemoveFinalizer(_) => TidyFinalizer(s, a, left, m);
    case Fetch(ok) => TidyFetch(s, ok, left, m);
    case ReconcileService(o) => TidyService(s, o, left, m);
    case _ =>
  }

  /** A deletion reconcile finds `m` current and deletes its series. */
  lemma TidyFetch(s: State, ok: bool, left: bool, m: string)
    requires Inv(s) && TidyState(s, left, m)
    ensures TidyState(Next(s, Fetch(ok)), LeftAfter(s, Fetch(ok), left, m), m)
  {
  }

  lemma TidyService(s: State, o: Outcome, left: bool, m: string)
    requires Inv(s) && TidyState(s, left, m)
    ensures TidyState(Next(s, ReconcileService(o)), LeftAfter(s, ReconcileService(o), left, m), m)
  {
  }

  /** No series of endpoint `n` but that of `m`. */
  ghost predicate Tidy(f: Fleet, kept: set<Item>, n: Name, m: string) {
    && Named(f) && n in f && Inv(f[n])
    && TidyState(f[n], Series(n, m) in kept, m)
    && (forall model :: Series(n, model) in kept ==> model == m)
  }

  lemma TidyOwn(f: Fleet, kept: set<Item>, n: Name, a: Action, m: string)
    requires Tidy(f, kept, n, m) && KeepsModel(Of(n, a), n, m) && !a.Crash?
    ensures Tidy(Step(f, Of(n, a)), After(TOGETHER, kept, f, Of(n, a)), n, m)
  {
    KeepStep(f[n], a);
    TidyNext(f[n], a, Series(n, m) in kept, m);
    TidyItems(f, kept, n, a, m);
  }

  lemma TidyItems(f: Fleet, kept: set<Item>, n: Name, a: Action, m: string)
    requires n in f && f[n].name == n && !a.Crash?
    requires f[n].pc.Serving? ==> f[n].pc.copy.spec.modelId == m
    requires forall model :: Series(n, model) in kept ==> model == m
    ensures var after := After(TOGETHER, kept, f, Of(n, a));
            && (Series(n, m) in after <==> LeftAfter(f[n], a, Series(n, m) in kept, m))
            && forall model :: Series(n, model) in after ==> model == m
  {
  }

  lemma TidyStep(f: Fleet, kept: set<Item>, n: Name, move: Move, m: string)
    requires Tidy(f, kept, n, m) && KeepsModel(move, n, m)
    ensures Tidy(Step(f, move), After(TOGETHER, kept, f, move), n, m)
  {
    if move.Restart? {
      KeepStep(f[n], Crash);
    } else if move.name == n && !move.action.Crash? {
      TidyOwn(f, kept, n, move.action, m);
    }
  }

  lemma {:induction false} TidyRun(f: Fleet, kept: set<Item>, n: Name, moves: seq<Move>, m: string)
    requires Tidy(f, kept, n, m) && OneModel(moves, n, m)
    ensures Tidy(Run(Step, f, moves), Left(TOGETHER, kept, f, moves), n, m)
    decreases |moves|
  {
    if moves != [] {
      TidyStep(f, kept, n, moves[0], m);
      TidyRun(Step(f, moves[0]), After(TOGETHER, kept, f, moves[0]), n, moves[1..], m);
    }
  }

  /** An endpoint whose model is never edited leaves no series behind, in any run. */
  lemma OneModelLeavesNone(names: set<Name>, proxyService: string, proxyNamespace: string, moves: seq<Move>, n: Name,
                           m: string)
    requires n in names && OneModel(moves, n, m)
    ensures var start := Start(names, proxyService, proxyNamespace);
            var end := Run(Step, start, moves);
            n in end && (Released(end[n]) ==> forall model :: Series(n, model) !in Left(TOGETHER, {}, start, moves))
  {
    TidyRun(Start(names, proxyService, proxyNamespace), {}, n, moves, m);
  }

  // ----- endpoints that do leave something behind -----

  function Moves(n: Name, actions: seq<Action>): seq<Move> {
    seq(|actions|, i requires 0 <= i < |actions| => Of(n, actions[i]))
  }

  /** A process with one endpoint runs like the endpoint. */
  lemma {:induction false} AloneInFleet(kept: set<Item>, s: State, actions: seq<Action>)
    requires forall i :: 0 <= i < |actions| ==> !actions[i].Crash?
    ensures Run(Step, map[s.name := s], Moves(s.name, actions)) == map[s.name := Run(Next, s, actions)]
    ensures Left(TOGETHER, kept, map[s.name := s], Moves(s.name, actions)) == Left(ALONE, kept, s, actions)
    decreases |actions|
  {
    if actions != [] {
      var f, s1 := map[s.name := s], Next(s, actions[0]);
      assert Moves(s.name, actions)[1..] == Moves(s.name, actions[1..]);
      assert Step(f, Of(s.name, actions[0])) == map[s1.name := s1];
      assert After(TOGETHER, kept, f, Of(s.name, actions[0])) == After(ALONE, kept, s, actions[0]);
      AloneInFleet(After(ALONE, kept, s, actions[0]), s1, actions[1..]);
    }
  }

  lemma AloneFromStart(n: Name, proxyService: string, proxyNamespace: string, actions: seq<Action>)
    requires forall i :: 0 <= i < |actions| ==> !actions[i].Crash?
    ensures var start, s := Start({n}, proxyService, proxyNamespace), Init(n, proxyService, proxyNamespace);
            && Run(Step, start, Moves(n, actions)) == map[n := Run(Next, s, actions)]
            && Left(TOGETHER, {}, start, Moves(n, actions)) == Left(ALONE, {}, s, actions)
  {
    var s := Init(n, proxyService, proxyNamespace);
    assert Start({n}, proxyService, proxyNamespace) == map[n := s];
    AloneInFleet({}, s, actions);
  }

  /** A new endpoint of spec `a` up to its first status patch. */
  function FirstReconciles(a: Spec, h: Health): seq<Action> {
    [User(Created(a)), Fetch(true), AddFinalizer(Answered)] + [Fetch(true), HealthCheck(h), ReconcileService(Answered)]
  }

  /** Steps that neither look a client up, nor serve, nor delete. */
  lemma {:induction false} NothingLeft(kept: set<Item>, s: State, actions: seq<Action>)
    requires forall i :: 0 <= i < |actions| ==>
               actions[i].User? || actions[i].AddFinalizer? || actions[i].PatchStatus? || actions[i].RemoveFinalizer?
    ensures Left(ALONE, kept, s, actions) == kept
    decreases |actions|
  {
    if actions != [] {
      assert After(ALONE, kept, s, actions[0]) == kept;
      NothingLeft(kept, Next(s, actions[0]), actions[1..]);
    }
  }

  /** A live endpoint of spec `a` with our finalizer, about to be reconciled. */
  ghost predicate Fresh(s: State, a: Spec) {
    && s.pc.Idle? && s.queued && s.log == []
    && s.server.obj.Some? && s.server.obj.value.spec == a
    && s.server.obj.value.ours && !s.server.obj.value.foreign && !s.server.obj.value.deleting
    && s.server.obj.value.uid == 0 && s.server.obj.value.generation == 1
  }

  lemma CreatedItems(s: State, create: seq<Action>, a: Spec)
    requires s == Init(s.name, s.proxyService, s.proxyNamespace)
    requires create == [User(Created(a)), Fetch(true), AddFinalizer(Answered)]
    ensures Fresh(Run(Next, s, create), a) && Run(Next, s, create).name == s.name
    ensures Left(ALONE, {}, s, create) == {}
  {
    Unrolled(Next, s, create);
    LeftUnrolled(ALONE, {}, s, create);
  }

  lemma CheckedItems(s: State, check: seq<Action>, a: Spec, h: Health)
    requires Fresh(s, a)
    requires check == [Fetch(true), HealthCheck(h), ReconcileService(Answered)]
    ensures FirstCheck(Run(Next, s, check), a, h) && Run(Next, s, check).name == s.name
    ensures Left(ALONE, {}, s, check) == {Clients(KeyOf(a)), Series(s.name, a.modelId)}
  {
    Unrolled(Next, s, check);
    LeftUnrolled(ALONE, {}, s, check);
  }

  lemma FirstItems(s: State, a: Spec, h: Health)
    requires s == Init(s.name, s.proxyService, s.proxyNamespace)
    ensures FirstCheck(Run(Next, s, FirstReconciles(a, h)), a, h)
    ensures Run(Next, s, FirstReconciles(a, h)).name == s.name
    ensures Left(ALONE, {}, s, FirstReconciles(a, h)) == {Clients(KeyOf(a)), Series(s.name, a.modelId)}
  {
    var create := [User(Created(a)), Fetch(true), AddFinalizer(Answered)];
    var check := [Fetch(true), HealthCheck(h), ReconcileService(Answered)];
    CreatedItems(s, create, a);
    CheckedItems(Run(Next, s, create), check, a, h);
    RunConcat(Next, s, create, check);
    LeftConcat(ALONE, {}, s, create, check);
  }

  /** Then it is edited to `b` and deleted. */
  function EditedAndDeleted(a: Spec, b: Spec, h: Health): seq<Action> {
    FirstReconciles(a, h)
    + ([PatchStatus(Answered, 0, 0), User(Edited(b)), User(Deleted)] + [Fetch(true), RemoveFinalizer(Answered)])
  }

  /** Or it is deleted unedited, and the proxy serves one more request on the way. */
  function ServedAndDeleted(a: Spec, h: Health): seq<Action> {
    FirstReconciles(a, h)
    + ([PatchStatus(Answered, 0, 0), User(Deleted), Fetch(true)] + [Serve, RemoveFinalizer(Answered)])
  }

  lemma EditedItems(s: State, kept: set<Item>, a: Spec, b: Spec, h: Health)
    requires FirstCheck(s, a, h) && a != b
    ensures var rest := [PatchStatus(Answered, 0, 0), User(Edited(b)), User(Deleted)]
            + [Fetch(true), RemoveFinalizer(Answered)];
            && Run(Next, s, rest).server.obj.None?
            && Left(ALONE, kept, s, rest) == kept - {Clients(KeyOf(b)), Series(s.name, b.modelId)}
  {
    var edit := [PatchStatus(Answered, 0, 0), User(Edited(b)), User(Deleted)];
    var bye := [Fetch(true), RemoveFinalizer(Answered)];
    RunConcat(Next, s, edit, bye);
    LeftConcat(ALONE, kept, s, edit, bye);
    NothingLeft(kept, s, edit);
    EditedState(s, edit, a, b, h);
    GoneItems(Run(Next, s, edit), kept, bye, b);
  }

  /** To be deleted as `b`, with no finalizer but ours. */
  ghost predicate Doomed(s: State, b: Spec) {
    && s.pc.Idle? && s.queued
    && s.server.obj.Some? && s.server.obj.value.spec == b
    && s.server.obj.value.ours && !s.server.obj.value.foreign && s.server.obj.value.deleting
  }

  lemma EditedState(s: State, edit: seq<Action>, a: Spec, b: Spec, h: Health)
    requires FirstCheck(s, a, h) && a != b
    requires edit == [PatchStatus(Answered, 0, 0), User(Edited(b)), User(Deleted)]
    ensures Doomed(Run(Next, s, edit), b) && Run(Next, s, edit).name == s.name
  {
    Unrolled(Next, s, edit);
  }

  lemma GoneItems(s: State, kept: set<Item>, bye: seq<Action>, b: Spec)
    requires Doomed(s, b)
    requires bye == [Fetch(true), RemoveFinalizer(Answered)]
    ensures Run(Next, s, bye).server.obj.None?
    ensures Left(ALONE, kept, s, bye) == kept - {Clients(KeyOf(b)), Series(s.name, b.modelId)}
  {
    Unrolled(Next, s, bye);
    LeftUnrolled(ALONE, kept, s, bye);
  }

  lemma ServedItems(s: State, kept: set<Item>, a: Spec, h: Health)
    requires FirstCheck(s, a, h) && h.available
    ensures var rest := [PatchStatus(Answered, 0, 0), User(Deleted), Fetch(true)] + [Serve, RemoveFinalizer(Answered)];
            && Run(Next, s, rest).server.obj.None?
            && Clients(KeyOf(a)) in Left(ALONE, kept, s, rest)
  {
    var delete, bye := [PatchStatus(Answered, 0, 0), User(Deleted), Fetch(true)], [Serve, RemoveFinalizer(Answered)];
    RunConcat(Next, s, delete, bye);
    LeftConcat(ALONE, kept, s, delete, bye);
    DeletedState(s, delete, a, h);
    LastRequest(Run(Next, s, delete), Left(ALONE, kept, s, delete), bye, a);
  }

  /** Invalidated and about to lose our finalizer, the only one, but still available. */
  ghost predicate StillServed(s: State, a: Spec) {
    && s.pc.RemovingFinalizer? && s.server.obj == Some(s.pc.copy)
    && s.pc.copy.spec == a && s.pc.copy.status.available && s.pc.copy.deleting && !s.pc.copy.foreign
  }

  lemma DeletedState(s: State, delete: seq<Action>, a: Spec, h: Health)
    requires FirstCheck(s, a, h) && h.available
    requires delete == [PatchStatus(Answered, 0, 0), User(Deleted), Fetch(true)]
    ensures StillServed(Run(Next, s, delete), a)
  {
    Unrolled(Next, s, delete);
  }

  lemma LastRequest(s: State, kept: set<Item>, bye: seq<Action>, a: Spec)
    requires StillServed(s, a)
    requires bye == [Serve, RemoveFinalizer(Answered)]
    ensures Run(Next, s, bye).server.obj.None?
    ensures Clients(KeyOf(a)) in Left(ALONE, kept, s, bye)
  {
    Unrolled(Next, s, bye);
    LeftUnrolled(ALONE, kept, s, bye);
  }

  /** What an edit leaves: after it, the endpoint is deleted and gone, and the series of its
      first model and the clients of its first role and region are still there. */
  lemma EditLeavesTheOld(n: Name, proxyService: string, proxyNamespace: string, a: Spec, b: Spec, h: Health)
    requires a != b
    ensures var start := Start({n}, proxyService, proxyNamespace);
            var moves := Moves(n, EditedAndDeleted(a, b, h));
            && n in Run(Step, start, moves) && Run(Step, start, moves)[n].server.obj.None?
            && (a.modelId != b.modelId ==> Series(n, a.modelId) in Left(TOGETHER, {}, start, moves))
            && (a.roleArn != b.roleArn || a.region != b.region ==>
                  Clients(ClientCache.Key(a.roleArn, a.region)) in Left(TOGETHER, {}, start, moves))
  {
    var s := Init(n, proxyService, proxyNamespace);
    var first := FirstReconciles(a, h);
    var rest := [PatchStatus(Answered, 0, 0), User(Edited(b)), User(Deleted)]
      + [Fetch(true), RemoveFinalizer(Answered)];
    FirstItems(s, a, h);
    EditedItems(Run(Next, s, first), Left(ALONE, {}, s, first), a, b, h);
    RunConcat(Next, s, first, rest);
    LeftConcat(ALONE, {}, s, first, rest);
    AloneFromStart(n, proxyService, proxyNamespace, first + rest);
  }

  /** Without any edit, one request that the proxy serves between the invalidation and the
      removal of the finalizer caches the clients again, and they outlive the endpoint. */
  lemma TrafficCachesAgain(n: Name, proxyService: string, proxyNamespace: string, a: Spec, h: Health)
    requires h.available
    ensures var start := Start({n}, proxyService, proxyNamespace);
            var moves := Moves(n, ServedAndDeleted(a, h));
            && n in Run(Step, start, moves) && Run(Step, start, moves)[n].server.obj.None?
            && Clients(ClientCache.Key(a.roleArn, a.region)) in Left(TOGETHER, {}, start, moves)
  {
    var s := Init(n, proxyService, proxyNamespace);
    var first := FirstReconciles(a, h);
    var rest := [PatchStatus(Answered, 0, 0), User(Deleted), Fetch(true)] + [Serve, RemoveFinalizer(Answered)];
    FirstItems(s, a, h);
    ServedItems(Run(Next, s, first), Left(ALONE, {}, s, first), a, h);
    RunConcat(Next, s, first, rest);
    LeftConcat(ALONE, {}, s, first, rest);
    AloneFromStart(n, proxyService, proxyNamespace, first + rest);
  }
}
