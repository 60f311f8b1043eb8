/** The cache of Bedrock clients: double-checked locking over one RWMutex and two maps, any
    number of threads, and invalidation at any time. */
module ClientCache {
  import opened ApiServer
  import opened Runs

  datatype Key = Key(roleArn: string, region: string)

  /** The runtime map and the control-plane map. */
  datatype Plane = Runtime | Control

  /** A client carries the role and region of the key it was built for. */
  datatype Client = Client(id: nat, plane: Plane, key: Key)

  datatype Op = Lookup(plane: Plane, key: Key) | Invalidate(key: Key)

  datatype Result = Got(client: Client) | Failed | Dropped

  // ----- the atomic object -----

  datatype Tables = Tables(runtime: map<Key, Client>, control: map<Key, Client>)

  function Table(tb: Tables, plane: Plane): map<Key, Client> {
    match plane
    case Runtime => tb.runtime
    case Control => tb.control
  }

  function With(tb: Tables, plane: Plane, table: map<Key, Client>): Tables {
    match plane
    case Runtime => tb.(runtime := table)
    case Control => tb.(control := table)
  }

  const EMPTY := Tables(map[], map[])

  /** One operation taking effect at one instant. */
  datatype Point = Point(thread: nat, op: Op, result: Result)

  /** Get-or-create and delete, as atomic operations. */
  predicate Legal(tb: Tables, p: Point) {
    match p.op
    case Lookup(plane, key) =>
      var table := Table(tb, plane);
      (match p.result
       case Got(c) => if key in table then c == table[key] else c.plane == plane && c.key == key
       case Failed => key !in table
       case Dropped => false)
    case Invalidate(_) => p.result == Dropped
  }

  function Atomic(tb: Tables, p: Point): Tables {
    match p.op
    case Lookup(plane, key) =>
      if p.result.Got? then With(tb, plane, Table(tb, plane)[key := p.result.client]) else tb
    case Invalidate(key) => Tables(tb.runtime - {key}, tb.control - {key})
  }

  function Replay(h: seq<Point>): Tables {
    if h == [] then EMPTY else Atomic(Replay(h[..|h| - 1]), h[|h| - 1])
  }

  /** A lookup that finds nothing and returns a client has made it. */
  predicate Creates(tb: Tables, p: Point) {
    p.op.Lookup? && p.result.Got? && p.op.key !in Table(tb, p.op.plane)
  }

  /** No point has returned this client. */
  ghost predicate NewTo(h: seq<Point>, c: Client) {
    forall i :: 0 <= i < |h| && h[i].result.Got? ==> h[i].result.client.id != c.id
  }

  /** Every point is legal where it stands, and what a lookup makes is new: a client that an
      invalidation dropped never comes back. */
  ghost predicate LegalHistory(h: seq<Point>) {
    forall i :: 0 <= i < |h| ==> LegalAt(h, i)
  }

  ghost predicate LegalAt(h: seq<Point>, i: nat)
    requires i < |h|
  {
    && Legal(Replay(h[..i]), h[i])
    && (Creates(Replay(h[..i]), h[i]) ==> NewTo(h[..i], h[i].result.client))
  }

  // ----- the threads -----

  /** Where a call stands. The states from Reading to ReadMiss hold the read lock, those from
      Checking to Unlocking the write lock. */
  datatype Pc =
    | WantRead
    | Reading
    | ReadHit(client: Client)
    | ReadMiss
    | WantWrite
    | Checking
    | Building
    | Storing(client: Client)
    | DroppingRuntime
    | DroppingControl
    | Unlocking(result: Result)
    | Finished(result: Result)

  datatype Thread = Thread(op: Op, pc: Pc)

  /** `points` is the history of linearization points and `built` every client ever built; no
      code reads them. */
  datatype State = State(
    tables: Tables,
    readers: set<nat>,
    writer: Option<nat>,
    threads: seq<Thread>,
    nextId: nat,
    points: seq<Point>,
    built: seq<Client>
  )

  /** `ok` decides whether assuming the role succeeds, where that matters. */
  datatype Action = Call(op: Op) | Step(thread: nat, ok: bool)

  const INIT := State(EMPTY, {}, None, [], 0, [], [])

  function Move(s: State, t: nat, pc: Pc): State
    requires t < |s.threads|
  {
    s.(threads := s.threads[t := s.threads[t].(pc := pc)])
  }

  /** Thread `t` moves on and its operation takes effect here. */
  function Decide(s: State, t: nat, pc: Pc, result: Result): State
    requires t < |s.threads|
  {
    Move(s, t, pc).(points := s.points + [Point(t, s.threads[t].op, result)])
  }

  function Next(s: State, a: Action): State {
    match a
    case Call(op) => s.(threads := s.threads + [Thread(op, if op.Lookup? then WantRead else WantWrite)])
    case Step(t, ok) =>
      if t >= |s.threads| then s
      else
        var key := s.threads[t].op.key;
        match s.threads[t].pc
        case WantRead => if s.writer.Some? then s else Move(s, t, Reading).(readers := s.readers + {t})
        case Reading => ReadStep(s, t)
        case ReadHit(c) => Move(s, t, Finished(Got(c))).(readers := s.readers - {t})
        case ReadMiss => Move(s, t, WantWrite).(readers := s.readers - {t})
        case WantWrite =>
          if s.writer.Some? || s.readers != {} then s
          else Move(s, t, if s.threads[t].op.Lookup? then Checking else DroppingRuntime).(writer := Some(t))
        case Checking => CheckStep(s, t)
        case Building => BuildStep(s, t, ok)
        case Storing(c) => StoreStep(s, t, c)
        case DroppingRuntime =>
          Decide(s, t, DroppingControl, Dropped).(tables := s.tables.(runtime := s.tables.runtime - {key}))
        case DroppingControl =>
          Move(s, t, Unlocking(Dropped)).(tables := s.tables.(control := s.tables.control - {key}))
        case Unlocking(r) => Move(s, t, Finished(r)).(writer := None)
        case Finished(_) => s
  }

  function ReadStep(s: State, t: nat): State
    requires t < |s.threads|
  {
    if !s.threads[t].op.Lookup? then s
    else
      var table := Table(s.tables, s.threads[t].op.plane);
      var key := s.threads[t].op.key;
      if key in table then Decide(s, t, ReadHit(table[key]), Got(table[key])) else Move(s, t, ReadMiss)
  }

  function CheckStep(s: State, t: nat): State
    requires t < |s.threads|
  {
    if !s.threads[t].op.Lookup? then s
    else
      var table := Table(s.tables, s.threads[t].op.plane);
      var key := s.threads[t].op.key;
      if key in table then Decide(s, t, Unlocking(Got(table[key])), Got(table[key])) else Move(s, t, Building)
  }

  function BuildStep(s: State, t: nat, ok: bool): State
    requires t < |s.threads|
  {
    if !s.threads[t].op.Lookup? then s
    else if !ok then Decide(s, t, Unlocking(Failed), Failed)
    else
      var c := Client(s.nextId, s.threads[t].op.plane, s.threads[t].op.key);
      Move(s, t, Storing(c)).(nextId := s.nextId + 1, built := s.built + [c])
  }

  function StoreStep(s: State, t: nat, c: Client): State
    requires t < |s.threads|
  {
    if !s.threads[t].op.Lookup? then s
    else
      var plane := s.threads[t].op.plane;
      Decide(s, t, Unlocking(Got(c)), Got(c)).(
        tables := With(s.tables, plane, Table(s.tables, plane)[s.threads[t].op.key := c]))
  }

  // ----- invariant -----

  predicate HoldsRead(pc: Pc) {
    pc.Reading? || pc.ReadHit? || pc.ReadMiss?
  }

  predicate HoldsWrite(pc: Pc) {
    pc.Checking? || pc.Building? || pc.Storing? || pc.DroppingRuntime? || pc.DroppingControl? || pc.Unlocking?
  }

  /** A writer excludes readers and writers, and locks are held exactly where the code says. */
  ghost predicate Locked(s: State) {
    && (s.writer.Some? ==> s.readers == {} && s.writer.value < |s.threads|)
    && (forall t :: t in s.readers ==> t < |s.threads|)
    && (forall t :: 0 <= t < |s.threads| ==>
          && (t in s.readers <==> HoldsRead(s.threads[t].pc))
          && (s.writer == Some(t) <==> HoldsWrite(s.threads[t].pc)))
  }

  /** The atomic object: a dropping writer has already dropped both entries. */
  function Abstract(s: State): Tables {
    if s.writer.Some? && s.writer.value < |s.threads| && s.threads[s.writer.value].pc.DroppingControl?
    then s.tables.(control := s.tables.control - {s.threads[s.writer.value].op.key})
    else s.tables
  }

  /** What a thread's operation returned, once it has taken effect. */
  function Decision(pc: Pc): Option<Result> {
    match pc
    case ReadHit(c) => Some(Got(c))
    case DroppingControl => Some(Dropped)
    case Unlocking(r) => Some(r)
    case Finished(r) => Some(r)
    case _ => None
  }

  /** The points of one thread. */
  function Of(h: seq<Point>, t: nat): seq<Point> {
    if h == [] then []
    else
      var rest := Of(h[..|h| - 1], t);
      if h[|h| - 1].thread == t then rest + [h[|h| - 1]] else rest
  }

  ghost predicate Decided(s: State) {
    && (forall t :: 0 <= t < |s.threads| ==>
          Of(s.points, t) == match Decision(s.threads[t].pc)
                             case None => []
                             case Some(r) => [Point(t, s.threads[t].op, r)])
    && (forall i :: 0 <= i < |s.points| ==> s.points[i].thread < |s.threads|)
  }

  /** A thread runs the code of its own operation, and knows what the write lock told it. */
  predicate ThreadOk(tb: Tables, th: Thread) {
    match th.pc
    case WantWrite => true
    case Unlocking(_) => true
    case Finished(_) => true
    case DroppingRuntime => th.op.Invalidate?
    case DroppingControl => th.op.Invalidate?
    case Building => th.op.Lookup? && th.op.key !in Table(tb, th.op.plane)
    case Storing(c) =>
      th.op.Lookup? && th.op.key !in Table(tb, th.op.plane) && c.plane == th.op.plane && c.key == th.op.key
    case _ => th.op.Lookup?
  }

  ghost predicate Below(tb: Tables, n: nat) {
    forall plane, key :: key in Table(tb, plane) ==> Table(tb, plane)[key].id < n
  }

  /** Identifiers are handed out once, and a client that waits to be stored is still unseen. */
  ghost predicate Numbered(s: State) {
    && (forall i :: 0 <= i < |s.points| && s.points[i].result.Got? ==> s.points[i].result.client.id < s.nextId)
    && Below(s.tables, s.nextId)
    && (forall t :: 0 <= t < |s.threads| && s.threads[t].pc.Storing? ==>
          s.threads[t].pc.client.id < s.nextId && NewTo(s.points, s.threads[t].pc.client))
  }

  ghost predicate Inv(s: State) {
    && Locked(s)
    && Numbered(s)
    && Decided(s)
    && (forall t :: 0 <= t < |s.threads| ==> ThreadOk(s.tables, s.threads[t]))
    && LegalHistory(s.points)
    && Replay(s.points) == Abstract(s)
  }

  lemma BelowAtomic(tb: Tables, p: Point, n: nat, m: nat)
    requires Below(tb, n) && n <= m && (p.op.Lookup? && p.result.Got? ==> p.result.client.id < m)
    ensures Below(Atomic(tb, p), m)
  {
    forall plane, key | key in Table(Atomic(tb, p), plane) ensures Table(Atomic(tb, p), plane)[key].id < m {
      assert key in Table(tb, plane) ==> Table(tb, plane)[key].id < n;
    }
  }

  lemma HistorySnoc(h: seq<Point>, p: Point)
    requires LegalHistory(h) && Legal(Replay(h), p)
    requires Creates(Replay(h), p) ==> NewTo(h, p.result.client)
    ensures LegalHistory(h + [p])
    ensures Replay(h + [p]) == Atomic(Replay(h), p)
  {
    var h' := h + [p];
    assert h'[..|h|] == h;
    forall i | 0 <= i < |h'| ensures LegalAt(h', i) {
      if i < |h| {
        assert LegalAt(h, i);
        assert h'[..i] == h[..i];
      }
    }
  }

  lemma OfSnoc(h: seq<Point>, p: Point)
    ensures forall t :: Of(h + [p], t) == if p.thread == t then Of(h, t) + [p] else Of(h, t)
  {
    assert (h + [p])[..|h|] == h;
  }

  lemma KeepCall(s: State, op: Op)
    requires Inv(s)
    ensures Inv(Next(s, Call(op)))
  {
    var t := |s.threads|;
    NoPoints(s.points, t);
  }

  lemma {:induction false} NoPoints(h: seq<Point>, t: nat)
    requires forall i :: 0 <= i < |h| ==> h[i].thread < t
    ensures Of(h, t) == []
  {
    if h != [] {
      NoPoints(h[..|h| - 1], t);
    }
  }

  lemma KeepLocks(s: State, t: nat, ok: bool)
    requires Locked(s) && t < |s.threads|
    requires forall u :: 0 <= u < |s.threads| ==> ThreadOk(s.tables, s.threads[u])
    ensures Locked(Next(s, Step(t, ok)))
    ensures forall u :: 0 <= u < |s.threads| ==> ThreadOk(Next(s, Step(t, ok)).tables, Next(s, Step(t, ok)).threads[u])
  {
    assert ThreadOk(s.tables, s.threads[t]);
    var s' := Next(s, Step(t, ok));
    forall u | 0 <= u < |s.threads| ensures ThreadOk(s'.tables, s'.threads[u]) {
      assert ThreadOk(s.tables, s.threads[u]);
      if HoldsWrite(s.threads[t].pc) && u != t {
        assert s.writer == Some(t);
        assert !HoldsWrite(s.threads[u].pc);
      }
    }
  }

  /** The point that thread `t` adds when it moves from `s` to `s'`, if it adds one. */
  function PointAdded(s: State, s': State, t: nat): seq<Point>
    requires t < |s.threads| && t < |s'.threads|
  {
    var d, d' := Decision(s.threads[t].pc), Decision(s'.threads[t].pc);
    if d.None? && d'.Some? then [Point(t, s.threads[t].op, d'.value)] else []
  }

  /** What one step contributes to the history, and what it does to the atomic object. */
  ghost predicate Contributes(s: State, s': State, t: nat)
    requires t < |s.threads|
  {
    && |s'.threads| == |s.threads|
    && s'.threads == s.threads[t := s'.threads[t]]
    && s'.threads[t].op == s.threads[t].op
    && var added := PointAdded(s, s', t);
    && s'.points == s.points + added
    && (if added == []
        then Abstract(s') == Abstract(s) && Decision(s'.threads[t].pc) == Decision(s.threads[t].pc)
        else Legal(Abstract(s), added[0]) && Abstract(s') == Atomic(Abstract(s), added[0]))
  }

  lemma ReadPoints(s: State, t: nat, ok: bool)
    requires Locked(s) && t < |s.threads| && ThreadOk(s.tables, s.threads[t])
    requires s.threads[t].pc.WantRead? || HoldsRead(s.threads[t].pc)
    ensures Contributes(s, Next(s, Step(t, ok)), t)
  {
  }

  lemma WaitPoints(s: State, t: nat, ok: bool)
    requires Locked(s) && t < |s.threads| && ThreadOk(s.tables, s.threads[t])
    requires s.threads[t].pc.WantWrite? || s.threads[t].pc.Finished?
    ensures Contributes(s, Next(s, Step(t, ok)), t)
  {
  }

  lemma DropPoints(s: State, t: nat, ok: bool)
    requires Locked(s) && t < |s.threads| && ThreadOk(s.tables, s.threads[t])
    requires s.threads[t].pc.DroppingRuntime? || s.threads[t].pc.DroppingControl? || s.threads[t].pc.Unlocking?
    ensures Contributes(s, Next(s, Step(t, ok)), t)
  {
    assert s.writer == Some(t);
  }

  lemma LookupPoints(s: State, t: nat, ok: bool)
    requires Locked(s) && t < |s.threads| && ThreadOk(s.tables, s.threads[t])
    requires s.threads[t].pc.Checking? || s.threads[t].pc.Building? || s.threads[t].pc.Storing?
    ensures Contributes(s, Next(s, Step(t, ok)), t)
  {
    assert s.writer == Some(t);
  }

  lemma StepPoints(s: State, t: nat, ok: bool)
    requires Inv(s) && t < |s.threads|
    ensures Contributes(s, Next(s, Step(t, ok)), t)
  {
    var pc := s.threads[t].pc;
    if pc.WantRead? || HoldsRead(pc) {
      ReadPoints(s, t, ok);
    } else if pc.WantWrite? || pc.Finished? {
      WaitPoints(s, t, ok);
    } else if pc.DroppingRuntime? || pc.DroppingControl? || pc.Unlocking? {
      DropPoints(s, t, ok);
    } else {
      LookupPoints(s, t, ok);
    }
  }

  lemma KeepDecided(s: State, s': State, t: nat)
    requires Decided(s)
    requires t < |s.threads| == |s'.threads|
    requires s'.threads == s.threads[t := s'.threads[t]] && s'.threads[t].op == s.threads[t].op
    requires s'.points == s.points + PointAdded(s, s', t)
    requires PointAdded(s, s', t) == [] ==> Decision(s'.threads[t].pc) == Decision(s.threads[t].pc)
    ensures Decided(s')
  {
    if PointAdded(s, s', t) != [] {
      OfSnoc(s.points, PointAdded(s, s', t)[0]);
    } else {
      assert s'.points == s.points;
    }
  }

  lemma NumberedTables(s: State, t: nat, ok: bool)
    requires Inv(s) && t < |s.threads|
    ensures s.nextId <= Next(s, Step(t, ok)).nextId
    ensures Below(Next(s, Step(t, ok)).tables, Next(s, Step(t, ok)).nextId)
  {
    var s' := Next(s, Step(t, ok));
    forall plane, key | key in Table(s'.tables, plane) ensures Table(s'.tables, plane)[key].id < s'.nextId {
      assert key in Table(s.tables, plane) ==> Table(s.tables, plane)[key].id < s.nextId;
      assert s.threads[t].pc.Storing? ==> s.threads[t].pc.client.id < s.nextId;
    }
  }

  lemma NumberedPoint(s: State, t: nat, ok: bool)
    requires Inv(s) && t < |s.threads|
    ensures var added := PointAdded(s, Next(s, Step(t, ok)), t);
            added != [] && added[0].result.Got? ==> added[0].result.client.id < s.nextId
  {
    assert ThreadOk(s.tables, s.threads[t]);
  }

  /** Only the writer adds points while a client waits to be stored. */
  lemma NumberedStoring(s: State, t: nat, ok: bool, u: nat)
    requires Inv(s) && t < |s.threads| && u < |s.threads|
    requires Next(s, Step(t, ok)).threads[u].pc.Storing?
    ensures var s' := Next(s, Step(t, ok));
            s'.threads[u].pc.client.id < s'.nextId && NewTo(s'.points, s'.threads[u].pc.client)
  {
    if u != t {
      assert s.writer == Some(u);
      assert HoldsRead(s.threads[t].pc) ==> t in s.readers;
      assert HoldsWrite(s.threads[t].pc) ==> s.writer == Some(t);
      assert Next(s, Step(t, ok)).points == s.points;
    }
  }

  lemma KeepNumbered(s: State, t: nat, ok: bool)
    requires Inv(s) && t < |s.threads|
    ensures Numbered(Next(s, Step(t, ok)))
  {
    var s' := Next(s, Step(t, ok));
    NumberedTables(s, t, ok);
    NumberedPoint(s, t, ok);
    StepPoints(s, t, ok);
    forall i | 0 <= i < |s'.points| && s'.points[i].result.Got? ensures s'.points[i].result.client.id < s'.nextId {
      assert i < |s.points| ==> s'.points[i] == s.points[i];
    }
    forall u | 0 <= u < |s'.threads| && s'.threads[u].pc.Storing?
      ensures s'.threads[u].pc.client.id < s'.nextId && NewTo(s'.points, s'.threads[u].pc.client)
    {
      NumberedStoring(s, t, ok, u);
    }
  }

  lemma CreatedIsNew(s: State, t: nat, ok: bool)
    requires Inv(s) && t < |s.threads|
    ensures var added := PointAdded(s, Next(s, Step(t, ok)), t);
            added != [] && Creates(Abstract(s), added[0]) ==> NewTo(s.points, added[0].result.client)
  {
    assert ThreadOk(s.tables, s.threads[t]);
  }

  lemma KeepThread(s: State, t: nat, ok: bool)
    requires Inv(s) && t < |s.threads|
    ensures Inv(Next(s, Step(t, ok)))
  {
    var s' := Next(s, Step(t, ok));
    KeepLocks(s, t, ok);
    StepPoints(s, t, ok);
    KeepDecided(s, s', t);
    KeepNumbered(s, t, ok);
    CreatedIsNew(s, t, ok);
    if PointAdded(s, s', t) != [] {
      HistorySnoc(s.points, PointAdded(s, s', t)[0]);
    } else {
      assert s'.points == s.points;
    }
  }

  lemma KeepStep(s: State, a: Action)
    requires Inv(s)
    ensures Inv(Next(s, a))
  {
    match a
    case Call(op) => KeepCall(s, op);
    case Step(t, ok) =>
      if t < |s.threads| {
        KeepThread(s, t, ok);
      }
  }

  lemma KeepRun(s: State, actions: seq<Action>)
    requires Inv(s)
    ensures Inv(Run(Next, s, actions))
  {
    forall t: State, a: Action | Inv(t) ensures Inv(Next(t, a)) {
      KeepStep(t, a);
    }
    RunKeeps(Next, Inv, s, actions);
  }
}
