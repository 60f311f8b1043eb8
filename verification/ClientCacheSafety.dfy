/** What holds in every run of the client cache. */
module ClientCacheSafety {
  import opened ApiServer
  import opened ClientCache
  import opened Runs

  function Reach(actions: seq<Action>): State {
    Run(Next, INIT, actions)
  }

  lemma Reachable(actions: seq<Action>)
    ensures Inv(Reach(actions))
  {
    KeepRun(INIT, actions);
  }

  // ----- linearizability -----

  /** Every run is a legal history of atomic get-or-create and delete, where creating means a
      client that nobody has seen: each returned call took effect at exactly one point, with
      the result it returned, and the maps are what the history makes of them whenever no
      invalidation is half done. */
  lemma Linearizable(actions: seq<Action>)
    ensures var s := Reach(actions);
            && LegalHistory(s.points)
            && (forall t :: 0 <= t < |s.threads| && s.threads[t].pc.Finished? ==>
                  Of(s.points, t) == [Point(t, s.threads[t].op, s.threads[t].pc.result)])
            && (s.writer.None? ==> Replay(s.points) == s.tables)
  {
    Reachable(actions);
  }

  lemma {:induction false} PointsGrow(s: State, actions: seq<Action>)
    ensures s.points <= Run(Next, s, actions).points
    decreases |actions|
  {
    if actions != [] {
      PointsGrow(Next(s, actions[0]), actions[1..]);
    }
  }

  lemma {:induction false} OfContains(h: seq<Point>, t: nat, i: nat)
    requires i < |h| && h[i].thread == t
    ensures Of(h, t) != []
    ensures i < |h| - 1 && h[|h| - 1].thread == t ==> |Of(h, t)| >= 2
  {
    if i < |h| - 1 {
      OfContains(h[..|h| - 1], t, i);
    }
  }

  lemma {:induction false} OfPrefix(h: seq<Point>, h': seq<Point>, t: nat)
    requires h <= h' && |Of(h, t)| == |Of(h', t)|
    ensures forall i :: |h| <= i < |h'| ==> h'[i].thread != t
    decreases |h'|
  {
    if |h| < |h'| {
      var shorter := h'[..|h'| - 1];
      OfGrows(h, shorter, t);
      OfPrefix(h, shorter, t);
    }
  }

  lemma {:induction false} OfGrows(h: seq<Point>, h': seq<Point>, t: nat)
    requires h <= h'
    ensures |Of(h, t)| <= |Of(h', t)|
    decreases |h'|
  {
    if |h| < |h'| {
      OfGrows(h, h'[..|h'| - 1], t);
    } else {
      assert h == h';
    }
  }

  lemma FinishedStep(s: State, a: Action, t: nat)
    requires t < |s.threads| && s.threads[t].pc.Finished?
    ensures t < |Next(s, a).threads| && Next(s, a).threads[t] == s.threads[t]
  {
  }

  lemma {:induction false} FinishedStays(s: State, actions: seq<Action>, t: nat)
    requires t < |s.threads| && s.threads[t].pc.Finished?
    ensures t < |Run(Next, s, actions).threads| && Run(Next, s, actions).threads[t] == s.threads[t]
    decreases |actions|
  {
    if actions != [] {
      FinishedStep(s, actions[0], t);
      FinishedStays(Next(s, actions[0]), actions[1..], t);
    }
  }

  /** Real-time order: a call that returned before another one began takes effect first. */
  lemma RealTimeOrder(before: seq<Action>, after: seq<Action>, a: nat, b: nat, i: nat, j: nat)
    requires a < |Reach(before).threads| && Reach(before).threads[a].pc.Finished?
    requires b >= |Reach(before).threads|
    requires var h := Reach(before + after).points;
             i < |h| && j < |h| && h[i].thread == a && h[j].thread == b
    ensures i < j
  {
    var s, s' := Reach(before), Reach(before + after);
    RunConcat(Next, INIT, before, after);
    Reachable(before);
    Reachable(before + after);
    PointsGrow(s, after);
    FinishedStays(s, after, a);
    OfPrefix(s.points, s'.points, a);
    assert i < |s.points| <= j;
  }

  // ----- what the legal histories promise -----

  ghost predicate WellKeyed(tb: Tables) {
    forall plane, key :: key in Table(tb, plane)
      ==> Table(tb, plane)[key].plane == plane && Table(tb, plane)[key].key == key
  }

  lemma AtomicWellKeyed(tb: Tables, p: Point)
    requires WellKeyed(tb) && Legal(tb, p)
    ensures WellKeyed(Atomic(tb, p))
  {
    var tb' := Atomic(tb, p);
    forall plane, key | key in Table(tb', plane)
      ensures Table(tb', plane)[key].plane == plane && Table(tb', plane)[key].key == key
    {
      if key in Table(tb, plane) {
        assert Table(tb, plane)[key].plane == plane && Table(tb, plane)[key].key == key;
      }
    }
  }

  lemma HistoryPrefix(h: seq<Point>, n: nat)
    requires LegalHistory(h) && n <= |h|
    ensures LegalHistory(h[..n])
  {
    forall i | 0 <= i < n ensures LegalAt(h[..n], i) {
      assert LegalAt(h, i);
      assert h[..n][..i] == h[..i] && h[..n][i] == h[i];
    }
  }

  lemma {:induction false} HistoryWellKeyed(h: seq<Point>)
    requires LegalHistory(h)
    ensures WellKeyed(Replay(h))
  {
    if h != [] {
      var n := |h| - 1;
      HistoryPrefix(h, n);
      HistoryWellKeyed(h[..n]);
      assert LegalAt(h, n);
      AtomicWellKeyed(Replay(h[..n]), h[n]);
    }
  }

  /** A lookup never returns a client of another role, region or plane. */
  lemma OwnCredentials(actions: seq<Action>, t: nat)
    requires t < |Reach(actions).threads|
    requires Reach(actions).threads[t].pc.Finished? && Reach(actions).threads[t].pc.result.Got?
    ensures var th := Reach(actions).threads[t];
            && th.op.Lookup?
            && th.pc.result.client.plane == th.op.plane
            && th.pc.result.client.key == th.op.key
  {
    var s := Reach(actions);
    Reachable(actions);
    var i := IndexOf(s.points, t);
    HistoryPrefix(s.points, i);
    HistoryWellKeyed(s.points[..i]);
    assert LegalAt(s.points, i);
  }

  lemma {:induction false} IndexOf(h: seq<Point>, t: nat) returns (i: nat)
    requires |Of(h, t)| == 1
    ensures i < |h| && h[i] == Of(h, t)[0]
  {
    if h[|h| - 1].thread == t {
      i := |h| - 1;
    } else {
      i := IndexOf(h[..|h| - 1], t);
    }
  }

  /** After a successful lookup the map holds that client until the key is invalidated. */
  lemma {:induction false} EntryStays(h: seq<Point>, i: nat, n: nat, plane: Plane, key: Key)
    requires LegalHistory(h) && i < n <= |h|
    requires h[i].op == Lookup(plane, key) && h[i].result.Got?
    requires forall k :: i < k < n ==> h[k].op != Invalidate(key)
    ensures key in Table(Replay(h[..n]), plane) && Table(Replay(h[..n]), plane)[key] == h[i].result.client
    decreases n
  {
    var before := Replay(h[..n - 1]);
    assert h[..n][..n - 1] == h[..n - 1];
    assert Replay(h[..n]) == Atomic(before, h[n - 1]);
    assert LegalAt(h, n - 1);
    if n > i + 1 {
      EntryStays(h, i, n - 1, plane, key);
      EntryStep(before, h[n - 1], plane, key);
    }
  }

  lemma EntryStep(tb: Tables, p: Point, plane: Plane, key: Key)
    requires Legal(tb, p) && key in Table(tb, plane) && p.op != Invalidate(key)
    ensures key in Table(Atomic(tb, p), plane) && Table(Atomic(tb, p), plane)[key] == Table(tb, plane)[key]
  {
  }

  /** Two lookups of a key that take effect between the same two invalidations return the
      same client. */
  lemma SameClientBetweenInvalidations(actions: seq<Action>, i: nat, j: nat, plane: Plane, key: Key)
    requires i < j < |Reach(actions).points|
    requires var h := Reach(actions).points;
             && h[i].op == Lookup(plane, key) && h[i].result.Got?
             && h[j].op == Lookup(plane, key) && h[j].result.Got?
             && forall k :: i < k < j ==> h[k].op != Invalidate(key)
    ensures Reach(actions).points[i].result == Reach(actions).points[j].result
  {
    var h := Reach(actions).points;
    Reachable(actions);
    EntryStays(h, i, j, plane, key);
    assert LegalAt(h, j);
  }

  /** An entry found after an invalidation was made after it. */
  lemma {:induction false} EntryIsNew(h: seq<Point>, k: nat, n: nat, plane: Plane, key: Key)
    requires LegalHistory(h) && k < n <= |h| && h[k].op == Invalidate(key)
    ensures key in Table(Replay(h[..n]), plane) ==> NewTo(h[..k], Table(Replay(h[..n]), plane)[key])
    decreases n
  {
    var before := Replay(h[..n - 1]);
    assert h[..n][..n - 1] == h[..n - 1];
    assert Replay(h[..n]) == Atomic(before, h[n - 1]);
    assert LegalAt(h, n - 1);
    if n > k + 1 {
      EntryIsNew(h, k, n - 1, plane, key);
      if h[n - 1].op == Lookup(plane, key) && Creates(before, h[n - 1]) {
        assert NewTo(h[..n - 1], h[n - 1].result.client);
        assert h[..n - 1][..k] == h[..k];
      }
    }
  }

  /** After an invalidation of its key, a lookup never returns a client that anybody had been
      given before: the credentials are fresh. */
  lemma FreshAfterInvalidation(actions: seq<Action>, i: nat, k: nat, j: nat, plane: Plane, key: Key)
    requires i < k < j < |Reach(actions).points|
    requires var h := Reach(actions).points;
             && h[i].result.Got?
             && h[k].op == Invalidate(key)
             && h[j].op == Lookup(plane, key) && h[j].result.Got?
    ensures Reach(actions).points[i].result.client.id != Reach(actions).points[j].result.client.id
  {
    var h := Reach(actions).points;
    Reachable(actions);
    EntryIsNew(h, k, j, plane, key);
    assert LegalAt(h, j);
    assert h[..k][i] == h[..j][i] == h[i];
  }

  // ----- locks -----

  /** A writer excludes readers and other writers, and a call that has returned, by whatever
      path, holds no lock. */
  lemma LockDiscipline(actions: seq<Action>)
    ensures var s := Reach(actions);
            && (forall t, u :: 0 <= t < |s.threads| && 0 <= u < |s.threads| && t != u && HoldsWrite(s.threads[t].pc) ==>
                  !HoldsWrite(s.threads[u].pc) && !HoldsRead(s.threads[u].pc))
            && (forall t :: 0 <= t < |s.threads| && s.threads[t].pc.Finished? ==>
                  t !in s.readers && s.writer != Some(t))
            && ((forall t :: 0 <= t < |s.threads| ==> s.threads[t].pc.Finished?) ==> s.readers == {} && s.writer.None?)
  {
    var s := Reach(actions);
    Reachable(actions);
    forall t, u | 0 <= t < |s.threads| && 0 <= u < |s.threads| && t != u && HoldsWrite(s.threads[t].pc)
      ensures !HoldsWrite(s.threads[u].pc) && !HoldsRead(s.threads[u].pc)
    {
      assert s.writer == Some(t);
    }
  }

  /** Steps that remain before a call returns. */
  function Rank(pc: Pc): nat {
    match pc
    case WantRead => 9
    case Reading => 8
    case ReadMiss => 7
    case WantWrite => 6
    case Checking => 5
    case Building => 4
    case Storing(_) => 3
    case DroppingRuntime => 3
    case DroppingControl => 2
    case ReadHit(_) => 1
    case Unlocking(_) => 1
    case Finished(_) => 0
  }

  predicate WriterWaits(s: State) {
    exists t :: 0 <= t < |s.threads| && s.threads[t].pc.WantWrite?
  }

  /** Thread `t` can move, even under a lock that lets no reader pass a waiting writer. */
  ghost predicate CanMove(s: State, t: nat, ok: bool) {
    && t < |s.threads|
    && (s.threads[t].pc.WantRead? ==> !WriterWaits(s))
    && |Next(s, Step(t, ok)).threads| == |s.threads|
    && Rank(Next(s, Step(t, ok)).threads[t].pc) < Rank(s.threads[t].pc)
  }

  lemma HolderMoves(s: State, t: nat, ok: bool)
    requires t < |s.threads| && ThreadOk(s.tables, s.threads[t])
    requires HoldsRead(s.threads[t].pc) || HoldsWrite(s.threads[t].pc)
    ensures CanMove(s, t, ok)
  {
  }

  lemma WaiterMoves(s: State, t: nat, ok: bool)
    requires t < |s.threads| && s.writer.None? && s.readers == {}
    requires s.threads[t].pc.WantWrite? || (s.threads[t].pc.WantRead? && !WriterWaits(s))
    ensures CanMove(s, t, ok)
  {
  }

  /** No deadlock: while any call has not returned, some call can move, and every move brings
      its call closer to returning. */
  lemma NoDeadlock(actions: seq<Action>, t: nat, ok: bool)
    requires t < |Reach(actions).threads| && !Reach(actions).threads[t].pc.Finished?
    ensures exists u :: CanMove(Reach(actions), u, ok)
  {
    var s := Reach(actions);
    Reachable(actions);
    if s.writer.Some? {
      HolderMoves(s, s.writer.value, ok);
    } else if s.readers != {} {
      var r :| r in s.readers;
      HolderMoves(s, r, ok);
    } else if u: nat :| u < |s.threads| && s.threads[u].pc.WantWrite? {
      WaiterMoves(s, u, ok);
    } else {
      assert !HoldsRead(s.threads[t].pc) && !HoldsWrite(s.threads[t].pc);
      WaiterMoves(s, t, ok);
    }
  }

  // ----- builds -----

  function Builds(built: seq<Client>, plane: Plane, key: Key): nat {
    if built == [] then 0
    else
      var last := built[|built| - 1];
      Builds(built[..|built| - 1], plane, key) + (if last.plane == plane && last.key == key then 1 else 0)
  }

  function Invalidations(h: seq<Point>, key: Key): nat {
    if h == [] then 0
    else Invalidations(h[..|h| - 1], key) + (if h[|h| - 1].op == Invalidate(key) then 1 else 0)
  }

  /** The entry is there, or the writer is about to put it there. */
  predicate Present(s: State, plane: Plane, key: Key) {
    || key in Table(Abstract(s), plane)
    || (s.writer.Some? && s.writer.value < |s.threads|
        && s.threads[s.writer.value].pc.Storing? && s.threads[s.writer.value].op == Lookup(plane, key))
  }

  ghost predicate Paid(s: State, plane: Plane, key: Key) {
    Builds(s.built, plane, key) <= Invalidations(s.points, key) + (if Present(s, plane, key) then 1 else 0)
  }

  lemma CountSnoc(built: seq<Client>, c: Client, h: seq<Point>, p: Point, plane: Plane, key: Key)
    ensures Builds(built + [c], plane, key)
            == Builds(built, plane, key) + (if c.plane == plane && c.key == key then 1 else 0)
    ensures Invalidations(h + [p], key) == Invalidations(h, key) + (if p.op == Invalidate(key) then 1 else 0)
  {
    assert (built + [c])[..|built|] == built;
    assert (h + [p])[..|h|] == h;
  }

  /** Building makes the entry present, and it was not. */
  lemma PaidBuild(s: State, t: nat, ok: bool, plane: Plane, key: Key)
    requires Inv(s) && Paid(s, plane, key)
    requires t < |s.threads| && s.threads[t].pc.Building?
    ensures Paid(Next(s, Step(t, ok)), plane, key)
  {
    assert ThreadOk(s.tables, s.threads[t]);
    var op := s.threads[t].op;
    CountSnoc(s.built, Client(s.nextId, op.plane, op.key), s.points, Point(t, op, Failed), plane, key);
    assert s.writer == Some(t);
  }

  /** A point of an invalidation pays for the entry it removes; no other step takes one away. */
  lemma PaidMove(s: State, t: nat, ok: bool, plane: Plane, key: Key)
    requires Inv(s) && Paid(s, plane, key)
    requires t < |s.threads| && !s.threads[t].pc.Building?
    ensures Paid(Next(s, Step(t, ok)), plane, key)
  {
    var s' := Next(s, Step(t, ok));
    StepPoints(s, t, ok);
    PresentMove(s, t, ok, plane, key);
    var added := PointAdded(s, s', t);
    if added == [] {
      assert s'.points == s.points;
    } else {
      CountSnoc(s.built, Client(0, plane, key), s.points, added[0], plane, key);
    }
  }

  /** Only an invalidation makes an entry absent, and only a build makes it about to be there. */
  lemma PresentMove(s: State, t: nat, ok: bool, plane: Plane, key: Key)
    requires Inv(s)
    requires t < |s.threads| && !s.threads[t].pc.Building?
    ensures var s' := Next(s, Step(t, ok));
            && s'.built == s.built
            && (Present(s, plane, key) && PointAdded(s, s', t) == [] ==> Present(s', plane, key))
            && (Present(s, plane, key) && PointAdded(s, s', t) != []
                && PointAdded(s, s', t)[0].op != Invalidate(key) ==>
                  Present(s', plane, key))
  {
    assert ThreadOk(s.tables, s.threads[t]);
    StepPoints(s, t, ok);
    var s' := Next(s, Step(t, ok));
    var added := PointAdded(s, s', t);
    if key in Table(Abstract(s), plane) && added != [] && added[0].op != Invalidate(key) {
      EntryStep(Abstract(s), added[0], plane, key);
    } else if Present(s, plane, key) && key !in Table(Abstract(s), plane) {
      StoringMove(s, t, ok, plane, key);
    }
  }

  lemma StoringMove(s: State, t: nat, ok: bool, plane: Plane, key: Key)
    requires Inv(s) && t < |s.threads|
    requires s.writer.Some? && s.writer.value < |s.threads|
    requires s.threads[s.writer.value].pc.Storing? && s.threads[s.writer.value].op == Lookup(plane, key)
    ensures Present(Next(s, Step(t, ok)), plane, key)
  {
    var w := s.writer.value;
    assert HoldsWrite(s.threads[t].pc) ==> t == w;
    assert HoldsRead(s.threads[t].pc) ==> t in s.readers;
  }

  lemma PaidStep(s: State, a: Action, plane: Plane, key: Key)
    requires Inv(s) && Paid(s, plane, key)
    ensures Paid(Next(s, a), plane, key)
  {
    if a.Step? && a.thread < |s.threads| {
      if s.threads[a.thread].pc.Building? {
        PaidBuild(s, a.thread, a.ok, plane, key);
      } else {
        PaidMove(s, a.thread, a.ok, plane, key);
      }
    }
  }

  lemma {:induction false} PaidRun(s: State, actions: seq<Action>, plane: Plane, key: Key)
    requires Inv(s) && Paid(s, plane, key)
    ensures Paid(Run(Next, s, actions), plane, key)
    decreases |actions|
  {
    if actions != [] {
      KeepStep(s, actions[0]);
      PaidStep(s, actions[0], plane, key);
      PaidRun(Next(s, actions[0]), actions[1..], plane, key);
    }
  }

  /** In each map, a key has at most one client built for it more than it was invalidated,
      however many calls race. */
  lemma BuildBound(actions: seq<Action>, plane: Plane, key: Key)
    ensures Builds(Reach(actions).built, plane, key) <= 1 + Invalidations(Reach(actions).points, key)
  {
    Reachable([]);
    PaidRun(INIT, actions, plane, key);
  }
}
