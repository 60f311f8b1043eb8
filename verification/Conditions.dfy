/** Status conditions and the in-place upsert that every reconciler uses on them. */
module Conditions {
  import opened ApiServer

  datatype ConditionStatus = ConditionTrue | ConditionFalse | ConditionUnknown

  datatype Condition = Condition(
    kind: string,
    status: ConditionStatus,
    reason: string,
    message: string,
    lastTransitionTime: int
  )

  function StatusOf(ok: bool): ConditionStatus {
    if ok then ConditionTrue else ConditionFalse
  }

  /** What one call does to the list: keep the old time when the status did not change. */
  function Merge(previous: Condition, latest: Condition): Condition {
    if previous.status == latest.status then latest.(lastTransitionTime := previous.lastTransitionTime) else latest
  }

  function Upsert(cs: seq<Condition>, c: Condition): seq<Condition> {
    if cs == [] then [c]
    else if cs[0].kind != c.kind then [cs[0]] + Upsert(cs[1..], c)
    else [Merge(cs[0], c)] + cs[1..]
  }

  /** The pointer-to-slice that setCondition mutates. */
  class ConditionList {
    var items: seq<Condition>

    constructor (items: seq<Condition>)
      ensures this.items == items
    {
      this.items := items;
    }

    method SetCondition(newCond: Condition)
      modifies this
      ensures items == Upsert(old(items), newCond)
    {
      var i := 0;
      while i < |items|
        invariant 0 <= i <= |items|
        invariant items == old(items)
        invariant forall k :: 0 <= k < i ==> items[k].kind != newCond.kind
      {
        var c := items[i];
        if c.kind == newCond.kind {
          var cond := newCond;
          if c.status == newCond.status {
            cond := cond.(lastTransitionTime := c.lastTransitionTime);
          }
          UpsertAt(items, newCond, i);
          items := items[i := cond];
          return;
        }
        i := i + 1;
      }
      UpsertNew(items, newCond);
      items := items + [newCond];
    }
  }

  // ----- what a reader of the list sees -----

  predicate Has(cs: seq<Condition>, kind: string) {
    exists i :: 0 <= i < |cs| && cs[i].kind == kind
  }

  /** The status a reader finds under a kind: the first entry of that kind. */
  function StatusIn(cs: seq<Condition>, kind: string): (r: ConditionStatus)
    ensures !Has(cs, kind) ==> r == ConditionUnknown
  {
    if cs == [] then ConditionUnknown
    else if cs[0].kind == kind then cs[0].status
    else
      assert forall i :: 0 <= i < |cs[1..]| ==> cs[1..][i] == cs[i + 1];
      StatusIn(cs[1..], kind)
  }

  /** One call sets the status it was given and disturbs no other kind. */
  lemma {:induction false} UpsertStatus(cs: seq<Condition>, c: Condition, kind: string)
    ensures StatusIn(Upsert(cs, c), kind) == if kind == c.kind then c.status else StatusIn(cs, kind)
  {
    if cs == [] {
    } else if cs[0].kind != c.kind {
      assert Upsert(cs, c)[1..] == Upsert(cs[1..], c);
      UpsertStatus(cs[1..], c, kind);
    } else {
      assert Upsert(cs, c)[1..] == cs[1..];
    }
  }

  /** When the status under a kind last changed. */
  function SinceIn(cs: seq<Condition>, kind: string): Option<int> {
    if cs == [] then None
    else if cs[0].kind == kind then Some(cs[0].lastTransitionTime)
    else SinceIn(cs[1..], kind)
  }

  /** A call moves the time of its own kind exactly when it changes the status, and the
      time of no other kind. */
  lemma {:induction false} UpsertSince(cs: seq<Condition>, c: Condition, kind: string)
    ensures SinceIn(Upsert(cs, c), kind) ==
            if kind != c.kind then SinceIn(cs, kind)
            else if SinceIn(cs, kind).Some? && StatusIn(cs, kind) == c.status then SinceIn(cs, kind)
            else Some(c.lastTransitionTime)
  {
    if cs == [] {
    } else if cs[0].kind != c.kind {
      assert Upsert(cs, c)[1..] == Upsert(cs[1..], c);
      UpsertSince(cs[1..], c, kind);
    } else {
      assert Upsert(cs, c)[1..] == cs[1..];
    }
  }

  /** The entry that a reader finds under a kind. */
  function EntryIn(cs: seq<Condition>, kind: string): Option<Condition> {
    if cs == [] then None
    else if cs[0].kind == kind then Some(cs[0])
    else EntryIn(cs[1..], kind)
  }

  /** What that entry says, its time aside. */
  predicate Says(cs: seq<Condition>, kind: string, status: ConditionStatus, reason: string, message: string) {
    var e := EntryIn(cs, kind);
    e.Some? && e.value.status == status && e.value.reason == reason && e.value.message == message
  }

  /** The time under a kind is `now`, or stays as it was when the status did. */
  predicate Dated(before: seq<Condition>, cs: seq<Condition>, kind: string, now: int) {
    SinceIn(cs, kind) == if SinceIn(before, kind).Some? && StatusIn(before, kind) == StatusIn(cs, kind)
                         then SinceIn(before, kind) else Some(now)
  }

  /** After a call its own kind says what it was given, and every other kind what it said. */
  lemma {:induction false} UpsertSays(cs: seq<Condition>, c: Condition, kind: string)
    ensures Says(Upsert(cs, c), c.kind, c.status, c.reason, c.message)
    ensures Dated(cs, Upsert(cs, c), c.kind, c.lastTransitionTime)
    ensures kind != c.kind ==> EntryIn(Upsert(cs, c), kind) == EntryIn(cs, kind)
  {
    if cs == [] {
    } else if cs[0].kind != c.kind {
      assert Upsert(cs, c)[1..] == Upsert(cs[1..], c);
      UpsertSays(cs[1..], c, kind);
    } else {
      assert Upsert(cs, c)[1..] == cs[1..];
    }
  }

  ghost predicate DistinctKinds(cs: seq<Condition>) {
    forall i, j :: 0 <= i < j < |cs| ==> cs[i].kind != cs[j].kind
  }

  // ----- the whole history as a reference definition -----

  function Replay(init: seq<Condition>, calls: seq<Condition>): seq<Condition> {
    if calls == [] then init
    else Upsert(Replay(init, calls[..|calls| - 1]), calls[|calls| - 1])
  }

  /** The entries of one kind, in the order they were written. */
  function Of(h: seq<Condition>, kind: string): (r: seq<Condition>)
    ensures forall i :: 0 <= i < |r| ==> r[i].kind == kind
    ensures r != [] <==> Has(h, kind)
  {
    if h == [] then []
    else
      var last, rest := h[|h| - 1], h[..|h| - 1];
      assert Has(h, kind) <==> Has(rest, kind) || last.kind == kind by {
        if Has(rest, kind) {
          var i :| 0 <= i < |rest| && rest[i].kind == kind;
          assert h[i].kind == kind;
        }
      }
      if last.kind == kind then Of(rest, kind) + [last] else Of(rest, kind)
  }

  /** The kinds of a history in order of first appearance. */
  function FirstSeen(h: seq<Condition>): (r: seq<string>)
    ensures forall k :: k in r <==> Has(h, k)
    ensures forall i, j :: 0 <= i < j < |r| ==> r[i] != r[j]
  {
    if h == [] then []
    else
      var last, rest := h[|h| - 1], h[..|h| - 1];
      assert forall k :: Has(h, k) <==> Has(rest, k) || last.kind == k by {
        forall k | Has(rest, k) ensures Has(h, k) {
          var i :| 0 <= i < |rest| && rest[i].kind == k;
          assert h[i].kind == k;
        }
      }
      var seen := FirstSeen(rest);
      if last.kind in seen then seen else seen + [last.kind]
  }

  /** Where the final unbroken run of the final status begins. */
  function RunStart(f: seq<Condition>): (r: nat)
    requires f != []
    ensures r < |f|
    ensures forall j :: r <= j < |f| ==> f[j].status == f[|f| - 1].status
    ensures r == 0 || f[r - 1].status != f[|f| - 1].status
  {
    var n := |f| - 1;
    if n == 0 || f[n - 1].status != f[n].status then n
    else
      RunStart(f[..n])
  }

  /** What the list must say about one kind, given everything written under it. */
  function Settled(f: seq<Condition>): Condition
    requires f != []
  {
    f[|f| - 1].(lastTransitionTime := f[RunStart(f)].lastTransitionTime)
  }

  function Digest(h: seq<Condition>): (r: seq<Condition>)
    ensures |r| == |FirstSeen(h)|
    ensures forall i :: 0 <= i < |r| ==> r[i].kind == FirstSeen(h)[i]
  {
    var kinds := FirstSeen(h);
    seq(|kinds|, i requires 0 <= i < |kinds| =>
      assert kinds[i] in kinds;
      Settled(Of(h, kinds[i])))
  }

  lemma SettledSnoc(f: seq<Condition>, c: Condition)
    requires f != [] && f[|f| - 1].kind == c.kind
    ensures Settled(f + [c]) == Merge(Settled(f), c)
  {
    assert (f + [c])[..|f|] == f;
  }

  lemma {:induction false} UpsertAt(cs: seq<Condition>, c: Condition, k: nat)
    requires k < |cs| && cs[k].kind == c.kind
    requires forall j :: 0 <= j < k ==> cs[j].kind != c.kind
    ensures Upsert(cs, c) == cs[k := Merge(cs[k], c)]
  {
    if k > 0 {
      UpsertAt(cs[1..], c, k - 1);
    }
  }

  lemma {:induction false} UpsertNew(cs: seq<Condition>, c: Condition)
    requires !Has(cs, c.kind)
    ensures Upsert(cs, c) == cs + [c]
  {
    if cs != [] {
      assert cs[0].kind != c.kind;
      forall i | 0 <= i < |cs[1..]| ensures cs[1..][i].kind != c.kind {
        assert cs[1..][i] == cs[i + 1];
      }
      UpsertNew(cs[1..], c);
    }
  }

  lemma Snoc(h: seq<Condition>, c: Condition)
    ensures forall k :: Of(h + [c], k) == if k == c.kind then Of(h, k) + [c] else Of(h, k)
    ensures FirstSeen(h + [c]) == if c.kind in FirstSeen(h) then FirstSeen(h) else FirstSeen(h) + [c.kind]
  {
    assert (h + [c])[..|h|] == h;
  }

  lemma DigestAt(h: seq<Condition>, i: nat)
    requires i < |Digest(h)|
    ensures FirstSeen(h)[i] in FirstSeen(h)
    ensures Of(h, FirstSeen(h)[i]) != []
    ensures Digest(h)[i] == Settled(Of(h, FirstSeen(h)[i]))
  {
    assert FirstSeen(h)[i] in FirstSeen(h);
  }

  lemma DigestSnocAt(h: seq<Condition>, c: Condition, i: nat)
    requires i < |Digest(h)|
    ensures i < |Digest(h + [c])|
    ensures Digest(h + [c])[i] == if FirstSeen(h)[i] == c.kind then Merge(Digest(h)[i], c) else Digest(h)[i]
  {
    Snoc(h, c);
    DigestAt(h, i);
    DigestAt(h + [c], i);
    if FirstSeen(h)[i] == c.kind {
      SettledSnoc(Of(h, c.kind), c);
    }
  }

  lemma DigestSnoc(h: seq<Condition>, c: Condition)
    ensures Upsert(Digest(h), c) == Digest(h + [c])
  {
    if k: nat :| k < |FirstSeen(h)| && FirstSeen(h)[k] == c.kind {
      DigestSnocSeen(h, c, k);
    } else {
      DigestSnocNew(h, c);
    }
  }

  lemma DigestSnocSeen(h: seq<Condition>, c: Condition, k: nat)
    requires k < |FirstSeen(h)| && FirstSeen(h)[k] == c.kind
    ensures Upsert(Digest(h), c) == Digest(h + [c])
  {
    var d, d' := Digest(h), Digest(h + [c]);
    assert c.kind in FirstSeen(h);
    Snoc(h, c);
    forall i | 0 <= i < |d| ensures d'[i] == d[k := Merge(d[k], c)][i] {
      DigestSnocAt(h, c, i);
    }
    UpsertAt(d, c, k);
    assert d' == d[k := Merge(d[k], c)];
  }

  lemma DigestSnocNew(h: seq<Condition>, c: Condition)
    requires c.kind !in FirstSeen(h)
    ensures Upsert(Digest(h), c) == Digest(h + [c])
  {
    var d, d' := Digest(h), Digest(h + [c]);
    Snoc(h, c);
    forall i | 0 <= i < |d| ensures d'[i] == d[i] {
      DigestSnocAt(h, c, i);
    }
    UpsertNew(d, c);
    DigestAt(h + [c], |d|);
    assert d'[|d|] == Settled([c]);
    assert d' == d + [c];
  }

  lemma {:induction false} DigestOfDistinct(init: seq<Condition>)
    requires DistinctKinds(init)
    ensures Digest(init) == init
  {
    if init != [] {
      var n := |init| - 1;
      var rest, c := init[..n], init[n];
      assert init == rest + [c];
      DigestOfDistinct(rest);
      DigestGrows(rest, c);
    }
  }

  lemma DigestGrows(init: seq<Condition>, c: Condition)
    requires Digest(init) == init && !Has(init, c.kind)
    ensures Digest(init + [c]) == init + [c]
  {
    DigestSnoc(init, c);
    UpsertNew(init, c);
  }

  /** The in-place list is a fold over the whole history: nothing else is remembered. */
  lemma {:induction false} ReplayIsDigest(init: seq<Condition>, calls: seq<Condition>)
    requires DistinctKinds(init)
    ensures Replay(init, calls) == Digest(init + calls)
  {
    if calls == [] {
      assert init + calls == init;
      DigestOfDistinct(init);
    } else {
      var n := |calls| - 1;
      ReplayIsDigest(init, calls[..n]);
      DigestSnoc(init + calls[..n], calls[n]);
      assert init + calls[..n] + [calls[n]] == init + calls;
    }
  }

  /** The final unbroken run of the final status begins at `s`. */
  ghost predicate BeginsFinalRun(f: seq<Condition>, s: nat) {
    && s < |f|
    && (forall j :: s <= j < |f| ==> f[j].status == f[|f| - 1].status)
    && (s == 0 || f[s - 1].status != f[|f| - 1].status)
  }

  /** `c` carries the latest of `written`, dated from the start of its final run. */
  ghost predicate Reflects(c: Condition, written: seq<Condition>) {
    && written != []
    && c.kind == written[|written| - 1].kind
    && c.status == written[|written| - 1].status
    && c.reason == written[|written| - 1].reason
    && c.message == written[|written| - 1].message
    && exists s: nat :: BeginsFinalRun(written, s) && c.lastTransitionTime == written[s].lastTransitionTime
  }

  lemma SettledReflects(f: seq<Condition>)
    requires f != []
    ensures Reflects(Settled(f), f)
  {
    assert BeginsFinalRun(f, RunStart(f));
  }

  /** Condition history: kinds stay distinct and in order of first appearance, every entry is
      the latest one written, and its time is that of the entry that began the final
      unbroken run of its status. */
  lemma ConditionHistory(init: seq<Condition>, calls: seq<Condition>)
    requires DistinctKinds(init)
    ensures DistinctKinds(Replay(init, calls))
    ensures |Replay(init, calls)| == |FirstSeen(init + calls)|
    ensures forall i :: 0 <= i < |Replay(init, calls)| ==>
              && Replay(init, calls)[i].kind == FirstSeen(init + calls)[i]
              && Reflects(Replay(init, calls)[i], Of(init + calls, FirstSeen(init + calls)[i]))
  {
    var h := init + calls;
    ReplayIsDigest(init, calls);
    forall i | 0 <= i < |Digest(h)| ensures Reflects(Digest(h)[i], Of(h, FirstSeen(h)[i])) {
      DigestAt(h, i);
      SettledReflects(Of(h, FirstSeen(h)[i]));
    }
  }
}
