/** What the steps of a run leave behind in a store of items, when some steps write items and
    some erase them. */
module Residue {
  import opened Runs

  /** A state machine and what its steps do to the store; a step erases before it writes. */
  datatype Machine<!S, !A, !X> = Machine(next: (S, A) -> S, writes: (S, A) -> set<X>, erases: (S, A, X) -> bool)

  function After<S, A, X(==)>(m: Machine<S, A, X>, kept: set<X>, s: S, a: A): set<X> {
    (set x | x in kept && !m.erases(s, a, x)) + m.writes(s, a)
  }

  /** The store after a run that found `kept` in it. */
  function Left<S, A, X(==)>(m: Machine<S, A, X>, kept: set<X>, s: S, actions: seq<A>): set<X>
    decreases |actions|
  {
    if actions == [] then kept else Left(m, After(m, kept, s, actions[0]), m.next(s, actions[0]), actions[1..])
  }

  lemma {:induction false} LeftConcat<S, A, X>(m: Machine<S, A, X>, kept: set<X>, s: S, a: seq<A>, b: seq<A>)
    ensures Left(m, kept, s, a + b) == Left(m, Left(m, kept, s, a), Run(m.next, s, a), b)
    decreases |a|
  {
    if a == [] {
      assert a + b == b;
    } else {
      assert (a + b)[1..] == a[1..] + b;
      LeftConcat(m, After(m, kept, s, a[0]), m.next(s, a[0]), a[1..], b);
    }
  }

  lemma {:induction false} LeftUnrolled<S, A, X>(m: Machine<S, A, X>, kept: set<X>, s: S, actions: seq<A>)
    requires 1 <= |actions| <= 3
    ensures var k1 := After(m, kept, s, actions[0]);
            Left(m, kept, s, actions) ==
            if |actions| == 1 then k1
            else
              var s1 := m.next(s, actions[0]);
              var k2 := After(m, k1, s1, actions[1]);
              if |actions| == 2 then k2 else After(m, k2, m.next(s1, actions[1]), actions[2])
    decreases |actions|
  {
    if |actions| > 1 {
      LeftUnrolled(m, After(m, kept, s, actions[0]), m.next(s, actions[0]), actions[1..]);
    }
  }

  predicate WrittenAt<S, A, X(==)>(m: Machine<S, A, X>, s: S, actions: seq<A>, i: nat, x: X) {
    i < |actions| && x in m.writes(Run(m.next, s, actions[..i]), actions[i])
  }

  predicate ErasedAt<S, A, X>(m: Machine<S, A, X>, s: S, actions: seq<A>, i: nat, x: X) {
    i < |actions| && m.erases(Run(m.next, s, actions[..i]), actions[i], x)
  }

  ghost predicate NoneErased<S, A, X>(m: Machine<S, A, X>, s: S, actions: seq<A>, from: nat, x: X) {
    forall j: nat :: from <= j ==> !ErasedAt(m, s, actions, j, x)
  }

  /** Put there at some moment, or there from the beginning, and never erased since. */
  ghost predicate Stands<S, A, X>(m: Machine<S, A, X>, kept: set<X>, s: S, actions: seq<A>, x: X) {
    || (x in kept && NoneErased(m, s, actions, 0, x))
    || exists i: nat :: WrittenAt(m, s, actions, i, x) && NoneErased(m, s, actions, i + 1, x)
  }

  /** Moments of a run, counted from its second step. */
  lemma Later<S, A, X>(m: Machine<S, A, X>, s: S, actions: seq<A>, i: nat, x: X)
    requires actions != []
    ensures WrittenAt(m, s, actions, i + 1, x) <==> WrittenAt(m, m.next(s, actions[0]), actions[1..], i, x)
    ensures ErasedAt(m, s, actions, i + 1, x) <==> ErasedAt(m, m.next(s, actions[0]), actions[1..], i, x)
  {
    if i + 1 < |actions| {
      assert actions[..i + 1][1..] == actions[1..][..i];
    }
  }

  lemma NoneErasedLater<S, A, X>(m: Machine<S, A, X>, s: S, actions: seq<A>, from: nat, x: X)
    requires actions != []
    ensures NoneErased(m, s, actions, from + 1, x) <==> NoneErased(m, m.next(s, actions[0]), actions[1..], from, x)
  {
    forall j: nat
      ensures ErasedAt(m, s, actions, j + 1, x) <==> ErasedAt(m, m.next(s, actions[0]), actions[1..], j, x)
    {
      Later(m, s, actions, j, x);
    }
    if NoneErased(m, s, actions, from + 1, x) {
      forall j: nat | from <= j ensures !ErasedAt(m, m.next(s, actions[0]), actions[1..], j, x) {
        assert !ErasedAt(m, s, actions, j + 1, x);
      }
    }
    if NoneErased(m, m.next(s, actions[0]), actions[1..], from, x) {
      forall j: nat | from + 1 <= j ensures !ErasedAt(m, s, actions, j, x) {
        assert !ErasedAt(m, m.next(s, actions[0]), actions[1..], j - 1, x);
      }
    }
  }

  /** One step more at the front. */
  lemma StandsStep<S, A, X>(m: Machine<S, A, X>, kept: set<X>, s: S, actions: seq<A>, x: X)
    requires actions != []
    ensures Stands(m, kept, s, actions, x)
            <==> Stands(m, After(m, kept, s, actions[0]), m.next(s, actions[0]), actions[1..], x)
  {
    var s1, rest := m.next(s, actions[0]), actions[1..];
    NoneErasedLater(m, s, actions, 0, x);
    assert actions[..0] == [];
    assert NoneErased(m, s, actions, 0, x) <==> !ErasedAt(m, s, actions, 0, x) && NoneErased(m, s, actions, 1, x);
    if i: nat :| WrittenAt(m, s, actions, i, x) && NoneErased(m, s, actions, i + 1, x) {
      if i > 0 {
        Later(m, s, actions, i - 1, x);
        NoneErasedLater(m, s, actions, i, x);
        assert WrittenAt(m, s1, rest, i - 1, x) && NoneErased(m, s1, rest, i, x);
      }
    }
    if i: nat :| WrittenAt(m, s1, rest, i, x) && NoneErased(m, s1, rest, i + 1, x) {
      Later(m, s, actions, i, x);
      NoneErasedLater(m, s, actions, i + 1, x);
      assert WrittenAt(m, s, actions, i + 1, x) && NoneErased(m, s, actions, i + 2, x);
    }
    if x in m.writes(s, actions[0]) {
      assert WrittenAt(m, s, actions, 0, x);
    }
  }

  /** An item is in the store exactly when it was written, or there from the beginning, and
      not erased since. */
  lemma {:induction false} LeftExactly<S, A, X>(m: Machine<S, A, X>, kept: set<X>, s: S, actions: seq<A>, x: X)
    ensures x in Left(m, kept, s, actions) <==> Stands(m, kept, s, actions, x)
    decreases |actions|
  {
    if actions != [] {
      StandsStep(m, kept, s, actions, x);
      LeftExactly(m, After(m, kept, s, actions[0]), m.next(s, actions[0]), actions[1..], x);
    }
  }
}
