/** Runs of a state machine whose steps are total: an action that is not enabled changes
    nothing, so that every sequence of actions is a run. */
module Runs {
  function Run<S, A>(next: (S, A) -> S, s: S, actions: seq<A>): S
    decreases |actions|
  {
    if actions == [] then s else Run(next, next(s, actions[0]), actions[1..])
  }

  lemma {:induction false} RunConcat<S, A>(next: (S, A) -> S, s: S, a: seq<A>, b: seq<A>)
    ensures Run(next, s, a + b) == Run(next, Run(next, s, a), b)
    decreases |a|
  {
    if a == [] {
      assert a + b == b;
    } else {
      assert (a + b)[1..] == a[1..] + b;
      RunConcat(next, next(s, a[0]), a[1..], b);
    }
  }

  lemma RunSnoc<S, A>(next: (S, A) -> S, s: S, actions: seq<A>, a: A)
    ensures Run(next, s, actions + [a]) == next(Run(next, s, actions), a)
  {
    RunConcat(next, s, actions, [a]);
    Unrolled(next, Run(next, s, actions), [a]);
  }

  lemma {:induction false} Unrolled<S, A>(next: (S, A) -> S, s: S, actions: seq<A>)
    requires |actions| <= 3
    ensures Run(next, s, actions) ==
            if |actions| == 0 then s
            else if |actions| == 1 then next(s, actions[0])
            else if |actions| == 2 then next(next(s, actions[0]), actions[1])
            else next(next(next(s, actions[0]), actions[1]), actions[2])
  {
    if actions != [] {
      Unrolled(next, next(s, actions[0]), actions[1..]);
    }
  }

  /** Concatenation is associative. */
  lemma Joined<A>(a: seq<A>, b: seq<A>, c: seq<A>)
    ensures a + b + c == a + (b + c)
    ensures b + [] == b
  {
  }

  /** What every step keeps, every run keeps. */
  lemma {:induction false} RunKeeps<S(!new), A(!new)>(next: (S, A) -> S, inv: S -> bool, s: S, actions: seq<A>)
    requires inv(s)
    requires forall t: S, a: A :: inv(t) ==> inv(next(t, a))
    ensures inv(Run(next, s, actions))
    decreases |actions|
  {
    if actions != [] {
      RunKeeps(next, inv, next(s, actions[0]), actions[1..]);
    }
  }
}
