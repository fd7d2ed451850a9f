/** Chains of waits: each waits for the next, and the last can move. */
module Waiting {
  ghost predicate Chain<A>(waits: (A, A) -> bool, moves: A -> bool, xs: seq<A>) {
    && xs != [] && moves(xs[|xs| - 1])
    && forall i :: 0 <= i < |xs| - 1 ==> waits(xs[i], xs[i + 1])
  }

  lemma Longer<A>(waits: (A, A) -> bool, moves: A -> bool, a: A, rest: seq<A>) returns (xs: seq<A>)
    requires Chain(waits, moves, rest) && waits(a, rest[0])
    ensures xs == [a] + rest && Chain(waits, moves, xs)
  {
    xs := [a] + rest;
    forall i | 0 <= i < |xs| - 1 ensures waits(xs[i], xs[i + 1]) {
      if i > 0 { assert waits(rest[i - 1], rest[i]); }
    }
  }
}
