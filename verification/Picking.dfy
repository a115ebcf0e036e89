/** Picking elements of a sequence without changing their order. */
module Picking {

  predicate Distinct<T(==)>(xs: seq<T>) {
    forall i, j | 0 <= i < j < |xs| :: xs[i] != xs[j]
  }

  predicate Increasing(at: seq<nat>) {
    forall i, j | 0 <= i < j < |at| :: at[i] < at[j]
  }

  /** `out` holds the elements of `xs` that are kept, in order; `at` lists their positions. */
  predicate Picks<T(==)>(xs: seq<T>, kept: seq<bool>, out: seq<T>, at: seq<nat>) {
    && |xs| == |kept| && |at| == |out| && Increasing(at)
    && (forall k | 0 <= k < |at| :: at[k] < |xs| && out[k] == xs[at[k]])
    && (forall i: nat | i < |xs| :: kept[i] <==> i in at)
  }

  lemma FrontAndLast<T>(xs: seq<T>)
    requires xs != []
    ensures xs[..|xs| - 1] + [xs[|xs| - 1]] == xs
  {
  }

  lemma PicksSnoc<T>(xs: seq<T>, kept: seq<bool>, out: seq<T>, at: seq<nat>, x: T, keep: bool) returns (next: seq<nat>)
    requires Picks(xs, kept, out, at)
    ensures Picks(xs + [x], kept + [keep], if keep then out + [x] else out, next)
    ensures next == if keep then at + [|xs|] else at
  {
    var n := |xs|;
    next := if keep then at + [n] else at;
    assert forall i: nat | i in at :: i < n;
    forall i: nat | i < n + 1 ensures (kept + [keep])[i] <==> i in next {
      if i < n { assert (kept + [keep])[i] == kept[i]; }
    }
  }
}
