/** Values that may be missing, and calls that may fail. */
module Basics {

  datatype Option<+T> = None | Some(value: T)

  datatype Result<+T> = Ok(value: T) | Err

  /** What no step changes once it is set stays as it was first set. */
  lemma {:induction false} OnceSet<T>(xs: seq<Option<T>>, i: nat, j: nat)
    requires i <= j < |xs| && xs[i].Some?
    requires forall k | 0 <= k < |xs| - 1 && xs[k].Some? :: xs[k + 1] == xs[k]
    ensures xs[j] == xs[i]
    decreases j
  {
    if i < j {
      OnceSet(xs, i, j - 1);
    }
  }
}
