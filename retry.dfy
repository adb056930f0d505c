/** Vocabulary shared by the retry loops. A loop is run against the finite
    sequence of outcomes its successive calls produce; when that sequence
    runs out before the loop would stop, the result is `Pending` (the loop
    would call again). */
module Retry {
  import opened Wrappers

  datatype Outcome<+T> = Done(value: T) | GaveUp(error: string) | Pending

  /** The first index in `[i, n)` at which `stop` holds. */
  function FirstWhere(stop: nat -> bool, i: nat, n: nat): (r: Option<nat>)
    requires i <= n
    ensures r.Some? ==> i <= r.value < n && stop(r.value)
    ensures r.Some? ==> forall j :: i <= j < r.value ==> !stop(j)
    ensures r.None? ==> forall j :: i <= j < n ==> !stop(j)
    decreases n - i
  {
    if i == n then None
    else if stop(i) then Some(i)
    else FirstWhere(stop, i + 1, n)
  }

  /** `FirstWhere` is determined by where `stop` first holds. */
  lemma FirstWhereIs(stop: nat -> bool, n: nat, k: nat)
    requires k < n && stop(k)
    requires forall j :: 0 <= j < k ==> !stop(j)
    ensures FirstWhere(stop, 0, n) == Some(k)
  {
  }
}
