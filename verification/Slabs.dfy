// The keys of a bounded slab: a slab that is not full has a vacant key.
module Slabs {

  function FirstFree(used: set<nat>, from: nat, bound: nat): nat
    decreases bound - from
  {
    if from < bound && from in used then FirstFree(used, from + 1, bound) else from
  }

  /** Any vacant key: the preferred one if it is vacant. */
  function VacantIn(used: set<nat>, slot: nat, bound: nat): nat {
    if slot < bound && slot !in used then slot else FirstFree(used, 0, bound)
  }

  lemma {:induction false} FirstFreeIsFree(used: set<nat>, from: nat, bound: nat)
    requires from <= bound
    ensures var f := FirstFree(used, from, bound);
      from <= f <= bound && (f < bound ==> f !in used) && forall k | from <= k < f :: k in used
    decreases bound - from
  {
    if from < bound && from in used {
      FirstFreeIsFree(used, from + 1, bound);
    }
  }

  lemma {:induction false} Pigeonhole(used: set<nat>, bound: nat)
    requires forall k: nat | k < bound :: k in used
    ensures |used| >= bound
  {
    if bound > 0 {
      Pigeonhole(used - {bound - 1}, bound - 1);
    }
  }

  /** A slab that is not full has a vacant key, whichever one is preferred. */
  lemma VacantInIsFree(used: set<nat>, slot: nat, bound: nat)
    requires |used| < bound
    ensures var t := VacantIn(used, slot, bound); t < bound && t !in used
  {
    FirstFreeIsFree(used, 0, bound);
    if forall k: nat | k < bound :: k in used {
      Pigeonhole(used, bound);
    }
  }
}
