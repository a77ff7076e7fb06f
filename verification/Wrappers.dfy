/**
 What every module shares: a value that may be missing (TypeScript's `undefined`, C++'s
 std::optional), and ids that are not in use.
 */
module Wrappers {
  datatype Option<+T> = None | Some(value: T)

  /** There is always an id that is not in use, and all above it. */
  lemma {:induction false} FreshId(used: set<nat>) returns (bound: nat)
    ensures forall m :: m in used ==> m < bound
    decreases |used|
  {
    if used == {} {
      bound := 0;
    } else {
      var m :| m in used;
      var b := FreshId(used - {m});
      bound := if b <= m then m + 1 else b;
      assert forall n :: n in used ==> n == m || n in used - {m};
    }
  }
}
