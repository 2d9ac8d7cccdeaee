/** The health measure the divergence guard compares (prdozer/state.go). */
module PrHealth {

  /** Unresolved review threads and whether CI is red; the thread count is known here. */
  datatype PRHealth = PRHealth(unresolvedThreads: nat, ciFailing: bool) {

    /** Strict improvement: green beats red, then fewer threads win. */
    predicate BetterThan(other: PRHealth) {
      if ciFailing != other.ciFailing then !ciFailing
      else unresolvedThreads < other.unresolvedThreads
    }

    predicate Saturated() {
      unresolvedThreads == 0 && !ciFailing
    }

    /** How far the value is from the floor, as a lexicographic pair. */
    function Red(): nat {
      if ciFailing then 1 else 0
    }
  }

  /** BetterThan is a strict total order: irreflexive, transitive, and any two distinct values compare. */
  lemma BetterThanIsStrictTotalOrder(a: PRHealth, b: PRHealth, c: PRHealth)
    ensures !a.BetterThan(a)
    ensures a.BetterThan(b) && b.BetterThan(c) ==> a.BetterThan(c)
    ensures a != b <==> a.BetterThan(b) || b.BetterThan(a)
    ensures !(a.BetterThan(b) && b.BetterThan(a))
  {
  }

  /** Saturated names exactly the values nothing can beat. */
  lemma SaturatedIffUnbeatable(h: PRHealth)
    ensures h.Saturated() <==> forall other: PRHealth :: !other.BetterThan(h)
  {
    if !h.Saturated() {
      assert PRHealth(0, false).BetterThan(h);
    }
  }
}
