/**
 * Proof helpers, not part of the modelled system: extensionality facts about
 * integer-keyed sets and maps, stated without a precondition so that a caller can
 * use them in any branch.
 */
module Collections {

  /** A set of integers with no element is empty. */
  lemma NoElementsMeansEmpty(s: set<int>)
    ensures (forall x :: x !in s) ==> s == {}
  {
    if forall x :: x !in s {
      assert s == {};
    }
  }

  /** Two integer-keyed maps with the same keys and the same value at every key are equal. */
  lemma MapExtensionality<V>(a: map<int, V>, b: map<int, V>)
    ensures (a.Keys == b.Keys && forall k | k in a :: a[k] == b[k]) ==> a == b
  {
    if a.Keys == b.Keys && forall k | k in a :: a[k] == b[k] {
      assert a == b;
    }
  }
}
