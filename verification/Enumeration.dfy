/** Listing a finite set in some order. */
module Enumeration {

  /** `xs` lists the elements of `chosen`, each once. */
  predicate Enumerates(xs: seq<nat>, chosen: set<nat>) {
    (forall k :: 0 <= k < |xs| ==> xs[k] in chosen)
    && (forall x :: x in chosen ==> x in xs)
    && (forall j, k :: 0 <= j < k < |xs| ==> xs[j] != xs[k])
  }
}
