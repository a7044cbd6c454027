/** Small shared definitions: optional values, used for lookups that can miss and for
    optional survey fields, and sequences without repeated elements. */
module Wrappers {
  datatype Option<+T> = None | Some(value: T)

  /** No element of `xs` occurs twice. */
  predicate Distinct(xs: seq<string>) {
    forall i, j :: 0 <= i < j < |xs| ==> xs[i] != xs[j]
  }
}
