/** Sequences without repetition. */
module Lists {

  predicate Distinct<T(==)>(list: seq<T>) {
    forall i, j :: 0 <= i < j < |list| ==> list[i] != list[j]
  }
}
