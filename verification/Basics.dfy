/** What several modules need of sequences, numbers and characters. */
module Basics {
  predicate NoDup<T(==)>(s: seq<T>) {
    forall i, j :: 0 <= i < j < |s| ==> s[i] != s[j]
  }

  function Min(a: nat, b: nat): nat {
    if a <= b then a else b
  }

  predicate IsCrLf(c: char) {
    c == '\r' || c == '\n'
  }
}
