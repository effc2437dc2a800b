/** Small shared vocabulary. */
module Util {
  datatype Option<+T> = None | Some(value: T)

  function Max(a: int, b: int): int { if a < b then b else a }

  function Min(a: int, b: int): int { if a < b then a else b }

  predicate NoDup<T(==)>(xs: seq<T>) { forall i, j :: 0 <= i < j < |xs| ==> xs[i] != xs[j] }

  /** Names of different lengths, so as many as are needed. */
  function Name(n: nat): (s: string)
    ensures |s| == n
  {
    seq(n, i => 'x')
  }

  lemma FirstOfConcat<T>(a: seq<T>, b: seq<T>, all: seq<T>)
    requires all == a + b && a != []
    ensures all != [] && all[0] == a[0] && all[1..] == a[1..] + b
  {
  }

  /** Some element of a nonempty set: Go's map iteration promises no order. */
  ghost function Pick<T>(s: set<T>): (x: T)
    requires s != {}
    ensures x in s
  {
    var x :| x in s; x
  }

  method Any<T>(s: set<T>) returns (x: T)
    requires s != {}
    ensures x in s
  {
    x :| x in s;
  }
}
