/** Small building blocks shared by every component model. */
module Prelude {

  /** Identifiers are opaque strings in the program: only equality is used here. */
  type Id = nat

  /** ISO timestamps compare like integers. */
  type Time = int

  datatype Option<+T> = None | Some(value: T)

  ghost predicate NoDup<T>(s: seq<T>) {
    forall i, j :: 0 <= i < j < |s| ==> s[i] != s[j]
  }

  /** First occurrences only: `[...new Set(values)]`. */
  function Unique<T(==,!new)>(s: seq<T>): (r: seq<T>)
    ensures forall x :: x in r <==> x in s
    ensures NoDup(r)
  {
    if s == [] then [] else
      var r := Unique(s[..|s| - 1]);
      var x := s[|s| - 1];
      assert s == s[..|s| - 1] + [x];
      if x in r then r else r + [x]
  }

  /** Sum of the reported values; an unreported value counts as nothing. */
  function OrZero(v: Option<int>): int {
    if v.Some? then v.value else 0
  }

  /** Adds two optional numbers; the result is reported when either side is. */
  function AddOptional(a: Option<int>, b: Option<int>): Option<int> {
    if a.None? && b.None? then None else Some(OrZero(a) + OrZero(b))
  }

  function MaxInt(a: int, b: int): int {
    if a < b then b else a
  }

  /** The first one that is present. */
  function Either<T>(first: Option<T>, second: Option<T>): Option<T> {
    if first.Some? then first else second
  }

  lemma {:induction false} SubsetSize<T>(a: set<T>, b: set<T>)
    requires a <= b
    ensures |a| <= |b|
  {
    if a != {} {
      var x :| x in a;
      SubsetSize(a - {x}, b - {x});
    }
  }
}
