/** A value or nothing, and counting. */
module Wrappers {
  datatype Option<T> = None | Some(value: T)

  function Below(n: nat): (r: set<nat>)
    ensures |r| == n && forall b :: b in r <==> 0 <= b < n
  {
    if n == 0 then {} else Below(n - 1) + {n - 1}
  }

  lemma SubsetCard<T>(a: set<T>, b: set<T>)
    requires a <= b
    ensures |a| <= |b|
  {
    assert b == a + (b - a);
  }

  /** Different elements of a finite set are no more than its size. */
  lemma {:induction false} DistinctFit(live: seq<nat>, keys: set<nat>)
    requires forall i, j :: 0 <= i < j < |live| ==> live[i] != live[j]
    requires forall i :: 0 <= i < |live| ==> live[i] in keys
    ensures |live| <= |keys|
  {
    if live != [] { DistinctFit(live[1..], keys - {live[0]}); }
  }

  ghost function Elems(s: seq<nat>): set<nat> { set x | x in s }

  lemma {:induction false} ElemsFit(s: seq<nat>)
    ensures |Elems(s)| <= |s|
  {
    if s == [] {
      assert Elems(s) == {};
    } else {
      ElemsFit(s[1..]);
      assert Elems(s) == Elems(s[1..]) + {s[0]};
    }
  }
}
