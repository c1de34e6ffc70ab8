/** Datatypes and sequence facts every other module of the model uses. */
module Wrappers {
  datatype Option<+T> = None | Some(value: T)

  datatype Result<+T, +E> = Success(value: T) | Failure(error: E)
}

module Sequences {
  /** No two positions of `s` hold the same element. */
  ghost predicate NoDup<T>(s: seq<T>) {
    forall i, j :: 0 <= i < j < |s| ==> s[i] != s[j]
  }

  ghost function Elements<T>(s: seq<T>): set<T> {
    set x | x in s
  }

  /** A sequence without repetition is as long as its set of elements is large. */
  lemma {:induction false} NoDupCardinality<T>(s: seq<T>)
    requires NoDup(s)
    ensures |Elements(s)| == |s|
  {
    if s == [] {
      assert Elements(s) == {};
    } else {
      var rest := s[1..];
      NoDupCardinality(rest);
      assert Elements(s) == {s[0]} + Elements(rest);
      assert s[0] !in rest;
    }
  }

  /** The pigeonhole principle: distinct elements of `universe` are at most as many as it has. */
  lemma {:induction false} NoDupWithin<T>(s: seq<T>, universe: set<T>)
    requires NoDup(s)
    requires forall x :: x in s ==> x in universe
    ensures |s| <= |universe|
  {
    NoDupCardinality(s);
    SubsetCardinality(Elements(s), universe);
  }

  lemma {:induction false} SubsetCardinality<T>(a: set<T>, b: set<T>)
    requires a <= b
    ensures |a| <= |b|
  {
    assert a + (b - a) == b;
  }

  lemma NoDupOfParts<T>(a: seq<T>, b: seq<T>)
    requires NoDup(a + b)
    ensures NoDup(a) && NoDup(b)
    ensures forall x :: x in a ==> x !in b
  {
    assert forall k :: 0 <= k < |a| ==> (a + b)[k] == a[k];
    assert forall k :: 0 <= k < |b| ==> (a + b)[|a| + k] == b[k];
  }

  function Min(a: nat, b: nat): nat {
    if a < b then a else b
  }
}
