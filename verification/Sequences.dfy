/** Sequences taken as lists of a set's elements, and the removal of one position. */
module Sequences {
  ghost function Elements<T>(s: seq<T>): set<T> {
    set x | x in s
  }

  ghost predicate NoRepeats<T>(s: seq<T>) {
    forall i, j | 0 <= i < j < |s| :: s[i] != s[j]
  }

  /** `s` names every element of `whole` exactly once. */
  ghost predicate Lists<T>(s: seq<T>, whole: set<T>) {
    Elements(s) == whole && NoRepeats(s)
  }

  lemma InAppend<T>(s: seq<T>, x: T)
    ensures forall y :: y in s + [x] <==> y in s || y == x
  {
  }

  lemma ListsAppend<T>(s: seq<T>, whole: set<T>, x: T)
    requires Lists(s, whole) && x !in whole
    ensures Lists(s + [x], whole + {x})
  {
  }

  lemma {:induction false} ListsCount<T>(s: seq<T>, whole: set<T>)
    requires Lists(s, whole)
    ensures |s| == |whole|
  {
    if s != [] {
      ListsCount(s[1..], whole - {s[0]});
    } else {
      assert whole == {};
    }
  }

  lemma ConcatLists<T>(s: seq<T>, whole: set<T>, v: seq<T>)
    requires Lists(s, whole) && NoRepeats(v) && forall x | x in v :: x !in whole
    ensures Lists(s + v, whole + Elements(v))
  {
    forall i, j | 0 <= i < j < |s + v| ensures (s + v)[i] != (s + v)[j] {
      if i < |s| <= j { assert s[i] in whole && v[j - |s|] in v; }
    }
    assert Elements(s + v) == whole + Elements(v);
  }

  function Remove<T>(s: seq<T>, i: nat): seq<T>
    requires i < |s|
  {
    s[..i] + s[i + 1..]
  }

  lemma RemoveKeepsOthers<T>(s: seq<T>, i: nat, x: T)
    requires i < |s| && x in s
    ensures x == s[i] || x in Remove(s, i)
  {
  }

  lemma RemoveMembers<T>(s: seq<T>, i: nat)
    requires i < |s|
    ensures forall x | x in Remove(s, i) :: x in s
  {
  }
}
