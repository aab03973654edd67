// Weighted sums over sequences: how many elements have a property, and how
// such a count moves when one element changes.
module Totals {

  function Total<T>(s: seq<T>, weight: T -> nat): nat {
    if s == [] then 0 else weight(s[0]) + Total(s[1..], weight)
  }

  lemma {:induction false} TotalUpdate<T>(s: seq<T>, i: nat, x: T, weight: T -> nat)
    requires i < |s|
    ensures Total(s[i := x], weight) + weight(s[i]) == Total(s, weight) + weight(x)
  {
    if i == 0 {
      assert s[i := x][1..] == s[1..];
    } else {
      assert s[i := x][1..] == s[1..][i - 1 := x];
      TotalUpdate(s[1..], i - 1, x, weight);
    }
  }

  lemma {:induction false} TotalWitness<T>(s: seq<T>, weight: T -> nat) returns (i: nat)
    requires Total(s, weight) > 0
    ensures i < |s| && weight(s[i]) > 0
  {
    if weight(s[0]) > 0 {
      i := 0;
    } else {
      var j := TotalWitness(s[1..], weight);
      i := j + 1;
    }
  }

  lemma {:induction false} TotalDominates<T>(s: seq<T>, i: nat, weight: T -> nat)
    requires i < |s|
    ensures weight(s[i]) <= Total(s, weight)
  {
    if i > 0 {
      TotalDominates(s[1..], i - 1, weight);
    }
  }

  lemma {:induction false} TotalUniform<T>(s: seq<T>, weight: T -> nat, c: nat)
    requires forall i :: 0 <= i < |s| ==> weight(s[i]) == c
    ensures Total(s, weight) == c * |s|
  {
    if s != [] {
      assert forall i :: 0 <= i < |s[1..]| ==> s[1..][i] == s[i + 1];
      TotalUniform(s[1..], weight, c);
    }
  }
}
