/** Totals of a weight over a sequence, and how they change with one element. */
module Sums {

  function Sum<T>(s: seq<T>, w: T -> nat): nat {
    if s == [] then 0 else Sum(s[..|s| - 1], w) + w(s[|s| - 1])
  }

  lemma {:induction false} SumUpdate<T>(s: seq<T>, i: nat, x: T, w: T -> nat)
    requires i < |s|
    ensures Sum(s[i := x], w) + w(s[i]) == Sum(s, w) + w(x)
  {
    var n := |s| - 1;
    if i == n {
      assert s[i := x][..n] == s[..n];
    } else {
      SumUpdate(s[..n], i, x, w);
      assert s[i := x][..n] == s[..n][i := x];
    }
  }

  /** A weight that is pointwise the sum of two others. */
  lemma {:induction false} SumPlus<T>(s: seq<T>, a: T -> nat, b: T -> nat, c: T -> nat)
    requires forall i :: 0 <= i < |s| ==> a(s[i]) == b(s[i]) + c(s[i])
    ensures Sum(s, a) == Sum(s, b) + Sum(s, c)
  {
    if s != [] { SumPlus(s[..|s| - 1], a, b, c); }
  }

  lemma {:induction false} SumAtMost<T>(s: seq<T>, a: T -> nat, b: T -> nat)
    requires forall i :: 0 <= i < |s| ==> a(s[i]) <= b(s[i])
    ensures Sum(s, a) <= Sum(s, b)
  {
    if s != [] { SumAtMost(s[..|s| - 1], a, b); }
  }

  lemma {:induction false} SumOnes<T>(s: seq<T>, a: T -> nat)
    requires forall i :: 0 <= i < |s| ==> a(s[i]) == 1
    ensures Sum(s, a) == |s|
  {
    if s != [] { SumOnes(s[..|s| - 1], a); }
  }

  lemma {:induction false} SumZeros<T>(s: seq<T>, a: T -> nat)
    requires forall i :: 0 <= i < |s| ==> a(s[i]) == 0
    ensures Sum(s, a) == 0
  {
    if s != [] { SumZeros(s[..|s| - 1], a); }
  }
}
