/** Sums of sequences of numbers. */
module Sums {
  ghost function Sum(s: seq<nat>): nat {
    if s == [] then 0 else Sum(s[..|s| - 1]) + s[|s| - 1]
  }

  lemma {:induction false} SumUpdate(s: seq<nat>, i: nat, x: nat)
    requires i < |s|
    ensures Sum(s[i := x]) + s[i] == Sum(s) + x
    decreases |s|
  {
    var n := |s| - 1;
    if i < n {
      SumUpdate(s[..n], i, x);
      assert s[i := x][..n] == s[..n][i := x];
    } else {
      assert s[i := x][..n] == s[..n];
    }
  }

  lemma {:induction false} SumZero(s: seq<nat>)
    ensures Sum(s) == 0 <==> forall i: nat :: i < |s| ==> s[i] == 0
    decreases |s|
  {
    if s != [] {
      var n := |s| - 1;
      SumZero(s[..n]);
      assert Sum(s) == 0 ==> s[n] == 0;
      assert forall i: nat :: i < n ==> s[..n][i] == s[i];
    }
  }

  lemma {:induction false} SumOfSame(s: seq<nat>, r: seq<nat>, i: nat, more: nat)
    requires |s| == |r| && i < |s| && r[i] == s[i] + more
    requires forall j :: 0 <= j < |s| && j != i ==> r[j] == s[j]
    ensures Sum(r) == Sum(s) + more
  {
    SumUpdate(s, i, r[i]);
    assert r == s[i := r[i]];
  }

  /** If the elements at some positions are all `x`, the sum is as large as all of these together. */
  lemma {:induction false} SumAtLeast(s: seq<nat>, at: set<nat>, x: nat)
    requires forall i :: i in at ==> i < |s| && s[i] >= x
    ensures Sum(s) >= x * |at|
    decreases |s|
  {
    if s == [] {
      assert at == {};
    } else {
      var n := |s| - 1;
      var front := at - {n};
      assert forall i :: i in front ==> i < n && s[..n][i] == s[i];
      SumAtLeast(s[..n], front, x);
      if n in at {
        assert at == front + {n};
        assert x * |at| == x * |front| + x;
      } else {
        assert at == front;
      }
    }
  }
}
