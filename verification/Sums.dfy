/** Adding up a quantity over the elements of a sequence. */
module Sums {
  ghost function Sum<T(!new)>(s: seq<T>, f: T -> nat): nat {
    if s == [] then 0 else Sum(s[..|s| - 1], f) + f(s[|s| - 1])
  }

  lemma SumSnoc<T(!new)>(s: seq<T>, x: T, f: T -> nat)
    ensures Sum(s + [x], f) == Sum(s, f) + f(x)
  {
    assert (s + [x])[..|s|] == s;
  }

  lemma {:induction false} SumRemove<T(!new)>(s: seq<T>, k: nat, f: T -> nat)
    requires k < |s|
    ensures Sum(s, f) == Sum(s[..k] + s[k + 1..], f) + f(s[k])
  {
    var n := |s| - 1;
    if k < n {
      SumRemove(s[..n], k, f);
      assert s[..k] + s[k + 1..] == (s[..n][..k] + s[..n][k + 1..]) + [s[n]];
      SumSnoc(s[..n][..k] + s[..n][k + 1..], s[n], f);
    } else {
      assert s[..k] + s[k + 1..] == s[..n];
    }
  }

  lemma {:induction false} SumUpdate<T(!new)>(s: seq<T>, k: nat, x: T, f: T -> nat)
    requires k < |s|
    ensures Sum(s[k := x], f) + f(s[k]) == Sum(s, f) + f(x)
  {
    SumRemove(s, k, f);
    SumRemove(s[k := x], k, f);
    assert s[..k] + s[k + 1..] == s[k := x][..k] + s[k := x][k + 1..];
  }

  lemma {:induction false} SumZero<T(!new)>(s: seq<T>, f: T -> nat)
    requires forall i :: 0 <= i < |s| ==> f(s[i]) == 0
    ensures Sum(s, f) == 0
  {
    if s != [] {
      SumZero(s[..|s| - 1], f);
    }
  }

  lemma {:induction false} SumAtMost<T(!new)>(s: seq<T>, f: T -> nat, g: T -> nat)
    requires forall i :: 0 <= i < |s| ==> f(s[i]) <= g(s[i])
    ensures Sum(s, f) <= Sum(s, g)
  {
    if s != [] {
      SumAtMost(s[..|s| - 1], f, g);
    }
  }

  /** A total that is not zero has a part that is not. */
  lemma SumPositive<T(!new)>(s: seq<T>, f: T -> nat) returns (k: nat)
    requires Sum(s, f) > 0
    ensures k < |s| && f(s[k]) > 0
  {
    k := |s| - 1;
    if f(s[k]) == 0 {
      k := SumPositive(s[..k], f);
    }
  }
}
