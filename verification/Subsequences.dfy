/** Lists that keep some elements of another and their order. */
module Subsequences {
  ghost predicate Subsequence<T>(a: seq<T>, b: seq<T>) {
    a == [] || (b != [] && (
                  || (a[|a| - 1] == b[|b| - 1] && Subsequence(a[..|a| - 1], b[..|b| - 1]))
                  || Subsequence(a, b[..|b| - 1])))
  }

  lemma {:induction false} IsOwnSubsequence<T>(a: seq<T>)
    ensures Subsequence(a, a)
  {
    if a != [] {
      IsOwnSubsequence(a[..|a| - 1]);
    }
  }

  /** One more element in the longer list, and perhaps in the shorter one. */
  lemma OneMoreElement<T>(a: seq<T>, b: seq<T>, x: T)
    requires Subsequence(a, b)
    ensures Subsequence(a, b + [x]) && Subsequence(a + [x], b + [x])
  {
    assert (a + [x])[..|a|] == a && (b + [x])[..|b|] == b;
  }

  lemma {:induction false} Transitive<T>(a: seq<T>, b: seq<T>, c: seq<T>)
    requires Subsequence(a, b) && Subsequence(b, c)
    ensures Subsequence(a, c)
    decreases |c|
  {
    if a != [] && b != [] {
      var aFront, bFront, cFront := a[..|a| - 1], b[..|b| - 1], c[..|c| - 1];
      if Subsequence(b, cFront) {
        Transitive(a, b, cFront);
      } else if Subsequence(a, bFront) {
        Transitive(a, bFront, cFront);
      } else {
        Transitive(aFront, bFront, cFront);
      }
    }
  }
}
