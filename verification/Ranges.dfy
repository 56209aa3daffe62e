/** Initial segments of the natural numbers. */
module Ranges {
  /** {0, ..., m - 1} */
  ghost function Range(m: nat): set<int> {
    if m == 0 then {} else Range(m - 1) + {m - 1}
  }

  lemma {:induction false} InRange(m: nat, q: int)
    ensures q in Range(m) <==> 0 <= q < m
  {
    if m > 0 {
      InRange(m - 1, q);
    }
  }

  lemma {:induction false} RangeSize(m: nat)
    ensures |Range(m)| == m
  {
    if m > 0 {
      RangeSize(m - 1);
      InRange(m - 1, m - 1);
    }
  }

  lemma {:induction false} RangeGrows(a: nat, b: nat)
    requires a <= b
    ensures Range(a) <= Range(b)
    decreases b
  {
    if a < b {
      RangeGrows(a, b - 1);
    }
  }

  lemma {:induction false} SizeInRange(s: set<int>, m: nat)
    requires s <= Range(m)
    ensures |s| <= m
  {
    if m > 0 {
      SizeInRange(s - {m - 1}, m - 1);
    }
  }

  lemma {:induction false} RangeWithin(m: nat, s: set<int>)
    requires forall q :: 0 <= q < m ==> q in s
    ensures Range(m) <= s
  {
    if m > 0 {
      RangeWithin(m - 1, s);
    }
  }
}
