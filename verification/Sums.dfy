/** Sums of natural numbers. */
module Sums {
  function Sum(a: seq<nat>): nat {
    if a == [] then 0 else a[0] + Sum(a[1..])
  }

  lemma {:induction false} SumUpdate(a: seq<nat>, w: nat, r: nat)
    requires w < |a|
    ensures Sum(a[w := r]) == Sum(a) - a[w] + r
  {
    if w == 0 {
      assert a[w := r] == [r] + a[1..];
    } else {
      assert a[w := r] == [a[0]] + a[1..][w - 1 := r];
      SumUpdate(a[1..], w - 1, r);
    }
  }

  lemma {:induction false} SumZero(a: seq<nat>)
    ensures Sum(a) == 0 <==> forall w :: 0 <= w < |a| ==> a[w] == 0
  {
    if a != [] {
      SumZero(a[1..]);
      if Sum(a) == 0 {
        forall w | 0 <= w < |a| ensures a[w] == 0 {
          if w > 0 { assert a[w] == a[1..][w - 1]; }
        }
      }
    }
  }

  lemma {:induction false} SumAppend(a: seq<nat>, b: seq<nat>)
    ensures Sum(a + b) == Sum(a) + Sum(b)
  {
    if a == [] {
      assert a + b == b;
    } else {
      assert (a + b)[1..] == a[1..] + b;
      SumAppend(a[1..], b);
    }
  }
}
