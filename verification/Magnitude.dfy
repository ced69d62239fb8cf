/** Absolute values and the largest magnitude of a block. */
module Magnitude {
  function Abs(x: real): (r: real)
    ensures r >= 0.0 && r >= x && r >= -x && (r == x || r == -x)
  {
    if x < 0.0 then -x else x
  }

  /** The largest magnitude among the first `n` elements, at least 0. */
  function Amax(x: seq<real>, n: nat): (r: real)
    requires n <= |x|
    ensures r >= 0.0 && forall i :: 0 <= i < n ==> Abs(x[i]) <= r
  {
    if n == 0 then 0.0
    else
      var m := Amax(x, n - 1);
      if Abs(x[n - 1]) > m then Abs(x[n - 1]) else m
  }
}
