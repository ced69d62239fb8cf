/** One decode step of the gated delta rule over exact reals: the in-place column-by-column
    update of each head's state, and its matrix form. */
module Gdn {
  import opened Flat
  import opened Nested

  datatype Shape = Shape(kHeads: nat, vHeads: nat, dk: nat, dv: nat) {
    predicate Ok() {
      kHeads > 0 && vHeads % kHeads == 0
    }

    function Expand(): nat
      requires kHeads > 0
    {
      vHeads / kHeads
    }

    function HeadLen(): nat {
      dk * dv
    }
  }

  /** Rows over the key dimension, columns over the value dimension. */
  type Matrix = seq<seq<real>>

  predicate IsMatrix(m: Matrix, dk: nat, dv: nat) {
    |m| == dk && forall i :: 0 <= i < dk ==> |m[i]| == dv
  }

  // ----- The matrix form -----

  function Mul(a: real, b: real): real {
    a * b
  }

  /** The sum over the first `n` rows of column `j` times `x`. */
  function ColumnDot(m: Matrix, x: seq<real>, j: nat, n: nat): real
    requires n <= |m| && n <= |x| && forall i :: 0 <= i < n ==> j < |m[i]|
  {
    if n == 0 then 0.0 else ColumnDot(m, x, j, n - 1) + Mul(m[n - 1][j], x[n - 1])
  }

  function Decayed(m: Matrix, decay: real): (r: Matrix)
    ensures |r| == |m| && forall i :: 0 <= i < |m| ==> |r[i]| == |m[i]|
  {
    seq(|m|, i requires 0 <= i < |m| => seq(|m[i]|, j requires 0 <= j < |m[i]| => Mul(m[i][j], decay)))
  }

  /** The correction written along `k` in column `j`. */
  function Delta(m: Matrix, k: seq<real>, v: seq<real>, beta: real, j: nat): real
    requires IsMatrix(m, |k|, |v|) && j < |v|
  {
    Mul(v[j] - ColumnDot(m, k, j, |k|), beta)
  }

  /** S' = S + k (x) beta (v - S^T k), on the decayed state. */
  function Updated(m: Matrix, k: seq<real>, v: seq<real>, beta: real): (r: Matrix)
    requires IsMatrix(m, |k|, |v|)
    ensures IsMatrix(r, |k|, |v|)
  {
    seq(|k|, i requires 0 <= i < |k| => seq(|v|, j requires 0 <= j < |v| => m[i][j] + Mul(k[i], Delta(m, k, v, beta, j))))
  }

  function Step(m: Matrix, k: seq<real>, v: seq<real>, beta: real, decay: real): (r: Matrix)
    requires IsMatrix(m, |k|, |v|)
    ensures IsMatrix(r, |k|, |v|)
  {
    Updated(Decayed(m, decay), k, v, beta)
  }

  /** y = S^T q. */
  function Read(m: Matrix, q: seq<real>, dv: nat): (y: seq<real>)
    requires IsMatrix(m, |q|, dv)
    ensures |y| == dv
  {
    seq(dv, j requires 0 <= j < dv => ColumnDot(m, q, j, |q|))
  }

  // ----- Recall -----

  function NormSquared(k: seq<real>, n: nat): real
    requires n <= |k|
  {
    if n == 0 then 0.0 else NormSquared(k, n - 1) + Mul(k[n - 1], k[n - 1])
  }

  lemma {:induction false} UpdatedDot(m: Matrix, k: seq<real>, v: seq<real>, beta: real, j: nat, n: nat)
    requires IsMatrix(m, |k|, |v|) && j < |v| && n <= |k|
    ensures ColumnDot(Updated(m, k, v, beta), k, j, n)
         == ColumnDot(m, k, j, n) + Mul(NormSquared(k, n), Delta(m, k, v, beta, j))
  {
    hide Mul;
    hide Delta;
    if n == 0 {
      MulZero(Delta(m, k, v, beta, j));
    } else {
      UpdatedDot(m, k, v, beta, j, n - 1);
      RecallTerm(m[n - 1][j], k[n - 1], Delta(m, k, v, beta, j), NormSquared(k, n - 1));
    }
  }

  lemma MulZero(d: real)
    ensures Mul(0.0, d) == 0.0
  {
  }

  lemma RecallTerm(s: real, k: real, d: real, norm: real)
    ensures Mul(s + Mul(k, d), k) == Mul(s, k) + Mul(Mul(k, k), d)
    ensures Mul(norm + Mul(k, k), d) == Mul(norm, d) + Mul(Mul(k, k), d)
  {
  }

  lemma {:induction false} DecayedDot(m: Matrix, x: seq<real>, decay: real, j: nat, n: nat)
    requires n <= |m| && n <= |x| && forall i :: 0 <= i < |m| ==> j < |m[i]|
    ensures ColumnDot(Decayed(m, decay), x, j, n) == Mul(decay, ColumnDot(m, x, j, n))
  {
    hide Mul;
    if n == 0 {
      MulZeroRight(decay);
    } else {
      DecayedDot(m, x, decay, j, n - 1);
      DecayTerm(ColumnDot(m, x, j, n - 1), m[n - 1][j], x[n - 1], decay);
    }
  }

  lemma MulZeroRight(d: real)
    ensures Mul(d, 0.0) == 0.0
  {
  }

  lemma DecayTerm(sum: real, s: real, x: real, decay: real)
    ensures Mul(Mul(s, decay), x) == Mul(decay, Mul(s, x))
    ensures Mul(decay, sum + Mul(s, x)) == Mul(decay, sum) + Mul(decay, Mul(s, x))
  {
  }

  /** What the new state recalls for the key: a blend of the decayed old value and the new
      one, exact when beta |k|^2 is 1. */
  lemma Recall(m: Matrix, k: seq<real>, v: seq<real>, beta: real, decay: real, j: nat)
    requires IsMatrix(m, |k|, |v|) && j < |v|
    ensures
      var w := Mul(beta, NormSquared(k, |k|));
      var recalled := ColumnDot(Step(m, k, v, beta, decay), k, j, |k|);
      && recalled == Mul(1.0 - w, Mul(decay, ColumnDot(m, k, j, |k|))) + Mul(w, v[j])
      && (w == 1.0 ==> recalled == v[j])
  {
    hide ColumnDot;
    hide NormSquared;
    UpdatedDot(Decayed(m, decay), k, v, beta, j, |k|);
    DecayedDot(m, k, decay, j, |k|);
    Blend(Mul(decay, ColumnDot(m, k, j, |k|)), v[j], beta, NormSquared(k, |k|));
  }

  lemma Blend(was: real, v: real, beta: real, norm: real)
    ensures was + Mul(norm, Mul(v - was, beta)) == Mul(1.0 - Mul(beta, norm), was) + Mul(Mul(beta, norm), v)
    ensures Mul(beta, norm) == 1.0 ==> Mul(1.0 - Mul(beta, norm), was) + Mul(Mul(beta, norm), v) == v
  {
    var w := beta * norm;
    assert norm * ((v - was) * beta) == w * (v - was);
    assert w * (v - was) == w * v - w * was;
    assert (1.0 - w) * was == was - w * was;
  }

  // ----- The state buffer -----

  /** One head's matrix in the flat state. */
  function MatrixAt(state: seq<real>, base: nat, dk: nat, dv: nat): (m: Matrix)
    requires base + dk * dv <= |state|
    ensures IsMatrix(m, dk, dv)
  {
    seq(dk, i requires 0 <= i < dk => seq(dv, j requires 0 <= j < dv =>
      (IxBound(i, j, dk, dv); state[base + Ix(i, j, dv)])))
  }

  /** `b` differs from `a` at most in the `len` cells from `base` on. */
  predicate OnlyWithin(a: seq<real>, b: seq<real>, base: nat, len: nat) {
    |a| == |b| && forall t :: 0 <= t < |a| && !(base <= t < base + len) ==> a[t] == b[t]
  }

  lemma CellAt(state: seq<real>, base: nat, dk: nat, dv: nat, i: nat, j: nat)
    requires base + dk * dv <= |state| && i < dk && j < dv
    ensures Ix(i, j, dv) < dk * dv && MatrixAt(state, base, dk, dv)[i][j] == state[base + Ix(i, j, dv)]
  {
    IxBound(i, j, dk, dv);
  }

  lemma CellWritten(was: seq<real>, now: seq<real>, base: nat, dk: nat, dv: nat, i: nat, j: nat, y: real)
    requires base + dk * dv <= |was| && i < dk && j < dv && Ix(i, j, dv) < dk * dv
    requires now == was[base + Ix(i, j, dv) := y]
    ensures MatrixAt(now, base, dk, dv) == MatrixAt(was, base, dk, dv)[i := MatrixAt(was, base, dk, dv)[i][j := y]]
  {
    hide MatrixAt;
    hide Ix;
    var a, b := MatrixAt(was, base, dk, dv), MatrixAt(now, base, dk, dv);
    var want := a[i := a[i][j := y]];
    forall r: nat | r < dk ensures b[r] == want[r] {
      forall c: nat | c < dv ensures b[r][c] == want[r][c] {
        CellAt(was, base, dk, dv, r, c);
        CellAt(now, base, dk, dv, r, c);
        if Ix(r, c, dv) == Ix(i, j, dv) {
          IxSplit(r, c, dv);
          IxSplit(i, j, dv);
        }
      }
    }
  }

  method WriteCell(state: array<real>, base: nat, dk: nat, dv: nat, i: nat, j: nat, y: real)
    requires base + dk * dv <= state.Length && i < dk && j < dv
    modifies state
    ensures MatrixAt(state[..], base, dk, dv)
         == old(MatrixAt(state[..], base, dk, dv))[i := old(MatrixAt(state[..], base, dk, dv))[i][j := y]]
    ensures OnlyWithin(old(state[..]), state[..], base, dk * dv)
  {
    IxBound(i, j, dk, dv);
    ghost var was := state[..];
    state[base + Ix(i, j, dv)] := y;
    CellWritten(was, state[..], base, dk, dv, i, j, y);
  }

  // ----- The loops of one head -----

  method DecayHead(state: array<real>, base: nat, dk: nat, dv: nat, decay: real)
    requires base + dk * dv <= state.Length
    modifies state
    ensures MatrixAt(state[..], base, dk, dv) == Decayed(old(MatrixAt(state[..], base, dk, dv)), decay)
    ensures OnlyWithin(old(state[..]), state[..], base, dk * dv)
  {
    hide Mul;
    ghost var was := state[..];
    for t := 0 to dk * dv
      invariant forall q :: 0 <= q < state.Length ==>
        state[q] == (if base <= q < base + t then Mul(was[q], decay) else was[q])
    {
      state[base + t] := Mul(state[base + t], decay);
    }
    ghost var m, want := MatrixAt(was, base, dk, dv), Decayed(MatrixAt(was, base, dk, dv), decay);
    ghost var now := MatrixAt(state[..], base, dk, dv);
    forall i: nat | i < dk ensures now[i] == want[i] {
      forall j: nat | j < dv ensures now[i][j] == want[i][j] {
        CellAt(was, base, dk, dv, i, j);
        CellAt(state[..], base, dk, dv, i, j);
      }
    }
  }

  /** Columns before `j`, and the first `i` rows of column `j`, taken from `u`. */
  function Partly(m: Matrix, u: Matrix, dk: nat, dv: nat, j: nat, i: nat): (r: Matrix)
    requires IsMatrix(m, dk, dv) && IsMatrix(u, dk, dv)
    ensures IsMatrix(r, dk, dv)
  {
    seq(dk, a requires 0 <= a < dk => seq(dv, b requires 0 <= b < dv =>
      if b < j || (b == j && a < i) then u[a][b] else m[a][b]))
  }

  lemma PartlyEnds(m: Matrix, u: Matrix, dk: nat, dv: nat, j: nat)
    requires IsMatrix(m, dk, dv) && IsMatrix(u, dk, dv)
    ensures Partly(m, u, dk, dv, 0, 0) == m && Partly(m, u, dk, dv, dv, 0) == u
    ensures Partly(m, u, dk, dv, j, dk) == Partly(m, u, dk, dv, j + 1, 0)
  {
    SameRows(Partly(m, u, dk, dv, 0, 0), m, dk, dv);
    SameRows(Partly(m, u, dk, dv, dv, 0), u, dk, dv);
    SameRows(Partly(m, u, dk, dv, j, dk), Partly(m, u, dk, dv, j + 1, 0), dk, dv);
  }

  lemma SameRows(a: Matrix, b: Matrix, dk: nat, dv: nat)
    requires IsMatrix(a, dk, dv) && IsMatrix(b, dk, dv)
    requires forall i: nat, j: nat :: i < dk && j < dv ==> a[i][j] == b[i][j]
    ensures a == b
  {
    forall i: nat | i < dk ensures a[i] == b[i] {
    }
  }

  lemma PartlyNext(m: Matrix, u: Matrix, dk: nat, dv: nat, j: nat, i: nat)
    requires IsMatrix(m, dk, dv) && IsMatrix(u, dk, dv) && i < dk && j < dv
    ensures Partly(m, u, dk, dv, j, i + 1)
         == Partly(m, u, dk, dv, j, i)[i := Partly(m, u, dk, dv, j, i)[i][j := u[i][j]]]
  {
    var p := Partly(m, u, dk, dv, j, i);
    SameRows(Partly(m, u, dk, dv, j, i + 1), p[i := p[i][j := u[i][j]]], dk, dv);
  }

  /** Sums one column of the buffer against `x`. */
  method DotColumn(state: array<real>, base: nat, dk: nat, dv: nat, x: seq<real>, j: nat) returns (sum: real)
    requires base + dk * dv <= state.Length && |x| == dk && j < dv
    ensures sum == ColumnDot(MatrixAt(state[..], base, dk, dv), x, j, dk)
  {
    hide Mul;
    hide MatrixAt;
    sum := 0.0;
    for i := 0 to dk
      invariant sum == ColumnDot(MatrixAt(state[..], base, dk, dv), x, j, i)
    {
      CellAt(state[..], base, dk, dv, i, j);
      sum := sum + Mul(state[base + Ix(i, j, dv)], x[i]);
    }
  }

  lemma {:induction false} UntouchedColumn(m: Matrix, u: Matrix, x: seq<real>, dk: nat, dv: nat, j: nat, n: nat)
    requires IsMatrix(m, dk, dv) && IsMatrix(u, dk, dv) && j < dv && n <= dk == |x|
    ensures ColumnDot(Partly(m, u, dk, dv, j, 0), x, j, n) == ColumnDot(m, x, j, n)
  {
    hide Mul;
    if n > 0 {
      UntouchedColumn(m, u, x, dk, dv, j, n - 1);
    }
  }

  /** The update, in place, one column after the other: each column reads only itself. */
  method UpdateHead(state: array<real>, base: nat, k: seq<real>, v: seq<real>, beta: real)
    requires base + |k| * |v| <= state.Length
    modifies state
    ensures MatrixAt(state[..], base, |k|, |v|) == Updated(old(MatrixAt(state[..], base, |k|, |v|)), k, v, beta)
    ensures OnlyWithin(old(state[..]), state[..], base, |k| * |v|)
  {
    hide MatrixAt;
    hide Partly;
    hide Mul;
    hide ColumnDot;
    hide Ix;
    var dk, dv := |k|, |v|;
    ghost var m := MatrixAt(state[..], base, dk, dv);
    ghost var u := Updated(m, k, v, beta);
    PartlyEnds(m, u, dk, dv, 0);
    for j := 0 to dv
      invariant MatrixAt(state[..], base, dk, dv) == Partly(m, u, dk, dv, j, 0)
      invariant OnlyWithin(old(state[..]), state[..], base, dk * dv)
    {
      var kv := DotColumn(state, base, dk, dv, k, j);
      UntouchedColumn(m, u, k, dk, dv, j, dk);
      var delta := Mul(v[j] - kv, beta);
      assert delta == Delta(m, k, v, beta, j);
      for i := 0 to dk
        invariant MatrixAt(state[..], base, dk, dv) == Partly(m, u, dk, dv, j, i)
        invariant OnlyWithin(old(state[..]), state[..], base, dk * dv)
      {
        CellAt(state[..], base, dk, dv, i, j);
        PartlyCell(m, u, dk, dv, j, i);
        WriteCell(state, base, dk, dv, i, j, state[base + Ix(i, j, dv)] + Mul(k[i], delta));
        PartlyNext(m, u, dk, dv, j, i);
      }
      PartlyEnds(m, u, dk, dv, j);
    }
    PartlyEnds(m, u, dk, dv, 0);
  }

  lemma PartlyCell(m: Matrix, u: Matrix, dk: nat, dv: nat, j: nat, i: nat)
    requires IsMatrix(m, dk, dv) && IsMatrix(u, dk, dv) && i < dk && j < dv
    ensures Partly(m, u, dk, dv, j, i)[i][j] == m[i][j]
  {
  }

  /** The read-out of one head into `out[at..at + dv]`. */
  method ReadHead(state: array<real>, base: nat, q: seq<real>, dv: nat, out: array<real>, at: nat)
    requires base + |q| * dv <= state.Length && at + dv <= out.Length && out != state
    modifies out
    ensures out[at..at + dv] == Read(MatrixAt(state[..], base, |q|, dv), q, dv)
    ensures OnlyWithin(old(out[..]), out[..], at, dv)
  {
    hide MatrixAt;
    hide ColumnDot;
    ghost var want := Read(MatrixAt(state[..], base, |q|, dv), q, dv);
    for j := 0 to dv
      invariant out[at..at + j] == want[..j]
      invariant OnlyWithin(old(out[..]), out[..], at, dv)
    {
      var y := DotColumn(state, base, |q|, dv, q, j);
      out[at + j] := y;
      assert out[at..at + j + 1] == out[at..at + j] + [y];
      assert want[..j + 1] == want[..j] + [want[j]];
    }
  }

  // ----- All heads -----

  predicate Buffers(s: Shape, state: seq<real>, q: seq<real>, k: seq<real>, v: seq<real>, beta: seq<real>, g: seq<real>, out: seq<real>) {
    && |state| == s.vHeads * s.HeadLen() && |q| == |k| == s.kHeads * s.dk
    && |v| == |out| == s.vHeads * s.dv && |beta| == |g| == s.vHeads
  }

  lemma KeyHead(s: Shape, h: nat)
    requires s.Ok() && h < s.vHeads
    ensures s.Expand() > 0 && h / s.Expand() < s.kHeads
  {
    var e := s.Expand();
    assert s.vHeads == e * s.kHeads;
    if h / e >= s.kHeads {
      MulMono(s.kHeads, h / e, e);
    }
  }

  /** Key head `kh` serves `Expand()` consecutive value heads, and `h` is one of them. */
  predicate Serves(s: Shape, kh: nat, h: nat)
    requires s.kHeads > 0
  {
    kh * s.Expand() <= h < (kh + 1) * s.Expand()
  }

  /** The key head that feeds value head `h`. */
  function KeyHeadOf(s: Shape, h: nat): (kh: nat)
    requires s.Ok() && h < s.vHeads
    ensures kh < s.kHeads && Serves(s, kh, h)
  {
    KeyHead(s, h);
    Quotient(h, s.Expand());
    h / s.Expand()
  }

  lemma Quotient(h: nat, e: nat)
    requires e > 0
    ensures (h / e) * e <= h < (h / e + 1) * e
  {
  }

  /** No other key head serves it. */
  lemma ServedByOne(s: Shape, kh: nat, h: nat)
    requires s.Ok() && h < s.vHeads && Serves(s, kh, h)
    ensures kh == KeyHeadOf(s, h)
  {
    var other := KeyHeadOf(s, h);
    if kh < other {
      MulMono(kh + 1, other, s.Expand());
    } else if other < kh {
      MulMono(other + 1, kh, s.Expand());
    }
  }

  function KeyRow(s: Shape, x: seq<real>, h: nat): (r: seq<real>)
    requires s.Ok() && h < s.vHeads && |x| == s.kHeads * s.dk
    ensures |r| == s.dk
  {
    RowBounds(KeyHeadOf(s, h), s.kHeads, s.dk);
    Row(x, KeyHeadOf(s, h), s.dk)
  }

  function ValueRow(s: Shape, x: seq<real>, h: nat): (r: seq<real>)
    requires h < s.vHeads && |x| == s.vHeads * s.dv
    ensures |r| == s.dv
  {
    RowBounds(h, s.vHeads, s.dv);
    Row(x, h, s.dv)
  }

  function HeadMatrix(s: Shape, state: seq<real>, h: nat): (m: Matrix)
    requires h < s.vHeads && |state| == s.vHeads * s.HeadLen()
    ensures IsMatrix(m, s.dk, s.dv)
  {
    RowBounds(h, s.vHeads, s.HeadLen());
    MatrixAt(state, h * s.HeadLen(), s.dk, s.dv)
  }

  /** Head `h` has taken its step, and its output is written. */
  predicate HeadDone(s: Shape, exp: real -> real, was: seq<real>, now: seq<real>, q: seq<real>, k: seq<real>, v: seq<real>,
                     beta: seq<real>, g: seq<real>, out: seq<real>, h: nat)
    requires s.Ok() && h < s.vHeads && Buffers(s, was, q, k, v, beta, g, out) && |now| == |was|
  {
    && HeadMatrix(s, now, h) == Step(HeadMatrix(s, was, h), KeyRow(s, k, h), ValueRow(s, v, h), beta[h], exp(g[h]))
    && ValueRow(s, out, h) == Read(HeadMatrix(s, now, h), KeyRow(s, q, h), s.dv)
  }

  lemma SliceApart(a: seq<real>, b: seq<real>, h: nat, h': nat, n: nat, len: nat)
    requires h < n && h' < n && h != h' && |a| == |b| == n * len && OnlyWithin(a, b, h * len, len)
    ensures h' * len + len <= |a| && a[h' * len..h' * len + len] == b[h' * len..h' * len + len]
  {
    RowBounds(h, n, len);
    RowBounds(h', n, len);
    if h < h' {
      RowBounds(h, h', len);
    } else {
      RowBounds(h', h, len);
    }
  }

  lemma MatrixOfSlice(a: seq<real>, b: seq<real>, base: nat, dk: nat, dv: nat)
    requires base + dk * dv <= |a| && |a| == |b| && a[base..base + dk * dv] == b[base..base + dk * dv]
    ensures MatrixAt(a, base, dk, dv) == MatrixAt(b, base, dk, dv)
  {
    hide Ix;
    forall i: nat, j: nat | i < dk && j < dv ensures MatrixAt(a, base, dk, dv)[i][j] == MatrixAt(b, base, dk, dv)[i][j] {
      CellAt(a, base, dk, dv, i, j);
      CellAt(b, base, dk, dv, i, j);
      assert a[base + Ix(i, j, dv)] == a[base..base + dk * dv][Ix(i, j, dv)];
      assert b[base + Ix(i, j, dv)] == b[base..base + dk * dv][Ix(i, j, dv)];
    }
    SameRows(MatrixAt(a, base, dk, dv), MatrixAt(b, base, dk, dv), dk, dv);
  }

  /** Work on head `h` leaves every other head's state. */
  lemma OtherHeads(s: Shape, a: seq<real>, b: seq<real>, h: nat, h': nat)
    requires h < s.vHeads && h' < s.vHeads && h != h' && |a| == |b| == s.vHeads * s.HeadLen()
    requires OnlyWithin(a, b, h * s.HeadLen(), s.HeadLen())
    ensures HeadMatrix(s, a, h') == HeadMatrix(s, b, h')
  {
    hide MatrixAt;
    SliceApart(a, b, h, h', s.vHeads, s.HeadLen());
    MatrixOfSlice(a, b, h' * s.HeadLen(), s.dk, s.dv);
  }

  lemma WithinTwice(a: seq<real>, b: seq<real>, c: seq<real>, base: nat, len: nat)
    requires OnlyWithin(a, b, base, len) && OnlyWithin(b, c, base, len)
    ensures OnlyWithin(a, c, base, len)
  {
  }

  method StepHead(s: Shape, exp: real -> real, state: array<real>, q: seq<real>, k: seq<real>, v: seq<real>,
                  beta: seq<real>, g: seq<real>, out: array<real>, h: nat)
    requires s.Ok() && h < s.vHeads && Buffers(s, state[..], q, k, v, beta, g, out[..]) && state != out
    modifies state, out
    ensures HeadDone(s, exp, old(state[..]), state[..], q, k, v, beta, g, out[..], h)
    ensures OnlyWithin(old(state[..]), state[..], h * s.HeadLen(), s.HeadLen())
    ensures OnlyWithin(old(out[..]), out[..], h * s.dv, s.dv)
  {
    hide MatrixAt;
    hide Decayed;
    hide Updated;
    hide Read;
    RowBounds(h, s.vHeads, s.HeadLen());
    RowBounds(h, s.vHeads, s.dv);
    var kh, base := KeyHeadOf(s, h), h * s.HeadLen();
    ghost var was := state[..];
    DecayHead(state, base, s.dk, s.dv, exp(g[h]));
    ghost var decayed := state[..];
    UpdateHead(state, base, KeyRow(s, k, h), ValueRow(s, v, h), beta[h]);
    WithinTwice(was, decayed, state[..], base, s.HeadLen());
    ReadHead(state, base, KeyRow(s, q, h), s.dv, out, h * s.dv);
    assert ValueRow(s, out[..], h) == out[h * s.dv..h * s.dv + s.dv];
  }

  /** One decode step: every head takes the matrix step, reads its output from the new
      state, and leaves the other heads alone. */
  method DecodeStep(s: Shape, exp: real -> real, state: array<real>, q: seq<real>, k: seq<real>, v: seq<real>,
                    beta: seq<real>, g: seq<real>, out: array<real>)
    requires s.Ok() && Buffers(s, state[..], q, k, v, beta, g, out[..]) && state != out
    modifies state, out
    ensures forall h: nat :: h < s.vHeads ==> HeadDone(s, exp, old(state[..]), state[..], q, k, v, beta, g, out[..], h)
    ensures forall h: nat, kh: nat, j: nat :: h < s.vHeads && Serves(s, kh, h) && j < s.dv ==>
      ColumnStepped(s, exp, old(state[..]), state[..], q, k, v, beta, g, out[..], h, kh, j)
  {
    hide ColumnStepped;
    hide Serves;
    hide HeadMatrix;
    hide HeadDone;
    hide OnlyWithin;
    hide ValueRow;
    ghost var was := state[..];
    for h := 0 to s.vHeads
      invariant forall i: nat :: i < h ==> HeadDone(s, exp, was, state[..], q, k, v, beta, g, out[..], i)
      invariant forall i: nat :: h <= i < s.vHeads ==> HeadMatrix(s, state[..], i) == HeadMatrix(s, was, i)
    {
      ghost var before, outBefore := state[..], out[..];
      StepHead(s, exp, state, q, k, v, beta, g, out, h);
      HeadDoneKept(s, exp, before, was, state[..], state[..], q, k, v, beta, g, out[..], out[..], h);
      forall i: nat | i < h ensures HeadDone(s, exp, was, state[..], q, k, v, beta, g, out[..], i) {
        OtherHeads(s, before, state[..], h, i);
        OtherOutputs(s, outBefore, out[..], h, i);
        HeadDoneKept(s, exp, was, was, before, state[..], q, k, v, beta, g, outBefore, out[..], i);
      }
      forall i: nat | h < i < s.vHeads ensures HeadMatrix(s, state[..], i) == HeadMatrix(s, was, i) {
        OtherHeads(s, before, state[..], h, i);
      }
    }
    forall h: nat, kh: nat, j: nat | h < s.vHeads && Serves(s, kh, h) && j < s.dv
      ensures ColumnStepped(s, exp, was, state[..], q, k, v, beta, g, out[..], h, kh, j)
    {
      SteppedInCells(s, exp, was, state[..], q, k, v, beta, g, out[..], h, kh, j);
    }
  }

  /** A head's step depends only on its own state and output. */
  lemma HeadDoneKept(s: Shape, exp: real -> real, was: seq<real>, was': seq<real>, now: seq<real>, now': seq<real>,
                     q: seq<real>, k: seq<real>, v: seq<real>, beta: seq<real>, g: seq<real>, out: seq<real>, out': seq<real>, h: nat)
    requires s.Ok() && h < s.vHeads && Buffers(s, was, q, k, v, beta, g, out)
    requires |was| == |was'| == |now| == |now'| && |out| == |out'|
    requires HeadMatrix(s, was, h) == HeadMatrix(s, was', h) && HeadMatrix(s, now, h) == HeadMatrix(s, now', h)
    requires ValueRow(s, out, h) == ValueRow(s, out', h)
    requires HeadDone(s, exp, was, now, q, k, v, beta, g, out, h)
    ensures HeadDone(s, exp, was', now', q, k, v, beta, g, out', h)
  {
    hide HeadMatrix;
    hide ValueRow;
    hide Step;
    hide Read;
  }

  lemma OtherOutputs(s: Shape, a: seq<real>, b: seq<real>, h: nat, h': nat)
    requires h < s.vHeads && h' < s.vHeads && h != h' && |a| == |b| == s.vHeads * s.dv && OnlyWithin(a, b, h * s.dv, s.dv)
    ensures ValueRow(s, a, h') == ValueRow(s, b, h')
  {
    SliceApart(a, b, h, h', s.vHeads, s.dv);
  }

  // ----- The step, cell by cell -----

  /** An element, or 0 past the end. */
  function Entry(x: seq<real>, i: nat): real {
    if i < |x| then x[i] else 0.0
  }

  /** The sum over `i < n` of `a[base + i * stride] * b[at + i]`. */
  function Strided(a: seq<real>, base: nat, stride: nat, b: seq<real>, at: nat, n: nat): real {
    if n == 0 then 0.0
    else Strided(a, base, stride, b, at, n - 1) + Entry(a, base + (n - 1) * stride) * Entry(b, at + n - 1)
  }

  /** The flat cell (i, j) of value head `h`. */
  function CellOf(s: Shape, h: nat, i: nat, j: nat): nat {
    h * (s.dk * s.dv) + i * s.dv + j
  }

  /** What column `j` of head `h` misses of its value, with key head `kh`, times beta. */
  function Correction(s: Shape, decay: real, was: seq<real>, k: seq<real>, v: seq<real>, beta: seq<real>, h: nat, kh: nat, j: nat): real {
    (Entry(v, h * s.dv + j) - decay * Strided(was, CellOf(s, h, 0, j), s.dv, k, kh * s.dk, s.dk)) * Entry(beta, h)
  }

  /** Column `j` of head `h`, with key head `kh`: the decayed state corrected along the key, and the
      output read from the new state along the query. */
  ghost predicate ColumnStepped(s: Shape, exp: real -> real, was: seq<real>, now: seq<real>, q: seq<real>, k: seq<real>,
                                v: seq<real>, beta: seq<real>, g: seq<real>, out: seq<real>, h: nat, kh: nat, j: nat)
  {
    && (forall i: nat :: i < s.dk ==> CellStepped(s, exp(Entry(g, h)), was, now, k, v, beta, h, kh, i, j))
    && Entry(out, h * s.dv + j) == Strided(now, CellOf(s, h, 0, j), s.dv, q, kh * s.dk, s.dk)
  }

  predicate CellStepped(s: Shape, decay: real, was: seq<real>, now: seq<real>, k: seq<real>, v: seq<real>, beta: seq<real>,
                        h: nat, kh: nat, i: nat, j: nat)
  {
    Entry(now, CellOf(s, h, i, j))
    == Entry(was, CellOf(s, h, i, j)) * decay + Entry(k, kh * s.dk + i) * Correction(s, decay, was, k, v, beta, h, kh, j)
  }

  lemma CellInState(s: Shape, state: seq<real>, h: nat, i: nat, j: nat)
    requires h < s.vHeads && |state| == s.vHeads * s.HeadLen() && i < s.dk && j < s.dv
    ensures HeadMatrix(s, state, h)[i][j] == Entry(state, CellOf(s, h, i, j))
  {
    RowBounds(h, s.vHeads, s.HeadLen());
    CellAt(state, h * s.HeadLen(), s.dk, s.dv, i, j);
  }

  lemma RowEntry(x: seq<real>, h: nat, n: nat, width: nat, i: nat)
    requires h < n && |x| == n * width && i < width
    ensures (h + 1) * width <= |x| && Row(x, h, width)[i] == Entry(x, h * width + i)
  {
    RowBounds(h, n, width);
  }

  lemma {:induction false} StridedIsColumn(s: Shape, state: seq<real>, h: nat, j: nat, x: seq<real>, kh: nat, n: nat)
    requires h < s.vHeads && |state| == s.vHeads * s.HeadLen() && j < s.dv && n <= s.dk
    requires kh < s.kHeads && |x| == s.kHeads * s.dk && (kh + 1) * s.dk <= |x|
    ensures ColumnDot(HeadMatrix(s, state, h), Row(x, kh, s.dk), j, n)
         == Strided(state, CellOf(s, h, 0, j), s.dv, x, kh * s.dk, n)
  {
    hide HeadMatrix;
    hide Row;
    if n > 0 {
      StridedIsColumn(s, state, h, j, x, kh, n - 1);
      CellInState(s, state, h, n - 1, j);
      RowEntry(x, kh, s.kHeads, s.dk, n - 1);
      assert CellOf(s, h, n - 1, j) == CellOf(s, h, 0, j) + (n - 1) * s.dv;
    }
  }

  lemma CorrectionIs(s: Shape, decay: real, was: seq<real>, k: seq<real>, v: seq<real>, beta: seq<real>, h: nat, kh: nat, j: nat)
    requires s.Ok() && h < s.vHeads && |was| == s.vHeads * s.HeadLen() && |k| == s.kHeads * s.dk && |v| == s.vHeads * s.dv
    requires |beta| == s.vHeads && j < s.dv && kh == KeyHeadOf(s, h)
    ensures Delta(Decayed(HeadMatrix(s, was, h), decay), KeyRow(s, k, h), ValueRow(s, v, h), beta[h], j)
         == Correction(s, decay, was, k, v, beta, h, kh, j)
  {
    hide HeadMatrix;
    hide KeyHeadOf;
    hide CellOf;
    hide Strided;
    hide ColumnDot;
    hide Entry;
    hide Decayed;
    RowBounds(kh, s.kHeads, s.dk);
    DecayedDot(HeadMatrix(s, was, h), KeyRow(s, k, h), decay, j, s.dk);
    StridedIsColumn(s, was, h, j, k, kh, s.dk);
    RowEntry(v, h, s.vHeads, s.dv, j);
    HeadEntry(beta, h);
  }

  lemma CellSteppedAt(s: Shape, decay: real, was: seq<real>, now: seq<real>, k: seq<real>, v: seq<real>, beta: seq<real>,
                      h: nat, kh: nat, i: nat, j: nat)
    requires s.Ok() && h < s.vHeads && |now| == |was| == s.vHeads * s.HeadLen() && |k| == s.kHeads * s.dk && |v| == s.vHeads * s.dv
    requires |beta| == s.vHeads && i < s.dk && j < s.dv && kh == KeyHeadOf(s, h)
    requires HeadMatrix(s, now, h) == Step(HeadMatrix(s, was, h), KeyRow(s, k, h), ValueRow(s, v, h), beta[h], decay)
    ensures CellStepped(s, decay, was, now, k, v, beta, h, kh, i, j)
  {
    hide HeadMatrix;
    hide KeyHeadOf;
    hide CellOf;
    hide Correction;
    hide Delta;
    hide Entry;
    CorrectionIs(s, decay, was, k, v, beta, h, kh, j);
    CellInState(s, was, h, i, j);
    CellInState(s, now, h, i, j);
    RowBounds(kh, s.kHeads, s.dk);
    RowEntry(k, kh, s.kHeads, s.dk, i);
  }

  /** One decode step in flat cells: value head `h` uses the key and query rows of the one key head
      that serves it. */
  lemma SteppedInCells(s: Shape, exp: real -> real, was: seq<real>, now: seq<real>, q: seq<real>, k: seq<real>, v: seq<real>,
                       beta: seq<real>, g: seq<real>, out: seq<real>, h: nat, kh: nat, j: nat)
    requires s.Ok() && h < s.vHeads && Buffers(s, was, q, k, v, beta, g, out) && |now| == |was| && j < s.dv
    requires HeadDone(s, exp, was, now, q, k, v, beta, g, out, h) && Serves(s, kh, h)
    ensures ColumnStepped(s, exp, was, now, q, k, v, beta, g, out, h, kh, j)
  {
    ServedByOne(s, kh, h);
    HeadEntry(g, h);
    hide HeadMatrix;
    hide Serves;
    hide KeyHeadOf;
    hide CellOf;
    hide CellStepped;
    hide Step;
    hide Entry;
    forall i: nat | i < s.dk ensures CellStepped(s, exp(Entry(g, h)), was, now, k, v, beta, h, kh, i, j) {
      CellSteppedAt(s, exp(g[h]), was, now, k, v, beta, h, kh, i, j);
    }
    RowBounds(kh, s.kHeads, s.dk);
    StridedIsColumn(s, now, h, j, q, kh, s.dk);
    RowEntry(out, h, s.vHeads, s.dv, j);
    assert ValueRow(s, out, h)[j] == ColumnDot(HeadMatrix(s, now, h), KeyRow(s, q, h), j, s.dk);
  }

  lemma HeadEntry(x: seq<real>, h: nat)
    requires h < |x|
    ensures Entry(x, h) == x[h]
  {
  }
}
