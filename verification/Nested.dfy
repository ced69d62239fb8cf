/** What nested loops produce: index pairs flattened row by row. */
module Nested {
  import opened Flat

  /** The position of (i, j) when each i spans `cols` entries. */
  function Ix(i: nat, j: nat, cols: nat): nat {
    i * cols + j
  }

  lemma IxBound(i: nat, j: nat, rows: nat, cols: nat)
    requires i < rows && j < cols
    ensures Ix(i, j, cols) < rows * cols
  {
    assert (i + 1) * cols <= rows * cols;
  }

  lemma IxSplit(i: nat, j: nat, cols: nat)
    requires j < cols
    ensures Ix(i, j, cols) / cols == i && Ix(i, j, cols) % cols == j
  {
    DivModUnique(Ix(i, j, cols), i, j, cols);
  }

  lemma DivModUnique(k: nat, i: nat, j: nat, cols: nat)
    requires j < cols && k == i * cols + j
    ensures k / cols == i && k % cols == j
  {
    var q, r := k / cols, k % cols;
    assert k == q * cols + r;
    if q < i {
      MulMono(q + 1, i, cols);
    } else if i < q {
      MulMono(i + 1, q, cols);
    }
  }

  lemma IxJoin(k: nat, rows: nat, cols: nat)
    requires k < rows * cols
    ensures cols > 0 && k / cols < rows && k % cols < cols && Ix(k / cols, k % cols, cols) == k
  {
    assert cols > 0;
    var q := k / cols;
    assert k == q * cols + k % cols;
    if q >= rows {
      MulMono(rows, q, cols);
    }
  }

  /** `f(i, j)` for i outer and j inner. */
  function Cells<V>(rows: nat, cols: nat, f: (nat, nat) -> V): (r: seq<V>)
    ensures |r| == rows * cols
  {
    if rows == 0 then []
    else
      assert rows * cols == (rows - 1) * cols + cols;
      Cells(rows - 1, cols, f) + seq(cols, j requires 0 <= j < cols => f(rows - 1, j))
  }

  lemma {:induction false} CellsAt<V>(rows: nat, cols: nat, f: (nat, nat) -> V, i: nat, j: nat)
    requires i < rows && j < cols
    ensures Ix(i, j, cols) < rows * cols && Cells(rows, cols, f)[Ix(i, j, cols)] == f(i, j)
  {
    IxBound(i, j, rows, cols);
    if i < rows - 1 {
      CellsAt(rows - 1, cols, f, i, j);
    }
  }

  predicate Even<V>(rows: seq<seq<V>>, width: nat) {
    forall k :: 0 <= k < |rows| ==> |rows[k]| == width
  }

  lemma {:induction false} CellsEven<V>(rows: nat, cols: nat, f: (nat, nat) -> seq<V>, width: nat)
    requires forall i, j :: |f(i, j)| == width
    ensures Even(Cells(rows, cols, f), width)
  {
    if rows > 0 {
      CellsEven(rows - 1, cols, f, width);
    }
  }

  /** Finishing one more inner loop. */
  lemma CellsNext<V>(rows: nat, cols: nat, f: (nat, nat) -> V)
    ensures Cells(rows + 1, cols, f) == Cells(rows, cols, f) + seq(cols, j requires 0 <= j < cols => f(rows, j))
  {
  }

  /** Rows one after the other. */
  function Concat<V>(rows: seq<seq<V>>): seq<V> {
    if rows == [] then [] else Concat(rows[..|rows| - 1]) + rows[|rows| - 1]
  }

  lemma {:induction false} ConcatLength<V>(rows: seq<seq<V>>, width: nat)
    requires Even(rows, width)
    ensures |Concat(rows)| == |rows| * width
    decreases |rows|
  {
    if rows != [] {
      ConcatLength(rows[..|rows| - 1], width);
      assert |rows| * width == (|rows| - 1) * width + width;
    }
  }

  lemma {:induction false} ConcatAt<V>(rows: seq<seq<V>>, width: nat, k: nat, j: nat)
    requires Even(rows, width) && k < |rows| && j < width
    ensures Ix(k, j, width) < |Concat(rows)| && Concat(rows)[Ix(k, j, width)] == rows[k][j]
    decreases |rows|
  {
    var n := |rows| - 1;
    ConcatLength(rows, width);
    ConcatLength(rows[..n], width);
    IxBound(k, j, |rows|, width);
    if k < n {
      ConcatAt(rows[..n], width, k, j);
    }
  }

  lemma ConcatNext<V>(rows: seq<seq<V>>, row: seq<V>)
    ensures Concat(rows + [row]) == Concat(rows) + row
  {
    assert (rows + [row])[..|rows|] == rows;
  }

  lemma {:induction false} ConcatJoin<V>(a: seq<seq<V>>, b: seq<seq<V>>)
    ensures Concat(a + b) == Concat(a) + Concat(b)
    decreases |b|
  {
    if b == [] {
      assert a + b == a;
    } else {
      var n := |b| - 1;
      ConcatJoin(a, b[..n]);
      assert (a + b)[..|a| + n] == a + b[..n];
    }
  }

  // ----- Four loops deep -----

  /** Loop bounds from the outermost in. */
  datatype Bounds = Bounds(a: nat, b: nat, c: nat, d: nat) {
    function Span(): nat {
      c * d
    }

    function Total(): nat {
      (a * b) * (c * d)
    }

    predicate Has(i: nat, j: nat, k: nat, l: nat) {
      i < a && j < b && k < c && l < d
    }

    function At(i: nat, j: nat, k: nat, l: nat): nat {
      Ix(Ix(i, j, b), Ix(k, l, d), c * d)
    }
  }

  type Body<!V> = (nat, nat, nat, nat) -> V

  function Inner<V>(n: Bounds, f: Body<V>, i: nat, j: nat): (r: seq<V>)
    ensures |r| == n.Span()
  {
    Cells(n.c, n.d, (k: nat, l: nat) => f(i, j, k, l))
  }

  /** The inner rows of the first `rows` rounds of the outermost loop. */
  function Outer<V>(n: Bounds, f: Body<V>, rows: nat): (r: seq<seq<V>>)
    ensures |r| == rows * n.b
  {
    Cells(rows, n.b, (i: nat, j: nat) => Inner(n, f, i, j))
  }

  /** What four nested loops push, in order. */
  function Nest<V>(n: Bounds, f: Body<V>): (r: seq<V>)
    ensures |r| == n.Total()
  {
    OuterEven(n, f, n.a);
    ConcatLength(Outer(n, f, n.a), n.Span());
    Concat(Outer(n, f, n.a))
  }

  lemma OuterEven<V>(n: Bounds, f: Body<V>, rows: nat)
    ensures Even(Outer(n, f, rows), n.Span())
  {
    CellsEven(rows, n.b, (i: nat, j: nat) => Inner(n, f, i, j), n.Span());
  }

  lemma InnerAt<V>(n: Bounds, f: Body<V>, i: nat, j: nat, k: nat, l: nat)
    requires k < n.c && l < n.d
    ensures Ix(k, l, n.d) < n.Span() && Inner(n, f, i, j)[Ix(k, l, n.d)] == f(i, j, k, l)
  {
    CellsAt(n.c, n.d, (x: nat, y: nat) => f(i, j, x, y), k, l);
  }

  lemma AtBound(n: Bounds, i: nat, j: nat, k: nat, l: nat)
    requires n.Has(i, j, k, l)
    ensures n.At(i, j, k, l) < n.Total()
  {
    hide Ix;
    IxBound(i, j, n.a, n.b);
    IxBound(k, l, n.c, n.d);
    IxBound(Ix(i, j, n.b), Ix(k, l, n.d), n.a * n.b, n.Span());
  }

  lemma NestAt<V>(n: Bounds, f: Body<V>, i: nat, j: nat, k: nat, l: nat)
    requires n.Has(i, j, k, l)
    ensures n.At(i, j, k, l) < n.Total() && Nest(n, f)[n.At(i, j, k, l)] == f(i, j, k, l)
  {
    hide Ix;
    hide Inner;
    AtBound(n, i, j, k, l);
    OuterEven(n, f, n.a);
    CellsAt(n.a, n.b, (x: nat, y: nat) => Inner(n, f, x, y), i, j);
    InnerAt(n, f, i, j, k, l);
    ConcatAt(Outer(n, f, n.a), n.Span(), Ix(i, j, n.b), Ix(k, l, n.d));
  }

  /** The loop counters at position `at`. */
  function Counters(n: Bounds, at: nat): (nat, nat, nat, nat)
    requires at < n.Total()
  {
    IxJoin(at, n.a * n.b, n.Span());
    var o, r := at / n.Span(), at % n.Span();
    IxJoin(o, n.a, n.b);
    IxJoin(r, n.c, n.d);
    (o / n.b, o % n.b, r / n.d, r % n.d)
  }

  lemma CountersAt(n: Bounds, at: nat)
    requires at < n.Total()
    ensures
      var (i, j, k, l) := Counters(n, at);
      n.Has(i, j, k, l) && n.At(i, j, k, l) == at
  {
    hide Ix;
    IxJoin(at, n.a * n.b, n.Span());
    IxJoin(at / n.Span(), n.a, n.b);
    IxJoin(at % n.Span(), n.c, n.d);
  }

  lemma AtCounters(n: Bounds, i: nat, j: nat, k: nat, l: nat)
    requires n.Has(i, j, k, l)
    ensures n.At(i, j, k, l) < n.Total() && Counters(n, n.At(i, j, k, l)) == (i, j, k, l)
  {
    hide Ix;
    IxBound(i, j, n.a, n.b);
    IxBound(k, l, n.c, n.d);
    IxBound(Ix(i, j, n.b), Ix(k, l, n.d), n.a * n.b, n.Span());
    IxSplit(Ix(i, j, n.b), Ix(k, l, n.d), n.Span());
    IxSplit(i, j, n.b);
    IxSplit(k, l, n.d);
  }

  // ----- How far the loops have come -----

  function Upto1<V>(n: Bounds, f: Body<V>, i: nat): seq<V> {
    Concat(Outer(n, f, i))
  }

  function Upto2<V>(n: Bounds, f: Body<V>, i: nat, j: nat): seq<V> {
    Upto1(n, f, i) + Concat(InnerRows(n, f, i, j))
  }

  /** The first `j` inner rows of round `i`. */
  function InnerRows<V>(n: Bounds, f: Body<V>, i: nat, j: nat): (r: seq<seq<V>>)
    ensures |r| == j
  {
    seq(j, y requires 0 <= y < j => Inner(n, f, i, y))
  }

  function Upto3<V>(n: Bounds, f: Body<V>, i: nat, j: nat, k: nat): seq<V> {
    Upto2(n, f, i, j) + Cells(k, n.d, (x: nat, y: nat) => f(i, j, x, y))
  }

  function Upto4<V>(n: Bounds, f: Body<V>, i: nat, j: nat, k: nat, l: nat): seq<V> {
    Upto3(n, f, i, j, k) + seq(l, y requires 0 <= y < l => f(i, j, k, y))
  }

  /** Starting and finishing the innermost loops. */
  lemma Starts<V>(n: Bounds, f: Body<V>, i: nat, j: nat, k: nat)
    ensures Upto4(n, f, i, j, k, 0) == Upto3(n, f, i, j, k)
    ensures Upto3(n, f, i, j, 0) == Upto2(n, f, i, j)
    ensures Upto2(n, f, i, 0) == Upto1(n, f, i)
    ensures Upto1(n, f, 0) == [] && Upto1(n, f, n.a) == Nest(n, f)
  {
  }

  lemma Pushes<V>(n: Bounds, f: Body<V>, i: nat, j: nat, k: nat, l: nat)
    ensures Upto4(n, f, i, j, k, l + 1) == Upto4(n, f, i, j, k, l) + [f(i, j, k, l)]
  {
    var row := seq(l + 1, y requires 0 <= y < l + 1 => f(i, j, k, y));
    assert row == seq(l, y requires 0 <= y < l => f(i, j, k, y)) + [f(i, j, k, l)];
  }

  lemma EndsInner<V>(n: Bounds, f: Body<V>, i: nat, j: nat, k: nat)
    ensures Upto4(n, f, i, j, k, n.d) == Upto3(n, f, i, j, k + 1)
  {
    CellsNext(k, n.d, (x: nat, y: nat) => f(i, j, x, y));
  }

  lemma EndsMiddle<V>(n: Bounds, f: Body<V>, i: nat, j: nat)
    ensures Upto3(n, f, i, j, n.c) == Upto2(n, f, i, j + 1)
  {
    assert InnerRows(n, f, i, j + 1) == InnerRows(n, f, i, j) + [Inner(n, f, i, j)];
    ConcatNext(InnerRows(n, f, i, j), Inner(n, f, i, j));
  }

  lemma OuterNext<V>(n: Bounds, f: Body<V>, i: nat)
    ensures Outer(n, f, i + 1) == Outer(n, f, i) + InnerRows(n, f, i, n.b)
  {
    hide Inner;
    CellsNext(i, n.b, (x: nat, y: nat) => Inner(n, f, x, y));
  }

  lemma EndsOuter<V>(n: Bounds, f: Body<V>, i: nat)
    ensures Upto2(n, f, i, n.b) == Upto1(n, f, i + 1)
  {
    hide Inner;
    hide Outer;
    hide Concat;
    hide InnerRows;
    OuterNext(n, f, i);
    ConcatJoin(Outer(n, f, i), InnerRows(n, f, i, n.b));
  }
}
