/** Row-major flat buffers. */
module Flat {
  lemma RowBounds(i: nat, n: nat, width: nat)
    requires i < n
    ensures i * width + width == (i + 1) * width <= n * width
  {
  }

  lemma MulMono(a: nat, b: nat, c: nat)
    requires a <= b
    ensures a * c <= b * c
  {
  }

  lemma MulAssoc(a: nat, b: nat, c: nat)
    ensures (a * b) * c == a * (b * c)
  {
  }

  /** Row `i` of a buffer of rows of `width` elements. */
  function Row<V>(flat: seq<V>, i: nat, width: nat): (r: seq<V>)
    requires (i + 1) * width <= |flat|
    ensures |r| == width
  {
    RowBounds(i, i + 1, width);
    flat[i * width..i * width + width]
  }

  /** A row depends only on the prefix that holds it. */
  lemma RowKept<V>(a: seq<V>, b: seq<V>, t: nat, i: nat, width: nat)
    requires t < i && i * width <= |a| && i * width <= |b| && a[..i * width] == b[..i * width]
    ensures (t + 1) * width <= i * width
    ensures Row(a, t, width) == Row(b, t, width)
  {
    RowBounds(t, i, width);
    assert a[t * width..t * width + width] == a[..i * width][t * width..t * width + width];
    assert b[t * width..t * width + width] == b[..i * width][t * width..t * width + width];
  }

  predicate RowIs<V(==)>(flat: seq<V>, t: nat, width: nat, row: seq<V>) {
    (t + 1) * width <= |flat| && Row(flat, t, width) == row
  }

  /** `flat` is exactly these rows, one after the other. */
  predicate Holds<V(==)>(flat: seq<V>, rows: seq<seq<V>>, width: nat) {
    |flat| == |rows| * width && forall t: nat :: t < |rows| ==> RowIs(flat, t, width, rows[t])
  }

  lemma HoldsNone<V>(width: nat)
    ensures Holds<V>([], [], width)
  {
  }

  lemma HoldsSnoc<V>(flat: seq<V>, rows: seq<seq<V>>, width: nat, row: seq<V>)
    requires Holds(flat, rows, width) && |row| == width
    ensures Holds(flat + row, rows + [row], width)
  {
    var n := |rows|;
    RowBounds(n, n + 1, width);
    forall t: nat | t < n + 1 ensures RowIs(flat + row, t, width, (rows + [row])[t]) {
      RowBounds(t, n + 1, width);
      if t < n {
        assert RowIs(flat, t, width, rows[t]);
        assert (flat + row)[..n * width] == flat[..n * width];
        RowKept(flat + row, flat, t, n, width);
      } else {
        assert Row(flat + row, n, width) == row;
      }
    }
  }

  /** Every flat buffer of the right size is made of its rows. */
  lemma HoldsAt<V>(flat: seq<V>, rows: seq<seq<V>>, width: nat, t: nat)
    requires Holds(flat, rows, width) && t < |rows|
    ensures (t + 1) * width <= |flat| && Row(flat, t, width) == rows[t]
  {
    assert RowIs(flat, t, width, rows[t]);
  }
}
