/** Loop interchange for a stack of stateful layers: running a whole chunk of tokens
    through one layer before the next gives the rows and layer states of running each
    token through all layers. */
module Interchange {
  /** What a layer does to one token at a position: a new row and a new layer state. */
  type Step<!L, !H, !K> = (L, H, nat, K) -> (H, K)

  datatype Pass<H, K> = Pass(rows: seq<H>, states: seq<K>)

  // ----- One layer, the tokens in order -----

  function LayerState<L, H, K>(step: Step<L, H, K>, l: L, hs: seq<H>, start: nat, k: K): K {
    if hs == [] then k
    else
      var n := |hs| - 1;
      step(l, hs[n], start + n, LayerState(step, l, hs[..n], start, k)).1
  }

  function LayerRows<L, H, K>(step: Step<L, H, K>, l: L, hs: seq<H>, start: nat, k: K): (r: seq<H>)
    ensures |r| == |hs|
  {
    if hs == [] then []
    else
      var n := |hs| - 1;
      LayerRows(step, l, hs[..n], start, k) + [step(l, hs[n], start + n, LayerState(step, l, hs[..n], start, k)).0]
  }

  // ----- All layers -----

  /** Layer outer. */
  function LayerOuter<L, H, K>(step: Step<L, H, K>, layers: seq<L>, hs: seq<H>, start: nat, ks: seq<K>): (r: Pass<H, K>)
    requires |ks| == |layers|
    ensures |r.rows| == |hs| && |r.states| == |ks|
  {
    if layers == [] then Pass(hs, ks)
    else
      var n := |layers| - 1;
      var before := LayerOuter(step, layers[..n], hs, start, ks[..n]);
      Pass(LayerRows(step, layers[n], before.rows, start, ks[n]),
           before.states + [LayerState(step, layers[n], before.rows, start, ks[n])])
  }

  /** One token through all layers. */
  function Through<L, H, K>(step: Step<L, H, K>, layers: seq<L>, h: H, position: nat, ks: seq<K>): (r: (H, seq<K>))
    requires |ks| == |layers|
    ensures |r.1| == |ks|
  {
    if layers == [] then (h, ks)
    else
      var n := |layers| - 1;
      var before := Through(step, layers[..n], h, position, ks[..n]);
      var after := step(layers[n], before.0, position, ks[n]);
      (after.0, before.1 + [after.1])
  }

  /** Token outer. */
  function TokenOuter<L, H, K>(step: Step<L, H, K>, layers: seq<L>, hs: seq<H>, start: nat, ks: seq<K>): (r: Pass<H, K>)
    requires |ks| == |layers|
    ensures |r.rows| == |hs| && |r.states| == |ks|
  {
    if hs == [] then Pass([], ks)
    else
      var n := |hs| - 1;
      var before := TokenOuter(step, layers, hs[..n], start, ks);
      var last := Through(step, layers, hs[n], start + n, before.states);
      Pass(before.rows + [last.0], last.1)
  }

  // ----- The interchange -----

  lemma {:induction false} LayerOuterOfNone<L, H, K>(step: Step<L, H, K>, layers: seq<L>, start: nat, ks: seq<K>)
    requires |ks| == |layers|
    ensures LayerOuter(step, layers, [], start, ks) == Pass([], ks)
  {
    if layers != [] {
      var n := |layers| - 1;
      LayerOuterOfNone(step, layers[..n], start, ks[..n]);
      assert ks == ks[..n] + [ks[n]];
    }
  }

  /** The last token of a chunk may go through all layers after the others have. */
  lemma {:induction false} LastTokenLast<L, H, K>(step: Step<L, H, K>, layers: seq<L>, hs: seq<H>, start: nat, ks: seq<K>)
    requires |ks| == |layers| && hs != []
    ensures
      var n := |hs| - 1;
      var rest := LayerOuter(step, layers, hs[..n], start, ks);
      var last := Through(step, layers, hs[n], start + n, rest.states);
      LayerOuter(step, layers, hs, start, ks) == Pass(rest.rows + [last.0], last.1)
  {
    var n := |hs| - 1;
    if layers == [] {
      assert hs == hs[..n] + [hs[n]];
    } else {
      var k := |layers| - 1;
      LastTokenLast(step, layers[..k], hs, start, ks[..k]);
      var rest := LayerOuter(step, layers[..k], hs[..n], start, ks[..k]);
      var before := LayerOuter(step, layers[..k], hs, start, ks[..k]);
      assert before.rows[..n] == rest.rows;
      assert LayerOuter(step, layers, hs[..n], start, ks).states[..k] == rest.states;
    }
  }

  lemma {:induction false} LayerOuterIsTokenOuter<L, H, K>(step: Step<L, H, K>, layers: seq<L>, hs: seq<H>, start: nat, ks: seq<K>)
    requires |ks| == |layers|
    ensures LayerOuter(step, layers, hs, start, ks) == TokenOuter(step, layers, hs, start, ks)
  {
    if hs == [] {
      LayerOuterOfNone(step, layers, start, ks);
    } else {
      LayerOuterIsTokenOuter(step, layers, hs[..|hs| - 1], start, ks);
      LastTokenLast(step, layers, hs, start, ks);
    }
  }
}
