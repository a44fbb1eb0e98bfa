/** The padded batch: left padding, the attention mask and the slice back cancel out for every row. */
module Batching {
  import opened Types
  import opened Tensors
  import opened EngineModel

  /** One layer of the stacked cache: one padded row of keys and one of values per request. */
  datatype Stacked = Stacked(keys: seq<seq<Vec>>, vals: seq<seq<Vec>>)

  /** What a forward pass over a batch gives: a row of logits and a grown cache row per request. */
  datatype Pass = Pass(logits: seq<Logits>, layers: seq<Stacked>)

  /** What a forward pass is given: the stacked cache of the given width and, per row, the new token, the
      attention mask and the position id. */
  datatype Feed = Feed(layers: seq<Stacked>, width: nat, input: seq<Token>, attn: seq<seq<nat>>, pos: seq<nat>)
  {
    predicate Rectangular(l: nat)
      requires l < |layers|
    {
      && |layers[l].keys| == |layers[l].vals| == |input|
      && forall i :: 0 <= i < |input| ==> |layers[l].keys[i]| == |layers[l].vals[i]| == width
    }

    predicate WellFormed(m: AnyModel) {
      && |layers| == m.layers && |input| == |attn| == |pos|
      && (forall i :: 0 <= i < |attn| ==> |attn[i]| == width + 1)
      && (forall l :: 0 <= l < |layers| ==> Rectangular(l))
    }
  }

  /** The entries of a row that its mask lets through, in order. */
  function Keep(xs: seq<Vec>, mask: seq<nat>): seq<Vec>
    requires |mask| >= |xs|
  {
    if xs == [] then [] else (if mask[0] != 0 then [xs[0]] else []) + Keep(xs[1..], mask[1..])
  }

  function KeptLayer(b: Feed, l: nat, i: nat): LayerKv
    requires l < |b.layers| && b.Rectangular(l) && i < |b.input| && i < |b.attn| && |b.attn[i]| == b.width + 1
  {
    LayerKv(Keep(b.layers[l].keys[i], b.attn[i]), Keep(b.layers[l].vals[i], b.attn[i]))
  }

  function Kept(m: AnyModel, b: Feed, i: nat): (ctx: seq<LayerKv>)
    requires b.WellFormed(m) && i < |b.input|
    ensures |ctx| == m.layers && forall l :: 0 <= l < m.layers ==> ctx[l] == KeptLayer(b, l, i)
  {
    seq(m.layers, l requires 0 <= l < m.layers => KeptLayer(b, l, i))
  }

  /** What row i of a pass is computed from: its own unmasked entries, nothing of any other row. */
  function RowOutput(m: AnyModel, b: Feed, i: nat): Output
    requires b.WellFormed(m) && i < |b.input|
  {
    m.forward(Kept(m, b, i), b.attn[i][b.width] != 0, b.pos[i], b.input[i])
  }

  function RowOutputs(m: AnyModel, b: Feed): (outs: seq<Output>)
    requires b.WellFormed(m)
    ensures |outs| == |b.input| && forall i :: 0 <= i < |outs| ==> outs[i] == RowOutput(m, b, i)
  {
    seq(|b.input|, i requires 0 <= i < |b.input| => RowOutput(m, b, i))
  }

  function Grown(rows: seq<seq<Vec>>, news: seq<Vec>): (s: seq<seq<Vec>>)
    requires |rows| == |news|
    ensures |s| == |rows| && forall i :: 0 <= i < |s| ==> s[i] == rows[i] + [news[i]]
  {
    seq(|rows|, i requires 0 <= i < |rows| => rows[i] + [news[i]])
  }

  function GrownLayer(layer: Stacked, outs: seq<Output>, l: nat): Stacked
    requires |layer.keys| == |layer.vals| == |outs|
    requires forall i :: 0 <= i < |outs| ==> l < |outs[i].keys| && l < |outs[i].vals|
  {
    Stacked(Grown(layer.keys, seq(|outs|, i requires 0 <= i < |outs| => outs[i].keys[l])),
            Grown(layer.vals, seq(|outs|, i requires 0 <= i < |outs| => outs[i].vals[l])))
  }

  ghost predicate FullOutputs(outs: seq<Output>, n: nat) {
    forall i :: 0 <= i < |outs| ==> |outs[i].keys| == |outs[i].vals| == n
  }

  lemma OutputsComplete(m: AnyModel, b: Feed)
    requires b.WellFormed(m) && Shapes(m)
    ensures FullOutputs(RowOutputs(m, b), m.layers)
  {
    forall i | 0 <= i < |b.input| ensures |RowOutput(m, b, i).keys| == |RowOutput(m, b, i).vals| == m.layers {
      RowComplete(m, b, i);
    }
  }

  lemma RowComplete(m: AnyModel, b: Feed, i: nat)
    requires b.WellFormed(m) && Shapes(m) && i < |b.input|
    ensures |RowOutput(m, b, i).keys| == |RowOutput(m, b, i).vals| == m.layers
  {
    OutputShape(m, Kept(m, b, i), b.attn[i][b.width] != 0, b.pos[i], b.input[i]);
  }

  lemma OutputShape(m: AnyModel, ctx: seq<LayerKv>, own: bool, pos: nat, tok: Token)
    requires Shapes(m)
    ensures |m.forward(ctx, own, pos, tok).keys| == |m.forward(ctx, own, pos, tok).vals| == m.layers
  {
    assert OutputSized(m, ctx, own, pos, tok);
  }

  /** The transformer on a batch: row by row, each row seeing what its mask lets through, and the cache grown
      by one new entry per layer and row. */
  function BatchForward(m: AnyModel, b: Feed): (out: Pass)
    requires b.WellFormed(m) && Shapes(m)
  {
    var outs := RowOutputs(m, b);
    OutputsComplete(m, b);
    Pass(seq(|outs|, i requires 0 <= i < |outs| => outs[i].logits),
         seq(|b.layers|, l requires 0 <= l < |b.layers| => assert b.Rectangular(l); GrownLayer(b.layers[l], outs, l)))
  }

  /** Row i of a pass. */
  predicate RowGrown(layers: seq<Stacked>, grown: seq<Stacked>, i: nat, o: Output, l: nat) {
    && l < |layers| && l < |grown| && l < |o.keys| && l < |o.vals|
    && i < |layers[l].keys| && i < |layers[l].vals| && i < |grown[l].keys| && i < |grown[l].vals|
    && grown[l].keys[i] == layers[l].keys[i] + [o.keys[l]]
    && grown[l].vals[i] == layers[l].vals[i] + [o.vals[l]]
  }

  lemma PassRow(m: AnyModel, b: Feed, i: nat)
    requires b.WellFormed(m) && Shapes(m) && i < |b.input|
    ensures |BatchForward(m, b).logits| == |b.input| && |BatchForward(m, b).layers| == m.layers
    ensures BatchForward(m, b).logits[i] == RowOutput(m, b, i).logits
    ensures forall l :: 0 <= l < m.layers ==> RowGrown(b.layers, BatchForward(m, b).layers, i, RowOutput(m, b, i), l)
  {
    var outs, out := RowOutputs(m, b), BatchForward(m, b);
    OutputsComplete(m, b);
    forall l | 0 <= l < m.layers ensures RowGrown(b.layers, out.layers, i, outs[i], l) {
      assert b.Rectangular(l);
      assert out.layers[l] == GrownLayer(b.layers[l], outs, l);
    }
  }

  // ----- padding, mask and slice -----

  function Repeat<T>(n: nat, x: T): (s: seq<T>)
    ensures |s| == n && forall i :: 0 <= i < n ==> s[i] == x
  {
    seq(n, _ => x)
  }

  function LeftPad(zero: Vec, xs: seq<Vec>, width: nat): (s: seq<Vec>)
    requires |xs| <= width
    ensures |s| == width
  {
    Repeat(width - |xs|, zero) + xs
  }

  /** 0 over the padding, 1 over the request's own entries and the new token. */
  function MaskRow(len: nat, width: nat): (s: seq<nat>)
    requires len <= width
    ensures |s| == width + 1
  {
    Repeat(width - len, 0) + Repeat(len + 1, 1)
  }

  function LastOf<T>(xs: seq<T>, n: nat): seq<T>
    requires n <= |xs|
  {
    xs[|xs| - n..]
  }

  lemma {:induction false} KeepAll(xs: seq<Vec>, mask: seq<nat>)
    requires |mask| >= |xs| && forall i :: 0 <= i < |xs| ==> mask[i] != 0
    ensures Keep(xs, mask) == xs
  {
    if xs != [] { KeepAll(xs[1..], mask[1..]); }
  }

  /** The mask hides exactly the padding. */
  lemma {:induction false} MaskHidesPadding(zero: Vec, xs: seq<Vec>, width: nat)
    requires |xs| <= width
    ensures Keep(LeftPad(zero, xs, width), MaskRow(|xs|, width)) == xs
    ensures MaskRow(|xs|, width)[width] != 0
    decreases width - |xs|
  {
    if |xs| == width {
      assert LeftPad(zero, xs, width) == xs;
      KeepAll(xs, MaskRow(|xs|, width));
    } else {
      assert LeftPad(zero, xs, width)[1..] == LeftPad(zero, xs, width - 1);
      assert MaskRow(|xs|, width)[1..] == MaskRow(|xs|, width - 1);
      MaskHidesPadding(zero, xs, width - 1);
    }
  }

  /** The slice drops exactly the padding. */
  lemma SliceDropsPadding(zero: Vec, xs: seq<Vec>, width: nat, x: Vec)
    requires |xs| <= width
    ensures LastOf(LeftPad(zero, xs, width) + [x], |xs| + 1) == xs + [x]
  {
  }

  predicate RowPadded(m: AnyModel, cache: seq<LayerKv>, width: nat, l: nat, layer: Stacked, i: nat) {
    && l < |cache| && |cache[l].keys| <= width && |cache[l].vals| <= width
    && i < |layer.keys| && i < |layer.vals|
    && layer.keys[i] == LeftPad(m.zero, cache[l].keys, width)
    && layer.vals[i] == LeftPad(m.zero, cache[l].vals, width)
  }

  /** Row i of the stacked cache is the padded cache of one request. */
  predicate HoldsRow(m: AnyModel, layers: seq<Stacked>, i: nat, width: nat, cache: seq<LayerKv>) {
    |layers| == |cache| && forall l :: 0 <= l < |layers| ==> RowPadded(m, cache, width, l, layers[l], i)
  }

  predicate CanSplit(layers: seq<Stacked>, i: nat, realLen: nat) {
    forall l :: 0 <= l < |layers| ==>
      && i < |layers[l].keys| && i < |layers[l].vals|
      && |layers[l].keys[i]| >= realLen && |layers[l].vals[i]| >= realLen
  }

  function SplitRow(layers: seq<Stacked>, i: nat, realLen: nat): seq<LayerKv>
    requires CanSplit(layers, i, realLen)
  {
    seq(|layers|, l requires 0 <= l < |layers| => LayerKv(LastOf(layers[l].keys[i], realLen), LastOf(layers[l].vals[i], realLen)))
  }

  lemma LayerKept(m: AnyModel, b: Feed, l: nat, i: nat, lane: Lane)
    requires Sized(lane.cache, m.layers, lane.len) && b.WellFormed(m) && i < |b.input| && l < m.layers
    requires RowPadded(m, lane.cache, b.width, l, b.layers[l], i) && b.attn[i] == MaskRow(lane.len, b.width)
    ensures KeptLayer(b, l, i) == lane.cache[l]
  {
    MaskHidesPadding(m.zero, lane.cache[l].keys, b.width);
    MaskHidesPadding(m.zero, lane.cache[l].vals, b.width);
  }

  /** A request's row of the padded pass computes what its own forward pass computes. */
  lemma RowIsAlone(sv: Served, b: Feed, i: nat, lane: Lane, last: Token)
    requires LaneOk(sv, lane) && lane.len <= b.width && b.WellFormed(sv.m) && i < |b.input|
    requires HoldsRow(sv.m, b.layers, i, b.width, lane.cache)
    requires b.attn[i] == MaskRow(lane.len, b.width) && b.pos[i] == lane.len && b.input[i] == last
    ensures RowOutput(sv.m, b, i) == Alone(sv, lane, last)
  {
    MaskHidesPadding(sv.m.zero, Repeat(lane.len, sv.m.zero), b.width);
    forall l | 0 <= l < sv.m.layers ensures KeptLayer(b, l, i) == lane.cache[l] {
      assert RowPadded(sv.m, lane.cache, b.width, l, b.layers[l], i);
      LayerKept(sv.m, b, l, i, lane);
    }
    assert Kept(sv.m, b, i) == lane.cache;
  }

  lemma LayerSplit(m: AnyModel, layers: seq<Stacked>, grown: seq<Stacked>, i: nat, width: nat, lane: Lane, out: Output, l: nat)
    requires Sized(lane.cache, m.layers, lane.len) && lane.len <= width && l < |layers|
    requires RowPadded(m, lane.cache, width, l, layers[l], i) && RowGrown(layers, grown, i, out, l)
    ensures |grown[l].keys[i]| == |grown[l].vals[i]| == width + 1
    ensures LastOf(grown[l].keys[i], lane.len + 1) == lane.cache[l].keys + [out.keys[l]]
    ensures LastOf(grown[l].vals[i], lane.len + 1) == lane.cache[l].vals + [out.vals[l]]
  {
    SliceDropsPadding(m.zero, lane.cache[l].keys, width, out.keys[l]);
    SliceDropsPadding(m.zero, lane.cache[l].vals, width, out.vals[l]);
  }

  /** What is sliced back out of the grown row is the request's cache with its new entries. */
  lemma SplitIsExtended(sv: Served, layers: seq<Stacked>, grown: seq<Stacked>, i: nat, width: nat, lane: Lane, out: Output)
    requires LaneOk(sv, lane) && lane.len <= width && HoldsRow(sv.m, layers, i, width, lane.cache)
    requires |out.keys| == |out.vals| == sv.m.layers == |grown|
    requires forall l :: 0 <= l < |grown| ==> RowGrown(layers, grown, i, out, l)
    ensures CanSplit(grown, i, lane.len + 1) && SplitRow(grown, i, lane.len + 1) == Extended(sv.m, lane.cache, out)
  {
    forall l | 0 <= l < sv.m.layers
      ensures RowGrown(layers, grown, i, out, l) && |grown[l].keys[i]| == |grown[l].vals[i]| == width + 1
      ensures LastOf(grown[l].keys[i], lane.len + 1) == lane.cache[l].keys + [out.keys[l]]
      ensures LastOf(grown[l].vals[i], lane.len + 1) == lane.cache[l].vals + [out.vals[l]]
    {
      assert RowPadded(sv.m, lane.cache, width, l, layers[l], i);
      LayerSplit(sv.m, layers, grown, i, width, lane, out, l);
    }
  }
}
