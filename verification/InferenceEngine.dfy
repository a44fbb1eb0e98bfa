/** The inference engine object: caches and lengths by request id, and the loops that pad, stack and split. */
module Inference {
  import opened Types
  import opened Tensors
  import opened EngineModel
  import opened Batching

  // ----- the requests a decode call moves -----

  function Selected(rs: seq<Req>, ks: seq<nat>): (qs: seq<Req>)
    requires forall i :: 0 <= i < |ks| ==> ks[i] < |rs|
    ensures |qs| == |ks| && forall i :: 0 <= i < |qs| ==> qs[i] == rs[ks[i]]
  {
    seq(|ks|, i requires 0 <= i < |ks| => rs[ks[i]])
  }

  predicate Moves(r: Req, lanes: map<Id, Lane>) { !r.Finished() && r.id in lanes }

  function Movers(rs: seq<Req>, lanes: map<Id, Lane>): (ks: seq<nat>)
    ensures forall k :: k in ks ==> k < |rs|
  {
    if rs == [] then []
    else
      var front := Movers(rs[..|rs| - 1], lanes);
      if Moves(rs[|rs| - 1], lanes) then front + [|rs| - 1] else front
  }

  lemma {:induction false} MoversAre(rs: seq<Req>, lanes: map<Id, Lane>)
    ensures NoDup(Movers(rs, lanes))
    ensures forall i, j :: 0 <= i < j < |Movers(rs, lanes)| ==> Movers(rs, lanes)[i] < Movers(rs, lanes)[j]
    ensures forall k: nat :: k in Movers(rs, lanes) <==> k < |rs| && Moves(rs[k], lanes)
  {
    if rs != [] {
      var n := |rs| - 1;
      var front := Movers(rs[..n], lanes);
      MoversAre(rs[..n], lanes);
      assert forall k: nat :: k in front <==> k < n && Moves(rs[k], lanes);
      if Moves(rs[n], lanes) { NoDupAppend(front, n); }
      var ks := Movers(rs, lanes);
      forall i, j | 0 <= i < j < |ks| ensures ks[i] < ks[j] {
        assert i < |front| && ks[i] == front[i] && front[i] in front;
        assert j < |front| ==> ks[j] == front[j];
      }
    }
  }

  lemma PartlyNext(sv: Served, lanes: map<Id, Lane>, rs: seq<Req>, done: set<nat>, k: nat,
                   lanes': map<Id, Lane>, rs': seq<Req>)
    requires CanDecode(sv, lanes, rs) && k < |rs| && k !in done
    requires Partly(sv, lanes, rs, done, lanes', rs')
    ensures rs'[k] == rs[k] && LaneOf(lanes', rs[k].id) == LaneOf(lanes, rs[k].id)
    ensures var moved := Move(sv, rs[k], LaneOf(lanes, rs[k].id));
            Partly(sv, lanes, rs, done + {k}, SetLane(lanes', rs[k].id, moved.1), rs'[k := moved.0])
  {
    assert (rs'[k], LaneOf(lanes', rs[k].id)) == Share(sv, lanes, rs[k], k in done);
    var moved := Move(sv, rs[k], LaneOf(lanes, rs[k].id));
    var lanes2, rs2 := SetLane(lanes', rs[k].id, moved.1), rs'[k := moved.0];
    forall i | 0 <= i < |rs|
      ensures (rs2[i], LaneOf(lanes2, rs[i].id)) == Share(sv, lanes, rs[i], i in done + {k})
    {
      if i != k {
        assert rs[i].id != rs[k].id;
        assert (rs'[i], LaneOf(lanes', rs[i].id)) == Share(sv, lanes, rs[i], i in done);
      }
    }
    forall id | !HasId(rs, id) ensures LaneOf(lanes2, id) == LaneOf(lanes, id) { assert rs[k].id != id; }
  }

  lemma PartlyAll(sv: Served, lanes: map<Id, Lane>, rs: seq<Req>, lanes': map<Id, Lane>, rs': seq<Req>)
    requires CanDecode(sv, lanes, rs) && Partly(sv, lanes, rs, SetOf(Movers(rs, lanes)), lanes', rs')
    ensures Decoded(sv, lanes, rs, lanes', rs')
  {
    MoversAre(rs, lanes);
    forall i | 0 <= i < |rs| ensures (rs'[i], LaneOf(lanes', rs[i].id)) == Move(sv, rs[i], LaneOf(lanes, rs[i].id)) {
      assert (rs'[i], LaneOf(lanes', rs[i].id)) == Share(sv, lanes, rs[i], i in SetOf(Movers(rs, lanes)));
    }
  }

  /** Well-shaped caches, none longer than width. */
  ghost predicate Fit(sv: Served, own: seq<Lane>, width: nat) {
    forall i :: 0 <= i < |own| ==> LaneOk(sv, own[i]) && own[i].len <= width
  }

  /** The stacked cache of own: one padded row each. */
  ghost predicate Stacks(sv: Served, own: seq<Lane>, width: nat, layers: seq<Stacked>) {
    && |layers| == sv.m.layers && LayersStacked(sv.m, own, width, layers)
    && forall i :: 0 <= i < |own| ==> HoldsRow(sv.m, layers, i, width, own[i].cache)
  }

  /** Layer l of the stacked cache. */
  predicate StacksLayer(m: AnyModel, own: seq<Lane>, width: nat, l: nat, layer: Stacked) {
    && |layer.keys| == |layer.vals| == |own|
    && forall i :: 0 <= i < |own| ==> RowPadded(m, own[i].cache, width, l, layer, i)
  }

  lemma LayersStack(sv: Served, own: seq<Lane>, width: nat, layers: seq<Stacked>)
    requires Fit(sv, own, width) && |layers| == sv.m.layers && LayersStacked(sv.m, own, width, layers)
    ensures Stacks(sv, own, width, layers)
  {
    forall i | 0 <= i < |own| ensures HoldsRow(sv.m, layers, i, width, own[i].cache) {
      assert LaneOk(sv, own[i]);
      forall l | 0 <= l < |layers| ensures RowPadded(sv.m, own[i].cache, width, l, layers[l], i) {
        assert StacksLayer(sv.m, own, width, l, layers[l]);
      }
    }
  }

  method MaxLen(own: seq<Lane>) returns (width: nat)
    requires own != []
    ensures forall i :: 0 <= i < |own| ==> own[i].len <= width
    ensures exists i :: 0 <= i < |own| && own[i].len == width
  {
    width := own[0].len;
    for i := 1 to |own|
      invariant forall j :: 0 <= j < i ==> own[j].len <= width
      invariant exists j :: 0 <= j < |own| && own[j].len == width
    {
      if own[i].len > width {
        width := own[i].len;
      }
    }
  }

  method PadRow(zero: Vec, kv: LayerKv, len: nat, width: nat) returns (k: seq<Vec>, v: seq<Vec>)
    requires |kv.keys| == |kv.vals| == len <= width
    ensures k == LeftPad(zero, kv.keys, width) && v == LeftPad(zero, kv.vals, width)
  {
    var pad := width - len;
    k, v := kv.keys, kv.vals;
    if pad > 0 {
      k, v := Repeat(pad, zero) + k, Repeat(pad, zero) + v;
    }
  }

  predicate RowsPadded(m: AnyModel, own: seq<Lane>, width: nat, l: nat, layer: Stacked, n: nat) {
    && |layer.keys| == |layer.vals| == n <= |own|
    && forall i :: 0 <= i < n ==> RowPadded(m, own[i].cache, width, l, layer, i)
  }

  lemma RowAppend(m: AnyModel, own: seq<Lane>, width: nat, l: nat, layer: Stacked, n: nat, k: seq<Vec>, v: seq<Vec>)
    requires RowsPadded(m, own, width, l, layer, n) && n < |own| && l < |own[n].cache|
    requires |own[n].cache[l].keys| <= width && |own[n].cache[l].vals| <= width
    requires k == LeftPad(m.zero, own[n].cache[l].keys, width) && v == LeftPad(m.zero, own[n].cache[l].vals, width)
    ensures RowsPadded(m, own, width, l, Stacked(layer.keys + [k], layer.vals + [v]), n + 1)
  {
    var layer' := Stacked(layer.keys + [k], layer.vals + [v]);
    forall i | 0 <= i < n ensures RowPadded(m, own[i].cache, width, l, layer', i) {
      assert RowPadded(m, own[i].cache, width, l, layer, i);
    }
  }

  method StackLayer(sv: Served, own: seq<Lane>, l: nat, width: nat) returns (layer: Stacked)
    requires Fit(sv, own, width) && l < sv.m.layers
    ensures StacksLayer(sv.m, own, width, l, layer)
  {
    layer := Stacked([], []);
    for i := 0 to |own|
      invariant RowsPadded(sv.m, own, width, l, layer, i)
    {
      assert LaneOk(sv, own[i]) && own[i].len <= width;
      var k, v := PadRow(sv.m.zero, own[i].cache[l], own[i].len, width);
      RowAppend(sv.m, own, width, l, layer, i, k, v);
      layer := Stacked(layer.keys + [k], layer.vals + [v]);
    }
  }

  predicate LayersStacked(m: AnyModel, own: seq<Lane>, width: nat, layers: seq<Stacked>) {
    forall l :: 0 <= l < |layers| ==> StacksLayer(m, own, width, l, layers[l])
  }

  lemma LayerAppend(m: AnyModel, own: seq<Lane>, width: nat, layers: seq<Stacked>, layer: Stacked)
    requires LayersStacked(m, own, width, layers) && StacksLayer(m, own, width, |layers|, layer)
    ensures LayersStacked(m, own, width, layers + [layer])
  {
    forall l | 0 <= l < |layers| ensures StacksLayer(m, own, width, l, (layers + [layer])[l]) {
      assert (layers + [layer])[l] == layers[l];
    }
  }

  method StackCache(sv: Served, own: seq<Lane>, width: nat) returns (layers: seq<Stacked>)
    requires Fit(sv, own, width) && own != []
    ensures Stacks(sv, own, width, layers)
  {
    layers := [];
    assert LaneOk(sv, own[0]);
    for l := 0 to |own[0].cache|
      invariant |layers| == l && LayersStacked(sv.m, own, width, layers)
    {
      var layer := StackLayer(sv, own, l, width);
      LayerAppend(sv.m, own, width, layers, layer);
      layers := layers + [layer];
    }
    LayersStack(sv, own, width, layers);
  }

  /** What one request contributes to the pass: last token, mask row and position id. */
  predicate InputOf(r: Req, lane: Lane, width: nat, tok: Token, mask: seq<nat>, pos: nat) {
    r.generated != [] && tok == LastToken(r) && pos == lane.len <= width && mask == MaskRow(pos, width)
  }

  method Inputs(active: seq<Req>, own: seq<Lane>, width: nat)
    returns (input: seq<Token>, attn: seq<seq<nat>>, pos: seq<nat>)
    requires |active| == |own| && forall i :: 0 <= i < |own| ==> own[i].len <= width && active[i].generated != []
    ensures |input| == |attn| == |pos| == |active|
    ensures forall i :: 0 <= i < |active| ==> InputOf(active[i], own[i], width, input[i], attn[i], pos[i])
  {
    input, attn, pos := [], Repeat(|active|, Repeat(width + 1, 0)), [];
    for i := 0 to |active|
      invariant |input| == |pos| == i && |attn| == |active|
      invariant forall j :: i <= j < |active| ==> attn[j] == Repeat(width + 1, 0)
      invariant forall j :: 0 <= j < i ==> InputOf(active[j], own[j], width, input[j], attn[j], pos[j])
    {
      var len := own[i].len;
      var row := attn[i][..width - len] + Repeat(len + 1, 1);
      assert row == MaskRow(len, width);
      attn := attn[i := row];
      input, pos := input + [LastToken(active[i])], pos + [len];
    }
  }

  /** Row i of a pass gives request r, whose cache is lane, what its own move gives it. */
  ghost predicate RowGives(sv: Served, r: Req, lane: Lane, out: Pass, i: nat) {
    && i < |out.logits| && CanSplit(out.layers, i, lane.len + 1)
    && MoveGives(sv, r, lane, out.logits[i], SplitRow(out.layers, i, lane.len + 1))
  }

  /** These logits and this cache are what the request's own move has. */
  ghost predicate MoveGives(sv: Served, r: Req, lane: Lane, logits: Logits, cache: seq<LayerKv>) {
    && Decodable(sv, r, lane) && CanMove(sv, r, Some(lane)) && Sized(cache, sv.m.layers, lane.len + 1)
    && var r' := Advance(sv, r, sv.m.argmax(logits));
       Move(sv, r, Some(lane)) == (r', if r'.Finished() then None else Some(Lane(cache, lane.len + 1)))
  }

  lemma AloneGives(sv: Served, r: Req, lane: Lane)
    requires Decodable(sv, r, lane)
    ensures var out := Alone(sv, lane, LastToken(r));
            && |out.keys| == |out.vals| == sv.m.layers
            && MoveGives(sv, r, lane, out.logits, Extended(sv.m, lane.cache, out))
  {
    OutputShape(sv.m, lane.cache, true, lane.len, LastToken(r));
  }

  ghost predicate Decodable(sv: Served, r: Req, lane: Lane) { LaneOk(sv, lane) && !r.Finished() && r.generated != [] }

  /** The padding, mask and slice of one row cancel out. */
  lemma RowMoves(sv: Served, b: Feed, r: Req, lane: Lane, i: nat)
    requires Decodable(sv, r, lane) && lane.len <= b.width && b.WellFormed(sv.m) && i < |b.input|
    requires HoldsRow(sv.m, b.layers, i, b.width, lane.cache)
    requires InputOf(r, lane, b.width, b.input[i], b.attn[i], b.pos[i])
    ensures RowGives(sv, r, lane, BatchForward(sv.m, b), i)
  {
    PassRow(sv.m, b, i);
    AloneGives(sv, r, lane);
    RowIsAlone(sv, b, i, lane, LastToken(r));
    SplitIsExtended(sv, b.layers, BatchForward(sv.m, b).layers, i, b.width, lane, Alone(sv, lane, LastToken(r)));
  }

  lemma FeedWellFormed(sv: Served, b: Feed, active: seq<Req>, own: seq<Lane>)
    requires Fit(sv, own, b.width) && Stacks(sv, own, b.width, b.layers)
    requires |b.input| == |b.attn| == |b.pos| == |own| == |active|
    requires forall i :: 0 <= i < |own| ==> InputOf(active[i], own[i], b.width, b.input[i], b.attn[i], b.pos[i])
    ensures b.WellFormed(sv.m)
  {
    forall l | 0 <= l < |b.layers| ensures b.Rectangular(l) {
      assert StacksLayer(sv.m, own, b.width, l, b.layers[l]);
      forall i | 0 <= i < |own| ensures |b.layers[l].keys[i]| == |b.layers[l].vals[i]| == b.width {
        assert RowPadded(sv.m, own[i].cache, b.width, l, b.layers[l], i);
      }
    }
  }

  /** The padded forward pass of one batch. */
  method PaddedPass(sv: Served, active: seq<Req>, own: seq<Lane>) returns (out: Pass)
    requires |active| == |own| && own != [] && forall i :: 0 <= i < |own| ==> Decodable(sv, active[i], own[i])
    ensures forall i :: 0 <= i < |active| ==> RowGives(sv, active[i], own[i], out, i)
  {
    assert Decodable(sv, active[0], own[0]);
    var width := MaxLen(own);
    var layers := StackCache(sv, own, width);
    var input, attn, pos := Inputs(active, own, width);
    var b := Feed(layers, width, input, attn, pos);
    FeedWellFormed(sv, b, active, own);
    out := BatchForward(sv.m, b);
    RowsMove(sv, b, active, own);
  }

  lemma RowsMove(sv: Served, b: Feed, active: seq<Req>, own: seq<Lane>)
    requires |active| == |own| && b.WellFormed(sv.m) && |b.input| == |own| && Shapes(sv.m)
    requires Stacks(sv, own, b.width, b.layers)
    requires forall i :: 0 <= i < |own| ==>
               Decodable(sv, active[i], own[i]) && InputOf(active[i], own[i], b.width, b.input[i], b.attn[i], b.pos[i])
    ensures forall i :: 0 <= i < |own| ==> RowGives(sv, active[i], own[i], BatchForward(sv.m, b), i)
  {
    forall i | 0 <= i < |own| ensures RowGives(sv, active[i], own[i], BatchForward(sv.m, b), i) {
      RowMoves(sv, b, active[i], own[i], i);
    }
  }

  /** Row i of every layer, without its padding. */
  method SplitBack(layers: seq<Stacked>, i: nat, realLen: nat) returns (cache: seq<LayerKv>)
    requires CanSplit(layers, i, realLen)
    ensures cache == SplitRow(layers, i, realLen)
  {
    cache := [];
    for l := 0 to |layers|
      invariant cache == SplitRow(layers, i, realLen)[..l]
    {
      var k, v := layers[l].keys[i], layers[l].vals[i];
      cache := cache + [LayerKv(k[|k| - realLen..], v[|v| - realLen..])];
    }
  }

  /** Tokens still allowed. */
  function Budget(r: Req): nat { if r.maxNew > |r.generated| then r.maxNew - |r.generated| else 0 }

  lemma MoversRun(sv: Served, rs: seq<Req>, lanes: map<Id, Lane>)
    requires CanDecode(sv, lanes, rs)
    ensures var ks := Movers(rs, lanes);
            && NoDup(ks)
            && forall i :: 0 <= i < |ks| ==>
                ks[i] < |rs| && rs[ks[i]].id in lanes && Decodable(sv, rs[ks[i]], lanes[rs[ks[i]].id])
  {
    MoversAre(rs, lanes);
    var ks := Movers(rs, lanes);
    forall i | 0 <= i < |ks|
      ensures ks[i] < |rs| && rs[ks[i]].id in lanes && Decodable(sv, rs[ks[i]], lanes[rs[ks[i]].id])
    {
      assert ks[i] in ks && CanMove(sv, rs[ks[i]], LaneOf(lanes, rs[ks[i]].id));
    }
  }

  lemma OneMore(ks: seq<nat>, i: nat)
    requires NoDup(ks) && i < |ks|
    ensures SetOf(ks[..i + 1]) == SetOf(ks[..i]) + {ks[i]} && ks[i] !in SetOf(ks[..i])
  {
    assert ks[..i + 1] == ks[..i] + [ks[i]];
    SetOfAppend(ks[..i], ks[i]);
  }

  /** The baseline after k tokens, none of the first k - 1 the last. */
  ghost predicate Generated(sv: Served, prompt: seq<Token>, maxNew: nat, tokens: seq<Token>, lane: Lane) {
    && Shapes(sv.m) && tokens != []
    && Point(tokens, lane) == PathAt(sv, prompt, |tokens|) && RunsPast(sv, prompt, maxNew, |tokens| - 1)
  }

  lemma GeneratedStops(sv: Served, prompt: seq<Token>, maxNew: nat, tokens: seq<Token>, lane: Lane)
    requires Generated(sv, prompt, maxNew, tokens, lane) && StopsAt(sv, prompt, maxNew, |tokens|)
    ensures tokens == PathAt(sv, prompt, StopFrom(sv, prompt, maxNew, 1)).tokens
  {
    StopIs(sv, prompt, maxNew, 1, |tokens|);
  }

  lemma GeneratedNext(sv: Served, prompt: seq<Token>, maxNew: nat, tokens: seq<Token>, lane: Lane)
    requires Generated(sv, prompt, maxNew, tokens, lane) && !StopsAt(sv, prompt, maxNew, |tokens|)
    ensures var last := tokens[|tokens| - 1];
            var out := Alone(sv, lane, last);
            && LaneOk(sv, lane) && |lane.cache| == |out.keys| == |out.vals| == sv.m.layers
            && Generated(sv, prompt, maxNew, tokens + [sv.m.argmax(out.logits)], NextLane(sv, lane, last))
  {
    PathNext(sv, prompt, |tokens|);
    RunsPastNext(sv, prompt, maxNew, |tokens| - 1);
    OutputShape(sv.m, lane.cache, true, lane.len, tokens[|tokens| - 1]);
  }

  /** The two dictionaries as one. */
  function LanesFrom(past: map<Id, seq<LayerKv>>, lens: map<Id, nat>): map<Id, Lane> {
    map id | id in past && id in lens :: Lane(past[id], lens[id])
  }

  lemma LanesStored(past: map<Id, seq<LayerKv>>, lens: map<Id, nat>, id: Id, cache: seq<LayerKv>, len: nat)
    ensures LanesFrom(past[id := cache], lens[id := len]) == LanesFrom(past, lens)[id := Lane(cache, len)]
  {
  }

  lemma LanesDropped(past: map<Id, seq<LayerKv>>, lens: map<Id, nat>, id: Id)
    ensures LanesFrom(past - {id}, lens - {id}) == LanesFrom(past, lens) - {id}
  {
  }

  lemma StoredThenDropped(lanes: map<Id, Lane>, id: Id, lane: Lane)
    ensures SetLane(SetLane(lanes, id, Some(lane)), id, None) == SetLane(lanes, id, None)
  {
  }

  /** What is read off a row of the pass is the request's own move. */
  lemma RowIsMove(sv: Served, r: Req, lane: Lane, out: Pass, i: nat)
    requires RowGives(sv, r, lane, out, i)
    ensures !r.Finished() && CanMove(sv, r, Some(lane))
    ensures Sized(SplitRow(out.layers, i, lane.len + 1), sv.m.layers, lane.len + 1)
    ensures var (r', cache) := (Advance(sv, r, sv.m.argmax(out.logits[i])), SplitRow(out.layers, i, lane.len + 1));
            Move(sv, r, Some(lane)) == (r', if r'.Finished() then None else Some(Lane(cache, lane.len + 1)))
  {
  }

  class InferenceEngine {
    const sv: Served
    var past: map<Id, seq<LayerKv>>
    var lens: map<Id, nat>
    var decodePasses: nat
    var decodeTokens: nat

    ghost function View(): map<Id, Lane>
      reads this
    {
      LanesFrom(past, lens)
    }

    /** Caches and lengths for the same requests, and each cache as long as its length says. */
    ghost predicate Sound()
      reads this
    {
      && past.Keys == lens.Keys && Shapes(sv.m)
      && forall id :: id in past ==> Sized(past[id], sv.m.layers, lens[id])
    }

    constructor (sv: Served)
      requires Shapes(sv.m)
      ensures this.sv == sv && Sound() && View() == map[] && decodePasses == decodeTokens == 0
    {
      this.sv := sv;
      past, lens, decodePasses, decodeTokens := map[], map[], 0, 0;
    }

    method FreeRequest(id: Id)
      requires Sound()
      modifies this`past, this`lens
      ensures Sound() && View() == SetLane(old(View()), id, None)
    {
      LanesDropped(past, lens, id);
      past, lens := past - {id}, lens - {id};
    }

    method Store(id: Id, cache: seq<LayerKv>, len: nat)
      requires Sound() && Sized(cache, sv.m.layers, len)
      modifies this`past, this`lens
      ensures Sound() && View() == SetLane(old(View()), id, Some(Lane(cache, len)))
    {
      LanesStored(past, lens, id, cache, len);
      past, lens := past[id := cache], lens[id := len];
    }

    /** Appends a sampled token and, if it was the last, completes the request and frees its cache. */
    method Append(r: Req, token: Token) returns (r': Req)
      requires Sound() && !r.Finished()
      modifies this`past, this`lens
      ensures r' == Advance(sv, r, token)
      ensures Sound() && View() == if r'.Finished() then SetLane(old(View()), r.id, None) else old(View())
    {
      r' := r.(generated := r.generated + [token]);
      if token == sv.eos || |r'.generated| >= r.maxNew {
        r' := r'.(status := Complete);
        FreeRequest(r.id);
      }
    }

    /** Runs a prompt through the model and gives the request its first token. */
    method PrefillRequest(r: Req) returns (r': Req)
      requires Sound()
      modifies this`past, this`lens
      ensures r' == PrefillReq(sv, r)
      ensures Sound() && View() == SetLane(old(View()), r.id, PrefillLane(sv, r))
    {
      r' := r.(status := Prefill);
      assert PromptSized(sv.m, r.prompt);
      var (logits, cache) := sv.m.prefill(r.prompt);
      Store(r.id, cache, |r.prompt|);
      StoredThenDropped(old(View()), r.id, Lane(cache, |r.prompt|));
      r' := Append(r'.(status := Generating), sv.m.argmax(logits));
    }

    // ----- the pieces of a batched decode -----

    method Active(rs: seq<Req>) returns (ks: seq<nat>)
      requires Sound()
      ensures ks == Movers(rs, View())
    {
      ks := [];
      for i := 0 to |rs|
        invariant ks == Movers(rs[..i], View())
      {
        assert rs[..i + 1][..i] == rs[..i] && rs[..i + 1][i] == rs[i];
        if !rs[i].Finished() && rs[i].id in past {
          ks := ks + [i];
        }
      }
      assert rs[..|rs|] == rs;
    }

    method Gather(active: seq<Req>) returns (own: seq<Lane>)
      requires Sound() && forall i :: 0 <= i < |active| ==> active[i].id in past
      ensures |own| == |active| && forall i :: 0 <= i < |active| ==> own[i] == View()[active[i].id] && LaneOk(sv, own[i])
    {
      own := [];
      for i := 0 to |active|
        invariant |own| == i && forall j :: 0 <= j < i ==> own[j] == View()[active[j].id] && LaneOk(sv, own[j])
      {
        own := own + [Lane(past[active[i].id], lens[active[i].id])];
      }
    }

    /** Gives one request its token and its row of the pass. */
    method TakeRow(r: Req, token: Token, cache: seq<LayerKv>, realLen: nat) returns (r': Req)
      requires Sound() && !r.Finished() && Sized(cache, sv.m.layers, realLen)
      modifies this`past, this`lens, this`decodeTokens
      ensures r' == Advance(sv, r, token) && decodeTokens == old(decodeTokens) + 1
      ensures Sound()
      ensures View() == SetLane(old(View()), r.id, if r'.Finished() then None else Some(Lane(cache, realLen)))
    {
      decodeTokens := decodeTokens + 1;
      Store(r.id, cache, realLen);
      StoredThenDropped(old(View()), r.id, Lane(cache, realLen));
      r' := Append(r, token);
    }

    /** Gives one request what its row of the pass holds. */
    method GiveRow(r: Req, lane: Lane, out: Pass, i: nat) returns (r': Req)
      requires Sound() && RowGives(sv, r, lane, out, i)
      modifies this`past, this`lens, this`decodeTokens
      ensures Sound() && decodeTokens == old(decodeTokens) + 1
      ensures r' == Move(sv, r, Some(lane)).0 && View() == SetLane(old(View()), r.id, Move(sv, r, Some(lane)).1)
    {
      RowIsMove(sv, r, lane, out, i);
      var realLen := lane.len + 1;
      var cache := SplitBack(out.layers, i, realLen);
      r' := TakeRow(r, sv.m.argmax(out.logits[i]), cache, realLen);
    }

    method GiveRows(rs: seq<Req>, ks: seq<nat>, own: seq<Lane>, out: Pass) returns (rs': seq<Req>)
      requires Sound() && CanDecode(sv, View(), rs) && NoDup(ks) && |own| == |ks|
      requires forall i :: 0 <= i < |ks| ==>
                 && ks[i] < |rs| && LaneOf(View(), rs[ks[i]].id) == Some(own[i])
                 && RowGives(sv, rs[ks[i]], own[i], out, i)
      modifies this`past, this`lens, this`decodeTokens
      ensures Sound() && Partly(sv, old(View()), rs, SetOf(ks), View(), rs')
      ensures decodeTokens == old(decodeTokens) + |ks|
    {
      ghost var lanes := View();
      rs' := rs;
      for i := 0 to |ks|
        invariant Sound() && Partly(sv, lanes, rs, SetOf(ks[..i]), View(), rs')
        invariant decodeTokens == old(decodeTokens) + i
      {
        var k := ks[i];
        OneMore(ks, i);
        PartlyNext(sv, lanes, rs, SetOf(ks[..i]), k, View(), rs');
        var r' := GiveRow(rs'[k], own[i], out, i);
        rs' := rs'[k := r'];
      }
      assert ks[..|ks|] == ks;
    }

    /** One padded forward pass for everyone who can move. */
    method DecodeBatch(rs: seq<Req>) returns (rs': seq<Req>)
      requires Sound() && CanDecode(sv, View(), rs)
      modifies this
      ensures Sound() && Decoded(sv, old(View()), rs, View(), rs')
      ensures var n := |Movers(rs, old(View()))|;
              && decodeTokens == old(decodeTokens) + n
              && decodePasses == old(decodePasses) + if n > 0 then 1 else 0
    {
      ghost var lanes := View();
      var ks := Active(rs);
      MoversRun(sv, rs, lanes);
      rs' := rs;
      if ks != [] {
        var active := Selected(rs, ks);
        var own := Gather(active);
        var out := PaddedPass(sv, active, own);
        decodePasses := decodePasses + 1;
        forall i | 0 <= i < |ks| ensures RowGives(sv, rs[ks[i]], own[i], out, i) {
          assert RowGives(sv, active[i], own[i], out, i);
        }
        rs' := GiveRows(rs, ks, own, out);
      }
      PartlyAll(sv, lanes, rs, View(), rs');
    }

    method DecodeStep(r: Req) returns (r': Req, last: Token)
      requires Sound() && CanMove(sv, r, LaneOf(View(), r.id)) && r.generated != []
      modifies this
      ensures Sound() && (r', LaneOf(View(), r.id)) == Move(sv, r, LaneOf(old(View()), r.id))
      ensures forall id :: id != r.id ==> LaneOf(View(), id) == LaneOf(old(View()), id)
      ensures last == LastToken(r')
    {
      var rs := DecodeBatch([r]);
      r', last := rs[0], LastToken(rs[0]);
    }

    method NextToken(ghost prompt: seq<Token>, ghost maxNew: nat, cache: seq<LayerKv>, len: nat, tokens: seq<Token>)
      returns (cache': seq<LayerKv>, len': nat, next: Token, tokens': seq<Token>)
      requires Generated(sv, prompt, maxNew, tokens, Lane(cache, len)) && !StopsAt(sv, prompt, maxNew, |tokens|)
      ensures Generated(sv, prompt, maxNew, tokens', Lane(cache', len')) && tokens' == tokens + [next]
    {
      GeneratedNext(sv, prompt, maxNew, tokens, Lane(cache, len));
      var out := sv.m.forward(cache, true, len, tokens[|tokens| - 1]);
      cache', len', next := Extended(sv.m, cache, out), len + 1, sv.m.argmax(out.logits);
      tokens' := tokens + [next];
    }

    /** The baseline: one request, its own cache, one token at a time until done. */
    method GenerateSequential(r: Req) returns (r': Req, tokens: seq<Token>)
      requires Sound()
      ensures tokens == PathAt(sv, r.prompt, StopFrom(sv, r.prompt, Budget(r), 1)).tokens
      ensures r' == r.(generated := r.generated + tokens, status := Complete)
      ensures tokens != [] && (tokens[|tokens| - 1] == sv.eos || |r'.generated| >= r.maxNew)
      ensures forall j :: 0 <= j < |tokens| - 1 ==> tokens[j] != sv.eos && |r.generated| + j + 1 < r.maxNew
    {
      SequentialStops(sv, r.(maxNew := Budget(r)));
      assert PromptSized(sv.m, r.prompt);
      var (logits, cache) := sv.m.prefill(r.prompt);
      var len: nat, token := |r.prompt|, sv.m.argmax(logits);
      tokens := [token];
      r' := r.(generated := r.generated + [token], status := Generating);
      while !r'.Finished()
        invariant Generated(sv, r.prompt, Budget(r), tokens, Lane(cache, len)) && token == tokens[|tokens| - 1]
        invariant r' == r.(generated := r.generated + tokens, status := Generating)
        decreases Budget(r) - |tokens|
      {
        if token == sv.eos || |r'.generated| >= r'.maxNew {
          r' := r'.(status := Complete);
          GeneratedStops(sv, r.prompt, Budget(r), tokens, Lane(cache, len));
          break;
        }
        cache, len, token, tokens := NextToken(r.prompt, Budget(r), cache, len, tokens);
        r' := r'.(generated := r'.generated + [token]);
      }
    }
  }
}
