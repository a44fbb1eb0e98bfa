/** One request decoded on its own, and the sequential generation it adds up to. */
module EngineModel {
  import opened Types
  import opened Tensors

  type Logits(!new)

  /** One request's keys and values at one layer, one entry per cached position. */
  datatype LayerKv = LayerKv(keys: seq<Vec>, vals: seq<Vec>)

  /** What a forward pass of one new token gives: logits, and one new key and value per layer. */
  datatype Output = Output(logits: Logits, keys: seq<Vec>, vals: seq<Vec>)

  /** The transformer, as functions nobody looks into. prefill: a whole prompt. forward: the unmasked cached
      entries of every layer, whether the new position is unmasked, its position id and its token. */
  datatype AnyModel = AnyModel(
    layers: nat,
    zero: Vec,
    prefill: seq<Token> -> (Logits, seq<LayerKv>),
    forward: (seq<LayerKv>, bool, nat, Token) -> Output,
    argmax: Logits -> Token)

  predicate Sized(cache: seq<LayerKv>, layers: nat, len: nat) {
    |cache| == layers && forall l :: 0 <= l < layers ==> |cache[l].keys| == |cache[l].vals| == len
  }

  predicate PromptSized(m: AnyModel, prompt: seq<Token>) { Sized(m.prefill(prompt).1, m.layers, |prompt|) }

  predicate OutputSized(m: AnyModel, ctx: seq<LayerKv>, own: bool, pos: nat, tok: Token) {
    |m.forward(ctx, own, pos, tok).keys| == |m.forward(ctx, own, pos, tok).vals| == m.layers
  }

  /** Shapes only: one layer entry per position of the prompt, one new entry per layer. */
  ghost predicate Shapes(m: AnyModel) {
    && (forall prompt :: PromptSized(m, prompt))
    && (forall ctx, own, pos, tok :: OutputSized(m, ctx, own, pos, tok))
  }

  /** A model with its end-of-sequence token. */
  datatype Served = Served(m: AnyModel, eos: Token)

  // ----- one request alone -----

  datatype Lane = Lane(cache: seq<LayerKv>, len: nat)

  function Extended(m: AnyModel, cache: seq<LayerKv>, out: Output): seq<LayerKv>
    requires |cache| == m.layers == |out.keys| == |out.vals|
  {
    seq(m.layers, l requires 0 <= l < m.layers => LayerKv(cache[l].keys + [out.keys[l]], cache[l].vals + [out.vals[l]]))
  }

  ghost predicate LaneOk(sv: Served, lane: Lane) { Shapes(sv.m) && Sized(lane.cache, sv.m.layers, lane.len) }

  /** The forward pass of the latest token, with nothing padded or masked. */
  function Alone(sv: Served, lane: Lane, last: Token): Output { sv.m.forward(lane.cache, true, lane.len, last) }

  function IsDone(sv: Served, r: Req): bool
    requires r.generated != []
  {
    r.generated[|r.generated| - 1] == sv.eos || |r.generated| >= r.maxNew
  }

  /** A request with one more token, complete if that was the last. */
  function Advance(sv: Served, r: Req, token: Token): Req {
    var r' := r.(generated := r.generated + [token]);
    if IsDone(sv, r') then r'.(status := Complete) else r'
  }

  function PrefillReq(sv: Served, r: Req): Req {
    Advance(sv, r.(status := Generating), sv.m.argmax(sv.m.prefill(r.prompt).0))
  }

  function PrefillLane(sv: Served, r: Req): Option<Lane> {
    if PrefillReq(sv, r).Finished() then None else Some(Lane(sv.m.prefill(r.prompt).1, |r.prompt|))
  }

  function NextLane(sv: Served, lane: Lane, last: Token): (next: Lane)
    requires LaneOk(sv, lane)
    ensures LaneOk(sv, next) && next.len == lane.len + 1
  {
    assert OutputSized(sv.m, lane.cache, true, lane.len, last);
    Lane(Extended(sv.m, lane.cache, Alone(sv, lane, last)), lane.len + 1)
  }

  /** A request with a cache has been started, and its cache has the right shape. */
  ghost predicate CanMove(sv: Served, r: Req, lane: Option<Lane>) {
    Shapes(sv.m) && (lane.Some? ==> LaneOk(sv, lane.value) && (!r.Finished() ==> r.generated != []))
  }

  function LastToken(r: Req): Token
    requires r.generated != []
  {
    r.generated[|r.generated| - 1]
  }

  /** One decode of one request by itself: finished requests and those without a cache stay put. */
  function Move(sv: Served, r: Req, lane: Option<Lane>): (Req, Option<Lane>)
    requires CanMove(sv, r, lane)
  {
    if r.Finished() || lane.None? then (r, lane)
    else
      var r' := Advance(sv, r, sv.m.argmax(Alone(sv, lane.value, LastToken(r)).logits));
      (r', if r'.Finished() then None else Some(NextLane(sv, lane.value, LastToken(r))))
  }

  function LaneOf(lanes: map<Id, Lane>, id: Id): Option<Lane> { if id in lanes then Some(lanes[id]) else None }

  function SetLane(lanes: map<Id, Lane>, id: Id, lane: Option<Lane>): map<Id, Lane> {
    if lane.Some? then lanes[id := lane.value] else lanes - {id}
  }

  /** The requests of a decode call: distinct, and each able to move. */
  ghost predicate CanDecode(sv: Served, lanes: map<Id, Lane>, rs: seq<Req>) {
    && (forall i, j :: 0 <= i < j < |rs| ==> rs[i].id != rs[j].id)
    && (forall i :: 0 <= i < |rs| ==> CanMove(sv, rs[i], LaneOf(lanes, rs[i].id)))
  }

  ghost function Share(sv: Served, lanes: map<Id, Lane>, r: Req, moved: bool): (Req, Option<Lane>)
    requires CanMove(sv, r, LaneOf(lanes, r.id))
  {
    if moved then Move(sv, r, LaneOf(lanes, r.id)) else (r, LaneOf(lanes, r.id))
  }

  /** The requests at the positions in done, and their caches, moved
      exactly as they would alone; nothing else did. */
  ghost predicate Partly(sv: Served, lanes: map<Id, Lane>, rs: seq<Req>, done: set<nat>,
                         lanes': map<Id, Lane>, rs': seq<Req>)
    requires CanDecode(sv, lanes, rs)
  {
    && |rs'| == |rs|
    && (forall i :: 0 <= i < |rs| ==> (rs'[i], LaneOf(lanes', rs[i].id)) == Share(sv, lanes, rs[i], i in done))
    && (forall id :: !HasId(rs, id) ==> LaneOf(lanes', id) == LaneOf(lanes, id))
  }

  /** Every request of rs and its cache moved exactly as they would alone; no other cache moved. */
  ghost predicate Decoded(sv: Served, lanes: map<Id, Lane>, rs: seq<Req>, lanes': map<Id, Lane>, rs': seq<Req>)
    requires CanDecode(sv, lanes, rs)
  {
    Partly(sv, lanes, rs, Range(|rs|), lanes', rs')
  }

  // ----- one after the other -----

  lemma TailReady(sv: Served, lanes: map<Id, Lane>, rs: seq<Req>, lane: Option<Lane>)
    requires CanDecode(sv, lanes, rs) && rs != []
    ensures forall i :: 0 <= i < |rs[1..]| ==> rs[1..][i] == rs[i + 1] && rs[1..][i].id != rs[0].id
    ensures forall id :: id != rs[0].id ==> LaneOf(SetLane(lanes, rs[0].id, lane), id) == LaneOf(lanes, id)
    ensures CanDecode(sv, SetLane(lanes, rs[0].id, lane), rs[1..])
  {
    forall i | 0 <= i < |rs[1..]| ensures CanMove(sv, rs[1..][i], LaneOf(SetLane(lanes, rs[0].id, lane), rs[1..][i].id)) {
      assert rs[1..][i] == rs[i + 1];
    }
  }

  /** decode_step on each request in turn. */
  ghost function Serial(sv: Served, lanes: map<Id, Lane>, rs: seq<Req>): (map<Id, Lane>, seq<Req>)
    requires CanDecode(sv, lanes, rs)
    decreases |rs|
  {
    if rs == [] then (lanes, [])
    else
      var moved := Move(sv, rs[0], LaneOf(lanes, rs[0].id));
      TailReady(sv, lanes, rs, moved.1);
      var rest := Serial(sv, SetLane(lanes, rs[0].id, moved.1), rs[1..]);
      (rest.0, [moved.0] + rest.1)
  }

  lemma {:induction false} SerialDecodes(sv: Served, lanes: map<Id, Lane>, rs: seq<Req>)
    requires CanDecode(sv, lanes, rs)
    ensures Decoded(sv, lanes, rs, Serial(sv, lanes, rs).0, Serial(sv, lanes, rs).1)
    decreases |rs|
  {
    if rs != [] {
      var moved := Move(sv, rs[0], LaneOf(lanes, rs[0].id));
      var lanes1 := SetLane(lanes, rs[0].id, moved.1);
      TailReady(sv, lanes, rs, moved.1);
      SerialDecodes(sv, lanes1, rs[1..]);
      DecodedCons(sv, lanes, rs, Serial(sv, lanes1, rs[1..]).0, Serial(sv, lanes1, rs[1..]).1);
    }
  }

  lemma DecodedAt(sv: Served, lanes: map<Id, Lane>, rs: seq<Req>, lanes': map<Id, Lane>, rs': seq<Req>, i: nat)
    requires CanDecode(sv, lanes, rs) && Decoded(sv, lanes, rs, lanes', rs') && i < |rs|
    ensures |rs'| == |rs| && (rs'[i], LaneOf(lanes', rs[i].id)) == Move(sv, rs[i], LaneOf(lanes, rs[i].id))
  {
    assert (rs'[i], LaneOf(lanes', rs[i].id)) == Share(sv, lanes, rs[i], i in Range(|rs|));
  }

  lemma DecodedFrom(sv: Served, lanes: map<Id, Lane>, rs: seq<Req>, lanes': map<Id, Lane>, rs': seq<Req>)
    requires CanDecode(sv, lanes, rs) && |rs'| == |rs|
    requires forall i :: 0 <= i < |rs| ==> (rs'[i], LaneOf(lanes', rs[i].id)) == Move(sv, rs[i], LaneOf(lanes, rs[i].id))
    requires forall id :: !HasId(rs, id) ==> LaneOf(lanes', id) == LaneOf(lanes, id)
    ensures Decoded(sv, lanes, rs, lanes', rs')
  {
  }

  lemma NotInTail(rs: seq<Req>, id: Id)
    requires rs != [] && !HasId(rs, id)
    ensures rs[0].id != id && !HasId(rs[1..], id)
  {
    forall i | 0 <= i < |rs[1..]| ensures rs[1..][i].id != id { assert rs[1..][i] == rs[i + 1]; }
  }

  lemma DecodedCons(sv: Served, lanes: map<Id, Lane>, rs: seq<Req>, lanes': map<Id, Lane>, tail': seq<Req>)
    requires CanDecode(sv, lanes, rs) && rs != []
    requires var lanes1 := SetLane(lanes, rs[0].id, Move(sv, rs[0], LaneOf(lanes, rs[0].id)).1);
             CanDecode(sv, lanes1, rs[1..]) && Decoded(sv, lanes1, rs[1..], lanes', tail')
    ensures Decoded(sv, lanes, rs, lanes', [Move(sv, rs[0], LaneOf(lanes, rs[0].id)).0] + tail')
  {
    var moved, tail := Move(sv, rs[0], LaneOf(lanes, rs[0].id)), rs[1..];
    var lanes1, rs' := SetLane(lanes, rs[0].id, moved.1), [moved.0] + tail';
    TailReady(sv, lanes, rs, moved.1);
    assert !HasId(tail, rs[0].id);
    forall i | 0 <= i < |rs|
      ensures (rs'[i], LaneOf(lanes', rs[i].id)) == Move(sv, rs[i], LaneOf(lanes, rs[i].id))
    {
      if i > 0 {
        DecodedAt(sv, lanes1, tail, lanes', tail', i - 1);
        assert tail[i - 1] == rs[i] && rs'[i] == tail'[i - 1];
      }
    }
    forall id | !HasId(rs, id) ensures LaneOf(lanes', id) == LaneOf(lanes, id) { NotInTail(rs, id); }
    DecodedFrom(sv, lanes, rs, lanes', rs');
  }

  lemma LanesDetermined(a: map<Id, Lane>, b: map<Id, Lane>)
    requires forall id :: LaneOf(a, id) == LaneOf(b, id)
    ensures a == b
  {
    forall id ensures id in a <==> id in b { assert LaneOf(a, id) == LaneOf(b, id); }
    forall id | id in a ensures a[id] == b[id] { assert LaneOf(a, id) == LaneOf(b, id); }
  }

  lemma DecodedUnique(sv: Served, lanes: map<Id, Lane>, rs: seq<Req>,
                      a: map<Id, Lane>, as': seq<Req>, b: map<Id, Lane>, bs': seq<Req>)
    requires CanDecode(sv, lanes, rs) && Decoded(sv, lanes, rs, a, as') && Decoded(sv, lanes, rs, b, bs')
    ensures a == b && as' == bs'
  {
    forall id ensures LaneOf(a, id) == LaneOf(b, id) {
      if HasId(rs, id) {
        var i :| 0 <= i < |rs| && rs[i].id == id;
        assert (as'[i], LaneOf(a, rs[i].id)) == (bs'[i], LaneOf(b, rs[i].id));
      }
    }
    LanesDetermined(a, b);
    forall i | 0 <= i < |rs| ensures as'[i] == bs'[i] {
      assert (as'[i], LaneOf(a, rs[i].id)) == (bs'[i], LaneOf(b, rs[i].id));
    }
  }

  /** order lists the positions 0..n-1, each once. */
  predicate IsOrder(order: seq<nat>, n: nat) {
    && |order| == n && NoDup(order) && (forall k :: 0 <= k < n ==> order[k] < n)
    && (forall i :: 0 <= i < n ==> i in order)
  }

  function Reordered(rs: seq<Req>, order: seq<nat>): (qs: seq<Req>)
    requires IsOrder(order, |rs|)
    ensures |qs| == |rs|
  {
    seq(|rs|, k requires 0 <= k < |rs| => rs[order[k]])
  }

  lemma ReorderedReady(sv: Served, lanes: map<Id, Lane>, rs: seq<Req>, order: seq<nat>)
    requires IsOrder(order, |rs|) && CanDecode(sv, lanes, rs)
    ensures CanDecode(sv, lanes, Reordered(rs, order))
    ensures forall id :: HasId(Reordered(rs, order), id) <==> HasId(rs, id)
  {
    var qs := Reordered(rs, order);
    forall i, j | 0 <= i < j < |qs| ensures qs[i].id != qs[j].id {
      assert order[i] != order[j];
    }
    forall id ensures HasId(qs, id) <==> HasId(rs, id) {
      if HasId(rs, id) {
        var i :| 0 <= i < |rs| && rs[i].id == id;
        assert i in order;
        var k :| 0 <= k < |order| && order[k] == i;
        assert qs[k].id == id;
      }
      if HasId(qs, id) {
        var k :| 0 <= k < |qs| && qs[k].id == id;
        assert rs[order[k]].id == id;
      }
    }
  }

  lemma ReorderedDecoded(sv: Served, lanes: map<Id, Lane>, rs: seq<Req>, order: seq<nat>,
                         lanes': map<Id, Lane>, rs': seq<Req>)
    requires CanDecode(sv, lanes, rs) && IsOrder(order, |rs|) && Decoded(sv, lanes, rs, lanes', rs')
    requires CanDecode(sv, lanes, Reordered(rs, order))
    requires forall id :: HasId(Reordered(rs, order), id) <==> HasId(rs, id)
    ensures Decoded(sv, lanes, Reordered(rs, order), lanes', Reordered(rs', order))
  {
    var qs, qs' := Reordered(rs, order), Reordered(rs', order);
    forall k | 0 <= k < |qs| ensures (qs'[k], LaneOf(lanes', qs[k].id)) == Share(sv, lanes, qs[k], true) {
      assert (rs'[order[k]], LaneOf(lanes', rs[order[k]].id)) == Share(sv, lanes, rs[order[k]], order[k] in Range(|rs|));
    }
  }

  /** A batched decode leaves every cache, length, token and status as decoding one by one in any order does. */
  lemma BatchIsSerialInAnyOrder(sv: Served, lanes: map<Id, Lane>, rs: seq<Req>, order: seq<nat>,
                                lanes': map<Id, Lane>, rs': seq<Req>)
    requires CanDecode(sv, lanes, rs) && IsOrder(order, |rs|) && Decoded(sv, lanes, rs, lanes', rs')
    ensures CanDecode(sv, lanes, Reordered(rs, order))
    ensures Serial(sv, lanes, Reordered(rs, order)) == (lanes', Reordered(rs', order))
  {
    var qs, qs' := Reordered(rs, order), Reordered(rs', order);
    ReorderedReady(sv, lanes, rs, order);
    SerialDecodes(sv, lanes, qs);
    ReorderedDecoded(sv, lanes, rs, order, lanes', rs');
    DecodedUnique(sv, lanes, qs, Serial(sv, lanes, qs).0, Serial(sv, lanes, qs).1, lanes', qs');
  }

  // ----- sequential generation -----

  /** Tokens and cache after k tokens, k > 0. */
  datatype Point = Point(tokens: seq<Token>, lane: Lane)

  ghost function PathAt(sv: Served, prompt: seq<Token>, k: nat): (p: Point)
    requires Shapes(sv.m) && k > 0
    ensures |p.tokens| == k && LaneOk(sv, p.lane) && p.lane.len == |prompt| + k - 1
    decreases k
  {
    assert PromptSized(sv.m, prompt);
    if k == 1 then Point([sv.m.argmax(sv.m.prefill(prompt).0)], Lane(sv.m.prefill(prompt).1, |prompt|))
    else
      var p := PathAt(sv, prompt, k - 1);
      var last := p.tokens[k - 2];
      Point(p.tokens + [sv.m.argmax(Alone(sv, p.lane, last).logits)], NextLane(sv, p.lane, last))
  }

  ghost predicate StopsAt(sv: Served, prompt: seq<Token>, maxNew: nat, k: nat)
    requires Shapes(sv.m) && k > 0
  {
    PathAt(sv, prompt, k).tokens[k - 1] == sv.eos || k >= maxNew
  }

  /** The length of what generate_sequential yields, from k tokens on. */
  ghost function StopFrom(sv: Served, prompt: seq<Token>, maxNew: nat, k: nat): (n: nat)
    requires Shapes(sv.m) && k > 0
    ensures n >= k && StopsAt(sv, prompt, maxNew, n)
    ensures forall j :: k <= j < n ==> !StopsAt(sv, prompt, maxNew, j)
    decreases maxNew - k
  {
    if StopsAt(sv, prompt, maxNew, k) then k else StopFrom(sv, prompt, maxNew, k + 1)
  }

  ghost function Sequential(sv: Served, r: Req): seq<Token>
    requires Shapes(sv.m)
  {
    PathAt(sv, r.prompt, StopFrom(sv, r.prompt, r.maxNew, 1)).tokens
  }

  lemma {:induction false} KeepsPrefix(sv: Served, prompt: seq<Token>, tokens: seq<Token>, j: nat, k: nat)
    requires Shapes(sv.m) && 0 < j <= k && tokens <= PathAt(sv, prompt, j).tokens
    ensures tokens <= PathAt(sv, prompt, k).tokens
    decreases k
  {
    if j < k {
      KeepsPrefix(sv, prompt, tokens, j, k - 1);
      LongerPath(sv, prompt, k);
      PrefixTrans(tokens, PathAt(sv, prompt, k - 1).tokens, PathAt(sv, prompt, k).tokens);
    }
  }

  lemma TokensPrefix(sv: Served, prompt: seq<Token>, j: nat, k: nat)
    requires Shapes(sv.m) && 0 < j <= k
    ensures PathAt(sv, prompt, j).tokens <= PathAt(sv, prompt, k).tokens
  {
    KeepsPrefix(sv, prompt, PathAt(sv, prompt, j).tokens, j, k);
  }

  lemma LongerPath(sv: Served, prompt: seq<Token>, k: nat)
    requires Shapes(sv.m) && k > 1
    ensures PathAt(sv, prompt, k - 1).tokens <= PathAt(sv, prompt, k).tokens
  {
  }

  /** None of the first k tokens ends the generation. */
  ghost predicate RunsPast(sv: Served, prompt: seq<Token>, maxNew: nat, k: nat)
    requires Shapes(sv.m)
  {
    forall j :: 0 < j <= k ==> !StopsAt(sv, prompt, maxNew, j)
  }

  lemma RunsPastNext(sv: Served, prompt: seq<Token>, maxNew: nat, k: nat)
    requires Shapes(sv.m) && RunsPast(sv, prompt, maxNew, k) && !StopsAt(sv, prompt, maxNew, k + 1)
    ensures RunsPast(sv, prompt, maxNew, k + 1)
  {
  }

  /** Running, and on the sequential path: k tokens out, none of them the last. */
  ghost predicate InFlight(sv: Served, r: Req, lane: Option<Lane>)
    requires Shapes(sv.m)
  {
    var k := |r.generated|;
    && k > 0 && r.generated == PathAt(sv, r.prompt, k).tokens && lane == Some(PathAt(sv, r.prompt, k).lane)
    && RunsPast(sv, r.prompt, r.maxNew, k)
  }

  lemma {:induction false} StopIs(sv: Served, prompt: seq<Token>, maxNew: nat, from: nat, n: nat)
    requires Shapes(sv.m) && 0 < from <= n && StopsAt(sv, prompt, maxNew, n)
    requires forall j :: from <= j < n ==> !StopsAt(sv, prompt, maxNew, j)
    ensures StopFrom(sv, prompt, maxNew, from) == n
    decreases n - from
  {
    if from < n { StopIs(sv, prompt, maxNew, from + 1, n); }
  }

  lemma InFlightIsPrefix(sv: Served, r: Req, lane: Option<Lane>)
    requires Shapes(sv.m) && InFlight(sv, r, lane)
    ensures r.generated <= Sequential(sv, r) && r.generated != Sequential(sv, r)
  {
    var k, n := |r.generated|, StopFrom(sv, r.prompt, r.maxNew, 1);
    assert StopsAt(sv, r.prompt, r.maxNew, n);
    TokensPrefix(sv, r.prompt, k, n);
  }

  /** Prefill puts a request on the sequential path, or at its end. */
  lemma PrefillFollows(sv: Served, r: Req)
    requires Shapes(sv.m) && r.generated == []
    ensures var r' := PrefillReq(sv, r);
            if r'.Finished() then r'.status == Complete && r'.generated == Sequential(sv, r) && PrefillLane(sv, r) == None
            else r'.status == Generating && InFlight(sv, r', PrefillLane(sv, r))
  {
    var r' := PrefillReq(sv, r);
    assert r'.generated == PathAt(sv, r.prompt, 1).tokens;
    if r'.Finished() { StopIs(sv, r.prompt, r.maxNew, 1, 1); }
  }

  /** The sequential tokens end with the first end-of-sequence token or at the limit, whichever comes first; a limit of
      zero still gives one token. */
  lemma SequentialStops(sv: Served, r: Req)
    requires Shapes(sv.m)
    ensures var ts, limit := Sequential(sv, r), if r.maxNew > 1 then r.maxNew else 1;
            && 0 < |ts| <= limit && (ts[|ts| - 1] == sv.eos || |ts| == limit)
            && (forall j :: 0 <= j < |ts| - 1 ==> ts[j] != sv.eos)
            && ts[0] == sv.m.argmax(sv.m.prefill(r.prompt).0)
  {
    var n := StopFrom(sv, r.prompt, r.maxNew, 1);
    StopWithin(sv, r.prompt, r.maxNew, 1);
    TokensPrefix(sv, r.prompt, 1, n);
    forall j | 0 <= j < n - 1 ensures PathAt(sv, r.prompt, n).tokens[j] != sv.eos {
      assert !StopsAt(sv, r.prompt, r.maxNew, j + 1);
      TokensPrefix(sv, r.prompt, j + 1, n);
    }
  }

  lemma {:induction false} StopWithin(sv: Served, prompt: seq<Token>, maxNew: nat, k: nat)
    requires Shapes(sv.m) && k > 0
    ensures StopFrom(sv, prompt, maxNew, k) <= if maxNew > k then maxNew else k
    decreases maxNew - k
  {
    if !StopsAt(sv, prompt, maxNew, k) { StopWithin(sv, prompt, maxNew, k + 1); }
  }

  lemma PathNext(sv: Served, prompt: seq<Token>, k: nat)
    requires Shapes(sv.m) && k > 0
    ensures var p, next := PathAt(sv, prompt, k), PathAt(sv, prompt, k + 1);
            && next.tokens == p.tokens + [sv.m.argmax(Alone(sv, p.lane, p.tokens[k - 1]).logits)]
            && next.lane == NextLane(sv, p.lane, p.tokens[k - 1])
  {
  }

  lemma AdvanceIs(sv: Served, r: Req, token: Token)
    requires r.status == Generating
    ensures var r' := Advance(sv, r, token);
            && r'.generated == r.generated + [token] && r' == r.(generated := r'.generated, status := r'.status)
            && (r'.Finished() <==> token == sv.eos || |r.generated| + 1 >= r.maxNew)
            && r'.status == (if r'.Finished() then Complete else Generating)
  {
  }

  /** One decode adds the token, and the cache entries, that come next on the sequential path. */
  lemma MoveIsNext(sv: Served, r: Req, lane: Option<Lane>)
    requires Shapes(sv.m) && r.status == Generating && InFlight(sv, r, lane)
    ensures CanMove(sv, r, lane)
    ensures var next, (r', lane') := PathAt(sv, r.prompt, |r.generated| + 1), Move(sv, r, lane);
            && r'.generated == next.tokens && r' == r.(generated := next.tokens, status := r'.status)
            && (r'.Finished() <==> StopsAt(sv, r.prompt, r.maxNew, |r.generated| + 1))
            && r'.status == (if r'.Finished() then Complete else Generating)
            && lane' == (if r'.Finished() then None else Some(next.lane))
  {
    PathNext(sv, r.prompt, |r.generated|);
    AdvanceIs(sv, r, sv.m.argmax(Alone(sv, lane.value, LastToken(r)).logits));
  }

  lemma InFlightOn(sv: Served, r: Req, lane: Option<Lane>)
    requires Shapes(sv.m) && InFlight(sv, r, lane) && !StopsAt(sv, r.prompt, r.maxNew, |r.generated| + 1)
    ensures var next := PathAt(sv, r.prompt, |r.generated| + 1);
            InFlight(sv, r.(generated := next.tokens), Some(next.lane))
  {
    var k := |r.generated|;
    var k' := k + 1;
    var next := PathAt(sv, r.prompt, k');
    RunsPastNext(sv, r.prompt, r.maxNew, k);
    assert |next.tokens| == k';
    PathFlies(sv, r.(generated := next.tokens), k');
  }

  lemma PathFlies(sv: Served, r: Req, k: nat)
    requires Shapes(sv.m) && k > 0 && |r.generated| == k && r.generated == PathAt(sv, r.prompt, k).tokens
    requires RunsPast(sv, r.prompt, r.maxNew, k)
    ensures InFlight(sv, r, Some(PathAt(sv, r.prompt, k).lane))
  {
  }

  lemma InFlightEnds(sv: Served, r: Req, lane: Option<Lane>)
    requires Shapes(sv.m) && InFlight(sv, r, lane) && StopsAt(sv, r.prompt, r.maxNew, |r.generated| + 1)
    ensures PathAt(sv, r.prompt, |r.generated| + 1).tokens == Sequential(sv, r)
  {
    StopIs(sv, r.prompt, r.maxNew, 1, |r.generated| + 1);
  }

  /** It keeps the request on the path, or brings it to the end. */
  lemma MoveFollows(sv: Served, r: Req, lane: Option<Lane>)
    requires Shapes(sv.m) && r.status == Generating && InFlight(sv, r, lane)
    ensures CanMove(sv, r, lane)
    ensures var (r', lane') := Move(sv, r, lane);
            if r'.Finished() then r'.status == Complete && r'.generated == Sequential(sv, r) && lane' == None
            else r'.status == Generating && InFlight(sv, r', lane')
  {
    MoveIsNext(sv, r, lane);
    if StopsAt(sv, r.prompt, r.maxNew, |r.generated| + 1) {
      InFlightEnds(sv, r, lane);
    } else {
      InFlightOn(sv, r, lane);
    }
  }
}
