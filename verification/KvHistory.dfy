/** Reading the cache gives the history of stores: last value stored at a position, zero if there is none. */
module KvHistory {
  import opened Types
  import opened Tensors
  import opened KvModel
  import opened KvInvariants
  import opened KvRefinement
  import opened Arithmetic

  // ----- the reference: a map from positions to the last store, kept by no cache at all -----

  function LastStored(ops: seq<Op>, r: Id, pl: Plane, l: nat, p: nat): Option<Vec> {
    if ops == [] then None
    else
      var n := |ops| - 1;
      var op := ops[n];
      if op.r != r then LastStored(ops[..n], r, pl, l, p)
      else if op.Free? then None
      else if op.Store? && op.stored && op.l == l && op.p == p then Some(if pl.K? then op.k else op.v)
      else LastStored(ops[..n], r, pl, l, p)
  }

  function OrZero(g: Geometry, v: Option<Vec>): Vec { if v.Some? then v.value else g.zero }

  // ----- pages filled in order -----

  predicate PagesOk(g: Geometry, ps: seq<Page>) { forall i :: 0 <= i < |ps| ==> PageOk(g, ps[i]) }

  /** A page with data has only full pages before it. */
  predicate Aligned(g: Geometry, ps: seq<Page>) {
    forall i, j :: 0 <= i < j < |ps| && ps[j].filled > 0 ==> ps[i].filled == g.blockSize
  }

  function Visible(ps: seq<Page>): nat {
    if ps == [] then 0 else Visible(ps[..|ps| - 1]) + ps[|ps| - 1].filled
  }

  lemma {:induction false} VisibleFull(g: Geometry, ps: seq<Page>)
    requires forall i :: 0 <= i < |ps| ==> ps[i].filled == g.blockSize
    ensures Visible(ps) == Position(|ps|, 0, g.blockSize)
  {
    if ps != [] {
      VisibleFull(g, ps[..|ps| - 1]);
    }
  }

  lemma {:induction false} VisibleBound(g: Geometry, ps: seq<Page>)
    requires PagesOk(g, ps)
    ensures Visible(ps) <= Position(|ps|, 0, g.blockSize)
  {
    if ps != [] {
      VisibleBound(g, ps[..|ps| - 1]);
    }
  }

  /** With aligned pages, the visible positions are exactly the filled slots. */
  lemma {:induction false} VisibleSlots(g: Geometry, ps: seq<Page>, i: nat, o: nat)
    requires PagesOk(g, ps) && Aligned(g, ps) && i < |ps| && o < g.blockSize
    ensures Position(i, o, g.blockSize) < Visible(ps) <==> o < ps[i].filled
  {
    var n := |ps| - 1;
    VisibleBound(g, ps[..n]);
    PositionOffset(i, o, g.blockSize);
    if ps[n].filled > 0 {
      VisibleFull(g, ps[..n]);
      if i < n { PositionMonotone(i, n, g.blockSize); }
    } else if i < n {
      VisibleSlots(g, ps[..n], i, o);
    }
  }

  // ----- gathering -----

  function Read(g: Geometry, ps: seq<Page>, pl: Plane, l: nat): seq<Vec>
    requires PagesOk(g, ps) && l < g.layers
  {
    if ps == [] then []
    else var n := |ps| - 1; Read(g, ps[..n], pl, l) + ps[n].block.Rows(pl)[l][..ps[n].filled]
  }

  lemma {:induction false} GatherIsRead(g: Geometry, s: Cache, bs: seq<nat>, pl: Plane, l: nat)
    requires Readable(g, s, bs) && l < g.layers && PagesOk(g, Pages(g, s, bs))
    ensures Gather(g, s, bs, pl, l) == Read(g, Pages(g, s, bs), pl, l)
  {
    if bs != [] {
      var n := |bs| - 1;
      assert Pages(g, s, bs)[..n] == Pages(g, s, bs[..n]);
      GatherIsRead(g, s, bs[..n], pl, l);
    }
  }

  lemma {:induction false} ReadLength(g: Geometry, ps: seq<Page>, pl: Plane, l: nat)
    requires PagesOk(g, ps) && l < g.layers
    ensures |Read(g, ps, pl, l)| == Visible(ps)
  {
    if ps != [] {
      ReadLength(g, ps[..|ps| - 1], pl, l);
    }
  }

  lemma FrontPages(g: Geometry, ps: seq<Page>, n: nat)
    requires PagesOk(g, ps) && Aligned(g, ps) && n + 1 == |ps|
    ensures PagesOk(g, ps[..n]) && Aligned(g, ps[..n])
  {
  }

  lemma {:induction false} ReadSlot(g: Geometry, ps: seq<Page>, pl: Plane, l: nat, i: nat, o: nat, p: nat)
    requires PagesOk(g, ps) && Aligned(g, ps) && l < g.layers && i < |ps| && o < ps[i].filled && p == Position(i, o, g.blockSize)
    ensures p < |Read(g, ps, pl, l)| && Read(g, ps, pl, l)[p] == ps[i].block.At(pl, l, o)
  {
    var n := |ps| - 1;
    ReadSplit(g, ps, pl, l);
    if i < n {
      FrontPages(g, ps, n);
      ReadSlot(g, ps[..n], pl, l, i, o, p);
    } else {
      ReadLast(g, ps, pl, l, n, o, p);
    }
  }

  lemma ReadLast(g: Geometry, ps: seq<Page>, pl: Plane, l: nat, n: nat, o: nat, p: nat)
    requires PagesOk(g, ps) && Aligned(g, ps) && l < g.layers && n + 1 == |ps| && o < ps[n].filled && p == Position(n, o, g.blockSize)
    ensures p < |Read(g, ps, pl, l)| && Read(g, ps, pl, l)[p] == ps[n].block.At(pl, l, o)
  {
    ReadLength(g, ps[..n], pl, l);
    ReadSplit(g, ps, pl, l);
    LastSlot(g, ps, n, o);
  }

  lemma ReadSplit(g: Geometry, ps: seq<Page>, pl: Plane, l: nat)
    requires PagesOk(g, ps) && l < g.layers && ps != []
    ensures var n, front := |ps| - 1, Read(g, ps[..|ps| - 1], pl, l);
            && |Read(g, ps, pl, l)| == |front| + ps[n].filled
            && (forall q :: 0 <= q < |front| ==> Read(g, ps, pl, l)[q] == front[q])
            && (forall o :: 0 <= o < ps[n].filled ==> Read(g, ps, pl, l)[|front| + o] == ps[n].block.At(pl, l, o))
  {
  }

  lemma LastSlot(g: Geometry, ps: seq<Page>, n: nat, o: nat)
    requires PagesOk(g, ps) && Aligned(g, ps) && n + 1 == |ps| && o < ps[n].filled
    ensures PagesOk(g, ps[..n]) && Position(n, o, g.blockSize) == Visible(ps[..n]) + o
  {
    VisibleFull(g, ps[..n]);
    PositionOffset(n, o, g.blockSize);
  }

  /** The gathered tensor holds position p at index p: addressing by division and remainder is sound. */
  lemma ReadAt(g: Geometry, ps: seq<Page>, pl: Plane, l: nat, p: nat)
    requires PagesOk(g, ps) && Aligned(g, ps) && l < g.layers && p < Visible(ps)
    ensures |Read(g, ps, pl, l)| == Visible(ps) && Quot(p, g.blockSize) < |ps|
    ensures Read(g, ps, pl, l)[p] == ps[Quot(p, g.blockSize)].block.At(pl, l, Rem(p, g.blockSize))
  {
    ReadLength(g, ps, pl, l);
    PartsPosition(p, g.blockSize);
    var i, o := Quot(p, g.blockSize), Rem(p, g.blockSize);
    VisibleBound(g, ps);
    QuotBelow(p, |ps|, g.blockSize);
    VisibleSlots(g, ps, i, o);
    ReadSlot(g, ps, pl, l, i, o, p);
  }

  // ----- the relation kept between pages and history -----

  function Image(h: Holding): seq<Block> {
    match h
    case Absent => []
    case Resident(ps) => Blocks(ps)
    case Swapped(data) => data
  }

  predicate Fitting(g: Geometry, img: seq<Block>) { forall i :: 0 <= i < |img| ==> img[i].Fits(g) }

  function Slot(g: Geometry, img: seq<Block>, pl: Plane, l: nat, p: nat): Vec
    requires Fitting(g, img) && l < g.layers
  {
    if Quot(p, g.blockSize) < |img| then img[Quot(p, g.blockSize)].At(pl, l, Rem(p, g.blockSize)) else g.zero
  }

  /** How far stores may have reached: the visible length, or everything once swapped out. */
  function Extent(g: Geometry, h: Holding): nat {
    match h
    case Absent => 0
    case Resident(ps) => Visible(ps)
    case Swapped(data) => Position(|data|, 0, g.blockSize)
  }

  ghost predicate Tracks(g: Geometry, h: Holding, ops: seq<Op>, r: Id) {
    && HoldOk(g, h) && (h.Resident? ==> Aligned(g, h.pages))
    && forall pl, l, p: nat :: 0 <= l < g.layers ==>
         && Slot(g, Image(h), pl, l, p) == OrZero(g, LastStored(ops, r, pl, l, p))
         && (LastStored(ops, r, pl, l, p).Some? ==> p < Extent(g, h))
  }

  /** Position order: a store rewrites a visible position or appends the next one. */
  predicate InOrder(h: Holding, op: Op) {
    op.Store? && h.Resident? ==> op.p <= Visible(h.pages)
  }

  lemma GrowPages(g: Geometry, ps: seq<Page>, n: nat)
    requires PagesOk(g, ps) && Aligned(g, ps)
    ensures PagesOk(g, ps + Fresh(g, n)) && Aligned(g, ps + Fresh(g, n))
    ensures Visible(ps + Fresh(g, n)) == Visible(ps)
  {
    assert PageOk(g, Page(0, ZeroBlock(g)));
    VisibleGrown(g, ps, n);
  }

  lemma {:induction false} VisibleGrown(g: Geometry, ps: seq<Page>, n: nat)
    ensures Visible(ps + Fresh(g, n)) == Visible(ps)
  {
    if n == 0 {
      assert ps + Fresh(g, n) == ps;
    } else {
      VisibleGrown(g, ps, n - 1);
      assert (ps + Fresh(g, n))[..|ps| + n - 1] == ps + Fresh(g, n - 1);
    }
  }

  lemma GrowTracks(g: Geometry, h: Holding, ops: seq<Op>, r: Id, n: nat)
    requires Tracks(g, h, ops, r) && !h.Swapped?
    ensures Tracks(g, Grow(g, h, n), ops, r)
  {
    GrowPages(g, PagesOf(h), n);
    var h' := Grow(g, h, n);
    forall pl, l, p: nat | 0 <= l < g.layers ensures Slot(g, Image(h'), pl, l, p) == Slot(g, Image(h), pl, l, p) {
      GrowSlot(g, h, n, pl, l, p);
    }
    GrowExtent(g, h, n);
    TracksSame(g, h, h', ops, r);
  }

  lemma GrowSlot(g: Geometry, h: Holding, n: nat, pl: Plane, l: nat, p: nat)
    requires HoldOk(g, h) && HoldOk(g, Grow(g, h, n)) && !h.Swapped? && l < g.layers
    ensures Slot(g, Image(Grow(g, h, n)), pl, l, p) == Slot(g, Image(h), pl, l, p)
  {
    var ps, qs := PagesOf(h), PagesOf(h) + Fresh(g, n);
    assert Image(h) == Blocks(ps) && Image(Grow(g, h, n)) == Blocks(qs);
    PartsPosition(p, g.blockSize);
  }

  lemma GrowExtent(g: Geometry, h: Holding, n: nat)
    requires !h.Swapped?
    ensures Extent(g, Grow(g, h, n)) == Extent(g, h)
  {
    VisibleGrown(g, PagesOf(h), n);
  }

  /** What a holding shows decides what it tracks. */
  lemma TracksSame(g: Geometry, h: Holding, h': Holding, ops: seq<Op>, r: Id)
    requires Tracks(g, h, ops, r) && HoldOk(g, h') && (h'.Resident? ==> Aligned(g, h'.pages)) && Extent(g, h') >= Extent(g, h)
    requires forall pl, l, p: nat :: 0 <= l < g.layers ==> Slot(g, Image(h'), pl, l, p) == Slot(g, Image(h), pl, l, p)
    ensures Tracks(g, h', ops, r)
  {
  }

  lemma StoreInOk(g: Geometry, ps: seq<Page>, l: nat, p: nat, k: Vec, v: Vec)
    requires PagesOk(g, ps) && Quot(p, g.blockSize) < |ps| && l < g.layers
    ensures PagesOk(g, StoreIn(g, ps, l, p, k, v))
  {
    var i, o := Quot(p, g.blockSize), Rem(p, g.blockSize);
    var pg := StoreIn(g, ps, l, p, k, v)[i];
    assert PageOk(g, ps[i]);
    PutAt(g, ps[i].block, l, o, k, v, K, l, o);
    forall pl, l', o' | 0 <= l' < g.layers && 0 <= o' < g.blockSize
      ensures pg.block.At(pl, l', o') == if l' == l && o' == o then (if pl.K? then k else v) else ps[i].block.At(pl, l', o')
    {
      PutAt(g, ps[i].block, l, o, k, v, pl, l', o');
    }
    assert PageOk(g, pg);
  }

  /** When p is the next position, its page holds data exactly up to p and all pages before are full. */
  lemma FullBefore(g: Geometry, ps: seq<Page>, i: nat, o: nat, j: nat)
    requires PagesOk(g, ps) && Aligned(g, ps) && j < i < |ps| && Position(i, o, g.blockSize) == Visible(ps)
    ensures ps[j].filled == g.blockSize
  {
    VisibleSlots(g, ps, j, g.blockSize - 1);
    PositionOffset(j, g.blockSize - 1, g.blockSize);
    PositionMonotone(j, i, g.blockSize);
    PositionOffset(i, o, g.blockSize);
  }

  lemma NextSlot(g: Geometry, ps: seq<Page>, i: nat, o: nat)
    requires PagesOk(g, ps) && Aligned(g, ps) && i < |ps| && o < g.blockSize && Position(i, o, g.blockSize) == Visible(ps)
    ensures ps[i].filled == o
    ensures forall j :: 0 <= j < i ==> ps[j].filled == g.blockSize
    ensures forall j :: i < j < |ps| ==> ps[j].filled == 0
  {
    SlotFill(g, ps, i, o);
    forall j | 0 <= j < i ensures ps[j].filled == g.blockSize { FullBefore(g, ps, i, o, j); }
  }

  lemma SlotFill(g: Geometry, ps: seq<Page>, i: nat, o: nat)
    requires PagesOk(g, ps) && Aligned(g, ps) && i < |ps| && o < g.blockSize && Position(i, o, g.blockSize) == Visible(ps)
    ensures ps[i].filled == o
  {
    VisibleSlots(g, ps, i, o);
    if o > 0 { SlotBefore(g, ps, i, o - 1); }
  }

  lemma SlotBefore(g: Geometry, ps: seq<Page>, i: nat, o: nat)
    requires PagesOk(g, ps) && Aligned(g, ps) && i < |ps| && o + 1 < g.blockSize && Position(i, o + 1, g.blockSize) == Visible(ps)
    ensures o < ps[i].filled
  {
    VisibleSlots(g, ps, i, o);
    PositionOffset(i, o, g.blockSize);
    PositionOffset(i, o + 1, g.blockSize);
  }

  /** Storing in order at p keeps the pages aligned and makes p visible. */
  lemma StoreInPages(g: Geometry, ps: seq<Page>, l: nat, p: nat, k: Vec, v: Vec)
    requires PagesOk(g, ps) && Aligned(g, ps) && p <= Visible(ps) && Quot(p, g.blockSize) < |ps| && l < g.layers
    ensures var ps' := StoreIn(g, ps, l, p, k, v);
            PagesOk(g, ps') && Aligned(g, ps') && Visible(ps') == Max(Visible(ps), p + 1)
  {
    var i, o := Quot(p, g.blockSize), Rem(p, g.blockSize);
    var ps' := StoreIn(g, ps, l, p, k, v);
    PartsPosition(p, g.blockSize);
    StoreInOk(g, ps, l, p, k, v);
    if p == Visible(ps) {
      NextSlot(g, ps, i, o);
    } else {
      VisibleSlots(g, ps, i, o);
    }
    VisibleUpdate(ps, i, ps'[i]);
  }

  lemma {:induction false} VisibleUpdate(ps: seq<Page>, i: nat, pg: Page)
    requires i < |ps|
    ensures Visible(ps[i := pg]) == Visible(ps) - ps[i].filled + pg.filled
  {
    var n := |ps| - 1;
    if i == n {
      assert ps[i := pg][..n] == ps[..n];
    } else {
      assert ps[i := pg][..n] == ps[..n][i := pg];
      VisibleUpdate(ps[..n], i, pg);
    }
  }

  /** A store changes the slot of its position and no other. */
  lemma StoreSlot(g: Geometry, ps: seq<Page>, l0: nat, p0: nat, k: Vec, v: Vec, pl: Plane, l: nat, p: nat)
    requires PagesOk(g, ps) && Quot(p0, g.blockSize) < |ps| && l0 < g.layers && l < g.layers
    requires PagesOk(g, StoreIn(g, ps, l0, p0, k, v))
    ensures Slot(g, Blocks(StoreIn(g, ps, l0, p0, k, v)), pl, l, p)
            == if l == l0 && p == p0 then (if pl.K? then k else v) else Slot(g, Blocks(ps), pl, l, p)
  {
    var i := Quot(p0, g.blockSize);
    PartsPosition(p, g.blockSize);
    PartsPosition(p0, g.blockSize);
    if Quot(p, g.blockSize) == i {
      PutAt(g, ps[i].block, l0, Rem(p0, g.blockSize), k, v, pl, l, Rem(p, g.blockSize));
    }
  }

  lemma StoreTracks(g: Geometry, h: Holding, ops: seq<Op>, op: Op)
    requires Tracks(g, h, ops, op.r) && op.Store? && op.stored && h.Resident?
    requires op.l < g.layers && Quot(op.p, g.blockSize) < |h.pages| && op.p <= Visible(h.pages)
    ensures Tracks(g, Resident(StoreIn(g, h.pages, op.l, op.p, op.k, op.v)), ops + [op], op.r)
  {
    StoreInPages(g, h.pages, op.l, op.p, op.k, op.v);
    var h' := Resident(StoreIn(g, h.pages, op.l, op.p, op.k, op.v));
    forall pl, l, p: nat | 0 <= l < g.layers
      ensures Slot(g, Image(h'), pl, l, p) == OrZero(g, LastStored(ops + [op], op.r, pl, l, p))
      ensures LastStored(ops + [op], op.r, pl, l, p).Some? ==> p < Extent(g, h')
    {
      assert (ops + [op])[..|ops|] == ops;
      StoreSlot(g, h.pages, op.l, op.p, op.k, op.v, pl, l, p);
    }
  }

  lemma SwapTracks(g: Geometry, h: Holding, ops: seq<Op>, r: Id)
    requires Tracks(g, h, ops, r)
    ensures h.Resident? && h.pages != [] ==> Tracks(g, Swapped(Blocks(h.pages)), ops, r)
    ensures h.Swapped? ==> Tracks(g, Resident(Full(g, h.data)), ops, r)
  {
    if h.Resident? {
      VisibleBound(g, h.pages);
    }
    if h.Swapped? {
      VisibleFull(g, Full(g, h.data));
      assert Blocks(Full(g, h.data)) == h.data;
    }
  }

  /** Any allowed, in-order operation on r carries the relation along. */
  lemma StepTracks(g: Geometry, h: Holding, ops: seq<Op>, op: Op)
    requires Tracks(g, h, ops, op.r) && InOrder(h, op) && (op.Store? ==> StoreReaches(g, h, op))
    requires op.Allocate? || op.Extend? || op.Store? ==> !h.Swapped?
    ensures Tracks(g, HoldStep(g, h, op), ops + [op], op.r)
  {
    assert (ops + [op])[..|ops|] == ops;
    if op.Free? {
    } else if op.Store? {
      var h' := if op.blocks == [] then h else Grow(g, h, |op.blocks|);
      if op.blocks != [] {
        GrowTracks(g, h, ops, op.r, |op.blocks|);
        GrowPages(g, PagesOf(h), |op.blocks|);
      }
      if op.stored {
        StoreTracks(g, h', ops, op);
      } else {
        SameHistory(g, h', ops, op);
      }
    } else {
      if op.Allocate? || op.Extend? { GrowTracks(g, h, ops, op.r, |op.blocks|); }
      if op.SwapOut? || op.SwapIn? { SwapTracks(g, h, ops, op.r); }
      SameHistory(g, HoldStep(g, h, op), ops, op);
    }
  }

  lemma SameHistory(g: Geometry, h: Holding, ops: seq<Op>, op: Op)
    requires Tracks(g, h, ops, op.r) && !op.Free? && (op.Store? ==> !op.stored)
    ensures Tracks(g, h, ops + [op], op.r)
  {
    assert (ops + [op])[..|ops|] == ops;
    assert forall pl, l, p :: LastStored(ops + [op], op.r, pl, l, p) == LastStored(ops, op.r, pl, l, p);
  }

  lemma OtherHistory(g: Geometry, h: Holding, ops: seq<Op>, op: Op, r: Id)
    requires Tracks(g, h, ops, r) && op.r != r
    ensures Tracks(g, h, ops + [op], r)
  {
    assert (ops + [op])[..|ops|] == ops;
    assert forall pl, l, p :: LastStored(ops + [op], r, pl, l, p) == LastStored(ops, r, pl, l, p);
  }

  // ----- whole runs -----

  ghost predicate FillsInOrder(g: Geometry, s: Cache, ops: seq<Op>)
    requires Runs(g, s, ops)
    decreases |ops|
  {
    ops == [] || (InPool(s, Table(s, ops[0].r)) && InOrder(Hold(g, s, ops[0].r), ops[0])
                  && FillsInOrder(g, Apply(g, s, ops[0]), ops[1..]))
  }

  lemma OneStep(g: Geometry, s: Cache, before: seq<Op>, op: Op, r: Id)
    requires Valid(g, s) && Disciplined(s) && Enabled(g, s, op) && Allowed(s, op)
    requires InPool(s, Table(s, op.r)) && InOrder(Hold(g, s, op.r), op)
    requires InPool(s, Table(s, r)) && Tracks(g, Hold(g, s, r), before, r)
    ensures InPool(Apply(g, s, op), Table(Apply(g, s, op), r))
    ensures Tracks(g, Hold(g, Apply(g, s, op), r), before + [op], r)
  {
    if op.r == r {
      PagesRefined(g, s, op);
      StepTracks(g, Hold(g, s, r), before, op);
    } else {
      OthersUntouched(g, s, op, r);
      OtherHistory(g, Hold(g, s, r), before, op, r);
    }
  }

  lemma Shift<T>(a: seq<T>, b: seq<T>)
    requires b != []
    ensures (a + [b[0]]) + b[1..] == a + b
  {
  }

  lemma {:induction false} RunTracks(g: Geometry, s: Cache, before: seq<Op>, ops: seq<Op>, r: Id)
    requires Valid(g, s) && Disciplined(s) && Runs(g, s, ops) && FillsInOrder(g, s, ops)
    requires InPool(s, Table(s, r)) && Tracks(g, Hold(g, s, r), before, r)
    ensures InPool(After(g, s, ops), Table(After(g, s, ops), r))
    ensures Tracks(g, Hold(g, After(g, s, ops), r), before + ops, r)
    decreases |ops|
  {
    if ops == [] {
      assert before + ops == before;
    } else {
      StepDisciplined(g, s, ops[0]);
      OneStep(g, s, before, ops[0], r);
      RunTracks(g, Apply(g, s, ops[0]), before + [ops[0]], ops[1..], r);
      Shift(before, ops);
    }
  }

  /** Under any interleaving of all requests, a read returns the last stored pair at each position, or zero. */
  lemma CacheIsMap(g: Geometry, ops: seq<Op>, r: Id, l: nat)
    requires l < g.layers && Runs(g, Init(g), ops) && FillsInOrder(g, Init(g), ops)
    ensures Readable(g, After(g, Init(g), ops), Table(After(g, Init(g), ops), r))
    ensures ReadsHistory(g, After(g, Init(g), ops), ops, r, l)
  {
    InitValid(g);
    assert Tracks(g, Hold(g, Init(g), r), [], r);
    ReachableValid(g, Init(g), ops);
    RunTracks(g, Init(g), [], ops, r);
    assert [] + ops == ops;
    TrackedReads(g, After(g, Init(g), ops), ops, r, l);
  }

  /** Every index of a read holds the last store at that position, and every store is visible while resident. */
  ghost predicate ReadsHistory(g: Geometry, s: Cache, ops: seq<Op>, r: Id, l: nat)
    requires l < g.layers && Readable(g, s, Table(s, r))
  {
    var out := GetKv(g, s, r, l);
    && (out.Some? ==>
         && |out.value.0| == |out.value.1|
         && forall p :: 0 <= p < |out.value.0| ==>
              && out.value.0[p] == OrZero(g, LastStored(ops, r, K, l, p))
              && out.value.1[p] == OrZero(g, LastStored(ops, r, V, l, p)))
    && (forall pl, p: nat :: LastStored(ops, r, pl, l, p).Some? && r !in s.swap ==> out.Some? && p < |out.value.0|)
  }

  lemma TrackedReads(g: Geometry, s: Cache, ops: seq<Op>, r: Id, l: nat)
    requires l < g.layers && Valid(g, s) && Disciplined(s)
    requires InPool(s, Table(s, r)) && Tracks(g, Hold(g, s, r), ops, r)
    ensures Readable(g, s, Table(s, r)) && ReadsHistory(g, s, ops, r, l)
  {
    TableInPool(g, s, r);
    if r !in s.swap && r in s.tables {
      ReadTracked(g, s, r, l, K, ops);
      ReadTracked(g, s, r, l, V, ops);
    }
  }

  lemma ReadTracked(g: Geometry, s: Cache, r: Id, l: nat, pl: Plane, ops: seq<Op>)
    requires l < g.layers && Valid(g, s) && r !in s.swap && r in s.tables
    requires InPool(s, Table(s, r)) && Tracks(g, Hold(g, s, r), ops, r) && Readable(g, s, Table(s, r))
    ensures var out := Gather(g, s, Table(s, r), pl, l);
            && |out| == Visible(Pages(g, s, Table(s, r)))
            && forall p :: 0 <= p < |out| ==> out[p] == OrZero(g, LastStored(ops, r, pl, l, p))
  {
    var ps := Pages(g, s, Table(s, r));
    GatherIsRead(g, s, Table(s, r), pl, l);
    ReadLength(g, ps, pl, l);
    forall p | 0 <= p < Visible(ps)
      ensures Read(g, ps, pl, l)[p] == OrZero(g, LastStored(ops, r, pl, l, p))
    {
      ReadAt(g, ps, pl, l, p);
      assert Slot(g, Blocks(ps), pl, l, p) == ps[Quot(p, g.blockSize)].block.At(pl, l, Rem(p, g.blockSize));
    }
  }

  /** Operations on one request never change what another reads. */
  lemma ReadsUntouched(g: Geometry, s: Cache, op: Op, q: Id, l: nat)
    requires Valid(g, s) && Enabled(g, s, op) && q != op.r && l < g.layers
    ensures Readable(g, s, Table(s, q)) && Readable(g, Apply(g, s, op), Table(Apply(g, s, op), q))
    ensures GetKv(g, Apply(g, s, op), q, l) == GetKv(g, s, q, l)
  {
    OthersUntouched(g, s, op, q);
    TableInPool(g, s, q);
    var s', t := Apply(g, s, op), Table(s, q);
    forall i | 0 <= i < |t|
      ensures PageOk(g, Pages(g, s, t)[i])
      ensures s'.pool[t[i]] == s.pool[t[i]] && FillOf(g, s', t[i]) == FillOf(g, s, t[i])
    {
      assert Owns(s, q, t[i]);
      assert Pages(g, s', t)[i] == Pages(g, s, t)[i];
    }
    GatherIsRead(g, s, t, K, l);
    GatherIsRead(g, s', t, K, l);
    GatherIsRead(g, s, t, V, l);
    GatherIsRead(g, s', t, V, l);
  }
}
