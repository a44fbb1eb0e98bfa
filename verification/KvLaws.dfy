/** Swapping is a round trip across relocation; filling in order never runs past the table. */
module KvLaws {
  import opened Types
  import opened Tensors
  import opened Arithmetic
  import opened KvModel
  import opened KvInvariants
  import opened KvRefinement
  import opened KvHistory

  // ----- swap round trip -----

  lemma {:induction false} UntouchedByRun(g: Geometry, s: Cache, ops: seq<Op>, r: Id)
    requires Valid(g, s) && Disciplined(s) && Runs(g, s, ops) && forall i :: 0 <= i < |ops| ==> ops[i].r != r
    ensures Valid(g, After(g, s, ops)) && Disciplined(After(g, s, ops))
    ensures InPool(s, Table(s, r)) && InPool(After(g, s, ops), Table(After(g, s, ops), r))
    ensures Hold(g, After(g, s, ops), r) == Hold(g, s, r)
    decreases |ops|
  {
    TableInPool(g, s, r);
    if ops != [] {
      UntouchedByOne(g, s, ops[0], r);
      UntouchedByRun(g, Apply(g, s, ops[0]), ops[1..], r);
    }
  }

  lemma UntouchedByOne(g: Geometry, s: Cache, op: Op, r: Id)
    requires Valid(g, s) && Disciplined(s) && Enabled(g, s, op) && Allowed(s, op) && op.r != r
    ensures Valid(g, Apply(g, s, op)) && Disciplined(Apply(g, s, op))
    ensures InPool(s, Table(s, r)) && InPool(Apply(g, s, op), Table(Apply(g, s, op), r))
    ensures Hold(g, Apply(g, s, op), r) == Hold(g, s, r)
  {
    OthersUntouched(g, s, op, r);
    StepDisciplined(g, s, op);
  }

  function Zeros(g: Geometry, n: nat): (z: seq<Vec>)
    ensures |z| == n
  {
    seq(n, _ => g.zero)
  }

  /** What a read returns once every page counts as full: each page's data followed by zeros. */
  function Padded(g: Geometry, ps: seq<Page>, pl: Plane, l: nat): seq<Vec>
    requires PagesOk(g, ps) && l < g.layers
  {
    if ps == [] then []
    else
      var n := |ps| - 1;
      Padded(g, ps[..n], pl, l) + ps[n].block.Rows(pl)[l][..ps[n].filled] + Zeros(g, g.blockSize - ps[n].filled)
  }

  lemma RowPadded(g: Geometry, pg: Page, pl: Plane, l: nat)
    requires PageOk(g, pg) && l < g.layers
    ensures |pg.block.Rows(pl)[l]| == g.blockSize
    ensures pg.block.Rows(pl)[l] == pg.block.Rows(pl)[l][..pg.filled] + Zeros(g, g.blockSize - pg.filled)
    ensures PageOk(g, Page(g.blockSize, pg.block))
  {
    var row := pg.block.Rows(pl)[l];
    assert |row| == g.blockSize;
    assert forall o :: pg.filled <= o < g.blockSize ==> row[o] == pg.block.At(pl, l, o) == g.zero;
  }

  lemma {:induction false} FullIsPadded(g: Geometry, ps: seq<Page>, pl: Plane, l: nat)
    requires PagesOk(g, ps) && l < g.layers
    ensures PagesOk(g, Full(g, Blocks(ps)))
    ensures Read(g, Full(g, Blocks(ps)), pl, l) == Padded(g, ps, pl, l)
  {
    if ps != [] {
      var n := |ps| - 1;
      FullIsPadded(g, ps[..n], pl, l);
      RowPadded(g, ps[n], pl, l);
      var full := Full(g, Blocks(ps));
      assert full[..n] == Full(g, Blocks(ps[..n]));
      assert full[n] == Page(g.blockSize, ps[n].block);
      assert forall i :: 0 <= i < n ==> full[i] == full[..n][i];
      var row := ps[n].block.Rows(pl)[l];
      assert row[..g.blockSize] == row;
      Assoc(Read(g, full[..n], pl, l), row[..ps[n].filled], Zeros(g, g.blockSize - ps[n].filled));
    }
  }

  /** r swaps out of s, others work, r swaps back in onto the given blocks. */
  ghost predicate SwapCycle(g: Geometry, s: Cache, r: Id, ops: seq<Op>, blocks: seq<nat>) {
    && Valid(g, s) && Disciplined(s) && Table(s, r) != []
    && Runs(g, Apply(g, s, SwapOut(r)), ops) && (forall i :: 0 <= i < |ops| ==> ops[i].r != r)
    && var s2 := After(g, Apply(g, s, SwapOut(r)), ops);
    SwapInFits(s2, r) && Picked(s2, blocks, |s2.swap[r]|)
  }

  ghost function Returned(g: Geometry, s: Cache, r: Id, ops: seq<Op>, blocks: seq<nat>): Cache
    requires SwapCycle(g, s, r, ops, blocks)
  {
    var s1 := Apply(g, s, SwapOut(r));
    StepDisciplined(g, s, SwapOut(r));
    ReachableValid(g, s1, ops);
    Apply(g, After(g, s1, ops), SwapIn(r, blocks))
  }

  /** Out, any work by others, and back in: the same pages in logical order, on whatever blocks were free. */
  lemma SwapRoundTrip(g: Geometry, s: Cache, r: Id, ops: seq<Op>, blocks: seq<nat>)
    requires SwapCycle(g, s, r, ops, blocks)
    ensures InPool(s, Table(s, r))
    ensures var s3 := Returned(g, s, r, ops, blocks);
            && Valid(g, s3) && Disciplined(s3) && Table(s3, r) == blocks && r !in s3.swap && InPool(s3, blocks)
            && Pages(g, s3, blocks) == Full(g, Blocks(Pages(g, s, Table(s, r))))
  {
    var s1 := Apply(g, s, SwapOut(r));
    PagesRefined(g, s, SwapOut(r));
    StepDisciplined(g, s, SwapOut(r));
    UntouchedByRun(g, s1, ops, r);
    var s2 := After(g, s1, ops);
    PagesRefined(g, s2, SwapIn(r, blocks));
    StepDisciplined(g, s2, SwapIn(r, blocks));
  }

  /** A later read returns each page's old filled data followed by zeros up to the block size. */
  lemma SwapRoundTripRead(g: Geometry, s: Cache, r: Id, ops: seq<Op>, blocks: seq<nat>, l: nat)
    requires SwapCycle(g, s, r, ops, blocks) && l < g.layers
    ensures InPool(s, Table(s, r)) && PagesOk(g, Pages(g, s, Table(s, r)))
    ensures var s3, ps := Returned(g, s, r, ops, blocks), Pages(g, s, Table(s, r));
            && Readable(g, s3, Table(s3, r))
            && GetKv(g, s3, r, l) == Some((Padded(g, ps, K, l), Padded(g, ps, V, l)))
  {
    SwapRoundTrip(g, s, r, ops, blocks);
    var s3 := Returned(g, s, r, ops, blocks);
    TableInPool(g, s3, r);
    PagesAreOk(g, s, r);
    PagesAreOk(g, s3, r);
    var ps := Pages(g, s, Table(s, r));
    FullIsPadded(g, ps, K, l);
    FullIsPadded(g, ps, V, l);
    GatherIsRead(g, s3, blocks, K, l);
    GatherIsRead(g, s3, blocks, V, l);
  }

  lemma PagesAreOk(g: Geometry, s: Cache, r: Id)
    requires Valid(g, s)
    ensures InPool(s, Table(s, r)) && PagesOk(g, Pages(g, s, Table(s, r)))
  {
    TableInPool(g, s, r);
  }

  /** For data filled in order, the swapped-back read is the old read with zeros appended. */
  lemma {:induction false} PaddedInOrder(g: Geometry, ps: seq<Page>, pl: Plane, l: nat)
    requires PagesOk(g, ps) && Aligned(g, ps) && l < g.layers
    ensures Visible(ps) <= Position(|ps|, 0, g.blockSize)
    ensures Padded(g, ps, pl, l)
            == Read(g, ps, pl, l) + Zeros(g, Position(|ps|, 0, g.blockSize) - Visible(ps))
  {
    VisibleBound(g, ps);
    if ps != [] {
      PaddedInOrder(g, ps[..|ps| - 1], pl, l);
      PaddedLastPage(g, ps, pl, l);
    }
  }

  lemma PaddedLastPage(g: Geometry, ps: seq<Page>, pl: Plane, l: nat)
    requires PagesOk(g, ps) && Aligned(g, ps) && l < g.layers && ps != []
    requires var n, front := |ps| - 1, ps[..|ps| - 1];
             && Visible(front) <= Position(n, 0, g.blockSize)
             && Padded(g, front, pl, l) == Read(g, front, pl, l) + Zeros(g, Position(n, 0, g.blockSize) - Visible(front))
    ensures Visible(ps) <= Position(|ps|, 0, g.blockSize)
    ensures Padded(g, ps, pl, l)
            == Read(g, ps, pl, l) + Zeros(g, Position(|ps|, 0, g.blockSize) - Visible(ps))
  {
    VisibleBound(g, ps);
    var n := |ps| - 1;
    var front, f := Read(g, ps[..n], pl, l), ps[n].filled;
    var row := ps[n].block.Rows(pl)[l][..f];
    if f > 0 {
      VisibleFull(g, ps[..n]);
      assert front + Zeros(g, 0) == front;
    } else {
      assert row == [];
      ZerosJoin(g, front, Position(n, 0, g.blockSize) - Visible(ps[..n]), g.blockSize);
    }
  }

  lemma ZerosJoin(g: Geometry, front: seq<Vec>, a: nat, b: nat)
    ensures (front + Zeros(g, a)) + [] + Zeros(g, b) == front + [] + Zeros(g, a + b)
  {
  }

  // ----- room for the next token -----

  /** Slots of r's table, and positions already visible in it. */
  function Capacity(g: Geometry, s: Cache, r: Id): nat { Position(|Table(s, r)|, 0, g.blockSize) }

  function Filled(g: Geometry, s: Cache, r: Id): nat
    requires InPool(s, Table(s, r))
  {
    Visible(Pages(g, s, Table(s, r)))
  }

  ghost predicate InOrderSoFar(g: Geometry, s: Cache, r: Id) {
    Valid(g, s) && r !in s.swap && InPool(s, Table(s, r)) && Aligned(g, Pages(g, s, Table(s, r)))
  }

  /** Every reachable cache filled in order is in order for each resident request. */
  lemma ReachableInOrder(g: Geometry, ops: seq<Op>, r: Id)
    requires Runs(g, Init(g), ops) && FillsInOrder(g, Init(g), ops) && r !in After(g, Init(g), ops).swap
    ensures InOrderSoFar(g, After(g, Init(g), ops), r)
  {
    InitValid(g);
    assert Tracks(g, Hold(g, Init(g), r), [], r);
    ReachableValid(g, Init(g), ops);
    RunTracks(g, Init(g), [], ops, r);
  }

  lemma FilledWithin(g: Geometry, s: Cache, r: Id)
    requires InOrderSoFar(g, s, r)
    ensures Filled(g, s, r) <= Capacity(g, s, r)
    ensures Filled(g, s, r) == Capacity(g, s, r) <==>
            Table(s, r) == [] || Pages(g, s, Table(s, r))[|Table(s, r)| - 1].filled == g.blockSize
  {
    PagesAreOk(g, s, r);
    var ps := Pages(g, s, Table(s, r));
    VisibleBound(g, ps);
    if ps != [] {
      var n := |ps| - 1;
      VisibleBound(g, ps[..n]);
      if ps[n].filled == g.blockSize { VisibleFull(g, ps[..n]); }
    }
  }

  /** extend(r, k), when it does not run out of memory, leaves room for k more tokens exactly when the last
      block had that much room, or it was full and k fits one block, or r had no block at all. */
  lemma ExtendRoom(g: Geometry, s: Cache, r: Id, k: nat, blocks: seq<nat>)
    requires InOrderSoFar(g, s, r) && Enabled(g, s, Extend(r, k, blocks))
    requires ExtendDemand(g, s, r, k).Some? ==> !Fails(g, s, ExtendDemand(g, s, r, k).value)
    ensures var s', n, c := Apply(g, s, Extend(r, k, blocks)), Filled(g, s, r), Capacity(g, s, r);
            && InPool(s', Table(s', r)) && Filled(g, s', r) == n
            && (n + k <= Capacity(g, s', r) <==> n + k <= c || (n == c && (c == 0 || k <= g.blockSize)))
  {
    LastPage(g, s, r);
    FilledWithin(g, s, r);
    if Table(s, r) == [] {
      FirstBlocks(g, s, r, k, blocks);
    } else if ExtendDemand(g, s, r, k).Some? {
      OneMoreBlock(g, s, r, k, blocks);
    }
  }

  /** Handing out blocks changes no fill mark. */
  lemma GrownFill(g: Geometry, s: Cache, r: Id, blocks: seq<nat>)
    requires InOrderSoFar(g, s, r) && Picked(s, blocks, |blocks|)
    ensures var s' := AllocateTo(s, r, blocks);
            Table(s', r) == Table(s, r) + blocks && InPool(s', Table(s', r)) && Filled(g, s', r) == Filled(g, s, r)
  {
    AllocateHolds(g, s, r, blocks);
    PagesAreOk(g, s, r);
    GrowPages(g, Pages(g, s, Table(s, r)), |blocks|);
    GrownPages(g, s, r, blocks);
  }

  lemma GrownPages(g: Geometry, s: Cache, r: Id, blocks: seq<nat>)
    requires Valid(g, s) && Picked(s, blocks, |blocks|) && InPool(s, Table(s, r))
    requires InPool(AllocateTo(s, r, blocks), Table(s, r) + blocks)
    ensures Pages(g, AllocateTo(s, r, blocks), Table(s, r) + blocks) == Pages(g, s, Table(s, r)) + Fresh(g, |blocks|)
  {
    assert forall i :: 0 <= i < |Table(s, r)| ==> Owns(s, r, Table(s, r)[i]);
  }

  /** A request without blocks gets the fewest that hold k tokens. */
  lemma FirstBlocks(g: Geometry, s: Cache, r: Id, k: nat, blocks: seq<nat>)
    requires InOrderSoFar(g, s, r) && Table(s, r) == [] && Enabled(g, s, Extend(r, k, blocks)) && !Fails(g, s, k)
    ensures var s' := Apply(g, s, Extend(r, k, blocks));
            && InPool(s', Table(s', r)) && Filled(g, s', r) == Filled(g, s, r) == 0 && Capacity(g, s, r) == 0
            && k <= Capacity(g, s', r)
  {
    GrownFill(g, s, r, blocks);
    assert [] + blocks == blocks;
    CeilLeast(k, g.blockSize, |blocks|);
  }

  lemma OneMoreBlock(g: Geometry, s: Cache, r: Id, k: nat, blocks: seq<nat>)
    requires InOrderSoFar(g, s, r) && Table(s, r) != [] && Enabled(g, s, Extend(r, k, blocks))
    requires ExtendDemand(g, s, r, k).Some? && !Fails(g, s, ExtendDemand(g, s, r, k).value)
    ensures var s' := Apply(g, s, Extend(r, k, blocks));
            && InPool(s', Table(s', r)) && Filled(g, s', r) == Filled(g, s, r)
            && Capacity(g, s', r) == Capacity(g, s, r) + g.blockSize
  {
    OneBlock(g, g.blockSize);
    GrownFill(g, s, r, blocks);
    var n, n' := |Table(s, r)|, |Table(s, r) + blocks|;
    assert n' == n + 1;
    assert Position(n', 0, g.blockSize) == g.blockSize + Position(n, 0, g.blockSize);
  }

  /** One block of two slots with one token in it. */
  function HalfFull(g: Geometry, r: Id, k: Vec, v: Vec): seq<Op> {
    [Allocate(r, 1, [0]), Store(r, 0, 0, k, v, [], true)]
  }

  lemma AllocateOne(g: Geometry, s: Cache, r: Id, b: nat)
    requires Valid(g, s) && Disciplined(s) && Table(s, r) == [] && r !in s.swap && b in s.free
    ensures var op := Allocate(r, 1, [b]);
            && Enabled(g, s, op) && Allowed(s, op)
            && var s' := Apply(g, s, op);
               Valid(g, s') && Disciplined(s') && Table(s', r) == [b] && b in s'.meta && s'.meta[b].filled == 0 && r !in s'.swap
  {
    OneBlock(g, 1);
    SubsetCount({b}, s.free);
    StepDisciplined(g, s, Allocate(r, 1, [b]));
  }

  lemma StoreFirst(g: Geometry, s: Cache, r: Id, b: nat, k: Vec, v: Vec)
    requires Valid(g, s) && Disciplined(s) && Table(s, r) == [b] && r !in s.swap && g.layers > 0
    requires b in s.meta && s.meta[b].filled == 0
    ensures var op := Store(r, 0, 0, k, v, [], true);
            && Enabled(g, s, op) && Allowed(s, op)
            && var s' := Apply(g, s, op);
               Valid(g, s') && Disciplined(s') && Table(s', r) == [b] && b in s'.meta && s'.meta[b].filled == 1 && r !in s'.swap
  {
    var op := Store(r, 0, 0, k, v, [], true);
    assert Quot(0, g.blockSize) == 0 && Rem(0, g.blockSize) == 0;
    StepDisciplined(g, s, op);
  }

  lemma TwoRun(g: Geometry, s: Cache, a: Op, b: Op)
    requires Valid(g, s) && Enabled(g, s, a) && Allowed(s, a)
    requires Valid(g, Apply(g, s, a)) && Enabled(g, Apply(g, s, a), b) && Allowed(Apply(g, s, a), b)
    ensures Runs(g, s, [a, b]) && After(g, s, [a, b]) == Apply(g, Apply(g, s, a), b)
  {
    assert [a, b][1..] == [b] && [b][1..] == [];
    var s1 := Apply(g, s, a);
    assert Runs(g, Apply(g, s1, b), []) && Runs(g, s1, [b]);
    assert After(g, s1, [b]) == After(g, Apply(g, s1, b), []);
  }

  lemma HalfFullState(g: Geometry, r: Id, k: Vec, v: Vec)
    requires g.blockSize == 2 && g.layers == 1 && g.numBlocks >= 1
    ensures Runs(g, Init(g), HalfFull(g, r, k, v))
    ensures var s := After(g, Init(g), HalfFull(g, r, k, v));
            Valid(g, s) && Disciplined(s) && Table(s, r) == [0] && 0 in s.meta && s.meta[0].filled == 1 && r !in s.swap
  {
    InitValid(g);
    AllocateOne(g, Init(g), r, 0);
    var s1 := Apply(g, Init(g), Allocate(r, 1, [0]));
    StoreFirst(g, s1, r, 0, k, v);
    TwoRun(g, Init(g), Allocate(r, 1, [0]), Store(r, 0, 0, k, v, [], true));
  }

  /** Room for more than one token can be missing: that block, asked for two more tokens. */
  lemma ExtendFallsShort(g: Geometry, r: Id, k: Vec, v: Vec)
    requires g.blockSize == 2 && g.layers == 1 && g.numBlocks >= 1
    ensures Runs(g, Init(g), HalfFull(g, r, k, v))
    ensures var s := After(g, Init(g), HalfFull(g, r, k, v));
            && InOrderSoFar(g, s, r) && Enabled(g, s, Extend(r, 2, [])) && Apply(g, s, Extend(r, 2, [])) == s
            && Filled(g, s, r) + 2 > Capacity(g, s, r)
  {
    HalfFullState(g, r, k, v);
    var s := After(g, Init(g), HalfFull(g, r, k, v));
    TableInPool(g, s, r);
    var ps := Pages(g, s, Table(s, r));
    assert |ps| == 1 && ps[0].filled == 1;
    assert Visible(ps[..0]) == 0;
    assert Capacity(g, s, r) == 2 + Position(0, 0, 2);
  }

  /** In particular extend(r, 1) always leaves a slot for the next position. */
  lemma ExtendOneRoom(g: Geometry, s: Cache, r: Id, blocks: seq<nat>)
    requires InOrderSoFar(g, s, r) && Enabled(g, s, Extend(r, 1, blocks))
    requires ExtendDemand(g, s, r, 1).Some? ==> !Fails(g, s, ExtendDemand(g, s, r, 1).value)
    ensures var s' := Apply(g, s, Extend(r, 1, blocks));
            InPool(s', Table(s', r)) && Filled(g, s', r) == Filled(g, s, r) < Capacity(g, s', r)
  {
    ExtendRoom(g, s, r, 1, blocks);
    FilledWithin(g, s, r);
  }

  /** store_kv at the next position takes at most one block and fails only for lack of memory:
      it never indexes past the table. */
  lemma StoreNextFits(g: Geometry, s: Cache, op: Op)
    requires op.Store? && op.r in s.tables && InOrderSoFar(g, s, op.r) && Enabled(g, s, op)
    requires op.p <= Filled(g, s, op.r)
    ensures |op.blocks| <= 1
    ensures op.stored <==> !(StoreGrows(g, s, op.r, op.p) && Fails(g, s, g.blockSize))
  {
    FilledWithin(g, s, op.r);
    OneBlock(g, g.blockSize);
    var i, o := Quot(op.p, g.blockSize), Rem(op.p, g.blockSize);
    PartsPosition(op.p, g.blockSize);
    PositionOffset(i, o, g.blockSize);
    if |Table(s, op.r)| < i { PositionMonotone(|Table(s, op.r)|, i, g.blockSize); }
  }
}
