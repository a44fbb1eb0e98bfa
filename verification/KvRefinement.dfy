/** The paged cache refines one private list of pages per request, and that list refines a map
    (request, layer, position) -> (K, V). */
module KvRefinement {
  import opened Types
  import opened Tensors
  import opened KvModel
  import opened Arithmetic
  import opened KvInvariants

  /** A block seen by its owner, without its physical address. */
  datatype Page = Page(filled: nat, block: Block)

  datatype Holding = Absent | Resident(pages: seq<Page>) | Swapped(data: seq<Block>)

  function Pages(g: Geometry, s: Cache, bs: seq<nat>): (ps: seq<Page>)
    requires InPool(s, bs)
    ensures |ps| == |bs|
  {
    seq(|bs|, i requires 0 <= i < |bs| => Page(FillOf(g, s, bs[i]), s.pool[bs[i]]))
  }

  function Hold(g: Geometry, s: Cache, r: Id): Holding
    requires InPool(s, Table(s, r))
  {
    if r in s.swap then Swapped(s.swap[r])
    else if r in s.tables then Resident(Pages(g, s, Table(s, r)))
    else Absent
  }

  function Fresh(g: Geometry, n: nat): (ps: seq<Page>)
    ensures |ps| == n
  {
    seq(n, _ => Page(0, ZeroBlock(g)))
  }

  function PagesOf(h: Holding): seq<Page> { if h.Resident? then h.pages else [] }

  function Grow(g: Geometry, h: Holding, n: nat): Holding { Resident(PagesOf(h) + Fresh(g, n)) }

  function Full(g: Geometry, data: seq<Block>): (ps: seq<Page>)
    ensures |ps| == |data|
  {
    seq(|data|, i requires 0 <= i < |data| => Page(g.blockSize, data[i]))
  }

  function Blocks(ps: seq<Page>): (data: seq<Block>)
    ensures |data| == |ps|
  {
    seq(|ps|, i requires 0 <= i < |ps| => ps[i].block)
  }

  function Max(a: nat, b: nat): nat { if a < b then b else a }

  predicate PageOk(g: Geometry, pg: Page) {
    && pg.block.Fits(g) && pg.filled <= g.blockSize
    && forall pl, l, o :: 0 <= l < g.layers && pg.filled <= o < g.blockSize ==> pg.block.At(pl, l, o) == g.zero
  }

  ghost predicate HoldOk(g: Geometry, h: Holding) {
    match h
    case Absent => true
    case Resident(ps) => forall i :: 0 <= i < |ps| ==> PageOk(g, ps[i])
    case Swapped(data) => 0 < |data| && forall i :: 0 <= i < |data| ==> data[i].Fits(g)
  }

  lemma HoldsOk(g: Geometry, s: Cache, r: Id)
    requires Valid(g, s)
    ensures InPool(s, Table(s, r)) && HoldOk(g, Hold(g, s, r))
  {
    TableInPool(g, s, r);
  }

  function StoreIn(g: Geometry, ps: seq<Page>, l: nat, p: nat, k: Vec, v: Vec): seq<Page>
    requires Quot(p, g.blockSize) < |ps| && ps[Quot(p, g.blockSize)].block.Fits(g) && l < g.layers
  {
    var pg, o := ps[Quot(p, g.blockSize)], Rem(p, g.blockSize);
    ps[Quot(p, g.blockSize) := Page(Max(pg.filled, o + 1), pg.block.Put(l, o, k, v))]
  }

  predicate StoreReaches(g: Geometry, h: Holding, op: Op)
    requires op.Store?
  {
    op.stored ==> h.Resident? && op.l < g.layers && Quot(op.p, g.blockSize) < |h.pages| + |op.blocks|
  }

  /** What an operation does to the pages of the request it names. */
  function HoldStep(g: Geometry, h: Holding, op: Op): Holding
    requires HoldOk(g, h) && (op.Store? ==> StoreReaches(g, h, op))
  {
    match op
    case Allocate(_, n, blocks) => if |blocks| == BlocksNeeded(g, n) then Grow(g, h, |blocks|) else h
    case Extend(_, n, blocks) =>
      var ps := PagesOf(h);
      if ps == [] && |blocks| == BlocksNeeded(g, n) then Grow(g, h, |blocks|)
      else if ps != [] && blocks != [] then Grow(g, h, |blocks|)
      else h
    case Free(_) => Absent
    case SwapOut(_) => if PagesOf(h) == [] then h else Swapped(Blocks(h.pages))
    case SwapIn(_, blocks) => if h.Swapped? && blocks != [] then Resident(Full(g, h.data)) else h
    case Store(_, l, p, k, v, blocks, stored) =>
      var h' := if blocks == [] then h else Grow(g, h, |blocks|);
      if stored then Resident(StoreIn(g, h'.pages, l, p, k, v)) else h'
  }

  // ----- relocation is invisible: the cache refines the per-request pages -----

  ghost predicate SameBlocks(g: Geometry, s: Cache, s': Cache, q: Id) {
    && (q in s.tables <==> q in s'.tables) && Table(s', q) == Table(s, q)
    && (q in s.swap <==> q in s'.swap) && (q in s.swap ==> s'.swap[q] == s.swap[q])
    && InPool(s, Table(s, q)) && |s'.pool| == |s.pool|
    && forall i :: 0 <= i < |Table(s, q)| ==>
         s'.pool[Table(s, q)[i]] == s.pool[Table(s, q)[i]] && FillOf(g, s', Table(s, q)[i]) == FillOf(g, s, Table(s, q)[i])
  }

  lemma SameHold(g: Geometry, s: Cache, s': Cache, q: Id)
    requires SameBlocks(g, s, s', q)
    ensures Hold(g, s', q) == Hold(g, s, q) && Pages(g, s', Table(s, q)) == Pages(g, s, Table(s, q))
  {
    assert Pages(g, s', Table(s, q)) == Pages(g, s, Table(s, q));
  }

  lemma AllocateLeaves(g: Geometry, s: Cache, r: Id, blocks: seq<nat>, q: Id)
    requires Valid(g, s) && Picked(s, blocks, |blocks|) && q != r
    ensures SameBlocks(g, s, AllocateTo(s, r, blocks), q)
  {
    TableInPool(g, s, q);
  }

  lemma ReleaseLeaves(g: Geometry, s: Cache, r: Id, q: Id)
    requires Valid(g, s) && q != r
    ensures SameBlocks(g, s, FreeTo(g, s, r), q)
    ensures InPool(s, Table(s, r)) && SameBlocks(g, s, SwapOutTo(g, s, r), q)
  {
    TableInPool(g, s, q);
    TableInPool(g, s, r);
    assert forall i :: 0 <= i < |Table(s, q)| ==> Table(s, q)[i] !in Table(s, r);
  }

  lemma SwapInLeaves(g: Geometry, s: Cache, r: Id, blocks: seq<nat>, q: Id)
    requires Valid(g, s) && r in s.swap && Picked(s, blocks, |s.swap[r]|) && q != r
    ensures InPool(s, blocks) && SameBlocks(g, s, SwapInTo(g, s, r, blocks), q)
  {
    TableInPool(g, s, q);
    OverwriteAt(s.pool, blocks, s.swap[r]);
  }

  lemma WrittenLeaves(g: Geometry, s: Cache, b: nat, l: nat, o: nat, k: Vec, v: Vec, r: Id, q: Id)
    requires Valid(g, s) && b < |s.pool| && l < g.layers && o < g.blockSize && Owns(s, r, b) && q != r
    ensures SameBlocks(g, s, Written(g, s, b, l, o, k, v), q)
  {
    TableInPool(g, s, q);
  }

  lemma StoreLeaves(g: Geometry, s: Cache, op: Op, q: Id)
    requires Valid(g, s) && Enabled(g, s, op) && op.Store? && q != op.r
    ensures InPool(s, Table(s, q)) && InPool(Apply(g, s, op), Table(Apply(g, s, op), q))
    ensures Hold(g, Apply(g, s, op), q) == Hold(g, s, q)
    ensures Table(Apply(g, s, op), q) == Table(s, q)
    ensures Pages(g, Apply(g, s, op), Table(s, q)) == Pages(g, s, Table(s, q))
  {
    var r, blocks := op.r, op.blocks;
    var s' := if blocks == [] then s else AllocateTo(s, r, blocks);
    TableInPool(g, s, q);
    if blocks != [] {
      AllocateLeaves(g, s, r, blocks, q);
      AllocateValid(g, s, r, blocks);
      SameHold(g, s, s', q);
    }
    if op.stored {
      TableInPool(g, s', r);
      WrittenLeaves(g, s', Table(s', r)[Quot(op.p, g.blockSize)], op.l, Rem(op.p, g.blockSize), op.k, op.v, r, q);
      SameHold(g, s', Apply(g, s, op), q);
    }
  }

  /** An operation leaves the pages of every other request alone. */
  lemma OthersUntouched(g: Geometry, s: Cache, op: Op, q: Id)
    requires Valid(g, s) && Enabled(g, s, op) && q != op.r
    ensures InPool(s, Table(s, q)) && InPool(Apply(g, s, op), Table(Apply(g, s, op), q))
    ensures Hold(g, Apply(g, s, op), q) == Hold(g, s, q)
    ensures Table(Apply(g, s, op), q) == Table(s, q)
    ensures Pages(g, Apply(g, s, op), Table(s, q)) == Pages(g, s, Table(s, q))
  {
    TableInPool(g, s, q);
    var s' := Apply(g, s, op);
    if op.Store? {
      StoreLeaves(g, s, op, q);
    } else if s' != s {
      match op {
        case Allocate(r, _, blocks) => AllocateLeaves(g, s, r, blocks, q);
        case Extend(r, _, blocks) => AllocateLeaves(g, s, r, blocks, q);
        case Free(r) => ReleaseLeaves(g, s, r, q);
        case SwapOut(r) => ReleaseLeaves(g, s, r, q);
        case SwapIn(r, blocks) => SwapInLeaves(g, s, r, blocks, q);
      }
      SameHold(g, s, s', q);
    }
  }

  lemma AllocateHolds(g: Geometry, s: Cache, r: Id, blocks: seq<nat>)
    requires Valid(g, s) && Picked(s, blocks, |blocks|) && r !in s.swap
    ensures InPool(s, Table(s, r)) && InPool(AllocateTo(s, r, blocks), Table(s, r) + blocks)
    ensures Hold(g, AllocateTo(s, r, blocks), r) == Grow(g, Hold(g, s, r), |blocks|)
  {
    TableInPool(g, s, r);
    var s', t := AllocateTo(s, r, blocks), Table(s, r);
    assert forall i :: 0 <= i < |t| ==> Owns(s, r, t[i]);
    assert Pages(g, s', t + blocks) == PagesOf(Hold(g, s, r)) + Fresh(g, |blocks|);
  }

  lemma StoreHolds(g: Geometry, s: Cache, op: Op)
    requires Valid(g, s) && Enabled(g, s, op) && op.Store? && op.r !in s.swap
    ensures InPool(s, Table(s, op.r)) && HoldOk(g, Hold(g, s, op.r))
    ensures StoreReaches(g, Hold(g, s, op.r), op)
    ensures Valid(g, Apply(g, s, op)) && InPool(Apply(g, s, op), Table(Apply(g, s, op), op.r))
    ensures Hold(g, Apply(g, s, op), op.r) == HoldStep(g, Hold(g, s, op.r), op)
  {
    var r, blocks := op.r, op.blocks;
    HoldsOk(g, s, r);
    StoreValid(g, s, op);
    if blocks != [] { AllocateHolds(g, s, r, blocks); AllocateValid(g, s, r, blocks); }
    var s' := if blocks == [] then s else AllocateTo(s, r, blocks);
    TableInPool(g, s', r);
    if op.stored {
      WrittenPages(g, s', r, op.l, op.p, op.k, op.v);
    }
  }

  lemma WrittenPages(g: Geometry, s: Cache, r: Id, l: nat, p: nat, k: Vec, v: Vec)
    requires Valid(g, s) && Quot(p, g.blockSize) < |Table(s, r)| && l < g.layers
    ensures InPool(s, Table(s, r)) && s.pool[Table(s, r)[Quot(p, g.blockSize)]].Fits(g)
    ensures Pages(g, Written(g, s, Table(s, r)[Quot(p, g.blockSize)], l, Rem(p, g.blockSize), k, v), Table(s, r))
            == StoreIn(g, Pages(g, s, Table(s, r)), l, p, k, v)
  {
    TableInPool(g, s, r);
    var t, i := Table(s, r), Quot(p, g.blockSize);
    var s' := Written(g, s, t[i], l, Rem(p, g.blockSize), k, v);
    assert forall j :: 0 <= j < |t| && j != i ==> t[j] != t[i];
    assert Pages(g, s', t) == StoreIn(g, Pages(g, s, t), l, p, k, v);
  }

  lemma FreeHolds(g: Geometry, s: Cache, op: Op)
    requires Valid(g, s) && Disciplined(s) && op.Free? && InPool(s, Table(s, op.r)) && HoldOk(g, Hold(g, s, op.r))
    ensures InPool(Apply(g, s, op), Table(Apply(g, s, op), op.r))
    ensures Hold(g, Apply(g, s, op), op.r) == HoldStep(g, Hold(g, s, op.r), op)
  {
  }

  lemma SwapOutHolds(g: Geometry, s: Cache, op: Op)
    requires Valid(g, s) && Disciplined(s) && op.SwapOut? && Enabled(g, s, op)
    requires InPool(s, Table(s, op.r)) && HoldOk(g, Hold(g, s, op.r))
    ensures Hold(g, Apply(g, s, op), op.r) == HoldStep(g, Hold(g, s, op.r), op)
  {
    TableInPool(g, s, op.r);
    if Table(s, op.r) != [] {
      assert Gathered(s, Table(s, op.r)) == Blocks(Pages(g, s, Table(s, op.r)));
    }
  }

  lemma SwapInHolds(g: Geometry, s: Cache, op: Op)
    requires Valid(g, s) && Disciplined(s) && op.SwapIn? && Enabled(g, s, op)
    requires InPool(s, Table(s, op.r)) && HoldOk(g, Hold(g, s, op.r))
    ensures Hold(g, Apply(g, s, op), op.r) == HoldStep(g, Hold(g, s, op.r), op)
  {
    if SwapInFits(s, op.r) {
      OverwriteAt(s.pool, op.blocks, s.swap[op.r]);
      assert Pages(g, Apply(g, s, op), op.blocks) == Full(g, s.swap[op.r]);
    }
  }

  /** On its own request an operation acts on pages only: addresses, other requests and free set do not matter. */
  lemma PagesRefined(g: Geometry, s: Cache, op: Op)
    requires Valid(g, s) && Disciplined(s) && Enabled(g, s, op) && Allowed(s, op)
    ensures InPool(s, Table(s, op.r)) && InPool(Apply(g, s, op), Table(Apply(g, s, op), op.r))
    ensures HoldOk(g, Hold(g, s, op.r)) && HoldOk(g, Hold(g, Apply(g, s, op), op.r))
    ensures op.Store? ==> StoreReaches(g, Hold(g, s, op.r), op)
    ensures Hold(g, Apply(g, s, op), op.r) == HoldStep(g, Hold(g, s, op.r), op)
  {
    StepDisciplined(g, s, op);
    HoldsOk(g, s, op.r);
    HoldsOk(g, Apply(g, s, op), op.r);
    match op
    case Allocate(r, n, blocks) =>
      AllocateHolds(g, s, r, blocks);
    case Extend(r, n, blocks) =>
      AllocateHolds(g, s, r, blocks);
      LastPage(g, s, r);
    case Free(_) => FreeHolds(g, s, op);
    case SwapOut(_) => SwapOutHolds(g, s, op);
    case SwapIn(_, _) => SwapInHolds(g, s, op);
    case Store(_, _, _, _, _, _, _) => StoreHolds(g, s, op);
  }

  /** The test in extend reads the last page's fill mark. */
  lemma LastPage(g: Geometry, s: Cache, r: Id)
    requires Valid(g, s)
    ensures InPool(s, Table(s, r))
    ensures var t := Table(s, r); forall n: nat ::
      ExtendDemand(g, s, r, n) == if t == [] then Some(n)
                                  else if Pages(g, s, t)[|t| - 1].filled < g.blockSize then None
                                  else Some(g.blockSize)
  {
    TableInPool(g, s, r);
  }
}
