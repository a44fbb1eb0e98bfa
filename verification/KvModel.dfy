/** The paged KV-cache as a value: what each operation does to pool, free set, tables, metadata and swap space. */
module KvModel {
  import opened Types
  import opened Tensors
  import opened Arithmetic

  datatype Geometry = Geometry(layers: nat, blockSize: Pos, numBlocks: nat, zero: Vec)

  /** The two planes of a block (index 0 and 1 of the pool's second axis). */
  datatype Plane = K | V

  /** One pool block: for each plane and layer, blockSize slots. */
  datatype Block = Block(keys: seq<seq<Vec>>, values: seq<seq<Vec>>) {
    function Rows(pl: Plane): seq<seq<Vec>> { if pl.K? then keys else values }

    predicate Fits(g: Geometry) {
      && |keys| == |values| == g.layers
      && forall l :: 0 <= l < g.layers ==> |keys[l]| == |values[l]| == g.blockSize
    }

    function At(pl: Plane, l: nat, o: nat): Vec
      requires l < |Rows(pl)| && o < |Rows(pl)[l]|
    {
      Rows(pl)[l][o]
    }

    function Put(l: nat, o: nat, k: Vec, v: Vec): Block
      requires l < |keys| && l < |values| && o < |keys[l]| && o < |values[l]|
    {
      Block(keys[l := keys[l][o := k]], values[l := values[l][o := v]])
    }
  }

  function ZeroBlock(g: Geometry): (b: Block)
    ensures b.Fits(g)
  {
    var plane := seq(g.layers, _ => seq(g.blockSize, _ => g.zero));
    Block(plane, plane)
  }

  /** A store changes one slot, the same one in both planes: the key in plane K, the value in plane V. */
  lemma PutAt(g: Geometry, b: Block, l: nat, o: nat, k: Vec, v: Vec, pl: Plane, l': nat, o': nat)
    requires b.Fits(g) && l < g.layers && o < g.blockSize && l' < g.layers && o' < g.blockSize
    ensures b.Put(l, o, k, v).Fits(g)
    ensures b.Put(l, o, k, v).At(pl, l', o')
            == if l' == l && o' == o then (if pl.K? then k else v) else b.At(pl, l', o')
  {
  }

  datatype Meta = Meta(blockId: nat, refCount: int, filled: nat)

  function NewMeta(blocks: seq<nat>, filled: nat): map<nat, Meta> {
    map b | b in blocks :: Meta(b, 1, filled)
  }

  datatype Cache = Cache(
    pool: seq<Block>,
    free: set<nat>,
    tables: map<Id, seq<nat>>,
    meta: map<nat, Meta>,
    swap: map<Id, seq<Block>>)

  datatype KvError = OutOfMemory | EmptyStack | IndexError

  function Init(g: Geometry): Cache {
    Cache(seq(g.numBlocks, _ => ZeroBlock(g)), Range(g.numBlocks), map[], map[], map[])
  }

  function BlocksNeeded(g: Geometry, tokens: nat): nat {
    Ceil(tokens, g.blockSize)
  }

  lemma OneBlock(g: Geometry, tokens: nat)
    requires 0 < tokens <= g.blockSize
    ensures BlocksNeeded(g, tokens) == 1
  {
    CeilLeast(tokens, g.blockSize, 1);
    CeilLeast(tokens, g.blockSize, 0);
  }

  function Table(s: Cache, r: Id): seq<nat> {
    if r in s.tables then s.tables[r] else []
  }

  function FillOf(g: Geometry, s: Cache, b: nat): nat {
    if b in s.meta then s.meta[b].filled else g.blockSize
  }

  /** n blocks popped one after the other from the free set. */
  predicate Picked(s: Cache, blocks: seq<nat>, n: nat) {
    |blocks| == n && NoDup(blocks) && forall i :: 0 <= i < n ==> blocks[i] in s.free
  }

  // ----- the operations -----

  function AllocateTo(s: Cache, r: Id, blocks: seq<nat>): Cache {
    s.(free := s.free - SetOf(blocks),
       meta := s.meta + NewMeta(blocks, 0),
       tables := s.tables[r := Table(s, r) + blocks])
  }

  /** The token count for which extend calls allocate; None when the last block still has room. */
  function ExtendDemand(g: Geometry, s: Cache, r: Id, tokens: nat): Option<nat> {
    var t := Table(s, r);
    if t == [] then Some(tokens)
    else if t[|t| - 1] in s.meta && s.meta[t[|t| - 1]].filled < g.blockSize then None
    else Some(g.blockSize)
  }

  function ZeroBlocks(g: Geometry, pool: seq<Block>, bs: seq<nat>): (p: seq<Block>)
    ensures |p| == |pool|
  {
    seq(|pool|, b requires 0 <= b < |pool| => if b in bs then ZeroBlock(g) else pool[b])
  }

  function Release(g: Geometry, s: Cache, bs: seq<nat>): Cache {
    s.(pool := ZeroBlocks(g, s.pool, bs), free := s.free + SetOf(bs), meta := s.meta - SetOf(bs))
  }

  function FreeTo(g: Geometry, s: Cache, r: Id): Cache {
    if r !in s.tables then s
    else Release(g, s, s.tables[r]).(tables := s.tables - {r}, swap := s.swap - {r})
  }

  function Gathered(s: Cache, bs: seq<nat>): (data: seq<Block>)
    requires InPool(s, bs)
    ensures |data| == |bs|
  {
    seq(|bs|, i requires 0 <= i < |bs| => s.pool[bs[i]])
  }

  predicate InPool(s: Cache, bs: seq<nat>) {
    forall i :: 0 <= i < |bs| ==> bs[i] < |s.pool|
  }

  function SwapOutTo(g: Geometry, s: Cache, r: Id): Cache
    requires InPool(s, Table(s, r))
  {
    if Table(s, r) == [] then s
    else Release(g, s, s.tables[r]).(swap := s.swap[r := Gathered(s, s.tables[r])], tables := s.tables[r := []])
  }

  /** The pool with data written over the given blocks, in list order. */
  function Overwrite(pool: seq<Block>, bs: seq<nat>, data: seq<Block>): (p: seq<Block>)
    requires |bs| == |data| && forall i :: 0 <= i < |bs| ==> bs[i] < |pool|
    ensures |p| == |pool|
  {
    if bs == [] then pool
    else var n := |bs| - 1; Overwrite(pool, bs[..n], data[..n])[bs[n] := data[n]]
  }

  function SwapInTo(g: Geometry, s: Cache, r: Id, blocks: seq<nat>): Cache
    requires r in s.swap && |blocks| == |s.swap[r]| && InPool(s, blocks)
  {
    Cache(Overwrite(s.pool, blocks, s.swap[r]),
          s.free - SetOf(blocks),
          s.tables[r := blocks],
          s.meta + NewMeta(blocks, g.blockSize),
          s.swap - {r})
  }

  function Written(g: Geometry, s: Cache, b: nat, l: nat, o: nat, k: Vec, v: Vec): Cache
    requires b < |s.pool| && s.pool[b].Fits(g) && l < g.layers && o < g.blockSize
  {
    s.(pool := s.pool[b := s.pool[b].Put(l, o, k, v)],
       meta := if b in s.meta
               then s.meta[b := s.meta[b].(filled := if s.meta[b].filled < o + 1 then o + 1 else s.meta[b].filled)]
               else s.meta)
  }

  // ----- reading -----

  predicate Readable(g: Geometry, s: Cache, bs: seq<nat>) {
    forall i :: 0 <= i < |bs| ==>
      bs[i] < |s.pool| && s.pool[bs[i]].Fits(g) && FillOf(g, s, bs[i]) <= g.blockSize
  }

  /** torch.cat of the filled part of each block, one plane at one layer. */
  function Gather(g: Geometry, s: Cache, bs: seq<nat>, pl: Plane, l: nat): seq<Vec>
    requires l < g.layers
    requires Readable(g, s, bs)
  {
    if bs == [] then []
    else
      var n := |bs| - 1;
      Gather(g, s, bs[..n], pl, l) + s.pool[bs[n]].Rows(pl)[l][..FillOf(g, s, bs[n])]
  }

  /** get_kv_for_request: keys and values of the filled positions, None without blocks. */
  function GetKv(g: Geometry, s: Cache, r: Id, l: nat): Option<(seq<Vec>, seq<Vec>)>
    requires l < g.layers && Readable(g, s, Table(s, r))
  {
    if Table(s, r) == [] then None
    else Some((Gather(g, s, Table(s, r), K, l), Gather(g, s, Table(s, r), V, l)))
  }

  // ----- operations as events, with the choices and outcomes they record -----

  /** blocks: what the free set handed out; stored: whether a store reached its slot. */
  datatype Op =
    | Allocate(r: Id, tokens: nat, blocks: seq<nat>)
    | Extend(r: Id, tokens: nat, blocks: seq<nat>)
    | Free(r: Id)
    | SwapOut(r: Id)
    | SwapIn(r: Id, blocks: seq<nat>)
    | Store(r: Id, l: nat, p: nat, k: Vec, v: Vec, blocks: seq<nat>, stored: bool)

  /** allocate(tokens) either takes exactly the blocks it needs or, out of memory, none. */
  predicate Granted(g: Geometry, s: Cache, tokens: nat, blocks: seq<nat>) {
    if BlocksNeeded(g, tokens) <= |s.free| then Picked(s, blocks, BlocksNeeded(g, tokens)) else blocks == []
  }

  predicate Fails(g: Geometry, s: Cache, tokens: nat) { |s.free| < BlocksNeeded(g, tokens) }

  predicate SwapInFits(s: Cache, r: Id) { r in s.swap && |s.swap[r]| <= |s.free| }

  /** store_kv allocates a block when the position lies beyond the table. */
  predicate StoreGrows(g: Geometry, s: Cache, r: Id, p: nat) { Quot(p, g.blockSize) >= |Table(s, r)| }

  predicate Enabled(g: Geometry, s: Cache, op: Op) {
    match op
    case Allocate(r, n, blocks) => Granted(g, s, n, blocks)
    case Extend(r, n, blocks) =>
      var d := ExtendDemand(g, s, r, n);
      if d.Some? then Granted(g, s, d.value, blocks) else blocks == []
    case Free(_) => true
    case SwapOut(_) => true
    case SwapIn(r, blocks) => if SwapInFits(s, r) then Picked(s, blocks, |s.swap[r]|) else blocks == []
    case Store(r, l, p, _, _, blocks, stored) =>
      && l < g.layers
      && (if r in s.tables && StoreGrows(g, s, r, p) then Granted(g, s, g.blockSize, blocks) else blocks == [])
      && (stored <==> r in s.tables && (StoreGrows(g, s, r, p) ==> !Fails(g, s, g.blockSize))
                      && Quot(p, g.blockSize) < |Table(s, r)| + |blocks|)
  }

  function Apply(g: Geometry, s: Cache, op: Op): Cache
    requires Valid(g, s) && Enabled(g, s, op)
  {
    match op
    case Allocate(r, n, blocks) => if Fails(g, s, n) then s else AllocateTo(s, r, blocks)
    case Extend(r, n, blocks) =>
      var d := ExtendDemand(g, s, r, n);
      if d.None? || Fails(g, s, d.value) then s else AllocateTo(s, r, blocks)
    case Free(r) => FreeTo(g, s, r)
    case SwapOut(r) =>
      assert forall i :: 0 <= i < |Table(s, r)| ==> Owns(s, r, Table(s, r)[i]);
      SwapOutTo(g, s, r)
    case SwapIn(r, blocks) => if SwapInFits(s, r) then SwapInTo(g, s, r, blocks) else s
    case Store(r, l, p, k, v, blocks, stored) =>
      var s' := if blocks == [] then s else AllocateTo(s, r, blocks);
      if stored then
        var t := Table(s', r);
        var i := Quot(p, g.blockSize);
        PartsPosition(p, g.blockSize);
        assert t == Table(s, r) + blocks && (i < |Table(s, r)| ==> Owns(s, r, t[i]));
        Written(g, s', t[i], l, Rem(p, g.blockSize), k, v)
      else s'
  }

  // ----- what every reachable cache satisfies -----

  predicate Owns(s: Cache, r: Id, b: nat) { r in s.tables && b in s.tables[r] }

  ghost predicate Owned(s: Cache, b: nat) { exists r :: Owns(s, r, b) }

  /** Free set and block tables: pairwise disjoint, duplicate-free, together exactly 0..numBlocks-1. */
  ghost predicate Partition(g: Geometry, s: Cache) {
    && (forall b :: b in s.free ==> b < g.numBlocks)
    && (forall r :: r in s.tables ==> NoDup(s.tables[r]))
    && (forall r, b: nat :: Owns(s, r, b) ==> b < g.numBlocks && b !in s.free)
    && (forall r, q, b: nat :: Owns(s, r, b) && Owns(s, q, b) ==> r == q)
    && (forall b: nat :: b < g.numBlocks && b !in s.free ==> Owned(s, b))
  }

  /** Metadata exists for exactly the used blocks, always with reference count 1. */
  ghost predicate MetaExact(g: Geometry, s: Cache) {
    && (forall b: nat :: b in s.meta <==> b < g.numBlocks && b !in s.free)
    && (forall b :: b in s.meta ==> s.meta[b].blockId == b && s.meta[b].refCount == 1 && s.meta[b].filled <= g.blockSize)
  }

  ghost predicate Shaped(g: Geometry, s: Cache) {
    && |s.pool| == g.numBlocks
    && (forall b :: 0 <= b < g.numBlocks ==> s.pool[b].Fits(g))
    && (forall r, i :: r in s.swap && 0 <= i < |s.swap[r]| ==> s.swap[r][i].Fits(g))
  }

  /** No stale data: free blocks are entirely zero, and so is every slot past a used block's fill mark. */
  ghost predicate NoStaleData(g: Geometry, s: Cache)
    requires Shaped(g, s)
  {
    && (forall b :: b in s.free && b < g.numBlocks ==> s.pool[b] == ZeroBlock(g))
    && (forall b, pl, l, o :: b in s.meta && b < g.numBlocks && 0 <= l < g.layers && s.meta[b].filled <= o < g.blockSize
          ==> s.pool[b].At(pl, l, o) == g.zero)
  }

  ghost predicate SwapOwned(g: Geometry, s: Cache) {
    forall r :: r in s.swap ==> r in s.tables && 0 < |s.swap[r]| <= g.numBlocks
  }

  ghost predicate Valid(g: Geometry, s: Cache) {
    Shaped(g, s) && Partition(g, s) && MetaExact(g, s) && NoStaleData(g, s) && SwapOwned(g, s)
  }

  /** Nobody allocated for a swapped-out request. */
  ghost predicate Disciplined(s: Cache) {
    forall r :: r in s.swap ==> Table(s, r) == []
  }
}
