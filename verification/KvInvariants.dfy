/** Every operation keeps the cache valid; a swap-in does so exactly when the table it overwrites is empty. */
module KvInvariants {
  import opened Types
  import opened Tensors
  import opened KvModel
  import opened Arithmetic

  lemma InitValid(g: Geometry)
    ensures Valid(g, Init(g)) && Disciplined(Init(g))
  {
  }

  // ----- bookkeeping steps -----

  /** r gains the given blocks from the free set. */
  ghost predicate Takes(s: Cache, s': Cache, r: Id, blocks: seq<nat>) {
    && s'.free == s.free - SetOf(blocks)
    && s'.tables == s.tables[r := Table(s, r) + blocks]
  }

  lemma TakesOwners(s: Cache, s': Cache, r: Id, blocks: seq<nat>)
    requires Takes(s, s', r, blocks)
    ensures forall q, b: nat :: Owns(s', q, b) <==> Owns(s, q, b) || (q == r && b in blocks)
  {
  }

  lemma TakesPartition(g: Geometry, s: Cache, s': Cache, r: Id, blocks: seq<nat>)
    requires Partition(g, s) && Picked(s, blocks, |blocks|) && Takes(s, s', r, blocks)
    ensures Partition(g, s')
  {
    TakesOwners(s, s', r, blocks);
    assert forall i :: 0 <= i < |Table(s, r)| ==> Owns(s, r, Table(s, r)[i]);
    assert NoDup(Table(s, r) + blocks);
    forall b: nat | b < g.numBlocks && b !in s'.free
      ensures Owned(s', b)
    {
      if b in blocks {
        assert Owns(s', r, b);
      } else {
        var q :| Owns(s, q, b);
        assert Owns(s', q, b);
      }
    }
  }

  lemma AllocateValid(g: Geometry, s: Cache, r: Id, blocks: seq<nat>)
    requires Valid(g, s) && Picked(s, blocks, |blocks|)
    ensures Valid(g, AllocateTo(s, r, blocks))
  {
    TakesPartition(g, s, AllocateTo(s, r, blocks), r, blocks);
    TakesZero(g, s, r, blocks);
  }

  /** Blocks handed out come with exact metadata and hold no data. */
  lemma TakesZero(g: Geometry, s: Cache, r: Id, blocks: seq<nat>)
    requires Shaped(g, s) && MetaExact(g, s) && NoStaleData(g, s) && Picked(s, blocks, |blocks|)
    requires forall b :: b in s.free ==> b < g.numBlocks
    ensures Shaped(g, AllocateTo(s, r, blocks)) && MetaExact(g, AllocateTo(s, r, blocks)) && NoStaleData(g, AllocateTo(s, r, blocks))
  {
  }

  /** Returning all blocks of one table, which becomes empty or disappears. */
  lemma ReleaseValid(g: Geometry, s: Cache, r: Id, s': Cache)
    requires Valid(g, s) && r in s.tables
    requires var rel := Release(g, s, s.tables[r]); s'.pool == rel.pool && s'.free == rel.free && s'.meta == rel.meta
    requires s'.tables == s.tables - {r} || s'.tables == s.tables[r := []]
    requires forall q :: q in s'.swap ==> q in s'.tables && 0 < |s'.swap[q]| <= g.numBlocks
    requires forall q, i :: q in s'.swap && 0 <= i < |s'.swap[q]| ==> s'.swap[q][i].Fits(g)
    ensures Valid(g, s')
  {
    assert forall q, b: nat :: Owns(s', q, b) <==> q != r && Owns(s, q, b);
    assert forall b: nat :: b in s.tables[r] <==> Owns(s, r, b);
    forall b: nat | b < g.numBlocks && b !in s'.free
      ensures Owned(s', b)
    {
      var q :| Owns(s, q, b);
      assert Owns(s', q, b);
    }
    assert Partition(g, s');
  }

  lemma NoDupBound(t: seq<nat>, n: nat)
    requires NoDup(t) && forall i :: 0 <= i < |t| ==> t[i] < n
    ensures |t| <= n
  {
    NoDupCount(t);
    SubsetCount(SetOf(t), Range(n));
  }

  lemma {:induction false} NoDupCount(t: seq<nat>)
    requires NoDup(t)
    ensures |SetOf(t)| == |t|
  {
    if t == [] {
      assert SetOf(t) == {};
    } else {
      var n := |t| - 1;
      NoDupCount(t[..n]);
      assert t == t[..n] + [t[n]];
      assert SetOf(t) == SetOf(t[..n]) + {t[n]};
    }
  }

  lemma {:induction false} SubsetCount<T>(a: set<T>, b: set<T>)
    requires a <= b
    ensures |a| <= |b|
  {
    if a != {} {
      var x :| x in a;
      SubsetCount(a - {x}, b - {x});
    }
  }

  lemma FreeValid(g: Geometry, s: Cache, r: Id)
    requires Valid(g, s)
    ensures Valid(g, FreeTo(g, s, r))
  {
    if r in s.tables {
      ReleaseValid(g, s, r, FreeTo(g, s, r));
    }
  }

  lemma TableInPool(g: Geometry, s: Cache, r: Id)
    requires Valid(g, s)
    ensures InPool(s, Table(s, r)) && NoDup(Table(s, r)) && |Table(s, r)| <= g.numBlocks
    ensures forall i :: 0 <= i < |Table(s, r)| ==> Owns(s, r, Table(s, r)[i]) && Table(s, r)[i] in s.meta
    ensures Readable(g, s, Table(s, r))
  {
    assert forall i :: 0 <= i < |Table(s, r)| ==> Owns(s, r, Table(s, r)[i]);
    NoDupBound(Table(s, r), g.numBlocks);
  }

  lemma SwapOutValid(g: Geometry, s: Cache, r: Id)
    requires Valid(g, s)
    ensures InPool(s, Table(s, r)) && Valid(g, SwapOutTo(g, s, r))
  {
    TableInPool(g, s, r);
    if Table(s, r) != [] {
      ReleaseValid(g, s, r, SwapOutTo(g, s, r));
    }
  }

  // ----- swap-in -----

  lemma {:induction false} OverwriteAt(pool: seq<Block>, bs: seq<nat>, data: seq<Block>)
    requires |bs| == |data| && NoDup(bs) && forall i :: 0 <= i < |bs| ==> bs[i] < |pool|
    ensures forall i :: 0 <= i < |bs| ==> Overwrite(pool, bs, data)[bs[i]] == data[i]
    ensures forall b :: 0 <= b < |pool| && b !in bs ==> Overwrite(pool, bs, data)[b] == pool[b]
  {
    if bs != [] {
      var n := |bs| - 1;
      OverwriteAt(pool, bs[..n], data[..n]);
    }
  }

  lemma PickedInPool(g: Geometry, s: Cache, blocks: seq<nat>)
    requires Valid(g, s) && Picked(s, blocks, |blocks|)
    ensures InPool(s, blocks)
  {
  }

  /** The overwritten table must be empty: otherwise its blocks belong to nobody and never return. */
  lemma SwapInValidExactly(g: Geometry, s: Cache, r: Id, blocks: seq<nat>)
    requires Valid(g, s) && r in s.swap && Picked(s, blocks, |s.swap[r]|)
    ensures InPool(s, blocks)
    ensures Valid(g, SwapInTo(g, s, r, blocks)) <==> Table(s, r) == []
  {
    if Table(s, r) == [] {
      SwapInKeepsValid(g, s, r, blocks);
    } else {
      assert Owns(s, r, Table(s, r)[0]);
      SwapInLoses(g, s, r, blocks, Table(s, r)[0]);
    }
  }

  /** A block of the overwritten table ends up neither owned nor free. */
  lemma SwapInLoses(g: Geometry, s: Cache, r: Id, blocks: seq<nat>, b: nat)
    requires Valid(g, s) && r in s.swap && Picked(s, blocks, |s.swap[r]|) && Owns(s, r, b)
    ensures InPool(s, blocks)
    ensures b < g.numBlocks && b !in SwapInTo(g, s, r, blocks).free && !Owned(SwapInTo(g, s, r, blocks), b)
  {
    PickedInPool(g, s, blocks);
    var s' := SwapInTo(g, s, r, blocks);
    assert b !in blocks;
    forall q
      ensures !Owns(s', q, b)
    {
      assert q != r ==> (Owns(s', q, b) <==> Owns(s, q, b));
    }
  }

  lemma SwapInKeepsValid(g: Geometry, s: Cache, r: Id, blocks: seq<nat>)
    requires Valid(g, s) && r in s.swap && Picked(s, blocks, |s.swap[r]|) && Table(s, r) == []
    ensures Valid(g, SwapInTo(g, s, r, blocks))
  {
    var s' := SwapInTo(g, s, r, blocks);
    assert Table(s, r) + blocks == blocks;
    TakesPartition(g, s, s', r, blocks);
    SwapInContents(g, s, r, blocks);
    assert MetaExact(g, s');
    assert NoStaleData(g, s');
  }

  lemma SwapInContents(g: Geometry, s: Cache, r: Id, blocks: seq<nat>)
    requires Valid(g, s) && r in s.swap && Picked(s, blocks, |s.swap[r]|)
    ensures InPool(s, blocks) && Shaped(g, SwapInTo(g, s, r, blocks))
    ensures forall b :: 0 <= b < g.numBlocks && b !in blocks ==> SwapInTo(g, s, r, blocks).pool[b] == s.pool[b]
  {
    PickedInPool(g, s, blocks);
    OverwriteAt(s.pool, blocks, s.swap[r]);
    var s' := SwapInTo(g, s, r, blocks);
    forall b | 0 <= b < g.numBlocks
      ensures s'.pool[b].Fits(g)
    {
      if b in blocks {
        var i :| 0 <= i < |blocks| && blocks[i] == b;
        assert s.swap[r][i].Fits(g);
      }
    }
  }

  // ----- store -----

  lemma WrittenValid(g: Geometry, s: Cache, b: nat, l: nat, o: nat, k: Vec, v: Vec)
    requires Valid(g, s) && b < |s.pool| && b in s.meta && l < g.layers && o < g.blockSize
    ensures Valid(g, Written(g, s, b, l, o, k, v))
  {
    var s' := Written(g, s, b, l, o, k, v);
    assert forall q, c: nat :: Owns(s', q, c) <==> Owns(s, q, c);
    forall c: nat | c < g.numBlocks && c !in s'.free
      ensures Owned(s', c)
    {
      var q :| Owns(s, q, c);
      assert Owns(s', q, c);
    }
    assert s'.pool[b].Fits(g);
    forall c, pl, l', o' | c in s'.meta && c < g.numBlocks && 0 <= l' < g.layers && s'.meta[c].filled <= o' < g.blockSize
      ensures s'.pool[c].At(pl, l', o') == g.zero
    {
      assert s.pool[c].At(pl, l', o') == g.zero;
    }
  }

  // ----- all operations -----

  predicate SwapsOverNothing(s: Cache, op: Op) {
    op.SwapIn? && SwapInFits(s, op.r) ==> Table(s, op.r) == []
  }

  lemma GrantedPicked(g: Geometry, s: Cache, tokens: nat, blocks: seq<nat>)
    requires Granted(g, s, tokens, blocks)
    ensures Picked(s, blocks, |blocks|)
  {
  }

  /** From a valid cache, every operation ends in a valid cache if and only if it swaps over no blocks. */
  lemma StepValidExactly(g: Geometry, s: Cache, op: Op)
    requires Valid(g, s) && Enabled(g, s, op)
    ensures Valid(g, Apply(g, s, op)) <==> SwapsOverNothing(s, op)
  {
    match op
    case Allocate(r, n, blocks) =>
      GrantedPicked(g, s, n, blocks);
      AllocateValid(g, s, r, blocks);
    case Extend(r, n, blocks) =>
      var d := ExtendDemand(g, s, r, n);
      if d.Some? {
        GrantedPicked(g, s, d.value, blocks);
        AllocateValid(g, s, r, blocks);
      }
    case Free(r) => FreeValid(g, s, r);
    case SwapOut(r) => SwapOutValid(g, s, r);
    case SwapIn(r, blocks) =>
      if SwapInFits(s, r) { SwapInValidExactly(g, s, r, blocks); }
    case Store(r, l, p, k, v, blocks, stored) =>
      StoreValid(g, s, op);
  }

  lemma StoreValid(g: Geometry, s: Cache, op: Op)
    requires Valid(g, s) && Enabled(g, s, op) && op.Store?
    ensures Valid(g, Apply(g, s, op))
  {
    var r, blocks := op.r, op.blocks;
    if blocks != [] {
      GrantedPicked(g, s, g.blockSize, blocks);
      AllocateValid(g, s, r, blocks);
    }
    var s' := if blocks == [] then s else AllocateTo(s, r, blocks);
    if op.stored {
      TableInPool(g, s', r);
      var i := Quot(op.p, g.blockSize);
      PartsPosition(op.p, g.blockSize);
      assert Table(s', r)[i] in s'.meta;
      WrittenValid(g, s', Table(s', r)[i], op.l, Rem(op.p, g.blockSize), op.k, op.v);
    }
  }

  // ----- runs -----

  /** No operation takes blocks for a request whose data is in swap space. */
  predicate Allowed(s: Cache, op: Op) {
    op.Allocate? || op.Extend? || op.Store? ==> op.r !in s.swap
  }

  lemma StepDisciplined(g: Geometry, s: Cache, op: Op)
    requires Valid(g, s) && Enabled(g, s, op) && Disciplined(s) && Allowed(s, op)
    ensures Valid(g, Apply(g, s, op)) && Disciplined(Apply(g, s, op))
  {
    StepValidExactly(g, s, op);
    DisciplineKept(g, s, op);
  }

  lemma DisciplineKept(g: Geometry, s: Cache, op: Op)
    requires Valid(g, s) && Enabled(g, s, op) && Disciplined(s) && Allowed(s, op)
    ensures Disciplined(Apply(g, s, op))
  {
  }

  ghost predicate Runs(g: Geometry, s: Cache, ops: seq<Op>)
    decreases |ops|
  {
    ops == [] ||
    (Valid(g, s) && Enabled(g, s, ops[0]) && Allowed(s, ops[0]) && Runs(g, Apply(g, s, ops[0]), ops[1..]))
  }

  ghost function After(g: Geometry, s: Cache, ops: seq<Op>): Cache
    requires Runs(g, s, ops)
    decreases |ops|
  {
    if ops == [] then s else After(g, Apply(g, s, ops[0]), ops[1..])
  }

  /** The partition, the metadata and the absence of stale data hold in every reachable cache. */
  lemma {:induction false} ReachableValid(g: Geometry, s: Cache, ops: seq<Op>)
    requires Valid(g, s) && Disciplined(s) && Runs(g, s, ops)
    ensures Valid(g, After(g, s, ops)) && Disciplined(After(g, s, ops))
    decreases |ops|
  {
    if ops != [] {
      StepDisciplined(g, s, ops[0]);
      ReachableValid(g, Apply(g, s, ops[0]), ops[1..]);
    }
  }

  /** Enabled and allowed operations one after the other; nothing is asked of the caches in between. */
  ghost predicate Legal(g: Geometry, s: Cache, ops: seq<Op>)
    requires Valid(g, s) && Disciplined(s)
    decreases |ops|
  {
    ops == [] ||
    (Enabled(g, s, ops[0]) && Allowed(s, ops[0])
     && (StepDisciplined(g, s, ops[0]); Legal(g, Apply(g, s, ops[0]), ops[1..])))
  }

  /** From a valid disciplined cache every such sequence is a run: validity in between comes for free. */
  lemma {:induction false} LegalRuns(g: Geometry, s: Cache, ops: seq<Op>)
    requires Valid(g, s) && Disciplined(s)
    ensures Legal(g, s, ops) <==> Runs(g, s, ops)
    decreases |ops|
  {
    if ops != [] && Enabled(g, s, ops[0]) && Allowed(s, ops[0]) {
      StepDisciplined(g, s, ops[0]);
      LegalRuns(g, Apply(g, s, ops[0]), ops[1..]);
    }
  }

  lemma {:induction false} RunsAppend(g: Geometry, s: Cache, a: seq<Op>, b: seq<Op>)
    requires Runs(g, s, a)
    ensures Runs(g, s, a + b) <==> Runs(g, After(g, s, a), b)
    ensures Runs(g, s, a + b) ==> After(g, s, a + b) == After(g, After(g, s, a), b)
    decreases |a|
  {
    if a == [] {
      assert a + b == b;
    } else {
      assert (a + b)[1..] == a[1..] + b && (a + b)[0] == a[0];
      RunsAppend(g, Apply(g, s, a[0]), a[1..], b);
    }
  }

  // ----- what the discipline is for -----

  /** Allocating for a swapped-out request leaks its new block when the request swaps back in. */
  lemma AllocateWhileSwappedLeaks(g: Geometry, s: Cache, r: Id, a: nat, b: nat)
    requires Valid(g, s) && r in s.swap && |s.swap[r]| == 1 && Table(s, r) == []
    requires a != b && {a, b} <= s.free
    ensures Enabled(g, s, Allocate(r, 1, [a]))
    ensures var s' := Apply(g, s, Allocate(r, 1, [a]));
            Valid(g, s') && Enabled(g, s', SwapIn(r, [b])) && !Owned(Apply(g, s', SwapIn(r, [b])), a)
            && a !in Apply(g, s', SwapIn(r, [b])).free
  {
    SubsetCount({a, b}, s.free);
    OneBlock(g, 1);
    AllocateValid(g, s, r, [a]);
    OverwrittenTable(g, AllocateTo(s, r, [a]), r, a, b);
  }

  lemma OverwrittenTable(g: Geometry, s: Cache, r: Id, a: nat, b: nat)
    requires Valid(g, s) && r in s.swap && |s.swap[r]| == 1 && Table(s, r) == [a] && b in s.free && b != a
    ensures Enabled(g, s, SwapIn(r, [b]))
    ensures !Owned(Apply(g, s, SwapIn(r, [b])), a) && a !in Apply(g, s, SwapIn(r, [b])).free
  {
    SubsetCount({b}, s.free);
    assert Owns(s, r, a);
    SwapInLoses(g, s, r, [b], a);
  }
}
