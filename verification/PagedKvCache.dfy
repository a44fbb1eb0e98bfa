/** The cache object: its methods work in place, block by block, and do exactly what the model's events say. */
module PagedKvCache {
  import opened Types
  import opened Tensors
  import opened Arithmetic
  import opened KvModel
  import opened KvInvariants

  // ----- popping blocks one by one, as the loops do -----

  function Minus(free: set<nat>, bs: seq<nat>): set<nat> {
    if bs == [] then free else Minus(free, bs[..|bs| - 1]) - {bs[|bs| - 1]}
  }

  function Plus(meta: map<nat, Meta>, bs: seq<nat>, filled: nat): map<nat, Meta> {
    if bs == [] then meta
    else var n := |bs| - 1; Plus(meta, bs[..n], filled)[bs[n] := Meta(bs[n], 1, filled)]
  }

  predicate Popped(free: set<nat>, bs: seq<nat>) {
    bs == [] || (Popped(free, bs[..|bs| - 1]) && bs[|bs| - 1] in Minus(free, bs[..|bs| - 1]))
  }

  predicate InRange(bs: seq<nat>, n: nat) { forall i :: 0 <= i < |bs| ==> bs[i] < n }

  lemma PopOne(free: set<nat>, meta: map<nat, Meta>, bs: seq<nat>, filled: nat, b: nat)
    requires Popped(free, bs) && b in Minus(free, bs)
    ensures Popped(free, bs + [b]) && Minus(free, bs + [b]) == Minus(free, bs) - {b}
    ensures Plus(meta, bs + [b], filled) == Plus(meta, bs, filled)[b := Meta(b, 1, filled)]
  {
    assert (bs + [b])[..|bs|] == bs;
  }

  lemma OverwriteOne(pool: seq<Block>, bs: seq<nat>, data: seq<Block>, b: nat, d: Block)
    requires |bs| == |data| && InRange(bs, |pool|) && b < |pool|
    ensures InRange(bs + [b], |pool|)
    ensures Overwrite(pool, bs + [b], data + [d]) == Overwrite(pool, bs, data)[b := d]
  {
    assert (bs + [b])[..|bs|] == bs && (data + [d])[..|bs|] == data;
  }

  lemma {:induction false} MinusAll(free: set<nat>, bs: seq<nat>)
    ensures Minus(free, bs) == free - SetOf(bs)
  {
    if bs != [] {
      var n := |bs| - 1;
      MinusAll(free, bs[..n]);
      assert bs == bs[..n] + [bs[n]];
      SetOfAppend(bs[..n], bs[n]);
    }
  }

  lemma {:induction false} PoppedDistinct(free: set<nat>, bs: seq<nat>)
    requires Popped(free, bs)
    ensures NoDup(bs) && (forall i :: 0 <= i < |bs| ==> bs[i] in free)
  {
    if bs != [] {
      var n := |bs| - 1;
      PoppedDistinct(free, bs[..n]);
      MinusAll(free, bs[..n]);
      assert bs == bs[..n] + [bs[n]];
      NoDupAppend(bs[..n], bs[n]);
    }
  }

  lemma NewMetaAppend(bs: seq<nat>, b: nat, filled: nat)
    ensures NewMeta(bs + [b], filled) == NewMeta(bs, filled)[b := Meta(b, 1, filled)]
  {
    SetOfAppend(bs, b);
  }

  lemma {:induction false} PlusAll(meta: map<nat, Meta>, bs: seq<nat>, filled: nat)
    ensures Plus(meta, bs, filled) == meta + NewMeta(bs, filled)
  {
    if bs != [] {
      var n := |bs| - 1;
      PlusAll(meta, bs[..n], filled);
      assert bs == bs[..n] + [bs[n]];
      NewMetaAppend(bs[..n], bs[n], filled);
    }
  }

  lemma PoppedAll(free: set<nat>, meta: map<nat, Meta>, bs: seq<nat>, filled: nat)
    requires Popped(free, bs)
    ensures NoDup(bs) && (forall i :: 0 <= i < |bs| ==> bs[i] in free)
    ensures Minus(free, bs) == free - SetOf(bs)
    ensures Plus(meta, bs, filled) == meta + NewMeta(bs, filled)
  {
    PoppedDistinct(free, bs);
    MinusAll(free, bs);
    PlusAll(meta, bs, filled);
  }

  class PagedKVCache {
    const geo: Geometry
    const pool: array<Block>
    var free: set<nat>
    var tables: map<Id, seq<nat>>
    var meta: map<nat, Meta>
    var swap: map<Id, seq<Block>>

    ghost function View(): Cache
      reads this, pool
    {
      Cache(pool[..], free, tables, meta, swap)
    }

    ghost predicate Sound()
      reads this, pool
    {
      Valid(geo, View())
    }

    constructor (geo: Geometry)
      ensures this.geo == geo && fresh(pool) && View() == Init(geo)
      ensures Sound() && Disciplined(View())
    {
      this.geo := geo;
      pool := new Block[geo.numBlocks](_ => ZeroBlock(geo));
      free := Range(geo.numBlocks);
      tables, meta, swap := map[], map[], map[];
      new;
      assert pool[..] == Init(geo).pool;
      InitValid(geo);
    }

    method CanAllocate(tokens: nat) returns (ok: bool)
      ensures ok <==> !Fails(geo, View(), tokens)
    {
      DivMod(tokens + geo.blockSize - 1, geo.blockSize);
      var needed := (tokens + geo.blockSize - 1) / geo.blockSize;
      ok := needed <= |free|;
    }

    /** The allocation loop: pop a block, note it, create its metadata. */
    method TakeBlocks(needed: nat) returns (taken: seq<nat>)
      requires needed <= |free|
      modifies this`free, this`meta
      ensures |taken| == needed && NoDup(taken) && forall i :: 0 <= i < needed ==> taken[i] in old(free)
      ensures free == old(free) - SetOf(taken)
      ensures meta == old(meta) + NewMeta(taken, 0)
    {
      taken := [];
      for i := 0 to needed
        invariant |taken| == i && Popped(old(free), taken) && |free| == |old(free)| - i
        invariant free == Minus(old(free), taken) && meta == Plus(old(meta), taken, 0)
      {
        var b: nat :| b in free;
        PopOne(old(free), old(meta), taken, 0, b);
        free := free - {b};
        taken := taken + [b];
        meta := meta[b := Meta(b, 1, 0)];
      }
      PoppedAll(old(free), old(meta), taken, 0);
    }

    method Allocate(r: Id, tokens: nat) returns (res: Result<seq<nat>, KvError>)
      requires Sound()
      modifies this
      ensures Sound()
      ensures res.Ok? <==> !Fails(geo, old(View()), tokens)
      ensures res.Err? ==> res.error == OutOfMemory && View() == old(View())
      ensures res.Ok? ==> Picked(old(View()), res.value, BlocksNeeded(geo, tokens))
                          && View() == AllocateTo(old(View()), r, res.value)
    {
      DivMod(tokens + geo.blockSize - 1, geo.blockSize);
      var needed := (tokens + geo.blockSize - 1) / geo.blockSize;
      if needed > |free| {
        return Err(OutOfMemory);
      }
      ghost var before := View();
      var taken := TakeBlocks(needed);
      if r !in tables {
        tables := tables[r := []];
      }
      tables := tables[r := tables[r] + taken];
      assert View() == AllocateTo(before, r, taken);
      AllocateValid(geo, before, r, taken);
      res := Ok(taken);
    }

    method Extend(r: Id, tokens: nat) returns (res: Result<seq<nat>, KvError>)
      requires Sound()
      modifies this
      ensures Sound()
      ensures var op := Op.Extend(r, tokens, if res.Ok? then res.value else []);
              Enabled(geo, old(View()), op) && View() == Apply(geo, old(View()), op)
      ensures res.Err? <==> var d := ExtendDemand(geo, old(View()), r, tokens);
                            d.Some? && Fails(geo, old(View()), d.value)
    {
      if r !in tables {
        res := Allocate(r, tokens);
        return;
      }
      var blocks := tables[r];
      if blocks == [] {
        res := Allocate(r, tokens);
        return;
      }
      var last := blocks[|blocks| - 1];
      if last in meta && meta[last].filled < geo.blockSize {
        return Ok([]);
      }
      res := Allocate(r, geo.blockSize);
    }

    /** The loop of free: drop one reference per block; at zero, clear the block and return it. */
    method DropReferences(blocks: seq<nat>)
      requires NoDup(blocks) && forall i :: 0 <= i < |blocks| ==> blocks[i] < pool.Length
      requires forall i :: 0 <= i < |blocks| ==> blocks[i] in meta && meta[blocks[i]].refCount == 1
      modifies this`free, this`meta, pool
      ensures pool[..] == ZeroBlocks(geo, old(pool[..]), blocks)
      ensures free == old(free) + SetOf(blocks) && meta == old(meta) - SetOf(blocks)
    {
      for i := 0 to |blocks|
        invariant pool[..] == ZeroBlocks(geo, old(pool[..]), blocks[..i])
        invariant free == old(free) + SetOf(blocks[..i])
        invariant meta == old(meta) - SetOf(blocks[..i])
      {
        var b := blocks[i];
        assert blocks[..i + 1] == blocks[..i] + [b];
        assert b in meta && meta[b].refCount == 1;
        if b in meta {
          meta := meta[b := meta[b].(refCount := meta[b].refCount - 1)];
          if meta[b].refCount <= 0 {
            pool[b] := ZeroBlock(geo);
            free := free + {b};
            meta := meta - {b};
          }
        }
      }
      assert blocks[..|blocks|] == blocks;
    }

    method Free(r: Id)
      requires Sound()
      modifies this, pool
      ensures Sound()
      ensures View() == FreeTo(geo, old(View()), r)
    {
      if r !in tables {
        return;
      }
      ghost var before := View();
      TableInPool(geo, before, r);
      var blocks := tables[r];
      tables := tables - {r};
      DropReferences(blocks);
      swap := swap - {r};
      assert View() == FreeTo(geo, before, r);
      FreeValid(geo, before, r);
    }

    /** The loop of swap_out: clear each block and return it, whatever its metadata. */
    method Vacate(blocks: seq<nat>)
      requires forall i :: 0 <= i < |blocks| ==> blocks[i] < pool.Length
      modifies this`free, this`meta, pool
      ensures pool[..] == ZeroBlocks(geo, old(pool[..]), blocks)
      ensures free == old(free) + SetOf(blocks) && meta == old(meta) - SetOf(blocks)
    {
      for i := 0 to |blocks|
        invariant pool[..] == ZeroBlocks(geo, old(pool[..]), blocks[..i])
        invariant free == old(free) + SetOf(blocks[..i])
        invariant meta == old(meta) - SetOf(blocks[..i])
      {
        var b := blocks[i];
        assert blocks[..i + 1] == blocks[..i] + [b];
        pool[b] := ZeroBlock(geo);
        free := free + {b};
        if b in meta {
          meta := meta - {b};
        }
      }
      assert blocks[..|blocks|] == blocks;
    }

    /** torch.stack of the blocks. */
    method Stack(blocks: seq<nat>) returns (data: seq<Block>)
      requires forall i :: 0 <= i < |blocks| ==> blocks[i] < pool.Length
      ensures InPool(View(), blocks) && data == Gathered(View(), blocks)
    {
      data := [];
      for i := 0 to |blocks|
        invariant data == Gathered(View(), blocks)[..i]
      {
        data := data + [pool[blocks[i]]];
      }
    }

    /** torch.stack refuses an empty list, so a table without blocks is an error and changes nothing. */
    method SwapOut(r: Id) returns (res: Result<(), KvError>)
      requires Sound()
      modifies this, pool
      ensures Sound()
      ensures res == if r in old(tables) && old(tables)[r] == [] then Err(EmptyStack) else Ok(())
      ensures InPool(old(View()), Table(old(View()), r)) && View() == SwapOutTo(geo, old(View()), r)
    {
      ghost var before := View();
      TableInPool(geo, before, r);
      if r !in tables {
        return Ok(());
      }
      var blocks := tables[r];
      if blocks == [] {
        return Err(EmptyStack);
      }
      var data := Stack(blocks);
      swap := swap[r := data];
      Vacate(blocks);
      tables := tables[r := []];
      assert View() == SwapOutTo(geo, before, r);
      SwapOutValid(geo, before, r);
      res := Ok(());
    }

    /** The loop of swap_in: pop a block, copy one block of data back, mark it full. */
    method Refill(data: seq<Block>) returns (blocks: seq<nat>)
      requires |data| <= |free| && forall b :: b in free ==> b < pool.Length
      modifies this`free, this`meta, pool
      ensures |blocks| == |data| && NoDup(blocks)
      ensures forall i :: 0 <= i < |data| ==> blocks[i] in old(free) && blocks[i] < pool.Length
      ensures free == old(free) - SetOf(blocks)
      ensures pool[..] == Overwrite(old(pool[..]), blocks, data)
      ensures meta == old(meta) + NewMeta(blocks, geo.blockSize)
    {
      blocks := [];
      for i := 0 to |data|
        invariant |blocks| == i && Popped(old(free), blocks) && |free| == |old(free)| - i
        invariant free == Minus(old(free), blocks) && meta == Plus(old(meta), blocks, geo.blockSize)
        invariant forall j :: 0 <= j < i ==> blocks[j] < pool.Length
        invariant forall b :: b in free ==> b < pool.Length
        invariant pool[..] == Overwrite(old(pool[..]), blocks, data[..i])
      {
        var b := RefillOne(data[i]);
        PopOne(old(free), old(meta), blocks, geo.blockSize, b);
        OverwriteOne(old(pool[..]), blocks, data[..i], b, data[i]);
        assert data[..i + 1] == data[..i] + [data[i]];
        blocks := blocks + [b];
      }
      assert data[..|data|] == data;
      PoppedAll(old(free), old(meta), blocks, geo.blockSize);
    }

    method RefillOne(d: Block) returns (b: nat)
      requires free != {} && forall b :: b in free ==> b < pool.Length
      modifies this`free, this`meta, pool
      ensures b in old(free) && b < pool.Length && free == old(free) - {b}
      ensures pool[..] == old(pool[..])[b := d] && meta == old(meta)[b := Meta(b, 1, geo.blockSize)]
    {
      b :| b in free;
      free := free - {b};
      pool[b] := d;
      meta := meta[b := Meta(b, 1, geo.blockSize)];
    }

    method SwapIn(r: Id) returns (ok: bool)
      requires Sound()
      modifies this, pool
      ensures ok <==> SwapInFits(old(View()), r)
      ensures !ok ==> View() == old(View())
      ensures ok ==> r in tables && Picked(old(View()), tables[r], |old(swap)[r]|)
                     && InPool(old(View()), tables[r]) && View() == SwapInTo(geo, old(View()), r, tables[r])
      ensures Sound() <==> ok ==> Table(old(View()), r) == []
    {
      if r !in swap {
        return false;
      }
      var data := swap[r];
      if |data| > |free| {
        return false;
      }
      ghost var before := View();
      assert forall b :: b in free ==> b < pool.Length;
      var blocks := Refill(data);
      tables := tables[r := blocks];
      swap := swap - {r};
      PickedInPool(geo, before, blocks);
      assert View() == SwapInTo(geo, before, r, blocks);
      SwapInValidExactly(geo, before, r, blocks);
      ok := true;
    }

    method GetKvForRequest(r: Id, l: nat) returns (out: Option<(seq<Vec>, seq<Vec>)>)
      requires Sound() && l < geo.layers
      ensures Readable(geo, View(), Table(View(), r)) && out == GetKv(geo, View(), r, l)
    {
      TableInPool(geo, View(), r);
      if r !in tables || tables[r] == [] {
        return None;
      }
      var keys, values := Concatenate(tables[r], l);
      out := Some((keys, values));
    }

    /** torch.cat of the filled part of each block. */
    method Concatenate(blocks: seq<nat>, l: nat) returns (keys: seq<Vec>, values: seq<Vec>)
      requires l < geo.layers && Readable(geo, View(), blocks)
      ensures keys == Gather(geo, View(), blocks, K, l) && values == Gather(geo, View(), blocks, V, l)
    {
      keys, values := [], [];
      for i := 0 to |blocks|
        invariant Readable(geo, View(), blocks[..i])
        invariant keys == Gather(geo, View(), blocks[..i], K, l)
        invariant values == Gather(geo, View(), blocks[..i], V, l)
      {
        var b := blocks[i];
        assert blocks[..i + 1][..i] == blocks[..i];
        var filled := if b in meta then meta[b].filled else geo.blockSize;
        keys := keys + pool[b].keys[l][..filled];
        values := values + pool[b].values[l][..filled];
      }
      assert blocks[..|blocks|] == blocks;
    }

    /** The slot assignments of store_kv and the update of the fill mark. */
    method WriteSlot(b: nat, l: nat, o: nat, k: Vec, v: Vec)
      requires b < pool.Length && pool[b].Fits(geo) && l < geo.layers && o < geo.blockSize
      modifies pool, this`meta
      ensures View() == Written(geo, old(View()), b, l, o, k, v)
    {
      pool[b] := pool[b].Put(l, o, k, v);
      if b in meta {
        meta := meta[b := meta[b].(filled := if meta[b].filled < o + 1 then o + 1 else meta[b].filled)];
      }
    }

    method StoreKv(r: Id, l: nat, p: nat, k: Vec, v: Vec) returns (res: Result<(), KvError>, ghost op: Op)
      requires Sound() && l < geo.layers
      modifies this, pool
      ensures Sound()
      ensures op.Store? && op.r == r && op.l == l && op.p == p && op.k == k && op.v == v
      ensures Enabled(geo, old(View()), op) && View() == Apply(geo, old(View()), op)
      ensures res.Ok? <==> op.stored || r !in old(tables)
      ensures res.Err? ==> res.error == if StoreGrows(geo, old(View()), r, p) && Fails(geo, old(View()), geo.blockSize)
                                        then OutOfMemory else IndexError
    {
      op := Store(r, l, p, k, v, [], false);
      if r !in tables {
        return Ok(()), op;
      }
      ghost var before := View();
      DivMod(p, geo.blockSize);
      OneBlock(geo, geo.blockSize);
      var blocks := tables[r];
      var i, o := p / geo.blockSize, p % geo.blockSize;
      if i >= |blocks| {
        var grown := Allocate(r, geo.blockSize);
        if grown.Err? {
          return Err(grown.error), op;
        }
        op := Store(r, l, p, k, v, grown.value, false);
        blocks := tables[r];
      }
      assert blocks == Table(before, r) + op.blocks;
      if i >= |blocks| {
        return Err(IndexError), op;
      }
      op := Store(r, l, p, k, v, op.blocks, true);
      assert Enabled(geo, before, op);
      StoreValid(geo, before, op);
      TableInPool(geo, View(), r);
      WriteSlot(blocks[i], l, o, k, v);
      res := Ok(());
    }
  }
}
