/** The three cache operations the scheduler performs, with their effect on the block counts. */
module KvBudget {
  import opened Types
  import opened KvModel
  import opened KvInvariants
  import opened PagedKvCache
  import opened KvLedger

  /** A valid cache in which nobody allocated for a swapped-out request. */
  ghost predicate Ready(kv: PagedKVCache)
    reads kv, kv.pool
  {
    kv.Sound() && Disciplined(kv.View())
  }

  // ----- series of operations, as runs of the cache -----

  ghost predicate Follows(g: Geometry, before: Cache, ops: seq<Op>, after: Cache) {
    Runs(g, before, ops) && After(g, before, ops) == after
  }

  lemma Follow(g: Geometry, before: Cache, ops: seq<Op>, s: Cache, op: Op, s': Cache)
    requires Follows(g, before, ops, s) && Valid(g, s) && Enabled(g, s, op) && Allowed(s, op) && Apply(g, s, op) == s'
    ensures Follows(g, before, ops + [op], s')
  {
    assert [op][1..] == [];
    RunsAppend(g, before, ops, [op]);
  }

  lemma FollowAll(g: Geometry, before: Cache, a: seq<Op>, s: Cache, b: seq<Op>, after: Cache)
    requires Follows(g, before, a, s) && Follows(g, s, b, after)
    ensures Follows(g, before, a + b, after)
  {
    RunsAppend(g, before, a, b);
  }

  // ----- the operations -----

  /** Afterwards the request has neither table nor swap entry, and what its table held is free. */
  method FreeHeld(kv: PagedKVCache, id: Id) returns (ghost ops: seq<Op>)
    requires Ready(kv)
    modifies kv, kv.pool
    ensures Ready(kv) && LedgerOf(kv.View()) == LedgerOf(old(kv.View())).Freed(id)
    ensures id !in kv.tables && id !in kv.swap && kv.free == old(kv.free) + SetOf(Table(old(kv.View()), id))
    ensures ops == [Free(id)] && Follows(kv.geo, old(kv.View()), ops, kv.View())
  {
    ghost var before := kv.View();
    FreeLedger(kv.geo, before, id);
    kv.Free(id);
    ops := [] + [Free(id)];
    Follow(kv.geo, before, [], before, Free(id), kv.View());
  }

  method FreeFor(kv: PagedKVCache, id: Id) returns (ghost ops: seq<Op>)
    requires Ready(kv)
    modifies kv, kv.pool
    ensures Ready(kv) && LedgerOf(kv.View()) == LedgerOf(old(kv.View())).Freed(id)
    ensures ops == [Free(id)] && Follows(kv.geo, old(kv.View()), ops, kv.View())
  {
    ops := FreeHeld(kv, id);
  }

  /** ok: swap_out did not raise over an empty table; if it did, nothing changed. */
  method SwapOutFor(kv: PagedKVCache, id: Id) returns (ok: bool, ghost ops: seq<Op>)
    requires Ready(kv)
    modifies kv, kv.pool
    ensures ok <==> !LedgerOf(old(kv.View())).Empty(id)
    ensures Ready(kv) && LedgerOf(kv.View()) == LedgerOf(old(kv.View())).SwappedOut(id)
    ensures ops == [SwapOut(id)] && Follows(kv.geo, old(kv.View()), ops, kv.View())
  {
    ghost var before := kv.View();
    SwapOutLedger(kv.geo, before, id);
    var res := kv.SwapOut(id);
    ok := res.Ok?;
    ops := [] + [SwapOut(id)];
    Follow(kv.geo, before, [], before, SwapOut(id), kv.View());
  }

  lemma SwapInFollows(g: Geometry, s: Cache, op: Op)
    requires Valid(g, s) && Disciplined(s) && op.SwapIn? && SwapInFits(s, op.r) && Picked(s, op.blocks, |s.swap[op.r]|)
    ensures Enabled(g, s, op) && Valid(g, Apply(g, s, op)) && Disciplined(Apply(g, s, op))
    ensures Follows(g, s, [op], Apply(g, s, op))
  {
    StepDisciplined(g, s, op);
    Follow(g, s, [], s, op, Apply(g, s, op));
    assert [] + [op] == [op];
  }

  method SwapInFor(kv: PagedKVCache, id: Id) returns (ok: bool, ghost ops: seq<Op>)
    requires Ready(kv)
    modifies kv, kv.pool
    ensures Ready(kv) && ok == LedgerOf(old(kv.View())).Fits(id)
    ensures ok ==> LedgerOf(old(kv.View())).swapped[id] > 0
    ensures LedgerOf(kv.View()) == if ok then LedgerOf(old(kv.View())).SwappedIn(id) else LedgerOf(old(kv.View()))
    ensures ops == (if ok then [SwapIn(id, Table(kv.View(), id))] else [])
    ensures Follows(kv.geo, old(kv.View()), ops, kv.View())
  {
    ghost var before := kv.View();
    ok := kv.SwapIn(id);
    ops := [];
    if ok {
      SwapInLedger(kv.geo, before, id, kv.tables[id]);
      SwapInFollows(kv.geo, before, SwapIn(id, kv.tables[id]));
      ops := [SwapIn(id, kv.tables[id])];
    }
  }
}
