/** The block counts the scheduler budgets with are those of the cache, operation by operation. */
module KvLedger {
  import opened Types
  import opened KvModel
  import opened KvInvariants
  import opened SchedModel
  import opened SchedSwap

  function Lengths<T>(m: map<Id, seq<T>>): map<Id, nat> { map r | r in m :: |m[r]| }

  function LedgerOf(s: Cache): Ledger { Ledger(|s.free|, Lengths(s.tables), Lengths(s.swap)) }

  lemma LengthsUpdate<T>(m: map<Id, seq<T>>, r: Id, t: seq<T>)
    ensures Lengths(m[r := t]) == Lengths(m)[r := |t|]
  {
  }

  lemma LengthsRemove<T>(m: map<Id, seq<T>>, r: Id)
    ensures Lengths(m - {r}) == Lengths(m) - {r}
  {
  }

  lemma {:induction false} DisjointCount<T>(a: set<T>, b: set<T>)
    requires a !! b
    ensures |a + b| == |a| + |b|
  {
    assert a + b - b == a;
  }

  lemma FreedBlocks(g: Geometry, s: Cache, r: Id)
    requires Valid(g, s)
    ensures |s.free + SetOf(Table(s, r))| == |s.free| + |Table(s, r)|
  {
    TableInPool(g, s, r);
    NoDupCount(Table(s, r));
    DisjointCount(s.free, SetOf(Table(s, r)));
  }

  lemma FreeLedger(g: Geometry, s: Cache, r: Id)
    requires Valid(g, s)
    ensures LedgerOf(FreeTo(g, s, r)) == LedgerOf(s).Freed(r)
  {
    FreedBlocks(g, s, r);
    LengthsRemove(s.tables, r);
    LengthsRemove(s.swap, r);
  }

  lemma SwapOutLedger(g: Geometry, s: Cache, r: Id)
    requires Valid(g, s)
    ensures InPool(s, Table(s, r)) && LedgerOf(SwapOutTo(g, s, r)) == LedgerOf(s).SwappedOut(r)
  {
    TableInPool(g, s, r);
    FreedBlocks(g, s, r);
    if Table(s, r) != [] {
      LengthsUpdate(s.tables, r, []);
      LengthsUpdate(s.swap, r, Gathered(s, s.tables[r]));
    }
  }

  lemma TakenBlocks(s: Cache, blocks: seq<nat>)
    requires Picked(s, blocks, |blocks|)
    ensures |s.free - SetOf(blocks)| == |s.free| - |blocks|
  {
    NoDupCount(blocks);
    DisjointCount(s.free - SetOf(blocks), SetOf(blocks));
    assert s.free - SetOf(blocks) + SetOf(blocks) == s.free;
  }

  lemma SwapInLedger(g: Geometry, s: Cache, r: Id, blocks: seq<nat>)
    requires Valid(g, s) && SwapInFits(s, r) && Picked(s, blocks, |s.swap[r]|)
    ensures LedgerOf(s).Fits(r) && InPool(s, blocks)
    ensures LedgerOf(SwapInTo(g, s, r, blocks)) == LedgerOf(s).SwappedIn(r)
  {
    TakenBlocks(s, blocks);
    PickedInPool(g, s, blocks);
    LengthsUpdate(s.tables, r, blocks);
    LengthsRemove(s.swap, r);
  }

  // ----- the ledger of a valid cache balances -----

  predicate InTable(m: map<Id, seq<nat>>, r: Id, b: nat) { r in m && b in m[r] }

  ghost predicate InSome(m: map<Id, seq<nat>>, b: nat) { exists r :: InTable(m, r, b) }

  ghost predicate Separate(m: map<Id, seq<nat>>) {
    && (forall r :: r in m ==> NoDup(m[r]))
    && (forall r, q, b: nat :: InTable(m, r, b) && InTable(m, q, b) ==> r == q)
  }

  lemma {:induction false} SeparateCount(m: map<Id, seq<nat>>, all: set<nat>)
    requires Separate(m) && forall b: nat :: b in all <==> InSome(m, b)
    ensures |all| == SumOf(Lengths(m))
    decreases |m|
  {
    if m == map[] {
      forall b: nat ensures b !in all { assert !InSome(m, b); }
      assert all == {} && Lengths(m) == map[];
    } else {
      var k :| k in m;
      SeparateRest(m, all, k);
      SeparateCount(m - {k}, all - SetOf(m[k]));
      NoDupCount(m[k]);
      DisjointCount(all - SetOf(m[k]), SetOf(m[k]));
      assert all - SetOf(m[k]) + SetOf(m[k]) == all;
      SumWithout(Lengths(m), k);
      assert Lengths(m) - {k} == Lengths(m - {k});
    }
  }

  lemma SeparateRest(m: map<Id, seq<nat>>, all: set<nat>, k: Id)
    requires Separate(m) && k in m && forall b: nat :: b in all <==> InSome(m, b)
    ensures Separate(m - {k}) && SetOf(m[k]) <= all
    ensures forall b: nat :: b in all - SetOf(m[k]) <==> InSome(m - {k}, b)
  {
    var rest := m - {k};
    assert forall r, b: nat :: InTable(rest, r, b) <==> r != k && InTable(m, r, b);
    forall b: nat ensures b in SetOf(m[k]) ==> b in all {
      if b in m[k] { assert InTable(m, k, b); }
    }
    forall b: nat ensures b in all - SetOf(m[k]) <==> InSome(rest, b) {
      if InSome(m, b) {
        var r :| InTable(m, r, b);
        if r == k { assert InTable(m, k, b); } else { assert InTable(rest, r, b); }
      }
      if InSome(rest, b) {
        var r :| InTable(rest, r, b);
        assert InTable(m, r, b);
        assert b in m[k] ==> InTable(m, k, b);
      }
    }
  }

  lemma UsedBlocks(g: Geometry, s: Cache, b: nat)
    requires Valid(g, s)
    ensures b in Range(g.numBlocks) - s.free <==> InSome(s.tables, b)
  {
    if b < g.numBlocks && b !in s.free {
      var r :| Owns(s, r, b);
      assert InTable(s.tables, r, b);
    }
    if InSome(s.tables, b) {
      var r :| InTable(s.tables, r, b);
      assert Owns(s, r, b);
    }
  }

  /** Free blocks plus the lengths of all tables make up the pool; no swapped-out request exceeds it. */
  lemma LedgerBalanced(g: Geometry, s: Cache)
    requires Valid(g, s)
    ensures LedgerOf(s).free + SumOf(LedgerOf(s).tables) == g.numBlocks
    ensures forall r :: r in LedgerOf(s).swapped ==> 0 < LedgerOf(s).swapped[r] <= g.numBlocks
  {
    var used := Range(g.numBlocks) - s.free;
    TablesSeparate(g, s);
    forall b: nat ensures b in used <==> InSome(s.tables, b) { UsedBlocks(g, s, b); }
    SeparateCount(s.tables, used);
    DisjointCount(used, s.free);
    assert used + s.free == Range(g.numBlocks);
  }

  lemma TablesSeparate(g: Geometry, s: Cache)
    requires Valid(g, s)
    ensures Separate(s.tables)
  {
    forall r, q, b: nat | InTable(s.tables, r, b) && InTable(s.tables, q, b) ensures r == q {
      assert Owns(s, r, b) && Owns(s, q, b);
    }
  }
}
