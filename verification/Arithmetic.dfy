/** Floor division and remainder by a positive number, by repeated subtraction, so that proofs about paged
    addresses stay linear; DivMod says they are the usual / and %. */
module Arithmetic {
  import opened Types

  function Quot(p: nat, n: Pos): nat { if p < n then 0 else 1 + Quot(p - n, n) }

  function Rem(p: nat, n: Pos): (r: nat)
    ensures r < n
  { if p < n then p else Rem(p - n, n) }

  /** Slot o of page i, for pages of n slots. */
  function Position(i: nat, o: nat, n: Pos): nat { if i == 0 then o else n + Position(i - 1, o, n) }

  lemma {:induction false} PositionIsProduct(i: nat, o: nat, n: Pos)
    ensures Position(i, o, n) == i * n + o
  {
    if i > 0 {
      PositionIsProduct(i - 1, o, n);
      assert i * n == (i - 1) * n + n;
    }
  }

  lemma {:induction false} PositionParts(i: nat, o: nat, n: Pos)
    requires o < n
    ensures Quot(Position(i, o, n), n) == i && Rem(Position(i, o, n), n) == o
  {
    if i > 0 { PositionParts(i - 1, o, n); }
  }

  lemma {:induction false} PartsPosition(p: nat, n: Pos)
    ensures p == Position(Quot(p, n), Rem(p, n), n) && Rem(p, n) < n
  {
    if p >= n { PartsPosition(p - n, n); }
  }

  lemma DivMod(p: nat, n: Pos)
    ensures Quot(p, n) == p / n && Rem(p, n) == p % n
  {
    var q, r := p / n, p % n;
    SplitBy(p, n);
    PositionIsProduct(q, r, n);
    PositionParts(q, r, n);
  }

  lemma SplitBy(p: nat, n: Pos)
    ensures 0 <= p / n && 0 <= p % n < n && p == (p / n) * n + p % n
  {
  }

  lemma {:induction false} PositionOffset(i: nat, o: nat, n: Pos)
    ensures Position(i, o, n) == Position(i, 0, n) + o
  {
    if i > 0 { PositionOffset(i - 1, o, n); }
  }

  lemma {:induction false} PositionMonotone(i: nat, j: nat, n: Pos)
    requires i < j
    ensures Position(i, 0, n) + n <= Position(j, 0, n)
  {
    if i + 1 < j { PositionMonotone(i, j - 1, n); }
  }

  lemma {:induction false} QuotBelow(p: nat, k: nat, n: Pos)
    requires p < Position(k, 0, n)
    ensures Quot(p, n) < k
  {
    if p >= n { QuotBelow(p - n, k - 1, n); }
  }

  // ----- the ceiling used for block counts -----

  function Ceil(t: nat, n: Pos): nat { Quot(t + n - 1, n) }

  /** Ceil(t, n) is the least number of pages of n slots that hold t tokens. */
  lemma CeilLeast(t: nat, n: Pos, k: nat)
    ensures Ceil(t, n) <= k <==> t <= Position(k, 0, n)
  {
    var q := Ceil(t, n);
    PartsPosition(t + n - 1, n);
    PositionOffset(q, Rem(t + n - 1, n), n);
    if q < k { PositionMonotone(q, k, n); }
    if k < q { PositionMonotone(k, q, n); }
  }

  /** The ceiling of whole blocks is exact. */
  lemma CeilExact(k: nat, n: Pos)
    ensures Ceil(Position(k, 0, n), n) == k
  {
    PositionOffset(k, n - 1, n);
    PositionParts(k, n - 1, n);
  }
}
