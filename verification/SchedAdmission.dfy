/** The admission loop: when it terminates, whom it preempts, what it reserves, and a closed form of the whole. */
module SchedAdmission {
  import opened Types
  import opened Arithmetic
  import opened SchedModel
  import opened SchedLists

  /** In how many queues, and how often, an id occurs. */
  function Total(s: Sched, id: Id): nat { Count(s.pending, id) + Count(s.active, id) + Count(s.preempted, id) }

  ghost predicate Well(s: Sched) { forall id :: Total(s, id) <= 1 }

  ghost predicate SameIds(s: Sched, s': Sched) { forall id :: Total(s', id) == Total(s, id) }

  lemma WellActive(s: Sched)
    requires Well(s)
    ensures Unique(s.active) && Unique(s.pending) && Unique(s.preempted)
  {
    forall id ensures Count(s.active, id) <= 1 && Count(s.pending, id) <= 1 && Count(s.preempted, id) <= 1 {
      assert Total(s, id) <= 1;
    }
  }

  lemma EvictIds(s: Sched, v: Req)
    requires v in s.active
    ensures SameIds(s, Evict(s, v))
  {
    CountMember(s.active, v);
    forall id ensures Total(Evict(s, v), id) == Total(s, id) {
      CountRemove(s.active, v.id, id);
      CountAppend(s.preempted, [v.(status := Preempted)], id);
    }
  }

  lemma AdmitIds(s: Sched)
    requires s.pending != []
    ensures SameIds(s, AdmitHead(s))
  {
    forall id ensures Total(AdmitHead(s), id) == Total(s, id) {
      CountAppend(s.active, [s.pending[0].(status := Prefill)], id);
    }
  }

  // ----- evicting along the eviction order -----

  function EvictAll(s: Sched, vs: seq<Req>): Sched
    decreases |vs|
  {
    if vs == [] then s else EvictAll(Evict(s, vs[0]), vs[1..])
  }

  /** The victims of one _try_preempt: up to and including the first that makes free >= needed. */
  function Victims(kv: Ledger, vs: seq<Req>, needed: nat): seq<Req>
    decreases |vs|
  {
    if vs == [] then []
    else
      var kv' := kv.SwappedOut(vs[0].id);
      if kv'.free >= needed then [vs[0]] else [vs[0]] + Victims(kv', vs[1..], needed)
  }

  lemma {:induction false} SkipsPrefill(s: Sched, cs: seq<Req>, needed: nat)
    ensures EvictUntil(s, cs, needed) == EvictUntil(s, Movable(cs), needed)
    decreases |cs|
  {
    if cs != [] {
      if cs[0].status.Prefill? {
        SkipsPrefill(s, cs[1..], needed);
      } else {
        Tail(cs[0], Movable(cs[1..]));
        SkipsPrefill(Evict(s, cs[0]), cs[1..], needed);
      }
    }
  }

  lemma {:induction false} EvictsVictims(s: Sched, vs: seq<Req>, needed: nat)
    requires forall i :: 0 <= i < |vs| ==> !vs[i].status.Prefill?
    ensures EvictUntil(s, vs, needed) == EvictAll(s, Victims(s.kv, vs, needed))
    decreases |vs|
  {
    if vs != [] {
      var s' := Evict(s, vs[0]);
      if s'.kv.free < needed {
        EvictsVictims(s', vs[1..], needed);
        Tail(vs[0], Victims(s'.kv, vs[1..], needed));
      }
    }
  }

  /** Blocks that a list of victims gives back. */
  function Freeable(kv: Ledger, vs: seq<Req>): nat {
    if vs == [] then 0 else kv.BlocksOf(vs[0].id) + Freeable(kv, vs[1..])
  }

  lemma {:induction false} BlocksUnaffected(kv: Ledger, vs: seq<Req>, id: Id)
    requires Count(vs, id) == 0
    ensures Freeable(kv.SwappedOut(id), vs) == Freeable(kv, vs)
  {
    if vs != [] { BlocksUnaffected(kv, vs[1..], id); }
  }

  lemma {:induction false} BlocksSplit(kv: Ledger, vs: seq<Req>, m: nat)
    requires m <= |vs|
    ensures Freeable(kv, vs) == Freeable(kv, vs[..m]) + Freeable(kv, vs[m..])
  {
    if m == 0 {
      assert vs[..0] == [] && vs[0..] == vs;
    } else {
      BlocksSplit(kv, vs[1..], m - 1);
      assert vs[..m] == [vs[0]] + vs[1..][..m - 1] && vs[m..] == vs[1..][m - 1..];
      Tail(vs[0], vs[1..][..m - 1]);
    }
  }

  /** Evicting a prefix of the order: ids stay, the order loses that prefix, its blocks become free. */
  lemma {:induction false} EvictPrefix(s: Sched, m: nat)
    requires Well(s) && m <= |EvictionOrder(s.active)|
    ensures var vs, s' := EvictionOrder(s.active), EvictAll(s, EvictionOrder(s.active)[..m]);
            && Well(s') && SameIds(s, s') && s'.pending == s.pending && |s'.active| == |s.active| - m
            && EvictionOrder(s'.active) == vs[m..]
            && s'.kv.free == s.kv.free + Freeable(s.kv, vs[..m])
            && Freeable(s'.kv, vs[m..]) == Freeable(s.kv, vs[m..])
    decreases m
  {
    var vs := EvictionOrder(s.active);
    WellActive(s);
    if m == 0 {
      assert vs[..0] == [] && vs[0..] == vs;
    } else {
      OrderAfterFirst(s.active);
      EvictionOrderUnique(s.active);
      UniqueTail(vs);
      var v, s1 := vs[0], Evict(s, vs[0]);
      EvictIds(s, v);
      forall id ensures Total(s1, id) <= 1 { assert Total(s, id) <= 1; }
      CountMember(s.active, v);
      RemoveLength(s.active, v.id);
      EvictPrefix(s1, m - 1);
      assert vs[..m] == [v] + vs[1..][..m - 1] && vs[1..][m - 1..] == vs[m..];
      Tail(v, vs[1..][..m - 1]);
      forall k | 0 <= k <= |vs[1..]| ensures Count(vs[1..][..k], v.id) == 0 && Count(vs[1..][k..], v.id) == 0 {
        assert vs[1..] == vs[1..][..k] + vs[1..][k..];
        CountAppend(vs[1..][..k], vs[1..][k..], v.id);
      }
      BlocksUnaffected(s.kv, vs[1..][..m - 1], v.id);
      BlocksUnaffected(s.kv, vs[1..][m - 1..], v.id);
    }
  }

  /** The least number of leading victims that brings free up to target; all of them if none does. */
  function Fewest(free: nat, kv: Ledger, vs: seq<Req>, target: nat): (m: nat)
    ensures m <= |vs|
    decreases |vs|
  {
    if free >= target || vs == [] then 0 else 1 + Fewest(free + kv.BlocksOf(vs[0].id), kv, vs[1..], target)
  }

  lemma {:induction false} FewestLeast(free: nat, kv: Ledger, vs: seq<Req>, target: nat)
    ensures var m := Fewest(free, kv, vs, target);
            && (free + Freeable(kv, vs) >= target ==> free + Freeable(kv, vs[..m]) >= target)
            && (forall k :: 0 <= k < m ==> free + Freeable(kv, vs[..k]) < target)
            && (free + Freeable(kv, vs) < target ==> m == |vs|)
    decreases |vs|
  {
    if free >= target {
      assert vs[..0] == [];
    } else if vs != [] {
      var free' := free + kv.BlocksOf(vs[0].id);
      FewestLeast(free', kv, vs[1..], target);
      var m := Fewest(free, kv, vs, target);
      forall k | 0 < k <= m
        ensures Freeable(kv, vs[..k]) == kv.BlocksOf(vs[0].id) + Freeable(kv, vs[1..][..k - 1])
      {
        assert vs[..k] == [vs[0]] + vs[1..][..k - 1];
        Tail(vs[0], vs[1..][..k - 1]);
      }
      forall k | 0 <= k < m
        ensures free + Freeable(kv, vs[..k]) < target
      {
        if k > 0 { assert free' + Freeable(kv, vs[1..][..k - 1]) < target; }
      }
    }
  }

  /** One _try_preempt takes the first victim, then goes on while free < needed. */
  function Round(s: Sched, needed: nat): (k: nat)
    ensures k <= |EvictionOrder(s.active)|
  {
    var vs := EvictionOrder(s.active);
    if vs == [] then 0
    else 1 + Fewest(s.kv.free + s.kv.BlocksOf(vs[0].id), s.kv, vs[1..], needed)
  }

  lemma TakeCons<T>(s: seq<T>, k: nat)
    requires 0 < k <= |s|
    ensures s[..k] == [s[0]] + s[1..][..k - 1]
  {
  }

  lemma {:induction false} VictimsArePrefix(kv: Ledger, vs: seq<Req>, needed: nat)
    requires Unique(vs) && vs != []
    ensures var k := 1 + Fewest(kv.free + kv.BlocksOf(vs[0].id), kv, vs[1..], needed);
            Victims(kv, vs, needed) == vs[..k]
    decreases |vs|
  {
    UniqueTail(vs);
    var v, t, kv' := vs[0], vs[1..], kv.SwappedOut(vs[0].id);
    var m := Fewest(kv.free + kv.BlocksOf(v.id), kv, t, needed);
    TakeCons(vs, m + 1);
    if kv'.free < needed && t != [] {
      VictimsArePrefix(kv', t, needed);
      UniqueTail(t);
      FewestUnaffected(kv'.free + kv'.BlocksOf(t[0].id), kv, t[1..], needed, v.id);
      assert kv'.BlocksOf(t[0].id) == kv.BlocksOf(t[0].id);
      assert Victims(kv', t, needed) == t[..m];
    } else {
      assert t[..0] == [] && m == 0;
    }
  }

  lemma {:induction false} FewestUnaffected(free: nat, kv: Ledger, vs: seq<Req>, target: nat, id: Id)
    requires Count(vs, id) == 0
    ensures Fewest(free, kv.SwappedOut(id), vs, target) == Fewest(free, kv, vs, target)
    decreases |vs|
  {
    if vs != [] { FewestUnaffected(free + kv.BlocksOf(vs[0].id), kv, vs[1..], target, id); }
  }

  lemma RoundStops(s: Sched, needed: nat)
    ensures var vs, k := EvictionOrder(s.active), Round(s, needed);
            && (vs != [] ==> k > 0)
            && (forall j :: 0 < j < k ==> s.kv.free + Freeable(s.kv, vs[..j]) < needed)
            && (k < |vs| ==> s.kv.free + Freeable(s.kv, vs[..k]) >= needed)
  {
    var vs := EvictionOrder(s.active);
    if vs != [] {
      var free' := s.kv.free + s.kv.BlocksOf(vs[0].id);
      FewestLeast(free', s.kv, vs[1..], needed);
      forall j | 0 < j <= |vs|
        ensures s.kv.free + Freeable(s.kv, vs[..j]) == free' + Freeable(s.kv, vs[1..][..j - 1])
      {
        BlocksHead(s.kv, vs, j);
      }
    }
  }

  lemma BlocksHead(kv: Ledger, vs: seq<Req>, j: nat)
    requires 0 < j <= |vs|
    ensures Freeable(kv, vs[..j]) == kv.BlocksOf(vs[0].id) + Freeable(kv, vs[1..][..j - 1])
  {
    assert vs[..j] == [vs[0]] + vs[1..][..j - 1];
    Tail(vs[0], vs[1..][..j - 1]);
  }

  lemma MovableOrder(active: seq<Req>)
    ensures forall i :: 0 <= i < |EvictionOrder(active)| ==> !EvictionOrder(active)[i].status.Prefill?
  {
    forall i | 0 <= i < |EvictionOrder(active)| ensures !EvictionOrder(active)[i].status.Prefill? {
      MovableMembers(Sorted(active), EvictionOrder(active)[i]);
    }
  }

  lemma RoundEvicts(s: Sched, needed: nat)
    requires Well(s)
    ensures TryPreempt(s, needed) == EvictAll(s, EvictionOrder(s.active)[..Round(s, needed)])
  {
    var vs := EvictionOrder(s.active);
    WellActive(s);
    EvictionOrderUnique(s.active);
    SkipsPrefill(s, Sorted(s.active), needed);
    MovableOrder(s.active);
    EvictsVictims(s, vs, needed);
    RoundVictims(s, needed);
  }

  lemma RoundVictims(s: Sched, needed: nat)
    requires Unique(EvictionOrder(s.active))
    ensures Victims(s.kv, EvictionOrder(s.active), needed) == EvictionOrder(s.active)[..Round(s, needed)]
  {
    if EvictionOrder(s.active) != [] { VictimsArePrefix(s.kv, EvictionOrder(s.active), needed); }
  }

  /** Each _try_preempt call evicts a prefix of the eviction order, and stops at the first non-empty one
      that makes free >= needed. */
  lemma TryPreemptPrefix(s: Sched, needed: nat)
    requires Well(s)
    ensures TryPreempt(s, needed) == EvictAll(s, EvictionOrder(s.active)[..Round(s, needed)])
    ensures var vs, k := EvictionOrder(s.active), Round(s, needed);
            && (vs != [] ==> k > 0)
            && (forall j :: 0 < j < k ==> s.kv.free + Freeable(s.kv, vs[..j]) < needed)
            && (k < |vs| ==> s.kv.free + Freeable(s.kv, vs[..k]) >= needed)
  {
    RoundEvicts(s, needed);
    RoundStops(s, needed);
  }

  // ----- termination of the loop -----

  /** The one state in which the body changes nothing and the guard sends it round again, forever. */
  predicate Spinning(cfg: Config, st: Admission) {
    var s := st.s;
    && s.pending != [] && 0 < |s.active| < cfg.maxBatch
    && s.pending[0].priority.High? && cfg.Preempts()
    && (forall r :: r in s.active ==> r.status.Prefill?)
    && s.kv.free - st.reserved < Need(cfg, s.pending[0]) <= s.kv.free
  }

  predicate Smaller(s': Sched, s: Sched) {
    || |s'.pending| < |s.pending|
    || (s'.pending == s.pending && |EvictionOrder(s'.active)| < |EvictionOrder(s.active)|)
  }

  /** Every iteration exits, makes the pair (pending, evictable) smaller, or spins. */
  lemma IterationProgress(cfg: Config, st: Admission)
    requires Well(st.s)
    ensures var it := Iterate(cfg, st);
            && Well(it.st.s) && SameIds(st.s, it.st.s)
            && (it.Again? ==> if Spinning(cfg, st) then it.st == st else Smaller(it.st.s, st.s))
            && (Spinning(cfg, st) ==> it.Again?)
  {
    var s := st.s;
    if s.pending != [] && |s.active| < cfg.maxBatch {
      var needed := Need(cfg, s.pending[0]);
      if needed <= s.kv.free - st.reserved {
        AdmitIds(s);
        forall id ensures Total(AdmitHead(s), id) <= 1 { assert Total(s, id) <= 1; }
      } else if s.pending[0].priority.High? && cfg.Preempts() && s.active != [] {
        TryPreemptPrefix(s, needed);
        EvictPrefix(s, Round(s, needed));
        EvictionOrderIs(s.active);
        if EvictionOrder(s.active) == [] {
          assert forall r :: r in s.active ==> r.status.Prefill?;
          assert EvictionOrder(s.active)[..Round(s, needed)] == [];
        } else {
          assert EvictionOrder(s.active)[0] in s.active;
        }
      }
    }
  }

  /** The loop either leaves with a final state or reaches the spinning state and never leaves. */
  datatype Outcome = Done(st: Admission) | Forever(st: Admission)

  ghost function AdmitAll(cfg: Config, st: Admission): Outcome
    requires Well(st.s)
    decreases |st.s.pending|, |EvictionOrder(st.s.active)|
  {
    IterationProgress(cfg, st);
    match Iterate(cfg, st)
    case Exit(st') => Done(st')
    case Again(st') => if Spinning(cfg, st) then Forever(st) else AdmitAll(cfg, st')
  }
}
