/** The admission loop in closed form: head by head, the fewest victims that make room for it and for
    everything reserved before it. */
module SchedClosedForm {
  import opened Types
  import opened SchedModel
  import opened SchedLists
  import opened SchedAdmission

  // ----- AdmitAll is the loop -----

  /** n tests of the guard: Exit once the loop has left, otherwise where it stands. */
  function Iterations(cfg: Config, st: Admission, n: nat): Iteration
    decreases n
  {
    if n == 0 then Again(st)
    else match Iterate(cfg, st)
      case Exit(st') => Exit(st')
      case Again(st') => Iterations(cfg, st', n - 1)
  }

  lemma {:induction false} SpinsOn(cfg: Config, st: Admission, n: nat)
    requires Well(st.s) && Spinning(cfg, st)
    ensures Iterations(cfg, st, n) == Again(st)
  {
    IterationProgress(cfg, st);
    if n > 0 { SpinsOn(cfg, st, n - 1); }
  }

  /** The loop never leaves if and only if AdmitAll says Forever; otherwise it leaves with AdmitAll's state. */
  lemma {:induction false} LoopOutcome(cfg: Config, st: Admission)
    requires Well(st.s)
    ensures match AdmitAll(cfg, st)
            case Done(st') => exists n: nat :: Iterations(cfg, st, n) == Exit(st')
            case Forever(st') => Spinning(cfg, st') && forall n: nat :: Iterations(cfg, st, n).Again?
    decreases |st.s.pending|, |EvictionOrder(st.s.active)|
  {
    IterationProgress(cfg, st);
    match Iterate(cfg, st)
    case Exit(st') =>
      assert Iterations(cfg, st, 1) == Exit(st');
    case Again(st') =>
      if Spinning(cfg, st) {
        forall n: nat ensures Iterations(cfg, st, n).Again? { SpinsOn(cfg, st, n); }
      } else {
        LoopOutcome(cfg, st');
        if AdmitAll(cfg, st').Done? {
          var n: nat :| Iterations(cfg, st', n) == Exit(AdmitAll(cfg, st').st);
          assert Iterations(cfg, st, n + 1) == Exit(AdmitAll(cfg, st').st);
        } else {
          forall n: nat ensures Iterations(cfg, st, n).Again? {
            if n > 0 { assert Iterations(cfg, st', n - 1).Again?; }
          }
        }
      }
  }

  // ----- the closed form -----

  function Pool(s: Sched): nat { s.kv.free + Freeable(s.kv, EvictionOrder(s.active)) }

  function EvictFirst(s: Sched, m: nat): Sched
    requires m <= |EvictionOrder(s.active)|
  {
    EvictAll(s, EvictionOrder(s.active)[..m])
  }

  predicate MayPreempt(cfg: Config, s: Sched) {
    s.pending != [] && s.pending[0].priority.High? && cfg.Preempts() && s.active != []
  }

  /** How many to evict so that the head fits beside the reservations. */
  function VictimsFor(cfg: Config, st: Admission): nat
    requires st.s.pending != []
  {
    Fewest(st.s.kv.free, st.s.kv, EvictionOrder(st.s.active), Need(cfg, st.s.pending[0]) + st.reserved)
  }

  ghost function Reference(cfg: Config, st: Admission): Outcome
    requires Well(st.s)
    decreases |st.s.pending|
  {
    var s, vs := st.s, EvictionOrder(st.s.active);
    if s.pending == [] || |s.active| >= cfg.maxBatch then Done(st)
    else
      var needed := Need(cfg, s.pending[0]);
      if needed + st.reserved > s.kv.free && !MayPreempt(cfg, s) then Done(st)
      else if needed + st.reserved <= Pool(s) then
        var m := VictimsFor(cfg, st);
        EvictPrefix(s, m);
        AdmitIds(EvictFirst(s, m));
        assert forall id :: Total(AdmitHead(EvictFirst(s, m)), id) == Total(s, id);
        Reference(cfg, Admission(AdmitHead(EvictFirst(s, m)), st.reserved + needed))
      else
        var s' := EvictFirst(s, |vs|);
        if needed <= Pool(s) && s'.active != [] then Forever(Admission(s', st.reserved))
        else Done(Admission(s', st.reserved))
  }

  lemma {:induction false} EvictTwice(s: Sched, a: seq<Req>, b: seq<Req>)
    ensures EvictAll(EvictAll(s, a), b) == EvictAll(s, a + b)
    decreases |a|
  {
    if a == [] {
      assert a + b == b;
    } else {
      assert (a + b)[0] == a[0] && (a + b)[1..] == a[1..] + b;
      EvictTwice(Evict(s, a[0]), a[1..], b);
    }
  }

  lemma {:induction false} FewestSplit(free: nat, kv: Ledger, vs: seq<Req>, k: nat, target: nat)
    requires k <= |vs| && forall j :: 0 <= j < k ==> free + Freeable(kv, vs[..j]) < target
    ensures Fewest(free, kv, vs, target) == k + Fewest(free + Freeable(kv, vs[..k]), kv, vs[k..], target)
    decreases k
  {
    if k == 0 {
      assert vs[..0] == [] && vs[0..] == vs;
    } else {
      assert vs[..0] == [];
      assert free + Freeable(kv, vs[..0]) < target;
      var free' := free + kv.BlocksOf(vs[0].id);
      forall j | 0 < j <= k
        ensures Freeable(kv, vs[..j]) == kv.BlocksOf(vs[0].id) + Freeable(kv, vs[1..][..j - 1])
      {
        BlocksHead(kv, vs, j);
      }
      forall j | 0 <= j < k - 1 ensures free' + Freeable(kv, vs[1..][..j]) < target {
        assert free + Freeable(kv, vs[..j + 1]) < target;
      }
      FewestSplit(free', kv, vs[1..], k - 1, target);
      assert vs[1..][k - 1..] == vs[k..];
    }
  }

  lemma {:induction false} FewestSame(free: nat, kv: Ledger, kv': Ledger, vs: seq<Req>, target: nat)
    requires forall i :: 0 <= i < |vs| ==> kv'.BlocksOf(vs[i].id) == kv.BlocksOf(vs[i].id)
    ensures Fewest(free, kv', vs, target) == Fewest(free, kv, vs, target)
    decreases |vs|
  {
    if vs != [] {
      assert forall i :: 0 <= i < |vs[1..]| ==> vs[1..][i] == vs[i + 1];
      FewestSame(free + kv.BlocksOf(vs[0].id), kv, kv', vs[1..], target);
    }
  }

  lemma {:induction false} SurvivorsKeepBlocks(s: Sched, m: nat)
    requires Well(s) && m <= |EvictionOrder(s.active)|
    ensures var vs := EvictionOrder(s.active);
            forall i :: m <= i < |vs| ==> EvictFirst(s, m).kv.BlocksOf(vs[i].id) == s.kv.BlocksOf(vs[i].id)
    decreases m
  {
    var vs := EvictionOrder(s.active);
    WellActive(s);
    if m == 0 {
      assert vs[..0] == [];
    } else {
      OrderAfterFirst(s.active);
      EvictionOrderUnique(s.active);
      UniqueTail(vs);
      var s1 := Evict(s, vs[0]);
      EvictPrefix(s, 1);
      assert vs[..1] == [vs[0]] && EvictAll(s, [vs[0]]) == s1;
      SurvivorsKeepBlocks(s1, m - 1);
      assert vs[..m] == [vs[0]] + vs[1..][..m - 1];
      Tail(vs[0], vs[1..][..m - 1]);
      forall i | m <= i < |vs|
        ensures EvictFirst(s, m).kv.BlocksOf(vs[i].id) == s.kv.BlocksOf(vs[i].id)
      {
        assert vs[1..][i - 1] == vs[i];
        CountMember(vs[1..], vs[i]);
      }
    }
  }

  lemma VictimsAfterRound(cfg: Config, st: Admission, k: nat)
    requires Well(st.s) && k <= |EvictionOrder(st.s.active)| && st.s.pending != []
    requires var vs := EvictionOrder(st.s.active);
             forall j :: 0 <= j < k ==> st.s.kv.free + Freeable(st.s.kv, vs[..j]) < Need(cfg, st.s.pending[0]) + st.reserved
    ensures EvictFirst(st.s, k).pending == st.s.pending
    ensures VictimsFor(cfg, st) == k + VictimsFor(cfg, Admission(EvictFirst(st.s, k), st.reserved))
  {
    var s, vs, s1 := st.s, EvictionOrder(st.s.active), EvictFirst(st.s, k);
    EvictPrefix(s, k);
    SurvivorsKeepBlocks(s, k);
    var target := Need(cfg, s.pending[0]) + st.reserved;
    FewestSplit(s.kv.free, s.kv, vs, k, target);
    assert forall i :: 0 <= i < |vs[k..]| ==> vs[k..][i] == vs[k + i];
    FewestSame(s1.kv.free, s.kv, s1.kv, vs[k..], target);
  }

  /** After evicting m, the reference continues as if nothing had been evicted yet. */
  lemma ReferenceAfterRound(cfg: Config, st: Admission, k: nat)
    requires Well(st.s) && k <= |EvictionOrder(st.s.active)| && st.s.pending != []
    requires var vs := EvictionOrder(st.s.active);
             forall j :: 0 <= j < k ==> st.s.kv.free + Freeable(st.s.kv, vs[..j]) < Need(cfg, st.s.pending[0]) + st.reserved
    ensures var s1 := EvictFirst(st.s, k);
            && Well(s1) && s1.pending == st.s.pending && Pool(s1) == Pool(st.s)
            && |EvictionOrder(s1.active)| == |EvictionOrder(st.s.active)| - k
            && VictimsFor(cfg, st) == k + VictimsFor(cfg, Admission(s1, st.reserved))
            && forall m :: 0 <= m <= |EvictionOrder(s1.active)| ==> EvictFirst(s1, m) == EvictFirst(st.s, k + m)
  {
    var s, vs := st.s, EvictionOrder(st.s.active);
    EvictPrefix(s, k);
    var s1 := EvictFirst(s, k);
    forall id ensures Total(s1, id) <= 1 { assert Total(s, id) <= 1; }
    BlocksSplit(s.kv, vs, k);
    VictimsAfterRound(cfg, st, k);
    forall m: nat | m <= |vs| - k ensures EvictFirst(s1, m) == EvictFirst(s, k + m) { EvictMore(s, k, m, k + m); }
  }

  lemma SliceOn<T>(s: seq<T>, k: nat, m: nat, n: nat)
    requires n == k + m <= |s|
    ensures s[..k] + s[k..][..m] == s[..n]
  {
  }

  lemma EvictMore(s: Sched, k: nat, m: nat, n: nat)
    requires Well(s) && n == k + m <= |EvictionOrder(s.active)|
    ensures m <= |EvictionOrder(EvictFirst(s, k).active)| && EvictFirst(EvictFirst(s, k), m) == EvictFirst(s, n)
  {
    var vs := EvictionOrder(s.active);
    EvictPrefix(s, k);
    EvictTwice(s, vs[..k], vs[k..][..m]);
    SliceOn(vs, k, m, n);
  }

  /** A blocked head that may preempt: one round of _try_preempt. */
  lemma BlockedRound(cfg: Config, st: Admission)
    requires Well(st.s) && MayPreempt(cfg, st.s) && |st.s.active| < cfg.maxBatch
    requires Need(cfg, st.s.pending[0]) + st.reserved > st.s.kv.free
    ensures var s, needed := st.s, Need(cfg, st.s.pending[0]);
            var k := Round(s, needed);
            && Iterate(cfg, st) == (if EvictFirst(s, k).kv.free >= needed then Again(Admission(EvictFirst(s, k), st.reserved))
                                    else Exit(Admission(EvictFirst(s, k), st.reserved)))
            && (EvictFirst(s, k).kv.free < needed ==> k == |EvictionOrder(s.active)| && Pool(s) < needed)
            && (forall j :: 0 <= j < k ==> s.kv.free + Freeable(s.kv, EvictionOrder(s.active)[..j]) < needed + st.reserved)
            && (k == 0 ==> EvictionOrder(s.active) == [])
  {
    var s, needed := st.s, Need(cfg, st.s.pending[0]);
    var vs, k := EvictionOrder(s.active), Round(s, needed);
    TryPreemptPrefix(s, needed);
    EvictPrefix(s, k);
    assert vs[..0] == [];
    if k == |vs| { assert vs[..k] == vs; }
  }

  /** The loop of the source computes the closed form. */
  lemma {:induction false} AdmitsByReference(cfg: Config, st: Admission)
    requires Well(st.s)
    ensures AdmitAll(cfg, st) == Reference(cfg, st)
    decreases |st.s.pending|, |EvictionOrder(st.s.active)|
  {
    var s := st.s;
    IterationProgress(cfg, st);
    if s.pending != [] && |s.active| < cfg.maxBatch {
      var needed := Need(cfg, s.pending[0]);
      if needed + st.reserved <= s.kv.free {
        assert EvictionOrder(s.active)[..0] == [];
        assert EvictFirst(s, 0) == s;
        AdmitsByReference(cfg, Iterate(cfg, st).st);
      } else if MayPreempt(cfg, s) {
        BlockedByReference(cfg, st);
      }
    }
  }

  lemma {:induction false} BlockedByReference(cfg: Config, st: Admission)
    requires Well(st.s) && MayPreempt(cfg, st.s) && |st.s.active| < cfg.maxBatch
    requires Need(cfg, st.s.pending[0]) + st.reserved > st.s.kv.free
    ensures AdmitAll(cfg, st) == Reference(cfg, st)
    decreases |st.s.pending|, |EvictionOrder(st.s.active)|, 0
  {
    var s, needed, vs := st.s, Need(cfg, st.s.pending[0]), EvictionOrder(st.s.active);
    var k := Round(s, needed);
    BlockedRound(cfg, st);
    IterationProgress(cfg, st);
    ReferenceAfterRound(cfg, st, k);
    var st1 := Admission(EvictFirst(s, k), st.reserved);
    EvictPrefix(s, k);
    if st1.s.kv.free < needed {
      assert vs[..k] == vs;
    } else if k == 0 {
      EvictionOrderIs(s.active);
      assert vs[..0] == [];
      assert forall r :: r in s.active ==> r.status.Prefill?;
      assert Spinning(cfg, st);
    } else {
      assert EvictionOrder(s.active)[0] in s.active by { EvictionOrderIs(s.active); }
      assert AdmitAll(cfg, st) == AdmitAll(cfg, st1);
      AdmitsByReference(cfg, st1);
      SameReference(cfg, st, k);
    }
  }

  /** The reference for a head that is blocked or not, once it may count on all victims. */
  lemma ReferenceFits(cfg: Config, st: Admission, next: Admission)
    requires Well(st.s) && st.s.pending != [] && |st.s.active| < cfg.maxBatch
    requires Need(cfg, st.s.pending[0]) + st.reserved <= Pool(st.s)
    requires MayPreempt(cfg, st.s) || st.s.active == []
    requires EvictFirst(st.s, VictimsFor(cfg, st)).pending == st.s.pending
    requires next == Admission(AdmitHead(EvictFirst(st.s, VictimsFor(cfg, st))), st.reserved + Need(cfg, st.s.pending[0]))
    ensures Well(next.s) && Reference(cfg, st) == Reference(cfg, next)
  {
    NextWell(st.s, VictimsFor(cfg, st));
    if st.s.active == [] { assert EvictionOrder(st.s.active) == []; }
  }

  lemma NextWell(s: Sched, m: nat)
    requires Well(s) && s.pending != [] && m <= |EvictionOrder(s.active)|
    ensures EvictFirst(s, m).pending == s.pending && Well(AdmitHead(EvictFirst(s, m)))
  {
    EvictPrefix(s, m);
    AdmitIds(EvictFirst(s, m));
    forall id ensures Total(AdmitHead(EvictFirst(s, m)), id) <= 1 { assert Total(s, id) <= 1; }
  }

  lemma ReferenceShort(cfg: Config, st: Admission)
    requires Well(st.s) && st.s.pending != [] && |st.s.active| < cfg.maxBatch
    requires Need(cfg, st.s.pending[0]) + st.reserved > Pool(st.s)
    requires MayPreempt(cfg, st.s) || st.s.active == []
    ensures var s' := EvictFirst(st.s, |EvictionOrder(st.s.active)|);
            Reference(cfg, st)
            == if Need(cfg, st.s.pending[0]) <= Pool(st.s) && s'.active != [] then Forever(Admission(s', st.reserved))
               else Done(Admission(s', st.reserved))
  {
    if st.s.active == [] {
      assert EvictionOrder(st.s.active) == [] && EvictionOrder(st.s.active)[..0] == [];
      assert EvictFirst(st.s, 0) == st.s;
    }
  }

  /** The reference does not notice that some of its victims are gone already. */
  lemma SameReference(cfg: Config, st: Admission, k: nat)
    requires Well(st.s) && MayPreempt(cfg, st.s) && |st.s.active| < cfg.maxBatch && k <= |EvictionOrder(st.s.active)|
    requires var vs := EvictionOrder(st.s.active);
             forall j :: 0 <= j < k ==> st.s.kv.free + Freeable(st.s.kv, vs[..j]) < Need(cfg, st.s.pending[0]) + st.reserved
    ensures Well(EvictFirst(st.s, k)) && Reference(cfg, Admission(EvictFirst(st.s, k), st.reserved)) == Reference(cfg, st)
  {
    ReferenceAfterRound(cfg, st, k);
    EvictedSize(st.s, k);
    if Need(cfg, st.s.pending[0]) + st.reserved <= Pool(st.s) {
      SameWhenFitting(cfg, st, k, Admission(EvictFirst(st.s, k), st.reserved));
    } else {
      SameWhenShort(cfg, st, k, Admission(EvictFirst(st.s, k), st.reserved));
    }
  }

  /** st1 is st after k evictions that were to come anyway. */
  ghost predicate AfterRound(cfg: Config, st: Admission, k: nat, st1: Admission) {
    && Well(st.s) && MayPreempt(cfg, st.s) && |st.s.active| < cfg.maxBatch && k <= |EvictionOrder(st.s.active)|
    && st1 == Admission(EvictFirst(st.s, k), st.reserved)
    && Well(st1.s) && st1.s.pending == st.s.pending && Pool(st1.s) == Pool(st.s) && |st1.s.active| == |st.s.active| - k
    && |EvictionOrder(st1.s.active)| == |EvictionOrder(st.s.active)| - k
    && VictimsFor(cfg, st) == k + VictimsFor(cfg, st1)
    && forall m :: 0 <= m <= |EvictionOrder(st1.s.active)| ==> EvictFirst(st1.s, m) == EvictFirst(st.s, k + m)
  }

  lemma SameWhenFitting(cfg: Config, st: Admission, k: nat, st1: Admission)
    requires AfterRound(cfg, st, k, st1) && Need(cfg, st.s.pending[0]) + st.reserved <= Pool(st.s)
    ensures Reference(cfg, st1) == Reference(cfg, st)
  {
    EvictPrefix(st.s, VictimsFor(cfg, st));
    EvictOn(cfg, st, k, st1, VictimsFor(cfg, st1), VictimsFor(cfg, st));
    var next := Admission(AdmitHead(EvictFirst(st.s, VictimsFor(cfg, st))), st.reserved + Need(cfg, st.s.pending[0]));
    ReferenceFits(cfg, st, next);
    ReferenceFits(cfg, st1, next);
  }

  lemma EvictOn(cfg: Config, st: Admission, k: nat, st1: Admission, m: nat, m': nat)
    requires AfterRound(cfg, st, k, st1) && m <= |EvictionOrder(st1.s.active)| && m' == k + m
    ensures EvictFirst(st1.s, m) == EvictFirst(st.s, m')
  {
  }

  lemma SameWhenShort(cfg: Config, st: Admission, k: nat, st1: Admission)
    requires AfterRound(cfg, st, k, st1) && Need(cfg, st.s.pending[0]) + st.reserved > Pool(st.s)
    ensures Reference(cfg, st1) == Reference(cfg, st)
  {
    EvictOn(cfg, st, k, st1, |EvictionOrder(st1.s.active)|, |EvictionOrder(st.s.active)|);
    ReferenceShort(cfg, st);
    ReferenceShort(cfg, st1);
  }

  lemma EvictedSize(s: Sched, m: nat)
    requires Well(s) && m <= |EvictionOrder(s.active)|
    ensures |EvictFirst(s, m).active| == |s.active| - m
  {
    EvictPrefix(s, m);
  }

  // ----- when the step hangs -----

  lemma {:induction false} NormalsReturn(cfg: Config, st: Admission)
    requires Well(st.s) && forall r :: r in st.s.pending ==> r.priority.Normal?
    ensures AdmitAll(cfg, st).Done?
    decreases |st.s.pending|, |EvictionOrder(st.s.active)|
  {
    IterationProgress(cfg, st);
    if Iterate(cfg, st).Again? {
      assert st.s.pending[0] in st.s.pending;
      NormalsReturn(cfg, Iterate(cfg, st).st);
    }
  }

  /** With at most one HIGH request waiting, and nothing reserved yet, the loop always leaves. */
  lemma {:induction false} OneHighReturns(cfg: Config, st: Admission)
    requires Well(st.s) && st.reserved == 0
    requires st.s.pending != [] ==> forall r :: r in st.s.pending[1..] ==> r.priority.Normal?
    ensures AdmitAll(cfg, st).Done?
    decreases |st.s.pending|, |EvictionOrder(st.s.active)|
  {
    IterationProgress(cfg, st);
    if Iterate(cfg, st).Again? {
      var st1 := Iterate(cfg, st).st;
      if Need(cfg, st.s.pending[0]) <= st.s.kv.free {
        NormalsReturn(cfg, st1);
      } else {
        RoundEvicts(st.s, Need(cfg, st.s.pending[0]));
        EvictPrefix(st.s, Round(st.s, Need(cfg, st.s.pending[0])));
        OneHighReturns(cfg, st1);
      }
    }
  }

  /** Two HIGH requests on an idle server, each fitting the free blocks but not both: the loop never leaves. */
  lemma TwoHighHang(cfg: Config, s: Sched, a: Req, b: Req)
    requires Well(s) && s.active == [] && s.pending == [a, b] && cfg.maxBatch >= 2 && cfg.Preempts()
    requires b.priority.High? && Need(cfg, a) <= s.kv.free
    requires s.kv.free - Need(cfg, a) < Need(cfg, b) <= s.kv.free
    ensures AdmitAll(cfg, Admission(s, 0)).Forever?
  {
    var st := Admission(s, 0);
    var st1 := Admission(AdmitHead(s), Need(cfg, a));
    IterationProgress(cfg, st);
    assert Iterate(cfg, st) == Again(st1);
    assert s.pending[1..] == [b] && st1.s.active == [a.(status := Prefill)];
    assert Spinning(cfg, st1);
    IterationProgress(cfg, st1);
  }
}
