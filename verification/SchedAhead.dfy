/** The whole admission phase read off the state before it, in sums over the queue and the eviction order: how many
    it admits, whom it preempts, when it never ends and when it raises. */
module SchedAhead {
  import opened Types
  import opened SchedModel
  import opened SchedLists
  import opened SchedAdmission
  import opened SchedClosedForm
  import opened SchedPhases

  // ----- the sums -----

  /** What is reserved once the first j pending requests are in. */
  function ReservedFor(cfg: Config, st: Admission, j: nat): nat
    requires j <= |st.s.pending|
  {
    st.reserved + TotalNeed(cfg, st.s.pending[..j])
  }

  /** What is free once the first m of the eviction order are out. */
  function FreeAfter(s: Sched, m: nat): nat
    requires m <= |EvictionOrder(s.active)|
  {
    s.kv.free + Freeable(s.kv, EvictionOrder(s.active)[..m])
  }

  /** How many have to go for the first j pending requests. */
  function FewestFor(cfg: Config, st: Admission, j: nat): nat
    requires j <= |st.s.pending|
  {
    Fewest(st.s.kv.free, st.s.kv, EvictionOrder(st.s.active), ReservedFor(cfg, st, j))
  }

  /** How large the batch is when the loop comes to pending request j, all before it being let in. */
  function SizeAt(cfg: Config, st: Admission, j: nat): int
    requires j <= |st.s.pending|
  {
    |st.s.active| - FewestFor(cfg, st, j) + j
  }

  predicate MayEvictFor(cfg: Config, st: Admission, j: nat) {
    j < |st.s.pending| && st.s.pending[j].priority.High? && cfg.Preempts()
  }

  /** Pending request j is let in once all before it are: the batch has room, the estimates up to it fit what is free
      or can be freed, and if more have to go for it, it may preempt. */
  predicate Admissible(cfg: Config, st: Admission, j: nat) {
    && j < |st.s.pending| && SizeAt(cfg, st, j) < cfg.maxBatch
    && ReservedFor(cfg, st, j + 1) <= Pool(st.s)
    && (FewestFor(cfg, st, j + 1) > FewestFor(cfg, st, j) ==> MayEvictFor(cfg, st, j))
  }

  /** All pending requests before j are let in. */
  predicate ComesTo(cfg: Config, st: Admission, j: nat) {
    j <= |st.s.pending| && forall i :: 0 <= i < j ==> Admissible(cfg, st, i)
  }

  predicate StopsBefore(cfg: Config, st: Admission, k: nat) { ComesTo(cfg, st, k) && !Admissible(cfg, st, k) }

  /** Pending request k may preempt, and would not fit if everybody went. */
  predicate Blocked(cfg: Config, st: Admission, k: nat) {
    && MayEvictFor(cfg, st, k) && SizeAt(cfg, st, k) < cfg.maxBatch
    && ReservedFor(cfg, st, k + 1) > Pool(st.s)
  }

  /** How many are preempted by a phase that stops at k. */
  function VictimsAt(cfg: Config, st: Admission, k: nat): nat
    requires k <= |st.s.pending|
  {
    if Blocked(cfg, st, k) then |EvictionOrder(st.s.active)| else FewestFor(cfg, st, k)
  }

  /** Pending request k blocks the loop for ever: all before it are let in, it fits what everybody's eviction frees but
      not beside what is reserved by then, and somebody in PREFILL stays. */
  predicate HangsAt(cfg: Config, st: Admission, k: nat) {
    && ComesTo(cfg, st, k) && Blocked(cfg, st, k)
    && Need(cfg, st.s.pending[k]) <= Pool(st.s)
    && |st.s.active| - |EvictionOrder(st.s.active)| + k > 0
  }

  /** Pending request k is the one for which victim m goes: all before it are let in, and what m victims free covers
      the estimates before it and not its own. */
  predicate NeedsVictim(cfg: Config, st: Admission, k: nat, m: nat) {
    && ComesTo(cfg, st, k) && MayEvictFor(cfg, st, k) && SizeAt(cfg, st, k) < cfg.maxBatch
    && m < |EvictionOrder(st.s.active)|
    && ReservedFor(cfg, st, k) <= FreeAfter(st.s, m) < ReservedFor(cfg, st, k + 1)
  }

  /** Victim m goes, for pending request k, and is the first in the eviction order whose table exists and is empty. */
  predicate RaisesAt(cfg: Config, st: Admission, k: nat, m: nat) {
    && NeedsVictim(cfg, st, k, m)
    && st.s.kv.Empty(EvictionOrder(st.s.active)[m].id)
    && forall i :: 0 <= i < m ==> !st.s.kv.Empty(EvictionOrder(st.s.active)[i].id)
  }

  ghost predicate PhaseHangs(cfg: Config, st: Admission) { exists k: nat :: HangsAt(cfg, st, k) }

  ghost predicate PhaseRaises(cfg: Config, st: Admission) { exists k: nat, m: nat :: RaisesAt(cfg, st, k, m) }

  // ----- the sums of a shifted queue -----

  lemma ReservedStep(cfg: Config, st: Admission, st1: Admission, j: nat)
    requires st.s.pending != [] && st1.s.pending == st.s.pending[1..] && j < |st.s.pending|
    requires st1.reserved == st.reserved + Need(cfg, st.s.pending[0])
    ensures ReservedFor(cfg, st1, j) == ReservedFor(cfg, st, j + 1)
  {
    TakeCons(st.s.pending, j + 1);
    Tail(st.s.pending[0], st.s.pending[1..][..j]);
  }

  lemma ReservedNone(cfg: Config, st: Admission)
    ensures ReservedFor(cfg, st, 0) == st.reserved
    ensures st.s.pending != [] ==> ReservedFor(cfg, st, 1) == st.reserved + Need(cfg, st.s.pending[0])
  {
    assert st.s.pending[..0] == [];
    if st.s.pending != [] {
      assert st.s.pending[..1] == [st.s.pending[0]];
      assert [st.s.pending[0]][1..] == [];
    }
  }

  lemma {:induction false} TotalNeedGrows(cfg: Config, rs: seq<Req>, i: nat, j: nat)
    requires i <= j <= |rs|
    ensures TotalNeed(cfg, rs[..i]) <= TotalNeed(cfg, rs[..j])
  {
    if i > 0 {
      TakeCons(rs, i);
      TakeCons(rs, j);
      Tail(rs[0], rs[1..][..i - 1]);
      Tail(rs[0], rs[1..][..j - 1]);
      TotalNeedGrows(cfg, rs[1..], i - 1, j - 1);
    }
  }

  lemma SizeNow(cfg: Config, st: Admission)
    requires st.reserved <= st.s.kv.free
    ensures FewestFor(cfg, st, 0) == 0 && SizeAt(cfg, st, 0) == |st.s.active|
  {
    ReservedNone(cfg, st);
  }

  // ----- letting the head in -----

  /** The head can be let in, by evicting if need be; st1 is the state after that. */
  ghost predicate LetsIn(cfg: Config, st: Admission, st1: Admission) {
    && Well(st.s) && st.s.pending != [] && Need(cfg, st.s.pending[0]) + st.reserved <= Pool(st.s)
    && EvictFirst(st.s, VictimsFor(cfg, st)).pending == st.s.pending
    && st1 == Admission(AdmitHead(EvictFirst(st.s, VictimsFor(cfg, st))), st.reserved + Need(cfg, st.s.pending[0]))
  }

  lemma LetsInKeeps(cfg: Config, st: Admission, st1: Admission)
    requires LetsIn(cfg, st, st1)
    ensures var vs, m := EvictionOrder(st.s.active), VictimsFor(cfg, st);
            && st1.s.pending == st.s.pending[1..] && |st1.s.active| == |st.s.active| - m + 1
            && EvictionOrder(st1.s.active) == vs[m..] && Pool(st1.s) == Pool(st.s)
            && st1.s.kv == EvictFirst(st.s, m).kv && st1.reserved <= st1.s.kv.free && Well(st1.s)
            && st1.s.kv.free == st.s.kv.free + Freeable(st.s.kv, vs[..m])
  {
    var vs, m := EvictionOrder(st.s.active), VictimsFor(cfg, st);
    var s1 := EvictFirst(st.s, m);
    EvictPrefix(st.s, m);
    OrderIgnoresPrefill(s1.active, st.s.pending[0].(status := Prefill));
    BoundedFewest(cfg, st);
    BlocksSplit(st.s.kv, vs, m);
    AdmitIds(s1);
    forall id ensures Total(st1.s, id) <= 1 { assert Total(st.s, id) <= 1; }
  }

  lemma BoundedFewest(cfg: Config, st: Admission)
    requires st.s.pending != [] && Need(cfg, st.s.pending[0]) + st.reserved <= Pool(st.s)
    ensures var vs, m := EvictionOrder(st.s.active), VictimsFor(cfg, st);
            && st.s.kv.free + Freeable(st.s.kv, vs[..m]) >= Need(cfg, st.s.pending[0]) + st.reserved
            && forall j :: 0 <= j < m ==> st.s.kv.free + Freeable(st.s.kv, vs[..j]) < Need(cfg, st.s.pending[0]) + st.reserved
  {
    FewestLeast(st.s.kv.free, st.s.kv, EvictionOrder(st.s.active), Need(cfg, st.s.pending[0]) + st.reserved);
  }

  /** Victims needed later count on from the victims needed now. */
  lemma FewestAfter(cfg: Config, st: Admission, st1: Admission, target: nat)
    requires LetsIn(cfg, st, st1) && target >= Need(cfg, st.s.pending[0]) + st.reserved
    ensures Fewest(st.s.kv.free, st.s.kv, EvictionOrder(st.s.active), target)
            == VictimsFor(cfg, st) + Fewest(st1.s.kv.free, st1.s.kv, EvictionOrder(st1.s.active), target)
  {
    var vs, m := EvictionOrder(st.s.active), VictimsFor(cfg, st);
    LetsInKeeps(cfg, st, st1);
    BoundedFewest(cfg, st);
    FewestSplit(st.s.kv.free, st.s.kv, vs, m, target);
    SurvivorsKeepBlocks(st.s, m);
    assert forall i :: 0 <= i < |vs[m..]| ==> vs[m..][i] == vs[m + i];
    FewestSame(st1.s.kv.free, st.s.kv, st1.s.kv, vs[m..], target);
  }

  lemma SizeAfter(cfg: Config, st: Admission, st1: Admission, j: nat, j': nat)
    requires LetsIn(cfg, st, st1) && j' == j + 1 <= |st.s.pending|
    ensures st1.s.pending == st.s.pending[1..] && ReservedFor(cfg, st1, j) == ReservedFor(cfg, st, j')
    ensures FewestFor(cfg, st, j') == VictimsFor(cfg, st) + FewestFor(cfg, st1, j)
    ensures SizeAt(cfg, st1, j) == SizeAt(cfg, st, j')
  {
    LetsInKeeps(cfg, st, st1);
    ReservedStep(cfg, st, st1, j);
    FewestAfter(cfg, st, st1, ReservedFor(cfg, st, j'));
  }

  /** Whether request j + 1 is let in, or blocked, is whether it is as request j once the head is in. */
  lemma AdmissibleLater(cfg: Config, st: Admission, st1: Admission, j: nat, j': nat)
    requires LetsIn(cfg, st, st1) && j' == j + 1
    ensures Admissible(cfg, st, j') <==> Admissible(cfg, st1, j)
    ensures Blocked(cfg, st, j') <==> Blocked(cfg, st1, j)
  {
    LetsInKeeps(cfg, st, st1);
    if j' < |st.s.pending| {
      SizeAfter(cfg, st, st1, j, j');
      SizeAfter(cfg, st, st1, j', j' + 1);
      assert st1.s.pending[j] == st.s.pending[j'];
    }
  }

  lemma StopsLater(cfg: Config, st: Admission, st1: Admission, k: nat, k': nat)
    requires LetsIn(cfg, st, st1) && StopsBefore(cfg, st, k') && k' == k + 1
    ensures StopsBefore(cfg, st1, k)
  {
    LetsInKeeps(cfg, st, st1);
    AdmissibleLater(cfg, st, st1, k, k');
    forall j | 0 <= j < k ensures Admissible(cfg, st1, j) {
      assert Admissible(cfg, st, j + 1);
      AdmissibleLater(cfg, st, st1, j, j + 1);
    }
  }

  lemma VictimsLater(cfg: Config, st: Admission, st1: Admission, k: nat, k': nat)
    requires LetsIn(cfg, st, st1) && k' == k + 1 <= |st.s.pending|
    ensures k <= |st1.s.pending| && VictimsAt(cfg, st, k') == VictimsFor(cfg, st) + VictimsAt(cfg, st1, k)
  {
    LetsInKeeps(cfg, st, st1);
    AdmissibleLater(cfg, st, st1, k, k');
    SizeAfter(cfg, st, st1, k, k');
  }

  lemma AdmittedLater(cfg: Config, st: Admission, st1: Admission, k: nat, m: nat, k': nat, m': nat)
    requires LetsIn(cfg, st, st1) && k <= |st1.s.pending| && m <= |EvictionOrder(st1.s.active)|
    requires k' == k + 1 && m' == VictimsFor(cfg, st) + m
    ensures k' <= |st.s.pending| && m' <= |EvictionOrder(st.s.active)| && Admitted(st1.s, k, m) == Admitted(st.s, k', m')
  {
    var n := VictimsFor(cfg, st);
    LetsInKeeps(cfg, st, st1);
    EvictPrefix(st.s, n);
    EvictedIsAdmitted(st.s, n);
    HeadIsAdmitted(EvictFirst(st.s, n));
    AdmittedTwice(st.s, 0, n, 1, 0);
    AdmittedTwice(st.s, 1, n, k, m);
  }

  // ----- the closed form -----

  /** How the phase ends if it stops at k. */
  ghost predicate EndsInSums(cfg: Config, st: Admission, k: nat)
    requires Well(st.s)
  {
    && k <= |st.s.pending| && VictimsAt(cfg, st, k) <= |EvictionOrder(st.s.active)|
    && var end := Admission(Admitted(st.s, k, VictimsAt(cfg, st, k)), ReservedFor(cfg, st, k));
       Reference(cfg, st) == if HangsAt(cfg, st, k) then Forever(end) else Done(end)
  }

  lemma StopsNow(cfg: Config, st: Admission, k: nat)
    requires !Admissible(cfg, st, 0) && StopsBefore(cfg, st, k)
    ensures k == 0
  {
  }

  lemma NothingDone(cfg: Config, st: Admission)
    ensures Admitted(st.s, 0, 0) == st.s && ReservedFor(cfg, st, 0) == st.reserved
  {
    EvictedIsAdmitted(st.s, 0);
    assert EvictionOrder(st.s.active)[..0] == [];
    ReservedNone(cfg, st);
  }

  /** The loop leaves at once: nothing pending, a full batch, or a head that may not preempt and does not fit. */
  lemma LeavesInSums(cfg: Config, st: Admission, k: nat)
    requires Well(st.s) && st.reserved <= st.s.kv.free && StopsBefore(cfg, st, k)
    requires || st.s.pending == [] || |st.s.active| >= cfg.maxBatch
             || (Need(cfg, st.s.pending[0]) + st.reserved > st.s.kv.free && !MayPreempt(cfg, st.s))
    ensures EndsInSums(cfg, st, k)
  {
    NothingDone(cfg, st);
    SizeNow(cfg, st);
    ReservedNone(cfg, st);
    assert !Admissible(cfg, st, 0);
    StopsNow(cfg, st, k);
    if Blocked(cfg, st, 0) { assert st.s.active == [] && EvictionOrder(st.s.active) == []; }
  }

  /** A head that may preempt and does not fit even so. */
  lemma BlockedInSums(cfg: Config, st: Admission, k: nat)
    requires Well(st.s) && st.reserved <= st.s.kv.free && StopsBefore(cfg, st, k) && MayPreempt(cfg, st.s)
    requires |st.s.active| < cfg.maxBatch && Need(cfg, st.s.pending[0]) + st.reserved > Pool(st.s)
    ensures EndsInSums(cfg, st, k)
  {
    var m := |EvictionOrder(st.s.active)|;
    ReferenceShort(cfg, st);
    EvictedSize(st.s, m);
    EvictedIsAdmitted(st.s, m);
    SizeNow(cfg, st);
    ReservedNone(cfg, st);
    StopsNow(cfg, st, k);
  }

  lemma HeadAdmissible(cfg: Config, st: Admission)
    requires st.reserved <= st.s.kv.free && st.s.pending != [] && |st.s.active| < cfg.maxBatch
    requires Need(cfg, st.s.pending[0]) + st.reserved <= Pool(st.s)
    requires Need(cfg, st.s.pending[0]) + st.reserved <= st.s.kv.free || MayPreempt(cfg, st.s)
    ensures Admissible(cfg, st, 0)
  {
    SizeNow(cfg, st);
    ReservedNone(cfg, st);
  }

  lemma HangsLater(cfg: Config, st: Admission, st1: Admission, k: nat, k': nat)
    requires LetsIn(cfg, st, st1) && StopsBefore(cfg, st, k') && StopsBefore(cfg, st1, k) && k' == k + 1
    ensures HangsAt(cfg, st, k') <==> HangsAt(cfg, st1, k)
  {
    LetsInKeeps(cfg, st, st1);
    AdmissibleLater(cfg, st, st1, k, k');
    if Blocked(cfg, st, k') { assert st1.s.pending[k] == st.s.pending[k']; }
  }

  lemma SumsLater(cfg: Config, st: Admission, st1: Admission, k: nat, k': nat)
    requires LetsIn(cfg, st, st1) && StopsBefore(cfg, st, k') && StopsBefore(cfg, st1, k) && k' == k + 1
    requires Well(st1.s) && Reference(cfg, st) == Reference(cfg, st1) && EndsInSums(cfg, st1, k)
    ensures EndsInSums(cfg, st, k')
  {
    LetsInKeeps(cfg, st, st1);
    SizeAfter(cfg, st, st1, k, k');
    VictimsLater(cfg, st, st1, k, k');
    HangsLater(cfg, st, st1, k, k');
    AdmittedLater(cfg, st, st1, k, VictimsAt(cfg, st1, k), k', VictimsAt(cfg, st, k'));
  }

  lemma HeadLetsIn(cfg: Config, st: Admission) returns (st1: Admission)
    requires Well(st.s) && st.reserved <= st.s.kv.free && st.s.pending != [] && |st.s.active| < cfg.maxBatch
    requires Need(cfg, st.s.pending[0]) + st.reserved <= Pool(st.s)
    requires Need(cfg, st.s.pending[0]) + st.reserved <= st.s.kv.free || MayPreempt(cfg, st.s)
    ensures LetsIn(cfg, st, st1) && st1.s.pending == st.s.pending[1..] && st1.reserved <= st1.s.kv.free
    ensures Well(st1.s) && Reference(cfg, st) == Reference(cfg, st1)
  {
    NextWell(st.s, VictimsFor(cfg, st));
    st1 := Admission(AdmitHead(EvictFirst(st.s, VictimsFor(cfg, st))), st.reserved + Need(cfg, st.s.pending[0]));
    LetsInKeeps(cfg, st, st1);
  }

  lemma {:induction false} ReferenceInSums(cfg: Config, st: Admission, k: nat)
    requires Well(st.s) && st.reserved <= st.s.kv.free && StopsBefore(cfg, st, k)
    ensures EndsInSums(cfg, st, k)
    decreases |st.s.pending|
  {
    var s := st.s;
    if s.pending == [] || |s.active| >= cfg.maxBatch {
      LeavesInSums(cfg, st, k);
    } else if Need(cfg, s.pending[0]) + st.reserved > s.kv.free && !MayPreempt(cfg, s) {
      LeavesInSums(cfg, st, k);
    } else if Need(cfg, s.pending[0]) + st.reserved > Pool(s) {
      BlockedInSums(cfg, st, k);
    } else {
      var st1 := HeadLetsIn(cfg, st);
      HeadAdmissible(cfg, st);
      assert k > 0;
      StopsLater(cfg, st, st1, k - 1, k);
      ReferenceInSums(cfg, st1, k - 1);
      SumsLater(cfg, st, st1, k - 1, k);
    }
  }

  /** The loop, however many rounds of preemption it takes, ends as the sums say: with k the first pending request that
      is not let in, k are admitted, and those preempted are the fewest that make room for these, or everybody if
      request k may preempt and does not fit even so. */
  lemma PhaseInSums(cfg: Config, st: Admission, k: nat)
    requires Well(st.s) && st.reserved <= st.s.kv.free && StopsBefore(cfg, st, k)
    ensures VictimsAt(cfg, st, k) <= |EvictionOrder(st.s.active)|
    ensures AdmitAll(cfg, st).st == Admission(Admitted(st.s, k, VictimsAt(cfg, st, k)), ReservedFor(cfg, st, k))
    ensures AdmitAll(cfg, st).Forever? <==> HangsAt(cfg, st, k)
  {
    AdmitsByReference(cfg, st);
    ReferenceInSums(cfg, st, k);
  }

  /** The first pending request that is not let in. */
  function AdmitCount(cfg: Config, st: Admission, j: nat): (k: nat)
    requires ComesTo(cfg, st, j)
    ensures StopsBefore(cfg, st, k)
    decreases |st.s.pending| - j
  {
    if Admissible(cfg, st, j) then AdmitCount(cfg, st, j + 1) else j
  }

  // ----- when it never ends -----

  lemma HangsExactly(cfg: Config, st: Admission)
    requires Well(st.s) && st.reserved <= st.s.kv.free
    ensures AdmitAll(cfg, st).Forever? <==> PhaseHangs(cfg, st)
  {
    PhaseInSums(cfg, st, AdmitCount(cfg, st, 0));
    if PhaseHangs(cfg, st) {
      var k: nat :| HangsAt(cfg, st, k);
      PhaseInSums(cfg, st, k);
    }
  }

  // ----- whom it preempts -----

  /** How many the phase preempts if nothing raises. */
  ghost function VictimCount(cfg: Config, st: Admission): nat
    requires Well(st.s)
  {
    AdmitAllCounts(cfg, st);
    AdmitAll(cfg, st).st.s.totalPreempted - st.s.totalPreempted
  }

  lemma {:induction false} EvictUntilCounts(s: Sched, cs: seq<Req>, needed: nat)
    ensures EvictUntil(s, cs, needed).totalPreempted >= s.totalPreempted
    decreases |cs|
  {
    if cs != [] {
      if cs[0].status.Prefill? {
        EvictUntilCounts(s, cs[1..], needed);
      } else {
        EvictUntilCounts(Evict(s, cs[0]), cs[1..], needed);
      }
    }
  }

  lemma {:induction false} AdmitAllCounts(cfg: Config, st: Admission)
    requires Well(st.s)
    ensures AdmitAll(cfg, st).st.s.totalPreempted >= st.s.totalPreempted
    decreases |st.s.pending|, |EvictionOrder(st.s.active)|
  {
    IterationProgress(cfg, st);
    if st.s.pending != [] { EvictUntilCounts(st.s, Sorted(st.s.active), Need(cfg, st.s.pending[0])); }
    if Iterate(cfg, st).Again? && !Spinning(cfg, st) { AdmitAllCounts(cfg, Iterate(cfg, st).st); }
  }

  lemma {:induction false} FreeableGrows(kv: Ledger, vs: seq<Req>, i: nat, j: nat)
    requires i <= j <= |vs|
    ensures Freeable(kv, vs[..i]) <= Freeable(kv, vs[..j])
  {
    BlocksSplit(kv, vs[..j], i);
    assert vs[..j][..i] == vs[..i];
  }

  /** A victim is among the fewest for a target in reach if and only if those before it do not free enough. */
  lemma FewestExactly(s: Sched, m: nat, target: nat)
    requires m <= |EvictionOrder(s.active)| && target <= Pool(s)
    ensures m < Fewest(s.kv.free, s.kv, EvictionOrder(s.active), target) <==> FreeAfter(s, m) < target
  {
    var vs, n := EvictionOrder(s.active), Fewest(s.kv.free, s.kv, EvictionOrder(s.active), target);
    FewestLeast(s.kv.free, s.kv, vs, target);
    if m >= n { FreeableGrows(s.kv, vs, n, m); }
  }

  lemma FreeAfterBounds(s: Sched, m: nat)
    requires m <= |EvictionOrder(s.active)|
    ensures s.kv.free <= FreeAfter(s, m) <= Pool(s)
  {
    var vs := EvictionOrder(s.active);
    FreeableGrows(s.kv, vs, m, |vs|);
    assert vs[..|vs|] == vs;
  }

  lemma ReservedGrows(cfg: Config, st: Admission, i: nat, j: nat)
    requires i <= j <= |st.s.pending|
    ensures ReservedFor(cfg, st, i) <= ReservedFor(cfg, st, j)
  {
    TotalNeedGrows(cfg, st.s.pending, i, j);
  }

  /** The request for which m victims are not enough while they were for all before it. */
  lemma {:induction false} FirstShort(cfg: Config, st: Admission, m: nat, i: nat) returns (j: nat)
    requires m <= |EvictionOrder(st.s.active)| && st.reserved <= st.s.kv.free
    requires i < |st.s.pending| && FreeAfter(st.s, m) < ReservedFor(cfg, st, i + 1)
    ensures j <= i && ReservedFor(cfg, st, j) <= FreeAfter(st.s, m) < ReservedFor(cfg, st, j + 1)
    decreases i
  {
    j := i;
    ReservedNone(cfg, st);
    FreeAfterBounds(st.s, m);
    if FreeAfter(st.s, m) < ReservedFor(cfg, st, i) { j := FirstShort(cfg, st, m, i - 1); }
  }

  lemma ReservedReachable(cfg: Config, st: Admission, j: nat)
    requires ComesTo(cfg, st, j) && st.reserved <= st.s.kv.free
    ensures ReservedFor(cfg, st, j) <= Pool(st.s)
  {
    ReservedNone(cfg, st);
    if j > 0 { assert Admissible(cfg, st, j - 1); }
  }

  lemma VictimNeeded(cfg: Config, st: Admission, k: nat, m: nat) returns (j: nat)
    requires st.reserved <= st.s.kv.free && StopsBefore(cfg, st, k) && m < VictimsAt(cfg, st, k)
    ensures NeedsVictim(cfg, st, j, m)
  {
    SizeNow(cfg, st);
    ReservedReachable(cfg, st, k);
    FreeAfterBounds(st.s, m);
    if !Blocked(cfg, st, k) { FewestExactly(st.s, m, ReservedFor(cfg, st, k)); }
    j := FirstShort(cfg, st, m, if Blocked(cfg, st, k) then k else k - 1);
    if j < k {
      assert Admissible(cfg, st, j);
      FewestExactly(st.s, m, ReservedFor(cfg, st, j + 1));
      ReservedGrows(cfg, st, j, j + 1);
      FewestExactly(st.s, m, ReservedFor(cfg, st, j));
    }
  }

  lemma NeededIsVictim(cfg: Config, st: Admission, k: nat, m: nat, j: nat)
    requires st.reserved <= st.s.kv.free && StopsBefore(cfg, st, k) && NeedsVictim(cfg, st, j, m)
    ensures m < VictimsAt(cfg, st, k)
  {
    assert k >= j;
    ReservedReachable(cfg, st, k);
    if !Blocked(cfg, st, k) {
      assert k > j;
      ReservedGrows(cfg, st, j + 1, k);
      FewestExactly(st.s, m, ReservedFor(cfg, st, k));
    }
  }

  /** The phase preempts victim m if and only if some pending request needs it. */
  lemma VictimsExactly(cfg: Config, st: Admission, m: nat)
    requires Well(st.s) && st.reserved <= st.s.kv.free
    ensures m < VictimCount(cfg, st) <==> exists k: nat :: NeedsVictim(cfg, st, k, m)
  {
    var k := AdmitCount(cfg, st, 0);
    PhaseInSums(cfg, st, k);
    if m < VictimCount(cfg, st) { var j := VictimNeeded(cfg, st, k, m); }
    if exists j: nat :: NeedsVictim(cfg, st, j, m) {
      var j: nat :| NeedsVictim(cfg, st, j, m);
      NeededIsVictim(cfg, st, k, m, j);
    }
  }

  // ----- when it raises -----

  /** The sums leave no choice for which request a victim goes. */
  lemma OneShort(cfg: Config, st: Admission, m: nat, k: nat, k': nat)
    requires m <= |EvictionOrder(st.s.active)| && k < |st.s.pending| && k' < |st.s.pending|
    requires ReservedFor(cfg, st, k) <= FreeAfter(st.s, m) < ReservedFor(cfg, st, k + 1)
    requires ReservedFor(cfg, st, k') <= FreeAfter(st.s, m) < ReservedFor(cfg, st, k' + 1)
    ensures k == k'
  {
    if k < k' { ReservedGrows(cfg, st, k + 1, k'); }
    if k' < k { ReservedGrows(cfg, st, k' + 1, k); }
  }

  lemma RaisesOnce(cfg: Config, st: Admission, k: nat, m: nat, k': nat, m': nat)
    requires RaisesAt(cfg, st, k, m) && RaisesAt(cfg, st, k', m')
    ensures k == k' && m == m'
  {
    assert m == m';
    OneShort(cfg, st, m, k, k');
  }

  /** What the raise leaves: k admitted, the first m of the eviction order preempted, the rest undone. */
  ghost function RaisedState(cfg: Config, st: Admission): Sched
    requires PhaseRaises(cfg, st)
  {
    var k: nat, m: nat :| RaisesAt(cfg, st, k, m);
    Admitted(st.s, k, m)
  }

  lemma RaisedStateIs(cfg: Config, st: Admission, k: nat, m: nat)
    requires RaisesAt(cfg, st, k, m)
    ensures PhaseRaises(cfg, st) && RaisedState(cfg, st) == Admitted(st.s, k, m)
  {
    var k': nat, m': nat :| RaisesAt(cfg, st, k', m') && RaisedState(cfg, st) == Admitted(st.s, k', m');
    RaisesOnce(cfg, st, k, m, k', m');
  }
}
