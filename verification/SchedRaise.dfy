/** Preempting victim by victim, up to one whose empty table makes swap_out raise. */
module SchedRaise {
  import opened Types
  import opened SchedModel
  import opened SchedLists
  import opened SchedAdmission
  import opened SchedClosedForm
  import opened SchedPhases
  import opened SchedAhead

  // ----- block counts of those not evicted -----

  lemma {:induction false} EvictAllTables(s: Sched, vs: seq<Req>, id: Id)
    requires Count(vs, id) == 0
    ensures EvictAll(s, vs).kv.Empty(id) <==> s.kv.Empty(id)
    decreases |vs|
  {
    if vs != [] { EvictAllTables(Evict(s, vs[0]), vs[1..], id); }
  }

  lemma LaterVictim(vs: seq<Req>, n: nat, i: nat)
    requires Unique(vs) && n <= i < |vs|
    ensures Count(vs[..n], vs[i].id) == 0
  {
    assert vs == vs[..n] + vs[n..] && vs[n..][i - n] == vs[i];
    CountAppend(vs[..n], vs[n..], vs[i].id);
    CountMember(vs[n..], vs[i]);
    assert Count(vs, vs[i].id) <= 1;
  }

  lemma OrderUnique(s: Sched)
    requires Well(s)
    ensures Unique(EvictionOrder(s.active))
  {
    WellActive(s);
    EvictionOrderUnique(s.active);
  }

  lemma LaterTable(s: Sched, k: nat, n: nat, i: nat)
    requires Well(s) && k <= |s.pending| && n <= i < |EvictionOrder(s.active)|
    ensures Admitted(s, k, n).kv.Empty(EvictionOrder(s.active)[i].id) <==> s.kv.Empty(EvictionOrder(s.active)[i].id)
  {
    var vs := EvictionOrder(s.active);
    OrderUnique(s);
    LaterVictim(vs, n, i);
    EvictAllTables(s, vs[..n], vs[i].id);
    EvictAllIs(s, vs[..n]);
  }

  // ----- one _try_preempt -----

  ghost predicate NoneEmpty(s: Sched, n: nat)
    requires n <= |EvictionOrder(s.active)|
  {
    forall i :: 0 <= i < n ==> !s.kv.Empty(EvictionOrder(s.active)[i].id)
  }

  /** How a call ends: n are evicted, and then it raises at the next, or n is all that the model evicts. */
  ghost predicate Preempting(s: Sched, needed: nat, raised: bool, n: nat, s': Sched) {
    var vs := EvictionOrder(s.active);
    && n <= |vs| && s' == EvictAll(s, vs[..n]) && NoneEmpty(s, n)
    && if raised then n < |vs| && s.kv.Empty(vs[n].id) && TryPreempt(s, needed).totalPreempted > s.totalPreempted + n
       else s' == TryPreempt(s, needed)
  }

  /** However it ends, no HIGH request went while a NORMAL one outside PREFILL stays, and within a priority none while a
      newer one stays. */
  lemma PreemptingSpares(s: Sched, needed: nat, raised: bool, n: nat, s': Sched, i: nat, r: Req)
    requires Well(s) && Preempting(s, needed, raised, n, s')
    requires |s.preempted| <= i < |s'.preempted| && r in s'.active && !r.status.Prefill?
    ensures var v := s'.preempted[i];
            !(v.priority.High? && r.priority.Normal?) && (v.priority == r.priority ==> v.arrival >= r.arrival)
  {
    var vs := EvictionOrder(s.active);
    EvictPrefix(s, n);
    EvictAllIs(s, vs[..n]);
    EvictionOrderIs(s'.active);
    var a := ParkedAt(s.preempted, vs, n, i);
    var b := RestAt(vs, n, r);
    OrderByPriority(s.active, a, b);
  }

  lemma ParkedAt(pre: seq<Req>, vs: seq<Req>, n: nat, i: nat) returns (a: nat)
    requires n <= |vs| && |pre| <= i < |pre + Parked(vs[..n])|
    ensures a < n && (pre + Parked(vs[..n]))[i] == vs[a].(status := Preempted)
  {
    a := i - |pre|;
  }

  lemma RestAt(vs: seq<Req>, n: nat, r: Req) returns (b: nat)
    requires n <= |vs| && r in vs[n..]
    ensures n <= b < |vs| && vs[b] == r
  {
    var j :| 0 <= j < |vs[n..]| && vs[n..][j] == r;
    b := n + j;
  }

  /** The loop over the sorted candidates at position i, with n evicted. */
  ghost predicate Evicting(s: Sched, needed: nat, i: nat, n: nat, now: Sched) {
    var cs, vs := Sorted(s.active), EvictionOrder(s.active);
    && Well(s) && i <= |cs| && n <= |vs| && vs[..n] == Movable(cs[..i]) && n == |Movable(cs[..i])|
    && now == EvictAll(s, vs[..n]) && NoneEmpty(s, n)
    && EvictUntil(now, cs[i..], needed) == TryPreempt(s, needed)
  }

  lemma EvictingStart(s: Sched, needed: nat)
    requires Well(s)
    ensures Evicting(s, needed, 0, 0, s)
  {
    assert Sorted(s.active)[..0] == [] && Sorted(s.active)[0..] == Sorted(s.active) && EvictionOrder(s.active)[..0] == [];
  }

  lemma MovableOne(r: Req)
    ensures Movable([r]) == if r.status.Prefill? then [] else [r]
  {
    assert [r][1..] == [];
  }

  lemma SliceNext<T>(s: seq<T>, i: nat, i': nat)
    requires i < |s| && i' == i + 1
    ensures s[..i'] == s[..i] + [s[i]]
  {
  }

  lemma MovableTo(cs: seq<Req>, i: nat, i': nat)
    requires i < |cs| && i' == i + 1
    ensures Movable(cs[..i']) == Movable(cs[..i]) + (if cs[i].status.Prefill? then [] else [cs[i]])
    ensures Movable(cs[..i']) + Movable(cs[i'..]) == Movable(cs)
  {
    MovableSplit(cs, i');
    SliceNext(cs, i, i');
    MovableAppend(cs[..i], [cs[i]]);
    MovableOne(cs[i]);
  }

  lemma MovableSplit(cs: seq<Req>, i: nat)
    requires i <= |cs|
    ensures Movable(cs[..i]) + Movable(cs[i..]) == Movable(cs)
  {
    assert cs == cs[..i] + cs[i..];
    MovableAppend(cs[..i], cs[i..]);
  }

  lemma EvictingSkip(s: Sched, needed: nat, i: nat, n: nat, now: Sched)
    requires Evicting(s, needed, i, n, now) && i < |Sorted(s.active)| && Sorted(s.active)[i].status.Prefill?
    ensures Evicting(s, needed, i + 1, n, now)
  {
    var cs := Sorted(s.active);
    MovableTo(cs, i, i + 1);
    assert Movable(cs[..i]) + [] == Movable(cs[..i]);
    NextCandidates(cs, i, i + 1);
  }

  /** A candidate that may be evicted is the next in the eviction order. */
  lemma CandidateNext(s: Sched, needed: nat, i: nat, n: nat, now: Sched, i': nat, n': nat)
    requires Evicting(s, needed, i, n, now) && i < |Sorted(s.active)| && !Sorted(s.active)[i].status.Prefill?
    requires i' == i + 1 && n' == n + 1
    ensures n < |EvictionOrder(s.active)| && EvictionOrder(s.active)[n] == Sorted(s.active)[i]
    ensures EvictionOrder(s.active)[..n'] == Movable(Sorted(s.active)[..i']) && |Movable(Sorted(s.active)[..i'])| == n'
    ensures EvictAll(s, EvictionOrder(s.active)[..n']) == Evict(now, Sorted(s.active)[i])
    ensures now.kv.Empty(Sorted(s.active)[i].id) <==> s.kv.Empty(Sorted(s.active)[i].id)
  {
    var cs, vs := Sorted(s.active), EvictionOrder(s.active);
    MovableTo(cs, i, i');
    assert vs[..n'] == vs[..n] + [vs[n]];
    EvictTwice(s, vs[..n], [vs[n]]);
    assert [vs[n]][1..] == [];
    OrderUnique(s);
    LaterVictim(vs, n, n);
    EvictAllTables(s, vs[..n], vs[n].id);
  }

  lemma EvictStep(now: Sched, cs: seq<Req>, i: nat, i': nat, needed: nat)
    requires i < |cs| && i' == i + 1 && !cs[i].status.Prefill?
    ensures EvictUntil(now, cs[i..], needed)
            == if Evict(now, cs[i]).kv.free >= needed then Evict(now, cs[i]) else EvictUntil(Evict(now, cs[i]), cs[i'..], needed)
  {
    NextCandidates(cs, i, i');
  }

  lemma NoneEmptyNext(s: Sched, n: nat, n': nat)
    requires n' == n + 1 && n < |EvictionOrder(s.active)| && NoneEmpty(s, n) && !s.kv.Empty(EvictionOrder(s.active)[n].id)
    ensures NoneEmpty(s, n')
  {
  }

  lemma EvictingNext(s: Sched, needed: nat, i: nat, n: nat, now: Sched, i': nat, n': nat)
    requires Evicting(s, needed, i, n, now) && i < |Sorted(s.active)| && !Sorted(s.active)[i].status.Prefill?
    requires !now.kv.Empty(Sorted(s.active)[i].id) && i' == i + 1 && n' == n + 1
    ensures Evict(now, Sorted(s.active)[i]).kv.free >= needed ==> Preempting(s, needed, false, n', Evict(now, Sorted(s.active)[i]))
    ensures Evict(now, Sorted(s.active)[i]).kv.free < needed ==> Evicting(s, needed, i', n', Evict(now, Sorted(s.active)[i]))
  {
    CandidateNext(s, needed, i, n, now, i', n');
    NoneEmptyNext(s, n, n');
    EvictStep(now, Sorted(s.active), i, i', needed);
  }

  lemma NextCandidates(cs: seq<Req>, i: nat, i': nat)
    requires i < |cs| && i' == i + 1
    ensures cs[i..] != [] && cs[i..][0] == cs[i] && cs[i..][1..] == cs[i'..]
  {
  }

  lemma EvictingRaises(s: Sched, needed: nat, i: nat, n: nat, now: Sched)
    requires Evicting(s, needed, i, n, now) && i < |Sorted(s.active)| && !Sorted(s.active)[i].status.Prefill?
    requires now.kv.Empty(Sorted(s.active)[i].id)
    ensures Preempting(s, needed, true, n, now)
  {
    CandidateNext(s, needed, i, n, now, i + 1, n + 1);
    var cs := Sorted(s.active);
    NextCandidates(cs, i, i + 1);
    EvictAllIs(s, EvictionOrder(s.active)[..n]);
    EvictUntilCounts(Evict(now, cs[i]), cs[i + 1..], needed);
  }

  lemma EvictingEnds(s: Sched, needed: nat, n: nat, now: Sched)
    requires Evicting(s, needed, |Sorted(s.active)|, n, now)
    ensures Preempting(s, needed, false, n, now)
  {
    assert Sorted(s.active)[|Sorted(s.active)|..] == [];
  }

  // ----- one pass of the admission loop, and the phase -----

  /** What n victims free does not cover the head beside the reservations. */
  predicate ShortFor(cfg: Config, st: Admission, n: nat) {
    st.s.pending != [] && n <= |EvictionOrder(st.s.active)| && FreeAfter(st.s, n) < Need(cfg, st.s.pending[0]) + st.reserved
  }

  /** How a pass ends: k admitted and n evicted, and then it raises, or the pass is the model's iteration. */
  ghost predicate Passing(cfg: Config, st: Admission, raised: bool, again: bool, k: nat, n: nat, end: Admission) {
    var s, vs := st.s, EvictionOrder(st.s.active);
    && k <= |s.pending| && n <= |vs| && end.s == Admitted(s, k, n) && NoneEmpty(s, n)
    && end.reserved == ReservedFor(cfg, st, k) && (st.reserved <= s.kv.free ==> end.reserved <= end.s.kv.free)
    && if raised then
         && k == 0 && n < |vs| && s.kv.Empty(vs[n].id) && ShortFor(cfg, st, n)
         && Iterate(cfg, st).st.s.totalPreempted > s.totalPreempted + n
       else Iterate(cfg, st) == if again then Again(end) else Exit(end)
  }

  /** The phase after some passes: k admitted and m evicted so far, the rest as from the start. */
  ghost predicate Underway(cfg: Config, s0: Sched, k: nat, m: nat, st: Admission) {
    && Well(s0) && Well(st.s) && k <= |s0.pending| && m <= |EvictionOrder(s0.active)|
    && st.s == Admitted(s0, k, m) && NoneEmpty(s0, m)
    && st.reserved == ReservedFor(cfg, Admission(s0, 0), k) && st.reserved <= st.s.kv.free
    && AdmitAll(cfg, st) == AdmitAll(cfg, Admission(s0, 0))
  }

  lemma UnderwayStart(cfg: Config, s0: Sched)
    requires Well(s0)
    ensures Underway(cfg, s0, 0, 0, Admission(s0, 0))
  {
    NothingDone(cfg, Admission(s0, 0));
  }

  lemma NoneEmptyOn(s0: Sched, k: nat, m: nat, n: nat, m': nat)
    requires Well(s0) && k <= |s0.pending| && m <= |EvictionOrder(s0.active)| && NoneEmpty(s0, m) && m' == m + n
    requires EvictionOrder(Admitted(s0, k, m).active) == EvictionOrder(s0.active)[m..]
    requires n <= |EvictionOrder(Admitted(s0, k, m).active)| && NoneEmpty(Admitted(s0, k, m), n)
    ensures m' <= |EvictionOrder(s0.active)| && NoneEmpty(s0, m')
  {
    var vs := EvictionOrder(s0.active);
    forall i | 0 <= i < m' ensures !s0.kv.Empty(vs[i].id) {
      if i >= m {
        var j := i - m;
        LaterTable(s0, k, m, i);
        assert vs[m..][j] == vs[i] && !Admitted(s0, k, m).kv.Empty(vs[m..][j].id);
      }
    }
  }

  lemma AdmittedSum(s0: Sched, k: nat, m: nat, k1: nat, n: nat, k': nat, m': nat)
    requires Well(s0) && k <= |s0.pending| && m <= |EvictionOrder(s0.active)| && k' == k + k1 && m' == m + n
    requires k1 <= |Admitted(s0, k, m).pending| && n <= |EvictionOrder(Admitted(s0, k, m).active)|
    ensures EvictionOrder(Admitted(s0, k, m).active) == EvictionOrder(s0.active)[m..]
    ensures k' <= |s0.pending| && m' <= |EvictionOrder(s0.active)|
    ensures Admitted(Admitted(s0, k, m), k1, n) == Admitted(s0, k', m')
  {
    AdmittedOrder(s0, k, m);
    assert |EvictionOrder(s0.active)[m..]| == |EvictionOrder(s0.active)| - m && |s0.pending[k..]| == |s0.pending| - k;
    AdmittedTwice(s0, k, m, k1, n);
  }

  lemma PassedOn(cfg: Config, s0: Sched, k: nat, m: nat, st: Admission, raised: bool, again: bool, k1: nat, n: nat,
                 k': nat, m': nat, end: Admission)
    requires Underway(cfg, s0, k, m, st) && Passing(cfg, st, raised, again, k1, n, end) && k' == k + k1 && m' == m + n
    ensures k' <= |s0.pending| && m' <= |EvictionOrder(s0.active)|
    ensures end.s == Admitted(s0, k', m') && NoneEmpty(s0, m')
    ensures end.reserved == ReservedFor(cfg, Admission(s0, 0), k') && end.reserved <= end.s.kv.free
  {
    AdmittedSum(s0, k, m, k1, n, k', m');
    NoneEmptyOn(s0, k, m, n, m');
    SliceOn(s0.pending, k, k1, k');
    TotalNeedAppend(cfg, s0.pending[..k], s0.pending[k..][..k1]);
  }

  lemma FreeAfterOn(s0: Sched, k: nat, m: nat, n: nat, m': nat)
    requires Well(s0) && k <= |s0.pending| && m <= |EvictionOrder(s0.active)| && m' == m + n <= |EvictionOrder(s0.active)|
    requires Well(Admitted(s0, k, m))
    ensures n <= |EvictionOrder(Admitted(s0, k, m).active)| && FreeAfter(Admitted(s0, k, m), n) == FreeAfter(s0, m')
  {
    AdmittedOrder(s0, k, m);
    AdmittedSum(s0, k, m, 0, n, k, m');
    AdmittedFree(s0, k, m');
    AdmittedFree(Admitted(s0, k, m), 0, n);
  }

  lemma AdmittedFree(s: Sched, k: nat, m: nat)
    requires Well(s) && k <= |s.pending| && m <= |EvictionOrder(s.active)|
    ensures Admitted(s, k, m).kv.free == FreeAfter(s, m)
  {
    EvictPrefix(s, m);
    EvictAllIs(s, EvictionOrder(s.active)[..m]);
  }

  lemma ReservedNext(cfg: Config, st0: Admission, k: nat, k': nat)
    requires k < |st0.s.pending| && k' == k + 1
    ensures ReservedFor(cfg, st0, k') == ReservedFor(cfg, st0, k) + Need(cfg, st0.s.pending[k])
  {
    SliceNext(st0.s.pending, k, k');
    TotalNeedAppend(cfg, st0.s.pending[..k], [st0.s.pending[k]]);
    assert [st0.s.pending[k]][1..] == [];
  }

  /** A pass that raises does so for the request and at the victim that the sums name. */
  lemma RaisedOn(cfg: Config, s0: Sched, k: nat, m: nat, st: Admission, n: nat, m': nat)
    requires Underway(cfg, s0, k, m, st) && m' == m + n < |EvictionOrder(s0.active)| && NoneEmpty(s0, m')
    requires EvictionOrder(st.s.active) == EvictionOrder(s0.active)[m..] && st.s.kv.Empty(EvictionOrder(st.s.active)[n].id)
    requires ShortFor(cfg, st, n) && Iterate(cfg, st).st.s.totalPreempted > st.s.totalPreempted + n
    ensures RaisesAt(cfg, Admission(s0, 0), k, m')
  {
    assert EvictionOrder(s0.active)[m..][n] == EvictionOrder(s0.active)[m'];
    LaterTable(s0, k, m, m');
    PassCounts(cfg, st);
    VictimsExactly(cfg, Admission(s0, 0), m');
    var j: nat :| NeedsVictim(cfg, Admission(s0, 0), j, m');
    ShortAt(cfg, s0, k, m, st, n, m', k + 1);
    OneShort(cfg, Admission(s0, 0), m', k, j);
  }

  /** The estimates up to the head, and not its own, are covered by what is free at that victim. */
  lemma ShortAt(cfg: Config, s0: Sched, k: nat, m: nat, st: Admission, n: nat, m': nat, k': nat)
    requires Underway(cfg, s0, k, m, st) && m' == m + n < |EvictionOrder(s0.active)| && ShortFor(cfg, st, n) && k' == k + 1
    ensures k' <= |s0.pending| && ReservedFor(cfg, Admission(s0, 0), k) <= FreeAfter(s0, m') < ReservedFor(cfg, Admission(s0, 0), k')
  {
    FreeAfterOn(s0, k, m, n, m');
    FreeAfterBounds(st.s, n);
    ReservedNext(cfg, Admission(s0, 0), k, k');
  }

  lemma PassCounts(cfg: Config, st: Admission)
    requires Well(st.s)
    ensures AdmitAll(cfg, st).st.s.totalPreempted >= Iterate(cfg, st).st.s.totalPreempted
  {
    IterationProgress(cfg, st);
    AdmitAllCounts(cfg, Iterate(cfg, st).st);
  }

  lemma UnderwayNext(cfg: Config, s0: Sched, k: nat, m: nat, st: Admission, k1: nat, n: nat, k': nat, m': nat, end: Admission)
    requires Underway(cfg, s0, k, m, st) && Passing(cfg, st, false, true, k1, n, end) && !Spinning(cfg, st)
    requires k' == k + k1 && m' == m + n
    ensures Underway(cfg, s0, k', m', end) && Smaller(end.s, st.s)
  {
    IterationProgress(cfg, st);
    PassedOn(cfg, s0, k, m, st, false, true, k1, n, k', m', end);
  }

  lemma NoneRaises(cfg: Config, s0: Sched, m: nat)
    requires Well(s0) && m <= |EvictionOrder(s0.active)| && NoneEmpty(s0, m) && VictimCount(cfg, Admission(s0, 0)) <= m
    ensures !PhaseRaises(cfg, Admission(s0, 0))
  {
    forall k: nat, i: nat ensures !RaisesAt(cfg, Admission(s0, 0), k, i) { VictimsExactly(cfg, Admission(s0, 0), i); }
  }

  /** A phase that ends where the model's does came to no empty table. */
  lemma UnderwayEnds(cfg: Config, s0: Sched, k: nat, m: nat, st: Admission)
    requires Underway(cfg, s0, k, m, st) && AdmitAll(cfg, st).st.s == st.s
    ensures !PhaseRaises(cfg, Admission(s0, 0))
  {
    NoneRaises(cfg, s0, m);
  }

  lemma UnderwayExits(cfg: Config, s0: Sched, k: nat, m: nat, st: Admission, k1: nat, n: nat, end: Admission)
    requires Underway(cfg, s0, k, m, st) && Passing(cfg, st, false, false, k1, n, end)
    ensures AdmitAll(cfg, Admission(s0, 0)) == Done(end)
    ensures !PhaseRaises(cfg, Admission(s0, 0))
  {
    PassedOn(cfg, s0, k, m, st, false, false, k1, n, k + k1, m + n, end);
    NoneRaises(cfg, s0, m + n);
  }

  /** The phase came, with k admitted and m evicted, to its first victim with an empty table. */
  predicate PhaseRaised(cfg: Config, s0: Sched, k: nat, m: nat, s': Sched) {
    RaisesAt(cfg, Admission(s0, 0), k, m) && s' == Admitted(s0, k, m)
  }

  /** The phase came to none, and ended, or hangs, as the model says. */
  ghost predicate PhaseEnded(cfg: Config, s0: Sched, hangs: bool, s': Sched)
    requires Well(s0)
  {
    && !PhaseRaises(cfg, Admission(s0, 0))
    && AdmitAll(cfg, Admission(s0, 0)).st.s == s' && (hangs <==> AdmitAll(cfg, Admission(s0, 0)).Forever?)
  }

  lemma UnderwayLeaves(cfg: Config, s0: Sched, k: nat, m: nat, st: Admission)
    requires Underway(cfg, s0, k, m, st) && (st.s.pending == [] || |st.s.active| >= cfg.maxBatch)
    ensures PhaseEnded(cfg, s0, false, st.s)
  {
    UnderwayEnds(cfg, s0, k, m, st);
  }

  lemma UnderwaySpins(cfg: Config, s0: Sched, k: nat, m: nat, st: Admission, again: bool, k1: nat, n: nat, end: Admission)
    requires Underway(cfg, s0, k, m, st) && Passing(cfg, st, false, again, k1, n, end) && Spinning(cfg, st)
    ensures PhaseEnded(cfg, s0, true, end.s)
  {
    IterationProgress(cfg, st);
    UnderwayEnds(cfg, s0, k, m, st);
  }

  /** Where a pass leads: on, with something smaller, or to one of the three ends of the phase. */
  ghost predicate LedTo(cfg: Config, s0: Sched, s: Sched, raised: bool, idle: bool, again: bool, k: nat, m: nat, end: Admission)
    requires Well(s0)
  {
    if raised then PhaseRaised(cfg, s0, k, m, end.s)
    else if idle then PhaseEnded(cfg, s0, true, end.s)
    else if again then Underway(cfg, s0, k, m, end) && Smaller(end.s, s)
    else PhaseEnded(cfg, s0, false, end.s)
  }

  lemma PassLeads(cfg: Config, s0: Sched, k: nat, m: nat, st: Admission, raised: bool, idle: bool, again: bool,
                  k1: nat, n: nat, k': nat, m': nat, end: Admission)
    requires Underway(cfg, s0, k, m, st) && Passing(cfg, st, raised, again, k1, n, end)
    requires !raised ==> (idle <==> Spinning(cfg, st))
    requires k' == k + k1 && m' == m + n
    ensures LedTo(cfg, s0, st.s, raised, idle, again, k', m', end)
  {
    if raised {
      PassedOn(cfg, s0, k, m, st, raised, again, k1, n, k', m', end);
      AdmittedOrder(s0, k, m);
      RaisedOn(cfg, s0, k, m, st, n, m');
    } else if idle {
      UnderwaySpins(cfg, s0, k, m, st, again, k1, n, end);
    } else if again {
      UnderwayNext(cfg, s0, k, m, st, k1, n, k', m', end);
    } else {
      UnderwayExits(cfg, s0, k, m, st, k1, n, end);
    }
  }

  // ----- the three branches of a pass -----

  lemma HeadPass(cfg: Config, st: Admission)
    requires st.s.pending != [] && |st.s.active| < cfg.maxBatch && Need(cfg, st.s.pending[0]) <= st.s.kv.free - st.reserved
    ensures Passing(cfg, st, false, true, 1, 0, Admission(AdmitHead(st.s), st.reserved + Need(cfg, st.s.pending[0])))
  {
    HeadIsAdmitted(st.s);
    ReservedNone(cfg, st);
  }

  lemma StopPass(cfg: Config, st: Admission)
    requires st.s.pending != [] && Need(cfg, st.s.pending[0]) > st.s.kv.free - st.reserved
    requires !(st.s.pending[0].priority.High? && cfg.Preempts() && st.s.active != [])
    ensures Passing(cfg, st, false, false, 0, 0, st) && !Spinning(cfg, st)
  {
    NothingDone(cfg, st);
  }

  lemma BlockedPass(cfg: Config, st: Admission, raised: bool, again: bool, n: nat, s': Sched)
    requires Well(st.s) && st.s.pending != [] && |st.s.active| < cfg.maxBatch
    requires Need(cfg, st.s.pending[0]) > st.s.kv.free - st.reserved
    requires st.s.pending[0].priority.High? && cfg.Preempts() && st.s.active != []
    requires Preempting(st.s, Need(cfg, st.s.pending[0]), raised, n, s')
    requires !raised ==> (again <==> s'.kv.free >= Need(cfg, st.s.pending[0]))
    ensures Passing(cfg, st, raised, again, 0, n, Admission(s', st.reserved))
    ensures !raised ==> (Spinning(cfg, st) <==> again && s'.totalPreempted == st.s.totalPreempted)
  {
    EvictedIsAdmitted(st.s, n);
    EvictAllIs(st.s, EvictionOrder(st.s.active)[..n]);
    AdmittedFree(st.s, 0, n);
    ReservedNone(cfg, st);
    if raised { RaisesShort(cfg, st, n); } else { SpinsIfNobody(cfg, st, again, n, s'); }
  }

  /** An eviction round only goes on while what it freed so far is too little. */
  lemma RaisesShort(cfg: Config, st: Admission, n: nat)
    requires Well(st.s) && st.s.pending != [] && n < |EvictionOrder(st.s.active)|
    requires Need(cfg, st.s.pending[0]) > st.s.kv.free - st.reserved
    requires TryPreempt(st.s, Need(cfg, st.s.pending[0])).totalPreempted > st.s.totalPreempted + n
    ensures ShortFor(cfg, st, n)
  {
    var s, vs, needed := st.s, EvictionOrder(st.s.active), Need(cfg, st.s.pending[0]);
    TryPreemptPrefix(s, needed);
    EvictAllIs(s, vs[..Round(s, needed)]);
    assert |vs[..Round(s, needed)]| == Round(s, needed) > n;
    if n == 0 { assert vs[..0] == []; }
  }

  lemma SpinsIfNobody(cfg: Config, st: Admission, again: bool, n: nat, s': Sched)
    requires Well(st.s) && st.s.pending != [] && |st.s.active| < cfg.maxBatch
    requires Need(cfg, st.s.pending[0]) > st.s.kv.free - st.reserved
    requires st.s.pending[0].priority.High? && cfg.Preempts() && st.s.active != []
    requires Preempting(st.s, Need(cfg, st.s.pending[0]), false, n, s') && s'.totalPreempted == st.s.totalPreempted + n
    requires again <==> s'.kv.free >= Need(cfg, st.s.pending[0])
    ensures Spinning(cfg, st) <==> again && n == 0
  {
    var s, vs, needed := st.s, EvictionOrder(st.s.active), Need(cfg, st.s.pending[0]);
    EvictionOrderIs(s.active);
    TryPreemptPrefix(s, needed);
    EvictAllIs(s, vs[..Round(s, needed)]);
    assert |vs[..Round(s, needed)]| == Round(s, needed) == n;
    if n == 0 {
      assert vs[..0] == [] && vs == [];
      forall r | r in s.active ensures r.status.Prefill? { assert r !in vs; }
    } else {
      assert vs[0] in vs;
    }
  }
}
