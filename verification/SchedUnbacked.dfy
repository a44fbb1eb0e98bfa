/** The server as it is wired: nobody allocates blocks. Preemption then frees nothing, takes everybody or nobody,
    and is for good. */
module SchedUnbacked {
  import opened Types
  import opened SchedModel
  import opened SchedLists
  import opened SchedAdmission
  import opened SchedClosedForm
  import opened SchedPhases
  import opened SchedStep
  import opened SchedRuns

  /** No client ever allocates: no tables and nothing in swap space. */
  predicate NoClients(kv: Ledger) { kv.tables == map[] && kv.swapped == map[] }

  lemma {:induction false} FreeAllIdle(kv: Ledger, rs: seq<Req>)
    requires NoClients(kv)
    ensures FreeAll(kv, rs) == kv
    decreases |rs|
  {
    if rs != [] { FreeAllIdle(kv, rs[1..]); }
  }

  lemma {:induction false} SwapOutAllIdle(kv: Ledger, rs: seq<Req>)
    requires NoClients(kv)
    ensures SwapOutAll(kv, rs) == kv
    decreases |rs|
  {
    if rs != [] { SwapOutAllIdle(kv, rs[1..]); }
  }

  lemma {:induction false} NothingFreeable(kv: Ledger, vs: seq<Req>)
    requires NoClients(kv)
    ensures Freeable(kv, vs) == 0
  {
    if vs != [] { NothingFreeable(kv, vs[1..]); }
  }

  lemma BeforeAdmissionIdle(s: Sched)
    requires Well(s) && NoClients(s.kv)
    ensures Reap(s).kv == s.kv && BeforeAdmission(s) == Reap(s)
    ensures BeforeAdmission(s).preempted == s.preempted && BeforeAdmission(s).pending == s.pending
  {
    ReapIs(s);
    FreeAllIdle(s.kv, Finished(s.active));
  }

  // ----- everybody or nobody -----

  /** The phase admits k heads without preempting; then it ends, or preempts every non-PREFILL request for a HIGH
      head that does not fit beside the reservations and still does not, and ends there. */
  ghost predicate AllOrNone(cfg: Config, st: Admission, end: Sched, k: nat, m: nat) {
    && k <= |st.s.pending| && m <= |EvictionOrder(st.s.active)| && end == Admitted(st.s, k, m)
    && (m == 0
        || (&& m == |EvictionOrder(st.s.active)| && k < |st.s.pending| && st.s.pending[k].priority.High?
            && st.reserved + TotalNeed(cfg, st.s.pending[..k]) + Need(cfg, st.s.pending[k]) > st.s.kv.free))
  }

  lemma AllOrNoneLater(cfg: Config, st: Admission, end: Sched, k: nat, m: nat)
    requires Well(st.s) && st.s.pending != []
    requires AllOrNone(cfg, Admission(AdmitHead(st.s), st.reserved + Need(cfg, st.s.pending[0])), end, k, m)
    ensures AllOrNone(cfg, st, end, k + 1, m)
  {
    HeadIsAdmitted(st.s);
    AdmittedOrder(st.s, 1, 0);
    AdmittedTwice(st.s, 1, 0, k, m);
    TakeCons(st.s.pending, k + 1);
    Tail(st.s.pending[0], st.s.pending[1..][..k]);
  }

  lemma AdmitsAsIs(cfg: Config, st: Admission)
    requires Well(st.s) && NoClients(st.s.kv) && st.s.pending != [] && |st.s.active| < cfg.maxBatch
    requires Need(cfg, st.s.pending[0]) + st.reserved <= st.s.kv.free
    ensures Well(AdmitHead(st.s))
    ensures AdmitAll(cfg, st) == AdmitAll(cfg, Admission(AdmitHead(st.s), st.reserved + Need(cfg, st.s.pending[0])))
  {
    IterationProgress(cfg, st);
  }

  lemma BlockedPhase(cfg: Config, st: Admission)
    requires Well(st.s) && NoClients(st.s.kv) && st.s.pending != [] && |st.s.active| < cfg.maxBatch
    requires Need(cfg, st.s.pending[0]) + st.reserved > st.s.kv.free && MayPreempt(cfg, st.s)
    ensures AdmitAll(cfg, st).st.s == EvictFirst(st.s, |EvictionOrder(st.s.active)|)
  {
    AdmitsByReference(cfg, st);
    NothingFreeable(st.s.kv, EvictionOrder(st.s.active));
  }

  lemma {:induction false} PhaseAllOrNone(cfg: Config, st: Admission) returns (k: nat, m: nat)
    requires Well(st.s) && NoClients(st.s.kv)
    ensures AllOrNone(cfg, st, AdmitAll(cfg, st).st.s, k, m)
    decreases |st.s.pending|
  {
    var s := st.s;
    EvictedIsAdmitted(s, 0);
    assert EvictionOrder(s.active)[..0] == [] && s.pending[..0] == [];
    k, m := 0, 0;
    if s.pending != [] && |s.active| < cfg.maxBatch {
      if Need(cfg, s.pending[0]) + st.reserved <= s.kv.free {
        AdmitsAsIs(cfg, st);
        var st1 := Admission(AdmitHead(s), st.reserved + Need(cfg, s.pending[0]));
        k, m := PhaseAllOrNone(cfg, st1);
        AllOrNoneLater(cfg, st, AdmitAll(cfg, st).st.s, k, m);
        k := k + 1;
      } else if MayPreempt(cfg, s) {
        BlockedPhase(cfg, st);
        m := |EvictionOrder(s.active)|;
        EvictedIsAdmitted(s, m);
      }
    }
  }

  /** When nobody allocates, a step frees no block by preempting, resumes no one, and preempts all non-PREFILL
      requests or none, admitting nobody after that but what it forces in. */
  lemma PreemptsAllOrNone(cfg: Config, s: Sched, now: real) returns (k: nat, m: nat)
    requires Well(s) && NoClients(s.kv)
    ensures var s0 := BeforeAdmission(s);
            && k <= |s0.pending| && m <= |EvictionOrder(s0.active)|
            && AllOrNone(cfg, Admission(s0, 0), Admitted(s0, k, m), k, m)
            && EvictionOrder(Admitted(s0, k, m).active) == (if m == 0 then EvictionOrder(s0.active) else [])
            && (Step(cfg, s, now) == Returns(Force(cfg, Admitted(s0, k, m), now)) || Step(cfg, s, now) == Hangs(Admitted(s0, k, m)))
  {
    var s0 := BeforeAdmission(s);
    BeforeAdmissionWell(s);
    BeforeAdmissionIdle(s);
    NothingRaises(cfg, s, now);
    k, m := PhaseAllOrNone(cfg, Admission(s0, 0));
    AdmittedOrder(s0, k, m);
  }

  // ----- for good -----

  /** No step resumes a preempted request or changes a block count. */
  lemma PreemptedForGood(cfg: Config, s: Sched, now: real)
    requires Well(s) && NoClients(s.kv)
    ensures Step(cfg, s, now).s.kv == s.kv
    ensures s.preempted <= Step(cfg, s, now).s.preempted
  {
    BeforeAdmissionIdle(s);
    var k, m := StepShape(cfg, s, now);
    var s0 := BeforeAdmission(s);
    SwapOutAllIdle(s0.kv, EvictionOrder(s0.active)[..m]);
    ForceIs(cfg, Admitted(s0, k, m), now);
  }

  /** And no step raises. */
  lemma UnbackedNeverRaises(cfg: Config, s: Sched, now: real)
    requires Well(s) && NoClients(s.kv)
    ensures !Step(cfg, s, now).Raises?
  {
    BeforeAdmissionIdle(s);
    NothingRaises(cfg, s, now);
  }

  lemma AbortKeeps(s: Sched, id: Id, r: Req)
    requires Well(s) && NoClients(s.kv) && r in s.preempted && id != r.id
    ensures r in Abort(s, id).preempted && Abort(s, id).kv == s.kv
  {
    WellActive(s);
    RemoveMembers(s.preempted, id, r);
  }

  lemma CancelsPreempted(s: Sched, h: History, r: Req)
    requires Located(s, h) && r in s.preempted
    ensures r.id in Told(s, h, Cancel(r.id)).cancelled
  {
    assert HasId(s.preempted, r.id);
    CountMember(s.preempted, r);
    CountHas(s.pending, r.id);
    assert Places(s, h, r.id) == In(r.id, h.added);
  }

  lemma PreemptedStays(cfg: Config, s: Sched, h: History, e: Event, r: Req)
    requires Inv(s, h) && NoClients(s.kv) && Possible(cfg, s, h, e) && r in s.preempted
    requires e.Work? ==> NoClients(e.kv)
    requires r.id !in Told(s, h, e).cancelled
    ensures r in Next(cfg, s, h, e).preempted && NoClients(Next(cfg, s, h, e).kv)
  {
    LocatedWell(s, h);
    match e
    case Schedule(now) => PreemptedForGood(cfg, s, now);
    case Cancel(id) =>
      CancelsPreempted(s, h, r);
      AbortKeeps(s, id, r);
    case _ =>
  }

  ghost predicate NeverBacked(cfg: Config, s: Sched, h: History, es: seq<Event>)
    requires Run(cfg, s, h, es)
    decreases |es|
  {
    es == [] || ((es[0].Work? ==> NoClients(es[0].kv))
                 && NeverBacked(cfg, Next(cfg, s, h, es[0]), Told(s, h, es[0]), es[1..]))
  }

  lemma {:induction false} CancelledGrows(cfg: Config, s: Sched, h: History, es: seq<Event>)
    requires Run(cfg, s, h, es)
    ensures h.cancelled <= End(cfg, s, h, es).1.cancelled
    decreases |es|
  {
    if es != [] { CancelledGrows(cfg, Next(cfg, s, h, es[0]), Told(s, h, es[0]), es[1..]); }
  }

  /** On a whole run without clients, whoever is preempted stays preempted unless cancelled. */
  lemma {:induction false} StaysPreempted(cfg: Config, s: Sched, h: History, es: seq<Event>, r: Req)
    requires Inv(s, h) && NoClients(s.kv) && Run(cfg, s, h, es) && NeverBacked(cfg, s, h, es)
    requires r in s.preempted && r.id !in End(cfg, s, h, es).1.cancelled
    ensures r in End(cfg, s, h, es).0.preempted && NoClients(End(cfg, s, h, es).0.kv)
    decreases |es|
  {
    if es != [] {
      CancelledGrows(cfg, Next(cfg, s, h, es[0]), Told(s, h, es[0]), es[1..]);
      PreemptedStays(cfg, s, h, es[0], r);
      EventInv(cfg, s, h, es[0]);
      StaysPreempted(cfg, Next(cfg, s, h, es[0]), Told(s, h, es[0]), es[1..], r);
    }
  }
}
