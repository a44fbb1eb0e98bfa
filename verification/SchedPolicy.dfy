/** For whom, and under which policies, the scheduler preempts. */
module SchedPolicy {
  import opened Types
  import opened SchedModel
  import opened SchedLists
  import opened SchedAdmission
  import opened SchedClosedForm
  import opened SchedPhases
  import opened SchedAhead
  import opened SchedStep
  import opened SchedForced

  /** Under the policy "fcfs" or "priority" a HIGH head that needs more than is free, and no more than the eviction of
      everybody frees, is let in at the cost of at least one running request. */
  lemma PreemptsForHigh(cfg: Config, st: Admission)
    requires Well(st.s) && st.reserved <= st.s.kv.free && (cfg.policy == "fcfs" || cfg.policy == "priority")
    requires st.s.pending != [] && st.s.pending[0].priority.High? && 0 < |st.s.active| < cfg.maxBatch
    requires st.s.kv.free < Need(cfg, st.s.pending[0]) + st.reserved <= Pool(st.s)
    ensures var s' := AdmitAll(cfg, st).st.s;
            && |s'.pending| < |st.s.pending| && s'.totalScheduled > st.s.totalScheduled
            && s'.totalPreempted > st.s.totalPreempted && |s'.preempted| > |st.s.preempted|
  {
    var k := AdmitCount(cfg, st, 0);
    PhaseInSums(cfg, st, k);
    HeadAdmissible(cfg, st);
    ReservedNone(cfg, st);
    ReservedGrows(cfg, st, 1, k);
    FewestExactly(st.s, 0, ReservedFor(cfg, st, 1));
    ReservedReachable(cfg, st, k);
    FewestExactly(st.s, 0, ReservedFor(cfg, st, k));
    FreeAfterNone(st.s);
    assert VictimsAt(cfg, st, k) > 0;
  }

  lemma FreeAfterNone(s: Sched)
    ensures FreeAfter(s, 0) == s.kv.free
  {
    assert EvictionOrder(s.active)[..0] == [];
  }

  /** Nobody waits for whom the policy preempts. */
  predicate NobodyToPreemptFor(cfg: Config, s: Sched) {
    (cfg.policy != "fcfs" && cfg.policy != "priority") || forall r :: r in s.pending ==> r.priority.Normal?
  }

  lemma NoEvictions(cfg: Config, st: Admission, k: nat)
    requires NobodyToPreemptFor(cfg, st.s)
    ensures !MayEvictFor(cfg, st, k)
  {
    if k < |st.s.pending| { assert st.s.pending[k] in st.s.pending; }
  }

  lemma {:induction false} NoneToGo(cfg: Config, st: Admission, k: nat)
    requires NobodyToPreemptFor(cfg, st.s) && ComesTo(cfg, st, k) && st.reserved <= st.s.kv.free
    ensures FewestFor(cfg, st, k) == 0
    decreases k
  {
    if k == 0 {
      SizeNow(cfg, st);
    } else {
      NoneToGo(cfg, st, k - 1);
      NoEvictions(cfg, st, k - 1);
      assert Admissible(cfg, st, k - 1);
    }
  }

  /** Such a phase only lets in from the head of the queue. */
  lemma PhaseNeverPreempts(cfg: Config, s: Sched) returns (k: nat)
    requires Well(s) && NobodyToPreemptFor(cfg, s)
    ensures StopsBefore(cfg, Admission(s, 0), k) && !PhaseRaises(cfg, Admission(s, 0))
    ensures AdmitAll(cfg, Admission(s, 0)) == Done(Admission(Admitted(s, k, 0), TotalNeed(cfg, s.pending[..k])))
  {
    var st := Admission(s, 0);
    k := AdmitCount(cfg, st, 0);
    PhaseInSums(cfg, st, k);
    NoneToGo(cfg, st, k);
    NoEvictions(cfg, st, k);
    forall i: nat, m: nat ensures !RaisesAt(cfg, st, i, m) { NoEvictions(cfg, st, i); }
  }

  /** Under any other policy, or with NORMAL requests only, a step returns and preempts nobody. */
  lemma NeverPreempts(cfg: Config, s: Sched, now: real)
    requires Well(s)
    requires (cfg.policy != "fcfs" && cfg.policy != "priority") || forall r :: r in s.pending ==> r.priority.Normal?
    ensures Step(cfg, s, now).Returns?
    ensures var s' := Step(cfg, s, now).s;
            && s'.totalPreempted == s.totalPreempted && s'.preempted == BeforeAdmission(s).preempted
            && s'.kv == BeforeAdmission(s).kv && |s'.active| >= |BeforeAdmission(s).active|
  {
    var s0 := BeforeAdmission(s);
    BeforeAdmissionWell(s);
    BeforeAdmissionSame(s);
    var k := PhaseNeverPreempts(cfg, s0);
    NothingGone(s0, k);
    ForceAllCloses(cfg, Admitted(s0, k, 0), TimedOut(cfg, Admitted(s0, k, 0).pending, now));
  }

  lemma BeforeAdmissionSame(s: Sched)
    requires Well(s)
    ensures BeforeAdmission(s).pending == s.pending && BeforeAdmission(s).totalPreempted == s.totalPreempted
  {
    ReapIs(s);
    ResumeCounts(Reap(s));
  }

  lemma {:induction false} ResumeCounts(s: Sched)
    ensures Resume(s).pending == s.pending && Resume(s).totalPreempted == s.totalPreempted
    decreases |s.preempted|
  {
    if CanResume(s) { ResumeCounts(ResumeOne(s)); }
  }

  lemma NothingGone(s: Sched, k: nat)
    requires k <= |s.pending|
    ensures Admitted(s, k, 0) == s.(pending := s.pending[k..], active := s.active + Prefilled(s.pending[..k]),
                                    totalScheduled := s.totalScheduled + k)
  {
    assert EvictionOrder(s.active)[..0] == [] && s.preempted + Parked([]) == s.preempted;
  }
}
