/** What a scheduling step can do to the requests it holds: nothing but a few status changes. */
module SchedClosure {
  import opened Types
  import opened SchedModel
  import opened SchedLists
  import opened SchedAdmission
  import opened SchedPhases
  import opened SchedStep
  import opened SchedRuns
  import opened SchedSwap

  /** A property of requests that the scheduler's status changes keep. */
  ghost predicate Closed(P: Req -> bool) {
    && (forall r :: P(r) && r.status.Pending? ==> P(r.(status := Prefill)))
    && (forall r :: P(r) && r.status.Preempted? ==> P(r.(status := Generating)))
    && (forall r :: P(r) && r.status.Generating? ==> P(r.(status := Preempted)))
  }

  ghost predicate All(P: Req -> bool, s: Sched) {
    && (forall r :: r in s.pending ==> P(r) && r.status.Pending?)
    && (forall r :: r in s.active ==> P(r) && !r.status.Pending? && !r.status.Preempted?)
    && (forall r :: r in s.preempted ==> P(r) && r.status.Preempted?)
  }

  ghost predicate NoneFinished(s: Sched) { forall r :: r in s.active ==> !r.Finished() }

  lemma {:induction false} RecordedIs(m: map<Id, Req>, rs: seq<Req>)
    ensures forall id :: id in Recorded(m, rs) ==>
              || (id in m && Recorded(m, rs)[id] == m[id])
              || (Recorded(m, rs)[id] in rs && Recorded(m, rs)[id].id == id)
    decreases |rs|
  {
    if rs != [] { RecordedIs(m[rs[0].id := rs[0]], rs[1..]); }
  }

  /** Newly completed requests come from the batch and are finished. */
  ghost predicate Harvest(P: Req -> bool, s: Sched, s': Sched) {
    forall id :: id in s'.completed ==>
      || (id in s.completed && s'.completed[id] == s.completed[id])
      || (s'.completed[id].id == id && s'.completed[id].Finished() && P(s'.completed[id]))
  }

  lemma ReapClosed(P: Req -> bool, s: Sched)
    requires Well(s) && All(P, s)
    ensures All(P, Reap(s)) && NoneFinished(Reap(s)) && Harvest(P, s, Reap(s))
  {
    ReapIs(s);
    UnfinishedMembers(s.active);
    forall r | r in Finished(s.active) ensures r in s.active && r.Finished() { FinishedMembers(s.active, r); }
    RecordedIs(s.completed, Finished(s.active));
  }

  lemma {:induction false} ResumeClosed(P: Req -> bool, s: Sched)
    requires Closed(P) && All(P, s) && NoneFinished(s)
    ensures All(P, Resume(s)) && NoneFinished(Resume(s)) && Resume(s).completed == s.completed
    decreases |s.preempted|
  {
    if CanResume(s) {
      assert s.preempted[0] in s.preempted;
      ResumeClosed(P, ResumeOne(s));
    }
  }

  lemma {:induction false} RemoveAllIn(rs: seq<Req>, vs: seq<Req>)
    ensures forall r :: r in RemoveAll(rs, vs) ==> r in rs
    decreases |vs|
  {
    if vs != [] {
      RemoveAllIn(RemoveId(rs, vs[0].id), vs[1..]);
      RemoveIn(rs, vs[0].id);
    }
  }

  lemma {:induction false} RemoveIn(rs: seq<Req>, id: Id)
    ensures forall r :: r in RemoveId(rs, id) ==> r in rs
  {
    if rs != [] && rs[0].id != id { RemoveIn(rs[1..], id); }
  }

  lemma AdmittedClosed(P: Req -> bool, s: Sched, k: nat, m: nat)
    requires Closed(P) && All(P, s) && NoneFinished(s) && k <= |s.pending| && m <= |EvictionOrder(s.active)|
    ensures All(P, Admitted(s, k, m))
  {
    var s', vs := Admitted(s, k, m), EvictionOrder(s.active)[..m];
    EvictionOrderIs(s.active);
    RemoveAllIn(s.active, vs);
    forall r | r in Prefilled(s.pending[..k]) ensures P(r) && r.status.Prefill? {
      var i :| 0 <= i < k && Prefilled(s.pending[..k])[i] == r;
      assert s.pending[i] in s.pending;
    }
    forall r | r in Parked(vs) ensures P(r) && r.status.Preempted? {
      var i :| 0 <= i < m && Parked(vs)[i] == r;
      assert vs[i] in EvictionOrder(s.active);
    }
  }

  lemma {:induction false} ForceAllClosed(P: Req -> bool, cfg: Config, s: Sched, rs: seq<Req>)
    requires Closed(P) && All(P, s) && forall r :: r in rs ==> P(r) && r.status.Pending?
    ensures All(P, ForceAll(cfg, s, rs)) && ForceAll(cfg, s, rs).completed == s.completed
    decreases |rs|
  {
    if rs != [] && |s.active| < cfg.maxBatch {
      RemoveIn(s.pending, rs[0].id);
      if Need(cfg, rs[0]) <= s.kv.free {
        ForceAllClosed(P, cfg, ForceOne(s, rs[0]), rs[1..]);
      } else {
        ForceAllClosed(P, cfg, s, rs[1..]);
      }
    }
  }

  lemma ForceClosed(P: Req -> bool, cfg: Config, s: Sched, now: real)
    requires Closed(P) && All(P, s)
    ensures All(P, Force(cfg, s, now)) && Force(cfg, s, now).completed == s.completed
  {
    forall r | r in TimedOut(cfg, s.pending, now) ensures r in s.pending { TimedOutMembers(cfg, s.pending, now, r); }
    ForceAllClosed(P, cfg, s, TimedOut(cfg, s.pending, now));
  }

  /** Whatever status changes keep, a scheduling step keeps, for every request it holds or hands over, also one that
      raises half way through. */
  lemma StepClosed(P: Req -> bool, cfg: Config, s: Sched, now: real)
    requires Closed(P) && Well(s) && All(P, s)
    ensures All(P, Step(cfg, s, now).s) && Harvest(P, s, Step(cfg, s, now).s)
  {
    ReapClosed(P, s);
    ResumeClosed(P, Reap(s));
    var k, m := StepShape(cfg, s, now);
    AdmittedClosed(P, BeforeAdmission(s), k, m);
    ForceClosed(P, cfg, Admitted(BeforeAdmission(s), k, m), now);
  }

  // ----- nobody is left behind -----

  predicate Quiet(s: Sched) { s.pending == [] && s.active == [] }

  lemma {:induction false} AdmissionNotQuiet(cfg: Config, st: Admission)
    requires Well(st.s)
    ensures Quiet(AdmitAll(cfg, st).st.s) ==> Quiet(st.s)
    decreases |st.s.pending|, |EvictionOrder(st.s.active)|
  {
    IterationProgress(cfg, st);
    if st.s.pending != [] {
      RoundEvicts(st.s, Need(cfg, st.s.pending[0]));
      EvictPrefix(st.s, Round(st.s, Need(cfg, st.s.pending[0])));
    }
    if Iterate(cfg, st).Again? && !Spinning(cfg, st) { AdmissionNotQuiet(cfg, Iterate(cfg, st).st); }
  }

  lemma {:induction false} ForceNotQuiet(cfg: Config, s: Sched, rs: seq<Req>)
    ensures Quiet(ForceAll(cfg, s, rs)) ==> Quiet(s)
    decreases |rs|
  {
    if rs != [] && |s.active| < cfg.maxBatch {
      if Need(cfg, rs[0]) <= s.kv.free {
        ForceNotQuiet(cfg, ForceOne(s, rs[0]), rs[1..]);
      } else {
        ForceNotQuiet(cfg, s, rs[1..]);
      }
    }
  }

  /** A step that ends with nothing pending and nothing running started, after swap-in, with the same. */
  lemma QuietAfterStep(cfg: Config, s: Sched, now: real)
    requires Well(s) && Step(cfg, s, now).Returns? && Quiet(Step(cfg, s, now).s)
    ensures Quiet(BeforeAdmission(s)) && Step(cfg, s, now).s == BeforeAdmission(s)
  {
    BeforeAdmissionWell(s);
    var st := AdmitAll(cfg, Admission(BeforeAdmission(s), 0)).st;
    ForceNotQuiet(cfg, st.s, TimedOut(cfg, st.s.pending, now));
    AdmissionNotQuiet(cfg, Admission(BeforeAdmission(s), 0));
  }

  /** The generation loop only calls the scheduler while something is pending or running. With clients that keep
      their obligations that strands nobody: a step that leaves the loop idle leaves no one preempted. */
  lemma NobodyStranded(cfg: Config, s: Sched, now: real, blocks: nat)
    requires Well(s) && Backed(s, blocks) && ClientsKeep(s)
    requires Step(cfg, s, now).Returns? && Quiet(Step(cfg, s, now).s)
    ensures Step(cfg, s, now).s.preempted == []
  {
    QuietAfterStep(cfg, s, now);
    ReapIs(s);
    var s1 := Reap(s);
    ResumeKeepsIds(s1);
    if s.preempted != [] {
      EmptyBatchResumes(s, blocks);
      assert CanResume(s1);
      ResumeKeepsIds(ResumeOne(s1));
    }
  }
}
