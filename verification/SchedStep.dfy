/** The fourth phase, the whole scheduling step, and what a caller can rely on when it returns. */
module SchedStep {
  import opened Types
  import opened SchedModel
  import opened SchedLists
  import opened SchedAdmission
  import opened SchedPhases
  import opened SchedAhead

  // ----- phase 4 -----

  predicate Late(cfg: Config, r: Req, now: real) { now - r.arrival > cfg.MaxWait() }

  /** The wait is configured in milliseconds, the clock counts seconds. */
  lemma LateIs(cfg: Config, r: Req, now: real)
    ensures Late(cfg, r, now) <==> (now - r.arrival) * 1000.0 > cfg.maxWaitMs as real
  {
  }

  lemma {:induction false} TimedOutMembers(cfg: Config, rs: seq<Req>, now: real, r: Req)
    ensures r in TimedOut(cfg, rs, now) <==> r in rs && Late(cfg, r, now)
  {
    if rs != [] { TimedOutMembers(cfg, rs[1..], now, r); }
  }

  lemma {:induction false} TimedOutCount(cfg: Config, rs: seq<Req>, now: real, id: Id)
    ensures Count(TimedOut(cfg, rs, now), id) <= Count(rs, id)
  {
    if rs != [] {
      TimedOutCount(cfg, rs[1..], now, id);
      Tail(rs[0], TimedOut(cfg, rs[1..], now));
    }
  }

  predicate NoRoom(cfg: Config, s: Sched, r: Req) { |s.active| >= cfg.maxBatch || Need(cfg, r) > s.kv.free }

  lemma ForceOneWell(s: Sched, r: Req)
    requires Well(s) && r in s.pending
    ensures Well(ForceOne(s, r)) && SameIds(s, ForceOne(s, r))
    ensures forall x :: x in ForceOne(s, r).pending <==> x in s.pending && x.id != r.id
  {
    WellActive(s);
    CountMember(s.pending, r);
    forall id ensures Total(ForceOne(s, r), id) == Total(s, id) <= 1 {
      assert Total(s, id) <= 1;
      CountRemove(s.pending, r.id, id);
      CountAppend(s.active, [r.(status := Prefill)], id);
    }
    forall x ensures x in ForceOne(s, r).pending <==> x in s.pending && x.id != r.id {
      RemoveMembers(s.pending, r.id, x);
    }
  }

  /** Each timed-out request is admitted, or skipped because it does not fit, or met a full batch. */
  lemma {:induction false} ForceAllIs(cfg: Config, s: Sched, rs: seq<Req>)
    requires Well(s) && Unique(rs) && forall r :: r in rs ==> r in s.pending
    ensures var s' := ForceAll(cfg, s, rs);
            && Well(s') && SameIds(s, s') && s'.kv == s.kv && s'.preempted == s.preempted
            && |s.active| <= |s'.active|
            && (|s'.active| <= cfg.maxBatch || |s'.active| <= |s.active|)
            && (forall r :: r in s'.pending ==> r in s.pending && (r in rs ==> NoRoom(cfg, s', r)))
    decreases |rs|
  {
    if rs != [] && |s.active| < cfg.maxBatch {
      UniqueTail(rs);
      if Need(cfg, rs[0]) <= s.kv.free {
        ForceOneWell(s, rs[0]);
        forall r | r in rs[1..] ensures r in ForceOne(s, rs[0]).pending { CountMember(rs[1..], r); }
        ForceAllIs(cfg, ForceOne(s, rs[0]), rs[1..]);
      } else {
        ForceAllIs(cfg, s, rs[1..]);
      }
    }
  }

  lemma ForceIs(cfg: Config, s: Sched, now: real)
    requires Well(s)
    ensures var s' := Force(cfg, s, now);
            && Well(s') && SameIds(s, s') && s'.kv == s.kv && s'.preempted == s.preempted
            && (|s'.active| <= cfg.maxBatch || |s'.active| <= |s.active|)
            && (forall r :: r in s'.pending ==> r in s.pending && (Late(cfg, r, now) ==> NoRoom(cfg, s', r)))
  {
    WellActive(s);
    var late := TimedOut(cfg, s.pending, now);
    forall id ensures Count(late, id) <= 1 { TimedOutCount(cfg, s.pending, now, id); }
    forall r ensures r in late <==> r in s.pending && Late(cfg, r, now) { TimedOutMembers(cfg, s.pending, now, r); }
    ForceAllIs(cfg, s, late);
  }

  // ----- the step -----

  /** schedule_step returns, or never returns, or raises half way through and leaves the given state. */
  datatype StepOutcome = Returns(s: Sched) | Hangs(s: Sched) | Raises(s: Sched)

  /** The state in which admission starts. */
  function BeforeAdmission(s: Sched): Sched { Resume(Reap(s)) }

  lemma BeforeAdmissionWell(s: Sched)
    requires Well(s)
    ensures Well(Reap(s)) && Well(BeforeAdmission(s))
  {
    ReapIs(s);
    ResumeKeepsIds(Reap(s));
    forall id ensures Total(BeforeAdmission(s), id) <= 1 { assert Total(Reap(s), id) <= 1; }
  }

  /** Admission starts with nothing reserved. */
  function AdmissionStart(s: Sched): Admission { Admission(BeforeAdmission(s), 0) }

  ghost function Step(cfg: Config, s: Sched, now: real): StepOutcome
    requires Well(s)
  {
    BeforeAdmissionWell(s);
    if PhaseRaises(cfg, AdmissionStart(s)) then Raises(RaisedState(cfg, AdmissionStart(s)))
    else match AdmitAll(cfg, AdmissionStart(s))
      case Forever(st) => Hangs(st.s)
      case Done(st) => Returns(Force(cfg, st.s, now))
  }

  /** The step as its four phases, with the admission phase given by two numbers. */
  lemma StepShape(cfg: Config, s: Sched, now: real) returns (k: nat, m: nat)
    requires Well(s)
    ensures var s0 := BeforeAdmission(s);
            && Well(s0) && k <= |s0.pending| && m <= |EvictionOrder(s0.active)|
            && Well(Admitted(s0, k, m)) && SameIds(s0, Admitted(s0, k, m))
            && Step(cfg, s, now).s == if Step(cfg, s, now).Returns? then Force(cfg, Admitted(s0, k, m), now) else Admitted(s0, k, m)
  {
    BeforeAdmissionWell(s);
    if PhaseRaises(cfg, AdmissionStart(s)) {
      k, m :| RaisesAt(cfg, AdmissionStart(s), k, m) && RaisedState(cfg, AdmissionStart(s)) == Admitted(BeforeAdmission(s), k, m);
    } else {
      k := AdmitCount(cfg, AdmissionStart(s), 0);
      m := VictimsAt(cfg, AdmissionStart(s), k);
      PhaseInSums(cfg, AdmissionStart(s), k);
    }
    AdmittedIds(BeforeAdmission(s), k, m);
  }

  lemma {:induction false} AdmittedIds(s: Sched, k: nat, m: nat)
    requires Well(s) && k <= |s.pending| && m <= |EvictionOrder(s.active)|
    ensures Well(Admitted(s, k, m)) && SameIds(s, Admitted(s, k, m))
    decreases k
  {
    if k == 0 {
      EvictPrefix(s, m);
      EvictedIsAdmitted(s, m);
    } else {
      AdmitIds(s);
      forall id ensures Total(AdmitHead(s), id) <= 1 { assert Total(s, id) <= 1; }
      HeadThenRest(s, k, m, k - 1);
      AdmittedIds(AdmitHead(s), k - 1, m);
    }
  }

  lemma HeadThenRest(s: Sched, k: nat, m: nat, k1: nat)
    requires Well(s) && 0 < k <= |s.pending| && m <= |EvictionOrder(s.active)| && k1 == k - 1
    ensures k1 <= |AdmitHead(s).pending| && m <= |EvictionOrder(AdmitHead(s).active)|
    ensures Admitted(AdmitHead(s), k1, m) == Admitted(s, k, m)
  {
    HeadIsAdmitted(s);
    AdmittedOrder(s, 1, 0);
    AdmittedTwice(s, 1, 0, k1, m);
  }

  /** A step that returns, with the two numbers as the sums give them: k is the first pending request that is not let
      in, and what the phase admits is covered by the blocks free at its end. */
  lemma StepInSums(cfg: Config, s: Sched, now: real, k: nat)
    requires Well(s) && Step(cfg, s, now).Returns? && StopsBefore(cfg, AdmissionStart(s), k)
    ensures var s0, m := BeforeAdmission(s), VictimsAt(cfg, AdmissionStart(s), k);
            && m <= |EvictionOrder(s0.active)|
            && Step(cfg, s, now) == Returns(Force(cfg, Admitted(s0, k, m), now))
            && TotalNeed(cfg, s0.pending[..k]) <= Admitted(s0, k, m).kv.free
            && (|Admitted(s0, k, m).active| <= cfg.maxBatch || |Admitted(s0, k, m).active| <= |s0.active|)
  {
    BeforeAdmissionWell(s);
    PhaseInSums(cfg, AdmissionStart(s), k);
    var k1, m1 := AdmissionShape(cfg, AdmissionStart(s));
  }

  /** Nobody who timed out is left waiting without a reason, and only swap-ins can overfill the batch. */
  lemma StepServesLate(cfg: Config, s: Sched, now: real)
    requires Well(s) && Step(cfg, s, now).Returns?
    ensures var s' := Step(cfg, s, now).s;
            && (forall r :: r in s'.pending && (now - r.arrival) * 1000.0 > cfg.maxWaitMs as real ==>
                 |s'.active| >= cfg.maxBatch || Need(cfg, r) > s'.kv.free)
            && (|s'.active| <= cfg.maxBatch || |s'.active| <= |BeforeAdmission(s).active|)
  {
    forall r ensures Late(cfg, r, now) <==> (now - r.arrival) * 1000.0 > cfg.maxWaitMs as real { LateIs(cfg, r, now); }
    var k := AdmitCount(cfg, AdmissionStart(s), 0);
    StepInSums(cfg, s, now, k);
    BeforeAdmissionWell(s);
    AdmittedIds(BeforeAdmission(s), k, VictimsAt(cfg, AdmissionStart(s), k));
    ForceIs(cfg, Admitted(BeforeAdmission(s), k, VictimsAt(cfg, AdmissionStart(s), k)), now);
  }

  /** The step never returns if and only if some pending request hangs its admission phase and no victim raises. */
  lemma StepHangsExactly(cfg: Config, s: Sched, now: real)
    requires Well(s)
    ensures Step(cfg, s, now).Hangs? <==> PhaseHangs(cfg, AdmissionStart(s)) && !PhaseRaises(cfg, AdmissionStart(s))
  {
    BeforeAdmissionWell(s);
    HangsExactly(cfg, AdmissionStart(s));
  }

  lemma NothingRaises(cfg: Config, s: Sched, now: real)
    requires Well(s)
    requires var s0 := BeforeAdmission(s); forall r :: r in s0.active && !r.status.Prefill? ==> !s0.kv.Empty(r.id)
    ensures !Step(cfg, s, now).Raises?
  {
    var s0 := BeforeAdmission(s);
    EvictionOrderIs(s0.active);
    forall i | 0 <= i < |EvictionOrder(s0.active)| ensures !s0.kv.Empty(EvictionOrder(s0.active)[i].id) {
      assert EvictionOrder(s0.active)[i] in s0.active;
    }
  }
}
