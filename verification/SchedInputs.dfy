/** Inputs, each the end of a run from an empty scheduler, at which a step hangs, raises, or overfills the batch. */
module SchedInputs {
  import opened Types
  import opened SchedModel
  import opened SchedLists
  import opened SchedAdmission
  import opened SchedClosedForm
  import opened SchedPhases
  import opened SchedAhead
  import opened SchedStep
  import opened SchedForced
  import opened SchedRuns

  lemma ReachesNext(cfg: Config, kv: Ledger, clock: real, es: seq<Event>, s: Sched, h: History, e: Event) returns (es': seq<Event>)
    requires Reaches(cfg, kv, clock, es, s, h) && Possible(cfg, s, h, e)
    ensures es' == es + [e] && Reaches(cfg, kv, clock, es', Next(cfg, s, h, e), Told(s, h, e))
  {
    es' := es + [e];
    RunOn(cfg, Initial(kv), NoHistory(clock), es, e);
  }

  lemma ReachedWell(cfg: Config, kv: Ledger, clock: real, es: seq<Event>, s: Sched, h: History)
    requires Reaches(cfg, kv, clock, es, s, h)
    ensures Inv(s, h) && Well(s)
  {
    Conservation(cfg, kv, clock, es);
  }

  function OnArrival(r: Req, now: real): Req { r.(status := Status.Pending, arrival := now) }

  lemma ArriveNext(cfg: Config, kv: Ledger, t: real, es0: seq<Event>, s0: Sched, h0: History, r: Req)
    returns (es: seq<Event>, s: Sched, h: History)
    requires Reaches(cfg, kv, t, es0, s0, h0) && r.id !in h0.added && h0.clock == t
    ensures es == es0 + [Arrive(r, false, t)] && Reaches(cfg, kv, t, es, s, h)
    ensures s == Add(s0, r, false, t) && h == h0.(added := h0.added + {r.id})
  {
    es := ReachesNext(cfg, kv, t, es0, s0, h0, Arrive(r, false, t));
    s, h := Add(s0, r, false, t), h0.(added := h0.added + {r.id});
    assert Told(s0, h0, Arrive(r, false, t)) == h;
  }

  lemma ScheduleNext(cfg: Config, kv: Ledger, t: real, es0: seq<Event>, s0: Sched, h: History) returns (es: seq<Event>, s: Sched)
    requires Reaches(cfg, kv, t, es0, s0, h) && Well(s0) && h.clock == t && Step(cfg, s0, t).Returns?
    ensures es == es0 + [Schedule(t)] && s == Step(cfg, s0, t).s && Reaches(cfg, kv, t, es, s, h)
  {
    es := ReachesNext(cfg, kv, t, es0, s0, h, Schedule(t));
    s := Step(cfg, s0, t).s;
    assert h.(clock := t) == h;
  }

  lemma WorkNext(cfg: Config, kv: Ledger, t: real, es0: seq<Event>, s0: Sched, h: History, active: seq<Req>, kv': Ledger)
    returns (es: seq<Event>, s: Sched)
    requires Reaches(cfg, kv, t, es0, s0, h) && SameMembers(s0.active, active)
    ensures es == es0 + [Work(active, kv')] && s == s0.(active := active, kv := kv') && Reaches(cfg, kv, t, es, s, h)
  {
    es := ReachesNext(cfg, kv, t, es0, s0, h, Work(active, kv'));
    s := s0.(active := active, kv := kv');
  }

  // ----- a step that hangs -----

  lemma IdleHangs(cfg: Config, s: Sched, a: Req, b: Req, now: real)
    requires Well(s) && s.active == [] && s.preempted == [] && s.pending == [a, b] && cfg.maxBatch >= 2 && cfg.Preempts()
    requires b.priority.High? && Need(cfg, a) <= s.kv.free
    requires s.kv.free - Need(cfg, a) < Need(cfg, b) <= s.kv.free
    ensures Step(cfg, s, now).Hangs?
  {
    NoneReaped(s);
    NothingRaises(cfg, s, now);
    TwoHighHang(cfg, s, a, b);
  }

  /** It happens on a fresh server: two HIGH requests arrive, each fitting the pool, both together not. */
  lemma FreshServerHangs(cfg: Config, kv: Ledger, a: Req, b: Req, t: real, now: real) returns (es: seq<Event>, s: Sched, h: History)
    requires a.id != b.id && a.priority.High? && b.priority.High? && cfg.maxBatch >= 2 && cfg.Preempts()
    requires Need(cfg, a) <= kv.free && Need(cfg, b) <= kv.free < Need(cfg, a) + Need(cfg, b)
    ensures es == [Arrive(b, false, t), Arrive(a, false, t)] && Reaches(cfg, kv, t, es, s, h)
    ensures Well(s) && s.kv == kv && Step(cfg, s, now).Hangs?
  {
    es, s, h := TwoArrive(cfg, kv, t, [], Initial(kv), NoHistory(t), a, b);
    ReachedWell(cfg, kv, t, es, s, h);
    IdleHangs(cfg, s, OnArrival(a, t), OnArrival(b, t), now);
  }

  /** Two HIGH requests arrive: the later one is in front. */
  lemma TwoArrive(cfg: Config, kv: Ledger, t: real, es0: seq<Event>, s0: Sched, h0: History, a: Req, b: Req)
    returns (es: seq<Event>, s: Sched, h: History)
    requires Reaches(cfg, kv, t, es0, s0, h0) && a.priority.High? && b.priority.High? && s0.pending == []
    requires a.id != b.id && a.id !in h0.added && b.id !in h0.added && h0.clock == t
    ensures es == es0 + [Arrive(b, false, t), Arrive(a, false, t)] && Reaches(cfg, kv, t, es, s, h)
    ensures s == s0.(pending := [OnArrival(a, t), OnArrival(b, t)]) && h.clock == t
  {
    es, s, h := ArriveNext(cfg, kv, t, es0, s0, h0, b);
    assert s0.pending + [OnArrival(b, t)] == [OnArrival(b, t)];
    es, s, h := ArriveNext(cfg, kv, t, es, s, h, a);
  }

  // ----- a step that raises -----

  /** One request arrives at an idle server and is admitted. */
  lemma AdmitsFirst(cfg: Config, s: Sched, v: Req, now: real)
    requires Well(s) && s.active == [] && s.preempted == [] && s.pending == [v] && cfg.maxBatch >= 1 && Need(cfg, v) <= s.kv.free
    ensures Step(cfg, s, now) == Returns(AdmitHead(s))
  {
    NoneReaped(s);
    NothingRaises(cfg, s, now);
    var st, st1 := Admission(s, 0), Admission(AdmitHead(s), Need(cfg, v));
    IterationProgress(cfg, st);
    assert Iterate(cfg, st) == Again(st1) && st1.s.pending == [];
    IterationProgress(cfg, st1);
    assert AdmitAll(cfg, st1) == Done(st1) && AdmitAll(cfg, st) == AdmitAll(cfg, st1);
    assert BeforeAdmission(s) == s && Force(cfg, st1.s, now) == st1.s;
  }

  /** One request arrives and is admitted; then it is prefilled, and cache clients leave the block counts kv'. */
  lemma OneRunning(cfg: Config, kv: Ledger, v: Req, t: real, tokens: seq<Token>, kv': Ledger)
    returns (es: seq<Event>, s: Sched, h: History, v': Req)
    requires cfg.maxBatch >= 1 && Need(cfg, v) <= kv.free
    ensures v' == v.(status := Generating, arrival := t, generated := tokens)
    ensures es == [Arrive(v, false, t), Schedule(t), Work([v'], kv')] && Reaches(cfg, kv, t, es, s, h)
    ensures s == Initial(kv').(active := [v'], totalScheduled := 1) && h == NoHistory(t).(added := {v.id})
  {
    v' := v.(status := Generating, arrival := t, generated := tokens);
    es, s, h := ArriveNext(cfg, kv, t, [], Initial(kv), NoHistory(t), v);
    assert s.pending == [OnArrival(v, t)];
    ReachedWell(cfg, kv, t, es, s, h);
    AdmitsFirst(cfg, s, OnArrival(v, t), t);
    es, s := ScheduleNext(cfg, kv, t, es, s, h);
    assert s.active == [OnArrival(v, t).(status := Prefill)] && s.pending == [];
    es, s := WorkNext(cfg, kv, t, es, s, h, [v'], kv');
  }

  lemma OneVictim(v: Req)
    requires !v.status.Prefill?
    ensures EvictionOrder([v]) == [v]
  {
    assert [v][1..] == [] && Sorted([v]) == [v] && Movable([v]) == [v];
  }

  /** A victim with an empty table: the step raises with nothing changed, so the next one raises as well. */
  lemma EmptyTableRaises(cfg: Config, s: Sched, v: Req, a: Req, now: real)
    requires Well(s) && s.active == [v] && v.status.Generating? && s.kv.Empty(v.id) && s.preempted == []
    requires s.pending == [a] && a.priority.High? && cfg.Preempts() && cfg.maxBatch >= 2 && Need(cfg, a) > s.kv.free
    ensures Step(cfg, s, now) == Raises(s)
  {
    var st := Admission(s, 0);
    NoneReaped(s);
    OneVictim(v);
    NothingDone(cfg, st);
    ReservedNone(cfg, st);
    SizeNow(cfg, st);
    assert [v][..0] == [];
    assert RaisesAt(cfg, st, 0, 0);
    RaisedStateIs(cfg, st, 0, 0);
  }

  /** It happens when a client allocates for no tokens: v runs with an empty table when a HIGH request arrives that
      does not fit. No later step gets any further. */
  lemma EmptyAllocationRaises(cfg: Config, kv: Ledger, v: Req, a: Req, t: real, tokens: seq<Token>, now: real)
    returns (es: seq<Event>, s: Sched, h: History)
    requires v.id != a.id && a.priority.High? && cfg.Preempts() && cfg.maxBatch >= 2 && kv.tables == map[]
    requires Need(cfg, v) <= kv.free < Need(cfg, a)
    ensures |es| == 4 && es[2] == Work(s.active, kv.(tables := map[v.id := 0])) && Reaches(cfg, kv, t, es, s, h)
    ensures Well(s) && Step(cfg, s, now) == Raises(s)
  {
    var v';
    es, s, h, v' := OneRunning(cfg, kv, v, t, tokens, kv.(tables := map[v.id := 0]));
    es, s, h := ArriveNext(cfg, kv, t, es, s, h, a);
    assert s.pending == [OnArrival(a, t)];
    ReachedWell(cfg, kv, t, es, s, h);
    EmptyTableRaises(cfg, s, v', OnArrival(a, t), now);
  }

  // ----- a step that overfills the batch -----

  /** The only running request makes way for two. */
  lemma BothGetIn(cfg: Config, s: Sched, g: Req, a: Req, b: Req, now: real)
    requires Well(s) && s.active == [g] && g.status.Generating? && s.preempted == [] && s.pending == [a, b]
    requires a.priority.High? && b.priority.High? && cfg.Preempts() && cfg.maxBatch == 2 && Need(cfg, a) > 0
    requires s.kv == Ledger(0, map[g.id := Need(cfg, a) + Need(cfg, b)], map[]) && EvictionOrder([g]) == [g]
    ensures Step(cfg, s, now) == Returns(Admitted(s, 2, 1))
  {
    var st := Admission(s, 0);
    NoneReaped(s);
    NothingRaises(cfg, s, now);
    BothSums(cfg, st, g, a, b);
    PhaseInSums(cfg, st, 2);
    assert Admitted(s, 2, 1).pending == [];
  }

  lemma BothSums(cfg: Config, st: Admission, g: Req, a: Req, b: Req)
    requires st.s.active == [g] && EvictionOrder([g]) == [g] && st.s.pending == [a, b] && st.reserved == 0
    requires a.priority.High? && b.priority.High? && cfg.Preempts() && cfg.maxBatch == 2 && Need(cfg, a) > 0
    requires st.s.kv == Ledger(0, map[g.id := Need(cfg, a) + Need(cfg, b)], map[])
    ensures StopsBefore(cfg, st, 2) && VictimsAt(cfg, st, 2) == 1
  {
    var s := st.s;
    assert [g][1..] == [];
    assert Freeable(s.kv, [g]) == s.kv.BlocksOf(g.id) + Freeable(s.kv, []);
    assert Pool(s) == Need(cfg, a) + Need(cfg, b);
    ReservedNone(cfg, st);
    assert [a, b][..2] == [a, b] && [a, b][1..] == [b] && [b][1..] == [];
    assert TotalNeed(cfg, [b]) == Need(cfg, b);
    assert ReservedFor(cfg, st, 2) == Need(cfg, a) + Need(cfg, b);
    assert FewestFor(cfg, st, 1) == 1 && FewestFor(cfg, st, 2) == 1 && FewestFor(cfg, st, 0) == 0;
    assert Admissible(cfg, st, 0) && Admissible(cfg, st, 1);
  }

  /** Whoever is in swap space and fits comes back, however full the batch is. */
  lemma SwapInOverfills(cfg: Config, s: Sched, g: Req, now: real)
    requires Well(s) && |s.active| >= cfg.maxBatch && (forall r :: r in s.active ==> !r.Finished())
    requires s.preempted == [g] && s.kv.Fits(g.id)
    ensures Step(cfg, s, now).Returns? && |Step(cfg, s, now).s.active| == |s.active| + 1
  {
    NoneReaped(s);
    assert CanResume(s) && ResumeOne(s).preempted == [];
    assert Resume(ResumeOne(s)) == ResumeOne(s);
    var s0 := ResumeOne(s);
    assert BeforeAdmission(s) == s0;
    BeforeAdmissionWell(s);
    FullNeverRaises(cfg, Admission(s0, 0));
    AdmissionLeavesFull(cfg, Admission(s0, 0));
    ForceAllCloses(cfg, s0, TimedOut(cfg, s0.pending, now));
    LetInNone(s0);
  }

  lemma FullNeverRaises(cfg: Config, st: Admission)
    requires |st.s.active| >= cfg.maxBatch && st.reserved <= st.s.kv.free
    ensures !PhaseRaises(cfg, st)
  {
    SizeNow(cfg, st);
    forall k: nat, m: nat ensures !RaisesAt(cfg, st, k, m) {
      assert k > 0 && ComesTo(cfg, st, k) ==> Admissible(cfg, st, 0);
    }
  }

  lemma BothAfter(cfg: Config, s: Sched, g: Req, a: Req, b: Req)
    requires s.active == [g] && g.status.Generating? && s.preempted == [] && s.pending == [a, b]
    requires a.id != g.id && b.id != g.id && EvictionOrder([g]) == [g] && Need(cfg, a) + Need(cfg, b) > 0
    requires s.kv == Ledger(0, map[g.id := Need(cfg, a) + Need(cfg, b)], map[])
    ensures var s' := Admitted(s, 2, 1);
            && s'.active == Prefilled([a, b]) && s'.preempted == Parked([g]) && s'.kv.Fits(g.id)
  {
    assert [g][..1] == [g] && [g][1..] == [] && [a, b][..2] == [a, b];
    assert RemoveAll([g], [g]) == RemoveAll(RemoveId([g], g.id), []);
    assert SwapOutAll(s.kv, [g]) == SwapOutAll(s.kv.SwappedOut(g.id), []);
  }

  /** The step in which g makes way. */
  lemma MakesWay(cfg: Config, kv: Ledger, t: real, es0: seq<Event>, s0: Sched, h: History, g: Req, a: Req, b: Req)
    returns (es: seq<Event>, s: Sched)
    requires Reaches(cfg, kv, t, es0, s0, h) && s0.active == [g] && s0.pending == [a, b] && s0.preempted == []
    requires g.status.Generating? && a.id != g.id && b.id != g.id && h.clock == t
    requires a.priority.High? && b.priority.High? && cfg.Preempts() && cfg.maxBatch == 2 && Need(cfg, a) > 0
    requires s0.kv == Ledger(0, map[g.id := Need(cfg, a) + Need(cfg, b)], map[])
    ensures es == es0 + [Schedule(t)] && Reaches(cfg, kv, t, es, s, h)
    ensures s.active == Prefilled([a, b]) && s.preempted == Parked([g]) && s.kv.Fits(g.id)
  {
    ReachedWell(cfg, kv, t, es0, s0, h);
    OneVictim(g);
    BothGetIn(cfg, s0, g, a, b, t);
    BothAfter(cfg, s0, g, a, b);
    es, s := ScheduleNext(cfg, kv, t, es0, s0, h);
  }

  /** It happens with a maximum of two: g, which owns all blocks, makes way for two HIGH requests whose estimates they
      cover; since nobody has allocated for these yet, the next step swaps g back in, and three run. */
  lemma BatchOverfills(cfg: Config, kv: Ledger, g: Req, a: Req, b: Req, t: real, tokens: seq<Token>, now: real)
    returns (es: seq<Event>, s: Sched, h: History, g': Req)
    requires a.id != b.id && a.id != g.id && b.id != g.id && a.priority.High? && b.priority.High?
    requires cfg.Preempts() && cfg.maxBatch == 2
    requires kv == Ledger(Need(cfg, a) + Need(cfg, b), map[], map[]) && Need(cfg, a) > 0 && Need(cfg, g) <= kv.free
    ensures es == [Arrive(g, false, t), Schedule(t), Work([g'], Ledger(0, map[g.id := kv.free], map[]))]
                  + [Arrive(b, false, t), Arrive(a, false, t)] + [Schedule(t)]
    ensures Reaches(cfg, kv, t, es, s, h) && Well(s)
    ensures |s.active| == 2 && Step(cfg, s, now).Returns? && |Step(cfg, s, now).s.active| == 3
  {
    es, s, h, g' := OneRunning(cfg, kv, g, t, tokens, Ledger(0, map[g.id := kv.free], map[]));
    es, s, h := TwoArrive(cfg, kv, t, es, s, h, a, b);
    assert Need(cfg, OnArrival(a, t)) == Need(cfg, a) && Need(cfg, OnArrival(b, t)) == Need(cfg, b);
    es, s := MakesWay(cfg, kv, t, es, s, h, g', OnArrival(a, t), OnArrival(b, t));
    ReachedWell(cfg, kv, t, es, s, h);
    SwapInOverfills(cfg, s, Parked([g'])[0], now);
  }

  // ----- admissions beyond the free blocks -----

  /** Two NORMAL requests arrive: the later one is behind. */
  lemma TwoQueue(cfg: Config, kv: Ledger, t: real, a: Req, b: Req) returns (es: seq<Event>, s: Sched, h: History)
    requires a.id != b.id && a.priority.Normal? && b.priority.Normal?
    ensures es == [Arrive(a, false, t), Arrive(b, false, t)] && Reaches(cfg, kv, t, es, s, h)
    ensures s == Initial(kv).(pending := [OnArrival(a, t), OnArrival(b, t)])
  {
    es, s, h := ArriveNext(cfg, kv, t, [], Initial(kv), NoHistory(t), a);
    assert [] + [OnArrival(a, t)] == [OnArrival(a, t)];
    es, s, h := ArriveNext(cfg, kv, t, es, s, h, b);
  }

  /** Two NORMAL requests, each fitting the pool and both together not, arrive and wait too long: one step lets both in. */
  lemma LateOverdraws(cfg: Config, kv: Ledger, a: Req, b: Req, t: real, now: real)
    returns (es: seq<Event>, s: Sched, h: History)
    requires a.id != b.id && a.priority.Normal? && b.priority.Normal? && cfg.maxBatch >= 2 && now - t > cfg.MaxWait()
    requires Need(cfg, a) <= kv.free && Need(cfg, b) <= kv.free < Need(cfg, a) + Need(cfg, b)
    ensures es == [Arrive(a, false, t), Arrive(b, false, t)] && Reaches(cfg, kv, t, es, s, h) && Well(s)
    ensures Step(cfg, s, now).Returns? && |Step(cfg, s, now).s.active| == 2
    ensures TotalNeed(cfg, Step(cfg, s, now).s.active) > Step(cfg, s, now).s.kv.free == kv.free
  {
    es, s, h := TwoQueue(cfg, kv, t, a, b);
    ReachedWell(cfg, kv, t, es, s, h);
    var a', b' := OnArrival(a, t), OnArrival(b, t);
    assert Need(cfg, a') == Need(cfg, a) && Need(cfg, b') == Need(cfg, b) && Late(cfg, b', now);
    ForcedOverdraws(cfg, s, a', b', now);
    BothLetIn(s, a', b');
  }

  lemma BothLetIn(s: Sched, a: Req, b: Req)
    requires s.pending == [a, b]
    ensures LetIn(AdmitHead(s), [b]).kv == s.kv && |Prefilled([a, b])| == 2
  {
  }

  // ----- a maximum of one -----

  lemma SingleStep(cfg: Config, s: Sched, now: real)
    requires Well(s) && cfg.maxBatch <= 1 && s.preempted == []
    ensures Step(cfg, s, now).s.preempted == []
  {
    ReapIs(s);
    BeforeAdmissionWell(s);
    var s0 := BeforeAdmission(s);
    assert s0 == Reap(s) && s0.preempted == [];
    if |s0.active| >= cfg.maxBatch {
      FullNeverRaises(cfg, Admission(s0, 0));
      AdmissionLeavesFull(cfg, Admission(s0, 0));
      ForceIs(cfg, s0, now);
    } else {
      assert s0.active == [] && EvictionOrder(s0.active) == [];
      var k, m := StepShape(cfg, s, now);
      ForceIs(cfg, Admitted(s0, k, m), now);
    }
  }

  lemma SingleEvent(cfg: Config, s: Sched, h: History, e: Event)
    requires Inv(s, h) && Possible(cfg, s, h, e) && cfg.maxBatch <= 1 && s.preempted == []
    ensures Next(cfg, s, h, e).preempted == []
  {
    LocatedWell(s, h);
    if e.Schedule? { SingleStep(cfg, s, e.now); }
  }

  /** With a maximum of one nobody is ever preempted, so a swap-in never overfills the batch. */
  lemma {:induction false} SingleNeverPreempts(cfg: Config, s: Sched, h: History, es: seq<Event>)
    requires Inv(s, h) && Run(cfg, s, h, es) && cfg.maxBatch <= 1 && s.preempted == []
    ensures End(cfg, s, h, es).0.preempted == []
    decreases |es|
  {
    if es != [] {
      SingleEvent(cfg, s, h, es[0]);
      EventInv(cfg, s, h, es[0]);
      SingleNeverPreempts(cfg, Next(cfg, s, h, es[0]), Told(s, h, es[0]), es[1..]);
    }
  }
}
