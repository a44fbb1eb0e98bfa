/** The fourth phase in closed form, and the two bounds a step does not keep: exactly when the batch exceeds its
    maximum, and exactly when the requests let in exceed the free blocks. */
module SchedForced {
  import opened Types
  import opened Arithmetic
  import opened SchedModel
  import opened SchedLists
  import opened SchedAdmission
  import opened SchedClosedForm
  import opened SchedPhases
  import opened SchedAhead
  import opened SchedStep

  // ----- the closed form -----

  /** Those that would fit the free blocks one at a time. */
  function Fitting(cfg: Config, free: nat, rs: seq<Req>): seq<Req> {
    if rs == [] then []
    else if Need(cfg, rs[0]) <= free then [rs[0]] + Fitting(cfg, free, rs[1..])
    else Fitting(cfg, free, rs[1..])
  }

  /** How many more a batch of this size may take. */
  function Room(cfg: Config, size: int): nat { if size >= cfg.maxBatch then 0 else cfg.maxBatch - size }

  function FirstOf<T>(s: seq<T>, n: nat): seq<T> { if n <= |s| then s[..n] else s }

  /** Of the given requests, the first that fit, as many as the batch has room for. */
  function Forced(cfg: Config, s: Sched, rs: seq<Req>): seq<Req> {
    FirstOf(Fitting(cfg, s.kv.free, rs), Room(cfg, |s.active|))
  }

  function LetIn(s: Sched, fs: seq<Req>): Sched {
    s.(pending := RemoveAll(s.pending, fs), active := s.active + Prefilled(fs), totalScheduled := s.totalScheduled + |fs|)
  }

  lemma LetInNone(s: Sched)
    ensures LetIn(s, []) == s
  {
    assert Prefilled([]) == [] && s.active + [] == s.active;
  }

  lemma LetInCons(s: Sched, r: Req, fs: seq<Req>)
    ensures LetIn(ForceOne(s, r), fs) == LetIn(s, [r] + fs)
  {
    Tail(r, fs);
    assert Prefilled([r] + fs) == [r.(status := Prefill)] + Prefilled(fs);
    Assoc(s.active, [r.(status := Prefill)], Prefilled(fs));
  }

  lemma FirstCons<T>(x: T, s: seq<T>, n: nat)
    requires n > 0
    ensures FirstOf([x] + s, n) == [x] + FirstOf(s, n - 1)
  {
  }

  /** The forced admissions take exactly the first late requests that fit, up to the batch's room. */
  lemma {:induction false} ForceAllCloses(cfg: Config, s: Sched, rs: seq<Req>)
    ensures ForceAll(cfg, s, rs) == LetIn(s, Forced(cfg, s, rs))
    decreases |rs|
  {
    if rs == [] || |s.active| >= cfg.maxBatch {
      LetInNone(s);
    } else if Need(cfg, rs[0]) <= s.kv.free {
      var s1 := ForceOne(s, rs[0]);
      ForceAllCloses(cfg, s1, rs[1..]);
      FirstCons(rs[0], Fitting(cfg, s.kv.free, rs[1..]), Room(cfg, |s.active|));
      LetInCons(s, rs[0], Forced(cfg, s1, rs[1..]));
    } else {
      ForceAllCloses(cfg, s, rs[1..]);
    }
  }

  function ForcedNow(cfg: Config, s: Sched, now: real): seq<Req> { Forced(cfg, s, TimedOut(cfg, s.pending, now)) }

  /** a can be read off b from left to right. */
  predicate Within(a: seq<Req>, b: seq<Req>) {
    if a == [] then true
    else if b == [] then false
    else (a[0] == b[0] && Within(a[1..], b[1..])) || Within(a, b[1..])
  }

  lemma {:induction false} LateWithin(cfg: Config, free: nat, rs: seq<Req>, now: real)
    ensures Within(Fitting(cfg, free, TimedOut(cfg, rs, now)), rs)
  {
    if rs != [] {
      LateWithin(cfg, free, rs[1..], now);
      Tail(rs[0], TimedOut(cfg, rs[1..], now));
      Tail(rs[0], Fitting(cfg, free, TimedOut(cfg, rs[1..], now)));
    }
  }

  lemma {:induction false} PrefixWithin(a: seq<Req>, b: seq<Req>, n: nat)
    requires Within(a, b) && n <= |a|
    ensures Within(a[..n], b)
    decreases |b|
  {
    if n > 0 {
      assert a[..n][0] == a[0] && a[..n][1..] == a[1..][..n - 1];
      if a[0] == b[0] && Within(a[1..], b[1..]) {
        PrefixWithin(a[1..], b[1..], n - 1);
      } else {
        PrefixWithin(a, b[1..], n);
      }
    }
  }

  lemma {:induction false} FittingMembers(cfg: Config, free: nat, rs: seq<Req>, r: Req)
    ensures r in Fitting(cfg, free, rs) <==> r in rs && Need(cfg, r) <= free
  {
    if rs != [] { FittingMembers(cfg, free, rs[1..], r); }
  }

  /** Those forced in were pending and late, fit on their own, come in queue order and leave the batch within its
      maximum; with room to spare they are all the late ones that fit. */
  lemma ForcedAre(cfg: Config, s: Sched, now: real)
    ensures var fs := ForcedNow(cfg, s, now);
            && Force(cfg, s, now) == LetIn(s, fs) && Within(fs, s.pending) && |fs| <= Room(cfg, |s.active|)
            && (forall r :: r in fs ==>
                 r in s.pending && (now - r.arrival) * 1000.0 > cfg.maxWaitMs as real && Need(cfg, r) <= s.kv.free)
            && (|fs| < Room(cfg, |s.active|) ==>
                 forall r :: r in s.pending && (now - r.arrival) * 1000.0 > cfg.maxWaitMs as real && Need(cfg, r) <= s.kv.free
                   ==> r in fs)
  {
    forall r ensures Late(cfg, r, now) <==> (now - r.arrival) * 1000.0 > cfg.maxWaitMs as real { LateIs(cfg, r, now); }
    var late := TimedOut(cfg, s.pending, now);
    var fit := Fitting(cfg, s.kv.free, late);
    ForceAllCloses(cfg, s, late);
    LateWithin(cfg, s.kv.free, s.pending, now);
    PrefixWithin(fit, s.pending, if Room(cfg, |s.active|) <= |fit| then Room(cfg, |s.active|) else |fit|);
    assert fit[..|fit|] == fit;
    forall r ensures r in fit <==> r in s.pending && Late(cfg, r, now) && Need(cfg, r) <= s.kv.free {
      FittingMembers(cfg, s.kv.free, late, r);
      TimedOutMembers(cfg, s.pending, now, r);
    }
  }

  /** e is a request of s that was pending for longer than the configured milliseconds and fits on its own, prefilled. */
  ghost predicate LetInLate(cfg: Config, s: Sched, now: real, e: Req) {
    exists r :: r in s.pending && e == r.(status := Prefill)
                && (now - r.arrival) * 1000.0 > cfg.maxWaitMs as real && Need(cfg, r) <= s.kv.free
  }

  /** Phase 4 adds only such requests to the batch. */
  lemma EntrantsLate(cfg: Config, s: Sched, now: real)
    ensures forall i :: |s.active| <= i < |Force(cfg, s, now).active| ==> LetInLate(cfg, s, now, Force(cfg, s, now).active[i])
  {
    ForcedAre(cfg, s, now);
    var fs := ForcedNow(cfg, s, now);
    forall i | |s.active| <= i < |Force(cfg, s, now).active| ensures LetInLate(cfg, s, now, Force(cfg, s, now).active[i]) {
      assert fs[i - |s.active|] in fs;
      assert Force(cfg, s, now).active[i] == fs[i - |s.active|].(status := Prefill);
    }
  }

  // ----- the batch size -----

  lemma AdmissionLeavesFull(cfg: Config, st: Admission)
    requires Well(st.s) && |st.s.active| >= cfg.maxBatch
    ensures AdmitAll(cfg, st) == Done(st)
  {
  }

  /** A step ends with more than the maximum in the batch if and only if reaping and swapping in left more. */
  lemma OverfullExactly(cfg: Config, s: Sched, now: real)
    requires Well(s) && Step(cfg, s, now).Returns?
    ensures |Step(cfg, s, now).s.active| > cfg.maxBatch <==> |BeforeAdmission(s).active| > cfg.maxBatch
  {
    var s0 := BeforeAdmission(s);
    BeforeAdmissionWell(s);
    if |s0.active| > cfg.maxBatch {
      AdmissionLeavesFull(cfg, Admission(s0, 0));
    } else {
      var k := AdmitCount(cfg, AdmissionStart(s), 0);
      StepInSums(cfg, s, now, k);
      AdmittedIds(s0, k, VictimsAt(cfg, AdmissionStart(s), k));
      ForceIs(cfg, Admitted(s0, k, VictimsAt(cfg, AdmissionStart(s), k)), now);
    }
  }

  lemma NoneReaped(s: Sched)
    requires forall r :: r in s.active ==> !r.Finished()
    ensures Reap(s) == s
  {
    NoneFinishedIn(s.active);
  }

  lemma {:induction false} NoneFinishedIn(rs: seq<Req>)
    requires forall r :: r in rs ==> !r.Finished()
    ensures Finished(rs) == []
  {
    if rs != [] {
      assert rs[0] in rs && forall r :: r in rs[1..] ==> r in rs;
      NoneFinishedIn(rs[1..]);
    }
  }

  // ----- the blocks of those let in -----

  lemma AdmittedSums(s: Sched, k: nat, m: nat)
    requires Well(s) && k <= |s.pending| && m <= |EvictionOrder(s.active)|
    ensures Admitted(s, k, m).kv.free == FreeAfter(s, m) && |Admitted(s, k, m).active| == |s.active| - m + k
  {
    EvictPrefix(s, m);
    EvictAllIs(s, EvictionOrder(s.active)[..m]);
  }

  /** Who is forced in after k were admitted and m preempted, read off the state before admission. */
  function ForcedAfter(cfg: Config, s0: Sched, k: nat, m: nat, now: real): seq<Req>
    requires k <= |s0.pending| && m <= |EvictionOrder(s0.active)|
  {
    FirstOf(Fitting(cfg, FreeAfter(s0, m), TimedOut(cfg, s0.pending[k..], now)), Room(cfg, |s0.active| - m + k))
  }

  /** The whole step, all read off the state before admission: the first k pending requests admitted, the first m of
      the eviction order preempted, fs forced in. What it lets in exceeds the blocks then free if and only if those
      forced in exceed what phase 3 left unreserved. */
  lemma OverdrawsExactly(cfg: Config, s: Sched, now: real, k: nat)
    requires Well(s) && Step(cfg, s, now).Returns? && StopsBefore(cfg, AdmissionStart(s), k)
    ensures var s0, m := BeforeAdmission(s), VictimsAt(cfg, AdmissionStart(s), k);
            && m <= |EvictionOrder(s0.active)|
            && var fs := ForcedAfter(cfg, s0, k, m, now);
               && Step(cfg, s, now) == Returns(LetIn(Admitted(s0, k, m), fs))
               && TotalNeed(cfg, s0.pending[..k]) <= FreeAfter(s0, m) == Step(cfg, s, now).s.kv.free
               && (TotalNeed(cfg, s0.pending[..k] + fs) > Step(cfg, s, now).s.kv.free
                   <==> TotalNeed(cfg, fs) > FreeAfter(s0, m) - TotalNeed(cfg, s0.pending[..k]))
  {
    var s0, m := BeforeAdmission(s), VictimsAt(cfg, AdmissionStart(s), k);
    BeforeAdmissionWell(s);
    StepInSums(cfg, s, now, k);
    AdmittedSums(s0, k, m);
    var end := Admitted(s0, k, m);
    ForceAllCloses(cfg, end, TimedOut(cfg, end.pending, now));
    TotalNeedAppend(cfg, s0.pending[..k], ForcedAfter(cfg, s0, k, m, now));
  }

  /** Two pending requests that fit one at a time but not together, the second late: both are let in. */
  lemma ForcedOverdraws(cfg: Config, s: Sched, a: Req, b: Req, now: real)
    requires Well(s) && s.active == [] && s.preempted == [] && s.pending == [a, b] && cfg.maxBatch >= 2
    requires b.priority.Normal? && Late(cfg, b, now)
    requires Need(cfg, a) <= s.kv.free && Need(cfg, b) <= s.kv.free < Need(cfg, a) + Need(cfg, b)
    ensures Step(cfg, s, now) == Returns(LetIn(AdmitHead(s), [b]))
    ensures var s' := Step(cfg, s, now).s;
            s'.active == Prefilled([a, b]) && TotalNeed(cfg, s'.active) > s'.kv.free
  {
    NoneReaped(s);
    NothingRaises(cfg, s, now);
    var st, st1 := Admission(s, 0), Admission(AdmitHead(s), Need(cfg, a));
    IterationProgress(cfg, st);
    IterationProgress(cfg, st1);
    assert Iterate(cfg, st) == Again(st1) && st1.s.pending == [b];
    assert Iterate(cfg, st1) == Exit(st1);
    assert AdmitAll(cfg, st1) == Done(st1) && AdmitAll(cfg, st) == AdmitAll(cfg, st1);
    assert BeforeAdmission(s) == s && Step(cfg, s, now) == Returns(Force(cfg, AdmitHead(s), now));
    assert TimedOut(cfg, [b], now) == [b] by { assert [b][1..] == []; }
    assert Fitting(cfg, s.kv.free, [b]) == [b] by { assert [b][1..] == []; }
    ForceAllCloses(cfg, st1.s, [b]);
    BothIn(cfg, s, a, b);
  }

  lemma BothIn(cfg: Config, s: Sched, a: Req, b: Req)
    requires s.active == [] && s.pending == [a, b]
    ensures var s' := LetIn(AdmitHead(s), [b]);
            s'.active == Prefilled([a, b]) && TotalNeed(cfg, s'.active) == Need(cfg, a) + Need(cfg, b)
  {
    var s', a', b' := LetIn(AdmitHead(s), [b]), a.(status := Prefill), b.(status := Prefill);
    assert s'.active == [a', b'];
    assert Need(cfg, a') == Need(cfg, a) && Need(cfg, b') == Need(cfg, b);
    assert [a', b'][1..] == [b'] && [b'][1..] == [];
    assert TotalNeed(cfg, [b']) == Need(cfg, b');
  }
}
