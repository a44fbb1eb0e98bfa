/** With NORMAL requests whose estimates fit the pool, a scheduling step always returns, and lets in the head of the
    queue in order of arrival. */
module SchedFifo {
  import opened Types
  import opened SchedModel
  import opened SchedLists
  import opened SchedAdmission
  import opened SchedClosedForm
  import opened SchedPhases
  import opened SchedAhead
  import opened SchedStep
  import opened SchedForced
  import opened SchedPolicy
  import opened SchedRuns

  /** Nobody waits who may preempt or who does not fit, and nobody has been preempted. */
  predicate Plain(cfg: Config, s: Sched) {
    && cfg.maxBatch >= 1 && s.preempted == []
    && forall r :: r in s.pending ==> r.priority.Normal? && Need(cfg, r) <= s.kv.free
  }

  // ----- phases 1 and 2 -----

  lemma {:induction false} FreeAllGrows(kv: Ledger, rs: seq<Req>)
    ensures FreeAll(kv, rs).free >= kv.free
    decreases |rs|
  {
    if rs != [] { FreeAllGrows(kv.Freed(rs[0].id), rs[1..]); }
  }

  lemma BeforePlain(cfg: Config, s: Sched)
    requires Well(s) && Plain(cfg, s)
    ensures var s0 := BeforeAdmission(s);
            && Plain(cfg, s0) && Well(s0) && s0.pending == s.pending && s0.active == Unfinished(s.active)
            && s0.kv.free >= s.kv.free
  {
    ReapIs(s);
    BeforeAdmissionWell(s);
    FreeAllGrows(s.kv, Finished(s.active));
    assert BeforeAdmission(s) == Reap(s);
  }

  // ----- phase 3 -----

  /** The phase admits some of the head of the queue, at least one if there is room, and preempts nobody. */
  lemma PhasePlain(cfg: Config, s: Sched) returns (k: nat)
    requires Well(s) && Plain(cfg, s)
    ensures k <= |s.pending| && AdmitAll(cfg, Admission(s, 0)) == Done(Admission(Admitted(s, k, 0), TotalNeed(cfg, s.pending[..k])))
    ensures !PhaseRaises(cfg, Admission(s, 0))
    ensures k > 0 || s.pending == [] || |s.active| >= cfg.maxBatch
  {
    k := PhaseNeverPreempts(cfg, s);
    if s.pending != [] && |s.active| < cfg.maxBatch { HeadAdmissible(cfg, Admission(s, 0)); }
  }

  // ----- phase 4 -----

  /** The timed-out ones are those in front. */
  lemma {:induction false} LatePrefix(cfg: Config, rs: seq<Req>, now: real) returns (j: nat)
    requires QueueSorted(rs) && forall r :: r in rs ==> r.priority.Normal?
    ensures j <= |rs| && TimedOut(cfg, rs, now) == rs[..j]
  {
    j := 0;
    if rs != [] {
      var t := rs[1..];
      assert forall i :: 0 <= i < |t| ==> t[i] == rs[i + 1];
      j := LatePrefix(cfg, t, now);
      if Late(cfg, rs[0], now) {
        j := j + 1;
        TakeCons(rs, j);
      } else {
        forall i | 0 <= i < |t| ensures !Late(cfg, t[i], now) {
          assert rs[0] in rs && QueueLe(rs[0], rs[i + 1]);
        }
        NoneLate(cfg, t, now);
        j := 0;
      }
    }
  }

  lemma {:induction false} NoneLate(cfg: Config, rs: seq<Req>, now: real)
    requires forall i :: 0 <= i < |rs| ==> !Late(cfg, rs[i], now)
    ensures TimedOut(cfg, rs, now) == []
  {
    if rs != [] {
      assert forall i :: 0 <= i < |rs[1..]| ==> rs[1..][i] == rs[i + 1];
      NoneLate(cfg, rs[1..], now);
    }
  }

  lemma {:induction false} AllFitting(cfg: Config, free: nat, rs: seq<Req>)
    requires forall i :: 0 <= i < |rs| ==> Need(cfg, rs[i]) <= free
    ensures Fitting(cfg, free, rs) == rs
  {
    if rs != [] {
      assert forall i :: 0 <= i < |rs[1..]| ==> rs[1..][i] == rs[i + 1];
      AllFitting(cfg, free, rs[1..]);
    }
  }

  lemma {:induction false} RemovePrefix(rs: seq<Req>, j: nat)
    requires j <= |rs|
    ensures RemoveAll(rs, rs[..j]) == rs[j..]
    decreases j
  {
    if j > 0 {
      TakeCons(rs, j);
      RemovePrefix(rs[1..], j - 1);
      Tail(rs[0], rs[1..][..j - 1]);
    }
  }

  lemma ForcePlain(cfg: Config, s: Sched, now: real) returns (j: nat)
    requires QueueSorted(s.pending) && Plain(cfg, s)
    ensures j <= |s.pending|
    ensures Force(cfg, s, now) == s.(pending := s.pending[j..], active := s.active + Prefilled(s.pending[..j]),
                                     totalScheduled := s.totalScheduled + j)
  {
    var late := TimedOut(cfg, s.pending, now);
    ForceAllCloses(cfg, s, late);
    var n := LatePrefix(cfg, s.pending, now);
    forall i | 0 <= i < |late| ensures Need(cfg, late[i]) <= s.kv.free { assert late[i] in s.pending; }
    AllFitting(cfg, s.kv.free, late);
    var fs := Forced(cfg, s, late);
    j := |fs|;
    assert fs == s.pending[..j];
    RemovePrefix(s.pending, j);
  }

  // ----- the step -----

  /** The finished leave the batch, the first n of the queue enter it at its end, and everybody else stays in place. */
  predicate MovesUp(s: Sched, s': Sched, n: nat) {
    && n <= |s.pending| && s'.pending == s.pending[n..] && s'.preempted == []
    && s'.active == Unfinished(s.active) + Prefilled(s.pending[..n]) && s'.kv.free >= s.kv.free
  }

  lemma AdmitsInOrder(s: Sched, k: nat, j: nat, n: nat, s1: Sched, s': Sched)
    requires k <= |s.pending| && s1 == Admitted(s, k, 0) && n == k + j <= |s.pending| && s.preempted == []
    requires s'.pending == s1.pending[j..] && s'.active == s1.active + Prefilled(s1.pending[..j])
    requires s'.kv == s1.kv && s'.preempted == s1.preempted
    ensures s'.pending == s.pending[n..] && s'.active == s.active + Prefilled(s.pending[..n])
    ensures s'.kv == s.kv && s'.preempted == []
  {
    assert EvictionOrder(s.active)[..0] == [] && Parked([]) == [];
    SliceSum(s.pending, k, j);
    MapSum(s.pending[..k], s1.pending[..j]);
    Assoc(s.active, Prefilled(s.pending[..k]), Prefilled(s1.pending[..j]));
  }

  lemma SortedRest(rs: seq<Req>, k: nat)
    requires QueueSorted(rs) && k <= |rs|
    ensures QueueSorted(rs[k..])
  {
  }

  lemma RestPlain(cfg: Config, s: Sched, s': Sched, n: nat)
    requires Plain(cfg, s) && n <= |s.pending| && s'.pending == s.pending[n..] && s'.preempted == [] && s'.kv.free >= s.kv.free
    ensures Plain(cfg, s')
  {
    forall r | r in s'.pending ensures r in s.pending { assert s.pending == s.pending[..n] + s.pending[n..]; }
  }

  /** Phases 3 and 4 together, after k were admitted. */
  lemma ForcePlainAfter(cfg: Config, s: Sched, k: nat, now: real) returns (n: nat)
    requires Plain(cfg, s) && QueueSorted(s.pending) && k <= |s.pending|
    ensures var s' := Force(cfg, Admitted(s, k, 0), now);
            && k <= n <= |s.pending| && s'.pending == s.pending[n..] && s'.active == s.active + Prefilled(s.pending[..n])
            && s'.kv == s.kv && s'.preempted == []
  {
    var s1 := Admitted(s, k, 0);
    NothingGone(s, k);
    SortedRest(s.pending, k);
    RestPlain(cfg, s, s1, k);
    var j := ForcePlain(cfg, s1, now);
    n := k + j;
    AdmitsInOrder(s, k, j, n, s1, Force(cfg, s1, now));
  }

  lemma MovesOn(s: Sched, s0: Sched, s': Sched, n: nat)
    requires s0.pending == s.pending && s0.active == Unfinished(s.active) && s0.kv.free >= s.kv.free && n <= |s.pending|
    requires s'.pending == s0.pending[n..] && s'.active == s0.active + Prefilled(s0.pending[..n]) && s'.kv == s0.kv && s'.preempted == []
    ensures MovesUp(s, s', n)
    ensures s'.active == [] ==> Unfinished(s.active) == [] && n == 0
  {
  }

  /** The step returns, keeps the order, and leaves an empty batch only if nothing is left. */
  lemma StepPlain(cfg: Config, s: Sched, now: real) returns (n: nat)
    requires Well(s) && Plain(cfg, s) && QueueSorted(s.pending)
    ensures Step(cfg, s, now).Returns? && MovesUp(s, Step(cfg, s, now).s, n) && Plain(cfg, Step(cfg, s, now).s)
    ensures Step(cfg, s, now).s.active == [] ==> s.pending == [] && Unfinished(s.active) == []
  {
    var s0 := BeforeAdmission(s);
    BeforePlain(cfg, s);
    var k := PhasePlain(cfg, s0);
    n := ForcePlainAfter(cfg, s0, k, now);
    var s' := Force(cfg, Admitted(s0, k, 0), now);
    assert Step(cfg, s, now) == Returns(s');
    MovesOn(s, s0, s', n);
    RestPlain(cfg, s, s', n);
  }

  // ----- the line -----

  /** Everybody who runs or waits, in order of arrival. */
  function Line(s: Sched): seq<Req> { s.active + s.pending }

  /** What those up to the first with the id need one after another. */
  function Wait(cost: Req -> nat, rs: seq<Req>, id: Id): nat {
    if rs == [] then 0
    else if rs[0].id == id then cost(rs[0])
    else cost(rs[0]) + Wait(cost, rs[1..], id)
  }

  lemma {:induction false} WaitAppend(cost: Req -> nat, a: seq<Req>, b: seq<Req>, id: Id)
    requires Count(a, id) > 0
    ensures Wait(cost, a + b, id) == Wait(cost, a, id)
  {
    assert (a + b)[0] == a[0] && (a + b)[1..] == a[1..] + b;
    if a[0].id != id { WaitAppend(cost, a[1..], b, id); }
  }

  lemma {:induction false} WaitPositive(cost: Req -> nat, rs: seq<Req>, id: Id)
    requires Count(rs, id) > 0 && forall r :: cost(r) > 0
    ensures Wait(cost, rs, id) > 0
  {
  }

  /** The same requests in the same order, none needing more. */
  ghost predicate NoneNeedsMore(cost: Req -> nat, a: seq<Req>, b: seq<Req>) {
    |b| == |a| && forall i :: 0 <= i < |a| ==> b[i].id == a[i].id && cost(b[i]) <= cost(a[i])
  }

  lemma NoneNeedsMoreTail(cost: Req -> nat, a: seq<Req>, b: seq<Req>)
    requires NoneNeedsMore(cost, a, b) && a != []
    ensures NoneNeedsMore(cost, a[1..], b[1..])
  {
    forall i | 0 <= i < |a[1..]| ensures b[1..][i].id == a[1..][i].id && cost(b[1..][i]) <= cost(a[1..][i]) {
      assert b[1..][i] == b[i + 1] && a[1..][i] == a[i + 1];
    }
  }

  lemma {:induction false} WaitShrinks(cost: Req -> nat, a: seq<Req>, b: seq<Req>, id: Id)
    requires NoneNeedsMore(cost, a, b)
    ensures Wait(cost, b, id) <= Wait(cost, a, id)
    ensures a != [] && cost(b[0]) < cost(a[0]) ==> Wait(cost, b, id) < Wait(cost, a, id)
  {
    if a != [] {
      NoneNeedsMoreTail(cost, a, b);
      WaitShrinks(cost, a[1..], b[1..], id);
    }
  }

  lemma FirstShrinks(cost: Req -> nat, a: seq<Req>, b: seq<Req>, c: seq<Req>, id: Id)
    requires a != [] && |a| == |b| && forall i :: 0 <= i < |a| ==> b[i].id == a[i].id && cost(b[i]) < cost(a[i])
    ensures Wait(cost, b + c, id) < Wait(cost, a + c, id)
  {
    WaitShrinks(cost, a + c, b + c, id);
  }

  /** Somebody else leaving the line makes nobody wait longer. */
  lemma {:induction false} WaitRemove(cost: Req -> nat, rs: seq<Req>, gone: Id, id: Id)
    requires gone != id
    ensures Wait(cost, RemoveId(rs, gone), id) <= Wait(cost, rs, id)
  {
    if rs != [] && rs[0].id != gone {
      Tail(rs[0], RemoveId(rs[1..], gone));
      if rs[0].id != id { WaitRemove(cost, rs[1..], gone, id); }
    }
  }

  lemma {:induction false} WaitUnfinished(cost: Req -> nat, a: seq<Req>, b: seq<Req>, id: Id)
    requires Unique(a + b) && Count(Unfinished(a) + b, id) > 0
    ensures Wait(cost, Unfinished(a) + b, id) <= Wait(cost, a + b, id)
  {
    if a != [] {
      var t := a[1..];
      assert (a + b)[0] == a[0] && (a + b)[1..] == t + b;
      UniqueTail(a + b);
      if a[0].Finished() {
        LeftIn(a, b, id);
        WaitUnfinished(cost, t, b, id);
      } else {
        assert Unfinished(a) + b == [a[0]] + (Unfinished(t) + b);
        Tail(a[0], Unfinished(t) + b);
        if a[0].id != id { WaitUnfinished(cost, t, b, id); }
      }
    }
  }

  lemma LeftIn(a: seq<Req>, b: seq<Req>, id: Id)
    requires a != [] && a[0].Finished() && Unique(a + b) && Count(Unfinished(a) + b, id) > 0
    ensures a[0].id != id
  {
    CountAppend(Unfinished(a), b, id);
    FinishedCount(a, id);
    CountAppend(a, b, id);
    assert Count(a + b, id) <= 1;
    Tail(a[0], Finished(a[1..]));
  }

  lemma LineMovesUp(cost: Req -> nat, s: Sched, s': Sched, n: nat)
    requires MovesUp(s, s', n) && forall r: Req :: cost(r.(status := Prefill)) == cost(r)
    ensures NoneNeedsMore(cost, Unfinished(s.active) + s.pending, Line(s'))
  {
    var u, p := Unfinished(s.active), s.pending[..n];
    Assoc(u, Prefilled(p), s.pending[n..]);
    forall i | 0 <= i < |Line(s')|
      ensures Line(s')[i].id == (u + s.pending)[i].id && cost(Line(s')[i]) <= cost((u + s.pending)[i])
    {
      if |u| <= i < |u| + n { assert Line(s')[i] == p[i - |u|].(status := Prefill); }
    }
  }

  /** A scheduling step changes nobody's place in the line for the worse. */
  lemma MovesUpWait(cost: Req -> nat, s: Sched, s': Sched, n: nat, id: Id)
    requires Well(s) && MovesUp(s, s', n) && Count(Line(s'), id) > 0
    requires forall r: Req :: cost(r.(status := Prefill)) == cost(r)
    ensures Wait(cost, Line(s'), id) <= Wait(cost, Line(s), id)
  {
    var a := Unfinished(s.active) + s.pending;
    LineMovesUp(cost, s, s', n);
    WaitShrinks(cost, a, Line(s'), id);
    SameMembersCount(Line(s'), a, id);
    forall x ensures Count(s.active + s.pending, x) <= 1 { CountAppend(s.active, s.pending, x); assert Total(s, x) <= 1; }
    WaitUnfinished(cost, s.active, s.pending, id);
  }

  lemma MovesUpCount(s: Sched, s': Sched, n: nat, id: Id)
    requires MovesUp(s, s', n) && Count(Line(s'), id) > 0
    ensures Count(Line(s), id) > 0
  {
    assert s.pending == s.pending[..n] + s.pending[n..];
    CountAppend(s'.active, s'.pending, id);
    CountAppend(Unfinished(s.active), Prefilled(s.pending[..n]), id);
    CountAppend(s.pending[..n], s.pending[n..], id);
    CountAppend(s.active, s.pending, id);
    CountPrefilled(s.pending[..n], id);
    FinishedCount(s.active, id);
  }

  lemma {:induction false} RemoveInFront(a: seq<Req>, b: seq<Req>, id: Id)
    requires Count(a, id) > 0
    ensures RemoveId(a + b, id) == RemoveId(a, id) + b
  {
    assert (a + b)[0] == a[0] && (a + b)[1..] == a[1..] + b;
    if a[0].id != id {
      RemoveInFront(a[1..], b, id);
      Assoc([a[0]], RemoveId(a[1..], id), b);
    }
  }

  lemma {:induction false} RemoveBehind(a: seq<Req>, b: seq<Req>, id: Id)
    requires Count(a, id) == 0
    ensures RemoveId(a + b, id) == a + RemoveId(b, id)
  {
    if a == [] {
      assert a + b == b && a + RemoveId(b, id) == RemoveId(b, id);
    } else {
      assert (a + b)[0] == a[0] && (a + b)[1..] == a[1..] + b;
      RemoveBehind(a[1..], b, id);
      Assoc([a[0]], a[1..], RemoveId(b, id));
    }
  }

  lemma AbortFromLine(s: Sched, x: Id)
    requires s.preempted == []
    ensures Line(Abort(s, x)) == RemoveId(Line(s), x)
  {
    CountHas(s.active, x);
    CountHas(s.pending, x);
    if HasId(s.active, x) {
      RemoveInFront(s.active, s.pending, x);
    } else {
      RemoveBehind(s.active, s.pending, x);
      RemoveLength(s.pending, x);
    }
  }
}
