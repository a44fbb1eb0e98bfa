/** Whole runs of the scheduler: nobody is lost or duplicated, the counters add up, callbacks fire once,
    and the pending queue keeps its order. */
module SchedRuns {
  import opened Types
  import opened SchedModel
  import opened SchedLists
  import opened SchedAdmission
  import opened SchedPhases
  import opened SchedStep

  // ----- events -----

  /** Schedule: a step that returns or raises. Work: what inference and cache clients did to the batch and the block
      counts between two steps. */
  datatype Event =
    | Arrive(r: Req, callback: bool, now: real)
    | Schedule(now: real)
    | Work(active: seq<Req>, kv: Ledger)
    | Cancel(id: Id)
    | Take(id: Id)

  /** What happened so far, told by the callers. */
  datatype History = History(
    added: set<Id>,
    watched: set<Id>,
    collected: set<Id>,
    dropped: set<Id>,
    cancelled: set<Id>,
    clock: real)

  function NoHistory(clock: real): History { History({}, {}, {}, {}, {}, clock) }

  predicate Working(st: Status) { st.Prefill? || st.Generating? || st.Complete? || st.Failed? }

  /** Inference changes tokens and statuses of batch members, never who they are. */
  predicate SameMembers(a: seq<Req>, b: seq<Req>) {
    |a| == |b| && forall i :: 0 <= i < |a| ==>
      && b[i].(status := a[i].status, generated := a[i].generated) == a[i]
      && Working(b[i].status)
  }

  ghost predicate Possible(cfg: Config, s: Sched, h: History, e: Event) {
    match e
    case Arrive(r, _, now) => r.id !in h.added && now >= h.clock
    case Schedule(now) => Well(s) && now >= h.clock && !Step(cfg, s, now).Hangs?
    case Work(active, _) => SameMembers(s.active, active)
    case Cancel(_) => true
    case Take(_) => true
  }

  ghost function Next(cfg: Config, s: Sched, h: History, e: Event): Sched
    requires Possible(cfg, s, h, e)
  {
    match e
    case Arrive(r, callback, now) => Add(s, r, callback, now)
    case Schedule(now) => Step(cfg, s, now).s
    case Work(active, kv) => s.(active := active, kv := kv)
    case Cancel(id) => Abort(s, id)
    case Take(id) => Collect(s, id)
  }

  function Told(s: Sched, h: History, e: Event): History {
    match e
    case Arrive(r, callback, now) =>
      h.(added := h.added + {r.id}, watched := if callback then h.watched + {r.id} else h.watched, clock := now)
    case Schedule(now) => h.(clock := now)
    case Work(_, _) => h
    case Cancel(id) =>
      if HasId(s.active, id) then h.(cancelled := h.cancelled + {id})
      else if HasId(s.pending, id) then h.(dropped := h.dropped + {id})
      else if HasId(s.preempted, id) then h.(cancelled := h.cancelled + {id})
      else h
    case Take(id) => if id in s.completed then h.(collected := h.collected + {id}) else h
  }

  // ----- the invariant -----

  function In(id: Id, ids: set<Id>): nat { if id in ids then 1 else 0 }

  function Places(s: Sched, h: History, id: Id): nat {
    Total(s, id) + In(id, s.completed.Keys) + In(id, h.collected) + In(id, h.dropped) + In(id, h.cancelled)
  }

  function Times(ids: seq<Id>, id: Id): nat {
    if ids == [] then 0 else (if ids[0] == id then 1 else 0) + Times(ids[1..], id)
  }

  function Reaped(s: Sched, h: History): set<Id> { s.completed.Keys + h.collected }

  /** Every added request is in exactly one place, and nobody else is anywhere. */
  ghost predicate Located(s: Sched, h: History) { forall id :: Places(s, h, id) == In(id, h.added) }

  ghost predicate StatusAgrees(s: Sched) {
    && (forall r :: r in s.pending ==> r.status.Pending?)
    && (forall r :: r in s.active ==> Working(r.status))
    && (forall r :: r in s.preempted ==> r.status.Preempted?)
    && (forall id :: id in s.completed ==> s.completed[id].id == id && s.completed[id].Finished())
  }

  predicate CountersAddUp(s: Sched, h: History) {
    && s.totalScheduled == s.totalCompleted + |h.cancelled| + |s.active| + |s.preempted|
    && s.totalCompleted == |Reaped(s, h)|
  }

  /** The callback of a watched request fired once if it was reaped and never otherwise, and is kept till then. */
  ghost predicate CalledOnce(s: Sched, h: History) {
    && h.watched <= h.added
    && s.callbacks == h.watched - Reaped(s, h)
    && forall id :: Times(s.fired, id) == In(id, h.watched * Reaped(s, h))
  }

  /** HIGH before NORMAL; HIGH newest first, NORMAL oldest first. */
  predicate QueueLe(a: Req, b: Req) {
    && (b.priority.High? ==> a.priority.High? && a.arrival >= b.arrival)
    && (a.priority.Normal? ==> b.priority.Normal? && a.arrival <= b.arrival)
  }

  predicate QueueSorted(rs: seq<Req>) { forall i, j :: 0 <= i < j < |rs| ==> QueueLe(rs[i], rs[j]) }

  ghost predicate QueueOrder(s: Sched, h: History) {
    && QueueSorted(s.pending)
    && (forall r :: r in s.pending ==> r.arrival <= h.clock)
  }

  ghost predicate Inv(s: Sched, h: History) {
    Located(s, h) && StatusAgrees(s) && CountersAddUp(s, h) && CalledOnce(s, h) && QueueOrder(s, h)
  }

  lemma LocatedWell(s: Sched, h: History)
    requires Located(s, h)
    ensures Well(s)
  {
    forall id ensures Total(s, id) <= 1 { assert Places(s, h, id) == In(id, h.added); }
  }

  lemma {:induction false} TimesAppend(a: seq<Id>, b: seq<Id>, id: Id)
    ensures Times(a + b, id) == Times(a, id) + Times(b, id)
  {
    if a == [] {
      assert a + b == b;
    } else {
      assert (a + b)[0] == a[0] && (a + b)[1..] == a[1..] + b;
      TimesAppend(a[1..], b, id);
    }
  }

  // ----- the smallest moves of a step keep the invariant -----

  lemma PlaceOf(s: Sched, h: History, r: Req)
    requires Located(s, h)
    ensures r in s.active ==> Count(s.active, r.id) == 1 && r.id !in Reaped(s, h) && r.id in h.added
    ensures r in s.pending ==> Count(s.pending, r.id) == 1
  {
    assert Places(s, h, r.id) == In(r.id, h.added);
    if r in s.active { CountMember(s.active, r); }
    if r in s.pending { CountMember(s.pending, r); }
  }

  lemma ReapOneLocated(s: Sched, h: History, r: Req)
    requires Located(s, h) && r in s.active
    ensures Located(ReapOne(s, r), h)
  {
    PlaceOf(s, h, r);
    forall id ensures Places(ReapOne(s, r), h, id) == In(id, h.added) {
      CountRemove(s.active, r.id, id);
      assert Places(s, h, id) == In(id, h.added);
    }
  }

  lemma ReapOneCalled(s: Sched, h: History, r: Req)
    requires Located(s, h) && CalledOnce(s, h) && r in s.active
    ensures CalledOnce(ReapOne(s, r), h)
  {
    var s' := ReapOne(s, r);
    PlaceOf(s, h, r);
    assert Reaped(s', h) == Reaped(s, h) + {r.id};
    forall id ensures Times(s'.fired, id) == In(id, h.watched * Reaped(s', h)) {
      TimesAppend(s.fired, [r.id], id);
      assert Times(s.fired, id) == In(id, h.watched * Reaped(s, h));
    }
  }

  lemma ReapOneInv(s: Sched, h: History, r: Req)
    requires Inv(s, h) && r in s.active && r.Finished()
    ensures Inv(ReapOne(s, r), h)
  {
    LocatedWell(s, h);
    WellActive(s);
    PlaceOf(s, h, r);
    RemoveLength(s.active, r.id);
    ReapOneLocated(s, h, r);
    ReapOneCalled(s, h, r);
    forall x | x in ReapOne(s, r).active ensures x in s.active { RemoveMembers(s.active, r.id, x); }
    ReapOneCounters(s, h, r);
  }

  lemma ReapOneCounters(s: Sched, h: History, r: Req)
    requires CountersAddUp(s, h) && r in s.active && r.id !in Reaped(s, h)
    requires |RemoveId(s.active, r.id)| == |s.active| - 1
    ensures CountersAddUp(ReapOne(s, r), h)
  {
    assert Reaped(ReapOne(s, r), h) == Reaped(s, h) + {r.id};
  }

  lemma MoveInv(s: Sched, h: History, s': Sched)
    requires Inv(s, h) && SameIds(s, s') && StatusAgrees(s')
    requires s'.completed == s.completed && s'.callbacks == s.callbacks && s'.fired == s.fired
    requires s'.totalCompleted == s.totalCompleted
    requires s'.totalScheduled + |s.active| + |s.preempted| == s.totalScheduled + |s'.active| + |s'.preempted|
    requires QueueOrder(s', h)
    ensures Inv(s', h)
  {
    forall id ensures Places(s', h, id) == In(id, h.added) { assert Places(s, h, id) == In(id, h.added); }
  }

  lemma ResumeOneInv(s: Sched, h: History)
    requires Inv(s, h) && CanResume(s)
    ensures Inv(ResumeOne(s), h)
  {
    forall id ensures Total(ResumeOne(s), id) == Total(s, id) {
      CountAppend(s.active, [s.preempted[0].(status := Generating)], id);
    }
    MoveInv(s, h, ResumeOne(s));
  }

  lemma EvictInv(s: Sched, h: History, v: Req)
    requires Inv(s, h) && v in s.active
    ensures Inv(Evict(s, v), h)
  {
    LocatedWell(s, h);
    WellActive(s);
    EvictIds(s, v);
    CountMember(s.active, v);
    RemoveLength(s.active, v.id);
    forall x | x in Evict(s, v).active ensures Working(x.status) { RemoveMembers(s.active, v.id, x); }
    MoveInv(s, h, Evict(s, v));
  }

  lemma AdmitInv(s: Sched, h: History)
    requires Inv(s, h) && s.pending != []
    ensures Inv(AdmitHead(s), h)
  {
    AdmitIds(s);
    MoveInv(s, h, AdmitHead(s));
  }

  lemma {:induction false} RemoveOrder(rs: seq<Req>, id: Id)
    requires QueueSorted(rs)
    ensures QueueSorted(RemoveId(rs, id))
    ensures forall r :: r in RemoveId(rs, id) ==> r in rs
  {
    if rs != [] && rs[0].id != id {
      RemoveOrder(rs[1..], id);
      var t := RemoveId(rs[1..], id);
      forall j | 0 <= j < |t| ensures QueueLe(rs[0], t[j]) {
        assert t[j] in rs[1..];
        var i :| 0 <= i < |rs[1..]| && rs[1..][i] == t[j];
        assert rs[i + 1] == t[j];
      }
      assert forall i :: 0 < i < |RemoveId(rs, id)| ==> RemoveId(rs, id)[i] == t[i - 1];
    }
  }

  lemma ForceOneInv(s: Sched, h: History, r: Req)
    requires Inv(s, h) && r in s.pending
    ensures Inv(ForceOne(s, r), h)
  {
    LocatedWell(s, h);
    ForceOneWell(s, r);
    RemoveOrder(s.pending, r.id);
    MoveInv(s, h, ForceOne(s, r));
  }

  // ----- the phases keep it -----

  lemma {:induction false} ReapAllInv(s: Sched, h: History, rs: seq<Req>)
    requires Inv(s, h) && Unique(rs) && forall r :: r in rs ==> r in s.active && r.Finished()
    ensures Inv(ReapAll(s, rs), h)
    decreases |rs|
  {
    if rs != [] {
      UniqueTail(rs);
      ReapOneInv(s, h, rs[0]);
      LocatedWell(s, h);
      WellActive(s);
      forall r | r in rs[1..] ensures r in ReapOne(s, rs[0]).active && r.Finished() {
        CountMember(rs[1..], r);
        RemoveMembers(s.active, rs[0].id, r);
      }
      ReapAllInv(ReapOne(s, rs[0]), h, rs[1..]);
    }
  }

  lemma {:induction false} UnfinishedAre(rs: seq<Req>, r: Req)
    ensures r in Unfinished(rs) <==> r in rs && !r.Finished()
  {
    if rs != [] { UnfinishedAre(rs[1..], r); }
  }

  lemma {:induction false} RecordedLast(m: map<Id, Req>, rs: seq<Req>, r: Req)
    requires Unique(rs)
    ensures r in rs ==> r.id in Recorded(m, rs) && Recorded(m, rs)[r.id] == r
    ensures Count(rs, r.id) == 0 ==> (r.id in Recorded(m, rs) <==> r.id in m)
    ensures Count(rs, r.id) == 0 && r.id in m ==> Recorded(m, rs)[r.id] == m[r.id]
    decreases |rs|
  {
    if rs != [] {
      UniqueTail(rs);
      RecordedLast(m[rs[0].id := rs[0]], rs[1..], r);
    }
  }

  /** Reaping takes the COMPLETE and the FAILED ones out of the batch, and those only, and records them as they are. */
  lemma ReapTakesDone(s: Sched, r: Req)
    requires Well(s) && r in s.active
    ensures r in Reap(s).active <==> r.status != Complete && r.status != Failed
    ensures r.status == Complete || r.status == Failed ==> r.id in Reap(s).completed && Reap(s).completed[r.id] == r
    ensures r.status != Complete && r.status != Failed && r.id !in s.completed ==> r.id !in Reap(s).completed
  {
    ReapIs(s);
    WellActive(s);
    UnfinishedAre(s.active, r);
    FinishedMembers(s.active, r);
    FinishedCount(s.active, r.id);
    CountMember(s.active, r);
    forall id ensures Count(Finished(s.active), id) <= 1 { FinishedCount(s.active, id); }
    RecordedLast(s.completed, Finished(s.active), r);
    if r in Unfinished(s.active) { CountMember(Unfinished(s.active), r); }
  }

  lemma ReapInv(s: Sched, h: History)
    requires Inv(s, h)
    ensures Inv(Reap(s), h)
  {
    LocatedWell(s, h);
    WellActive(s);
    forall id ensures Count(Finished(s.active), id) <= 1 { FinishedCount(s.active, id); }
    forall r ensures r in Finished(s.active) <==> r in s.active && r.Finished() { FinishedMembers(s.active, r); }
    ReapAllInv(s, h, Finished(s.active));
  }

  lemma {:induction false} ResumeInv(s: Sched, h: History)
    requires Inv(s, h)
    ensures Inv(Resume(s), h)
    decreases |s.preempted|
  {
    if CanResume(s) {
      ResumeOneInv(s, h);
      ResumeInv(ResumeOne(s), h);
    }
  }

  lemma {:induction false} ForceAllInv(cfg: Config, s: Sched, h: History, rs: seq<Req>)
    requires Inv(s, h) && Unique(rs) && forall r :: r in rs ==> r in s.pending
    ensures Inv(ForceAll(cfg, s, rs), h)
    decreases |rs|
  {
    if rs != [] && |s.active| < cfg.maxBatch {
      UniqueTail(rs);
      if Need(cfg, rs[0]) <= s.kv.free {
        ForceOneInv(s, h, rs[0]);
        LocatedWell(s, h);
        ForceOneWell(s, rs[0]);
        forall r | r in rs[1..] ensures r in ForceOne(s, rs[0]).pending { CountMember(rs[1..], r); }
        ForceAllInv(cfg, ForceOne(s, rs[0]), h, rs[1..]);
      } else {
        ForceAllInv(cfg, s, h, rs[1..]);
      }
    }
  }

  lemma ForceInv(cfg: Config, s: Sched, h: History, now: real)
    requires Inv(s, h)
    ensures Inv(Force(cfg, s, now), h)
  {
    LocatedWell(s, h);
    WellActive(s);
    var late := TimedOut(cfg, s.pending, now);
    forall id ensures Count(late, id) <= 1 { TimedOutCount(cfg, s.pending, now, id); }
    forall r ensures r in late <==> r in s.pending && Late(cfg, r, now) { TimedOutMembers(cfg, s.pending, now, r); }
    ForceAllInv(cfg, s, h, late);
  }

  lemma LaterClock(s: Sched, h: History, now: real)
    requires Inv(s, h) && now >= h.clock
    ensures Inv(s, h.(clock := now))
  {
    forall id ensures Places(s, h.(clock := now), id) == In(id, h.added) { assert Places(s, h, id) == In(id, h.added); }
    assert Reaped(s, h.(clock := now)) == Reaped(s, h);
  }

  lemma {:induction false} EvictAllInv(s: Sched, h: History, vs: seq<Req>)
    requires Inv(s, h) && Unique(vs) && forall r :: r in vs ==> r in s.active
    ensures Inv(EvictAll(s, vs), h)
    decreases |vs|
  {
    if vs != [] {
      UniqueTail(vs);
      EvictInv(s, h, vs[0]);
      LocatedWell(s, h);
      WellActive(s);
      forall r | r in vs[1..] ensures r in Evict(s, vs[0]).active {
        CountMember(vs[1..], r);
        RemoveMembers(s.active, vs[0].id, r);
      }
      EvictAllInv(Evict(s, vs[0]), h, vs[1..]);
    }
  }

  lemma UniquePrefix(vs: seq<Req>, m: nat)
    requires Unique(vs) && m <= |vs|
    ensures Unique(vs[..m])
  {
    assert vs == vs[..m] + vs[m..];
    forall id ensures Count(vs[..m], id) <= 1 { CountAppend(vs[..m], vs[m..], id); assert Count(vs, id) <= 1; }
  }

  lemma EvictedInv(s: Sched, h: History, m: nat)
    requires Inv(s, h) && m <= |EvictionOrder(s.active)|
    ensures Inv(Admitted(s, 0, m), h)
  {
    var vs := EvictionOrder(s.active);
    LocatedWell(s, h);
    WellActive(s);
    EvictionOrderIs(s.active);
    EvictionOrderUnique(s.active);
    UniquePrefix(vs, m);
    forall r | r in vs[..m] ensures r in s.active { assert r in vs; }
    EvictAllInv(s, h, vs[..m]);
    EvictedIsAdmitted(s, m);
  }

  lemma {:induction false} AdmittedInv(s: Sched, h: History, k: nat, m: nat)
    requires Inv(s, h) && k <= |s.pending| && m <= |EvictionOrder(s.active)|
    ensures Inv(Admitted(s, k, m), h)
    decreases k
  {
    LocatedWell(s, h);
    if k == 0 {
      EvictedInv(s, h, m);
    } else {
      AdmitInv(s, h);
      HeadThenRest(s, k, m, k - 1);
      AdmittedInv(AdmitHead(s), h, k - 1, m);
    }
  }

  /** A scheduling step keeps the invariant, whether it returns, raises half way through or never ends. */
  lemma ScheduleInv(cfg: Config, s: Sched, h: History, now: real)
    requires Inv(s, h) && Well(s) && now >= h.clock
    ensures Inv(Step(cfg, s, now).s, h.(clock := now))
  {
    ReapInv(s, h);
    ResumeInv(Reap(s), h);
    var k, m := StepShape(cfg, s, now);
    AdmittedInv(BeforeAdmission(s), h, k, m);
    ForceInv(cfg, Admitted(BeforeAdmission(s), k, m), h, now);
    LaterClock(Step(cfg, s, now).s, h, now);
  }

  // ----- the other events keep it -----

  lemma QueueGrows(rs: seq<Req>, r: Req, clock: real)
    requires QueueSorted(rs) && (forall x :: x in rs ==> x.arrival <= clock) && clock <= r.arrival
    ensures QueueSorted(if r.priority.High? then [r] + rs else rs + [r])
  {
    forall i | 0 <= i < |rs| ensures if r.priority.High? then QueueLe(r, rs[i]) else QueueLe(rs[i], r) {
      assert rs[i] in rs;
    }
  }

  lemma ArriveLocated(s: Sched, h: History, e: Event)
    requires Located(s, h) && e.Arrive? && e.r.id !in h.added
    ensures Located(Add(s, e.r, e.callback, e.now), Told(s, h, e))
  {
    var s', h' := Add(s, e.r, e.callback, e.now), Told(s, h, e);
    var r' := e.r.(status := Pending, arrival := e.now);
    forall id ensures Places(s', h', id) == In(id, h'.added) {
      CountAppend(s.pending, [r'], id);
      CountAppend([r'], s.pending, id);
      assert Places(s, h, id) == In(id, h.added);
    }
  }

  lemma ArriveInv(s: Sched, h: History, e: Event)
    requires Inv(s, h) && e.Arrive? && e.r.id !in h.added && e.now >= h.clock
    ensures Inv(Add(s, e.r, e.callback, e.now), Told(s, h, e))
  {
    var s', h' := Add(s, e.r, e.callback, e.now), Told(s, h, e);
    var r' := e.r.(status := Pending, arrival := e.now);
    assert Places(s, h, e.r.id) == 0;
    ArriveLocated(s, h, e);
    assert Reaped(s', h') == Reaped(s, h) && e.r.id !in Reaped(s, h);
    forall id ensures Times(s'.fired, id) == In(id, h'.watched * Reaped(s', h')) {
      assert Times(s.fired, id) == In(id, h.watched * Reaped(s, h));
    }
    QueueGrows(s.pending, r', h.clock);
  }

  lemma {:induction false} SameMembersCount(a: seq<Req>, b: seq<Req>, id: Id)
    requires |a| == |b| && forall i :: 0 <= i < |a| ==> b[i].id == a[i].id
    ensures Count(a, id) == Count(b, id)
  {
    if a != [] { SameMembersCount(a[1..], b[1..], id); }
  }

  lemma WorkInv(s: Sched, h: History, active: seq<Req>, kv: Ledger)
    requires Inv(s, h) && SameMembers(s.active, active)
    ensures Inv(s.(active := active, kv := kv), h)
  {
    var s' := s.(active := active, kv := kv);
    forall id ensures Total(s', id) == Total(s, id) { SameMembersCount(s.active, active, id); }
    MoveInv(s, h, s');
  }

  lemma CancelLocated(s: Sched, h: History, s': Sched, id: Id)
    requires Located(s, h) && Total(s, id) == 1 && id !in h.cancelled
    requires s'.completed == s.completed && s'.pending == s.pending
    requires || (HasId(s.active, id) && s'.active == RemoveId(s.active, id) && s'.preempted == s.preempted)
             || (HasId(s.preempted, id) && s'.preempted == RemoveId(s.preempted, id) && s'.active == s.active)
    ensures Located(s', h.(cancelled := h.cancelled + {id}))
  {
    CountHas(s.active, id);
    CountHas(s.preempted, id);
    forall x ensures Places(s', h.(cancelled := h.cancelled + {id}), x) == In(x, h.added) {
      CountRemove(s.active, id, x);
      CountRemove(s.preempted, id, x);
      assert Places(s, h, x) == In(x, h.added);
    }
  }

  lemma CancelActiveInv(s: Sched, h: History, id: Id)
    requires Inv(s, h) && HasId(s.active, id)
    ensures Inv(s.(active := RemoveId(s.active, id), kv := s.kv.Freed(id)), h.(cancelled := h.cancelled + {id}))
  {
    LocatedWell(s, h);
    WellActive(s);
    CountHas(s.active, id);
    RemoveLength(s.active, id);
    assert Places(s, h, id) == In(id, h.added);
    var s', h' := s.(active := RemoveId(s.active, id), kv := s.kv.Freed(id)), h.(cancelled := h.cancelled + {id});
    CancelLocated(s, h, s', id);
    forall r ensures r in RemoveId(s.active, id) ==> r in s.active { RemoveMembers(s.active, id, r); }
    assert Reaped(s', h') == Reaped(s, h);
  }

  lemma CancelPreemptedInv(s: Sched, h: History, id: Id)
    requires Inv(s, h) && HasId(s.preempted, id)
    ensures Inv(s.(preempted := RemoveId(s.preempted, id), kv := s.kv.Freed(id)), h.(cancelled := h.cancelled + {id}))
  {
    LocatedWell(s, h);
    WellActive(s);
    CountHas(s.preempted, id);
    RemoveLength(s.preempted, id);
    assert Places(s, h, id) == In(id, h.added);
    var s', h' := s.(preempted := RemoveId(s.preempted, id), kv := s.kv.Freed(id)), h.(cancelled := h.cancelled + {id});
    CancelLocated(s, h, s', id);
    forall r ensures r in RemoveId(s.preempted, id) ==> r in s.preempted { RemoveMembers(s.preempted, id, r); }
    assert Reaped(s', h') == Reaped(s, h);
  }

  lemma CancelPendingInv(s: Sched, h: History, id: Id)
    requires Inv(s, h) && HasId(s.pending, id)
    ensures Inv(s.(pending := RemoveId(s.pending, id)), h.(dropped := h.dropped + {id}))
  {
    CountHas(s.pending, id);
    RemoveOrder(s.pending, id);
    assert Places(s, h, id) == In(id, h.added);
    var s', h' := s.(pending := RemoveId(s.pending, id)), h.(dropped := h.dropped + {id});
    forall x ensures Places(s', h', x) == In(x, h'.added) {
      CountRemove(s.pending, id, x);
      assert Places(s, h, x) == In(x, h.added);
    }
    assert Reaped(s', h') == Reaped(s, h);
  }

  lemma CancelInv(s: Sched, h: History, id: Id)
    requires Inv(s, h)
    ensures Inv(Abort(s, id), Told(s, h, Cancel(id)))
  {
    if HasId(s.active, id) { CancelActiveInv(s, h, id); }
    else if HasId(s.pending, id) { CancelPendingInv(s, h, id); }
    else if HasId(s.preempted, id) { CancelPreemptedInv(s, h, id); }
  }

  lemma TakeLocated(s: Sched, h: History, id: Id)
    requires Located(s, h) && id in s.completed
    ensures Located(Collect(s, id), h.(collected := h.collected + {id}))
    ensures Reaped(Collect(s, id), h.(collected := h.collected + {id})) == Reaped(s, h)
  {
    assert Collect(s, id).completed.Keys == s.completed.Keys - {id};
    forall x ensures Places(Collect(s, id), h.(collected := h.collected + {id}), x) == In(x, h.added) {
      assert Places(s, h, x) == In(x, h.added);
    }
  }

  lemma TakeInv(s: Sched, h: History, id: Id)
    requires Inv(s, h)
    ensures Inv(Collect(s, id), Told(s, h, Take(id)))
  {
    if id in s.completed {
      TakeLocated(s, h, id);
    } else {
      assert s.completed - {id} == s.completed;
    }
  }

  lemma EventInv(cfg: Config, s: Sched, h: History, e: Event)
    requires Inv(s, h) && Possible(cfg, s, h, e)
    ensures Inv(Next(cfg, s, h, e), Told(s, h, e))
  {
    match e
    case Arrive(_, _, _) => ArriveInv(s, h, e);
    case Schedule(now) => ScheduleInv(cfg, s, h, now);
    case Work(active, kv) => WorkInv(s, h, active, kv);
    case Cancel(id) => CancelInv(s, h, id);
    case Take(id) => TakeInv(s, h, id);
  }

  // ----- runs -----

  ghost predicate Run(cfg: Config, s: Sched, h: History, es: seq<Event>)
    decreases |es|
  {
    es == [] || (Possible(cfg, s, h, es[0]) && Run(cfg, Next(cfg, s, h, es[0]), Told(s, h, es[0]), es[1..]))
  }

  ghost function End(cfg: Config, s: Sched, h: History, es: seq<Event>): (Sched, History)
    requires Run(cfg, s, h, es)
    decreases |es|
  {
    if es == [] then (s, h) else End(cfg, Next(cfg, s, h, es[0]), Told(s, h, es[0]), es[1..])
  }

  /** A run from an empty scheduler to s. */
  ghost predicate Reaches(cfg: Config, kv: Ledger, clock: real, es: seq<Event>, s: Sched, h: History) {
    Run(cfg, Initial(kv), NoHistory(clock), es) && End(cfg, Initial(kv), NoHistory(clock), es) == (s, h)
  }

  lemma {:induction false} RunOn(cfg: Config, s: Sched, h: History, es: seq<Event>, e: Event)
    requires Run(cfg, s, h, es) && Possible(cfg, End(cfg, s, h, es).0, End(cfg, s, h, es).1, e)
    ensures var (s1, h1) := End(cfg, s, h, es);
            Run(cfg, s, h, es + [e]) && End(cfg, s, h, es + [e]) == (Next(cfg, s1, h1, e), Told(s1, h1, e))
    decreases |es|
  {
    if es == [] {
      assert es + [e] == [e] && [e][1..] == [];
    } else {
      assert (es + [e])[0] == es[0] && (es + [e])[1..] == es[1..] + [e];
      RunOn(cfg, Next(cfg, s, h, es[0]), Told(s, h, es[0]), es[1..], e);
    }
  }

  lemma {:induction false} RunInv(cfg: Config, s: Sched, h: History, es: seq<Event>)
    requires Inv(s, h) && Run(cfg, s, h, es)
    ensures Inv(End(cfg, s, h, es).0, End(cfg, s, h, es).1)
    decreases |es|
  {
    if es != [] {
      EventInv(cfg, s, h, es[0]);
      RunInv(cfg, Next(cfg, s, h, es[0]), Told(s, h, es[0]), es[1..]);
    }
  }

  /** In every state reachable from an empty scheduler everybody is in exactly one place with a status that agrees,
      the counters add up, callbacks fire once, the queue keeps its order, and the next step can be taken. */
  lemma Conservation(cfg: Config, kv: Ledger, clock: real, es: seq<Event>)
    requires Run(cfg, Initial(kv), NoHistory(clock), es)
    ensures var (s, h) := End(cfg, Initial(kv), NoHistory(clock), es); Inv(s, h) && Well(s)
  {
    assert Inv(Initial(kv), NoHistory(clock));
    RunInv(cfg, Initial(kv), NoHistory(clock), es);
    var (s, h) := End(cfg, Initial(kv), NoHistory(clock), es);
    LocatedWell(s, h);
  }

  /** Cancelling does not announce anything: the callback stays registered and never fires. */
  lemma CancelledNeverCalled(s: Sched, h: History, id: Id)
    requires Inv(s, h) && id in h.cancelled + h.dropped && id in h.watched
    ensures id in s.callbacks && Times(s.fired, id) == 0
  {
    assert Places(s, h, id) == In(id, h.added);
    assert Times(s.fired, id) == In(id, h.watched * Reaped(s, h));
  }
}
