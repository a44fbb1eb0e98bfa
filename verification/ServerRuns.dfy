/** Whole runs of the server: whatever is batched, preempted and resumed, every request gets exactly the tokens
    that sequential generation gives it alone. */
module ServerRuns {
  import opened Types
  import opened Arithmetic
  import opened EngineModel
  import opened ServerModel
  import opened SchedModel
  import opened SchedLists
  import opened SchedAdmission
  import opened SchedPhases
  import opened SchedStep
  import opened SchedRuns
  import opened SchedClosure

  /** The scheduler and every engine's caches. */
  datatype World = World(s: Sched, es: Lanes)

  /** What happened so far: the scheduler's history, each request as submitted and, if collected or aborted, as it
      was then. */
  datatype Log = Log(h: History, submitted: map<Id, Req>, taken: map<Id, Req>, aborted: map<Id, Req>)

  /** One thing the server or its callers do. Tick: a scheduling step, which returns or raises. Infer: one inference
      step over the batch. Clients: others change the block counts in any way. Inference failures are not part of
      these runs. */
  datatype Action =
    | Submit(r: Req, callback: bool, now: real)
    | Tick(now: real)
    | Infer(active: seq<Req>, es: Lanes)
    | Clients(kv: Ledger)
    | Collecting(id: Id)
    | Aborting(id: Id)

  /** The scheduler's side of an action. */
  function EventOf(s: Sched, a: Action): Event {
    match a
    case Submit(r, callback, now) => Arrive(r, callback, now)
    case Tick(now) => Schedule(now)
    case Infer(active, _) => Work(active, s.kv)
    case Clients(kv) => Work(s.active, kv)
    case Collecting(id) => Take(id)
    case Aborting(id) => Cancel(id)
  }

  ghost predicate May(cfg: Config, f: Fleet, w: World, log: Log, a: Action) {
    && Possible(cfg, w.s, log.h, EventOf(w.s, a))
    && (a.Submit? ==> a.r.generated == [])
    && (a.Infer? ==> CanInfer(f, w.es, w.s.active) && Inferred(f, w.es, w.s.active, a.es, a.active))
  }

  ghost function Act(cfg: Config, f: Fleet, w: World, log: Log, a: Action): World
    requires May(cfg, f, w, log, a)
  {
    World(Next(cfg, w.s, log.h, EventOf(w.s, a)), if a.Infer? then a.es else w.es)
  }

  function Noted(w: World, log: Log, a: Action): Log {
    Log(Told(w.s, log.h, EventOf(w.s, a)),
        if a.Submit? then log.submitted[a.r.id := a.r] else log.submitted,
        if a.Collecting? && a.id in w.s.completed then log.taken[a.id := w.s.completed[a.id]] else log.taken,
        if a.Aborting? then WithAborted(log.aborted, a.id, Victim(w.s, a.id)) else log.aborted)
  }

  /** The request that abort_request finds, looking in the batch, the pending and the preempted queue. */
  function Victim(s: Sched, id: Id): Option<Req> {
    if Find(s.active, id).Some? then Find(s.active, id)
    else if Find(s.pending, id).Some? then Find(s.pending, id)
    else Find(s.preempted, id)
  }

  /** It is marked FAILED. */
  function WithAborted(m: map<Id, Req>, id: Id, r: Option<Req>): map<Id, Req> {
    if r.Some? then m[id := r.value.(status := Failed)] else m
  }

  lemma VictimIs(s: Sched, id: Id)
    ensures Victim(s, id).Some? <==> HasId(s.active, id) || HasId(s.pending, id) || HasId(s.preempted, id)
    ensures Victim(s, id).Some? ==>
              && Victim(s, id).value.id == id
              && (Victim(s, id).value in s.active || Victim(s, id).value in s.pending || Victim(s, id).value in s.preempted)
  {
    FindHas(s.active, id);
    FindHas(s.pending, id);
    FindHas(s.preempted, id);
  }

  // ----- what holds of one request -----

  function NameFor(f: Fleet, r: Req): string
    requires f.names != []
  {
    EngineFor(f, r).value
  }

  ghost predicate Uncached(es: Lanes, id: Id) { forall e :: LaneAt(es, e, id) == None }

  ghost predicate OnlyAt(es: Lanes, id: Id, e: string) { forall e' :: e' != e ==> LaneAt(es, e', id) == None }

  /** r is the submitted request but for arrival, status and tokens. */
  predicate SameRequest(r: Req, sub: Req) {
    r == sub.(arrival := r.arrival, status := r.status, generated := r.generated)
  }

  /** What sequential generation on its engine yields for a request alone. */
  ghost function Baseline(f: Fleet, r: Req): seq<Token>
    requires FleetOk(f) && f.names != []
  {
    Sequential(f.served[NameFor(f, r)], r)
  }

  ghost predicate OnPath(f: Fleet, es: Lanes, r: Req)
    requires FleetOk(f) && f.names != []
  {
    var e := NameFor(f, r);
    InFlight(f.served[e], r, LaneAt(es, e, r.id)) && OnlyAt(es, r.id, e)
  }

  ghost predicate Right(f: Fleet, es: Lanes, submitted: map<Id, Req>, r: Req)
    requires FleetOk(f) && f.names != []
  {
    && r.id in submitted && SameRequest(r, submitted[r.id])
    && match r.status
       case Pending => r.generated == [] && Uncached(es, r.id)
       case Prefill => r.generated == [] && Uncached(es, r.id)
       case Generating => OnPath(f, es, r)
       case Preempted => OnPath(f, es, r)
       case Complete => r.generated == Baseline(f, r) && Uncached(es, r.id)
       case Failed => false
  }

  ghost function Rightly(f: Fleet, es: Lanes, submitted: map<Id, Req>): Req -> bool
    requires FleetOk(f) && f.names != []
  {
    r => Right(f, es, submitted, r)
  }

  /** r is one of the submitted requests; its tokens are a prefix of what sequential generation yields for the
      request as submitted, and all of it once it is complete. */
  ghost predicate OnTrack(f: Fleet, submitted: map<Id, Req>, r: Req)
    requires FleetOk(f) && f.names != []
  {
    && r.id in submitted && SameRequest(r, submitted[r.id])
    && r.generated <= Baseline(f, submitted[r.id])
    && (r.status.Complete? ==> r.generated == Baseline(f, submitted[r.id]))
  }

  lemma RightOnTrack(f: Fleet, es: Lanes, submitted: map<Id, Req>, r: Req)
    requires FleetOk(f) && f.names != [] && Right(f, es, submitted, r)
    ensures OnTrack(f, submitted, r)
  {
    var e := NameFor(f, r);
    assert Baseline(f, r) == Baseline(f, submitted[r.id]);
    if r.status.Generating? || r.status.Preempted? { InFlightIsPrefix(f.served[e], r, LaneAt(es, e, r.id)); }
  }

  // ----- the invariant -----

  ghost predicate Delivered(f: Fleet, es: Lanes, submitted: map<Id, Req>, m: map<Id, Req>)
    requires FleetOk(f) && f.names != []
  {
    forall id :: id in m ==> Finisher(f, es, submitted, id, m[id])
  }

  ghost predicate Finisher(f: Fleet, es: Lanes, submitted: map<Id, Req>, id: Id, r: Req)
    requires FleetOk(f) && f.names != []
  {
    r.id == id && r.status.Complete? && Right(f, es, submitted, r)
  }

  ghost predicate Booked(s: Sched, log: Log) {
    && Inv(s, log.h) && log.h.added == log.submitted.Keys && log.h.collected == log.taken.Keys
    && log.aborted.Keys == log.h.cancelled + log.h.dropped
  }

  ghost predicate KnownLanes(es: Lanes, ids: set<Id>) { forall e, id :: LaneAt(es, e, id).Some? ==> id in ids }

  ghost predicate TokensRight(f: Fleet, w: World, log: Log)
    requires FleetOk(f) && f.names != []
  {
    Tokens(f, w.es, log.submitted, w.s, log.taken, log.aborted)
  }

  ghost predicate Tokens(f: Fleet, es: Lanes, submitted: map<Id, Req>, s: Sched, taken: map<Id, Req>, aborted: map<Id, Req>)
    requires FleetOk(f) && f.names != []
  {
    && All(Rightly(f, es, submitted), s)
    && Delivered(f, es, submitted, s.completed) && Delivered(f, es, submitted, taken)
    && Dropped(f, submitted, aborted)
    && KnownLanes(es, submitted.Keys)
  }

  /** Aborted requests are FAILED and got a prefix of their tokens. */
  ghost predicate Dropped(f: Fleet, submitted: map<Id, Req>, m: map<Id, Req>)
    requires FleetOk(f) && f.names != []
  {
    forall id :: id in m ==> Gone(f, submitted, id, m[id])
  }

  ghost predicate Gone(f: Fleet, submitted: map<Id, Req>, id: Id, r: Req)
    requires FleetOk(f) && f.names != []
  {
    r.id == id && r.status.Failed? && OnTrack(f, submitted, r)
  }

  ghost predicate Correct(f: Fleet, w: World, log: Log) {
    && FleetOk(f) && f.names != [] && w.es.Keys == f.served.Keys
    && Booked(w.s, log) && TokensRight(f, w, log)
  }

  lemma BookKept(cfg: Config, f: Fleet, w: World, log: Log, a: Action)
    requires Booked(w.s, log) && May(cfg, f, w, log, a)
    ensures Booked(Act(cfg, f, w, log, a).s, Noted(w, log, a))
  {
    EventInv(cfg, w.s, log.h, EventOf(w.s, a));
    KeysKept(w, log, a);
  }

  lemma KeysKept(w: World, log: Log, a: Action)
    requires log.h.added == log.submitted.Keys && log.h.collected == log.taken.Keys
    ensures Noted(w, log, a).h.added == Noted(w, log, a).submitted.Keys
    ensures Noted(w, log, a).h.collected == Noted(w, log, a).taken.Keys
    ensures log.aborted.Keys == log.h.cancelled + log.h.dropped ==>
              Noted(w, log, a).aborted.Keys == Noted(w, log, a).h.cancelled + Noted(w, log, a).h.dropped
  {
    if a.Aborting? { VictimIs(w.s, a.id); }
  }

  // ----- statuses changed by the scheduler -----

  lemma StatusRight(f: Fleet, es: Lanes, submitted: map<Id, Req>, r: Req, st: Status)
    requires FleetOk(f) && f.names != [] && Right(f, es, submitted, r)
    requires (r.status, st) in {(Status.Pending, Prefill), (Preempted, Generating), (Generating, Preempted)}
    ensures Right(f, es, submitted, r.(status := st))
  {
    if !r.status.Pending? { SamePath(f, es, r, st); }
  }

  lemma RightClosed(f: Fleet, es: Lanes, submitted: map<Id, Req>)
    requires FleetOk(f) && f.names != []
    ensures Closed(Rightly(f, es, submitted))
  {
    forall r | Right(f, es, submitted, r) && r.status.Pending? ensures Right(f, es, submitted, r.(status := Prefill)) {
      StatusRight(f, es, submitted, r, Prefill);
    }
    forall r | Right(f, es, submitted, r) && r.status.Preempted? ensures Right(f, es, submitted, r.(status := Generating)) {
      StatusRight(f, es, submitted, r, Generating);
    }
    forall r | Right(f, es, submitted, r) && r.status.Generating? ensures Right(f, es, submitted, r.(status := Preempted)) {
      StatusRight(f, es, submitted, r, Preempted);
    }
  }

  lemma SamePath(f: Fleet, es: Lanes, r: Req, st: Status)
    requires FleetOk(f) && f.names != [] && OnPath(f, es, r)
    ensures OnPath(f, es, r.(status := st))
  {
  }

  lemma HarvestDelivered(f: Fleet, es: Lanes, submitted: map<Id, Req>, s: Sched, s': Sched)
    requires FleetOk(f) && f.names != []
    requires Delivered(f, es, submitted, s.completed) && Harvest(Rightly(f, es, submitted), s, s')
    ensures Delivered(f, es, submitted, s'.completed)
  {
  }

  lemma TickTokens(cfg: Config, f: Fleet, es: Lanes, submitted: map<Id, Req>, s: Sched, taken: map<Id, Req>,
                   aborted: map<Id, Req>, now: real)
    requires FleetOk(f) && f.names != [] && Tokens(f, es, submitted, s, taken, aborted)
    requires Well(s)
    ensures Tokens(f, es, submitted, Step(cfg, s, now).s, taken, aborted)
  {
    RightClosed(f, es, submitted);
    StepClosed(Rightly(f, es, submitted), cfg, s, now);
    HarvestDelivered(f, es, submitted, s, Step(cfg, s, now).s);
  }

  // ----- aborting -----

  lemma AbortedAll(P: Req -> bool, s: Sched, id: Id)
    requires All(P, s)
    ensures All(P, Abort(s, id)) && Abort(s, id).completed == s.completed
  {
    RemoveIn(s.active, id);
    RemoveIn(s.pending, id);
    RemoveIn(s.preempted, id);
  }

  lemma FailedOnTrack(f: Fleet, es: Lanes, submitted: map<Id, Req>, r: Req)
    requires FleetOk(f) && f.names != [] && Right(f, es, submitted, r)
    ensures OnTrack(f, submitted, r.(status := Failed))
  {
    RightOnTrack(f, es, submitted, r);
  }

  lemma DroppedWith(f: Fleet, submitted: map<Id, Req>, m: map<Id, Req>, r: Req)
    requires FleetOk(f) && f.names != [] && Dropped(f, submitted, m) && OnTrack(f, submitted, r.(status := Failed))
    ensures Dropped(f, submitted, m[r.id := r.(status := Failed)])
  {
  }

  lemma VictimDropped(f: Fleet, es: Lanes, submitted: map<Id, Req>, s: Sched, m: map<Id, Req>, id: Id)
    requires FleetOk(f) && f.names != [] && All(Rightly(f, es, submitted), s) && Dropped(f, submitted, m)
    ensures Dropped(f, submitted, WithAborted(m, id, Victim(s, id)))
  {
    VictimIs(s, id);
    if Victim(s, id).Some? {
      var r := Victim(s, id).value;
      assert Rightly(f, es, submitted)(r);
      FailedOnTrack(f, es, submitted, r);
      DroppedWith(f, submitted, m, r);
    }
  }

  lemma AbortTokens(f: Fleet, es: Lanes, submitted: map<Id, Req>, s: Sched, taken: map<Id, Req>, aborted: map<Id, Req>, id: Id)
    requires FleetOk(f) && f.names != [] && Tokens(f, es, submitted, s, taken, aborted)
    ensures Tokens(f, es, submitted, Abort(s, id), taken, WithAborted(aborted, id, Victim(s, id)))
  {
    AbortedAll(Rightly(f, es, submitted), s, id);
    VictimDropped(f, es, submitted, s, aborted, id);
  }

  // ----- submitting and collecting -----

  lemma RightSubmitted(f: Fleet, es: Lanes, submitted: map<Id, Req>, sub: Req, r: Req)
    requires FleetOk(f) && f.names != [] && sub.id !in submitted && Right(f, es, submitted, r)
    ensures Right(f, es, submitted[sub.id := sub], r)
  {
  }

  lemma NewcomerRight(f: Fleet, es: Lanes, submitted: map<Id, Req>, sub: Req, now: real)
    requires FleetOk(f) && f.names != [] && KnownLanes(es, submitted.Keys) && sub.id !in submitted && sub.generated == []
    ensures Right(f, es, submitted[sub.id := sub], sub.(status := Status.Pending, arrival := now))
  {
    forall e ensures LaneAt(es, e, sub.id) == None { assert LaneAt(es, e, sub.id).Some? ==> sub.id in submitted.Keys; }
  }

  lemma AllSubmitted(f: Fleet, es: Lanes, submitted: map<Id, Req>, s: Sched, sub: Req)
    requires FleetOk(f) && f.names != [] && All(Rightly(f, es, submitted), s) && sub.id !in submitted
    ensures All(Rightly(f, es, submitted[sub.id := sub]), s)
  {
    forall r | Right(f, es, submitted, r) ensures Right(f, es, submitted[sub.id := sub], r) {
      RightSubmitted(f, es, submitted, sub, r);
    }
  }

  lemma DeliveredSubmitted(f: Fleet, es: Lanes, submitted: map<Id, Req>, m: map<Id, Req>, sub: Req)
    requires FleetOk(f) && f.names != [] && Delivered(f, es, submitted, m) && sub.id !in submitted
    ensures Delivered(f, es, submitted[sub.id := sub], m)
  {
    forall id | id in m ensures Finisher(f, es, submitted[sub.id := sub], id, m[id]) {
      assert Finisher(f, es, submitted, id, m[id]);
      RightSubmitted(f, es, submitted, sub, m[id]);
    }
  }

  lemma OnTrackSubmitted(f: Fleet, submitted: map<Id, Req>, sub: Req, r: Req)
    requires FleetOk(f) && f.names != [] && sub.id !in submitted && OnTrack(f, submitted, r)
    ensures OnTrack(f, submitted[sub.id := sub], r)
  {
  }

  lemma DroppedSubmitted(f: Fleet, submitted: map<Id, Req>, m: map<Id, Req>, sub: Req)
    requires FleetOk(f) && f.names != [] && sub.id !in submitted && Dropped(f, submitted, m)
    ensures Dropped(f, submitted[sub.id := sub], m)
  {
    forall id | id in m ensures Gone(f, submitted[sub.id := sub], id, m[id]) {
      assert Gone(f, submitted, id, m[id]);
      OnTrackSubmitted(f, submitted, sub, m[id]);
    }
  }

  lemma SubmitTokens(f: Fleet, es: Lanes, submitted: map<Id, Req>, s: Sched, taken: map<Id, Req>, aborted: map<Id, Req>,
                     sub: Req, callback: bool, now: real)
    requires FleetOk(f) && f.names != [] && Tokens(f, es, submitted, s, taken, aborted)
    requires sub.id !in submitted && sub.generated == []
    ensures Tokens(f, es, submitted[sub.id := sub], Add(s, sub, callback, now), taken, aborted)
  {
    var submitted' := submitted[sub.id := sub];
    AllSubmitted(f, es, submitted, s, sub);
    DeliveredSubmitted(f, es, submitted, s.completed, sub);
    DeliveredSubmitted(f, es, submitted, taken, sub);
    DroppedSubmitted(f, submitted, aborted, sub);
    NewcomerRight(f, es, submitted, sub, now);
    AddedAll(Rightly(f, es, submitted'), s, sub, callback, now);
    LanesStillKnown(es, submitted, sub);
  }

  lemma LanesStillKnown(es: Lanes, submitted: map<Id, Req>, sub: Req)
    requires KnownLanes(es, submitted.Keys)
    ensures KnownLanes(es, submitted[sub.id := sub].Keys)
  {
  }

  lemma AddedAll(P: Req -> bool, s: Sched, r: Req, callback: bool, now: real)
    requires All(P, s) && P(r.(status := Status.Pending, arrival := now))
    ensures All(P, Add(s, r, callback, now))
  {
  }

  lemma CollectTokens(f: Fleet, es: Lanes, submitted: map<Id, Req>, s: Sched, taken: map<Id, Req>, aborted: map<Id, Req>, id: Id)
    requires FleetOk(f) && f.names != [] && Tokens(f, es, submitted, s, taken, aborted)
    ensures Tokens(f, es, submitted, Collect(s, id), if id in s.completed then taken[id := s.completed[id]] else taken, aborted)
  {
    CollectedDelivered(f, es, submitted, s.completed, taken, id);
    SameQueues(Rightly(f, es, submitted), s, Collect(s, id));
  }

  lemma SameQueues(P: Req -> bool, s: Sched, s': Sched)
    requires All(P, s) && s'.pending == s.pending && s'.active == s.active && s'.preempted == s.preempted
    ensures All(P, s')
  {
  }

  lemma ClientsTokens(f: Fleet, es: Lanes, submitted: map<Id, Req>, s: Sched, taken: map<Id, Req>, aborted: map<Id, Req>, kv: Ledger)
    requires FleetOk(f) && f.names != [] && Tokens(f, es, submitted, s, taken, aborted)
    ensures Tokens(f, es, submitted, s.(kv := kv), taken, aborted)
  {
    SameQueues(Rightly(f, es, submitted), s, s.(kv := kv));
  }

  lemma CollectedDelivered(f: Fleet, es: Lanes, submitted: map<Id, Req>, m: map<Id, Req>, taken: map<Id, Req>, id: Id)
    requires FleetOk(f) && f.names != [] && Delivered(f, es, submitted, m) && Delivered(f, es, submitted, taken)
    ensures Delivered(f, es, submitted, m - {id})
    ensures id in m ==> Delivered(f, es, submitted, taken[id := m[id]])
  {
    forall x | x in m - {id} ensures Finisher(f, es, submitted, x, (m - {id})[x]) { assert (m - {id})[x] == m[x]; }
  }

  // ----- inference -----

  lemma PrefillRight(f: Fleet, es: Lanes, submitted: map<Id, Req>, r: Req, es': Lanes, r': Req)
    requires FleetOk(f) && f.names != [] && Right(f, es, submitted, r) && r.status.Prefill?
    requires var sv, e := f.served[NameFor(f, r)], NameFor(f, r);
             r' == PrefillReq(sv, r) && LaneAt(es', e, r.id) == PrefillLane(sv, r)
    requires OnlyAt(es', r.id, NameFor(f, r))
    ensures Right(f, es', submitted, r') && Working(r'.status)
  {
    PrefillFollows(f.served[NameFor(f, r)], r);
  }

  lemma DecodeRight(f: Fleet, es: Lanes, submitted: map<Id, Req>, r: Req, es': Lanes, r': Req)
    requires FleetOk(f) && f.names != [] && Right(f, es, submitted, r) && r.status.Generating?
    requires var sv, e := f.served[NameFor(f, r)], NameFor(f, r);
             && CanMove(sv, r, LaneAt(es, e, r.id))
             && (r', LaneAt(es', e, r.id)) == Move(sv, r, LaneAt(es, e, r.id))
    requires OnlyAt(es', r.id, NameFor(f, r))
    ensures Right(f, es', submitted, r') && Working(r'.status)
  {
    var sv, lane := f.served[NameFor(f, r)], LaneAt(es, NameFor(f, r), r.id);
    MoveFollows(sv, r, lane);
    MoveIsNext(sv, r, lane);
    if r'.Finished() { RightDone(f, es', submitted, r'); } else { RightFlying(f, es', submitted, r'); }
  }

  lemma RightFlying(f: Fleet, es: Lanes, submitted: map<Id, Req>, r: Req)
    requires FleetOk(f) && f.names != [] && r.id in submitted && SameRequest(r, submitted[r.id])
    requires r.status.Generating? && OnPath(f, es, r)
    ensures Right(f, es, submitted, r)
  {
  }

  lemma RightDone(f: Fleet, es: Lanes, submitted: map<Id, Req>, r: Req)
    requires FleetOk(f) && f.names != [] && r.id in submitted && SameRequest(r, submitted[r.id])
    requires r.status.Complete? && r.generated == Baseline(f, r)
    requires OnlyAt(es, r.id, NameFor(f, r)) && LaneAt(es, NameFor(f, r), r.id) == None
    ensures Right(f, es, submitted, r)
  {
  }

  /** A step changes status and tokens only. */
  lemma StepSame(f: Fleet, r: Req, e: string, lane: Option<Lane>)
    requires CanStep(f, r, e, lane)
    ensures StepRequest(f, r, e, lane).0.(status := r.status, generated := r.generated) == r
  {
  }

  lemma StepRight(f: Fleet, es: Lanes, submitted: map<Id, Req>, r: Req, es': Lanes, r': Req)
    requires FleetOk(f) && f.names != [] && Right(f, es, submitted, r) && Working(r.status)
    requires CanStep(f, r, NameFor(f, r), LaneAt(es, NameFor(f, r), r.id)) && Stepped(f, es, r, true, es', r')
    requires forall e :: e != NameFor(f, r) ==> LaneAt(es', e, r.id) == LaneAt(es, e, r.id)
    ensures Right(f, es', submitted, r') && Working(r'.status)
    ensures r'.(status := r.status, generated := r.generated) == r
  {
    StepSame(f, r, NameFor(f, r), LaneAt(es, NameFor(f, r), r.id));
    match r.status
    case Prefill => PrefillRight(f, es, submitted, r, es', r');
    case Generating => DecodeRight(f, es, submitted, r, es', r');
    case _ => RightElsewhere(f, es, submitted, r, es');
  }

  lemma Elsewhere(f: Fleet, es: Lanes, rs: seq<Req>, es': Lanes, rs': seq<Req>, id: Id)
    requires CanInfer(f, es, rs) && Inferred(f, es, rs, es', rs') && !HasId(rs, id)
    ensures forall e :: LaneAt(es', e, id) == LaneAt(es, e, id)
  {
    forall e ensures LaneAt(es', e, id) == LaneAt(es, e, id) {
      assert forall i :: 0 <= i < |rs| ==> !AtEngine(f, rs[i], id, e);
    }
  }

  lemma RightElsewhere(f: Fleet, es: Lanes, submitted: map<Id, Req>, r: Req, es': Lanes)
    requires FleetOk(f) && f.names != [] && Right(f, es, submitted, r)
    requires forall e :: LaneAt(es', e, r.id) == LaneAt(es, e, r.id)
    ensures Right(f, es', submitted, r)
  {
  }

  lemma OtherEngines(f: Fleet, es: Lanes, rs: seq<Req>, es': Lanes, rs': seq<Req>, i: nat)
    requires CanInfer(f, es, rs) && Inferred(f, es, rs, es', rs') && f.names != [] && i < |rs|
    ensures forall e :: e != NameFor(f, rs[i]) ==> LaneAt(es', e, rs[i].id) == LaneAt(es, e, rs[i].id)
  {
    forall e | e != NameFor(f, rs[i]) ensures LaneAt(es', e, rs[i].id) == LaneAt(es, e, rs[i].id) {
      assert forall j :: 0 <= j < |rs| ==> !AtEngine(f, rs[j], rs[i].id, e);
    }
  }

  lemma MemberRight(f: Fleet, w: World, log: Log, es': Lanes, rs': seq<Req>, i: nat)
    requires Correct(f, w, log) && CanInfer(f, w.es, w.s.active) && Inferred(f, w.es, w.s.active, es', rs')
    requires i < |w.s.active|
    ensures Right(f, es', log.submitted, rs'[i]) && Working(rs'[i].status)
    ensures rs'[i].(status := w.s.active[i].status, generated := w.s.active[i].generated) == w.s.active[i]
  {
    var rs := w.s.active;
    assert rs[i] in rs && Rightly(f, w.es, log.submitted)(rs[i]);
    assert Stepped(f, w.es, rs[i], true, es', rs'[i]);
    OtherEngines(f, w.es, rs, es', rs', i);
    StepRight(f, w.es, log.submitted, rs[i], es', rs'[i]);
  }

  lemma DistinctIds(rs: seq<Req>)
    requires Unique(rs)
    ensures forall i, j :: 0 <= i < j < |rs| ==> rs[i].id != rs[j].id
  {
    forall i, j | 0 <= i < j < |rs| ensures rs[i].id != rs[j].id {
      assert rs == rs[..j] + rs[j..];
      CountAppend(rs[..j], rs[j..], rs[i].id);
      assert rs[..j][i] == rs[i] && rs[j..][0] == rs[j];
      CountMember(rs[..j], rs[i]);
      CountMember(rs[j..], rs[j]);
      assert Count(rs, rs[i].id) <= 1;
    }
  }

  lemma BatchCanInfer(f: Fleet, w: World, log: Log)
    requires Correct(f, w, log)
    ensures CanInfer(f, w.es, w.s.active)
  {
    var rs := w.s.active;
    LocatedWell(w.s, log.h);
    WellActive(w.s);
    DistinctIds(rs);
    forall i | 0 <= i < |rs|
      ensures CanStep(f, rs[i], NameFor(f, rs[i]), LaneAt(w.es, NameFor(f, rs[i]), rs[i].id))
    {
      assert rs[i] in rs && Rightly(f, w.es, log.submitted)(rs[i]);
      RightCanStep(f, w.es, log.submitted, rs[i]);
    }
  }

  lemma RightCanStep(f: Fleet, es: Lanes, submitted: map<Id, Req>, r: Req)
    requires FleetOk(f) && f.names != [] && Right(f, es, submitted, r)
    ensures CanStep(f, r, NameFor(f, r), LaneAt(es, NameFor(f, r), r.id))
  {
    if r.status.Generating? { MoveIsNext(f.served[NameFor(f, r)], r, LaneAt(es, NameFor(f, r), r.id)); }
  }

  lemma InferMay(cfg: Config, f: Fleet, w: World, log: Log, es': Lanes, rs': seq<Req>)
    requires CanInfer(f, w.es, w.s.active) && Inferred(f, w.es, w.s.active, es', rs') && SameMembers(w.s.active, rs')
    ensures May(cfg, f, w, log, Infer(rs', es'))
    ensures Act(cfg, f, w, log, Infer(rs', es')) == World(w.s.(active := rs'), es') && Noted(w, log, Infer(rs', es')) == log
  {
    assert w.s.(active := rs', kv := w.s.kv) == w.s.(active := rs');
  }

  /** The batch can always take an inference step, and what comes out is the same batch. */
  lemma InferAllowed(cfg: Config, f: Fleet, w: World, log: Log, es': Lanes, rs': seq<Req>)
    requires Correct(f, w, log)
    ensures CanInfer(f, w.es, w.s.active)
    ensures Inferred(f, w.es, w.s.active, es', rs') ==> May(cfg, f, w, log, Infer(rs', es'))
  {
    BatchCanInfer(f, w, log);
    if Inferred(f, w.es, w.s.active, es', rs') {
      InferredSame(f, w, log, es', rs');
      InferMay(cfg, f, w, log, es', rs');
    }
  }

  lemma InferredSame(f: Fleet, w: World, log: Log, es': Lanes, rs': seq<Req>)
    requires Correct(f, w, log) && CanInfer(f, w.es, w.s.active) && Inferred(f, w.es, w.s.active, es', rs')
    ensures SameMembers(w.s.active, rs')
  {
    var rs := w.s.active;
    forall i | 0 <= i < |rs|
      ensures rs'[i].(status := rs[i].status, generated := rs[i].generated) == rs[i] && Working(rs'[i].status)
    {
      MemberRight(f, w, log, es', rs', i);
    }
  }

  lemma NotActive(s: Sched, h: History, id: Id)
    requires Located(s, h)
    requires || HasId(s.pending, id) || HasId(s.preempted, id) || id in s.completed || id in h.collected
             || id in h.cancelled + h.dropped
    ensures !HasId(s.active, id)
  {
    CountHas(s.pending, id);
    CountHas(s.active, id);
    CountHas(s.preempted, id);
    assert Places(s, h, id) == In(id, h.added);
  }

  lemma BystandersRight(f: Fleet, w: World, log: Log, es': Lanes, rs': seq<Req>, r: Req)
    requires Correct(f, w, log) && CanInfer(f, w.es, w.s.active) && Inferred(f, w.es, w.s.active, es', rs')
    requires Right(f, w.es, log.submitted, r)
    requires HasId(w.s.pending, r.id) || HasId(w.s.preempted, r.id) || r.id in w.s.completed || r.id in log.taken
    ensures Right(f, es', log.submitted, r)
  {
    NotActive(w.s, log.h, r.id);
    Elsewhere(f, w.es, w.s.active, es', rs', r.id);
    RightElsewhere(f, w.es, log.submitted, r, es');
  }

  lemma InferredKnown(f: Fleet, w: World, log: Log, es': Lanes, rs': seq<Req>)
    requires Correct(f, w, log) && CanInfer(f, w.es, w.s.active) && Inferred(f, w.es, w.s.active, es', rs')
    ensures KnownLanes(es', log.submitted.Keys)
  {
    var rs := w.s.active;
    forall e, id | LaneAt(es', e, id).Some? ensures id in log.submitted.Keys {
      if HasId(rs, id) {
        var i :| 0 <= i < |rs| && rs[i].id == id;
        assert rs[i] in rs && Rightly(f, w.es, log.submitted)(rs[i]);
      } else {
        Elsewhere(f, w.es, rs, es', rs', id);
        assert LaneAt(w.es, e, id).Some?;
      }
    }
  }

  lemma AllReplaced(P: Req -> bool, P': Req -> bool, s: Sched, rs: seq<Req>)
    requires All(P, s) && forall r :: r in s.pending || r in s.preempted ==> P'(r)
    requires forall r :: r in rs ==> P'(r) && Working(r.status)
    ensures All(P', s.(active := rs))
  {
  }

  lemma QueuedRight(f: Fleet, w: World, log: Log, es': Lanes, rs': seq<Req>, r: Req)
    requires Correct(f, w, log) && CanInfer(f, w.es, w.s.active) && Inferred(f, w.es, w.s.active, es', rs')
    requires r in w.s.pending || r in w.s.preempted
    ensures Right(f, es', log.submitted, r)
  {
    assert Rightly(f, w.es, log.submitted)(r);
    assert HasId(w.s.pending, r.id) || HasId(w.s.preempted, r.id);
    BystandersRight(f, w, log, es', rs', r);
  }

  lemma InferredAll(f: Fleet, w: World, log: Log, es': Lanes, rs': seq<Req>)
    requires Correct(f, w, log) && CanInfer(f, w.es, w.s.active) && Inferred(f, w.es, w.s.active, es', rs')
    ensures All(Rightly(f, es', log.submitted), w.s.(active := rs'))
  {
    forall r | r in w.s.pending || r in w.s.preempted ensures Right(f, es', log.submitted, r) {
      QueuedRight(f, w, log, es', rs', r);
    }
    forall r | r in rs' ensures Right(f, es', log.submitted, r) && Working(r.status) {
      var i :| 0 <= i < |rs'| && rs'[i] == r;
      MemberRight(f, w, log, es', rs', i);
    }
    AllReplaced(Rightly(f, w.es, log.submitted), Rightly(f, es', log.submitted), w.s, rs');
  }

  lemma InferredDelivered(f: Fleet, w: World, log: Log, es': Lanes, rs': seq<Req>)
    requires Correct(f, w, log) && CanInfer(f, w.es, w.s.active) && Inferred(f, w.es, w.s.active, es', rs')
    ensures Delivered(f, es', log.submitted, w.s.completed) && Delivered(f, es', log.submitted, log.taken)
  {
    forall id | id in w.s.completed ensures Right(f, es', log.submitted, w.s.completed[id]) {
      BystandersRight(f, w, log, es', rs', w.s.completed[id]);
    }
    forall id | id in log.taken ensures Right(f, es', log.submitted, log.taken[id]) {
      BystandersRight(f, w, log, es', rs', log.taken[id]);
    }
  }

  lemma InferTokens(f: Fleet, w: World, log: Log, es': Lanes, rs': seq<Req>)
    requires Correct(f, w, log) && CanInfer(f, w.es, w.s.active) && Inferred(f, w.es, w.s.active, es', rs')
    ensures Tokens(f, es', log.submitted, w.s.(active := rs'), log.taken, log.aborted)
  {
    InferredAll(f, w, log, es', rs');
    InferredDelivered(f, w, log, es', rs');
    InferredKnown(f, w, log, es', rs');
  }

  // ----- every action -----

  lemma TokensAt(f: Fleet, w: World, log: Log, es: Lanes, submitted: map<Id, Req>, s: Sched, taken: map<Id, Req>, aborted: map<Id, Req>)
    requires FleetOk(f) && f.names != [] && Tokens(f, es, submitted, s, taken, aborted)
    requires w == World(s, es) && log.submitted == submitted && log.taken == taken && log.aborted == aborted
    ensures TokensRight(f, w, log)
  {
  }

  lemma QuietActTokens(cfg: Config, f: Fleet, w: World, log: Log, a: Action)
    requires FleetOk(f) && f.names != [] && TokensRight(f, w, log) && log.h.added == log.submitted.Keys
    requires May(cfg, f, w, log, a) && !a.Tick? && !a.Infer?
    ensures TokensRight(f, Act(cfg, f, w, log, a), Noted(w, log, a))
  {
    var w', log' := Act(cfg, f, w, log, a), Noted(w, log, a);
    match a
    case Submit(r, callback, now) =>
      SubmitTokens(f, w.es, log.submitted, w.s, log.taken, log.aborted, r, callback, now);
      TokensAt(f, w', log', w.es, log.submitted[r.id := r], Add(w.s, r, callback, now), log.taken, log.aborted);
    case Clients(kv) =>
      ClientsTokens(f, w.es, log.submitted, w.s, log.taken, log.aborted, kv);
      assert w.s.(active := w.s.active, kv := kv) == w.s.(kv := kv);
      TokensAt(f, w', log', w.es, log.submitted, w.s.(kv := kv), log.taken, log.aborted);
    case Collecting(id) =>
      CollectTokens(f, w.es, log.submitted, w.s, log.taken, log.aborted, id);
      TokensAt(f, w', log', w.es, log.submitted, Collect(w.s, id), log'.taken, log.aborted);
    case Aborting(id) =>
      AbortTokens(f, w.es, log.submitted, w.s, log.taken, log.aborted, id);
      TokensAt(f, w', log', w.es, log.submitted, Abort(w.s, id), log.taken, log'.aborted);
  }

  lemma TickActTokens(cfg: Config, f: Fleet, w: World, log: Log, a: Action)
    requires FleetOk(f) && f.names != [] && TokensRight(f, w, log) && May(cfg, f, w, log, a) && a.Tick?
    ensures TokensRight(f, Act(cfg, f, w, log, a), Noted(w, log, a))
  {
    var w' := Act(cfg, f, w, log, a);
    TickTokens(cfg, f, w.es, log.submitted, w.s, log.taken, log.aborted, a.now);
    TokensAt(f, w', Noted(w, log, a), w.es, log.submitted, w'.s, log.taken, log.aborted);
  }

  lemma MayInfer(cfg: Config, f: Fleet, w: World, log: Log, a: Action)
    requires May(cfg, f, w, log, a) && a.Infer?
    ensures CanInfer(f, w.es, w.s.active) && Inferred(f, w.es, w.s.active, a.es, a.active)
    ensures Act(cfg, f, w, log, a) == World(w.s.(active := a.active), a.es) && Noted(w, log, a) == log
  {
    assert w.s.(active := a.active, kv := w.s.kv) == w.s.(active := a.active);
  }

  lemma InferActTokens(cfg: Config, f: Fleet, w: World, log: Log, a: Action)
    requires Correct(f, w, log) && May(cfg, f, w, log, a) && a.Infer?
    ensures TokensRight(f, Act(cfg, f, w, log, a), Noted(w, log, a))
  {
    MayInfer(cfg, f, w, log, a);
    InferTokens(f, w, log, a.es, a.active);
    TokensAt(f, Act(cfg, f, w, log, a), log, a.es, log.submitted, w.s.(active := a.active), log.taken, log.aborted);
  }

  lemma EnginesStay(cfg: Config, f: Fleet, w: World, log: Log, a: Action)
    requires May(cfg, f, w, log, a)
    ensures Act(cfg, f, w, log, a).es.Keys == w.es.Keys
  {
  }

  /** Every action keeps every request on its sequential path, wherever it is. */
  lemma ActCorrect(cfg: Config, f: Fleet, w: World, log: Log, a: Action)
    requires Correct(f, w, log) && May(cfg, f, w, log, a)
    ensures Correct(f, Act(cfg, f, w, log, a), Noted(w, log, a))
  {
    BookKept(cfg, f, w, log, a);
    EnginesStay(cfg, f, w, log, a);
    match a
    case Tick(_) => TickActTokens(cfg, f, w, log, a);
    case Infer(_, _) => InferActTokens(cfg, f, w, log, a);
    case _ => QuietActTokens(cfg, f, w, log, a);
  }

  lemma SubmittedStays(w: World, log: Log, a: Action, id: Id)
    requires id in log.submitted && (a.Submit? ==> a.r.id != id)
    ensures id in Noted(w, log, a).submitted && Noted(w, log, a).submitted[id] == log.submitted[id]
  {
  }

  // ----- runs -----

  ghost predicate ServerRun(cfg: Config, f: Fleet, w: World, log: Log, acts: seq<Action>)
    decreases |acts|
  {
    acts == [] || (May(cfg, f, w, log, acts[0])
                   && ServerRun(cfg, f, Act(cfg, f, w, log, acts[0]), Noted(w, log, acts[0]), acts[1..]))
  }

  ghost function ServerEnd(cfg: Config, f: Fleet, w: World, log: Log, acts: seq<Action>): (World, Log)
    requires ServerRun(cfg, f, w, log, acts)
    decreases |acts|
  {
    if acts == [] then (w, log)
    else ServerEnd(cfg, f, Act(cfg, f, w, log, acts[0]), Noted(w, log, acts[0]), acts[1..])
  }

  lemma {:induction false} RunCorrect(cfg: Config, f: Fleet, w: World, log: Log, acts: seq<Action>)
    requires Correct(f, w, log) && ServerRun(cfg, f, w, log, acts)
    ensures Correct(f, ServerEnd(cfg, f, w, log, acts).0, ServerEnd(cfg, f, w, log, acts).1)
    decreases |acts|
  {
    if acts != [] {
      ActCorrect(cfg, f, w, log, acts[0]);
      RunCorrect(cfg, f, Act(cfg, f, w, log, acts[0]), Noted(w, log, acts[0]), acts[1..]);
    }
  }

  // ----- one pass of the generation loop -----

  lemma TickMay(cfg: Config, f: Fleet, w: World, log: Log, now: real)
    requires now >= log.h.clock && Well(w.s) && !Step(cfg, w.s, now).Hangs?
    ensures May(cfg, f, w, log, Tick(now))
    ensures Act(cfg, f, w, log, Tick(now)) == World(Step(cfg, w.s, now).s, w.es)
    ensures Noted(w, log, Tick(now)).h.clock == now
  {
  }

  lemma Ticked(cfg: Config, f: Fleet, w: World, log: Log, now: real)
    requires Correct(f, w, log) && now >= log.h.clock && Well(w.s)
    requires !Step(cfg, w.s, now).Hangs?
    ensures CanInfer(f, w.es, Step(cfg, w.s, now).s.active)
  {
    TickMay(cfg, f, w, log, now);
    ActCorrect(cfg, f, w, log, Tick(now));
    BatchCanInfer(f, Act(cfg, f, w, log, Tick(now)), Noted(w, log, Tick(now)));
  }

  /** What the pass does: nothing, or a scheduling step, and then an inference step if there is a batch; a step that
      raises ends the pass. */
  ghost predicate Passed(cfg: Config, f: Fleet, w: World, now: real, w': World)
    requires Well(w.s)
  {
    if Quiet(w.s) then w' == w
    else
      var s1 := Step(cfg, w.s, now);
      && !s1.Hangs?
      && if s1.Raises? || s1.s.active == [] then w' == World(s1.s, w.es) else Batched(f, World(s1.s, w.es), w')
  }

  /** An inference step over the batch. */
  ghost predicate Batched(f: Fleet, w: World, w': World) {
    && w'.s == w.s.(active := w'.s.active) && CanInfer(f, w.es, w.s.active)
    && Inferred(f, w.es, w.s.active, w'.es, w'.s.active)
  }

  lemma BatchActs(cfg: Config, f: Fleet, w: World, log: Log, w': World)
    requires Correct(f, w, log) && Batched(f, w, w')
    ensures var a := Infer(w'.s.active, w'.es);
            May(cfg, f, w, log, a) && Act(cfg, f, w, log, a) == w' && Noted(w, log, a) == log && Correct(f, w', log)
  {
    InferredSame(f, w, log, w'.es, w'.s.active);
    InferMay(cfg, f, w, log, w'.es, w'.s.active);
    ActCorrect(cfg, f, w, log, Infer(w'.s.active, w'.es));
  }

  lemma OneAct(cfg: Config, f: Fleet, w: World, log: Log, a: Action)
    requires May(cfg, f, w, log, a)
    ensures ServerRun(cfg, f, w, log, [a])
    ensures ServerEnd(cfg, f, w, log, [a]) == (Act(cfg, f, w, log, a), Noted(w, log, a))
  {
    assert [a][1..] == [];
  }

  lemma {:induction false} ActsAppend(cfg: Config, f: Fleet, w: World, log: Log, a: seq<Action>, w1: World, log1: Log, b: seq<Action>)
    requires ServerRun(cfg, f, w, log, a) && ServerEnd(cfg, f, w, log, a) == (w1, log1) && ServerRun(cfg, f, w1, log1, b)
    ensures ServerRun(cfg, f, w, log, a + b) && ServerEnd(cfg, f, w, log, a + b) == ServerEnd(cfg, f, w1, log1, b)
    decreases |a|
  {
    if a == [] {
      assert a + b == b;
    } else {
      RunTail(a, b);
      ActsAppend(cfg, f, Act(cfg, f, w, log, a[0]), Noted(w, log, a[0]), a[1..], w1, log1, b);
    }
  }

  lemma RunTail<T>(a: seq<T>, b: seq<T>)
    requires a != []
    ensures (a + b)[0] == a[0] && (a + b)[1..] == a[1..] + b
  {
  }

  /** A run of the server from (w, log) to (w', log'). */
  ghost predicate Leads(cfg: Config, f: Fleet, w: World, log: Log, acts: seq<Action>, w': World, log': Log) {
    ServerRun(cfg, f, w, log, acts) && ServerEnd(cfg, f, w, log, acts) == (w', log') && Correct(f, w', log')
  }

  lemma LeadsOn(cfg: Config, f: Fleet, w: World, log: Log, a: seq<Action>, w1: World, log1: Log, b: seq<Action>, w2: World, log2: Log)
    requires Leads(cfg, f, w, log, a, w1, log1) && Leads(cfg, f, w1, log1, b, w2, log2)
    ensures Leads(cfg, f, w, log, a + b, w2, log2)
  {
    ActsAppend(cfg, f, w, log, a, w1, log1, b);
  }

  lemma ActLeads(cfg: Config, f: Fleet, w: World, log: Log, a: Action)
    requires Correct(f, w, log) && May(cfg, f, w, log, a)
    ensures Leads(cfg, f, w, log, [a], Act(cfg, f, w, log, a), Noted(w, log, a))
  {
    OneAct(cfg, f, w, log, a);
    ActCorrect(cfg, f, w, log, a);
  }

  lemma TickLeads(cfg: Config, f: Fleet, w: World, log: Log, now: real)
    requires Correct(f, w, log) && now >= log.h.clock && Well(w.s)
    requires !Step(cfg, w.s, now).Hangs?
    ensures Leads(cfg, f, w, log, [Tick(now)], World(Step(cfg, w.s, now).s, w.es), Noted(w, log, Tick(now)))
    ensures Noted(w, log, Tick(now)).h.clock == now
  {
    TickMay(cfg, f, w, log, now);
    ActLeads(cfg, f, w, log, Tick(now));
  }

  lemma BatchLeads(cfg: Config, f: Fleet, w: World, log: Log, w': World)
    requires Correct(f, w, log) && Batched(f, w, w')
    ensures Leads(cfg, f, w, log, [Infer(w'.s.active, w'.es)], w', log)
  {
    BatchActs(cfg, f, w, log, w');
    OneAct(cfg, f, w, log, Infer(w'.s.active, w'.es));
  }

  function AfterPass(w: World, log: Log, now: real): Log { if Quiet(w.s) then log else Noted(w, log, Tick(now)) }

  /** A pass is a run of the server: everything proved of runs holds of the generation loop. */
  lemma PassRuns(cfg: Config, f: Fleet, w: World, log: Log, now: real, w': World) returns (acts: seq<Action>, log': Log)
    requires Correct(f, w, log) && now >= log.h.clock && Well(w.s) && Passed(cfg, f, w, now, w')
    ensures log' == AfterPass(w, log, now) && Leads(cfg, f, w, log, acts, w', log') && log'.h.clock <= now
  {
    acts, log' := [], log;
    if Quiet(w.s) {
      return;
    }
    var step := Step(cfg, w.s, now);
    var w1 := World(step.s, w.es);
    acts, log' := [Tick(now)], Noted(w, log, Tick(now));
    TickLeads(cfg, f, w, log, now);
    if step.Returns? && w1.s.active != [] {
      BatchLeads(cfg, f, w1, log', w');
      LeadsOn(cfg, f, w, log, acts, w1, log', [Infer(w'.s.active, w'.es)], w', log');
      acts := acts + [Infer(w'.s.active, w'.es)];
    }
  }

  // ----- what a caller sees -----

  /** A server that has just started: empty queues, no caches. */
  function Start(f: Fleet, kv: Ledger): World { World(Initial(kv), map e | e in f.served :: map[]) }

  function NothingYet(clock: real): Log { Log(NoHistory(clock), map[], map[], map[]) }

  lemma StartCorrect(f: Fleet, kv: Ledger, clock: real)
    requires FleetOk(f) && f.names != []
    ensures Correct(f, Start(f, kv), NothingYet(clock))
  {
    assert Inv(Initial(kv), NoHistory(clock));
    assert forall e, id :: LaneAt(Start(f, kv).es, e, id) == None;
  }

  ghost predicate AllOnTrack(f: Fleet, w: World, log: Log)
    requires FleetOk(f) && f.names != []
  {
    && (forall r :: r in w.s.pending || r in w.s.active || r in w.s.preempted ==> OnTrack(f, log.submitted, r))
    && (forall id :: id in w.s.completed ==>
         id in log.submitted && w.s.completed[id].generated == Baseline(f, log.submitted[id]))
    && (forall id :: id in log.taken ==>
         id in log.submitted && log.taken[id].generated == Baseline(f, log.submitted[id]))
    && (forall id :: id in log.aborted ==> log.aborted[id].id == id && OnTrack(f, log.submitted, log.aborted[id]))
  }

  lemma CorrectOnTrack(f: Fleet, w: World, log: Log)
    requires Correct(f, w, log)
    ensures AllOnTrack(f, w, log)
  {
    forall r | r in w.s.pending || r in w.s.active || r in w.s.preempted ensures OnTrack(f, log.submitted, r) {
      assert Rightly(f, w.es, log.submitted)(r);
      RightOnTrack(f, w.es, log.submitted, r);
    }
    forall id | id in w.s.completed
      ensures id in log.submitted && w.s.completed[id].generated == Baseline(f, log.submitted[id])
    {
      assert Finisher(f, w.es, log.submitted, id, w.s.completed[id]);
      RightOnTrack(f, w.es, log.submitted, w.s.completed[id]);
    }
    forall id | id in log.taken ensures id in log.submitted && log.taken[id].generated == Baseline(f, log.submitted[id]) {
      assert Finisher(f, w.es, log.submitted, id, log.taken[id]);
      RightOnTrack(f, w.es, log.submitted, log.taken[id]);
    }
  }

  /** On every run of the server, at every moment, every request has a prefix of its sequential tokens, and
      everything completed or handed out has exactly those, whatever else is aborted. */
  lemma ServesSequentialTokens(cfg: Config, f: Fleet, kv: Ledger, clock: real, acts: seq<Action>)
    requires FleetOk(f) && f.names != [] && ServerRun(cfg, f, Start(f, kv), NothingYet(clock), acts)
    ensures var end := ServerEnd(cfg, f, Start(f, kv), NothingYet(clock), acts);
            Correct(f, end.0, end.1) && AllOnTrack(f, end.0, end.1)
  {
    StartCorrect(f, kv, clock);
    RunCorrect(cfg, f, Start(f, kv), NothingYet(clock), acts);
    var end := ServerEnd(cfg, f, Start(f, kv), NothingYet(clock), acts);
    CorrectOnTrack(f, end.0, end.1);
  }

  /** A request the batch or the preempted queue holds, past its prefill and not done. */
  predicate Started(s: Sched, r: Req) { (r in s.active || r in s.preempted) && (r.status.Generating? || r.status.Preempted?) }

  /** A cache with one entry per layer for every position of the request but the newest token's. */
  predicate LaneFits(f: Fleet, r: Req, e: string, lane: Lane) {
    && lane.len == |r.prompt| + |r.generated| - 1
    && e in f.served && Sized(lane.cache, f.served[e].m.layers, lane.len)
  }

  lemma PathCached(f: Fleet, es: Lanes, r: Req)
    requires FleetOk(f) && f.names != [] && OnPath(f, es, r)
    ensures LaneAt(es, NameFor(f, r), r.id).Some? && LaneFits(f, r, NameFor(f, r), LaneAt(es, NameFor(f, r), r.id).value)
  {
  }

  lemma QueuedIsRight(f: Fleet, w: World, log: Log, r: Req)
    requires Correct(f, w, log) && (r in w.s.pending || r in w.s.active || r in w.s.preempted)
    ensures Right(f, w.es, log.submitted, r)
  {
    assert Rightly(f, w.es, log.submitted)(r);
  }

  lemma StartedCached(f: Fleet, w: World, log: Log, r: Req)
    requires Correct(f, w, log) && Started(w.s, r)
    ensures var lane := LaneAt(w.es, NameFor(f, r), r.id); lane.Some? && LaneFits(f, r, NameFor(f, r), lane.value)
  {
    QueuedIsRight(f, w, log, r);
    PathCached(f, w.es, r);
  }

  /** An engine caches exactly the requests it serves that are prefilled and unfinished, preempted ones included,
      each at prompt + generated - 1 positions in every layer. Aborted requests are AbortLeaksCache's matter. */
  lemma CachesExactly(f: Fleet, w: World, log: Log, e: string, id: Id)
    requires Correct(f, w, log) && id !in log.aborted
    ensures LaneAt(w.es, e, id).Some? <==> exists r :: Started(w.s, r) && r.id == id && NameFor(f, r) == e
    ensures forall r :: Started(w.s, r) && r.id == id && NameFor(f, r) == e ==> LaneFits(f, r, e, LaneAt(w.es, e, id).value)
  {
    forall r | Started(w.s, r) && r.id == id && NameFor(f, r) == e
      ensures LaneAt(w.es, e, id).Some? && LaneFits(f, r, e, LaneAt(w.es, e, id).value)
    {
      StartedCached(f, w, log, r);
    }
    if LaneAt(w.es, e, id).Some? { var r := OwnerOf(f, w, log, e, id); }
  }

  lemma NotDelivered(f: Fleet, es: Lanes, submitted: map<Id, Req>, m: map<Id, Req>, e: string, id: Id)
    requires FleetOk(f) && f.names != [] && Delivered(f, es, submitted, m) && LaneAt(es, e, id).Some?
    ensures id !in m
  {
    assert id in m ==> Finisher(f, es, submitted, id, m[id]);
  }

  lemma Queued(s: Sched, h: History, id: Id) returns (r: Req)
    requires Located(s, h) && id in h.added && id !in s.completed && id !in h.collected
    requires id !in h.cancelled + h.dropped
    ensures r.id == id && (r in s.pending || r in s.active || r in s.preempted)
  {
    assert Places(s, h, id) == 1;
    CountHas(s.pending, id);
    CountHas(s.active, id);
    CountHas(s.preempted, id);
    var rs := if HasId(s.pending, id) then s.pending else if HasId(s.active, id) then s.active else s.preempted;
    var i :| 0 <= i < |rs| && rs[i].id == id;
    r := rs[i];
  }

  lemma CachedStatus(f: Fleet, es: Lanes, submitted: map<Id, Req>, r: Req, e: string)
    requires FleetOk(f) && f.names != [] && Right(f, es, submitted, r) && LaneAt(es, e, r.id).Some?
    ensures (r.status.Generating? || r.status.Preempted?) && NameFor(f, r) == e
  {
    assert Uncached(es, r.id) ==> LaneAt(es, e, r.id) == None;
    assert OnlyAt(es, r.id, NameFor(f, r)) && e != NameFor(f, r) ==> LaneAt(es, e, r.id) == None;
  }

  lemma CachedStarted(f: Fleet, w: World, log: Log, e: string, r: Req)
    requires Correct(f, w, log) && LaneAt(w.es, e, r.id).Some?
    requires r in w.s.pending || r in w.s.active || r in w.s.preempted
    ensures Started(w.s, r) && NameFor(f, r) == e
  {
    QueuedIsRight(f, w, log, r);
    StartedWhere(f, w, log, r);
    CachedStatus(f, w.es, log.submitted, r, e);
  }

  lemma StartedWhere(f: Fleet, w: World, log: Log, r: Req)
    requires Correct(f, w, log) && (r in w.s.pending || r in w.s.active || r in w.s.preempted)
    ensures r.status.Generating? || r.status.Preempted? ==> Started(w.s, r)
  {
  }

  lemma OwnerOf(f: Fleet, w: World, log: Log, e: string, id: Id) returns (r: Req)
    requires Correct(f, w, log) && LaneAt(w.es, e, id).Some? && id !in log.aborted
    ensures Started(w.s, r) && r.id == id && NameFor(f, r) == e
  {
    assert id in log.submitted.Keys;
    NotDelivered(f, w.es, log.submitted, w.s.completed, e, id);
    NotDelivered(f, w.es, log.submitted, log.taken, e, id);
    r := Queued(w.s, log.h, id);
    CachedStarted(f, w, log, e, r);
  }

  lemma UnderLimit(sv: Served, r: Req, lane: Option<Lane>)
    requires Shapes(sv.m) && InFlight(sv, r, lane)
    ensures 0 < |r.generated| < r.maxNew && lane.Some? && lane.value.len == |r.prompt| + |r.generated| - 1
  {
    assert !StopsAt(sv, r.prompt, r.maxNew, |r.generated|);
  }

  /** What the scheduler estimates for a request is enough: no cache an engine holds for a request that was not aborted
      ever has more positions than the slots of its estimate. */
  lemma EstimateCoversCache(cfg: Config, f: Fleet, w: World, log: Log, e: string, id: Id) returns (r: Req)
    requires Correct(f, w, log) && id !in log.aborted && LaneAt(w.es, e, id).Some?
    ensures Started(w.s, r) && r.id == id && LaneFits(f, r, e, LaneAt(w.es, e, id).value)
    ensures LaneAt(w.es, e, id).value.len < Position(Need(cfg, r), 0, cfg.blockSize)
  {
    r := OwnerOf(f, w, log, e, id);
    StartedCached(f, w, log, r);
    QueuedIsRight(f, w, log, r);
    UnderLimit(f.served[e], r, LaneAt(w.es, e, id));
    NeedCovers(cfg, r, 0);
  }

  // ----- what an abort leaves behind -----

  lemma AbortedStays(w: World, log: Log, a: Action, id: Id)
    requires id in log.aborted
    ensures id in Noted(w, log, a).aborted
  {
  }

  lemma OnlyInferTouches(cfg: Config, f: Fleet, w: World, log: Log, a: Action)
    requires May(cfg, f, w, log, a) && !a.Infer?
    ensures Act(cfg, f, w, log, a).es == w.es
  {
  }

  lemma AbortedUntouched(cfg: Config, f: Fleet, w: World, log: Log, a: Action, e: string, id: Id)
    requires Correct(f, w, log) && May(cfg, f, w, log, a) && id in log.aborted
    ensures LaneAt(Act(cfg, f, w, log, a).es, e, id) == LaneAt(w.es, e, id)
  {
    if a.Infer? {
      MayInfer(cfg, f, w, log, a);
      InferUntouched(f, w, log, a.es, a.active, e, id);
    } else {
      OnlyInferTouches(cfg, f, w, log, a);
    }
  }

  lemma InferUntouched(f: Fleet, w: World, log: Log, es': Lanes, rs': seq<Req>, e: string, id: Id)
    requires Correct(f, w, log) && CanInfer(f, w.es, w.s.active) && Inferred(f, w.es, w.s.active, es', rs') && id in log.aborted
    ensures LaneAt(es', e, id) == LaneAt(w.es, e, id)
  {
    NotActive(w.s, log.h, id);
    Elsewhere(f, w.es, w.s.active, es', rs', id);
  }

  /** No action ever touches the cache of an aborted request again. */
  lemma {:induction false} AbortedForGood(cfg: Config, f: Fleet, w: World, log: Log, acts: seq<Action>, e: string, id: Id)
    requires Correct(f, w, log) && ServerRun(cfg, f, w, log, acts) && id in log.aborted
    ensures LaneAt(ServerEnd(cfg, f, w, log, acts).0.es, e, id) == LaneAt(w.es, e, id)
    decreases |acts|
  {
    if acts != [] {
      AbortedUntouched(cfg, f, w, log, acts[0], e, id);
      AbortedStays(w, log, acts[0], id);
      ActCorrect(cfg, f, w, log, acts[0]);
      AbortedForGood(cfg, f, Act(cfg, f, w, log, acts[0]), Noted(w, log, acts[0]), acts[1..], e, id);
    }
  }

  lemma AbortNoted(cfg: Config, f: Fleet, w: World, log: Log, id: Id)
    requires Victim(w.s, id).Some?
    ensures id in Noted(w, log, Aborting(id)).aborted && Act(cfg, f, w, log, Aborting(id)).es == w.es
  {
    VictimIs(w.s, id);
  }

  /** Aborting does not free what the engine caches: after an abort, and whatever happens later, an engine holds a cache
      of the request if and only if the request had been prefilled there and was unfinished, and then it holds the
      cache of that moment. */
  lemma AbortLeaksCache(cfg: Config, f: Fleet, w: World, log: Log, e: string, id: Id, acts: seq<Action>)
    requires Correct(f, w, log) && id !in log.aborted && Victim(w.s, id).Some?
    requires May(cfg, f, w, log, Aborting(id))
    requires ServerRun(cfg, f, Act(cfg, f, w, log, Aborting(id)), Noted(w, log, Aborting(id)), acts)
    ensures var end := ServerEnd(cfg, f, Act(cfg, f, w, log, Aborting(id)), Noted(w, log, Aborting(id)), acts).0;
            && LaneAt(end.es, e, id) == LaneAt(w.es, e, id)
            && (LaneAt(end.es, e, id).Some? <==> exists r :: Started(w.s, r) && r.id == id && NameFor(f, r) == e)
            && forall r :: Started(w.s, r) && r.id == id && NameFor(f, r) == e ==> LaneFits(f, r, e, LaneAt(end.es, e, id).value)
  {
    CachesExactly(f, w, log, e, id);
    AbortNoted(cfg, f, w, log, id);
    ActCorrect(cfg, f, w, log, Aborting(id));
    AbortedForGood(cfg, f, Act(cfg, f, w, log, Aborting(id)), Noted(w, log, Aborting(id)), acts, e, id);
  }

  lemma ActiveOnce(s: Sched, h: History, r: Req)
    requires Located(s, h) && r in s.active
    ensures Find(s.active, r.id) == Some(r) && r.id !in s.completed
  {
    LocatedWell(s, h);
    WellActive(s);
    assert HasId(s.active, r.id);
    FindHas(s.active, r.id);
    SameEntry(s.active, r, Find(s.active, r.id).value);
    CountMember(s.active, r);
    assert Places(s, h, r.id) == In(r.id, h.added);
  }

  /** Aborting a request that is complete but not reaped yet discards it with all its tokens: it becomes FAILED and
      is never among the completed. */
  lemma AbortDiscardsComplete(cfg: Config, f: Fleet, w: World, log: Log, r: Req)
    requires Correct(f, w, log) && r in w.s.active && r.status.Complete?
    ensures May(cfg, f, w, log, Aborting(r.id))
    ensures Victim(w.s, r.id) == Some(r) && r.generated == Baseline(f, log.submitted[r.id])
    ensures Noted(w, log, Aborting(r.id)).aborted == log.aborted[r.id := r.(status := Failed)]
    ensures r.id !in Abort(w.s, r.id).completed && Act(cfg, f, w, log, Aborting(r.id)).s == Abort(w.s, r.id)
  {
    assert Rightly(f, w.es, log.submitted)(r);
    RightOnTrack(f, w.es, log.submitted, r);
    ActiveOnce(w.s, log.h, r);
    AbortActs(cfg, f, w, log, r.id);
  }

  lemma AbortActs(cfg: Config, f: Fleet, w: World, log: Log, id: Id)
    ensures var a := Aborting(id);
            && May(cfg, f, w, log, a) && Act(cfg, f, w, log, a) == World(Abort(w.s, id), w.es)
            && Noted(w, log, a).aborted == WithAborted(log.aborted, id, Victim(w.s, id))
            && Noted(w, log, a).submitted == log.submitted
  {
  }
}
