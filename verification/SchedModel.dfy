/** The continuous-batching scheduler as a value: queues, counters and the block counts it budgets with. */
module SchedModel {
  import opened Types
  import opened Arithmetic

  datatype Config = Config(maxBatch: int, maxWaitMs: int, policy: string, blockSize: Pos) {
    predicate Preempts() { policy == "fcfs" || policy == "priority" }
    function MaxWait(): real { maxWaitMs as real / 1000.0 }
  }

  /** What the scheduler can see of the cache: free blocks, blocks per table, blocks per swapped-out request. */
  datatype Ledger = Ledger(free: nat, tables: map<Id, nat>, swapped: map<Id, nat>) {
    function BlocksOf(r: Id): nat { if r in tables then tables[r] else 0 }

    function Freed(r: Id): Ledger {
      if r !in tables then this
      else Ledger(free + tables[r], tables - {r}, swapped - {r})
    }

    function SwappedOut(r: Id): Ledger {
      if BlocksOf(r) == 0 then this
      else Ledger(free + tables[r], tables[r := 0], swapped[r := tables[r]])
    }

    /** A table that exists and holds no block; swapping it out raises. */
    predicate Empty(r: Id) { r in tables && tables[r] == 0 }

    predicate Fits(r: Id) { r in swapped && swapped[r] <= free }

    function SwappedIn(r: Id): Ledger
      requires Fits(r)
    {
      Ledger(free - swapped[r], tables[r := swapped[r]], swapped - {r})
    }
  }

  datatype Sched = Sched(
    pending: seq<Req>,
    active: seq<Req>,
    preempted: seq<Req>,
    completed: map<Id, Req>,
    callbacks: set<Id>,
    fired: seq<Id>,
    totalScheduled: nat,
    totalCompleted: nat,
    totalPreempted: nat,
    kv: Ledger)

  function Initial(kv: Ledger): Sched { Sched([], [], [], map[], {}, [], 0, 0, 0, kv) }

  // ----- request lists -----

  /** Drops the first entry with the given id, as the linear search of remove_request does. */
  function RemoveId(rs: seq<Req>, id: Id): seq<Req> {
    if rs == [] then []
    else if rs[0].id == id then rs[1..]
    else [rs[0]] + RemoveId(rs[1..], id)
  }

  /** The entry that RemoveId drops. */
  function Find(rs: seq<Req>, id: Id): Option<Req> {
    if rs == [] then None
    else if rs[0].id == id then Some(rs[0])
    else Find(rs[1..], id)
  }

  function Finished(rs: seq<Req>): seq<Req> {
    if rs == [] then []
    else if rs[0].Finished() then [rs[0]] + Finished(rs[1..])
    else Finished(rs[1..])
  }

  function TimedOut(cfg: Config, rs: seq<Req>, now: real): seq<Req> {
    if rs == [] then []
    else if now - rs[0].arrival > cfg.MaxWait() then [rs[0]] + TimedOut(cfg, rs[1..], now)
    else TimedOut(cfg, rs[1..], now)
  }

  // ----- add, abort, collect -----

  function Add(s: Sched, r: Req, callback: bool, now: real): Sched {
    var r' := r.(status := Pending, arrival := now);
    s.(pending := if r.priority.High? then [r'] + s.pending else s.pending + [r'],
       callbacks := if callback then s.callbacks + {r.id} else s.callbacks)
  }

  function Abort(s: Sched, id: Id): Sched {
    if HasId(s.active, id) then s.(active := RemoveId(s.active, id), kv := s.kv.Freed(id))
    else if HasId(s.pending, id) then s.(pending := RemoveId(s.pending, id))
    else if HasId(s.preempted, id) then s.(preempted := RemoveId(s.preempted, id), kv := s.kv.Freed(id))
    else s
  }

  function Collect(s: Sched, id: Id): Sched { s.(completed := s.completed - {id}) }

  // ----- phase 1: reap -----

  function ReapOne(s: Sched, r: Req): Sched {
    s.(active := RemoveId(s.active, r.id),
       kv := s.kv.Freed(r.id),
       completed := s.completed[r.id := r],
       totalCompleted := s.totalCompleted + 1,
       fired := if r.id in s.callbacks then s.fired + [r.id] else s.fired,
       callbacks := s.callbacks - {r.id})
  }

  function ReapAll(s: Sched, rs: seq<Req>): Sched
    decreases |rs|
  {
    if rs == [] then s else ReapAll(ReapOne(s, rs[0]), rs[1..])
  }

  function Reap(s: Sched): Sched { ReapAll(s, Finished(s.active)) }

  // ----- phase 2: swap preempted requests back in -----

  predicate CanResume(s: Sched) { s.preempted != [] && s.kv.Fits(s.preempted[0].id) }

  function ResumeOne(s: Sched): Sched
    requires CanResume(s)
  {
    s.(preempted := s.preempted[1..],
       active := s.active + [s.preempted[0].(status := Generating)],
       kv := s.kv.SwappedIn(s.preempted[0].id))
  }

  function Resume(s: Sched): Sched
    decreases |s.preempted|
  {
    if CanResume(s) then Resume(ResumeOne(s)) else s
  }

  // ----- phase 3: admission with reservations and preemption -----

  function Need(cfg: Config, r: Req): nat { Ceil(|r.prompt| + r.maxNew, cfg.blockSize) }

  /** sorted's key (priority, -arrival): lowest priority first and, within a priority, newest first. */
  predicate Before(a: Req, b: Req) {
    a.priority.Rank() < b.priority.Rank() || (a.priority == b.priority && a.arrival >= b.arrival)
  }

  function Insert(r: Req, rs: seq<Req>): seq<Req> {
    if rs == [] || Before(r, rs[0]) then [r] + rs else [rs[0]] + Insert(r, rs[1..])
  }

  /** Python's stable sort by that key. */
  function Sorted(rs: seq<Req>): seq<Req> {
    if rs == [] then [] else Insert(rs[0], Sorted(rs[1..]))
  }

  function Evict(s: Sched, r: Req): Sched {
    s.(kv := s.kv.SwappedOut(r.id),
       active := RemoveId(s.active, r.id),
       preempted := s.preempted + [r.(status := Preempted)],
       totalPreempted := s.totalPreempted + 1)
  }

  function EvictUntil(s: Sched, candidates: seq<Req>, needed: nat): Sched
    decreases |candidates|
  {
    if candidates == [] then s
    else if candidates[0].status.Prefill? then EvictUntil(s, candidates[1..], needed)
    else
      var s' := Evict(s, candidates[0]);
      if s'.kv.free >= needed then s' else EvictUntil(s', candidates[1..], needed)
  }

  /** _try_preempt; it reports success exactly when free >= needed afterwards. */
  function TryPreempt(s: Sched, needed: nat): Sched { EvictUntil(s, Sorted(s.active), needed) }

  function AdmitHead(s: Sched): Sched
    requires s.pending != []
  {
    s.(pending := s.pending[1..],
       active := s.active + [s.pending[0].(status := Prefill)],
       totalScheduled := s.totalScheduled + 1)
  }

  /** The admission loop's variables. */
  datatype Admission = Admission(s: Sched, reserved: nat)

  datatype Iteration = Exit(st: Admission) | Again(st: Admission)

  /** One test of the guard and, if it holds, one run of the body. */
  function Iterate(cfg: Config, st: Admission): Iteration {
    var s := st.s;
    if s.pending == [] || |s.active| >= cfg.maxBatch then Exit(st)
    else
      var head := s.pending[0];
      var needed := Need(cfg, head);
      if needed <= s.kv.free - st.reserved then Again(Admission(AdmitHead(s), st.reserved + needed))
      else if head.priority.High? && cfg.Preempts() && s.active != [] then
        var s' := TryPreempt(s, needed);
        if s'.kv.free >= needed then Again(Admission(s', st.reserved)) else Exit(Admission(s', st.reserved))
      else Exit(st)
  }

  // ----- phase 4: force-admit timed-out requests -----

  function ForceOne(s: Sched, r: Req): Sched {
    s.(pending := RemoveId(s.pending, r.id),
       active := s.active + [r.(status := Prefill)],
       totalScheduled := s.totalScheduled + 1)
  }

  function ForceAll(cfg: Config, s: Sched, rs: seq<Req>): Sched
    decreases |rs|
  {
    if rs == [] || |s.active| >= cfg.maxBatch then s
    else if Need(cfg, rs[0]) <= s.kv.free then ForceAll(cfg, ForceOne(s, rs[0]), rs[1..])
    else ForceAll(cfg, s, rs[1..])
  }

  function Force(cfg: Config, s: Sched, now: real): Sched { ForceAll(cfg, s, TimedOut(cfg, s.pending, now)) }
}
