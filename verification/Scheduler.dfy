/** The scheduler object over a batch and a real cache; each method computes its value-level counterpart. */
module Scheduling {
  import opened Types
  import opened Arithmetic
  import Kv = KvModel
  import opened KvLedger
  import opened KvBudget
  import opened PagedKvCache
  import opened SchedModel
  import opened SchedLists
  import opened SchedAdmission
  import opened SchedPhases
  import opened SchedClosedForm
  import opened SchedAhead
  import opened SchedForced
  import opened SchedPolicy
  import opened SchedStep
  import opened SchedRaise
  import opened Requests

  lemma ResumeOneWell(s: Sched)
    requires Well(s) && CanResume(s)
    ensures Well(ResumeOne(s))
  {
    forall id ensures Total(ResumeOne(s), id) <= 1 {
      CountAppend(s.active, [s.preempted[0].(status := Generating)], id);
      assert Total(s, id) <= 1;
    }
  }

  /** How a scheduling step ends. Hung: the source would not return from it. */
  datatype Ending = Returned | Hung | Raised

  function Ended(ending: Ending, s: Sched): StepOutcome {
    match ending
    case Returned => Returns(s)
    case Hung => Hangs(s)
    case Raised => Raises(s)
  }

  /** The step from how its admission phase ended, in s1. */
  lemma StepEnds(cfg: Config, s: Sched, now: real, ending: Ending, k: nat, m: nat, s1: Sched)
    requires Well(s) && Well(BeforeAdmission(s))
    requires ending.Raised? ==> PhaseRaised(cfg, BeforeAdmission(s), k, m, s1)
    requires !ending.Raised? ==> PhaseEnded(cfg, BeforeAdmission(s), ending.Hung?, s1)
    ensures Step(cfg, s, now) == Ended(ending, if ending.Returned? then Force(cfg, s1, now) else s1)
    ensures ending.Raised? <==> PhaseRaises(cfg, AdmissionStart(s))
    ensures ending.Hung? <==> !PhaseRaises(cfg, AdmissionStart(s)) && PhaseHangs(cfg, AdmissionStart(s))
  {
    StepHangsExactly(cfg, s, now);
    if ending.Raised? { RaisedStateIs(cfg, AdmissionStart(s), k, m); }
  }

  lemma EstimateIsLeast(cfg: Config, r: Req, blocks: nat)
    requires blocks == Need(cfg, r)
    ensures |r.prompt| + r.maxNew <= blocks * cfg.blockSize
    ensures blocks > 0 ==> |r.prompt| + r.maxNew > (blocks - 1) * cfg.blockSize
  {
    NeedCovers(cfg, r, blocks);
    PositionIsProduct(blocks, 0, cfg.blockSize);
    if blocks > 0 {
      NeedCovers(cfg, r, blocks - 1);
      PositionIsProduct(blocks - 1, 0, cfg.blockSize);
    }
  }

  /** How the policy shows in what the phase leaves. */
  ghost predicate AsPolicySays(cfg: Config, s0: Sched, ending: Ending, s1: Sched) {
    && ((cfg.policy != "fcfs" && cfg.policy != "priority") || (forall r :: r in s0.pending ==> r.priority.Normal?) ==>
         ending.Returned? && s1.totalPreempted == s0.totalPreempted && s1.preempted == s0.preempted && s1.kv == s0.kv)
    && ((cfg.policy == "fcfs" || cfg.policy == "priority") && s0.pending != [] && s0.pending[0].priority.High?
        && 0 < |s0.active| < cfg.maxBatch && s0.kv.free < Need(cfg, s0.pending[0]) <= Pool(s0) ==>
         ending.Raised? || (|s1.pending| < |s0.pending| && s1.totalPreempted > s0.totalPreempted))
  }

  lemma PhaseByPolicy(cfg: Config, s0: Sched, ending: Ending, k: nat, m: nat, s1: Sched)
    requires Well(s0)
    requires ending.Raised? ==> PhaseRaised(cfg, s0, k, m, s1)
    requires !ending.Raised? ==> PhaseEnded(cfg, s0, ending.Hung?, s1)
    ensures AsPolicySays(cfg, s0, ending, s1)
  {
    if (cfg.policy != "fcfs" && cfg.policy != "priority") || forall r :: r in s0.pending ==> r.priority.Normal? {
      var n := PhaseNeverPreempts(cfg, s0);
      NothingGone(s0, n);
    } else if s0.pending != [] && s0.pending[0].priority.High? && 0 < |s0.active| < cfg.maxBatch
              && s0.kv.free < Need(cfg, s0.pending[0]) <= Pool(s0) {
      PreemptsForHigh(cfg, Admission(s0, 0));
    }
  }

  class Scheduler {
    const cfg: Config
    const kv: PagedKVCache
    const batch: Batch
    var pending: seq<Req>
    var preempted: seq<Req>
    var completed: map<Id, Req>
    var callbacks: set<Id>
    var fired: seq<Id>
    var totalScheduled: nat
    var totalCompleted: nat
    var totalPreempted: nat

    ghost function View(): Sched
      reads this, batch, kv, kv.pool
    {
      Sched(pending, batch.requests, preempted, completed, callbacks, fired,
            totalScheduled, totalCompleted, totalPreempted, LedgerOf(kv.View()))
    }

    ghost predicate Sound()
      reads this, batch, kv, kv.pool
    {
      Ready(kv) && kv.geo.blockSize == cfg.blockSize
    }

    constructor (cfg: Config, kv: PagedKVCache)
      requires Ready(kv) && kv.geo.blockSize == cfg.blockSize
      ensures this.cfg == cfg && this.kv == kv && fresh(batch) && Sound()
      ensures View() == Initial(LedgerOf(kv.View()))
    {
      this.cfg, this.kv := cfg, kv;
      batch := new Batch();
      pending, preempted, completed, callbacks, fired := [], [], map[], {}, [];
      totalScheduled, totalCompleted, totalPreempted := 0, 0, 0;
    }

    method AddRequest(r: Req, callback: bool, now: real)
      requires Sound()
      modifies this
      ensures Sound() && View() == Add(old(View()), r, callback, now)
    {
      var request := r.(status := Status.Pending, arrival := now);
      if r.priority == High {
        pending := [request] + pending;
      } else {
        pending := pending + [request];
      }
      if callback {
        callbacks := callbacks + {r.id};
      }
    }

    /** The batch's requests carry what inference did to them. */
    method Adopt(rs: seq<Req>)
      requires Sound()
      modifies batch
      ensures Sound() && View() == old(View()).(active := rs)
    {
      batch.requests := rs;
    }

    method EstimateBlocksNeeded(r: Req) returns (blocks: nat)
      requires kv.geo.blockSize == cfg.blockSize
      ensures blocks == Need(cfg, r)
      ensures |r.prompt| + r.maxNew <= blocks * cfg.blockSize
      ensures blocks > 0 ==> |r.prompt| + r.maxNew > (blocks - 1) * cfg.blockSize
    {
      EstimateIsLeast(cfg, r, Need(cfg, r));
      var total := |r.prompt| + r.maxNew;
      DivMod(total + kv.geo.blockSize - 1, kv.geo.blockSize);
      blocks := (total + kv.geo.blockSize - 1) / kv.geo.blockSize;
    }

    // ----- phase 1: remove completed requests -----

    method ReapRequest(r: Req) returns (ghost ops: seq<Kv.Op>)
      requires Sound()
      modifies this, batch, kv, kv.pool
      ensures Sound() && View() == ReapOne(old(View()), r)
      ensures ops == [Kv.Free(r.id)] && Follows(kv.geo, old(kv.View()), ops, kv.View())
    {
      var gone := batch.RemoveRequest(r.id);
      ops := FreeFor(kv, r.id);
      completed := completed[r.id := r];
      totalCompleted := totalCompleted + 1;
      if r.id in callbacks {
        fired := fired + [r.id];
      }
      callbacks := callbacks - {r.id};
    }

    method ReapPhase() returns (ghost ops: seq<Kv.Op>)
      requires Sound()
      modifies this, batch, kv, kv.pool
      ensures Sound() && View() == Reap(old(View()))
      ensures Follows(kv.geo, old(kv.View()), ops, kv.View())
    {
      var done := batch.GetCompleted();
      ops := [];
      for i := 0 to |done|
        invariant Sound() && ReapAll(View(), done[i..]) == Reap(old(View()))
        invariant Follows(kv.geo, old(kv.View()), ops, kv.View())
      {
        ghost var cache := kv.View();
        assert done[i..][1..] == done[i + 1..];
        ghost var more := ReapRequest(done[i]);
        FollowAll(kv.geo, old(kv.View()), ops, cache, more, kv.View());
        ops := ops + more;
      }
    }

    // ----- phase 2: swap preempted requests back in -----

    method ResumeHead() returns (ok: bool, ghost ops: seq<Kv.Op>)
      requires Sound() && preempted != []
      modifies this, batch, kv, kv.pool
      ensures Sound() && ok == CanResume(old(View()))
      ensures View() == if ok then ResumeOne(old(View())) else old(View())
      ensures ok ==> old(View()).kv.swapped[old(preempted)[0].id] > 0
      ensures Follows(kv.geo, old(kv.View()), ops, kv.View())
    {
      var request := preempted[0];
      ok, ops := SwapInFor(kv, request.id);
      if ok {
        Unpark();
      }
    }

    method Unpark()
      requires Sound() && preempted != []
      modifies this`preempted, batch
      ensures Sound() && kv.View() == old(kv.View())
      ensures View() == old(View()).(preempted := old(View()).preempted[1..],
                                     active := old(View()).active + [old(View()).preempted[0].(status := Generating)])
    {
      var request := preempted[0];
      preempted := preempted[1..];
      batch.AddRequest(request.(status := Generating));
    }

    method ResumePhase() returns (ghost ops: seq<Kv.Op>)
      requires Sound() && Well(View())
      modifies this, batch, kv, kv.pool
      ensures Sound() && View() == Resume(old(View())) && Well(View())
      ensures Follows(kv.geo, old(kv.View()), ops, kv.View())
    {
      ops := [];
      while preempted != []
        invariant Sound() && Resume(View()) == Resume(old(View())) && Well(View())
        invariant Follows(kv.geo, old(kv.View()), ops, kv.View())
        decreases |preempted|
      {
        ghost var s, cache := View(), kv.View();
        var ok; ghost var more;
        ok, more := ResumeHead();
        FollowAll(kv.geo, old(kv.View()), ops, cache, more, kv.View());
        ops := ops + more;
        if !ok {
          return;
        }
        ResumeOneWell(s);
      }
    }

    // ----- phase 3: admit pending requests, preempting for high priority -----

    /** ok: swap_out did not raise; if it did, nothing changed. */
    method EvictRequest(r: Req) returns (ok: bool, ghost ops: seq<Kv.Op>)
      requires Sound()
      modifies this, batch, kv, kv.pool
      ensures ok <==> !old(View()).kv.Empty(r.id)
      ensures Sound() && View() == if ok then Evict(old(View()), r) else old(View())
      ensures Follows(kv.geo, old(kv.View()), ops, kv.View())
    {
      ok, ops := SwapOutFor(kv, r.id);
      if ok {
        Park(r);
      }
    }

    method Park(r: Req)
      requires Sound()
      modifies this`preempted, this`totalPreempted, batch
      ensures Sound() && kv.View() == old(kv.View())
      ensures View() == old(View()).(active := RemoveId(old(View()).active, r.id),
                                     preempted := old(View()).preempted + [r.(status := Preempted)],
                                     totalPreempted := old(View()).totalPreempted + 1)
    {
      var gone := batch.RemoveRequest(r.id);
      preempted := preempted + [r.(status := Preempted)];
      totalPreempted := totalPreempted + 1;
    }

    /** raised: after n evictions swap_out raised over a victim's empty table. */
    method TryPreemption(needed: nat) returns (ok: bool, raised: bool, ghost n: nat, ghost ops: seq<Kv.Op>)
      requires Sound() && Well(View())
      modifies this, batch, kv, kv.pool
      ensures Sound() && Preempting(old(View()), needed, raised, n, View())
      ensures !raised ==> (ok <==> old(View()).active != [] && View().kv.free >= needed)
      ensures forall i, r :: |old(View()).preempted| <= i < |View().preempted| && r in View().active && !r.status.Prefill? ==>
                var v := View().preempted[i];
                !(v.priority.High? && r.priority.Normal?) && (v.priority == r.priority ==> v.arrival >= r.arrival)
      ensures Follows(kv.geo, old(kv.View()), ops, kv.View())
    {
      ghost var s := View();
      ok, raised, n, ops := EvictCandidates(needed);
      forall i, r | |s.preempted| <= i < |View().preempted| && r in View().active && !r.status.Prefill?
        ensures var v := View().preempted[i];
                !(v.priority.High? && r.priority.Normal?) && (v.priority == r.priority ==> v.arrival >= r.arrival)
      {
        PreemptingSpares(s, needed, raised, n, View(), i, r);
      }
    }

    /** The loop of it. */
    method EvictCandidates(needed: nat) returns (ok: bool, raised: bool, ghost n: nat, ghost ops: seq<Kv.Op>)
      requires Sound() && Well(View())
      modifies this, batch, kv, kv.pool
      ensures Sound() && Preempting(old(View()), needed, raised, n, View())
      ensures !raised ==> (ok <==> old(View()).active != [] && View().kv.free >= needed)
      ensures Follows(kv.geo, old(kv.View()), ops, kv.View())
    {
      ghost var s := View();
      EvictingStart(s, needed);
      n, ops, raised := 0, [], false;
      if batch.requests == [] {
        EvictingEnds(s, needed, 0, s);
        return false, false, 0, ops;
      }
      var candidates := SortForEviction(batch.requests);
      for i := 0 to |candidates|
        invariant Sound() && Evicting(s, needed, i, n, View())
        invariant Follows(kv.geo, old(kv.View()), ops, kv.View())
      {
        var candidate := candidates[i];
        ghost var now, cache := View(), kv.View();
        if candidate.status.Prefill? {
          EvictingSkip(s, needed, i, n, now);
          continue;
        }
        var evicted; ghost var more;
        evicted, more := EvictRequest(candidate);
        FollowAll(kv.geo, old(kv.View()), ops, cache, more, kv.View());
        ops := ops + more;
        if !evicted {
          EvictingRaises(s, needed, i, n, now);
          return false, true, n, ops;
        }
        EvictingNext(s, needed, i, n, now, i + 1, n + 1);
        n := n + 1;
        if |kv.free| >= needed {
          return true, false, n, ops;
        }
      }
      EvictingEnds(s, needed, n, View());
      ok := |kv.free| >= needed;
    }

    method AdmitRequest()
      requires Sound() && pending != []
      modifies this, batch
      ensures Sound() && View() == AdmitHead(old(View()))
    {
      var request := pending[0];
      pending := pending[1..];
      batch.AddRequest(request.(status := Prefill));
      totalScheduled := totalScheduled + 1;
    }

    /** One pass through the loop body. again: the loop goes round; idle: it does so with nothing changed;
        raised: it did not come to its end. */
    method AdmitPass(reserved: nat)
      returns (again: bool, idle: bool, raised: bool, reserved': nat, ghost k: nat, ghost n: nat, ghost ops: seq<Kv.Op>)
      requires Sound() && Well(View()) && pending != [] && |batch.requests| < cfg.maxBatch
      modifies this, batch, kv, kv.pool
      ensures Sound()
      ensures Passing(cfg, Admission(old(View()), reserved), raised, again, k, n, Admission(View(), reserved'))
      ensures !raised ==> (idle <==> Spinning(cfg, Admission(old(View()), reserved)))
      ensures Follows(kv.geo, old(kv.View()), ops, kv.View())
    {
      ghost var st := Admission(View(), reserved);
      ops, k, n := [], 0, 0;
      idle, raised, reserved' := false, false, reserved;
      var request := pending[0];
      var needed := EstimateBlocksNeeded(request);
      var available := |kv.free| - reserved;
      if needed <= available {
        HeadPass(cfg, st);
        AdmitRequest();
        k, again, reserved' := 1, true, reserved + needed;
      } else if request.priority == High && cfg.Preempts() && |batch.requests| > 0 {
        var before := totalPreempted;
        again, raised, n, ops := TryPreemption(needed);
        BlockedPass(cfg, st, raised, again, n, View());
        idle := again && totalPreempted == before;
      } else {
        StopPass(cfg, st);
        again := false;
      }
    }

    /** A pass within the phase. */
    method AdmitRound(reserved: nat, ghost s0: Sched, ghost k: nat, ghost m: nat)
      returns (again: bool, idle: bool, raised: bool, reserved': nat, ghost k': nat, ghost m': nat, ghost ops: seq<Kv.Op>)
      requires Sound() && Underway(cfg, s0, k, m, Admission(View(), reserved))
      requires pending != [] && |batch.requests| < cfg.maxBatch
      modifies this, batch, kv, kv.pool
      ensures Sound() && LedTo(cfg, s0, old(View()), raised, idle, again, k', m', Admission(View(), reserved'))
      ensures Follows(kv.geo, old(kv.View()), ops, kv.View())
    {
      ghost var st := Admission(View(), reserved);
      ghost var k1, n;
      again, idle, raised, reserved', k1, n, ops := AdmitPass(reserved);
      k', m' := k + k1, m + n;
      PassLeads(cfg, s0, k, m, st, raised, idle, again, k1, n, k', m', Admission(View(), reserved'));
    }

    /** The admission loop. Where the source would go round for ever with nothing changing, the method
        stops and reports Hung; where swap_out raises, it stops with k admitted and m evicted. */
    method AdmitPhase() returns (ending: Ending, ghost k: nat, ghost m: nat, ghost ops: seq<Kv.Op>)
      requires Sound() && Well(View())
      modifies this, batch, kv, kv.pool
      ensures Sound() && Well(old(View()))
      ensures ending.Raised? ==> PhaseRaised(cfg, old(View()), k, m, View())
      ensures !ending.Raised? ==> PhaseEnded(cfg, old(View()), ending.Hung?, View())
      ensures AsPolicySays(cfg, old(View()), ending, View())
      ensures Follows(kv.geo, old(kv.View()), ops, kv.View())
    {
      ghost var s0 := View();
      var reserved := 0;
      k, m, ops, ending := 0, 0, [], Returned;
      UnderwayStart(cfg, s0);
      while pending != [] && |batch.requests| < cfg.maxBatch
        invariant Sound() && ending == Returned && Underway(cfg, s0, k, m, Admission(View(), reserved))
        invariant Follows(kv.geo, old(kv.View()), ops, kv.View())
        decreases |pending|, |EvictionOrder(batch.requests)|
      {
        ghost var more, cache := [], kv.View();
        var again, idle, raised;
        again, idle, raised, reserved, k, m, more := AdmitRound(reserved, s0, k, m);
        FollowAll(kv.geo, old(kv.View()), ops, cache, more, kv.View());
        ops := ops + more;
        if raised || idle || !again {
          ending := if raised then Raised else if idle then Hung else Returned;
          PhaseByPolicy(cfg, s0, ending, k, m, View());
          return;
        }
      }
      UnderwayLeaves(cfg, s0, k, m, Admission(View(), reserved));
      PhaseByPolicy(cfg, s0, ending, k, m, View());
    }

    // ----- phase 4: force-admit requests that waited too long -----

    method FindTimedOut(now: real) returns (late: seq<Req>)
      ensures late == TimedOut(cfg, pending, now)
      ensures forall r :: r in late <==> r in pending && (now - r.arrival) * 1000.0 > cfg.maxWaitMs as real
    {
      late := [];
      assert pending[|pending|..] == [];
      for i := |pending| downto 0
        invariant late == TimedOut(cfg, pending[i..], now)
      {
        assert pending[i..][1..] == pending[i + 1..];
        if now - pending[i].arrival > cfg.MaxWait() {
          late := [pending[i]] + late;
        }
      }
      assert pending[0..] == pending;
      forall r ensures r in late <==> r in pending && (now - r.arrival) * 1000.0 > cfg.maxWaitMs as real {
        TimedOutMembers(cfg, pending, now, r);
        LateIs(cfg, r, now);
      }
    }

    method RemovePending(id: Id)
      modifies this`pending
      ensures pending == RemoveId(old(pending), id)
    {
      for i := 0 to |pending|
        invariant pending == old(pending) && forall j :: 0 <= j < i ==> pending[j].id != id
      {
        if pending[i].id == id {
          RemoveAt(pending, id, i);
          pending := pending[..i] + pending[i + 1..];
          return;
        }
      }
      RemoveNone(pending, id);
    }

    /** Whether the forced-admission test lets a request in: its estimate fits the free blocks. */
    method Fits(r: Req) returns (fits: bool)
      requires kv.geo.blockSize == cfg.blockSize
      ensures fits <==> Need(cfg, r) <= View().kv.free
    {
      var needed := EstimateBlocksNeeded(r);
      PositionIsProduct(needed, 0, kv.geo.blockSize);
      CeilExact(needed, kv.geo.blockSize);
      fits := kv.CanAllocate(needed * kv.geo.blockSize);
    }

    method ForceRequest(r: Req)
      requires Sound()
      modifies this`pending, this`totalScheduled, batch
      ensures Sound() && View() == ForceOne(old(View()), r)
    {
      RemovePending(r.id);
      batch.AddRequest(r.(status := Prefill));
      totalScheduled := totalScheduled + 1;
    }

    method ForcePhase(now: real)
      requires Sound()
      modifies this, batch
      ensures Sound() && View() == Force(cfg, old(View()), now)
      ensures forall i :: |old(View()).active| <= i < |View().active| ==> LetInLate(cfg, old(View()), now, View().active[i])
    {
      ghost var s := View();
      var late := FindTimedOut(now);
      for i := 0 to |late|
        invariant Sound() && ForceAll(cfg, View(), late[i..]) == Force(cfg, s, now)
      {
        assert late[i..][0] == late[i] && late[i..][1..] == late[i + 1..];
        if |batch.requests| >= cfg.maxBatch {
          EntrantsLate(cfg, s, now);
          return;
        }
        var fits := Fits(late[i]);
        if fits {
          ForceRequest(late[i]);
        }
      }
      EntrantsLate(cfg, s, now);
    }

    // ----- the step, abort and collection -----

    /** schedule_step: returns, hangs or raises exactly where the model does, and leaves what the model leaves. */
    method ScheduleStep(now: real) returns (ending: Ending, ghost ops: seq<Kv.Op>)
      requires Sound() && Well(View())
      modifies this, batch, kv, kv.pool
      ensures Sound() && Well(old(View()))
      ensures Step(cfg, old(View()), now) == Ended(ending, View())
      ensures ending.Raised? <==> PhaseRaises(cfg, AdmissionStart(old(View())))
      ensures ending.Hung? <==> !PhaseRaises(cfg, AdmissionStart(old(View()))) && PhaseHangs(cfg, AdmissionStart(old(View())))
      ensures Follows(kv.geo, old(kv.View()), ops, kv.View())
    {
      ghost var s := View();
      BeforeAdmissionWell(s);
      ops := ReapPhase();
      ghost var cache := kv.View();
      ghost var more := ResumePhase();
      FollowAll(kv.geo, old(kv.View()), ops, cache, more, kv.View());
      ops, cache := ops + more, kv.View();
      ghost var k, m;
      ending, k, m, more := AdmitPhase();
      StepEnds(cfg, s, now, ending, k, m, View());
      FollowAll(kv.geo, old(kv.View()), ops, cache, more, kv.View());
      ops := ops + more;
      if ending == Returned {
        ForcePhase(now);
      }
    }

    method AbortRequest(id: Id) returns (found: bool, ghost ops: seq<Kv.Op>)
      requires Sound()
      modifies this, batch, kv, kv.pool
      ensures Sound() && View() == Abort(old(View()), id)
      ensures found <==> HasId(old(View()).active + old(View()).pending + old(View()).preempted, id)
      ensures var held := HasId(old(View()).active, id) || (HasId(old(View()).preempted, id) && !HasId(old(View()).pending, id));
              && (held ==> id !in kv.tables && id !in kv.swap && kv.free == old(kv.free) + SetOf(Kv.Table(old(kv.View()), id)))
              && (!held ==> kv.View() == old(kv.View()))
      ensures Follows(kv.geo, old(kv.View()), ops, kv.View())
    {
      ghost var s := View();
      HasIdSplit(s.active + s.pending, s.preempted, id);
      HasIdSplit(s.active, s.pending, id);
      ops := [];
      FindHas(s.active, id);
      var gone := batch.RemoveRequest(id);
      if gone.Some? {
        ops := FreeHeld(kv, id);
        return true, ops;
      }
      CountHas(s.active, id);
      RemoveLength(s.active, id);
      var before := |pending|;
      RemoveLength(s.pending, id);
      CountHas(s.pending, id);
      RemovePending(id);
      if |pending| < before {
        return true, ops;
      }
      found, ops := AbortPreempted(id);
    }

    method AbortPreempted(id: Id) returns (found: bool, ghost ops: seq<Kv.Op>)
      requires Sound()
      modifies this`preempted, kv, kv.pool
      ensures Sound() && (found <==> HasId(old(View()).preempted, id))
      ensures View() == if found then old(View()).(preempted := RemoveId(old(View()).preempted, id), kv := old(View()).kv.Freed(id))
                        else old(View())
      ensures found ==> id !in kv.tables && id !in kv.swap && kv.free == old(kv.free) + SetOf(Kv.Table(old(kv.View()), id))
      ensures !found ==> kv.View() == old(kv.View())
      ensures Follows(kv.geo, old(kv.View()), ops, kv.View())
    {
      ops := [];
      found := RemovePreempted(id);
      if found {
        ops := FreeHeld(kv, id);
      }
    }

    method RemovePreempted(id: Id) returns (found: bool)
      modifies this`preempted
      ensures preempted == if found then RemoveId(old(preempted), id) else old(preempted)
      ensures found <==> HasId(old(preempted), id)
    {
      for i := 0 to |preempted|
        invariant preempted == old(preempted) && forall j :: 0 <= j < i ==> preempted[j].id != id
      {
        if preempted[i].id == id {
          RemoveAt(preempted, id, i);
          preempted := preempted[..i] + preempted[i + 1..];
          return true;
        }
      }
      found := false;
    }

    lemma HasIdSplit(a: seq<Req>, b: seq<Req>, id: Id)
      ensures HasId(a + b, id) <==> HasId(a, id) || HasId(b, id)
    {
      CountHas(a + b, id);
      CountHas(a, id);
      CountHas(b, id);
      CountAppend(a, b, id);
    }

    method GetCompleted(id: Id) returns (r: Option<Req>)
      requires Sound()
      modifies this`completed
      ensures Sound() && View() == Collect(old(View()), id)
      ensures r == if id in old(completed) then Some(old(completed)[id]) else None
    {
      r := if id in completed then Some(completed[id]) else None;
      completed := completed - {id};
    }
  }
}
