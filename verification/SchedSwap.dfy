/** With clients that give every running request blocks, preempted requests are backed by swap space and come back. */
module SchedSwap {
  import opened Types
  import opened SchedModel
  import opened SchedLists
  import opened SchedAdmission
  import opened SchedPhases
  import opened SchedStep
  import opened SchedRuns

  // ----- adding up a table -----

  ghost function SumOf(m: map<Id, nat>): nat
    decreases |m|
  {
    if m == map[] then 0 else var k :| k in m; m[k] + SumOf(m - {k})
  }

  lemma {:induction false} SumWithout(m: map<Id, nat>, k: Id)
    requires k in m
    ensures SumOf(m) == m[k] + SumOf(m - {k})
    decreases |m|
  {
    var c :| c in m && SumOf(m) == m[c] + SumOf(m - {c});
    if c != k {
      SumWithout(m - {c}, k);
      SumWithout(m - {k}, c);
      assert m - {c} - {k} == m - {k} - {c};
    }
  }

  lemma SumUpdate(m: map<Id, nat>, k: Id, n: nat)
    ensures SumOf(m[k := n]) == SumOf(m) - (if k in m then m[k] else 0) + n
  {
    SumWithout(m[k := n], k);
    assert m[k := n] - {k} == m - {k};
    if k in m { SumWithout(m, k); } else { assert m - {k} == m; }
  }

  lemma {:induction false} SumZero(m: map<Id, nat>)
    requires forall k :: k in m ==> m[k] == 0
    ensures SumOf(m) == 0
    decreases |m|
  {
    if m != map[] {
      var k :| k in m;
      SumWithout(m, k);
      SumZero(m - {k});
    }
  }

  // ----- obligations and invariant -----

  /** What cache clients owe before a step: running requests own blocks, and only batch members do. */
  ghost predicate ClientsKeep(s: Sched) {
    && (forall r :: r in s.active && !r.status.Prefill? ==> s.kv.BlocksOf(r.id) > 0)
    && OnlyActive(s)
  }

  ghost predicate OnlyActive(s: Sched) { forall id :: s.kv.BlocksOf(id) > 0 ==> HasId(s.active, id) }

  /** All blocks are accounted for, and every preempted request has its data in swap space. */
  ghost predicate Backed(s: Sched, blocks: nat) {
    && s.kv.free + SumOf(s.kv.tables) == blocks
    && (forall r :: r in s.preempted ==> r.id in s.kv.swapped && 0 < s.kv.swapped[r.id] <= blocks)
    && (forall id :: id in s.kv.swapped ==> s.kv.BlocksOf(id) == 0)
  }

  ghost predicate Running(s: Sched) {
    forall r :: r in s.active && !r.status.Prefill? && !r.Finished() ==> s.kv.BlocksOf(r.id) > 0
  }

  // ----- the moves keep it -----

  lemma FreedBacked(s: Sched, id: Id, blocks: nat)
    requires Backed(s, blocks) && forall q :: q in s.preempted ==> q.id != id
    ensures Backed(s.(kv := s.kv.Freed(id)), blocks)
  {
    if id in s.kv.tables { SumWithout(s.kv.tables, id); }
  }

  lemma FreedOnlyActive(s: Sched, id: Id)
    requires OnlyActive(s)
    ensures OnlyActive(s.(active := RemoveId(s.active, id), kv := s.kv.Freed(id)))
  {
    forall x | s.kv.Freed(id).BlocksOf(x) > 0 ensures HasId(RemoveId(s.active, id), x) {
      CountHas(s.active, x);
      CountHas(RemoveId(s.active, id), x);
      CountRemove(s.active, id, x);
    }
  }

  lemma ReapOneRunning(s: Sched, r: Req)
    requires Well(s)
    ensures Well(ReapOne(s, r)) && (Running(s) ==> Running(ReapOne(s, r)))
  {
    WellActive(s);
    forall q ensures q in RemoveId(s.active, r.id) <==> q in s.active && q.id != r.id { RemoveMembers(s.active, r.id, q); }
    forall id ensures Total(ReapOne(s, r), id) <= 1 { CountRemove(s.active, r.id, id); assert Total(s, id) <= 1; }
  }

  lemma ReapOneBacked(s: Sched, r: Req, blocks: nat)
    requires Well(s) && Backed(s, blocks) && r in s.active
    ensures Backed(ReapOne(s, r), blocks)
    ensures Running(s) ==> Running(ReapOne(s, r))
    ensures OnlyActive(s) ==> OnlyActive(ReapOne(s, r))
    ensures Well(ReapOne(s, r))
  {
    CountMember(s.active, r);
    forall q | q in s.preempted ensures q.id != r.id {
      CountMember(s.preempted, q);
      assert Total(s, r.id) <= 1;
    }
    FreedBacked(s, r.id, blocks);
    ReapOneRunning(s, r);
    if OnlyActive(s) { FreedOnlyActive(s, r.id); }
  }

  lemma ResumeOneBacked(s: Sched, blocks: nat)
    requires Well(s) && Backed(s, blocks) && Running(s) && CanResume(s)
    ensures Well(ResumeOne(s)) && Backed(ResumeOne(s), blocks) && Running(ResumeOne(s))
  {
    var h := s.preempted[0];
    WellActive(s);
    UniqueTail(s.preempted);
    SumUpdate(s.kv.tables, h.id, s.kv.swapped[h.id]);
    forall id ensures Total(ResumeOne(s), id) <= 1 {
      CountAppend(s.active, [h.(status := Generating)], id);
      assert Total(s, id) <= 1;
    }
    forall r | r in s.preempted[1..] ensures r.id != h.id { CountMember(s.preempted[1..], r); }
    forall r | r in s.active ensures r.id != h.id {
      CountMember(s.active, r);
      assert Total(s, h.id) <= 1;
    }
  }

  lemma EvictBacked(s: Sched, v: Req, blocks: nat)
    requires Well(s) && Backed(s, blocks) && v in s.active && s.kv.BlocksOf(v.id) > 0
    ensures Well(Evict(s, v)) && Backed(Evict(s, v), blocks)
    ensures forall id :: id != v.id ==> Evict(s, v).kv.BlocksOf(id) == s.kv.BlocksOf(id)
  {
    EvictIds(s, v);
    forall id ensures Total(Evict(s, v), id) <= 1 { assert Total(s, id) <= 1; }
    SumWithout(s.kv.tables, v.id);
    SumUpdate(s.kv.tables, v.id, 0);
    CountMember(s.active, v);
    forall r | r in s.preempted ensures r.id != v.id {
      CountMember(s.preempted, r);
      assert Total(s, v.id) <= 1;
    }
  }

  // ----- the phases keep it -----

  lemma {:induction false} ReapAllBacked(s: Sched, rs: seq<Req>, blocks: nat)
    requires Well(s) && Backed(s, blocks) && Unique(rs) && forall r :: r in rs ==> r in s.active
    ensures Backed(ReapAll(s, rs), blocks)
    ensures Running(s) ==> Running(ReapAll(s, rs))
    ensures OnlyActive(s) ==> OnlyActive(ReapAll(s, rs))
    decreases |rs|
  {
    if rs != [] {
      UniqueTail(rs);
      ReapOneBacked(s, rs[0], blocks);
      WellActive(s);
      forall r | r in rs[1..] ensures r in ReapOne(s, rs[0]).active {
        CountMember(rs[1..], r);
        RemoveMembers(s.active, rs[0].id, r);
      }
      ReapAllBacked(ReapOne(s, rs[0]), rs[1..], blocks);
    }
  }

  lemma ReapBacked(s: Sched, blocks: nat)
    requires Well(s) && Backed(s, blocks) && ClientsKeep(s)
    ensures Well(Reap(s)) && Backed(Reap(s), blocks) && Running(Reap(s)) && OnlyActive(Reap(s))
  {
    ReapIs(s);
    WellActive(s);
    forall r | r in Finished(s.active) ensures r in s.active { FinishedMembers(s.active, r); }
    forall id ensures Count(Finished(s.active), id) <= 1 { FinishedCount(s.active, id); }
    ReapAllBacked(s, Finished(s.active), blocks);
  }

  lemma {:induction false} ResumeBacked(s: Sched, blocks: nat)
    requires Well(s) && Backed(s, blocks) && Running(s)
    ensures Well(Resume(s)) && Backed(Resume(s), blocks) && Running(Resume(s))
    decreases |s.preempted|
  {
    if CanResume(s) {
      ResumeOneBacked(s, blocks);
      ResumeBacked(ResumeOne(s), blocks);
    }
  }

  lemma {:induction false} EvictAllBacked(s: Sched, vs: seq<Req>, blocks: nat)
    requires Well(s) && Backed(s, blocks) && Unique(vs)
    requires forall v :: v in vs ==> v in s.active && s.kv.BlocksOf(v.id) > 0
    ensures Backed(EvictAll(s, vs), blocks)
    decreases |vs|
  {
    if vs != [] {
      UniqueTail(vs);
      EvictBacked(s, vs[0], blocks);
      WellActive(s);
      forall v | v in vs[1..] ensures v in Evict(s, vs[0]).active && Evict(s, vs[0]).kv.BlocksOf(v.id) > 0 {
        CountMember(vs[1..], v);
        RemoveMembers(s.active, vs[0].id, v);
      }
      EvictAllBacked(Evict(s, vs[0]), vs[1..], blocks);
    }
  }

  lemma AdmittedBacked(s: Sched, k: nat, m: nat, blocks: nat)
    requires Well(s) && Backed(s, blocks) && Running(s) && k <= |s.pending| && m <= |EvictionOrder(s.active)|
    requires forall r :: r in s.active ==> !r.Finished()
    ensures Backed(Admitted(s, k, m), blocks)
  {
    var vs := EvictionOrder(s.active);
    WellActive(s);
    EvictionOrderUnique(s.active);
    EvictionOrderIs(s.active);
    assert vs == vs[..m] + vs[m..];
    forall id ensures Count(vs[..m], id) <= 1 { CountAppend(vs[..m], vs[m..], id); assert Count(vs, id) <= 1; }
    forall v | v in vs[..m] ensures v in s.active && s.kv.BlocksOf(v.id) > 0 { assert v in vs; }
    EvictAllBacked(s, vs[..m], blocks);
    EvictAllIs(s, vs[..m]);
  }

  lemma {:induction false} ResumedUnfinished(s: Sched)
    requires forall r :: r in s.active ==> !r.Finished()
    ensures forall r :: r in Resume(s).active ==> !r.Finished()
    decreases |s.preempted|
  {
    if CanResume(s) { ResumedUnfinished(ResumeOne(s)); }
  }

  /** With clients that keep their obligations no step raises. */
  lemma ClientsNeverRaise(cfg: Config, s: Sched, now: real, blocks: nat)
    requires Well(s) && Backed(s, blocks) && ClientsKeep(s)
    ensures !Step(cfg, s, now).Raises?
  {
    var s0 := BeforeAdmission(s);
    ReapBacked(s, blocks);
    ResumeBacked(Reap(s), blocks);
    ReapIs(s);
    UnfinishedMembers(s.active);
    ResumedUnfinished(Reap(s));
    forall r | r in s0.active && !r.status.Prefill? ensures !s0.kv.Empty(r.id) { assert s0.kv.BlocksOf(r.id) > 0; }
    NothingRaises(cfg, s, now);
  }

  /** Every preempted request is in swap space after every step, given the clients' obligation before it. */
  lemma StepBacked(cfg: Config, s: Sched, now: real, blocks: nat)
    requires Well(s) && Backed(s, blocks) && ClientsKeep(s)
    ensures Backed(Step(cfg, s, now).s, blocks)
  {
    var s0 := BeforeAdmission(s);
    ReapBacked(s, blocks);
    ResumeBacked(Reap(s), blocks);
    ReapIs(s);
    UnfinishedMembers(s.active);
    ResumedUnfinished(Reap(s));
    var k, m := StepShape(cfg, s, now);
    AdmittedBacked(s0, k, m, blocks);
    ForceIs(cfg, Admitted(s0, k, m), now);
  }

  /** The swap-in phase resumes the longest FIFO prefix whose blocks fit together. */
  lemma ResumesWhatFits(s: Sched, blocks: nat) returns (k: nat)
    requires Well(s) && Backed(s, blocks) && ClientsKeep(s)
    ensures var s1 := Reap(s);
            && s1.preempted == s.preempted && k <= |s1.preempted| && BeforeAdmission(s) == ResumeFirst(s1, k)
            && forall j: nat :: j <= |s1.preempted| ==> (SwapBlocks(s1.kv, s1.preempted[..j]) <= s1.kv.free <==> j <= k)
  {
    ReapBacked(s, blocks);
    ReapIs(s);
    WellActive(Reap(s));
    var s1 := Reap(s);
    k := ResumesLongestPrefix(s1);
    forall i | 0 <= i < |s1.preempted| ensures s1.preempted[i].id in s1.kv.swapped { assert s1.preempted[i] in s1.preempted; }
    forall j: nat | j <= |s1.preempted|
      ensures SwapBlocks(s1.kv, s1.preempted[..j]) <= s1.kv.free <==> j <= k
    {
      assert Resumable(s1, j) <==> SwapBlocks(s1.kv, s1.preempted[..j]) <= s1.kv.free;
      if j <= k {
        assert s1.preempted[..k][..j] == s1.preempted[..j];
        SwapBlocksGrow(s1.kv, s1.preempted[..k], j);
      }
    }
  }

  /** When reaping empties the batch, at least the head of the preempted queue comes back. */
  lemma EmptyBatchResumes(s: Sched, blocks: nat)
    requires Well(s) && Backed(s, blocks) && ClientsKeep(s)
    requires Unfinished(s.active) == [] && s.preempted != []
    ensures |BeforeAdmission(s).preempted| < |s.preempted|
  {
    ReapBacked(s, blocks);
    ReapIs(s);
    var s1 := Reap(s);
    forall id | id in s1.kv.tables ensures s1.kv.tables[id] == 0 {
      assert s1.kv.BlocksOf(id) > 0 ==> HasId(s1.active, id);
    }
    SumZero(s1.kv.tables);
    assert s1.preempted[0] in s1.preempted;
    assert CanResume(s1);
    ResumeShrinks(ResumeOne(s1));
  }

  lemma {:induction false} ResumeShrinks(s: Sched)
    ensures |Resume(s).preempted| <= |s.preempted|
    decreases |s.preempted|
  {
    if CanResume(s) { ResumeShrinks(ResumeOne(s)); }
  }

  // ----- whole runs -----

  /** Between steps clients allocate and free for batch members; they do not touch swapped-out requests. */
  ghost predicate ClientWork(s: Sched, kv: Ledger) {
    && kv.swapped == s.kv.swapped && kv.free + SumOf(kv.tables) == s.kv.free + SumOf(s.kv.tables)
    && forall id :: id in kv.swapped ==> kv.BlocksOf(id) == 0
  }

  ghost predicate Obliging(cfg: Config, s: Sched, h: History, es: seq<Event>)
    requires Run(cfg, s, h, es)
    decreases |es|
  {
    es == [] ||
    (&& (es[0].Schedule? ==> ClientsKeep(s))
     && (es[0].Work? ==> ClientWork(s, es[0].kv))
     && Obliging(cfg, Next(cfg, s, h, es[0]), Told(s, h, es[0]), es[1..]))
  }

  lemma AbortBacked(s: Sched, id: Id, blocks: nat)
    requires Well(s) && Backed(s, blocks)
    ensures Backed(Abort(s, id), blocks)
  {
    WellActive(s);
    CountHas(s.active, id);
    CountHas(s.preempted, id);
    assert Total(s, id) <= 1;
    if id in s.kv.tables { SumWithout(s.kv.tables, id); }
    forall r | r in Abort(s, id).preempted ensures r in s.preempted && (HasId(s.active, id) || HasId(s.preempted, id) ==> HasId(s.pending, id) || r.id != id) {
      RemoveMembers(s.preempted, id, r);
      if r in s.preempted { CountMember(s.preempted, r); }
    }
  }

  lemma EventBacked(cfg: Config, s: Sched, h: History, e: Event, blocks: nat)
    requires Well(s) && Backed(s, blocks) && Possible(cfg, s, h, e)
    requires (e.Schedule? ==> ClientsKeep(s)) && (e.Work? ==> ClientWork(s, e.kv))
    ensures Backed(Next(cfg, s, h, e), blocks)
  {
    if e.Schedule? { StepBacked(cfg, s, e.now, blocks); }
    if e.Cancel? { AbortBacked(s, e.id, blocks); }
  }

  /** On every run whose clients keep their obligations, preempted requests always have their data in swap space. */
  lemma {:induction false} RunBacked(cfg: Config, s: Sched, h: History, es: seq<Event>, blocks: nat)
    requires Inv(s, h) && Backed(s, blocks) && Run(cfg, s, h, es) && Obliging(cfg, s, h, es)
    ensures Backed(End(cfg, s, h, es).0, blocks)
    decreases |es|
  {
    if es != [] {
      LocatedWell(s, h);
      EventBacked(cfg, s, h, es[0], blocks);
      EventInv(cfg, s, h, es[0]);
      RunBacked(cfg, Next(cfg, s, h, es[0]), Told(s, h, es[0]), es[1..], blocks);
    }
  }
}
