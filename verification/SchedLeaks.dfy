/** Nothing leaks: with clients that allocate for running requests only, block tables belong to running and preempted
    requests and swap entries to preempted ones, so whoever was aborted or reaped holds nothing. */
module SchedLeaks {
  import opened Types
  import opened SchedModel
  import opened SchedLists
  import opened SchedAdmission
  import opened SchedPhases
  import opened SchedStep
  import opened SchedForced
  import opened SchedRuns

  /** An abort gives back what the request held. */
  lemma AbortFrees(s: Sched, id: Id)
    ensures HasId(s.active, id) ==>
              && id !in Abort(s, id).kv.tables && Abort(s, id).kv.free == s.kv.free + s.kv.BlocksOf(id)
    ensures !HasId(s.active, id) && !HasId(s.pending, id) && HasId(s.preempted, id) ==>
              && id !in Abort(s, id).kv.tables && Abort(s, id).kv.free == s.kv.free + s.kv.BlocksOf(id)
              && (id in s.kv.tables ==> id !in Abort(s, id).kv.swapped)
  {
  }

  ghost predicate Tight(s: Sched) {
    && (forall id :: id in s.kv.tables ==> HasId(s.active, id) || (HasId(s.preempted, id) && s.kv.tables[id] == 0))
    && (forall id :: id in s.kv.swapped ==> HasId(s.preempted, id) && id in s.kv.tables)
  }

  // ----- the moves keep it -----

  lemma HasRemove(rs: seq<Req>, id: Id, x: Id)
    requires HasId(rs, x) && x != id
    ensures HasId(RemoveId(rs, id), x)
  {
    CountHas(rs, x);
    CountRemove(rs, id, x);
    CountHas(RemoveId(rs, id), x);
  }

  lemma HasAppend(a: seq<Req>, b: seq<Req>, x: Id)
    requires HasId(a, x) || HasId(b, x)
    ensures HasId(a + b, x)
  {
    CountHas(a, x);
    CountHas(b, x);
    CountAppend(a, b, x);
    CountHas(a + b, x);
  }

  lemma NotBoth(s: Sched, id: Id)
    requires Well(s)
    ensures !(HasId(s.active, id) && HasId(s.preempted, id))
  {
    CountHas(s.active, id);
    CountHas(s.preempted, id);
    assert Total(s, id) <= 1;
  }

  /** Somebody leaves the batch for good. */
  lemma LeavesTight(s: Sched, s': Sched, id: Id)
    requires Well(s) && Tight(s) && HasId(s.active, id)
    requires s'.active == RemoveId(s.active, id) && s'.preempted == s.preempted && s'.kv == s.kv.Freed(id)
    ensures Tight(s')
  {
    NotBoth(s, id);
    forall x | x in s'.kv.tables && HasId(s.active, x) ensures HasId(s'.active, x) { HasRemove(s.active, id, x); }
  }

  lemma DroppedTight(s: Sched, id: Id)
    requires Well(s) && Tight(s) && HasId(s.preempted, id)
    ensures Tight(s.(preempted := RemoveId(s.preempted, id), kv := s.kv.Freed(id)))
  {
    NotBoth(s, id);
    var kv' := s.kv.Freed(id);
    forall x | (x in kv'.tables || x in kv'.swapped) && HasId(s.preempted, x) ensures HasId(RemoveId(s.preempted, id), x) {
      HasRemove(s.preempted, id, x);
    }
  }

  lemma AbortTight(s: Sched, id: Id)
    requires Well(s) && Tight(s)
    ensures Tight(Abort(s, id))
  {
    if HasId(s.active, id) {
      LeavesTight(s, Abort(s, id), id);
    } else if !HasId(s.pending, id) && HasId(s.preempted, id) {
      DroppedTight(s, id);
    }
  }

  lemma ReapOneWell(s: Sched, r: Req)
    requires Well(s)
    ensures Well(ReapOne(s, r))
  {
    forall id ensures Total(ReapOne(s, r), id) <= 1 {
      CountRemove(s.active, r.id, id);
      assert Total(s, id) <= 1;
    }
  }

  lemma {:induction false} ReapAllTight(s: Sched, rs: seq<Req>)
    requires Well(s) && Tight(s) && Unique(rs) && forall r :: r in rs ==> r in s.active
    ensures Tight(ReapAll(s, rs))
    decreases |rs|
  {
    if rs != [] {
      UniqueTail(rs);
      WellActive(s);
      assert rs[0] in rs && HasId(s.active, rs[0].id);
      LeavesTight(s, ReapOne(s, rs[0]), rs[0].id);
      ReapOneWell(s, rs[0]);
      forall r | r in rs[1..] ensures r in ReapOne(s, rs[0]).active {
        CountMember(rs[1..], r);
        RemoveMembers(s.active, rs[0].id, r);
      }
      ReapAllTight(ReapOne(s, rs[0]), rs[1..]);
    }
  }

  lemma ReapTight(s: Sched)
    requires Well(s) && Tight(s)
    ensures Tight(Reap(s))
  {
    WellActive(s);
    forall r | r in Finished(s.active) ensures r in s.active { FinishedMembers(s.active, r); }
    forall id ensures Count(Finished(s.active), id) <= 1 { FinishedCount(s.active, id); }
    ReapAllTight(s, Finished(s.active));
  }

  lemma ResumeOneTight(s: Sched)
    requires Well(s) && Tight(s) && CanResume(s)
    ensures Tight(ResumeOne(s))
  {
    var h, s' := s.preempted[0], ResumeOne(s);
    forall x | HasId(s.active, x) || x == h.id ensures HasId(s'.active, x) {
      assert HasId([h.(status := Generating)], h.id) by { assert [h.(status := Generating)][0].id == h.id; }
      HasAppend(s.active, [h.(status := Generating)], x);
    }
    forall x | HasId(s.preempted, x) && x != h.id ensures HasId(s'.preempted, x) {
      CountHas(s.preempted, x);
      CountHas(s'.preempted, x);
    }
  }

  lemma {:induction false} ResumeTight(s: Sched)
    requires Well(s) && Tight(s)
    ensures Tight(Resume(s))
    decreases |s.preempted|
  {
    if CanResume(s) {
      ResumeOneTight(s);
      forall id ensures Total(ResumeOne(s), id) <= 1 {
        CountAppend(s.active, [s.preempted[0].(status := Generating)], id);
        assert Total(s, id) <= 1;
      }
      ResumeTight(ResumeOne(s));
    }
  }

  lemma EvictTight(s: Sched, v: Req)
    requires Well(s) && Tight(s) && v in s.active
    ensures Tight(Evict(s, v))
  {
    var s', v' := Evict(s, v), v.(status := Preempted);
    assert HasId(s.active, v.id);
    assert HasId([v'], v.id) by { assert [v'][0].id == v.id; }
    forall x | HasId(s.active, x) && x != v.id ensures HasId(s'.active, x) { HasRemove(s.active, v.id, x); }
    forall x | HasId(s.preempted, x) || x == v.id ensures HasId(s'.preempted, x) { HasAppend(s.preempted, [v'], x); }
  }

  lemma {:induction false} EvictAllTight(s: Sched, vs: seq<Req>)
    requires Well(s) && Tight(s) && Unique(vs) && forall v :: v in vs ==> v in s.active
    ensures Tight(EvictAll(s, vs))
    decreases |vs|
  {
    if vs != [] {
      UniqueTail(vs);
      WellActive(s);
      EvictTight(s, vs[0]);
      EvictIds(s, vs[0]);
      forall id ensures Total(Evict(s, vs[0]), id) <= 1 { assert Total(s, id) <= 1; }
      forall v | v in vs[1..] ensures v in Evict(s, vs[0]).active {
        CountMember(vs[1..], v);
        RemoveMembers(s.active, vs[0].id, v);
      }
      EvictAllTight(Evict(s, vs[0]), vs[1..]);
    }
  }

  lemma GrowsTight(s: Sched, s': Sched, more: seq<Req>)
    requires Tight(s) && s'.active == s.active + more && s'.preempted == s.preempted && s'.kv == s.kv
    ensures Tight(s')
  {
    forall x | HasId(s.active, x) ensures HasId(s'.active, x) { HasAppend(s.active, more, x); }
  }

  lemma AdmittedTight(s: Sched, k: nat, m: nat)
    requires Well(s) && Tight(s) && k <= |s.pending| && m <= |EvictionOrder(s.active)|
    ensures Tight(Admitted(s, k, m))
  {
    var vs := EvictionOrder(s.active);
    WellActive(s);
    EvictionOrderIs(s.active);
    EvictionOrderUnique(s.active);
    UniquePrefix(vs, m);
    forall v | v in vs[..m] ensures v in s.active { assert v in vs; }
    EvictAllTight(s, vs[..m]);
    EvictAllIs(s, vs[..m]);
    GrowsTight(EvictAll(s, vs[..m]), Admitted(s, k, m), Prefilled(s.pending[..k]));
  }

  lemma StepTight(cfg: Config, s: Sched, now: real)
    requires Well(s) && Tight(s)
    ensures Tight(Step(cfg, s, now).s)
  {
    BeforeAdmissionWell(s);
    ReapTight(s);
    ResumeTight(Reap(s));
    var k, m := StepShape(cfg, s, now);
    var s1 := Admitted(BeforeAdmission(s), k, m);
    AdmittedTight(BeforeAdmission(s), k, m);
    var late := TimedOut(cfg, s1.pending, now);
    ForceAllCloses(cfg, s1, late);
    GrowsTight(s1, Force(cfg, s1, now), Prefilled(Forced(cfg, s1, late)));
  }

  // ----- whole runs -----

  /** Clients give blocks to running requests only, and leave swap space alone. */
  ghost predicate Tidy(s: Sched, kv: Ledger) {
    && kv.swapped == s.kv.swapped && (forall id :: id in kv.swapped ==> id in kv.tables)
    && forall id :: id in kv.tables ==> HasId(s.active, id) || (id in s.kv.tables && kv.tables[id] == s.kv.tables[id])
  }

  lemma WorkTight(s: Sched, active: seq<Req>, kv: Ledger)
    requires Tight(s) && SameMembers(s.active, active) && Tidy(s, kv)
    ensures Tight(s.(active := active, kv := kv))
  {
    forall x | HasId(s.active, x) ensures HasId(active, x) {
      var i :| 0 <= i < |s.active| && s.active[i].id == x;
      assert active[i].id == x;
    }
  }

  lemma EventTight(cfg: Config, s: Sched, h: History, e: Event)
    requires Well(s) && Tight(s) && Possible(cfg, s, h, e) && (e.Work? ==> Tidy(s, e.kv))
    ensures Tight(Next(cfg, s, h, e))
  {
    match e
    case Schedule(now) => StepTight(cfg, s, now);
    case Work(active, kv) => WorkTight(s, active, kv);
    case Cancel(id) => AbortTight(s, id);
    case _ =>
  }

  ghost predicate AllTidy(cfg: Config, s: Sched, h: History, es: seq<Event>)
    requires Run(cfg, s, h, es)
    decreases |es|
  {
    es == [] || ((es[0].Work? ==> Tidy(s, es[0].kv)) && AllTidy(cfg, Next(cfg, s, h, es[0]), Told(s, h, es[0]), es[1..]))
  }

  lemma {:induction false} RunTight(cfg: Config, s: Sched, h: History, es: seq<Event>)
    requires Inv(s, h) && Tight(s) && Run(cfg, s, h, es) && AllTidy(cfg, s, h, es)
    ensures Inv(End(cfg, s, h, es).0, End(cfg, s, h, es).1) && Tight(End(cfg, s, h, es).0)
    decreases |es|
  {
    if es != [] {
      LocatedWell(s, h);
      EventTight(cfg, s, h, es[0]);
      EventInv(cfg, s, h, es[0]);
      RunTight(cfg, Next(cfg, s, h, es[0]), Told(s, h, es[0]), es[1..]);
    }
  }

  /** On every run from an empty scheduler with such clients: a table belongs to a running request or is the empty one
      of a preempted request, a swap entry belongs to a preempted request, and whoever was aborted, dropped, reaped or
      collected has neither. */
  lemma NothingLeaks(cfg: Config, kv: Ledger, clock: real, es: seq<Event>, id: Id)
    requires kv.tables == map[] && kv.swapped == map[]
    requires Run(cfg, Initial(kv), NoHistory(clock), es) && AllTidy(cfg, Initial(kv), NoHistory(clock), es)
    ensures var (s, h) := End(cfg, Initial(kv), NoHistory(clock), es);
            && (id in s.kv.tables ==> HasId(s.active, id) || (HasId(s.preempted, id) && s.kv.tables[id] == 0))
            && (id in s.kv.swapped ==> HasId(s.preempted, id))
            && (id in h.cancelled || id in h.dropped || id in s.completed || id in h.collected ==>
                 id !in s.kv.tables && id !in s.kv.swapped)
  {
    assert Inv(Initial(kv), NoHistory(clock));
    RunTight(cfg, Initial(kv), NoHistory(clock), es);
    var (s, h) := End(cfg, Initial(kv), NoHistory(clock), es);
    assert Places(s, h, id) == In(id, h.added);
    CountHas(s.active, id);
    CountHas(s.preempted, id);
  }
}
