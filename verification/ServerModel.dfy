/** Several engines behind one scheduler: which engine serves a request, and one inference step over a batch. */
module ServerModel {
  import opened Types
  import opened EngineModel

  /** The loaded models by name, in loading order. */
  datatype Fleet = Fleet(names: seq<string>, served: map<string, Served>)

  ghost predicate FleetOk(f: Fleet) {
    NoDup(f.names) && f.served.Keys == SetOf(f.names) && forall e :: e in f.served ==> Shapes(f.served[e].m)
  }

  /** The caches each engine holds. */
  type Lanes = map<string, map<Id, Lane>>

  function LaneAt(es: Lanes, e: string, id: Id): Option<Lane> { if e in es then LaneOf(es[e], id) else None }

  /** A request's assigned model if there is one by that name, else the first, else nothing. */
  function EngineFor(f: Fleet, r: Req): (e: Option<string>)
    ensures r.model.Some? && r.model.value in f.names ==> e == r.model
    ensures !(r.model.Some? && r.model.value in f.names) ==> e == if f.names == [] then None else Some(f.names[0])
  {
    if r.model.Some? && r.model.value in f.names then r.model
    else if f.names != [] then Some(f.names[0])
    else None
  }

  ghost predicate CanStep(f: Fleet, r: Req, e: string, lane: Option<Lane>) {
    e in f.served && Shapes(f.served[e].m) && (r.status.Generating? ==> CanMove(f.served[e], r, lane))
  }

  /** What one inference step does to one request and its cache at engine e. */
  ghost function StepRequest(f: Fleet, r: Req, e: string, lane: Option<Lane>): (Req, Option<Lane>)
    requires CanStep(f, r, e, lane)
  {
    match r.status
    case Prefill => (PrefillReq(f.served[e], r), PrefillLane(f.served[e], r))
    case Generating => Move(f.served[e], r, lane)
    case _ => (r, lane)
  }

  ghost predicate AtEngine(f: Fleet, r: Req, id: Id, e: string) { r.id == id && EngineFor(f, r) == Some(e) }

  /** The requests of an inference step: distinct, and each able to take it. */
  ghost predicate CanInfer(f: Fleet, es: Lanes, rs: seq<Req>) {
    && es.Keys == f.served.Keys
    && (forall i, j :: 0 <= i < j < |rs| ==> rs[i].id != rs[j].id)
    && (forall i :: 0 <= i < |rs| && EngineFor(f, rs[i]).Some? ==>
         CanStep(f, rs[i], EngineFor(f, rs[i]).value, LaneAt(es, EngineFor(f, rs[i]).value, rs[i].id)))
  }

  /** r and its cache after the step (moved) or before it. */
  ghost predicate Stepped(f: Fleet, es: Lanes, r: Req, moved: bool, es': Lanes, r': Req)
    requires EngineFor(f, r).Some? ==> CanStep(f, r, EngineFor(f, r).value, LaneAt(es, EngineFor(f, r).value, r.id))
  {
    if EngineFor(f, r).None? then r' == r
    else
      var e := EngineFor(f, r).value;
      var lane := LaneAt(es, e, r.id);
      (r', LaneAt(es', e, r.id)) == if moved then StepRequest(f, r, e, lane) else (r, lane)
  }

  /** The requests at the positions in done have taken the step, each as if alone, and nothing else changed. */
  ghost predicate Inferring(f: Fleet, es: Lanes, rs: seq<Req>, done: set<nat>, es': Lanes, rs': seq<Req>)
    requires CanInfer(f, es, rs)
  {
    && es'.Keys == es.Keys && |rs'| == |rs|
    && (forall i :: 0 <= i < |rs| ==> Stepped(f, es, rs[i], i in done, es', rs'[i]))
    && (forall e, id :: (forall i :: 0 <= i < |rs| ==> !AtEngine(f, rs[i], id, e)) ==> LaneAt(es', e, id) == LaneAt(es, e, id))
  }

  /** An inference step: every request takes it as if alone. */
  ghost predicate Inferred(f: Fleet, es: Lanes, rs: seq<Req>, es': Lanes, rs': seq<Req>)
    requires CanInfer(f, es, rs)
  {
    Inferring(f, es, rs, Range(|rs|), es', rs')
  }

  // ----- one request, or one engine's group, at a time -----

  lemma InferringNone(f: Fleet, es: Lanes, rs: seq<Req>)
    requires CanInfer(f, es, rs)
    ensures Inferring(f, es, rs, {}, es, rs)
  {
  }

  lemma InferringAll(f: Fleet, es: Lanes, rs: seq<Req>, done: set<nat>, es': Lanes, rs': seq<Req>)
    requires CanInfer(f, es, rs) && Inferring(f, es, rs, done, es', rs') && forall i: nat :: i < |rs| ==> i in done
    ensures Inferred(f, es, rs, es', rs')
  {
    forall i | 0 <= i < |rs| ensures Stepped(f, es, rs[i], true, es', rs'[i]) {
      assert Stepped(f, es, rs[i], i in done, es', rs'[i]);
    }
  }

  /** A request the step leaves alone. */
  ghost predicate Idle(f: Fleet, r: Req) { EngineFor(f, r).None? || (!r.status.Prefill? && !r.status.Generating?) }

  lemma InferringIdle(f: Fleet, es: Lanes, rs: seq<Req>, done: set<nat>, k: nat, es': Lanes, rs': seq<Req>)
    requires CanInfer(f, es, rs) && Inferring(f, es, rs, done, es', rs') && k < |rs| && Idle(f, rs[k])
    ensures Inferring(f, es, rs, done + {k}, es', rs') && rs'[k] == rs[k]
  {
    forall i | 0 <= i < |rs| ensures Stepped(f, es, rs[i], i in done + {k}, es', rs'[i]) {
      assert Stepped(f, es, rs[i], i in done, es', rs'[i]);
    }
    assert Stepped(f, es, rs[k], k in done, es', rs'[k]);
  }

  lemma OtherLane(es: Lanes, e: string, lanes: map<Id, Lane>, e': string, id: Id)
    requires e in es
    ensures LaneAt(es[e := lanes], e', id) == if e' == e then LaneOf(lanes, id) else LaneAt(es, e', id)
  {
  }

  /** A group of engine e takes the step together: lanes' and group' are what a batched call leaves. */
  ghost predicate GroupOf(f: Fleet, rs: seq<Req>, done: set<nat>, ks: seq<nat>, e: string) {
    && NoDup(ks) && e in f.served
    && forall j :: 0 <= j < |ks| ==> ks[j] < |rs| && ks[j] !in done && EngineFor(f, rs[ks[j]]) == Some(e)
  }

  ghost predicate GroupStepped(f: Fleet, es: Lanes, rs: seq<Req>, done: set<nat>, ks: seq<nat>, e: string,
                               lanes: map<Id, Lane>, lanes': map<Id, Lane>, rs': seq<Req>, rs'': seq<Req>)
    requires CanInfer(f, es, rs) && GroupOf(f, rs, done, ks, e)
  {
    && |rs''| == |rs'| == |rs|
    && (forall i: nat :: i < |rs| && i !in ks ==> rs''[i] == rs'[i])
    && (forall j :: 0 <= j < |ks| ==> MemberStepped(f, es, rs, ks[j], e, lanes', rs''))
    && (forall id :: (forall j :: 0 <= j < |ks| ==> rs[ks[j]].id != id) ==> LaneOf(lanes', id) == LaneOf(lanes, id))
  }

  ghost predicate MemberStepped(f: Fleet, es: Lanes, rs: seq<Req>, k: nat, e: string, lanes': map<Id, Lane>, rs'': seq<Req>) {
    && k < |rs| && k < |rs''| && CanStep(f, rs[k], e, LaneAt(es, e, rs[k].id))
    && (rs''[k], LaneOf(lanes', rs[k].id)) == StepRequest(f, rs[k], e, LaneAt(es, e, rs[k].id))
  }

  lemma InferringGroup(f: Fleet, es: Lanes, rs: seq<Req>, done: set<nat>, ks: seq<nat>, e: string,
                       es': Lanes, lanes': map<Id, Lane>, rs': seq<Req>, rs'': seq<Req>)
    requires CanInfer(f, es, rs) && Inferring(f, es, rs, done, es', rs') && GroupOf(f, rs, done, ks, e)
    requires GroupStepped(f, es, rs, done, ks, e, es'[e], lanes', rs', rs'')
    ensures Inferring(f, es, rs, done + SetOf(ks), es'[e := lanes'], rs'')
  {
    var es2 := es'[e := lanes'];
    forall i | 0 <= i < |rs| ensures Stepped(f, es, rs[i], i in done + SetOf(ks), es2, rs''[i]) {
      if i in ks {
        var j :| 0 <= j < |ks| && ks[j] == i;
        assert MemberStepped(f, es, rs, ks[j], e, lanes', rs'');
      } else {
        assert Stepped(f, es, rs[i], i in done, es', rs'[i]);
        OutsideGroup(f, rs, done, ks, e, i);
        if EngineFor(f, rs[i]).Some? { OtherLane(es', e, lanes', EngineFor(f, rs[i]).value, rs[i].id); }
      }
    }
    forall e', id | forall i :: 0 <= i < |rs| ==> !AtEngine(f, rs[i], id, e')
      ensures LaneAt(es2, e', id) == LaneAt(es, e', id)
    {
      OtherLane(es', e, lanes', e', id);
      if e' == e {
        forall j | 0 <= j < |ks| ensures rs[ks[j]].id != id { assert !AtEngine(f, rs[ks[j]], id, e); }
      }
    }
  }

  lemma OutsideGroup(f: Fleet, rs: seq<Req>, done: set<nat>, ks: seq<nat>, e: string, i: nat)
    requires GroupOf(f, rs, done, ks, e) && i < |rs| && i !in ks
    requires forall i, j :: 0 <= i < j < |rs| ==> rs[i].id != rs[j].id
    ensures forall j :: 0 <= j < |ks| ==> rs[ks[j]].id != rs[i].id
  {
    forall j | 0 <= j < |ks| ensures rs[ks[j]].id != rs[i].id { assert ks[j] in ks; }
  }
}
