/** The server object: engines by name, and the inference step that prefills one by one and decodes per engine. */
module LiteServe {
  import opened Types
  import opened EngineModel
  import opened Inference
  import opened ServerModel
  import SchedAdmission
  import SchedStep
  import SchedClosure
  import SchedFifo
  import SchedRuns
  import Scheduling
  import SP = ServerProgress
  import SR = ServerRuns

  // ----- grouping by engine -----

  /** groups holds, per engine in order, the positions below n still to be decoded; done the others below n. */
  ghost predicate Grouped(f: Fleet, rs: seq<Req>, n: nat, done: set<nat>, order: seq<string>, groups: map<string, seq<nat>>)
    requires n <= |rs|
  {
    && NoDup(order) && groups.Keys == SetOf(order)
    && (forall e :: e in groups ==> GroupOf(f, rs, done, groups[e], e) && Below(rs, groups[e], n))
    && (forall k :: k in done ==> k < n)
    && (forall k: nat :: k < n && k !in done ==> exists e :: e in groups && k in groups[e])
  }

  predicate Below(rs: seq<Req>, ks: seq<nat>, n: nat)
    requires n <= |rs|
  {
    forall k :: k in ks ==> k < n && rs[k].status.Generating?
  }

  lemma GroupedDone(f: Fleet, rs: seq<Req>, n: nat, done: set<nat>, order: seq<string>, groups: map<string, seq<nat>>)
    requires n < |rs| && Grouped(f, rs, n, done, order, groups)
    ensures Grouped(f, rs, n + 1, done + {n}, order, groups)
  {
    forall e | e in groups ensures GroupOf(f, rs, done + {n}, groups[e], e) && Below(rs, groups[e], n + 1) {
      assert forall j :: 0 <= j < |groups[e]| ==> groups[e][j] in groups[e];
    }
  }

  /** setdefault(engine, []).append(request) */
  function Joined(groups: map<string, seq<nat>>, e: string, k: nat): map<string, seq<nat>> {
    groups[e := (if e in groups then groups[e] else []) + [k]]
  }

  function OrderWith(order: seq<string>, groups: map<string, seq<nat>>, e: string): seq<string> {
    if e in groups then order else order + [e]
  }

  lemma GroupedJoin(f: Fleet, rs: seq<Req>, n: nat, done: set<nat>, order: seq<string>, groups: map<string, seq<nat>>, e: string)
    requires n < |rs| && Grouped(f, rs, n, done, order, groups)
    requires EngineFor(f, rs[n]) == Some(e) && e in f.served && rs[n].status.Generating?
    ensures Grouped(f, rs, n + 1, done, OrderWith(order, groups, e), Joined(groups, e, n))
  {
    var groups', order' := Joined(groups, e, n), OrderWith(order, groups, e);
    if e !in groups {
      NoDupAppend(order, e);
      SetOfAppend(order, e);
    }
    forall x | x in groups' ensures GroupOf(f, rs, done, groups'[x], x) && Below(rs, groups'[x], n + 1) {
      JoinedGroup(f, rs, n, done, order, groups, e, x);
    }
    forall k: nat | k < n + 1 && k !in done ensures exists x :: x in groups' && k in groups'[x] {
      if k < n { var x :| x in groups && k in groups[x]; }
      JoinedMember(groups, e, n, k);
    }
  }

  lemma JoinedGroup(f: Fleet, rs: seq<Req>, n: nat, done: set<nat>, order: seq<string>, groups: map<string, seq<nat>>, e: string, x: string)
    requires n < |rs| && Grouped(f, rs, n, done, order, groups) && x in Joined(groups, e, n)
    requires EngineFor(f, rs[n]) == Some(e) && e in f.served && rs[n].status.Generating?
    ensures GroupOf(f, rs, done, Joined(groups, e, n)[x], x) && Below(rs, Joined(groups, e, n)[x], n + 1)
  {
    if x in groups { assert GroupOf(f, rs, done, groups[x], x) && Below(rs, groups[x], n); }
    if x == e && e in groups { NoDupAppend(groups[e], n); }
  }

  lemma JoinedMember(groups: map<string, seq<nat>>, e: string, n: nat, k: nat)
    requires k == n || exists x :: x in groups && k in groups[x]
    ensures exists x :: x in Joined(groups, e, n) && k in Joined(groups, e, n)[x]
  {
    var groups' := Joined(groups, e, n);
    if k == n {
      assert e in groups' && k in groups'[e];
    } else {
      var x :| x in groups && k in groups[x];
      assert x in groups' && k in groups'[x];
    }
  }

  /** The groups from position g of the order on are still to come, and cover everything not done. */
  ghost predicate Remaining(f: Fleet, rs: seq<Req>, done: set<nat>, order: seq<string>, groups: map<string, seq<nat>>, g: nat) {
    && NoDup(order) && groups.Keys == SetOf(order)
    && (forall h :: g <= h < |order| ==> GroupOf(f, rs, done, groups[order[h]], order[h]) && Below(rs, groups[order[h]], |rs|))
    && (forall k: nat :: k < |rs| && k !in done ==> exists h :: g <= h < |order| && k in groups[order[h]])
  }

  lemma RemainingAll(f: Fleet, rs: seq<Req>, done: set<nat>, order: seq<string>, groups: map<string, seq<nat>>)
    requires Grouped(f, rs, |rs|, done, order, groups)
    ensures Remaining(f, rs, done, order, groups, 0)
  {
    forall k: nat | k < |rs| && k !in done ensures exists h :: 0 <= h < |order| && k in groups[order[h]] {
      var e :| e in groups && k in groups[e];
      var h :| 0 <= h < |order| && order[h] == e;
    }
  }

  lemma GroupsApart(f: Fleet, rs: seq<Req>, done: set<nat>, ks: seq<nat>, e: string, ks': seq<nat>, e': string)
    requires GroupOf(f, rs, done, ks, e) && GroupOf(f, rs, done, ks', e') && e != e'
    ensures forall j :: 0 <= j < |ks'| ==> ks'[j] !in SetOf(ks)
  {
    forall k | k in ks ensures k < |rs| && EngineFor(f, rs[k]) == Some(e) {
      var j :| 0 <= j < |ks| && ks[j] == k;
    }
  }

  lemma RemainingNext(f: Fleet, rs: seq<Req>, done: set<nat>, order: seq<string>, groups: map<string, seq<nat>>, g: nat)
    requires Remaining(f, rs, done, order, groups, g) && g < |order|
    ensures Remaining(f, rs, done + SetOf(groups[order[g]]), order, groups, g + 1)
  {
    var ks := groups[order[g]];
    forall h | g < h < |order|
      ensures GroupOf(f, rs, done + SetOf(ks), groups[order[h]], order[h])
    {
      GroupsApart(f, rs, done, ks, order[g], groups[order[h]], order[h]);
    }
    forall k: nat | k < |rs| && k !in done + SetOf(ks) ensures exists h :: g + 1 <= h < |order| && k in groups[order[h]] {
      var h :| g <= h < |order| && k in groups[order[h]];
    }
  }

  // ----- a decoded group -----

  /** rs with the entries at ks replaced by gs. */
  ghost predicate Replaced(rs: seq<Req>, ks: seq<nat>, gs: seq<Req>, rs': seq<Req>)
    requires |gs| == |ks| && forall j :: 0 <= j < |ks| ==> ks[j] < |rs|
  {
    && |rs'| == |rs|
    && (forall j :: 0 <= j < |ks| ==> rs'[ks[j]] == gs[j])
    && (forall i: nat :: i < |rs| && i !in ks ==> rs'[i] == rs[i])
  }

  method WriteBack(rs: seq<Req>, ks: seq<nat>, gs: seq<Req>) returns (rs': seq<Req>)
    requires |gs| == |ks| && NoDup(ks) && forall j :: 0 <= j < |ks| ==> ks[j] < |rs|
    ensures Replaced(rs, ks, gs, rs')
  {
    rs' := rs;
    for j := 0 to |ks|
      invariant |rs'| == |rs|
      invariant forall i :: 0 <= i < j ==> rs'[ks[i]] == gs[i]
      invariant forall i: nat :: i < |rs| && i !in ks ==> rs'[i] == rs[i]
    {
      rs' := rs'[ks[j] := gs[j]];
    }
  }

  lemma MemberReady(f: Fleet, es: Lanes, rs: seq<Req>, done: set<nat>, k: nat, e: string, es': Lanes, rs': seq<Req>)
    requires CanInfer(f, es, rs) && Inferring(f, es, rs, done, es', rs')
    requires k < |rs| && k !in done && EngineFor(f, rs[k]) == Some(e) && e in f.served && rs[k].status.Generating?
    ensures rs'[k] == rs[k] && LaneOf(es'[e], rs[k].id) == LaneAt(es, e, rs[k].id)
    ensures CanMove(f.served[e], rs[k], LaneOf(es'[e], rs[k].id))
    ensures CanStep(f, rs[k], e, LaneAt(es, e, rs[k].id))
    ensures StepRequest(f, rs[k], e, LaneAt(es, e, rs[k].id)) == Move(f.served[e], rs[k], LaneOf(es'[e], rs[k].id))
  {
    assert Stepped(f, es, rs[k], k in done, es', rs'[k]);
  }

  lemma GroupReady(f: Fleet, es: Lanes, rs: seq<Req>, done: set<nat>, ks: seq<nat>, e: string, es': Lanes, rs': seq<Req>)
    requires CanInfer(f, es, rs) && Inferring(f, es, rs, done, es', rs')
    requires GroupOf(f, rs, done, ks, e) && Below(rs, ks, |rs|)
    ensures CanDecode(f.served[e], es'[e], Selected(rs', ks))
  {
    var group := Selected(rs', ks);
    forall j | 0 <= j < |ks| ensures group[j] == rs[ks[j]] && CanMove(f.served[e], group[j], LaneOf(es'[e], group[j].id)) {
      assert ks[j] in ks;
      MemberReady(f, es, rs, done, ks[j], e, es', rs');
    }
    forall i, j | 0 <= i < j < |ks| ensures group[i].id != group[j].id {
      assert ks[i] != ks[j];
      assert rs[ks[i]].id != rs[ks[j]].id;
    }
  }

  lemma GroupDecoded(f: Fleet, es: Lanes, rs: seq<Req>, done: set<nat>, ks: seq<nat>, e: string, es': Lanes, rs': seq<Req>,
                     lanes': map<Id, Lane>, group': seq<Req>, rs'': seq<Req>)
    requires CanInfer(f, es, rs) && Inferring(f, es, rs, done, es', rs')
    requires GroupOf(f, rs, done, ks, e) && Below(rs, ks, |rs|)
    requires CanDecode(f.served[e], es'[e], Selected(rs', ks))
    requires Decoded(f.served[e], es'[e], Selected(rs', ks), lanes', group') && Replaced(rs', ks, group', rs'')
    ensures GroupStepped(f, es, rs, done, ks, e, es'[e], lanes', rs', rs'')
  {
    var group := Selected(rs', ks);
    forall j | 0 <= j < |ks| ensures group[j] == rs[ks[j]] && MemberStepped(f, es, rs, ks[j], e, lanes', rs'') {
      assert ks[j] in ks;
      MemberReady(f, es, rs, done, ks[j], e, es', rs');
      assert (group'[j], LaneOf(lanes', group[j].id)) == Move(f.served[e], group[j], LaneOf(es'[e], group[j].id));
    }
    forall id | forall j :: 0 <= j < |ks| ==> rs[ks[j]].id != id ensures LaneOf(lanes', id) == LaneOf(es'[e], id) {
      assert !HasId(group, id);
    }
  }

  lemma GroupMoved(f: Fleet, es: Lanes, rs: seq<Req>, done: set<nat>, ks: seq<nat>, e: string, es': Lanes, rs': seq<Req>,
                   lanes': map<Id, Lane>, group': seq<Req>, rs'': seq<Req>)
    requires CanInfer(f, es, rs) && Inferring(f, es, rs, done, es', rs')
    requires GroupOf(f, rs, done, ks, e) && Below(rs, ks, |rs|)
    requires CanDecode(f.served[e], es'[e], Selected(rs', ks))
    requires Decoded(f.served[e], es'[e], Selected(rs', ks), lanes', group') && Replaced(rs', ks, group', rs'')
    ensures Inferring(f, es, rs, done + SetOf(ks), es'[e := lanes'], rs'')
  {
    GroupDecoded(f, es, rs, done, ks, e, es', rs', lanes', group', rs'');
    InferringGroup(f, es, rs, done, ks, e, es', lanes', rs', rs'');
  }

  lemma PrefillGroup(f: Fleet, es: Lanes, rs: seq<Req>, done: set<nat>, k: nat, e: string, lanes: map<Id, Lane>, rs': seq<Req>)
    requires CanInfer(f, es, rs) && k < |rs| && k !in done && |rs'| == |rs|
    requires EngineFor(f, rs[k]) == Some(e) && e in f.served && rs[k].status.Prefill?
    ensures GroupOf(f, rs, done, [k], e)
    ensures var sv := f.served[e];
            GroupStepped(f, es, rs, done, [k], e, lanes, SetLane(lanes, rs[k].id, PrefillLane(sv, rs[k])), rs',
                         rs'[k := PrefillReq(sv, rs[k])])
  {
    var sv, r := f.served[e], rs[k];
    var lanes', rs'' := SetLane(lanes, r.id, PrefillLane(sv, r)), rs'[k := PrefillReq(sv, r)];
    assert MemberStepped(f, es, rs, k, e, lanes', rs'');
    forall id | forall j :: 0 <= j < |[k]| ==> rs[[k][j]].id != id ensures LaneOf(lanes', id) == LaneOf(lanes, id) {
      assert rs[[k][0]].id != id;
    }
  }

  lemma PrefillStepped(f: Fleet, es: Lanes, rs: seq<Req>, done: set<nat>, k: nat, e: string, es': Lanes, rs': seq<Req>)
    requires CanInfer(f, es, rs) && Inferring(f, es, rs, done, es', rs') && k < |rs| && k !in done
    requires EngineFor(f, rs[k]) == Some(e) && e in f.served && rs[k].status.Prefill?
    ensures rs'[k] == rs[k]
    ensures var sv := f.served[e];
            Inferring(f, es, rs, done + {k}, es'[e := SetLane(es'[e], rs[k].id, PrefillLane(sv, rs[k]))], rs'[k := PrefillReq(sv, rs[k])])
  {
    var sv, r := f.served[e], rs[k];
    assert Stepped(f, es, rs[k], k in done, es', rs'[k]);
    PrefillGroup(f, es, rs, done, k, e, es'[e], rs');
    InferringGroup(f, es, rs, done, [k], e, es', SetLane(es'[e], r.id, PrefillLane(sv, r)), rs', rs'[k := PrefillReq(sv, r)]);
    assert SetOf([k]) == {k};
  }

  lemma OneReplaced(before: Lanes, after: Lanes, e: string)
    requires after.Keys == before.Keys && e in before
    requires forall x :: x in before && x != e ==> after[x] == before[x]
    ensures after == before[e := after[e]]
  {
  }

  class LiteServeApp {
    const fleet: Fleet
    const engines: map<string, InferenceEngine>
    const scheduler: Scheduling.Scheduler

    ghost function Caches(): Lanes
      reads engines.Values
    {
      map e | e in engines :: engines[e].View()
    }

    /** One engine object per loaded model. */
    ghost predicate EnginesSound()
      reads engines.Values
    {
      && FleetOk(fleet) && engines.Keys == fleet.served.Keys
      && (forall e :: e in engines ==> engines[e].sv == fleet.served[e] && engines[e].Sound())
      && DistinctEngines()
    }

    ghost predicate DistinctEngines() {
      forall e, e' :: e in engines && e' in engines && e != e' ==> engines[e] != engines[e']
    }

    constructor (fleet: Fleet, engines: map<string, InferenceEngine>, scheduler: Scheduling.Scheduler)
      requires FleetOk(fleet) && engines.Keys == fleet.served.Keys
      requires forall e :: e in engines ==> engines[e].sv == fleet.served[e] && engines[e].Sound()
      requires forall e, e' :: e in engines && e' in engines && e != e' ==> engines[e] != engines[e']
      ensures this.fleet == fleet && this.engines == engines && this.scheduler == scheduler && EnginesSound()
    {
      this.fleet, this.engines, this.scheduler := fleet, engines, scheduler;
    }

    twostate lemma OneChanged(e: string)
      requires old(EnginesSound()) && e in engines && engines[e].Sound()
      requires forall x :: x in engines && x != e ==> unchanged(engines[x])
      ensures EnginesSound() && Caches() == old(Caches())[e := engines[e].View()]
    {
      forall x | x in engines && x != e ensures engines[x].Sound() && engines[x].View() == old(engines[x].View()) {
        assert unchanged(engines[x]);
      }
      OneReplaced(old(Caches()), Caches(), e);
    }

    method PrefillAt(e: string, r: Req) returns (r': Req)
      requires EnginesSound() && e in engines
      modifies engines[e]
      ensures EnginesSound() && r' == PrefillReq(fleet.served[e], r)
      ensures Caches() == old(Caches())[e := SetLane(old(Caches())[e], r.id, PrefillLane(fleet.served[e], r))]
    {
      assert forall x :: x in engines && x != e ==> engines[x] != engines[e];
      r' := engines[e].PrefillRequest(r);
      OneChanged(e);
    }

    method DecodeAt(e: string, group: seq<Req>) returns (group': seq<Req>)
      requires EnginesSound() && e in engines && CanDecode(fleet.served[e], Caches()[e], group)
      modifies engines[e]
      ensures EnginesSound() && e in Caches() && Caches() == old(Caches())[e := Caches()[e]]
      ensures Decoded(fleet.served[e], old(Caches())[e], group, Caches()[e], group')
    {
      assert forall x :: x in engines && x != e ==> engines[x] != engines[e];
      group' := engines[e].DecodeBatch(group);
      OneChanged(e);
    }

    /** Where the first loop over the batch stands at position n. */
    ghost predicate Sorting(es: Lanes, rs: seq<Req>, n: nat, done: set<nat>, rs': seq<Req>,
                            order: seq<string>, groups: map<string, seq<nat>>)
      requires CanInfer(fleet, es, rs) && n <= |rs|
      reads engines.Values
    {
      && EnginesSound() && Inferring(fleet, es, rs, done, Caches(), rs')
      && Grouped(fleet, rs, n, done, order, groups)
    }

    lemma SortAt(es: Lanes, rs: seq<Req>, n: nat, done: set<nat>, rs': seq<Req>,
                 order: seq<string>, groups: map<string, seq<nat>>)
      requires CanInfer(fleet, es, rs) && n < |rs| && Sorting(es, rs, n, done, rs', order, groups)
      ensures |rs'| == |rs| && rs'[n] == rs[n]
      ensures EngineFor(fleet, rs[n]).Some? ==> EngineFor(fleet, rs[n]).value in engines
    {
      assert Stepped(fleet, es, rs[n], n in done, Caches(), rs'[n]);
    }

    lemma SortIdle(es: Lanes, rs: seq<Req>, n: nat, done: set<nat>, rs': seq<Req>,
                   order: seq<string>, groups: map<string, seq<nat>>)
      requires CanInfer(fleet, es, rs) && n < |rs| && Sorting(es, rs, n, done, rs', order, groups) && Idle(fleet, rs[n])
      ensures Sorting(es, rs, n + 1, done + {n}, rs', order, groups)
    {
      GroupedDone(fleet, rs, n, done, order, groups);
      InferringIdle(fleet, es, rs, done, n, Caches(), rs');
    }

    lemma SortGroup(es: Lanes, rs: seq<Req>, n: nat, done: set<nat>, rs': seq<Req>,
                    order: seq<string>, groups: map<string, seq<nat>>, e: string)
      requires CanInfer(fleet, es, rs) && n < |rs| && Sorting(es, rs, n, done, rs', order, groups)
      requires EngineFor(fleet, rs[n]) == Some(e) && rs[n].status.Generating?
      ensures Sorting(es, rs, n + 1, done, rs', OrderWith(order, groups, e), Joined(groups, e, n))
    {
      GroupedJoin(fleet, rs, n, done, order, groups, e);
    }

    method SortPrefill(ghost es: Lanes, rs: seq<Req>, n: nat, ghost done: set<nat>, rs': seq<Req>,
                       ghost order: seq<string>, ghost groups: map<string, seq<nat>>, e: string) returns (rs'': seq<Req>)
      requires CanInfer(fleet, es, rs) && n < |rs| && Sorting(es, rs, n, done, rs', order, groups)
      requires EngineFor(fleet, rs[n]) == Some(e) && e in engines && rs[n].status.Prefill?
      modifies engines[e]
      ensures Sorting(es, rs, n + 1, done + {n}, rs'', order, groups)
    {
      GroupedDone(fleet, rs, n, done, order, groups);
      PrefillStepped(fleet, es, rs, done, n, e, Caches(), rs');
      var r := PrefillAt(e, rs'[n]);
      rs'' := rs'[n := r];
    }

    /** One round of that loop: prefill the request, put it in its engine's group, or leave it alone. */
    method SortRequest(ghost es: Lanes, rs: seq<Req>, n: nat, ghost done: set<nat>, rs': seq<Req>,
                       order: seq<string>, groups: map<string, seq<nat>>)
      returns (rs'': seq<Req>, order': seq<string>, groups': map<string, seq<nat>>, ghost done': set<nat>)
      requires CanInfer(fleet, es, rs) && n < |rs| && Sorting(es, rs, n, done, rs', order, groups)
      modifies engines.Values
      ensures Sorting(es, rs, n + 1, done', rs'', order', groups')
    {
      SortAt(es, rs, n, done, rs', order, groups);
      var engine := EngineFor(fleet, rs'[n]);
      if rs'[n].Finished() || engine.None? || (!rs'[n].status.Prefill? && !rs'[n].status.Generating?) {
        SortIdle(es, rs, n, done, rs', order, groups);
        return rs', order, groups, done + {n};
      }
      if rs'[n].status.Generating? {
        SortGroup(es, rs, n, done, rs', order, groups, engine.value);
        return rs', OrderWith(order, groups, engine.value), Joined(groups, engine.value, n), done;
      }
      rs'' := SortPrefill(es, rs, n, done, rs', order, groups, engine.value);
      order', groups', done' := order, groups, done + {n};
    }

    /** Where the second loop stands: the groups before position g are decoded. */
    ghost predicate Decoding(es: Lanes, rs: seq<Req>, done: set<nat>, rs': seq<Req>,
                             order: seq<string>, groups: map<string, seq<nat>>, g: nat)
      requires CanInfer(fleet, es, rs)
      reads engines.Values
    {
      && EnginesSound() && Inferring(fleet, es, rs, done, Caches(), rs')
      && Remaining(fleet, rs, done, order, groups, g)
    }

    method DecodeGroup(ghost es: Lanes, ghost rs: seq<Req>, ghost done: set<nat>, rs': seq<Req>, e: string, ks: seq<nat>)
      returns (rs'': seq<Req>)
      requires EnginesSound() && CanInfer(fleet, es, rs) && Inferring(fleet, es, rs, done, Caches(), rs')
      requires e in engines && GroupOf(fleet, rs, done, ks, e) && Below(rs, ks, |rs|)
      modifies engines[e]
      ensures EnginesSound() && Inferring(fleet, es, rs, done + SetOf(ks), Caches(), rs'')
    {
      GroupReady(fleet, es, rs, done, ks, e, Caches(), rs');
      ghost var before := Caches();
      var group := Selected(rs', ks);
      var group' := DecodeAt(e, group);
      rs'' := WriteBack(rs', ks, group');
      GroupMoved(fleet, es, rs, done, ks, e, before, rs', Caches()[e], group', rs'');
    }

    /** One inference step over the batch: prefills one by one, then one batched decode per engine. */
    method RunInferenceStep(rs: seq<Req>) returns (rs': seq<Req>)
      requires EnginesSound() && CanInfer(fleet, Caches(), rs)
      modifies engines.Values
      ensures EnginesSound() && Inferred(fleet, old(Caches()), rs, Caches(), rs')
    {
      ghost var es, done: set<nat> := Caches(), {};
      var order, groups: map<string, seq<nat>> := [], map[];
      rs' := rs;
      InferringNone(fleet, es, rs);
      for n := 0 to |rs|
        invariant Sorting(es, rs, n, done, rs', order, groups)
      {
        rs', order, groups, done := SortRequest(es, rs, n, done, rs', order, groups);
      }
      RemainingAll(fleet, rs, done, order, groups);
      for g := 0 to |order|
        invariant Decoding(es, rs, done, rs', order, groups, g)
      {
        RemainingNext(fleet, rs, done, order, groups, g);
        rs' := DecodeGroup(es, rs, done, rs', order[g], groups[order[g]]);
        done := done + SetOf(groups[order[g]]);
      }
      InferringAll(fleet, es, rs, done, Caches(), rs');
    }

    ghost function World(): SR.World
      reads engines.Values, scheduler, scheduler.batch, scheduler.kv, scheduler.kv.pool
    {
      SR.World(scheduler.View(), Caches())
    }

    ghost predicate Sound()
      reads engines.Values, scheduler, scheduler.batch, scheduler.kv, scheduler.kv.pool
    {
      EnginesSound() && scheduler.Sound()
    }

    twostate lemma EnginesKept()
      requires old(EnginesSound()) && forall e :: e in engines ==> unchanged(engines[e])
      ensures EnginesSound() && Caches() == old(Caches())
    {
    }

    twostate lemma SchedulerKept()
      requires old(scheduler.Sound()) && unchanged(scheduler) && unchanged(scheduler.batch)
      requires unchanged(scheduler.kv) && unchanged(scheduler.kv.pool)
      ensures scheduler.Sound() && scheduler.View() == old(scheduler.View())
    {
    }

    /** The inference half of a pass. */
    method InferRequests() returns (rs: seq<Req>)
      requires Sound() && CanInfer(fleet, Caches(), scheduler.View().active)
      modifies engines.Values
      ensures Sound() && scheduler.View() == old(scheduler.View())
      ensures Inferred(fleet, old(Caches()), old(scheduler.View()).active, Caches(), rs)
    {
      rs := RunInferenceStep(scheduler.batch.requests);
      SchedulerKept();
    }

    /** The batch's requests carry the results of the step. */
    method HandOver(rs: seq<Req>)
      requires Sound()
      modifies scheduler.batch
      ensures Sound() && World() == SR.World(old(scheduler.View()).(active := rs), old(Caches()))
    {
      scheduler.Adopt(rs);
      EnginesKept();
    }

    /** The scheduling half of a pass. */
    method FormBatch(now: real) returns (ending: Scheduling.Ending)
      requires Sound() && SchedAdmission.Well(scheduler.View())
      modifies scheduler, scheduler.batch, scheduler.kv, scheduler.kv.pool
      ensures Sound() && Caches() == old(Caches())
      ensures SchedStep.Step(scheduler.cfg, old(scheduler.View()), now) == Scheduling.Ended(ending, scheduler.View())
    {
      ending := TakeStep(now);
      EnginesKept();
    }

    method TakeStep(now: real) returns (ending: Scheduling.Ending)
      requires scheduler.Sound() && SchedAdmission.Well(scheduler.View())
      modifies scheduler, scheduler.batch, scheduler.kv, scheduler.kv.pool
      ensures scheduler.Sound()
      ensures SchedStep.Step(scheduler.cfg, old(scheduler.View()), now) == Scheduling.Ended(ending, scheduler.View())
    {
      ghost var ops;
      ending, ops := scheduler.ScheduleStep(now);
    }

    /** One pass of the generation loop: nothing while nothing is pending or running, else a scheduling step and,
        if it returns a batch, an inference step; a step that raises ends the pass. hung: it would not return. */
    method GenerationPass(now: real, ghost log: SR.Log) returns (hung: bool)
      requires Sound() && SR.Correct(fleet, World(), log) && now >= log.h.clock
      requires SchedAdmission.Well(scheduler.View())
      modifies scheduler, scheduler.batch, scheduler.kv, scheduler.kv.pool, engines.Values
      ensures Sound()
      ensures hung ==> SchedStep.Step(scheduler.cfg, old(scheduler.View()), now).Hangs?
      ensures !hung ==> SR.Passed(scheduler.cfg, fleet, old(World()), now, World())
    {
      hung := false;
      if |scheduler.pending| + |scheduler.batch.requests| == 0 {
        return;
      }
      ghost var w := World();
      var ending := FormBatch(now);
      if ending != Scheduling.Returned {
        return ending == Scheduling.Hung;
      }
      SR.Ticked(scheduler.cfg, fleet, w, log, now);
      if |scheduler.batch.requests| > 0 {
        var rs := InferRequests();
        HandOver(rs);
      }
    }

    /** The generation loop for as many passes as there are readings of the clock: together they are a run of the
        server, whatever each of them does, unless one hangs. With NORMAL requests that fit none hangs, and whoever
        had no more than that many passes to wait for is settled. */
    method GenerationLoop(nows: seq<real>, ghost log: SR.Log)
      returns (hung: bool, ghost acts: seq<SR.Action>, ghost log': SR.Log)
      requires Sound() && SR.Correct(fleet, World(), log)
      requires forall i, j :: 0 <= i < j < |nows| ==> nows[i] <= nows[j]
      requires nows != [] ==> nows[0] >= log.h.clock
      modifies scheduler, scheduler.batch, scheduler.kv, scheduler.kv.pool, engines.Values
      ensures Sound()
      ensures !hung ==> SP.Looped(scheduler.cfg, fleet, old(World()), log, |nows|, acts, World(), log')
      ensures SchedFifo.Plain(scheduler.cfg, old(World()).s) ==> !hung
    {
      ghost var w0 := World();
      hung, acts, log' := false, [], log;
      SP.LoopStarts(scheduler.cfg, fleet, w0, log);
      for i := 0 to |nows|
        invariant !hung && Sound() && SP.Looping(scheduler.cfg, fleet, w0, log, i, acts, World(), log')
        invariant i < |nows| ==> nows[i] >= log'.h.clock
      {
        hung, acts, log' := LoopOnce(nows[i], w0, log, i, acts, log', i + 1);
        if hung {
          return;
        }
      }
      SP.LoopEnds(scheduler.cfg, fleet, w0, log, |nows|, acts, World(), log');
    }

    method LoopOnce(now: real, ghost w0: SR.World, ghost log0: SR.Log, ghost n: nat,
                    ghost acts: seq<SR.Action>, ghost log: SR.Log, ghost n': nat)
      returns (hung: bool, ghost acts': seq<SR.Action>, ghost log': SR.Log)
      requires Sound() && SP.Looping(scheduler.cfg, fleet, w0, log0, n, acts, World(), log)
      requires now >= log.h.clock && n' == n + 1
      modifies scheduler, scheduler.batch, scheduler.kv, scheduler.kv.pool, engines.Values
      ensures Sound() && (SchedFifo.Plain(scheduler.cfg, w0.s) ==> !hung)
      ensures !hung ==> SP.Looping(scheduler.cfg, fleet, w0, log0, n', acts', World(), log') && log'.h.clock <= now
    {
      ghost var w := World();
      SchedRuns.LocatedWell(w.s, log.h);
      hung := GenerationPass(now, log);
      acts', log' := acts, log;
      if hung && SchedFifo.Plain(scheduler.cfg, w0.s) {
        SP.LoopNeverHangs(scheduler.cfg, fleet, w0, log0, n, acts, w, log, now);
      }
      if !hung {
        acts', log' := SP.LoopGoesOn(scheduler.cfg, fleet, w0, log0, n, acts, w, log, now, World(), n');
      }
    }
  }
}
