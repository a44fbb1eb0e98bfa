/** Request lists: who is in them, removal by id, and the stable eviction order. */
module SchedLists {
  import opened Types
  import opened SchedModel

  /** How many entries of a list carry an id. */
  function Count(rs: seq<Req>, id: Id): nat {
    if rs == [] then 0 else (if rs[0].id == id then 1 else 0) + Count(rs[1..], id)
  }

  ghost predicate Unique(rs: seq<Req>) { forall id :: Count(rs, id) <= 1 }

  lemma Tail<T>(x: T, s: seq<T>)
    ensures ([x] + s)[0] == x && ([x] + s)[1..] == s
  {
  }

  lemma {:induction false} CountAppend(a: seq<Req>, b: seq<Req>, id: Id)
    ensures Count(a + b, id) == Count(a, id) + Count(b, id)
  {
    if a == [] {
      assert a + b == b;
    } else {
      assert (a + b)[1..] == a[1..] + b;
      CountAppend(a[1..], b, id);
    }
  }

  lemma {:induction false} CountHas(rs: seq<Req>, id: Id)
    ensures Count(rs, id) > 0 <==> HasId(rs, id)
  {
    if rs != [] {
      CountHas(rs[1..], id);
      if HasId(rs[1..], id) {
        var i :| 0 <= i < |rs[1..]| && rs[1..][i].id == id;
        assert rs[i + 1].id == id;
      }
      if HasId(rs, id) {
        var i :| 0 <= i < |rs| && rs[i].id == id;
        if i > 0 { assert rs[1..][i - 1].id == id; }
      }
    }
  }

  /** An id is found just in case some entry has it, and then in such an entry. */
  lemma {:induction false} FindHas(rs: seq<Req>, id: Id)
    ensures Find(rs, id).Some? <==> HasId(rs, id)
    ensures Find(rs, id).Some? ==> Find(rs, id).value in rs && Find(rs, id).value.id == id
  {
    CountHas(rs, id);
    if rs != [] && rs[0].id != id {
      FindHas(rs[1..], id);
      CountHas(rs[1..], id);
    }
  }

  lemma CountMember(rs: seq<Req>, r: Req)
    requires r in rs
    ensures Count(rs, r.id) > 0
  {
    CountHas(rs, r.id);
  }

  /** With unique ids, the id determines the entry. */
  lemma {:induction false} SameEntry(rs: seq<Req>, a: Req, b: Req)
    requires Unique(rs) && a in rs && b in rs && a.id == b.id
    ensures a == b
  {
    if a in rs[1..] { CountMember(rs[1..], a); }
    if b in rs[1..] { CountMember(rs[1..], b); }
    assert Count(rs, a.id) <= 1;
    if a in rs[1..] && b in rs[1..] {
      UniqueTail(rs);
      SameEntry(rs[1..], a, b);
    }
  }

  lemma UniqueTail(rs: seq<Req>)
    requires Unique(rs) && rs != []
    ensures Unique(rs[1..]) && Count(rs[1..], rs[0].id) == 0
  {
    forall id ensures Count(rs[1..], id) <= 1 { assert Count(rs, id) <= 1; }
    assert Count(rs, rs[0].id) <= 1;
  }

  lemma {:induction false} CountRemove(rs: seq<Req>, id: Id, x: Id)
    ensures Count(RemoveId(rs, id), x) == if x == id && Count(rs, id) > 0 then Count(rs, x) - 1 else Count(rs, x)
  {
    if rs != [] && rs[0].id != id {
      Tail(rs[0], RemoveId(rs[1..], id));
      CountRemove(rs[1..], id, x);
    }
  }

  lemma {:induction false} RemoveLength(rs: seq<Req>, id: Id)
    ensures |RemoveId(rs, id)| == if Count(rs, id) > 0 then |rs| - 1 else |rs|
    ensures Count(rs, id) == 0 ==> RemoveId(rs, id) == rs
  {
    if rs != [] && rs[0].id != id {
      RemoveLength(rs[1..], id);
    }
  }

  lemma {:induction false} RemoveMembers(rs: seq<Req>, id: Id, r: Req)
    requires Unique(rs)
    ensures r in RemoveId(rs, id) <==> r in rs && r.id != id
  {
    if rs != [] {
      UniqueTail(rs);
      if rs[0].id != id {
        RemoveMembers(rs[1..], id, r);
      } else if r in rs[1..] {
        CountMember(rs[1..], r);
      }
    }
  }

  // ----- the eviction order -----

  function Movable(rs: seq<Req>): seq<Req> {
    if rs == [] then []
    else if rs[0].status.Prefill? then Movable(rs[1..])
    else [rs[0]] + Movable(rs[1..])
  }

  predicate Ordered(rs: seq<Req>) { forall i, j :: 0 <= i < j < |rs| ==> Before(rs[i], rs[j]) }

  lemma {:induction false} InsertMembers(r: Req, rs: seq<Req>, x: Req)
    ensures x in Insert(r, rs) <==> x == r || x in rs
  {
    if rs != [] && !Before(r, rs[0]) {
      InsertMembers(r, rs[1..], x);
    }
  }

  lemma {:induction false} InsertOrdered(r: Req, rs: seq<Req>)
    requires Ordered(rs)
    ensures Ordered(Insert(r, rs))
  {
    if rs != [] && !Before(r, rs[0]) {
      InsertOrdered(r, rs[1..]);
      var t := Insert(r, rs[1..]);
      forall i | 0 <= i < |t|
        ensures Before(rs[0], t[i])
      {
        InsertMembers(r, rs[1..], t[i]);
      }
    }
  }

  lemma {:induction false} CountInsert(r: Req, rs: seq<Req>, id: Id)
    ensures Count(Insert(r, rs), id) == Count(rs, id) + if r.id == id then 1 else 0
  {
    if rs == [] || Before(r, rs[0]) {
      Tail(r, rs);
    } else {
      Tail(rs[0], Insert(r, rs[1..]));
      CountInsert(r, rs[1..], id);
    }
  }

  /** sorted() keeps the entries and orders them by the key. */
  lemma {:induction false} SortedOrdered(rs: seq<Req>)
    ensures Ordered(Sorted(rs))
  {
    if rs != [] {
      SortedOrdered(rs[1..]);
      InsertOrdered(rs[0], Sorted(rs[1..]));
    }
  }

  lemma {:induction false} SortedMembers(rs: seq<Req>, x: Req)
    ensures x in Sorted(rs) <==> x in rs
  {
    if rs != [] {
      SortedMembers(rs[1..], x);
      InsertMembers(rs[0], Sorted(rs[1..]), x);
    }
  }

  lemma {:induction false} CountSorted(rs: seq<Req>, id: Id)
    ensures Count(Sorted(rs), id) == Count(rs, id)
  {
    if rs != [] {
      CountSorted(rs[1..], id);
      CountInsert(rs[0], Sorted(rs[1..]), id);
    }
  }

  lemma OrderedTail(rs: seq<Req>)
    requires Ordered(rs) && rs != []
    ensures Ordered(rs[1..]) && forall i :: 0 <= i < |rs[1..]| ==> Before(rs[0], rs[1..][i])
  {
  }

  lemma InsertFirst(r: Req, rs: seq<Req>)
    requires forall i :: 0 <= i < |rs| ==> Before(r, rs[i])
    ensures Insert(r, rs) == [r] + rs
  {
  }

  lemma {:induction false} InsertMovable(r: Req, rs: seq<Req>)
    requires Ordered(rs)
    ensures Movable(Insert(r, rs)) == if r.status.Prefill? then Movable(rs) else Insert(r, Movable(rs))
  {
    if rs == [] || Before(r, rs[0]) {
      Tail(r, rs);
      forall i | 0 <= i < |Movable(rs)|
        ensures Before(r, Movable(rs)[i])
      {
        MovableMembers(rs, Movable(rs)[i]);
      }
      InsertFirst(r, Movable(rs));
    } else {
      OrderedTail(rs);
      InsertMovable(r, rs[1..]);
      Tail(rs[0], Insert(r, rs[1..]));
      Tail(rs[0], Movable(rs[1..]));
    }
  }

  lemma {:induction false} MovableMembers(rs: seq<Req>, x: Req)
    ensures x in Movable(rs) <==> x in rs && !x.status.Prefill?
  {
    if rs != [] { MovableMembers(rs[1..], x); }
  }

  /** Filtering before or after the stable sort is the same. */
  lemma {:induction false} SortedMovable(rs: seq<Req>)
    ensures Movable(Sorted(rs)) == Sorted(Movable(rs))
  {
    if rs != [] {
      SortedMovable(rs[1..]);
      SortedOrdered(rs[1..]);
      InsertMovable(rs[0], Sorted(rs[1..]));
      Tail(rs[0], Movable(rs[1..]));
    }
  }

  lemma {:induction false} InsertRemove(r: Req, rs: seq<Req>, id: Id)
    requires Ordered(rs) && (r.id == id ==> Count(rs, id) == 0)
    ensures RemoveId(Insert(r, rs), id) == if r.id == id then rs else Insert(r, RemoveId(rs, id))
  {
    if rs == [] {
    } else if Before(r, rs[0]) {
      Tail(r, rs);
      OrderedTail(rs);
      if rs[0].id == id { InsertFirst(r, rs[1..]); }
    } else {
      OrderedTail(rs);
      Tail(rs[0], Insert(r, rs[1..]));
      InsertRemove(r, rs[1..], id);
    }
  }

  /** Removing a request before or after the stable sort is the same. */
  lemma {:induction false} SortedRemove(rs: seq<Req>, id: Id)
    requires Unique(rs)
    ensures Sorted(RemoveId(rs, id)) == RemoveId(Sorted(rs), id)
  {
    if rs != [] {
      UniqueTail(rs);
      SortedRemove(rs[1..], id);
      SortedOrdered(rs[1..]);
      CountSorted(rs[1..], id);
      InsertRemove(rs[0], Sorted(rs[1..]), id);
      Tail(rs[0], RemoveId(rs[1..], id));
    }
  }

  lemma {:induction false} MovableRemove(rs: seq<Req>, r: Req)
    requires Unique(rs) && r in rs && !r.status.Prefill?
    ensures Movable(RemoveId(rs, r.id)) == RemoveId(Movable(rs), r.id)
  {
    UniqueTail(rs);
    Tail(rs[0], Movable(rs[1..]));
    if rs[0].id == r.id {
      SameEntry(rs, rs[0], r);
    } else {
      MovableRemove(rs[1..], r);
      Tail(rs[0], RemoveId(rs[1..], r.id));
    }
  }

  lemma {:induction false} CountMovable(rs: seq<Req>, id: Id)
    ensures Count(Movable(rs), id) <= Count(rs, id)
  {
    if rs != [] {
      CountMovable(rs[1..], id);
      Tail(rs[0], Movable(rs[1..]));
    }
  }

  /** Who may be preempted, in the order in which they are. */
  function EvictionOrder(active: seq<Req>): seq<Req> { Movable(Sorted(active)) }

  lemma EvictionOrderIs(active: seq<Req>)
    ensures Ordered(EvictionOrder(active))
    ensures forall r :: r in EvictionOrder(active) <==> r in active && !r.status.Prefill?
  {
    SortedMovable(active);
    SortedOrdered(Movable(active));
    forall r ensures r in EvictionOrder(active) <==> r in active && !r.status.Prefill? {
      SortedMembers(Movable(active), r);
      MovableMembers(active, r);
    }
  }

  /** NORMAL before HIGH and, within a priority, the newest first. */
  lemma OrderByPriority(active: seq<Req>, i: nat, j: nat)
    requires i < j < |EvictionOrder(active)|
    ensures var v, r := EvictionOrder(active)[i], EvictionOrder(active)[j];
            && !(v.priority.High? && r.priority.Normal?)
            && (v.priority == r.priority ==> v.arrival >= r.arrival)
  {
    EvictionOrderIs(active);
    assert Before(EvictionOrder(active)[i], EvictionOrder(active)[j]);
  }

  /** The entries with one sort key, in the order in which they are. */
  function Tied(rs: seq<Req>, p: Priority, t: real): seq<Req> {
    if rs == [] then []
    else if rs[0].priority == p && rs[0].arrival == t then [rs[0]] + Tied(rs[1..], p, t)
    else Tied(rs[1..], p, t)
  }

  lemma {:induction false} InsertTied(r: Req, rs: seq<Req>, p: Priority, t: real)
    ensures Tied(Insert(r, rs), p, t) == if r.priority == p && r.arrival == t then [r] + Tied(rs, p, t) else Tied(rs, p, t)
  {
    if rs == [] || Before(r, rs[0]) {
      Tail(r, rs);
    } else {
      Tail(rs[0], Insert(r, rs[1..]));
      InsertTied(r, rs[1..], p, t);
    }
  }

  lemma {:induction false} SortedTied(rs: seq<Req>, p: Priority, t: real)
    ensures Tied(Sorted(rs), p, t) == Tied(rs, p, t)
  {
    if rs != [] {
      SortedTied(rs[1..], p, t);
      InsertTied(rs[0], Sorted(rs[1..]), p, t);
    }
  }

  /** Ties keep their order in the batch. */
  lemma OrderIsStable(active: seq<Req>, p: Priority, t: real)
    ensures Tied(EvictionOrder(active), p, t) == Tied(Movable(active), p, t)
  {
    SortedMovable(active);
    SortedTied(Movable(active), p, t);
  }

  lemma EvictionOrderUnique(active: seq<Req>)
    requires Unique(active)
    ensures Unique(EvictionOrder(active))
  {
    forall x ensures Count(EvictionOrder(active), x) <= 1 {
      CountMovable(Sorted(active), x);
      CountSorted(active, x);
    }
  }

  /** Evicting the first in the order leaves the rest of the order. */
  lemma OrderAfterFirst(active: seq<Req>)
    requires Unique(active) && EvictionOrder(active) != []
    ensures EvictionOrder(RemoveId(active, EvictionOrder(active)[0].id)) == EvictionOrder(active)[1..]
    ensures EvictionOrder(active)[0] in active && !EvictionOrder(active)[0].status.Prefill?
  {
    var v := EvictionOrder(active)[0];
    EvictionOrderIs(active);
    assert v in EvictionOrder(active);
    SortedMovable(active);
    MovableRemove(active, v);
    SortedMovable(RemoveId(active, v.id));
    forall x ensures Count(Movable(active), x) <= 1 { CountMovable(active, x); }
    SortedRemove(Movable(active), v.id);
  }

  lemma {:induction false} MovableAppend(a: seq<Req>, b: seq<Req>)
    ensures Movable(a + b) == Movable(a) + Movable(b)
  {
    if a == [] {
      assert a + b == b;
    } else {
      assert (a + b)[1..] == a[1..] + b;
      MovableAppend(a[1..], b);
    }
  }

  /** A newcomer in PREFILL is never a victim. */
  lemma OrderIgnoresPrefill(active: seq<Req>, r: Req)
    requires r.status.Prefill?
    ensures EvictionOrder(active + [r]) == EvictionOrder(active)
  {
    SortedMovable(active);
    SortedMovable(active + [r]);
    MovableAppend(active, [r]);
    assert Movable(active) + [] == Movable(active);
  }
}
