/** The batch object: the list of requests that run together. */
module Requests {
  import opened Types
  import opened SchedModel
  import opened SchedLists
  import opened SchedPhases

  lemma {:induction false} RemoveAt(rs: seq<Req>, id: Id, i: nat)
    requires i < |rs| && rs[i].id == id && forall j :: 0 <= j < i ==> rs[j].id != id
    ensures RemoveId(rs, id) == rs[..i] + rs[i + 1..]
  {
    if i > 0 {
      RemoveAt(rs[1..], id, i - 1);
      assert [rs[0]] + (rs[1..][..i - 1] + rs[1..][i..]) == rs[..i] + rs[i + 1..];
    }
  }

  lemma {:induction false} FindAt(rs: seq<Req>, id: Id, i: nat)
    requires i < |rs| && rs[i].id == id && forall j :: 0 <= j < i ==> rs[j].id != id
    ensures Find(rs, id) == Some(rs[i])
  {
    if i > 0 { FindAt(rs[1..], id, i - 1); }
  }

  lemma {:induction false} RemoveNone(rs: seq<Req>, id: Id)
    requires !HasId(rs, id)
    ensures RemoveId(rs, id) == rs
  {
    if rs != [] {
      assert rs[0].id != id;
      assert forall i :: 0 <= i < |rs[1..]| ==> rs[1..][i] == rs[i + 1];
      RemoveNone(rs[1..], id);
    }
  }

  lemma {:induction false} FinishedAppend(a: seq<Req>, r: Req)
    ensures Finished(a + [r]) == if r.Finished() then Finished(a) + [r] else Finished(a)
  {
    if a == [] {
      assert a + [r] == [r] && Finished([r][1..]) == [];
    } else {
      assert (a + [r])[0] == a[0] && (a + [r])[1..] == a[1..] + [r];
      FinishedAppend(a[1..], r);
    }
  }

  class Batch {
    var requests: seq<Req>

    constructor ()
      ensures requests == []
    {
      requests := [];
    }

    method AddRequest(r: Req)
      modifies this
      ensures requests == old(requests) + [r]
    {
      requests := requests + [r];
    }

    method RemoveRequest(id: Id) returns (found: Option<Req>)
      modifies this
      ensures requests == RemoveId(old(requests), id)
      ensures found == Find(old(requests), id)
    {
      for i := 0 to |requests|
        invariant requests == old(requests)
        invariant forall j :: 0 <= j < i ==> requests[j].id != id
      {
        if requests[i].id == id {
          found := Some(requests[i]);
          FindAt(requests, id, i);
          RemoveAt(requests, id, i);
          requests := requests[..i] + requests[i + 1..];
          return;
        }
      }
      RemoveNone(requests, id);
      FindHas(requests, id);
      found := None;
    }

    method GetCompleted() returns (done: seq<Req>)
      ensures done == Finished(requests)
      ensures forall r :: r in done <==> r in requests && (r.status == Complete || r.status == Failed)
    {
      done := [];
      for i := 0 to |requests|
        invariant done == Finished(requests[..i])
      {
        assert requests[..i + 1] == requests[..i] + [requests[i]];
        FinishedAppend(requests[..i], requests[i]);
        if requests[i].Finished() {
          done := done + [requests[i]];
        }
      }
      assert requests[..|requests|] == requests;
      forall r ensures r in done <==> r in requests && (r.status == Complete || r.status == Failed) { FinishedMembers(requests, r); }
    }
  }

  /** sorted() by the eviction key. */
  method SortForEviction(rs: seq<Req>) returns (out: seq<Req>)
    ensures out == Sorted(rs)
  {
    out := [];
    assert rs[|rs|..] == [];
    for i := |rs| downto 0
      invariant out == Sorted(rs[i..])
    {
      assert rs[i..][1..] == rs[i + 1..];
      out := Insert(rs[i], out);
    }
    assert rs[0..] == rs;
  }
}
