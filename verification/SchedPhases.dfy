/** What each phase of a scheduling step does, in one equation, and the step itself. */
module SchedPhases {
  import opened Types
  import opened Arithmetic
  import opened SchedModel
  import opened SchedLists
  import opened SchedAdmission

  // ----- phase 1 -----

  function Unfinished(rs: seq<Req>): seq<Req> {
    if rs == [] then []
    else if rs[0].Finished() then Unfinished(rs[1..])
    else [rs[0]] + Unfinished(rs[1..])
  }

  function RemoveAll(rs: seq<Req>, vs: seq<Req>): seq<Req>
    decreases |vs|
  {
    if vs == [] then rs else RemoveAll(RemoveId(rs, vs[0].id), vs[1..])
  }

  function FreeAll(kv: Ledger, rs: seq<Req>): Ledger
    decreases |rs|
  {
    if rs == [] then kv else FreeAll(kv.Freed(rs[0].id), rs[1..])
  }

  function Recorded(m: map<Id, Req>, rs: seq<Req>): map<Id, Req>
    decreases |rs|
  {
    if rs == [] then m else Recorded(m[rs[0].id := rs[0]], rs[1..])
  }

  function Ids(rs: seq<Req>): set<Id> { if rs == [] then {} else {rs[0].id} + Ids(rs[1..]) }

  /** The callbacks that fire, in order. */
  function Calls(callbacks: set<Id>, rs: seq<Req>): seq<Id>
    decreases |rs|
  {
    if rs == [] then []
    else (if rs[0].id in callbacks then [rs[0].id] else []) + Calls(callbacks - {rs[0].id}, rs[1..])
  }

  lemma {:induction false} ReapAllIs(s: Sched, rs: seq<Req>)
    ensures ReapAll(s, rs) == s.(active := RemoveAll(s.active, rs), kv := FreeAll(s.kv, rs),
                                 completed := Recorded(s.completed, rs), callbacks := s.callbacks - Ids(rs),
                                 fired := s.fired + Calls(s.callbacks, rs), totalCompleted := s.totalCompleted + |rs|)
    decreases |rs|
  {
    if rs == [] {
      assert s.fired + [] == s.fired;
    } else {
      ReapAllIs(ReapOne(s, rs[0]), rs[1..]);
      assert s.callbacks - {rs[0].id} - Ids(rs[1..]) == s.callbacks - Ids(rs);
    }
  }

  lemma {:induction false} UnfinishedMembers(rs: seq<Req>)
    ensures forall r :: r in Unfinished(rs) ==> r in rs && !r.Finished()
  {
    if rs != [] { UnfinishedMembers(rs[1..]); }
  }

  lemma {:induction false} FinishedMembers(rs: seq<Req>, r: Req)
    ensures r in Finished(rs) <==> r in rs && r.Finished()
  {
    if rs != [] { FinishedMembers(rs[1..], r); }
  }

  lemma {:induction false} RemoveFinished(rs: seq<Req>)
    requires Unique(rs)
    ensures RemoveAll(rs, Finished(rs)) == Unfinished(rs)
  {
    if rs != [] {
      UniqueTail(rs);
      RemoveFinished(rs[1..]);
      if rs[0].Finished() {
        Tail(rs[0], Finished(rs[1..]));
      } else {
        FinishedCount(rs[1..], rs[0].id);
        RemoveAllKeeps(rs[0], rs[1..], Finished(rs[1..]));
      }
    }
  }

  lemma {:induction false} FinishedCount(rs: seq<Req>, id: Id)
    ensures Count(Finished(rs), id) + Count(Unfinished(rs), id) == Count(rs, id)
  {
    if rs != [] {
      FinishedCount(rs[1..], id);
      Tail(rs[0], Finished(rs[1..]));
      Tail(rs[0], Unfinished(rs[1..]));
    }
  }

  lemma {:induction false} RemoveAllKeeps(r: Req, rs: seq<Req>, vs: seq<Req>)
    requires Count(vs, r.id) == 0
    ensures RemoveAll([r] + rs, vs) == [r] + RemoveAll(rs, vs)
    decreases |vs|
  {
    if vs != [] {
      Tail(r, rs);
      RemoveAllKeeps(r, RemoveId(rs, vs[0].id), vs[1..]);
    }
  }

  /** Reaping keeps exactly the unfinished requests, in order, and frees, records and announces the others. */
  lemma ReapIs(s: Sched)
    requires Well(s)
    ensures var done := Finished(s.active);
            Reap(s) == s.(active := Unfinished(s.active), kv := FreeAll(s.kv, done),
                          completed := Recorded(s.completed, done), callbacks := s.callbacks - Ids(done),
                          fired := s.fired + Calls(s.callbacks, done), totalCompleted := s.totalCompleted + |done|)
    ensures Well(Reap(s))
    ensures forall id :: Total(Reap(s), id) + Count(Finished(s.active), id) == Total(s, id)
  {
    WellActive(s);
    ReapAllIs(s, Finished(s.active));
    RemoveFinished(s.active);
    forall id ensures Total(Reap(s), id) + Count(Finished(s.active), id) == Total(s, id) <= 1 {
      FinishedCount(s.active, id);
      assert Total(s, id) <= 1;
    }
  }

  // ----- phase 2 -----

  function Resumed(rs: seq<Req>): seq<Req> { seq(|rs|, i requires 0 <= i < |rs| => rs[i].(status := Generating)) }

  function SwapInAll(kv: Ledger, rs: seq<Req>): Ledger
    decreases |rs|
  {
    if rs == [] || !kv.Fits(rs[0].id) then kv else SwapInAll(kv.SwappedIn(rs[0].id), rs[1..])
  }

  /** The state after the first k preempted requests have been swapped in. */
  function ResumeFirst(s: Sched, k: nat): Sched
    requires k <= |s.preempted|
  {
    s.(preempted := s.preempted[k..], active := s.active + Resumed(s.preempted[..k]),
       kv := SwapInAll(s.kv, s.preempted[..k]))
  }

  function SwapBlocks(kv: Ledger, rs: seq<Req>): nat {
    if rs == [] then 0 else (if rs[0].id in kv.swapped then kv.swapped[rs[0].id] else 0) + SwapBlocks(kv, rs[1..])
  }

  predicate AllSwapped(kv: Ledger, rs: seq<Req>, k: nat)
    requires k <= |rs|
  {
    forall i :: 0 <= i < k ==> rs[i].id in kv.swapped
  }

  /** The first k are in swap space and fit together. */
  predicate Resumable(s: Sched, k: nat) {
    && k <= |s.preempted|
    && AllSwapped(s.kv, s.preempted, k)
    && SwapBlocks(s.kv, s.preempted[..k]) <= s.kv.free
  }

  lemma {:induction false} SwapBlocksUnaffected(kv: Ledger, rs: seq<Req>, id: Id)
    requires Count(rs, id) == 0 && kv.Fits(id)
    ensures SwapBlocks(kv.SwappedIn(id), rs) == SwapBlocks(kv, rs)
  {
    if rs != [] { SwapBlocksUnaffected(kv, rs[1..], id); }
  }

  lemma {:induction false} SwapBlocksGrow(kv: Ledger, rs: seq<Req>, k: nat)
    requires k <= |rs|
    ensures SwapBlocks(kv, rs[..k]) <= SwapBlocks(kv, rs)
  {
    if k > 0 {
      assert rs[..k] == [rs[0]] + rs[1..][..k - 1];
      Tail(rs[0], rs[1..][..k - 1]);
      SwapBlocksGrow(kv, rs[1..], k - 1);
    }
  }

  lemma CountPrefix(rs: seq<Req>, k: nat, id: Id)
    requires k <= |rs| && Count(rs, id) == 0
    ensures Count(rs[..k], id) == 0
  {
    assert rs == rs[..k] + rs[k..];
    CountAppend(rs[..k], rs[k..], id);
  }

  lemma SwapBlocksCons(kv: Ledger, h: Req, rest: seq<Req>)
    requires h.id in kv.swapped
    ensures SwapBlocks(kv, [h] + rest) == kv.swapped[h.id] + SwapBlocks(kv, rest)
  {
    Tail(h, rest);
  }

  lemma SwapBlocksTail(s: Sched, k: nat)
    requires Unique(s.preempted) && CanResume(s) && 0 < k <= |s.preempted|
    ensures SwapBlocks(s.kv, s.preempted[..k])
            == s.kv.swapped[s.preempted[0].id] + SwapBlocks(ResumeOne(s).kv, s.preempted[1..][..k - 1])
  {
    var h, rest := s.preempted[0], s.preempted[1..][..k - 1];
    UniqueTail(s.preempted);
    CountPrefix(s.preempted[1..], k - 1, h.id);
    TakeCons(s.preempted, k);
    SwapBlocksCons(s.kv, h, rest);
    SwapBlocksUnaffected(s.kv, rest, h.id);
  }

  lemma AllSwappedTail(s: Sched, k: nat)
    requires Unique(s.preempted) && CanResume(s) && 0 < k <= |s.preempted|
    ensures AllSwapped(s.kv, s.preempted, k) <==> AllSwapped(ResumeOne(s).kv, s.preempted[1..], k - 1)
  {
    var h, t := s.preempted[0], s.preempted[1..];
    UniqueTail(s.preempted);
    forall i | 0 <= i < |t| ensures t[i] == s.preempted[i + 1] && t[i].id != h.id { CountMember(t, t[i]); }
    if AllSwapped(ResumeOne(s).kv, t, k - 1) {
      forall i | 0 <= i < k ensures s.preempted[i].id in s.kv.swapped {
        if i > 0 { assert t[i - 1].id in ResumeOne(s).kv.swapped; }
      }
    }
  }

  lemma ResumableTail(s: Sched, k: nat)
    requires Unique(s.preempted) && CanResume(s) && 0 < k <= |s.preempted|
    ensures Resumable(s, k) <==> Resumable(ResumeOne(s), k - 1)
  {
    SwapBlocksTail(s, k);
    AllSwappedTail(s, k);
  }

  /** Swap-in resumes exactly the longest FIFO prefix that is in swap space and fits the free blocks. */
  lemma {:induction false} ResumesLongestPrefix(s: Sched) returns (k: nat)
    requires Unique(s.preempted)
    ensures Resumable(s, k) && Resume(s) == ResumeFirst(s, k)
    ensures forall j: nat :: Resumable(s, j) ==> j <= k
    decreases |s.preempted|
  {
    if CanResume(s) {
      UniqueTail(s.preempted);
      var s1, h := ResumeOne(s), s.preempted[0];
      var k1 := ResumesLongestPrefix(s1);
      k := k1 + 1;
      ResumableTail(s, k);
      forall j: nat | Resumable(s, j) ensures j <= k {
        if j > 0 { ResumableTail(s, j); }
      }
      assert s.preempted[..k] == [h] + s.preempted[1..][..k1];
      Tail(h, s.preempted[1..][..k1]);
      assert Resumed(s.preempted[..k]) == [h.(status := Generating)] + Resumed(s.preempted[1..][..k1]);
      assert s.active + [h.(status := Generating)] + Resumed(s.preempted[1..][..k1]) == s.active + Resumed(s.preempted[..k]);
      assert s.preempted[1..][k1..] == s.preempted[k..];
    } else {
      k := 0;
      assert s.preempted[..0] == [] && s.preempted[0..] == s.preempted && Resumed([]) == [];
      assert s.active + [] == s.active;
      forall j: nat ensures Resumable(s, j) ==> j == 0 { NoneResumable(s, j); }
    }
  }

  lemma NoneResumable(s: Sched, j: nat)
    requires !CanResume(s)
    ensures Resumable(s, j) ==> j == 0
  {
    if 0 < j <= |s.preempted| {
      assert s.preempted[..j][..1] == [s.preempted[0]];
      SwapBlocksGrow(s.kv, s.preempted[..j], 1);
    }
  }

  lemma {:induction false} ResumeKeepsIds(s: Sched)
    ensures SameIds(s, Resume(s)) && |Resume(s).active| >= |s.active| && Resume(s).pending == s.pending
    decreases |s.preempted|
  {
    if CanResume(s) {
      forall id ensures Total(ResumeOne(s), id) == Total(s, id) {
        CountAppend(s.active, [s.preempted[0].(status := Generating)], id);
      }
      ResumeKeepsIds(ResumeOne(s));
    }
  }

  // ----- phase 3: the final state is determined by how many were admitted and how many evicted -----

  function Prefilled(rs: seq<Req>): seq<Req> { seq(|rs|, i requires 0 <= i < |rs| => rs[i].(status := Prefill)) }

  function Parked(rs: seq<Req>): seq<Req> { seq(|rs|, i requires 0 <= i < |rs| => rs[i].(status := Preempted)) }

  function SwapOutAll(kv: Ledger, rs: seq<Req>): Ledger
    decreases |rs|
  {
    if rs == [] then kv else SwapOutAll(kv.SwappedOut(rs[0].id), rs[1..])
  }

  /** The estimate is the least number of blocks whose slots hold the prompt and all new tokens. */
  lemma NeedCovers(cfg: Config, r: Req, k: nat)
    ensures |r.prompt| + r.maxNew <= Position(Need(cfg, r), 0, cfg.blockSize)
    ensures |r.prompt| + r.maxNew <= Position(k, 0, cfg.blockSize) ==> Need(cfg, r) <= k
  {
    CeilLeast(|r.prompt| + r.maxNew, cfg.blockSize, Need(cfg, r));
    CeilLeast(|r.prompt| + r.maxNew, cfg.blockSize, k);
  }

  function TotalNeed(cfg: Config, rs: seq<Req>): nat {
    if rs == [] then 0 else Need(cfg, rs[0]) + TotalNeed(cfg, rs[1..])
  }

  lemma {:induction false} TotalNeedAppend(cfg: Config, a: seq<Req>, b: seq<Req>)
    ensures TotalNeed(cfg, a + b) == TotalNeed(cfg, a) + TotalNeed(cfg, b)
  {
    if a == [] {
      assert a + b == b;
    } else {
      assert (a + b)[0] == a[0] && (a + b)[1..] == a[1..] + b;
      TotalNeedAppend(cfg, a[1..], b);
    }
  }

  /** The first k pending requests admitted, the first m of the eviction order preempted. */
  function Admitted(s: Sched, k: nat, m: nat): Sched
    requires k <= |s.pending| && m <= |EvictionOrder(s.active)|
  {
    var vs := EvictionOrder(s.active)[..m];
    s.(pending := s.pending[k..],
       active := RemoveAll(s.active, vs) + Prefilled(s.pending[..k]),
       preempted := s.preempted + Parked(vs),
       kv := SwapOutAll(s.kv, vs),
       totalScheduled := s.totalScheduled + k,
       totalPreempted := s.totalPreempted + m)
  }

  lemma {:induction false} EvictAllIs(s: Sched, vs: seq<Req>)
    ensures EvictAll(s, vs) == s.(active := RemoveAll(s.active, vs), preempted := s.preempted + Parked(vs),
                                  kv := SwapOutAll(s.kv, vs), totalPreempted := s.totalPreempted + |vs|)
    decreases |vs|
  {
    if vs == [] {
      assert s.preempted + Parked([]) == s.preempted;
    } else {
      EvictAllIs(Evict(s, vs[0]), vs[1..]);
      assert s.preempted + [vs[0].(status := Preempted)] + Parked(vs[1..]) == s.preempted + Parked(vs);
    }
  }

  lemma {:induction false} RemoveAllSplit(rs: seq<Req>, a: seq<Req>, b: seq<Req>)
    ensures RemoveAll(RemoveAll(rs, a), b) == RemoveAll(rs, a + b)
    decreases |a|
  {
    if a == [] {
      assert a + b == b;
    } else {
      assert (a + b)[0] == a[0] && (a + b)[1..] == a[1..] + b;
      RemoveAllSplit(RemoveId(rs, a[0].id), a[1..], b);
    }
  }

  lemma {:induction false} SwapOutAllSplit(kv: Ledger, a: seq<Req>, b: seq<Req>)
    ensures SwapOutAll(SwapOutAll(kv, a), b) == SwapOutAll(kv, a + b)
    decreases |a|
  {
    if a == [] {
      assert a + b == b;
    } else {
      assert (a + b)[0] == a[0] && (a + b)[1..] == a[1..] + b;
      SwapOutAllSplit(kv.SwappedOut(a[0].id), a[1..], b);
    }
  }

  lemma {:induction false} RemoveAllBefore(rs: seq<Req>, tail: seq<Req>, vs: seq<Req>)
    requires forall i :: 0 <= i < |vs| ==> Count(tail, vs[i].id) == 0
    ensures RemoveAll(rs + tail, vs) == RemoveAll(rs, vs) + tail
    decreases |vs|
  {
    if vs != [] {
      RemoveBefore(rs, tail, vs[0].id);
      assert forall i :: 0 <= i < |vs[1..]| ==> vs[1..][i] == vs[i + 1];
      RemoveAllBefore(RemoveId(rs, vs[0].id), tail, vs[1..]);
    }
  }

  lemma {:induction false} RemoveBefore(rs: seq<Req>, tail: seq<Req>, id: Id)
    requires Count(tail, id) == 0
    ensures RemoveId(rs + tail, id) == RemoveId(rs, id) + tail
  {
    if rs == [] {
      assert rs + tail == tail;
      RemoveLength(tail, id);
      assert [] + tail == tail;
    } else {
      assert (rs + tail)[0] == rs[0] && (rs + tail)[1..] == rs[1..] + tail;
      if rs[0].id != id {
        RemoveBefore(rs[1..], tail, id);
        assert [rs[0]] + (RemoveId(rs[1..], id) + tail) == [rs[0]] + RemoveId(rs[1..], id) + tail;
      }
    }
  }

  lemma EvictedIsAdmitted(s: Sched, m: nat)
    requires m <= |EvictionOrder(s.active)|
    ensures Admitted(s, 0, m) == EvictAll(s, EvictionOrder(s.active)[..m])
  {
    EvictAllIs(s, EvictionOrder(s.active)[..m]);
    assert s.pending[..0] == [] && s.pending[0..] == s.pending && Prefilled([]) == [];
    var a := RemoveAll(s.active, EvictionOrder(s.active)[..m]);
    assert a + [] == a;
  }

  lemma HeadIsAdmitted(s: Sched)
    requires s.pending != []
    ensures Admitted(s, 1, 0) == AdmitHead(s)
  {
    assert s.pending[..1] == [s.pending[0]] && EvictionOrder(s.active)[..0] == [];
    assert Prefilled([s.pending[0]]) == [s.pending[0].(status := Prefill)];
    assert s.preempted + Parked([]) == s.preempted;
  }

  /** The eviction order only ever loses a prefix. */
  lemma AdmittedOrder(s: Sched, k: nat, m: nat)
    requires Well(s) && k <= |s.pending| && m <= |EvictionOrder(s.active)|
    ensures EvictionOrder(Admitted(s, k, m).active) == EvictionOrder(s.active)[m..]
  {
    EvictPrefix(s, m);
    EvictAllIs(s, EvictionOrder(s.active)[..m]);
    OrderIgnoresAll(RemoveAll(s.active, EvictionOrder(s.active)[..m]), Prefilled(s.pending[..k]));
  }

  lemma {:induction false} OrderIgnoresAll(active: seq<Req>, rs: seq<Req>)
    requires forall i :: 0 <= i < |rs| ==> rs[i].status.Prefill?
    ensures EvictionOrder(active + rs) == EvictionOrder(active)
  {
    if rs == [] {
      assert active + rs == active;
    } else {
      var n := |rs| - 1;
      assert active + rs == (active + rs[..n]) + [rs[n]];
      OrderIgnoresPrefill(active + rs[..n], rs[n]);
      OrderIgnoresAll(active, rs[..n]);
    }
  }

  /** Later victims are not among the requests admitted earlier in the phase. */
  lemma NewcomersStay(s: Sched, k: nat, m: nat, m': nat)
    requires Well(s) && k <= |s.pending| && m + m' <= |EvictionOrder(s.active)|
    ensures var vs := EvictionOrder(s.active);
            RemoveAll(Admitted(s, k, m).active, vs[m..][..m'])
            == RemoveAll(RemoveAll(s.active, vs[..m]), vs[m..][..m']) + Prefilled(s.pending[..k])
  {
    var vs := EvictionOrder(s.active);
    var b, p := vs[m..][..m'], s.pending[..k];
    EvictionOrderIs(s.active);
    forall i | 0 <= i < |b| ensures Count(Prefilled(p), b[i].id) == 0 {
      assert b[i] == vs[m + i] && vs[m + i] in vs;
      CountMember(s.active, b[i]);
      assert Total(s, b[i].id) <= 1;
      assert s.pending == p + s.pending[k..];
      CountAppend(p, s.pending[k..], b[i].id);
      CountPrefilled(p, b[i].id);
    }
    RemoveAllBefore(RemoveAll(s.active, vs[..m]), Prefilled(p), b);
  }

  lemma SliceSum<T>(s: seq<T>, a: nat, b: nat)
    requires a + b <= |s|
    ensures s[..a] + s[a..][..b] == s[..a + b] && s[a..][b..] == s[a + b..]
  {
  }

  lemma MapSum(a: seq<Req>, b: seq<Req>)
    ensures Prefilled(a) + Prefilled(b) == Prefilled(a + b) && Parked(a) + Parked(b) == Parked(a + b)
  {
  }

  lemma AdmittedTwice(s: Sched, k: nat, m: nat, k': nat, m': nat)
    requires Well(s) && k + k' <= |s.pending| && m + m' <= |EvictionOrder(s.active)|
    ensures EvictionOrder(Admitted(s, k, m).active) == EvictionOrder(s.active)[m..]
    ensures Admitted(Admitted(s, k, m), k', m') == Admitted(s, k + k', m + m')
  {
    AdmittedOrder(s, k, m);
    var vs, s1 := EvictionOrder(s.active), Admitted(s, k, m);
    var a, b, p, q := vs[..m], vs[m..][..m'], s.pending[..k], s1.pending[..k'];
    SliceSum(vs, m, m');
    SliceSum(s.pending, k, k');
    MapSum(a, b);
    MapSum(p, q);
    Assoc(s.preempted, Parked(a), Parked(b));
    SwapOutAllSplit(s.kv, a, b);
    NewcomersStay(s, k, m, m');
    RemoveAllSplit(s.active, a, b);
    Assoc(RemoveAll(s.active, a + b), Prefilled(p), Prefilled(q));
  }

  lemma {:induction false} CountPrefilled(rs: seq<Req>, id: Id)
    ensures Count(Prefilled(rs), id) == Count(rs, id)
  {
    if rs != [] {
      assert Prefilled(rs)[1..] == Prefilled(rs[1..]);
      CountPrefilled(rs[1..], id);
    }
  }

  ghost predicate EndsAs(cfg: Config, st: Admission, end: Admission, k: nat, m: nat) {
    && k <= |st.s.pending| && m <= |EvictionOrder(st.s.active)|
    && end.s == Admitted(st.s, k, m)
    && end.reserved == st.reserved + TotalNeed(cfg, st.s.pending[..k]) <= end.s.kv.free
    && (|end.s.active| <= cfg.maxBatch || |end.s.active| <= |st.s.active|)
  }

  lemma NothingShaped(cfg: Config, st: Admission)
    requires st.reserved <= st.s.kv.free
    ensures EndsAs(cfg, st, st, 0, 0)
  {
    EvictedIsAdmitted(st.s, 0);
    assert EvictionOrder(st.s.active)[..0] == [] && st.s.pending[..0] == [];
  }

  lemma ShapedAfterAdmit(cfg: Config, st: Admission, end: Admission, k: nat, m: nat, k': nat)
    requires Well(st.s) && st.s.pending != [] && |st.s.active| < cfg.maxBatch
    requires EndsAs(cfg, Admission(AdmitHead(st.s), st.reserved + Need(cfg, st.s.pending[0])), end, k, m) && k' == k + 1
    ensures EndsAs(cfg, st, end, k', m)
  {
    var s := st.s;
    HeadIsAdmitted(s);
    AdmittedOrder(s, 1, 0);
    AdmittedTwice(s, 1, 0, k, m);
    assert s.pending[..k + 1] == [s.pending[0]] + s.pending[1..][..k];
    Tail(s.pending[0], s.pending[1..][..k]);
  }

  lemma ShapedAfterEvict(cfg: Config, st: Admission, n: nat, end: Admission, k: nat, m: nat, m': nat)
    requires Well(st.s) && n <= |EvictionOrder(st.s.active)|
    requires EndsAs(cfg, Admission(EvictAll(st.s, EvictionOrder(st.s.active)[..n]), st.reserved), end, k, m)
    requires m' == n + m
    ensures EndsAs(cfg, st, end, k, m')
  {
    EvictPrefix(st.s, n);
    EvictedIsAdmitted(st.s, n);
    AdmittedTwice(st.s, 0, n, k, m);
  }

  lemma BlockedIteration(cfg: Config, st: Admission)
    requires Well(st.s) && st.s.pending != [] && |st.s.active| < cfg.maxBatch
    requires Need(cfg, st.s.pending[0]) > st.s.kv.free - st.reserved
    requires st.s.pending[0].priority.High? && cfg.Preempts() && st.s.active != []
    ensures var needed, st1 := Need(cfg, st.s.pending[0]), Iterate(cfg, st).st;
            && Round(st.s, needed) <= |EvictionOrder(st.s.active)|
            && st1 == Admission(EvictAll(st.s, EvictionOrder(st.s.active)[..Round(st.s, needed)]), st.reserved)
            && (Iterate(cfg, st).Again? <==> st1.s.kv.free >= needed)
            && st1.s.kv.free >= st.s.kv.free && Well(st1.s)
  {
    var needed := Need(cfg, st.s.pending[0]);
    RoundEvicts(st.s, needed);
    EvictPrefix(st.s, Round(st.s, needed));
  }

  /** Across a whole admission phase, however many preemption rounds it takes: a FIFO prefix of the pending
      queue is admitted, a prefix of the eviction order is preempted, and what is reserved for the admitted
      requests is their total estimate and never exceeds the free blocks. */
  lemma {:induction false} AdmissionShape(cfg: Config, st: Admission) returns (k: nat, m: nat)
    requires Well(st.s) && st.reserved <= st.s.kv.free
    ensures EndsAs(cfg, st, AdmitAll(cfg, st).st, k, m)
    decreases |st.s.pending|, |EvictionOrder(st.s.active)|
  {
    var s := st.s;
    IterationProgress(cfg, st);
    NothingShaped(cfg, st);
    k, m := 0, 0;
    if s.pending != [] && |s.active| < cfg.maxBatch {
      var needed := Need(cfg, s.pending[0]);
      var st1 := Iterate(cfg, st).st;
      if needed <= s.kv.free - st.reserved {
        var k1;
        k1, m := AdmissionShape(cfg, st1);
        k := k1 + 1;
        ShapedAfterAdmit(cfg, st, AdmitAll(cfg, st).st, k1, m, k);
      } else if s.pending[0].priority.High? && cfg.Preempts() && s.active != [] && !Spinning(cfg, st) {
        var n := Round(s, needed);
        BlockedIteration(cfg, st);
        NothingShaped(cfg, st1);
        var m1 := 0;
        if st1.s.kv.free >= needed {
          k, m1 := AdmissionShape(cfg, st1);
        }
        m := n + m1;
        ShapedAfterEvict(cfg, st, n, AdmitAll(cfg, st).st, k, m1, m);
      } else {
        assert AdmitAll(cfg, st).st == st;
      }
    }
  }

  /** No HIGH request is preempted while a NORMAL one outside PREFILL stays in the batch, and within a priority none
      while a newer one stays. */
  lemma VictimsNeverOutrank(s: Sched, k: nat, m: nat, victim: Req, survivor: Req)
    requires Well(s) && k <= |s.pending| && m <= |EvictionOrder(s.active)|
    requires victim in EvictionOrder(s.active)[..m]
    requires survivor in Admitted(s, k, m).active && !survivor.status.Prefill?
    ensures !(victim.priority.High? && survivor.priority.Normal?)
    ensures victim.priority == survivor.priority ==> victim.arrival >= survivor.arrival
  {
    AdmittedOrder(s, k, m);
    EvictionOrderIs(Admitted(s, k, m).active);
    var vs := EvictionOrder(s.active);
    assert survivor in vs[m..];
    var i :| 0 <= i < m && vs[i] == victim;
    var j :| 0 <= j < |vs[m..]| && vs[m..][j] == survivor;
    assert vs[m + j] == survivor;
    OrderByPriority(s.active, i, m + j);
  }
}
