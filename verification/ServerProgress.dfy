/** Nobody starves: with NORMAL requests whose estimates fit the pool, a request is complete after a number of passes of
    the generation loop that only those in front of it determine, whatever is submitted, collected or aborted meanwhile. */
module ServerProgress {
  import opened Types
  import opened EngineModel
  import opened ServerModel
  import opened SchedModel
  import opened SchedLists
  import opened SchedAdmission
  import opened SchedPhases
  import opened SchedStep
  import opened SchedRuns
  import opened SchedClosure
  import opened SchedFifo
  import opened ServerRuns

  // ----- how long a line takes -----

  /** Passes a request still needs: one for each of its sequential tokens to come, and one to be reaped. */
  ghost function Cost(f: Fleet, r: Req): nat
    requires FleetOk(f) && f.names != []
  {
    if |r.generated| <= |Baseline(f, r)| then |Baseline(f, r)| - |r.generated| + 1 else 1
  }

  ghost function CostIn(f: Fleet): Req -> nat
    requires FleetOk(f) && f.names != []
  {
    r => Cost(f, r)
  }

  /** Passes until the request is out of the line. */
  ghost function WaitIn(f: Fleet, s: Sched, id: Id): nat
    requires FleetOk(f) && f.names != []
  {
    Wait(CostIn(f), Line(s), id)
  }

  // ----- one pass -----

  /** The scheduling half of a pass: nobody's place in the line changes for the worse. */
  lemma StepKeepsLine(f: Fleet, s: Sched, s': Sched, n: nat, id: Id)
    requires FleetOk(f) && f.names != [] && Well(s) && MovesUp(s, s', n) && Count(Line(s'), id) > 0
    ensures WaitIn(f, s', id) <= WaitIn(f, s, id)
  {
    forall r: Req ensures CostIn(f)(r.(status := Prefill)) == CostIn(f)(r) { SameBaseline(f, r, r.(status := Prefill)); }
    MovesUpWait(CostIn(f), s, s', n, id);
  }

  /** An inference step gives each running request exactly its next token. */
  lemma InferPays(f: Fleet, w: World, log: Log, w': World)
    requires Correct(f, w, log) && Batched(f, w, w') && NoneFinished(w.s)
    ensures |w'.s.active| == |w.s.active|
    ensures forall i :: 0 <= i < |w.s.active| ==>
              w'.s.active[i].id == w.s.active[i].id && Cost(f, w'.s.active[i]) == Cost(f, w.s.active[i]) - 1
  {
    forall i | 0 <= i < |w.s.active|
      ensures w'.s.active[i].id == w.s.active[i].id && Cost(f, w'.s.active[i]) == Cost(f, w.s.active[i]) - 1
    {
      MemberPays(f, w, log, w', i);
    }
  }

  lemma MemberPays(f: Fleet, w: World, log: Log, w': World, i: nat)
    requires Correct(f, w, log) && Batched(f, w, w') && NoneFinished(w.s) && i < |w.s.active|
    ensures |w'.s.active| == |w.s.active|
    ensures w'.s.active[i].id == w.s.active[i].id && Cost(f, w'.s.active[i]) == Cost(f, w.s.active[i]) - 1
  {
    var r, r' := w.s.active[i], w'.s.active[i];
    assert r in w.s.active && Rightly(f, w.es, log.submitted)(r);
    MemberRight(f, w, log, w'.es, w'.s.active, i);
    MemberToken(f, w.es, log.submitted, r, w'.es, r');
    RightOnTrack(f, w'.es, log.submitted, r');
    CostPays(f, log.submitted, r, r');
  }

  lemma MemberToken(f: Fleet, es: Lanes, submitted: map<Id, Req>, r: Req, es': Lanes, r': Req)
    requires FleetOk(f) && f.names != [] && Right(f, es, submitted, r) && (r.status.Prefill? || r.status.Generating?)
    requires CanStep(f, r, NameFor(f, r), LaneAt(es, NameFor(f, r), r.id)) && Stepped(f, es, r, true, es', r')
    ensures |r'.generated| == |r.generated| + 1
  {
    OneToken(f, es, submitted, r);
  }

  lemma CostPays(f: Fleet, submitted: map<Id, Req>, r: Req, r': Req)
    requires FleetOk(f) && f.names != [] && OnTrack(f, submitted, r') && |r'.generated| == |r.generated| + 1
    requires r' == r.(status := r'.status, generated := r'.generated)
    ensures Cost(f, r') == Cost(f, r) - 1
  {
    SameBaseline(f, r, r');
    OnTrackShort(f, submitted, r');
  }

  lemma OnTrackShort(f: Fleet, submitted: map<Id, Req>, r: Req)
    requires FleetOk(f) && f.names != [] && OnTrack(f, submitted, r)
    ensures |r.generated| <= |Baseline(f, r)|
  {
    SameBaseline(f, submitted[r.id], r);
  }

  lemma SameBaseline(f: Fleet, r: Req, r': Req)
    requires FleetOk(f) && f.names != [] && r' == r.(arrival := r'.arrival, status := r'.status, generated := r'.generated)
    ensures Baseline(f, r') == Baseline(f, r)
  {
  }

  lemma OneToken(f: Fleet, es: Lanes, submitted: map<Id, Req>, r: Req)
    requires FleetOk(f) && f.names != [] && Right(f, es, submitted, r) && (r.status.Prefill? || r.status.Generating?)
    requires CanStep(f, r, NameFor(f, r), LaneAt(es, NameFor(f, r), r.id))
    ensures |StepRequest(f, r, NameFor(f, r), LaneAt(es, NameFor(f, r), r.id)).0.generated| == |r.generated| + 1
  {
    var sv, lane := f.served[NameFor(f, r)], LaneAt(es, NameFor(f, r), r.id);
    if r.status.Generating? {
      MoveIsNext(sv, r, lane);
    } else {
      AdvanceIs(sv, r.(status := Generating), sv.m.argmax(sv.m.prefill(r.prompt).0));
    }
  }

  /** A pass brings everybody who is still in line at least one pass nearer. */
  lemma PassPays(cfg: Config, f: Fleet, w: World, log: Log, now: real, w': World, id: Id)
    requires Correct(f, w, log) && Plain(cfg, w.s) && now >= log.h.clock && Well(w.s) && Passed(cfg, f, w, now, w')
    ensures Plain(cfg, w'.s)
    ensures Count(Line(w'.s), id) > 0 ==> Count(Line(w.s), id) > 0 && WaitIn(f, w'.s, id) < WaitIn(f, w.s, id)
  {
    if Quiet(w.s) {
      assert Line(w'.s) == [];
    } else {
      var n := StepPlain(cfg, w.s, now);
      TickCorrect(cfg, f, w, log, now);
      StepPays(cfg, f, w, log, n, World(Step(cfg, w.s, now).s, w.es), Noted(w, log, Tick(now)), w', id);
    }
  }

  lemma StepPays(cfg: Config, f: Fleet, w: World, log: Log, n: nat, w1: World, log1: Log, w': World, id: Id)
    requires Correct(f, w, log) && Well(w.s) && MovesUp(w.s, w1.s, n) && Correct(f, w1, log1) && Plain(cfg, w1.s)
    requires w1.s.active == [] ==> w.s.pending == []
    requires if w1.s.active == [] then w' == w1 else Batched(f, w1, w')
    ensures Plain(cfg, w'.s)
    ensures Count(Line(w'.s), id) > 0 ==> Count(Line(w.s), id) > 0 && WaitIn(f, w'.s, id) < WaitIn(f, w.s, id)
  {
    if w1.s.active == [] {
      assert Line(w'.s) == [];
    } else {
      BatchPays(cfg, f, w, log, n, w1, log1, w', id);
    }
  }

  lemma TickCorrect(cfg: Config, f: Fleet, w: World, log: Log, now: real)
    requires Correct(f, w, log) && now >= log.h.clock && Well(w.s) && !Step(cfg, w.s, now).Hangs?
    ensures Correct(f, World(Step(cfg, w.s, now).s, w.es), Noted(w, log, Tick(now)))
  {
    TickMay(cfg, f, w, log, now);
    ActCorrect(cfg, f, w, log, Tick(now));
  }

  lemma BatchPays(cfg: Config, f: Fleet, w: World, log: Log, n: nat, w1: World, log1: Log, w': World, id: Id)
    requires Correct(f, w, log) && Well(w.s) && MovesUp(w.s, w1.s, n) && w1.s.active != []
    requires Correct(f, w1, log1) && Plain(cfg, w1.s) && Batched(f, w1, w')
    ensures Plain(cfg, w'.s)
    ensures Count(Line(w'.s), id) > 0 ==> Count(Line(w.s), id) > 0 && WaitIn(f, w'.s, id) < WaitIn(f, w.s, id)
  {
    StepUnfinished(f, w, log, w1.s, n);
    InferPays(f, w1, log1, w');
    LinePays(f, w1.s, w'.s, id);
    if Count(Line(w'.s), id) > 0 {
      StepKeepsLine(f, w.s, w1.s, n, id);
      MovesUpCount(w.s, w1.s, n, id);
    }
  }

  lemma StepUnfinished(f: Fleet, w: World, log: Log, s1: Sched, n: nat)
    requires Correct(f, w, log) && MovesUp(w.s, s1, n)
    ensures NoneFinished(s1)
  {
    UnfinishedMembers(w.s.active);
    forall r | r in s1.active ensures !r.Finished() {
      if r !in Unfinished(w.s.active) { assert r in Prefilled(w.s.pending[..n]); }
    }
  }

  /** The first in line runs, so it, and whoever is behind it, gets nearer. */
  lemma LinePays(f: Fleet, s: Sched, s': Sched, id: Id)
    requires FleetOk(f) && f.names != [] && s.active != [] && |s'.active| == |s.active| && s'.pending == s.pending
    requires forall i :: 0 <= i < |s.active| ==> s'.active[i].id == s.active[i].id && Cost(f, s'.active[i]) == Cost(f, s.active[i]) - 1
    ensures WaitIn(f, s', id) < WaitIn(f, s, id)
    ensures Count(Line(s'), id) == Count(Line(s), id)
  {
    forall i | 0 <= i < |s.active|
      ensures s'.active[i].id == s.active[i].id && CostIn(f)(s'.active[i]) < CostIn(f)(s.active[i])
    {
      assert Cost(f, s'.active[i]) == Cost(f, s.active[i]) - 1;
    }
    FirstShrinks(CostIn(f), s.active, s'.active, s.pending, id);
    SameMembersCount(Line(s), Line(s'), id);
  }

  // ----- what happens between passes -----

  /** Submitting NORMAL requests that fit, collecting, aborting, and cache clients at work who leave enough free for
      each of those waiting. */
  predicate PlainCall(cfg: Config, w: World, a: Action) {
    match a
    case Submit(r, _, _) => r.priority.Normal? && Need(cfg, r) <= w.s.kv.free
    case Collecting(_) => true
    case Aborting(_) => true
    case Clients(kv) => forall r :: r in w.s.pending ==> Need(cfg, r) <= kv.free
    case _ => false
  }

  function Called(s: Sched, a: Action): Sched {
    match a
    case Submit(r, callback, now) => Add(s, r, callback, now)
    case Collecting(id) => Collect(s, id)
    case Aborting(id) => Abort(s, id)
    case Clients(kv) => s.(kv := kv)
    case _ => s
  }

  lemma CallActs(cfg: Config, f: Fleet, w: World, log: Log, a: Action)
    requires May(cfg, f, w, log, a) && PlainCall(cfg, w, a)
    ensures Act(cfg, f, w, log, a).s == Called(w.s, a)
    ensures a.Submit? ==> a.r.id !in log.h.added
  {
    if a.Clients? { assert w.s.(active := w.s.active, kv := a.kv) == w.s.(kv := a.kv); }
  }

  /** Nobody waits longer for what others submit, collect or abort. */
  lemma CallPays(cfg: Config, f: Fleet, w: World, h: History, a: Action, id: Id)
    requires FleetOk(f) && f.names != [] && Located(w.s, h) && Plain(cfg, w.s) && PlainCall(cfg, w, a)
    requires a.Submit? ==> a.r.id != id
    ensures Plain(cfg, Called(w.s, a))
    ensures Count(Line(Called(w.s, a)), id) > 0 ==> Count(Line(w.s), id) > 0 && WaitIn(f, Called(w.s, a), id) <= WaitIn(f, w.s, id)
  {
    match a
    case Submit(r, callback, now) => SubmitPays(cfg, f, w.s, r, callback, now, id);
    case Aborting(x) => AbortPays(cfg, f, w.s, h, x, id);
    case _ =>
  }

  lemma SubmitPays(cfg: Config, f: Fleet, s: Sched, r: Req, callback: bool, now: real, id: Id)
    requires FleetOk(f) && f.names != [] && Plain(cfg, s) && r.priority.Normal? && Need(cfg, r) <= s.kv.free && r.id != id
    ensures Plain(cfg, Add(s, r, callback, now))
    ensures Count(Line(Add(s, r, callback, now)), id) == Count(Line(s), id)
    ensures Count(Line(s), id) > 0 ==> WaitIn(f, Add(s, r, callback, now), id) == WaitIn(f, s, id)
  {
    var r' := r.(status := Status.Pending, arrival := now);
    Assoc(s.active, s.pending, [r']);
    CountAppend(Line(s), [r'], id);
    if Count(Line(s), id) > 0 { WaitAppend(CostIn(f), Line(s), [r'], id); }
  }

  lemma AbortPays(cfg: Config, f: Fleet, s: Sched, h: History, x: Id, id: Id)
    requires FleetOk(f) && f.names != [] && Plain(cfg, s) && Located(s, h)
    ensures Plain(cfg, Abort(s, x))
    ensures Count(Line(Abort(s, x)), id) > 0 ==>
              Count(Line(s), id) > 0 && WaitIn(f, Abort(s, x), id) <= WaitIn(f, s, id)
  {
    AbortPlain(cfg, s, x);
    AbortFromLine(s, x);
    CountRemove(Line(s), x, id);
    if x != id { WaitRemove(CostIn(f), Line(s), x, id); } else { LineOnce(s, h, id); }
  }

  lemma LineOnce(s: Sched, h: History, id: Id)
    requires Located(s, h)
    ensures Count(Line(s), id) <= 1
  {
    CountAppend(s.active, s.pending, id);
    assert Places(s, h, id) == In(id, h.added);
  }

  lemma AbortPlain(cfg: Config, s: Sched, x: Id)
    requires Plain(cfg, s)
    ensures Plain(cfg, Abort(s, x))
  {
    RemoveIn(s.pending, x);
  }

  // ----- runs -----

  /** One turn: a pass that leaves the given world, or a call. */
  datatype Turn = Pass(now: real, next: World) | Call(a: Action)

  ghost predicate TurnRun(cfg: Config, f: Fleet, w: World, log: Log, turns: seq<Turn>)
    decreases |turns|
  {
    || turns == []
    || (match turns[0]
        case Pass(now, w') =>
          && Well(w.s) && now >= log.h.clock && Passed(cfg, f, w, now, w')
          && TurnRun(cfg, f, w', AfterPass(w, log, now), turns[1..])
        case Call(a) =>
          && May(cfg, f, w, log, a) && PlainCall(cfg, w, a)
          && TurnRun(cfg, f, Act(cfg, f, w, log, a), Noted(w, log, a), turns[1..]))
  }

  ghost function TurnEnd(cfg: Config, f: Fleet, w: World, log: Log, turns: seq<Turn>): (World, Log)
    requires TurnRun(cfg, f, w, log, turns)
    decreases |turns|
  {
    if turns == [] then (w, log)
    else match turns[0]
      case Pass(now, w') => TurnEnd(cfg, f, w', AfterPass(w, log, now), turns[1..])
      case Call(a) => TurnEnd(cfg, f, Act(cfg, f, w, log, a), Noted(w, log, a), turns[1..])
  }

  function PassCount(turns: seq<Turn>): nat {
    if turns == [] then 0 else (if turns[0].Pass? then 1 else 0) + PassCount(turns[1..])
  }

  /** Out of the line with all its tokens, or aborted. */
  ghost predicate Settled(f: Fleet, w: World, log: Log, id: Id)
    requires FleetOk(f) && f.names != []
  {
    && id in log.submitted
    && (|| id in log.aborted
        || (id in w.s.completed && w.s.completed[id].generated == Baseline(f, log.submitted[id]))
        || (id in log.taken && log.taken[id].generated == Baseline(f, log.submitted[id])))
  }

  lemma OutOfLine(cfg: Config, f: Fleet, w: World, log: Log, id: Id)
    requires Correct(f, w, log) && Plain(cfg, w.s) && id in log.submitted && Count(Line(w.s), id) == 0
    ensures Settled(f, w, log, id)
  {
    CorrectOnTrack(f, w, log);
    CountAppend(w.s.active, w.s.pending, id);
    assert Places(w.s, log.h, id) == In(id, log.h.added);
  }

  /** If still in line, the request has no more than budget passes to wait for. */
  ghost predicate Due(cfg: Config, f: Fleet, w: World, id: Id, budget: int)
    requires FleetOk(f) && f.names != []
  {
    Plain(cfg, w.s) && (Count(Line(w.s), id) > 0 ==> WaitIn(f, w.s, id) <= budget)
  }

  lemma InLineWaits(f: Fleet, s: Sched, id: Id)
    requires FleetOk(f) && f.names != [] && Count(Line(s), id) > 0
    ensures WaitIn(f, s, id) > 0
  {
    forall r: Req ensures CostIn(f)(r) > 0 { assert Cost(f, r) > 0; }
    WaitPositive(CostIn(f), Line(s), id);
  }

  lemma PassKeepsDue(cfg: Config, f: Fleet, w: World, log: Log, now: real, w': World, id: Id, budget: int)
    requires Correct(f, w, log) && now >= log.h.clock && Well(w.s) && Passed(cfg, f, w, now, w') && Due(cfg, f, w, id, budget)
    ensures Due(cfg, f, w', id, budget - 1) && Correct(f, w', AfterPass(w, log, now))
    ensures AfterPass(w, log, now).submitted == log.submitted
  {
    PassPays(cfg, f, w, log, now, w', id);
    var acts, log' := PassRuns(cfg, f, w, log, now, w');
  }

  lemma CallKeepsDue(cfg: Config, f: Fleet, w: World, log: Log, a: Action, id: Id, budget: int)
    requires Correct(f, w, log) && May(cfg, f, w, log, a) && PlainCall(cfg, w, a) && id in log.submitted && Due(cfg, f, w, id, budget)
    ensures Due(cfg, f, Act(cfg, f, w, log, a), id, budget) && Correct(f, Act(cfg, f, w, log, a), Noted(w, log, a))
    ensures id in Noted(w, log, a).submitted && Noted(w, log, a).submitted[id] == log.submitted[id]
  {
    CallActs(cfg, f, w, log, a);
    CallPays(cfg, f, w, log.h, a, id);
    ActCorrect(cfg, f, w, log, a);
    SubmittedStays(w, log, a, id);
  }

  /** What a request still waits for after some turns. */
  ghost predicate DueAfter(cfg: Config, f: Fleet, id: Id, sub: Req, budget: int, w: World, log: Log) {
    Correct(f, w, log) && id in log.submitted && log.submitted[id] == sub && Due(cfg, f, w, id, budget)
  }

  lemma {:induction false} TurnsPay(cfg: Config, f: Fleet, w: World, log: Log, turns: seq<Turn>, id: Id, sub: Req, budget: int)
    requires DueAfter(cfg, f, id, sub, budget, w, log) && TurnRun(cfg, f, w, log, turns)
    ensures var (w', log') := TurnEnd(cfg, f, w, log, turns); DueAfter(cfg, f, id, sub, budget - PassCount(turns), w', log')
    decreases |turns|
  {
    if turns != [] {
      match turns[0]
      case Pass(now, w') =>
        PassKeepsDue(cfg, f, w, log, now, w', id, budget);
        TurnsPay(cfg, f, w', AfterPass(w, log, now), turns[1..], id, sub, budget - 1);
      case Call(a) =>
        CallKeepsDue(cfg, f, w, log, a, id, budget);
        TurnsPay(cfg, f, Act(cfg, f, w, log, a), Noted(w, log, a), turns[1..], id, sub, budget);
    }
  }

  /** Nobody starves: once there have been as many passes as the request and those in front of it have tokens to come,
      and one more for each, it is complete with exactly its sequential tokens, or was aborted. Later arrivals do not
      count. */
  lemma EverybodyServed(cfg: Config, f: Fleet, w: World, log: Log, turns: seq<Turn>, id: Id)
    requires Correct(f, w, log) && Plain(cfg, w.s) && id in log.submitted && TurnRun(cfg, f, w, log, turns)
    requires PassCount(turns) >= WaitIn(f, w.s, id)
    ensures var (w', log') := TurnEnd(cfg, f, w, log, turns);
            Correct(f, w', log') && Settled(f, w', log', id) && log'.submitted[id] == log.submitted[id]
  {
    TurnsPay(cfg, f, w, log, turns, id, log.submitted[id], WaitIn(f, w.s, id));
    var (w', log') := TurnEnd(cfg, f, w, log, turns);
    if Count(Line(w'.s), id) > 0 { InLineWaits(f, w'.s, id); }
    OutOfLine(cfg, f, w', log', id);
  }

  /** After n passes in a row whoever is still in line has n passes fewer to wait for. */
  ghost predicate AllDue(cfg: Config, f: Fleet, w0: World, submitted: map<Id, Req>, n: nat, w: World, log: Log) {
    && FleetOk(f) && f.names != [] && Plain(cfg, w.s) && log.submitted == submitted
    && forall id :: id in submitted ==> Due(cfg, f, w, id, WaitIn(f, w0.s, id) - n)
  }

  lemma AllDueNext(cfg: Config, f: Fleet, w0: World, submitted: map<Id, Req>, n: nat, w: World, log: Log, now: real, w': World, n': nat)
    requires Correct(f, w, log) && AllDue(cfg, f, w0, submitted, n, w, log) && n' == n + 1
    requires now >= log.h.clock && Well(w.s) && Passed(cfg, f, w, now, w')
    ensures AllDue(cfg, f, w0, submitted, n', w', AfterPass(w, log, now))
  {
    var acts, log' := PassRuns(cfg, f, w, log, now, w');
    AfterPassSame(w, log, now);
    PassPays(cfg, f, w, log, now, w', "");
    forall id | id in submitted ensures Due(cfg, f, w', id, WaitIn(f, w0.s, id) - n') {
      PassKeepsDue(cfg, f, w, log, now, w', id, WaitIn(f, w0.s, id) - n);
    }
  }

  lemma AfterPassSame(w: World, log: Log, now: real)
    ensures AfterPass(w, log, now).submitted == log.submitted
  {
  }

  /** With nobody in line who may preempt or does not fit, the next pass returns. */
  lemma PlainReturns(cfg: Config, f: Fleet, w: World, log: Log, now: real)
    requires Correct(f, w, log) && Plain(cfg, w.s) && Well(w.s)
    ensures Step(cfg, w.s, now).Returns?
  {
    var n := StepPlain(cfg, w.s, now);
  }

  lemma DueSettled(cfg: Config, f: Fleet, w0: World, submitted: map<Id, Req>, n: nat, w: World, log: Log, id: Id)
    requires Correct(f, w, log) && AllDue(cfg, f, w0, submitted, n, w, log) && id in submitted && n >= WaitIn(f, w0.s, id)
    ensures Settled(f, w, log, id)
  {
    assert Due(cfg, f, w, id, WaitIn(f, w0.s, id) - n);
    if Count(Line(w.s), id) > 0 { InLineWaits(f, w.s, id); }
    OutOfLine(cfg, f, w, log, id);
  }

  /** Where the generation loop stands after n passes from (w0, log0). */
  ghost predicate Looping(cfg: Config, f: Fleet, w0: World, log0: Log, n: nat, acts: seq<Action>, w: World, log: Log) {
    Leads(cfg, f, w0, log0, acts, w, log) && (Plain(cfg, w0.s) ==> AllDue(cfg, f, w0, log0.submitted, n, w, log))
  }

  /** What n passes come to: a run of the server with everybody on track, and if it started with Plain, whoever had no
      more than n passes to wait for is settled. */
  ghost predicate Looped(cfg: Config, f: Fleet, w0: World, log0: Log, n: nat, acts: seq<Action>, w: World, log: Log) {
    && Leads(cfg, f, w0, log0, acts, w, log) && AllOnTrack(f, w, log)
    && (Plain(cfg, w0.s) ==> SettledWithin(f, w0, log0, n, w, log))
  }

  lemma LoopStarts(cfg: Config, f: Fleet, w: World, log: Log)
    requires Correct(f, w, log)
    ensures Looping(cfg, f, w, log, 0, [], w, log)
  {
    if Plain(cfg, w.s) { NobodyLater(cfg, f, w, log); }
  }

  lemma NobodyLater(cfg: Config, f: Fleet, w: World, log: Log)
    requires Correct(f, w, log) && Plain(cfg, w.s)
    ensures AllDue(cfg, f, w, log.submitted, 0, w, log)
  {
  }

  lemma LoopGoesOn(cfg: Config, f: Fleet, w0: World, log0: Log, n: nat, acts: seq<Action>, w: World, log: Log,
                   now: real, w': World, n': nat) returns (acts': seq<Action>, log': Log)
    requires Looping(cfg, f, w0, log0, n, acts, w, log) && n' == n + 1
    requires now >= log.h.clock && Well(w.s) && Passed(cfg, f, w, now, w')
    ensures Looping(cfg, f, w0, log0, n', acts', w', log') && log'.h.clock <= now
  {
    var more;
    more, log' := PassRuns(cfg, f, w, log, now, w');
    LeadsOn(cfg, f, w0, log0, acts, w, log, more, w', log');
    acts' := acts + more;
    if Plain(cfg, w0.s) { AllDueNext(cfg, f, w0, log0.submitted, n, w, log, now, w', n'); }
  }

  lemma LoopNeverHangs(cfg: Config, f: Fleet, w0: World, log0: Log, n: nat, acts: seq<Action>, w: World, log: Log, now: real)
    requires Looping(cfg, f, w0, log0, n, acts, w, log) && Plain(cfg, w0.s)
    ensures Well(w.s) && Step(cfg, w.s, now).Returns?
  {
    LocatedWell(w.s, log.h);
    PlainReturns(cfg, f, w, log, now);
  }

  lemma LoopEnds(cfg: Config, f: Fleet, w0: World, log0: Log, n: nat, acts: seq<Action>, w: World, log: Log)
    requires Looping(cfg, f, w0, log0, n, acts, w, log)
    ensures Looped(cfg, f, w0, log0, n, acts, w, log)
  {
    CorrectOnTrack(f, w, log);
    if Plain(cfg, w0.s) {
      forall id | id in log0.submitted && n >= WaitIn(f, w0.s, id) ensures Settled(f, w, log, id) {
        DueSettled(cfg, f, w0, log0.submitted, n, w, log, id);
      }
    }
  }

  /** Whoever had no more than n passes to wait for is settled. */
  ghost predicate SettledWithin(f: Fleet, w0: World, log0: Log, n: nat, w: World, log: Log) {
    && FleetOk(f) && f.names != []
    && forall id :: id in log0.submitted && n >= WaitIn(f, w0.s, id) ==> Settled(f, w, log, id)
  }

  /** Turns are a run of the server. */
  lemma {:induction false} TurnsLead(cfg: Config, f: Fleet, w: World, log: Log, turns: seq<Turn>) returns (acts: seq<Action>)
    requires Correct(f, w, log) && TurnRun(cfg, f, w, log, turns)
    ensures Leads(cfg, f, w, log, acts, TurnEnd(cfg, f, w, log, turns).0, TurnEnd(cfg, f, w, log, turns).1)
    decreases |turns|
  {
    acts := [];
    if turns != [] {
      var (w2, log2) := TurnEnd(cfg, f, w, log, turns);
      match turns[0]
      case Pass(now, w1) =>
        var log1;
        acts, log1 := PassRuns(cfg, f, w, log, now, w1);
        var more := TurnsLead(cfg, f, w1, log1, turns[1..]);
        LeadsOn(cfg, f, w, log, acts, w1, log1, more, w2, log2);
        acts := acts + more;
      case Call(a) =>
        ActLeads(cfg, f, w, log, a);
        var more := TurnsLead(cfg, f, Act(cfg, f, w, log, a), Noted(w, log, a), turns[1..]);
        LeadsOn(cfg, f, w, log, [a], Act(cfg, f, w, log, a), Noted(w, log, a), more, w2, log2);
        acts := [a] + more;
    }
  }

  // ----- the bound in numbers of the requests -----

  /** No request needs more passes than its token limit and one more. */
  lemma CostWithin(f: Fleet, r: Req)
    requires FleetOk(f) && f.names != []
    ensures Cost(f, r) <= (if r.maxNew > 1 then r.maxNew else 1) + 1
  {
    StopWithin(f.served[NameFor(f, r)], r.prompt, r.maxNew, 1);
  }
}
