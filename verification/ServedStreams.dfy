/** A token stream read from the running server: the client receives exactly the sequential tokens. */
module ServedStreams {
  import opened Types
  import opened EngineModel
  import opened ServerModel
  import opened SchedModel
  import opened SchedLists
  import opened SchedAdmission
  import opened SchedStep
  import opened SchedRuns
  import opened SchedClosure
  import opened SchedFifo
  import opened ServerRuns
  import opened ServerProgress
  import opened TokenStream

  /** r is a request object of the server, wherever it is kept. */
  ghost predicate Holds(w: World, log: Log, r: Req) {
    || r in w.s.pending || r in w.s.active || r in w.s.preempted
    || KeptIn(w.s.completed, r) || KeptIn(log.taken, r) || KeptIn(log.aborted, r)
  }

  predicate KeptIn(m: map<Id, Req>, r: Req) { r.id in m && m[r.id] == r }

  function Seen(r: Req): Shared { Shared(r.generated, r.status, |r.prompt|) }

  /** On its sequential path, and FAILED just in case it was aborted. */
  lemma HeldOnTrack(f: Fleet, w: World, log: Log, r: Req)
    requires Correct(f, w, log) && Holds(w, log, r)
    ensures OnTrack(f, log.submitted, r) && (r.status.Failed? <==> KeptIn(log.aborted, r))
  {
    if KeptIn(log.aborted, r) {
      assert Gone(f, log.submitted, r.id, log.aborted[r.id]);
    } else {
      HeldRight(f, w, log, r);
      RightOnTrack(f, w.es, log.submitted, r);
    }
  }

  lemma HeldRight(f: Fleet, w: World, log: Log, r: Req)
    requires Correct(f, w, log) && Holds(w, log, r) && !KeptIn(log.aborted, r)
    ensures Right(f, w.es, log.submitted, r)
  {
    if KeptIn(w.s.completed, r) {
      assert Finisher(f, w.es, log.submitted, r.id, w.s.completed[r.id]);
    } else if KeptIn(log.taken, r) {
      assert Finisher(f, w.es, log.submitted, r.id, log.taken[r.id]);
    } else {
      assert Rightly(f, w.es, log.submitted)(r);
    }
  }

  // ----- one object per request -----

  function Queues(s: Sched): seq<Req> { s.pending + s.active + s.preempted }

  lemma QueuesCount(s: Sched, id: Id)
    ensures Count(Queues(s), id) == Total(s, id)
  {
    CountAppend(s.pending + s.active, s.preempted, id);
    CountAppend(s.pending, s.active, id);
  }

  lemma QueuesUnique(s: Sched, h: History)
    requires Located(s, h)
    ensures Unique(Queues(s))
  {
    forall id ensures Count(Queues(s), id) <= 1 {
      QueuesCount(s, id);
      assert Places(s, h, id) == In(id, h.added);
    }
  }

  lemma HeldOnce(s: Sched, h: History, id: Id)
    requires Located(s, h)
    ensures Count(Queues(s), id) + In(id, s.completed.Keys) + In(id, h.collected) + In(id, h.dropped) + In(id, h.cancelled) <= 1
  {
    QueuesCount(s, id);
    assert Places(s, h, id) == In(id, h.added);
  }

  lemma OneOf(w: World, log: Log, a: Req, b: Req)
    requires Located(w.s, log.h) && log.taken.Keys == log.h.collected && log.aborted.Keys == log.h.cancelled + log.h.dropped
    requires Holds(w, log, a) && Holds(w, log, b) && a.id == b.id
    ensures a == b
  {
    var rs := Queues(w.s);
    QueuesUnique(w.s, log.h);
    HeldOnce(w.s, log.h, a.id);
    if a in rs { CountMember(rs, a); }
    if b in rs { CountMember(rs, b); }
    if a in rs && b in rs { SameEntry(rs, a, b); }
  }

  lemma OneHolder(f: Fleet, w: World, log: Log, a: Req, b: Req)
    requires Correct(f, w, log) && Holds(w, log, a) && Holds(w, log, b) && a.id == b.id
    ensures a == b
  {
    OneOf(w, log, a, b);
  }

  // ----- the server is a producer -----

  lemma StepLater(f: Fleet, r: Req, e: string, lane: Option<Lane>)
    requires CanStep(f, r, e, lane)
    ensures Later(Seen(r), Seen(StepRequest(f, r, e, lane).0))
  {
  }

  lemma MemberLater(f: Fleet, es: Lanes, rs: seq<Req>, es': Lanes, rs': seq<Req>, i: nat)
    requires CanInfer(f, es, rs) && Inferred(f, es, rs, es', rs') && f.names != [] && i < |rs|
    ensures Later(Seen(rs[i]), Seen(rs'[i]))
  {
    assert Stepped(f, es, rs[i], true, es', rs'[i]);
    StepLater(f, rs[i], NameFor(f, rs[i]), LaneAt(es, NameFor(f, rs[i]), rs[i].id));
  }

  lemma InferLater(f: Fleet, w: World, log: Log, es': Lanes, rs': seq<Req>, r: Req, r': Req)
    requires Correct(f, w, log) && CanInfer(f, w.es, w.s.active) && Inferred(f, w.es, w.s.active, es', rs')
    requires Holds(w, log, r) && r' in rs' && r'.id == r.id
    ensures Later(Seen(r), Seen(r'))
  {
    var i :| 0 <= i < |rs'| && rs'[i] == r';
    InferredSame(f, w, log, es', rs');
    assert w.s.active[i] in w.s.active;
    OneHolder(f, w, log, r, w.s.active[i]);
    MemberLater(f, w.es, w.s.active, es', rs', i);
  }

  ghost function AfterOf(r: Req): Req -> bool { (x: Req) => x.id == r.id ==> Later(Seen(r), Seen(x)) }

  lemma AfterClosed(r: Req)
    ensures Closed(AfterOf(r))
  {
  }

  lemma AfterIn(f: Fleet, w: World, log: Log, r: Req, x: Req)
    requires Correct(f, w, log) && Holds(w, log, r) && Holds(w, log, x)
    ensures AfterOf(r)(x)
  {
    if x.id == r.id {
      OneHolder(f, w, log, r, x);
      assert Later(Seen(r), Seen(r));
    }
  }

  lemma AllWith(P: Req -> bool, Q: Req -> bool, s: Sched)
    requires All(P, s)
    requires forall x :: x in s.pending || x in s.active || x in s.preempted ==> Q(x)
    ensures All(Q, s)
  {
  }

  lemma AllAfter(f: Fleet, w: World, log: Log, r: Req)
    requires Correct(f, w, log) && Holds(w, log, r)
    ensures All(AfterOf(r), w.s)
  {
    forall x | x in w.s.pending || x in w.s.active || x in w.s.preempted ensures AfterOf(r)(x) { AfterIn(f, w, log, r, x); }
    AllWith(Rightly(f, w.es, log.submitted), AfterOf(r), w.s);
  }

  lemma HarvestedAfter(f: Fleet, w: World, log: Log, s': Sched, r: Req, r': Req)
    requires Correct(f, w, log) && Holds(w, log, r) && r'.id == r.id
    requires All(AfterOf(r), s') && Harvest(AfterOf(r), w.s, s') && Holds(World(s', w.es), log, r')
    ensures Later(Seen(r), Seen(r'))
  {
    if KeptIn(log.taken, r') || KeptIn(log.aborted, r') || KeptIn(w.s.completed, r') {
      assert Holds(w, log, r');
      OneHolder(f, w, log, r, r');
    } else {
      assert AfterOf(r)(r');
    }
  }

  lemma TickLater(cfg: Config, f: Fleet, w: World, log: Log, now: real, r: Req, r': Req)
    requires Correct(f, w, log) && Well(w.s)
    requires Holds(w, log, r) && Holds(World(Step(cfg, w.s, now).s, w.es), log, r') && r'.id == r.id
    ensures Later(Seen(r), Seen(r'))
  {
    AfterClosed(r);
    AllAfter(f, w, log, r);
    StepClosed(AfterOf(r), cfg, w.s, now);
    HarvestedAfter(f, w, log, Step(cfg, w.s, now).s, r, r');
  }

  lemma AbortLater(f: Fleet, w: World, log: Log, id: Id, r: Req, r': Req)
    requires Correct(f, w, log) && Holds(w, log, r) && r'.id == r.id
    requires Holds(World(Abort(w.s, id), w.es), log.(aborted := WithAborted(log.aborted, id, Victim(w.s, id))), r')
    ensures Later(Seen(r), Seen(r'))
  {
    var v := Victim(w.s, id);
    VictimIs(w.s, id);
    if v.Some? && r' == v.value.(status := Failed) && KeptIn(WithAborted(log.aborted, id, v), r') {
      OneHolder(f, w, log, r, v.value);
    } else {
      HeldThroughAbort(w, log, id, r');
      OneHolder(f, w, log, r, r');
    }
  }

  lemma HeldThroughAbort(w: World, log: Log, id: Id, r': Req)
    requires Holds(World(Abort(w.s, id), w.es), log.(aborted := WithAborted(log.aborted, id, Victim(w.s, id))), r')
    requires Victim(w.s, id).Some? ==> Victim(w.s, id).value.id == id
    requires !(Victim(w.s, id).Some? && r' == Victim(w.s, id).value.(status := Failed)
               && KeptIn(WithAborted(log.aborted, id, Victim(w.s, id)), r'))
    ensures Holds(w, log, r')
  {
    RemoveIn(w.s.active, id);
    RemoveIn(w.s.pending, id);
    RemoveIn(w.s.preempted, id);
  }

  /** Submitting, collecting and block counts move request objects around at most. */
  lemma HeldBefore(cfg: Config, f: Fleet, w: World, log: Log, a: Action, r': Req)
    requires May(cfg, f, w, log, a) && Holds(Act(cfg, f, w, log, a), Noted(w, log, a), r')
    requires (a.Submit? && a.r.id != r'.id) || a.Collecting? || a.Clients? || (a.Infer? && r' !in a.active)
    ensures Holds(w, log, r')
  {
  }

  /** Whatever the server does, a request's tokens only grow, and a finished request gets no more. */
  lemma ServerIsProducer(cfg: Config, f: Fleet, w: World, log: Log, a: Action, r: Req, r': Req)
    requires Correct(f, w, log) && May(cfg, f, w, log, a)
    requires Holds(w, log, r) && Holds(Act(cfg, f, w, log, a), Noted(w, log, a), r') && r'.id == r.id
    ensures Later(Seen(r), Seen(r'))
  {
    if a.Tick? {
      TickLater(cfg, f, w, log, a.now, r, r');
    } else if a.Aborting? {
      AbortActs(cfg, f, w, log, a.id);
      AbortLater(f, w, log, a.id, r, r');
    } else if a.Infer? && r' in a.active {
      InferLater(f, w, log, a.es, a.active, r, r');
    } else {
      if a.Submit? { HeldSubmitted(f, w, log, r); }
      HeldBefore(cfg, f, w, log, a, r');
      OneHolder(f, w, log, r, r');
    }
  }

  lemma HeldSubmitted(f: Fleet, w: World, log: Log, r: Req)
    requires Correct(f, w, log) && Holds(w, log, r)
    ensures r.id in log.h.added
  {
    HeldOnTrack(f, w, log, r);
  }

  lemma HolderOf(f: Fleet, w: World, log: Log, id: Id) returns (r: Req)
    requires Correct(f, w, log) && id in log.submitted
    ensures Holds(w, log, r) && r.id == id
  {
    if id in w.s.completed {
      assert Finisher(f, w.es, log.submitted, id, w.s.completed[id]);
      r := w.s.completed[id];
    } else if id in log.taken {
      assert Finisher(f, w.es, log.submitted, id, log.taken[id]);
      r := log.taken[id];
    } else if id in log.aborted {
      assert Gone(f, log.submitted, id, log.aborted[id]);
      r := log.aborted[id];
    } else {
      r := Queued(w.s, log.h, id);
    }
  }

  // ----- server and stream together -----

  /** What the request passes through while the server does one thing. Inference runs beside the stream, so the
      stream may look in between, for example after an append and before the final status. */
  ghost predicate Through(p: Shared, between: seq<Shared>, p': Shared)
    decreases |between|
  {
    if between == [] then Later(p, p') else Later(p, between[0]) && Through(between[0], between[1..], p')
  }

  /** One poll at each of these moments. */
  ghost predicate CanPollAll(st: Stream, moments: seq<Shared>)
    decreases |moments|
  {
    moments == [] || (CanPoll(st, moments[0]) && CanPollAll(Poll(st, moments[0]), moments[1..]))
  }

  ghost function PollAll(st: Stream, moments: seq<Shared>): Stream
    requires CanPollAll(st, moments)
    decreases |moments|
  {
    if moments == [] then st else PollAll(Poll(st, moments[0]), moments[1..])
  }

  /** The server acts while the stream of one request polls it at some moments on the way, or the stream polls the
      request between two actions. */
  datatype Beat = Serve(a: Action, between: seq<Shared>) | Read(r: Req)

  /** Every request object with the id passes through these moments. */
  ghost predicate Passes(id: Id, w: World, log: Log, between: seq<Shared>, w': World, log': Log) {
    forall r, r' :: Holds(w, log, r) && Holds(w', log', r') && r.id == r'.id == id ==> Through(Seen(r), between, Seen(r'))
  }

  ghost predicate BeatRun(cfg: Config, f: Fleet, id: Id, w: World, log: Log, st: Stream, beats: seq<Beat>)
    decreases |beats|
  {
    || beats == []
    || (match beats[0]
        case Serve(a, between) =>
          && May(cfg, f, w, log, a) && (between == [] || a.Infer?)
          && Passes(id, w, log, between, Act(cfg, f, w, log, a), Noted(w, log, a))
          && CanPollAll(st, between)
          && BeatRun(cfg, f, id, Act(cfg, f, w, log, a), Noted(w, log, a), PollAll(st, between), beats[1..])
        case Read(r) =>
          && Holds(w, log, r) && r.id == id
          && CanPoll(st, Seen(r)) && BeatRun(cfg, f, id, w, log, Poll(st, Seen(r)), beats[1..]))
  }

  ghost function BeatEnd(cfg: Config, f: Fleet, id: Id, w: World, log: Log, st: Stream, beats: seq<Beat>): (World, Log, Stream)
    requires BeatRun(cfg, f, id, w, log, st, beats)
    decreases |beats|
  {
    if beats == [] then (w, log, st)
    else match beats[0]
      case Serve(a, between) =>
        BeatEnd(cfg, f, id, Act(cfg, f, w, log, a), Noted(w, log, a), PollAll(st, between), beats[1..])
      case Read(r) => BeatEnd(cfg, f, id, w, log, Poll(st, Seen(r)), beats[1..])
  }

  /** A prefix of base has gone out; at the end one closing event: "stop" after all of base, or, only for an aborted
      request, "error" after a prefix. */
  ghost predicate Received(base: seq<Token>, promptLen: nat, aborted: bool, st: Stream) {
    if st.pc.Ended? then exists n: nat :: n <= |base| && ReceivedAll(base, promptLen, aborted, n, st)
    else exists k: nat :: k <= |base| && st.sendings == Sents(base[..k])
  }

  predicate ReceivedAll(base: seq<Token>, promptLen: nat, aborted: bool, n: nat, st: Stream)
    requires n <= |base|
  {
    || (n == |base| && st.sendings == Sents(base) + [Final("stop", promptLen, n, promptLen + n)])
    || (aborted && st.sendings == Sents(base[..n]) + [Final("error", promptLen, n, promptLen + n)])
  }

  lemma ClosedReceived(st: Stream, c: Shared, p: Shared, base: seq<Token>, aborted: bool)
    requires st.pc.Ended? && Closes(st, c, p) && p.tokens <= base && (p.status.Failed? ==> aborted)
    requires c.status.Complete? ==> c.tokens == base
    ensures Received(base, p.promptLen, aborted, st)
  {
    var n := |p.tokens|;
    assert base[..n] == p.tokens && base[..|base|] == base;
    assert ReceivedAll(base, p.promptLen, aborted, n, st);
  }

  lemma SentReceived(st: Stream, p: Shared, base: seq<Token>, aborted: bool)
    requires Faithful(st, p) && !st.pc.Ended? && p.tokens <= base
    ensures Received(base, p.promptLen, aborted, st)
  {
    var k := Out(st, p);
    assert p.tokens[..k] == base[..k];
    assert st.sendings == Sents(base[..k]);
  }

  /** What the stream may see of a request whose sequential tokens are base. */
  predicate Seeable(base: seq<Token>, aborted: bool, p: Shared) {
    && p.tokens <= base && (p.status.Complete? ==> p.tokens == base) && (p.status.Failed? ==> aborted)
  }

  lemma SeeableBetween(base: seq<Token>, aborted: bool, p: Shared, q: Shared, p': Shared)
    requires Later(p, q) && Later(q, p') && Seeable(base, aborted, p') && (p'.status.Failed? ==> p.status.Failed?)
    ensures Seeable(base, aborted, q)
  {
  }

  /** Faithful so far, and received in full if it has ended. */
  ghost predicate Delivering(base: seq<Token>, aborted: bool, st: Stream, p: Shared) {
    Faithful(st, p) && (st.pc.Ended? ==> Received(base, p.promptLen, aborted, st))
  }

  lemma PollDelivers(base: seq<Token>, aborted: bool, st: Stream, p: Shared)
    requires Delivering(base, aborted, st, p) && Seeable(base, aborted, p)
    ensures CanPoll(st, p) && Delivering(base, aborted, Poll(st, p), p)
  {
    PollFaithful(st, p);
    if st.pc.Close? {
      assert p.tokens[..|p.tokens|] == p.tokens;
      ClosedReceived(Poll(st, p), p, p, base, aborted);
    }
  }

  lemma LaterDelivers(base: seq<Token>, aborted: bool, aborted': bool, st: Stream, p: Shared, p': Shared)
    requires Delivering(base, aborted, st, p) && Later(p, p') && (aborted ==> aborted')
    ensures Delivering(base, aborted', st, p')
  {
    LaterFaithful(st, p, p');
    if st.pc.Ended? {
      var n: nat :| n <= |base| && ReceivedAll(base, p.promptLen, aborted, n, st);
      assert ReceivedAll(base, p'.promptLen, aborted', n, st);
    }
  }

  lemma {:induction false} ThroughLater(p: Shared, between: seq<Shared>, p': Shared)
    requires Through(p, between, p')
    ensures Later(p, p')
    decreases |between|
  {
    if between != [] {
      ThroughLater(between[0], between[1..], p');
      LaterTransitive(p, between[0], p');
    }
  }

  lemma {:induction false} PollAllDelivers(base: seq<Token>, aborted: bool, st: Stream, p: Shared, between: seq<Shared>, p': Shared)
    requires Delivering(base, aborted, st, p) && Through(p, between, p')
    requires Seeable(base, aborted, p') && (p'.status.Failed? ==> p.status.Failed?)
    ensures CanPollAll(st, between) && Delivering(base, aborted, PollAll(st, between), p')
    decreases |between|
  {
    if between == [] {
      LaterDelivers(base, aborted, aborted, st, p, p');
    } else {
      var q := between[0];
      ThroughLater(q, between[1..], p');
      SeeableBetween(base, aborted, p, q, p');
      LaterDelivers(base, aborted, aborted, st, p, q);
      PollDelivers(base, aborted, st, q);
      PollAllDelivers(base, aborted, Poll(st, q), q, between[1..], p');
    }
  }

  ghost predicate Streaming(f: Fleet, id: Id, w: World, log: Log, st: Stream) {
    && Correct(f, w, log) && id in log.submitted
    && forall r :: Holds(w, log, r) && r.id == id ==>
         Delivering(Baseline(f, log.submitted[id]), id in log.aborted, st, Seen(r))
  }

  lemma HeldSeeable(f: Fleet, w: World, log: Log, r: Req)
    requires Correct(f, w, log) && Holds(w, log, r)
    ensures r.id in log.submitted && Seeable(Baseline(f, log.submitted[r.id]), r.id in log.aborted, Seen(r))
    ensures |r.prompt| == |log.submitted[r.id].prompt|
  {
    HeldOnTrack(f, w, log, r);
  }

  /** Without a look in between there is nothing to ask; ServerIsProducer makes the empty list of moments fit. */
  lemma PassesDirectly(cfg: Config, f: Fleet, id: Id, w: World, log: Log, a: Action)
    requires Correct(f, w, log) && May(cfg, f, w, log, a)
    ensures Passes(id, w, log, [], Act(cfg, f, w, log, a), Noted(w, log, a))
  {
    forall r, r' | Holds(w, log, r) && Holds(Act(cfg, f, w, log, a), Noted(w, log, a), r') && r.id == r'.id == id
      ensures Through(Seen(r), [], Seen(r'))
    {
      ServerIsProducer(cfg, f, w, log, a, r, r');
    }
  }

  /** An action without a look on the way. */
  lemma ServeQuietly(cfg: Config, f: Fleet, id: Id, w: World, log: Log, st: Stream, a: Action)
    requires Streaming(f, id, w, log, st) && May(cfg, f, w, log, a)
    ensures Streaming(f, id, Act(cfg, f, w, log, a), Noted(w, log, a), st)
    ensures Noted(w, log, a).submitted[id] == log.submitted[id]
  {
    ActCorrect(cfg, f, w, log, a);
    SubmittedStays(w, log, a, id);
    var r := HolderOf(f, w, log, id);
    if id in log.aborted { AbortedStays(w, log, a, id); }
    forall r' | Holds(Act(cfg, f, w, log, a), Noted(w, log, a), r') && r'.id == id
      ensures Delivering(Baseline(f, log.submitted[id]), id in Noted(w, log, a).aborted, st, Seen(r'))
    {
      ServerIsProducer(cfg, f, w, log, a, r, r');
      LaterDelivers(Baseline(f, log.submitted[id]), id in log.aborted, id in Noted(w, log, a).aborted, st, Seen(r), Seen(r'));
    }
  }

  lemma InferKeepsFailed(f: Fleet, w: World, log: Log, es': Lanes, rs': seq<Req>, r: Req, r': Req)
    requires Correct(f, w, log) && Correct(f, World(w.s.(active := rs'), es'), log)
    requires Holds(w, log, r) && Holds(World(w.s.(active := rs'), es'), log, r') && r.id == r'.id && r'.status.Failed?
    ensures r.status.Failed?
  {
    HeldOnTrack(f, World(w.s.(active := rs'), es'), log, r');
    OneHolder(f, w, log, r, r');
  }

  /** An inference step with looks on the way. */
  lemma ServeInference(f: Fleet, id: Id, w: World, log: Log, st: Stream, es': Lanes, rs': seq<Req>, between: seq<Shared>)
    requires Streaming(f, id, w, log, st) && Correct(f, World(w.s.(active := rs'), es'), log)
    requires Passes(id, w, log, between, World(w.s.(active := rs'), es'), log)
    ensures CanPollAll(st, between) && Streaming(f, id, World(w.s.(active := rs'), es'), log, PollAll(st, between))
  {
    var w' := World(w.s.(active := rs'), es');
    var r := HolderOf(f, w, log, id);
    var r1 := HolderOf(f, w', log, id);
    LookIn(f, id, w, log, st, es', rs', between, r, r1);
    forall r' | Holds(w', log, r') && r'.id == id
      ensures Delivering(Baseline(f, log.submitted[id]), id in log.aborted, PollAll(st, between), Seen(r'))
    {
      LookIn(f, id, w, log, st, es', rs', between, r, r');
    }
  }

  lemma LookIn(f: Fleet, id: Id, w: World, log: Log, st: Stream, es': Lanes, rs': seq<Req>, between: seq<Shared>, r: Req, r': Req)
    requires Streaming(f, id, w, log, st) && Correct(f, World(w.s.(active := rs'), es'), log)
    requires Holds(w, log, r) && Holds(World(w.s.(active := rs'), es'), log, r') && r.id == r'.id == id
    requires Passes(id, w, log, between, World(w.s.(active := rs'), es'), log)
    ensures CanPollAll(st, between)
    ensures Delivering(Baseline(f, log.submitted[id]), id in log.aborted, PollAll(st, between), Seen(r'))
  {
    HeldSeeable(f, World(w.s.(active := rs'), es'), log, r');
    if r'.status.Failed? { InferKeepsFailed(f, w, log, es', rs', r, r'); }
    PollAllDelivers(Baseline(f, log.submitted[id]), id in log.aborted, st, Seen(r), between, Seen(r'));
  }

  lemma ServeStreaming(cfg: Config, f: Fleet, id: Id, w: World, log: Log, st: Stream, a: Action, between: seq<Shared>)
    requires Streaming(f, id, w, log, st) && May(cfg, f, w, log, a) && (between == [] || a.Infer?)
    requires Passes(id, w, log, between, Act(cfg, f, w, log, a), Noted(w, log, a))
    ensures CanPollAll(st, between)
    ensures Streaming(f, id, Act(cfg, f, w, log, a), Noted(w, log, a), PollAll(st, between))
    ensures Noted(w, log, a).submitted[id] == log.submitted[id]
  {
    if a.Infer? {
      ActCorrect(cfg, f, w, log, a);
      MayInfer(cfg, f, w, log, a);
      ServeInference(f, id, w, log, st, a.es, a.active, between);
    } else {
      ServeQuietly(cfg, f, id, w, log, st, a);
    }
  }

  lemma ReadStreaming(f: Fleet, id: Id, w: World, log: Log, st: Stream, r: Req)
    requires Streaming(f, id, w, log, st) && Holds(w, log, r) && r.id == id
    ensures CanPoll(st, Seen(r)) && Streaming(f, id, w, log, Poll(st, Seen(r)))
  {
    HeldSeeable(f, w, log, r);
    PollDelivers(Baseline(f, log.submitted[id]), id in log.aborted, st, Seen(r));
    forall r' | Holds(w, log, r') && r'.id == id ensures r' == r { OneHolder(f, w, log, r, r'); }
  }

  lemma {:induction false} BeatStreaming(cfg: Config, f: Fleet, id: Id, w: World, log: Log, st: Stream, beats: seq<Beat>)
    requires Streaming(f, id, w, log, st) && BeatRun(cfg, f, id, w, log, st, beats)
    ensures var (w', log', st') := BeatEnd(cfg, f, id, w, log, st, beats);
            Streaming(f, id, w', log', st') && log'.submitted[id] == log.submitted[id]
    decreases |beats|
  {
    if beats != [] {
      match beats[0]
      case Serve(a, between) =>
        ServeStreaming(cfg, f, id, w, log, st, a, between);
        BeatStreaming(cfg, f, id, Act(cfg, f, w, log, a), Noted(w, log, a), PollAll(st, between), beats[1..]);
      case Read(r) =>
        ReadStreaming(f, id, w, log, st, r);
        BeatStreaming(cfg, f, id, w, log, Poll(st, Seen(r)), beats[1..]);
    }
  }

  lemma DeliveringReceived(base: seq<Token>, aborted: bool, st: Stream, p: Shared)
    requires Delivering(base, aborted, st, p) && Seeable(base, aborted, p)
    ensures Received(base, p.promptLen, aborted, st)
  {
    if !st.pc.Ended? { SentReceived(st, p, base, aborted); }
  }

  lemma StreamingReceived(f: Fleet, id: Id, w: World, log: Log, st: Stream)
    requires Streaming(f, id, w, log, st)
    ensures Received(Baseline(f, log.submitted[id]), |log.submitted[id].prompt|, id in log.aborted, st)
  {
    var r := HolderOf(f, w, log, id);
    HeldSeeable(f, w, log, r);
    DeliveringReceived(Baseline(f, log.submitted[id]), id in log.aborted, st, Seen(r));
  }

  /** A stream opened on a submitted request, whatever the server does meanwhile and whatever the stream sees in the
      middle of an inference step, has sent a prefix of the request's sequential tokens. Once it has ended it has sent
      all of them and one closing "stop", or, only if the request was aborted, a prefix and one closing "error". */
  lemma ClientReceivesBaseline(cfg: Config, f: Fleet, id: Id, w: World, log: Log, beats: seq<Beat>)
    requires Correct(f, w, log) && id in log.submitted && BeatRun(cfg, f, id, w, log, Opened(), beats)
    ensures var (_, log', st) := BeatEnd(cfg, f, id, w, log, Opened(), beats);
            Received(Baseline(f, log.submitted[id]), |log.submitted[id].prompt|, id in log'.aborted, st)
  {
    OpenedStreaming(f, id, w, log);
    BeatStreaming(cfg, f, id, w, log, Opened(), beats);
    var (w', log', st) := BeatEnd(cfg, f, id, w, log, Opened(), beats);
    StreamingReceived(f, id, w', log', st);
  }

  // ----- tokens reach the client while the server runs -----

  /** From st at p the stream can get to st' in k looks. */
  ghost predicate Streams(st: Stream, p: Shared, k: nat, st': Stream) {
    exists ms :: StreamRun(st, p, ms) && Looks(ms) == k && StreamEnd(st, p, ms).0 == st'
  }

  lemma StreamsNone(st: Stream, p: Shared)
    ensures Streams(st, p, 0, st)
  {
    assert StreamRun(st, p, []) && Looks([]) == 0 && StreamEnd(st, p, []).0 == st;
  }

  lemma StreamsLook(st: Stream, p: Shared, k: nat, k': nat, st': Stream)
    requires CanPoll(st, p) && Streams(Poll(st, p), p, k, st') && k' == 1 + k
    ensures Streams(st, p, k', st')
  {
    var rest :| StreamRun(Poll(st, p), p, rest) && Looks(rest) == k && StreamEnd(Poll(st, p), p, rest).0 == st';
    var ms := [Consume] + rest;
    assert ms[0] == Consume && ms[1..] == rest;
    assert StreamRun(st, p, ms) && Looks(ms) == k' && StreamEnd(st, p, ms).0 == st';
  }

  lemma StreamsOn(st: Stream, p: Shared, p': Shared, k: nat, st': Stream)
    requires Later(p, p') && Streams(st, p', k, st')
    ensures Streams(st, p, k, st')
  {
    var rest :| StreamRun(st, p', rest) && Looks(rest) == k && StreamEnd(st, p', rest).0 == st';
    var ms := [Produce(p')] + rest;
    assert ms[0] == Produce(p') && ms[1..] == rest;
    assert StreamRun(st, p, ms) && Looks(ms) == k && StreamEnd(st, p, ms).0 == st';
  }

  lemma {:induction false} StreamsThrough(st: Stream, p: Shared, between: seq<Shared>, p': Shared,
                                          k: nat, k': nat, st': Stream)
    requires Through(p, between, p') && CanPollAll(st, between) && Streams(PollAll(st, between), p', k, st')
    requires k' == |between| + k
    ensures Streams(st, p, k', st')
    decreases |between|
  {
    if between == [] {
      StreamsOn(st, p, p', k, st');
    } else {
      StreamsThrough(Poll(st, between[0]), between[0], between[1..], p', k, k' - 1, st');
      StreamsLook(st, between[0], k' - 1, k', st');
      StreamsOn(st, p, between[0], k', st');
    }
  }

  function Glances(beats: seq<Beat>): nat {
    if beats == [] then 0
    else match beats[0]
      case Serve(_, between) => |between| + Glances(beats[1..])
      case Read(_) => 1 + Glances(beats[1..])
  }

  /** r is the object of the submitted request id. */
  ghost predicate Object(f: Fleet, id: Id, w: World, log: Log, r: Req) {
    Correct(f, w, log) && id in log.submitted && Holds(w, log, r) && r.id == id
  }

  lemma ObjectServed(cfg: Config, f: Fleet, id: Id, w: World, log: Log, a: Action, between: seq<Shared>, r: Req) returns (r': Req)
    requires Object(f, id, w, log, r) && May(cfg, f, w, log, a)
    requires Passes(id, w, log, between, Act(cfg, f, w, log, a), Noted(w, log, a))
    ensures Object(f, id, Act(cfg, f, w, log, a), Noted(w, log, a), r') && Through(Seen(r), between, Seen(r'))
  {
    ActCorrect(cfg, f, w, log, a);
    SubmittedStays(w, log, a, id);
    r' := HolderOf(f, Act(cfg, f, w, log, a), Noted(w, log, a), id);
  }

  lemma ObjectRead(f: Fleet, id: Id, w: World, log: Log, r: Req, seen: Req)
    requires Object(f, id, w, log, r) && Holds(w, log, seen) && seen.id == id
    ensures seen == r
  {
    OneHolder(f, w, log, r, seen);
  }

  /** The running server is one of the producers that a stream may stand beside. */
  lemma {:induction false} BeatsAreMoves(cfg: Config, f: Fleet, id: Id, w: World, log: Log, st: Stream, beats: seq<Beat>, r: Req)
    requires Object(f, id, w, log, r) && BeatRun(cfg, f, id, w, log, st, beats)
    ensures Streams(st, Seen(r), Glances(beats), BeatEnd(cfg, f, id, w, log, st, beats).2)
    decreases |beats|
  {
    var end := BeatEnd(cfg, f, id, w, log, st, beats).2;
    if beats == [] {
      StreamsNone(st, Seen(r));
    } else {
      match beats[0]
      case Serve(a, between) =>
        var r1 := ObjectServed(cfg, f, id, w, log, a, between, r);
        BeatsAreMoves(cfg, f, id, Act(cfg, f, w, log, a), Noted(w, log, a), PollAll(st, between), beats[1..], r1);
        StreamsThrough(st, Seen(r), between, Seen(r1), Glances(beats[1..]), Glances(beats), end);
      case Read(seen) =>
        ObjectRead(f, id, w, log, r, seen);
        BeatsAreMoves(cfg, f, id, w, log, Poll(st, Seen(r)), beats[1..], r);
        StreamsLook(st, Seen(r), Glances(beats[1..]), Glances(beats), end);
    }
  }

  /** Whatever the server does meanwhile, the tokens a request has now are out, in order, after as many looks of its
      stream as there are tokens still to send, and three more. */
  lemma ClientKeepsUp(cfg: Config, f: Fleet, id: Id, w: World, log: Log, st: Stream, beats: seq<Beat>, r: Req)
    requires Streaming(f, id, w, log, st) && BeatRun(cfg, f, id, w, log, st, beats)
    requires Holds(w, log, r) && r.id == id && |st.sendings| + Glances(beats) >= |r.generated| + 3
    ensures var sent := BeatEnd(cfg, f, id, w, log, st, beats).2.sendings;
            |r.generated| <= |sent| && forall i :: 0 <= i < |r.generated| ==> sent[i] == Sent(r.generated[i])
  {
    BeatsAreMoves(cfg, f, id, w, log, st, beats, r);
    var ms :| StreamRun(st, Seen(r), ms) && Looks(ms) == Glances(beats)
              && StreamEnd(st, Seen(r), ms).0 == BeatEnd(cfg, f, id, w, log, st, beats).2;
    KeepsUp(st, Seen(r), ms, |r.generated|);
  }

  // ----- every client is served -----

  /** The server does these things while nobody looks. */
  function Quietly(acts: seq<Action>): seq<Beat> {
    if acts == [] then [] else [Serve(acts[0], [])] + Quietly(acts[1..])
  }

  /** Every run of the server is a run of the server beside a stream. */
  lemma {:induction false} RunsAsBeats(cfg: Config, f: Fleet, id: Id, w: World, log: Log, st: Stream, acts: seq<Action>)
    requires Correct(f, w, log) && ServerRun(cfg, f, w, log, acts)
    ensures BeatRun(cfg, f, id, w, log, st, Quietly(acts))
    ensures var end := ServerEnd(cfg, f, w, log, acts); BeatEnd(cfg, f, id, w, log, st, Quietly(acts)) == (end.0, end.1, st)
    decreases |acts|
  {
    if acts != [] {
      PassesDirectly(cfg, f, id, w, log, acts[0]);
      ActCorrect(cfg, f, w, log, acts[0]);
      RunsAsBeats(cfg, f, id, Act(cfg, f, w, log, acts[0]), Noted(w, log, acts[0]), st, acts[1..]);
      Tail(Serve(acts[0], []), Quietly(acts[1..]));
    }
  }

  function Reads(r: Req, n: nat): seq<Beat> { if n == 0 then [] else [Read(r)] + Reads(r, n - 1) }

  lemma ReadFirst(cfg: Config, f: Fleet, id: Id, w: World, log: Log, st: Stream, r: Req, beats: seq<Beat>)
    requires Holds(w, log, r) && r.id == id && CanPoll(st, Seen(r)) && BeatRun(cfg, f, id, w, log, Poll(st, Seen(r)), beats)
    ensures BeatRun(cfg, f, id, w, log, st, [Read(r)] + beats)
    ensures BeatEnd(cfg, f, id, w, log, st, [Read(r)] + beats) == BeatEnd(cfg, f, id, w, log, Poll(st, Seen(r)), beats)
  {
    Tail(Read(r), beats);
  }

  lemma PollsNext(st: Stream, p: Shared, n: nat)
    requires Faithful(st, p) && n > 0
    ensures CanPoll(st, p) && Faithful(Poll(st, p), p) && Polls(st, p, n) == Polls(Poll(st, p), p, n - 1)
  {
    PollFaithful(st, p);
  }

  /** The stream may go on reading, whatever the server does or does not do. */
  lemma {:induction false} ReadsOn(cfg: Config, f: Fleet, id: Id, w: World, log: Log, st: Stream, r: Req, n: nat)
    requires Holds(w, log, r) && r.id == id && Faithful(st, Seen(r))
    ensures BeatRun(cfg, f, id, w, log, st, Reads(r, n))
    ensures BeatEnd(cfg, f, id, w, log, st, Reads(r, n)) == (w, log, Polls(st, Seen(r), n))
    decreases n
  {
    if n > 0 {
      PollsNext(st, Seen(r), n);
      ReadsOn(cfg, f, id, w, log, Poll(st, Seen(r)), r, n - 1);
      ReadFirst(cfg, f, id, w, log, st, r, Reads(r, n - 1));
    }
  }

  lemma {:induction false} BeatsAppend(cfg: Config, f: Fleet, id: Id, w: World, log: Log, st: Stream, a: seq<Beat>,
                                       w1: World, log1: Log, st1: Stream, b: seq<Beat>)
    requires BeatRun(cfg, f, id, w, log, st, a) && BeatEnd(cfg, f, id, w, log, st, a) == (w1, log1, st1)
    requires BeatRun(cfg, f, id, w1, log1, st1, b)
    ensures BeatRun(cfg, f, id, w, log, st, a + b)
    ensures BeatEnd(cfg, f, id, w, log, st, a + b) == BeatEnd(cfg, f, id, w1, log1, st1, b)
    decreases |a|
  {
    if a == [] {
      assert a + b == b;
    } else {
      RunTail(a, b);
      match a[0]
      case Serve(act, between) =>
        BeatsAppend(cfg, f, id, Act(cfg, f, w, log, act), Noted(w, log, act), PollAll(st, between), a[1..], w1, log1, st1, b);
      case Read(r) => BeatsAppend(cfg, f, id, w, log, Poll(st, Seen(r)), a[1..], w1, log1, st1, b);
    }
  }

  lemma SettledHolder(f: Fleet, w: World, log: Log, id: Id) returns (r: Req)
    requires Correct(f, w, log) && Settled(f, w, log, id)
    ensures Holds(w, log, r) && r.id == id && Seen(r).Finished()
  {
    if id in log.aborted {
      assert Gone(f, log.submitted, id, log.aborted[id]);
      r := log.aborted[id];
    } else if id in w.s.completed {
      assert Finisher(f, w.es, log.submitted, id, w.s.completed[id]);
      r := w.s.completed[id];
    } else {
      assert Finisher(f, w.es, log.submitted, id, log.taken[id]);
      r := log.taken[id];
    }
  }

  lemma OpenedStreaming(f: Fleet, id: Id, w: World, log: Log)
    requires Correct(f, w, log) && id in log.submitted
    ensures Streaming(f, id, w, log, Opened())
  {
    forall r | Holds(w, log, r) && r.id == id ensures Faithful(Opened(), Seen(r)) { OpenedFaithful(Seen(r)); }
  }

  /** A stream opened on a submitted request can be read to its end once the server has settled the request, and its
      client has then received all of the request's sequential tokens and "stop", unless it was aborted. */
  lemma StreamReadToEnd(cfg: Config, f: Fleet, id: Id, w: World, log: Log, acts: seq<Action>) returns (beats: seq<Beat>)
    requires Correct(f, w, log) && id in log.submitted && ServerRun(cfg, f, w, log, acts)
    requires var end := ServerEnd(cfg, f, w, log, acts); Correct(f, end.0, end.1) && Settled(f, end.0, end.1, id)
    ensures BeatRun(cfg, f, id, w, log, Opened(), beats)
    ensures var (w', log', st) := BeatEnd(cfg, f, id, w, log, Opened(), beats);
            && (w', log') == ServerEnd(cfg, f, w, log, acts) && st.pc.Ended?
            && Received(Baseline(f, log.submitted[id]), |log.submitted[id].prompt|, id in log'.aborted, st)
  {
    var end := ServerEnd(cfg, f, w, log, acts);
    RunsAsBeats(cfg, f, id, w, log, Opened(), acts);
    var r := SettledHolder(f, end.0, end.1, id);
    OpenedFaithful(Seen(r));
    var n := Left(Opened(), Seen(r));
    ReadsOn(cfg, f, id, end.0, end.1, Opened(), r, n);
    StreamEnds(Opened(), Seen(r), n);
    BeatsAppend(cfg, f, id, w, log, Opened(), Quietly(acts), end.0, end.1, Opened(), Reads(r, n));
    beats := Quietly(acts) + Reads(r, n);
    ClientReceivesBaseline(cfg, f, id, w, log, beats);
  }

  /** From submission to the closing event: with NORMAL requests that fit, after the passes that those in front and the
      request itself need, the stream of any submitted request can be read to its end. */
  lemma EveryClientServed(cfg: Config, f: Fleet, id: Id, w: World, log: Log, turns: seq<Turn>) returns (beats: seq<Beat>)
    requires Correct(f, w, log) && Plain(cfg, w.s) && id in log.submitted && TurnRun(cfg, f, w, log, turns)
    requires PassCount(turns) >= WaitIn(f, w.s, id)
    ensures BeatRun(cfg, f, id, w, log, Opened(), beats)
    ensures var (w', log', st) := BeatEnd(cfg, f, id, w, log, Opened(), beats);
            && (w', log') == TurnEnd(cfg, f, w, log, turns) && st.pc.Ended?
            && Received(Baseline(f, log.submitted[id]), |log.submitted[id].prompt|, id in log'.aborted, st)
  {
    EverybodyServed(cfg, f, w, log, turns, id);
    var acts := TurnsLead(cfg, f, w, log, turns);
    beats := StreamReadToEnd(cfg, f, id, w, log, acts);
  }
}
