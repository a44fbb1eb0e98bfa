/** The token stream of one request: a consumer that polls while another thread appends tokens and finishes. */
module TokenStream {
  import opened Types

  /** What the consumer can see of the request at one moment. */
  datatype Shared = Shared(tokens: seq<Token>, status: Status, promptLen: nat) {
    predicate Finished() { status.Complete? || status.Failed? }
  }

  /** The producer between two looks: any number of appends, then perhaps a final status, after which no more
      tokens. A complete request may still be marked FAILED, as an abort does. */
  predicate Later(p: Shared, p': Shared) {
    && p.tokens <= p'.tokens && p'.promptLen == p.promptLen
    && (p.Finished() ==> p'.Finished() && p'.tokens == p.tokens && (p.status.Failed? ==> p'.status.Failed?))
  }

  lemma LaterTransitive(p: Shared, q: Shared, r: Shared)
    requires Later(p, q) && Later(q, r)
    ensures Later(p, r)
  {
  }

  datatype Sending = Sent(token: Token) | Final(reason: string, promptTokens: nat, completionTokens: nat, totalTokens: nat)

  /** Where the consumer stands between two shared reads. */
  datatype Pc =
    | Check
    | Look
    | Emit(i: nat, upto: nat)
    | Drain
    | DrainEmit(j: nat, limit: nat)
    | Close
    | Ended

  datatype Stream = Stream(pc: Pc, last: nat, sendings: seq<Sending>)

  function Opened(): Stream { Stream(Check, 0, []) }

  /** The indices it is about to read exist. */
  predicate CanPoll(st: Stream, p: Shared) {
    match st.pc
    case Emit(i, upto) => i < upto ==> i < |p.tokens|
    case DrainEmit(j, limit) => j < limit ==> j < |p.tokens|
    case _ => true
  }

  /** One step of the consumer: at most one look at the request. */
  function Poll(st: Stream, p: Shared): Stream
    requires CanPoll(st, p)
  {
    match st.pc
    case Check => st.(pc := if p.Finished() then Drain else Look)
    case Look => st.(pc := if |p.tokens| > st.last then Emit(st.last, |p.tokens|) else Check)
    case Emit(i, upto) =>
      if i < upto then st.(pc := Emit(i + 1, upto), sendings := st.sendings + [Sent(p.tokens[i])])
      else st.(pc := Check, last := upto)
    case Drain => st.(pc := if |p.tokens| > st.last then DrainEmit(st.last, |p.tokens|) else Close)
    case DrainEmit(j, limit) =>
      if j < limit then st.(pc := DrainEmit(j + 1, limit), sendings := st.sendings + [Sent(p.tokens[j])])
      else st.(pc := Close)
    case Close => st.(pc := Ended, sendings := st.sendings + [Closing(p)])
    case Ended => st
  }

  function Closing(p: Shared): Sending {
    Final(if p.status.Complete? then "stop" else "error", p.promptLen, |p.tokens|, p.promptLen + |p.tokens|)
  }

  function Sents(tokens: seq<Token>): (s: seq<Sending>)
    ensures |s| == |tokens| && forall i :: 0 <= i < |s| ==> s[i] == Sent(tokens[i])
  {
    seq(|tokens|, i requires 0 <= i < |tokens| => Sent(tokens[i]))
  }

  lemma SentsAppend(tokens: seq<Token>, i: nat)
    requires i < |tokens|
    ensures Sents(tokens[..i]) + [Sent(tokens[i])] == Sents(tokens[..i + 1])
  {
  }

  /** How many tokens have gone out. */
  function Out(st: Stream, p: Shared): nat {
    match st.pc
    case Emit(i, _) => i
    case DrainEmit(j, _) => j
    case Close => |p.tokens|
    case Ended => |p.tokens|
    case _ => st.last
  }

  /** All tokens and one closing event, which tells the status at the moment c of closing. */
  predicate Closes(st: Stream, c: Shared, p: Shared) {
    c.Finished() && Later(c, p) && st.sendings == Sents(p.tokens) + [Closing(c)]
  }

  /** Everything sent so far is a prefix of the request's tokens, in order and once each; the closing event comes
      after all of them and exactly once. */
  ghost predicate Faithful(st: Stream, p: Shared) {
    && Out(st, p) <= |p.tokens|
    && (if st.pc.Ended? then exists c :: Closes(st, c, p) else st.sendings == Sents(p.tokens[..Out(st, p)]))
    && (st.pc.Emit? ==> st.pc.i <= st.pc.upto <= |p.tokens|)
    && (st.pc.DrainEmit? ==> st.pc.j <= st.pc.limit == |p.tokens|)
    && (st.pc.Drain? || st.pc.DrainEmit? || st.pc.Close? || st.pc.Ended? ==> p.Finished())
  }

  lemma OpenedFaithful(p: Shared)
    ensures Faithful(Opened(), p)
  {
    assert p.tokens[..0] == [];
  }

  lemma LaterFaithful(st: Stream, p: Shared, p': Shared)
    requires Faithful(st, p) && Later(p, p')
    ensures Faithful(st, p')
  {
    if st.pc.Ended? {
      var c :| Closes(st, c, p);
      LaterTransitive(c, p, p');
      assert Closes(st, c, p');
    } else {
      assert p.tokens[..Out(st, p)] == p'.tokens[..Out(st, p)];
    }
  }

  lemma PollFaithful(st: Stream, p: Shared)
    requires Faithful(st, p)
    ensures CanPoll(st, p) && Faithful(Poll(st, p), p)
  {
    match st.pc
    case Emit(i, upto) => if i < upto { SentsAppend(p.tokens, i); }
    case DrainEmit(j, limit) => if j < limit { SentsAppend(p.tokens, j); }
    case Close =>
      assert p.tokens[..|p.tokens|] == p.tokens;
      assert Closes(Poll(st, p), p, p);
    case _ => assert p.tokens[..|p.tokens|] == p.tokens;
  }

  /** How many of its own steps the consumer needs at most once the request is finished. */
  ghost function Left(st: Stream, p: Shared): nat
    requires Faithful(st, p)
  {
    var n := |p.tokens|;
    match st.pc
    case Check => n - st.last + 4
    case Look => 2 * (n - st.last) + 6
    case Emit(i, upto) => (upto - i) + (n - upto) + 5
    case Drain => n - st.last + 3
    case DrainEmit(j, limit) => limit - j + 2
    case Close => 1
    case Ended => 0
  }

  lemma PollProgress(st: Stream, p: Shared)
    requires Faithful(st, p) && p.Finished() && !st.pc.Ended?
    ensures Faithful(Poll(st, p), p) && Left(Poll(st, p), p) < Left(st, p)
  {
    PollFaithful(st, p);
  }

  ghost function Polls(st: Stream, p: Shared, n: nat): Stream
    requires Faithful(st, p)
    decreases n
  {
    PollFaithful(st, p);
    if n == 0 then st else Polls(Poll(st, p), p, n - 1)
  }

  lemma {:induction false} StreamEnds(st: Stream, p: Shared, n: nat)
    requires Faithful(st, p) && (p.status == Complete || p.status == Failed) && n >= Left(st, p)
    ensures Polls(st, p, n).pc.Ended?
    decreases n
  {
    PollFaithful(st, p);
    if st.pc.Ended? {
      if n > 0 { StreamEnds(Poll(st, p), p, n - 1); }
    } else {
      PollProgress(st, p);
      StreamEnds(Poll(st, p), p, n - 1);
    }
  }

  // ----- whole streams -----

  /** The interleaving of a producer and the consumer. */
  datatype Move = Produce(next: Shared) | Consume

  ghost predicate StreamRun(st: Stream, p: Shared, ms: seq<Move>)
    decreases |ms|
  {
    || ms == []
    || (match ms[0]
        case Produce(p') => Later(p, p') && StreamRun(st, p', ms[1..])
        case Consume => CanPoll(st, p) && StreamRun(Poll(st, p), p, ms[1..]))
  }

  ghost function StreamEnd(st: Stream, p: Shared, ms: seq<Move>): (Stream, Shared)
    requires StreamRun(st, p, ms)
    decreases |ms|
  {
    if ms == [] then (st, p)
    else match ms[0]
      case Produce(p') => StreamEnd(st, p', ms[1..])
      case Consume => StreamEnd(Poll(st, p), p, ms[1..])
  }

  lemma {:induction false} RunFaithful(st: Stream, p: Shared, ms: seq<Move>)
    requires Faithful(st, p) && StreamRun(st, p, ms)
    ensures Faithful(StreamEnd(st, p, ms).0, StreamEnd(st, p, ms).1)
    decreases |ms|
  {
    if ms != [] {
      match ms[0]
      case Produce(p') => LaterFaithful(st, p, p'); RunFaithful(st, p', ms[1..]);
      case Consume => PollFaithful(st, p); RunFaithful(Poll(st, p), p, ms[1..]);
    }
  }

  /** Unless a complete request was failed afterwards, the closing event tells the request as it ended. */
  lemma ClosesAsEnded(st: Stream, c: Shared, end: Shared)
    requires Closes(st, c, end) && (end.status.Complete? || c.status.Failed?)
    ensures st.sendings == Sents(end.tokens) + [Closing(end)]
  {
  }

  /** However a producer and the stream interleave: what went out is a prefix of the request's tokens; when the
      stream has ended, every token went out once, in order, and one closing event, "stop" just in case the request
      was complete when the stream closed. If the request ends complete, the event tells so. */
  lemma StreamsEveryToken(p: Shared, ms: seq<Move>)
    requires StreamRun(Opened(), p, ms)
    ensures var (st, end) := StreamEnd(Opened(), p, ms);
            if st.pc.Ended? then
              && end.Finished() && (exists c :: Closes(st, c, end))
              && (end.status.Complete? ==> st.sendings == Sents(end.tokens) + [Closing(end)])
            else exists k :: 0 <= k <= |end.tokens| && st.sendings == Sents(end.tokens[..k])
  {
    OpenedFaithful(p);
    RunFaithful(Opened(), p, ms);
    var (st, end) := StreamEnd(Opened(), p, ms);
    if st.pc.Ended? {
      var c :| Closes(st, c, end);
      if end.status.Complete? { ClosesAsEnded(st, c, end); }
    } else {
      assert st.sendings == Sents(end.tokens[..Out(st, end)]);
    }
  }

  // ----- tokens go out while the request runs -----

  function Looks(ms: seq<Move>): nat { if ms == [] then 0 else (if ms[0].Consume? then 1 else 0) + Looks(ms[1..]) }

  /** How many of its own steps the consumer needs at most until n tokens are out. */
  function Behind(st: Stream, n: nat): int {
    match st.pc
    case Check => n - st.last + 2
    case Look => n - st.last + 1
    case Emit(i, upto) => if upto < n then n - i + 3 else n - i
    case Drain => n - st.last + 1
    case DrainEmit(j, _) => n - j
    case Close => 0
    case Ended => 0
  }

  lemma StepNearer(st: Stream, p: Shared, n: nat)
    requires Faithful(st, p) && Out(st, p) < n <= |p.tokens|
    ensures Faithful(Poll(st, p), p) && (Out(Poll(st, p), p) >= n || Behind(Poll(st, p), n) < Behind(st, n))
  {
    PollFaithful(st, p);
  }

  lemma {:induction false} GetsOut(st: Stream, p: Shared, ms: seq<Move>, n: nat)
    requires Faithful(st, p) && StreamRun(st, p, ms) && n <= |p.tokens|
    requires Out(st, p) >= n || Looks(ms) >= Behind(st, n)
    ensures var (st', p') := StreamEnd(st, p, ms); Faithful(st', p') && p.tokens <= p'.tokens && Out(st', p') >= n
    decreases |ms|
  {
    if ms != [] {
      match ms[0]
      case Produce(p') =>
        LaterFaithful(st, p, p');
        GetsOut(st, p', ms[1..], n);
      case Consume =>
        PollFaithful(st, p);
        if Out(st, p) < n { StepNearer(st, p, n); }
        GetsOut(Poll(st, p), p, ms[1..], n);
    }
  }

  /** A stream keeps up: whatever the producer does meanwhile, the first n of the tokens that are there now are out
      after as many of the stream's own steps as are missing of them, and three more. */
  lemma KeepsUp(st: Stream, p: Shared, ms: seq<Move>, n: nat)
    requires Faithful(st, p) && StreamRun(st, p, ms) && n <= |p.tokens| && |st.sendings| + Looks(ms) >= n + 3
    ensures var sent := StreamEnd(st, p, ms).0.sendings; n <= |sent| && forall i :: 0 <= i < n ==> sent[i] == Sent(p.tokens[i])
  {
    if st.pc.Ended? { assert Out(st, p) >= n; } else { assert |st.sendings| == Out(st, p); }
    GetsOut(st, p, ms, n);
  }
}
