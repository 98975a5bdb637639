/**
 The upstream client's stream: a retry loop that opens one attempt after another, and in each attempt
 a sender and a receiver goroutine joined by a channel of capacity 1. The receiver hands a response to
 the orchestrator and then queues its ACK; the sender takes requests from the channel and sends them.

 Every channel operation, every context check and every outcome of a gRPC call is a step of its own.
 Writing to a closed channel and closing a closed channel are modelled as what they are in Go, a
 panic, and shown not to happen. Message contents, dialling and timeouts are up to the environment.
 */
module AckPipeline {
  import opened Common

  datatype Version = Version(version: string, nonce: string)
  datatype Response = Response(version: string, nonce: string, payload: string)

  datatype MainPc = Top | Selecting | Waiting | Returned
  datatype SendPc = SendSelect | SendBusy(v: Version) | SendDone
  datatype RecvPc = RecvWait | RecvCheck(r: Response) | RecvOffer(r: Response) | RecvAck(v: Version) | RecvDone

  /** What one attempt has done so far: requests the sender took, requests that went out without an
      error, responses the orchestrator received. */
  datatype Log = Log(taken: seq<Version>, sent: seq<Version>, delivered: seq<Response>)

  datatype State = State(
    supported: bool,
    main: MainPc, send: SendPc, recv: RecvPc,
    signal: seq<Version>, signalClosed: bool,
    /** the caller's context, the attempt's own context, and the client's shutdown channel */
    parentDone: bool, childDone: bool, shutdown: bool,
    respCloses: nat,
    panicked: bool,
    log: Log,
    past: seq<Log>)

  const EMPTY := Version("", "")

  function Init(supported: bool): State {
    State(supported, Top, SendDone, RecvDone, [], true, false, true, false, 0, false, Log([], [], []), [])
  }

  /** The attempt's context derives from the caller's. */
  predicate Done(s: State) { s.childDone || s.parentDone }

  function Ack(r: Response): Version { Version(r.version, r.nonce) }

  function Acks(rs: seq<Response>): (vs: seq<Version>)
    ensures |vs| == |rs| && forall i :: 0 <= i < |rs| ==> vs[i] == Ack(rs[i])
  {
    seq(|rs|, i requires 0 <= i < |rs| => Ack(rs[i]))
  }

  /** The ACK the receiver has yet to queue. */
  function PendingAck(s: State): seq<Version> {
    if s.recv.RecvAck? then [s.recv.v] else []
  }

  datatype Action =
    // the environment
    | CancelParent
    | Timeout
    | ShutDown
    // handleStreamsWithRetry
    | Begin
    | SeeShutdown
    | SeeCancelled
    | Unsupported
    | OpenFails
    | OpenStream
    | Join
    // send
    | Take
    | SeeChanClosed
    | SendSeesDone
    | SendOk
    | SendFails
    // recv
    | RecvMsg(r: Response)
    | RecvFails
    | RecvSeesDone
    | RecvGoesOn
    | Deliver
    | Stall
    | QueueAck

  predicate Enabled(s: State, a: Action) {
    match a
    case CancelParent => true
    case Timeout => s.main.Waiting? || s.main.Selecting?
    case ShutDown => true
    case Begin => s.main.Top?
    case SeeShutdown => s.main.Selecting? && s.shutdown
    case SeeCancelled => s.main.Selecting? && s.parentDone
    case Unsupported => s.main.Selecting? && !s.shutdown && !s.parentDone && !s.supported
    case OpenFails => s.main.Selecting? && !s.shutdown && !s.parentDone && s.supported
    case OpenStream => s.main.Selecting? && !s.shutdown && !s.parentDone && s.supported
    case Join => s.main.Waiting? && s.send.SendDone? && s.recv.RecvDone?
    case Take => s.send.SendSelect? && s.signal != []
    case SeeChanClosed => s.send.SendSelect? && s.signal == [] && s.signalClosed
    case SendSeesDone => s.send.SendSelect? && Done(s)
    case SendOk => s.send.SendBusy?
    case SendFails => s.send.SendBusy?
    case RecvMsg(_) => s.recv.RecvWait?
    case RecvFails => s.recv.RecvWait?
    case RecvSeesDone => s.recv.RecvCheck? && Done(s)
    case RecvGoesOn => s.recv.RecvCheck? && !Done(s)
    case Deliver => s.recv.RecvOffer?
    case Stall => s.recv.RecvOffer?
    case QueueAck => s.recv.RecvAck? && (s.signal == [] || s.signalClosed)
  }

  function Apply(s: State, a: Action): State
    requires Enabled(s, a)
  {
    match a
    case CancelParent => s.(parentDone := true)
    case Timeout => s.(childDone := true)
    case ShutDown => s.(shutdown := true)
    case Begin => s.(main := Selecting, childDone := false)
    case SeeShutdown => Return(s)
    case SeeCancelled => Return(s)
    case Unsupported => Return(s)
    case OpenFails => s.(main := Top, childDone := true)
    case OpenStream =>
      s.(main := Waiting, send := SendSelect, recv := RecvWait, signal := [EMPTY], signalClosed := false,
         log := Log([], [], []))
    case Join => s.(main := Top, signalClosed := true, past := s.past + [s.log])
    case Take =>
      s.(send := SendBusy(s.signal[0]), signal := s.signal[1..], log := s.log.(taken := s.log.taken + [s.signal[0]]))
    case SeeChanClosed => s.(send := SendDone, childDone := true)
    case SendSeesDone => s.(send := SendDone)
    case SendOk => s.(send := SendSelect, log := s.log.(sent := s.log.sent + [s.send.v]))
    case SendFails => s.(send := SendDone, childDone := true)
    case RecvMsg(r) => s.(recv := RecvCheck(r))
    case RecvFails => s.(recv := RecvDone, childDone := true)
    case RecvSeesDone => s.(recv := RecvDone)
    case RecvGoesOn => s.(recv := RecvOffer(s.recv.r))
    case Deliver =>
      s.(recv := RecvAck(Ack(s.recv.r)), log := s.log.(delivered := s.log.delivered + [s.recv.r]),
         panicked := s.panicked || s.respCloses > 0)
    case Stall => s.(recv := RecvWait, childDone := true)
    case QueueAck => s.(recv := RecvWait, signal := s.signal + [s.recv.v], panicked := s.panicked || s.signalClosed)
  }

  /** Cancel the attempt, close the response channel, return. */
  function Return(s: State): State {
    s.(main := Returned, childDone := true, respCloses := s.respCloses + 1)
  }

  ghost function Exec(supported: bool, acts: seq<Action>): Option<State> {
    if acts == [] then Some(Init(supported))
    else
      var prev := Exec(supported, acts[..|acts| - 1]);
      if prev.Some? && Enabled(prev.value, acts[|acts| - 1]) then Some(Apply(prev.value, acts[|acts| - 1])) else None
  }

  // ------------------------------------------------------------- invariants

  /** Nothing is lost, repeated or reordered between a response's delivery and its ACK. */
  ghost predicate Conserved(s: State) {
    s.log.taken + s.signal + PendingAck(s) == [EMPTY] + Acks(s.log.delivered)
  }

  /** All but the request in hand, or the one that failed, went out, in order. */
  ghost predicate SentInOrder(l: Log) {
    l.sent <= l.taken && |l.taken| <= |l.sent| + 1
  }

  /** A finished attempt answered a prefix of its responses; at most two ACKs went unsent. */
  ghost predicate Finished(l: Log) {
    && l.taken <= [EMPTY] + Acks(l.delivered)
    && |l.delivered| <= |l.taken| + 1
    && SentInOrder(l)
  }

  /** Who is where: the goroutines live in an attempt only, the channel is open as long as they do, and
      whoever leaves has seen to it that the context is done. */
  ghost predicate Control(s: State) {
    && !s.panicked
    && s.respCloses == (if s.main.Returned? then 1 else 0)
    && (!s.main.Waiting? ==> s.send.SendDone? && s.recv.RecvDone?)
    && (s.main.Waiting? ==> !s.signalClosed)
    && (s.main.Waiting? && (s.send.SendDone? || s.recv.RecvDone?) ==> Done(s))
    && (s.main.Top? || s.main.Returned? ==> Done(s))
  }

  ghost predicate Order(s: State) {
    && (s.main.Waiting? ==> |s.signal| <= 1 && Conserved(s) && SentInOrder(s.log))
    && (s.send.SendBusy? ==> s.log.taken == s.log.sent + [s.send.v])
    && (s.send.SendSelect? ==> s.log.taken == s.log.sent)
  }

  ghost predicate Past(s: State) {
    forall l :: l in s.past ==> Finished(l)
  }

  ghost predicate Inv(s: State) {
    Control(s) && Order(s) && Past(s)
  }

  lemma AcksAppend(rs: seq<Response>, r: Response)
    ensures Acks(rs + [r]) == Acks(rs) + [Ack(r)]
  {}

  lemma DeliverOrder(s: State)
    requires Control(s) && Order(s) && Enabled(s, Deliver)
    ensures Order(Apply(s, Deliver))
  {
    var taken, signal := s.log.taken, s.signal;
    AcksAppend(s.log.delivered, s.recv.r);
    assert taken + signal + [] == taken + signal;
    assert [EMPTY] + (Acks(s.log.delivered) + [Ack(s.recv.r)]) == ([EMPTY] + Acks(s.log.delivered)) + [Ack(s.recv.r)];
  }

  lemma QueueAckOrder(s: State)
    requires Control(s) && Order(s) && Enabled(s, QueueAck)
    ensures Order(Apply(s, QueueAck))
  {
    assert (s.log.taken + s.signal) + [s.recv.v] == s.log.taken + (s.signal + [s.recv.v]) + [];
  }

  lemma TakeOrder(s: State)
    requires Control(s) && Order(s) && Enabled(s, Take)
    ensures Order(Apply(s, Take))
  {
    assert s.log.taken + s.signal == (s.log.taken + [s.signal[0]]) + s.signal[1..];
  }

  /** The other steps touch neither the channel nor what waits to enter it, or start afresh. */
  lemma OtherOrder(s: State, a: Action)
    requires Control(s) && Order(s) && Enabled(s, a) && !a.Deliver? && !a.QueueAck? && !a.Take?
    ensures Order(Apply(s, a))
  {
    if a.OpenStream? {
      assert [] + [EMPTY] + [] == [EMPTY] + Acks([]);
    }
  }

  lemma ControlKept(s: State, a: Action)
    requires Control(s) && Enabled(s, a)
    ensures Control(Apply(s, a))
  {}

  lemma OrderKept(s: State, a: Action)
    requires Control(s) && Order(s) && Enabled(s, a)
    ensures Order(Apply(s, a))
  {
    hide Control, Order;
    match a
    case Deliver => DeliverOrder(s);
    case QueueAck => QueueAckOrder(s);
    case Take => TakeOrder(s);
    case _ => OtherOrder(s, a);
  }

  lemma PastKept(s: State, a: Action)
    requires Past(s) && Enabled(s, a) && (a.Join? ==> Finished(s.log))
    ensures Past(Apply(s, a))
  {
    hide Finished;
  }

  lemma StepKept(s: State, a: Action)
    requires Inv(s) && Enabled(s, a)
    ensures Inv(Apply(s, a))
  {
    hide Control, Order, Past;
    ControlKept(s, a);
    OrderKept(s, a);
    if a.Join? {
      FinishedAtJoin(s);
    }
    PastKept(s, a);
  }

  lemma FinishedAtJoin(s: State)
    requires Inv(s) && Enabled(s, Join)
    ensures Finished(s.log)
  {
    assert s.log.taken + s.signal + [] == s.log.taken + s.signal;
    assert |s.log.taken + s.signal| == 1 + |s.log.delivered|;
  }

  lemma {:induction false} ReachedInv(supported: bool, acts: seq<Action>)
    requires Exec(supported, acts).Some?
    ensures Inv(Exec(supported, acts).value)
  {
    if acts != [] {
      ReachedInv(supported, acts[..|acts| - 1]);
      StepKept(Exec(supported, acts[..|acts| - 1]).value, acts[|acts| - 1]);
    }
  }

  // ------------------------------------------------------------ what holds

  /** The first of `qs` names no version and no nonce; every later one names version and nonce of the
      response before it. */
  predicate Answers(qs: seq<Version>, rs: seq<Response>) {
    && |qs| <= |rs| + 1
    && (qs != [] ==> qs[0].version == "" && qs[0].nonce == "")
    && (forall i :: 0 < i < |qs| ==> qs[i].version == rs[i - 1].version && qs[i].nonce == rs[i - 1].nonce)
  }

  lemma AcksAnswer(qs: seq<Version>, rs: seq<Response>)
    requires qs <= [EMPTY] + Acks(rs)
    ensures Answers(qs, rs)
  {
    forall i | 0 < i < |qs| ensures qs[i] == Acks(rs)[i - 1] {
      assert qs[i] == ([EMPTY] + Acks(rs))[i];
    }
    assert qs != [] ==> qs[0] == ([EMPTY] + Acks(rs))[0];
  }

  /** On every attempt, requests taken, then the channel, then the pending ACK, are the empty request
      followed by the ACKs of all delivered responses in order, each with the version and the nonce of its
      response; what was sent is a prefix of that; and at most one response more was delivered than
      requests were taken. */
  lemma AckConservation(supported: bool, acts: seq<Action>)
    requires Exec(supported, acts).Some? && Exec(supported, acts).value.main.Waiting?
    ensures var s := Exec(supported, acts).value;
            && Answers(s.log.taken + s.signal + PendingAck(s), s.log.delivered)
            && |s.log.taken + s.signal + PendingAck(s)| == |s.log.delivered| + 1
            && s.log.sent <= s.log.taken && Answers(s.log.taken, s.log.delivered)
            && |s.log.delivered| <= |s.log.taken| + 1
  {
    ReachedInv(supported, acts);
    var s := Exec(supported, acts).value;
    assert |s.log.taken + s.signal + PendingAck(s)| == 1 + |s.log.delivered|;
    assert s.log.taken <= s.log.taken + s.signal + PendingAck(s);
    AcksAnswer(s.log.taken + s.signal + PendingAck(s), s.log.delivered);
    AcksAnswer(s.log.taken, s.log.delivered);
  }

  /** The same of every attempt that is over. */
  lemma PastAttempts(supported: bool, acts: seq<Action>, i: nat)
    requires Exec(supported, acts).Some? && i < |Exec(supported, acts).value.past|
    ensures var l := Exec(supported, acts).value.past[i];
            && l.sent <= l.taken && Answers(l.taken, l.delivered)
            && |l.delivered| <= |l.taken| + 1 <= |l.sent| + 2
  {
    ReachedInv(supported, acts);
    var l := Exec(supported, acts).value.past[i];
    assert Finished(l);
    assert |l.taken| <= |[EMPTY] + Acks(l.delivered)|;
    AcksAnswer(l.taken, l.delivered);
  }

  /** Nothing is written to a closed channel; the response channel is closed when the loop returns and
      at no other time, once; the sender never finds the channel closed; and no attempt begins before
      the context of the one before it is done. */
  lemma CloseDiscipline(supported: bool, acts: seq<Action>)
    requires Exec(supported, acts).Some?
    ensures var s := Exec(supported, acts).value;
            && !s.panicked
            && s.respCloses == (if s.main.Returned? then 1 else 0)
            && !Enabled(s, SeeChanClosed)
            && (Enabled(s, Begin) ==> Done(s))
            && (Enabled(s, Join) ==> Done(s))
  {
    ReachedInv(supported, acts);
  }

  /** Why the loop may have given up. */
  predicate Ended(s: State) { s.parentDone || s.shutdown || !s.supported }

  lemma StepEnds(s: State, a: Action)
    requires Enabled(s, a) && (s.main.Returned? ==> Ended(s))
    ensures var s' := Apply(s, a); (s'.main.Returned? ==> Ended(s')) && s'.supported == s.supported
  {
    match a
    case SeeShutdown =>
    case SeeCancelled =>
    case Unsupported =>
    case _ =>
  }

  lemma {:induction false} ReachedEnds(supported: bool, acts: seq<Action>)
    requires Exec(supported, acts).Some?
    ensures var s := Exec(supported, acts).value; (s.main.Returned? ==> Ended(s)) && s.supported == supported
  {
    hide Enabled, Apply, Ended;
    if acts != [] {
      ReachedEnds(supported, acts[..|acts| - 1]);
      StepEnds(Exec(supported, acts[..|acts| - 1]).value, acts[|acts| - 1]);
    }
  }

  /** The loop gives up, and closes the response channel, only when the caller has cancelled it, the
      client has been shut down, or the type URL is not supported: no failure of a stream ends it. */
  lemma ReturnsOnlyIf(supported: bool, acts: seq<Action>)
    requires Exec(supported, acts).Some? && Exec(supported, acts).value.respCloses > 0
    ensures Exec(supported, acts).value.parentDone || Exec(supported, acts).value.shutdown || !supported
  {
    hide Exec;
    ReachedInv(supported, acts);
    ReachedEnds(supported, acts);
  }

  /** After the response channel is closed nothing is delivered, and nothing is sent upstream. */
  lemma {:induction false} SilentAfterReturn(supported: bool, before: seq<Action>, after: seq<Action>)
    requires Exec(supported, before).Some? && Exec(supported, before).value.main.Returned?
    requires Exec(supported, before + after).Some?
    ensures var s, s' := Exec(supported, before).value, Exec(supported, before + after).value;
            s'.main.Returned? && s'.log == s.log && s'.past == s.past
  {
    if after == [] {
      assert before + after == before;
    } else {
      var init := after[..|after| - 1];
      assert (before + after)[..|before + after| - 1] == before + init;
      SilentAfterReturn(supported, before, init);
      ReachedInv(supported, before + init);
    }
  }
}
