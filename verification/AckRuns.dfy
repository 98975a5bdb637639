/**
 Whole runs of the upstream client's stream: what is delivered is what was received, what counts as sent
 went out, no attempt is opened and hardly anything delivered once the loop has been told to stop, and a
 retry starts afresh.
 */
module AckRuns {
  import opened Common
  import opened AckPipeline

  /** The responses received on the current attempt, in order, without those given up on: the receiver
      was blocked, or saw the context done. */
  ghost function Kept(acts: seq<Action>): seq<Response> {
    if acts == [] then [] else KeptAfter(Kept(acts[..|acts| - 1]), acts[|acts| - 1])
  }

  function KeptAfter(kept: seq<Response>, a: Action): seq<Response> {
    match a
    case OpenStream => []
    case RecvMsg(r) => kept + [r]
    case Stall => if kept == [] then [] else kept[..|kept| - 1]
    case RecvSeesDone => if kept == [] then [] else kept[..|kept| - 1]
    case _ => kept
  }

  /** How many requests have gone out without an error on the current attempt. */
  ghost function SendOks(acts: seq<Action>): nat {
    if acts == [] then 0
    else if acts[|acts| - 1].OpenStream? then 0
    else SendOks(acts[..|acts| - 1]) + if acts[|acts| - 1].SendOk? then 1 else 0
  }

  /** The response the receiver has yet to hand on. */
  function InHand(s: State): seq<Response> {
    match s.recv
    case RecvCheck(r) => [r]
    case RecvOffer(r) => [r]
    case _ => []
  }

  lemma KeptStep(s: State, a: Action)
    requires Control(s) && Enabled(s, a)
    ensures var s' := Apply(s, a); KeptAfter(s.log.delivered + InHand(s), a) == s'.log.delivered + InHand(s')
  {
    if a.Stall? || a.RecvSeesDone? {
      assert (s.log.delivered + [s.recv.r])[..|s.log.delivered + [s.recv.r]| - 1] == s.log.delivered;
    }
  }

  lemma SentStep(s: State, a: Action)
    requires Enabled(s, a)
    ensures |Apply(s, a).log.sent| == (if a.OpenStream? then 0 else |s.log.sent| + if a.SendOk? then 1 else 0)
  {}

  /** What the orchestrator was handed on an attempt is what was received on it, response by response and
      in order, but for the one in hand and those given up on; and as many requests count as sent as
      have gone out without an error. */
  lemma {:induction false} DeliveredAsReceived(supported: bool, acts: seq<Action>)
    requires Exec(supported, acts).Some?
    ensures var s := Exec(supported, acts).value;
      Kept(acts) == s.log.delivered + InHand(s) && |s.log.sent| == SendOks(acts)
  {
    hide Enabled, Apply, AckPipeline.Inv, KeptAfter, InHand;
    if acts != [] {
      var init, a := acts[..|acts| - 1], acts[|acts| - 1];
      DeliveredAsReceived(supported, init);
      Controlled(supported, init);
      KeptStep(Exec(supported, init).value, a);
      SentStep(Exec(supported, init).value, a);
    } else {
      NothingYet(supported);
    }
  }

  lemma Controlled(supported: bool, acts: seq<Action>)
    requires Exec(supported, acts).Some?
    ensures Control(Exec(supported, acts).value)
  {
    ReachedInv(supported, acts);
  }

  lemma NothingYet(supported: bool)
    ensures InHand(Init(supported)) == []
  {}

  /** The loop has been told to stop, or cannot start. */
  predicate Stopped(s: State) { s.parentDone || s.shutdown || !s.supported }

  lemma Unroll(supported: bool, before: seq<Action>, after: seq<Action>)
    requires after != [] && Exec(supported, before + after).Some?
    ensures var init, a := after[..|after| - 1], after[|after| - 1];
      && Exec(supported, before + init).Some? && Enabled(Exec(supported, before + init).value, a)
      && Exec(supported, before + after).value == Apply(Exec(supported, before + init).value, a)
  {
    assert (before + after)[..|before + after| - 1] == before + after[..|after| - 1];
  }

  lemma StoppedStays(s: State, a: Action)
    requires Enabled(s, a) && Stopped(s)
    ensures Stopped(Apply(s, a)) && !a.OpenStream?
  {}

  /** Once the caller has cancelled or the client has been shut down, and for an unsupported type from the
      beginning, no attempt is opened any more. */
  lemma {:induction false} NoStreamAfterStop(supported: bool, before: seq<Action>, after: seq<Action>)
    requires Exec(supported, before).Some? && Exec(supported, before + after).Some?
    requires Exec(supported, before).value.parentDone || Exec(supported, before).value.shutdown
             || !Exec(supported, before).value.supported
    ensures forall a :: a in after ==> !a.OpenStream?
    ensures Stopped(Exec(supported, before + after).value)
  {
    if after == [] {
      assert before + after == before;
    } else {
      hide Exec, Enabled, Apply, Stopped;
      var init, a := after[..|after| - 1], after[|after| - 1];
      Unroll(supported, before, after);
      StoppedNow(Exec(supported, before).value);
      NoStreamAfterStop(supported, before, init);
      StoppedStays(Exec(supported, before + init).value, a);
      assert after == init + [a];
    }
  }

  lemma StoppedNow(s: State)
    requires s.parentDone || s.shutdown || !s.supported
    ensures Stopped(s)
  {}

  lemma {:induction false} TellingStops(supported: bool, acts: seq<Action>, a: Action)
    requires Exec(supported, acts).Some? && a in acts && (a == CancelParent || a == ShutDown)
    ensures var s := Exec(supported, acts).value; (a == CancelParent ==> s.parentDone) && (a == ShutDown ==> s.shutdown)
  {
    var init, last := acts[..|acts| - 1], acts[|acts| - 1];
    if a != last {
      assert a in init;
      TellingStops(supported, init, a);
    }
  }

  /** So whatever is received, sent or fails, after a cancellation by the caller or the client's shutdown no
      attempt is opened; and from wherever the loop tries again it can return at once, closing the
      response channel. */
  lemma StopIsFinal(supported: bool, before: seq<Action>, after: seq<Action>)
    requires Exec(supported, before + after).Some? && Exec(supported, before).Some?
    requires CancelParent in before || ShutDown in before || !supported
    ensures forall a :: a in after ==> !a.OpenStream?
    ensures Exec(supported, before + after).value.main.Top? ==>
      exists way, s ::
        && Exec(supported, before + after + [Begin] + [way]) == Some(s) && s.main.Returned?
        && s.respCloses == 1 && s.childDone
  {
    hide Exec;
    if CancelParent in before {
      TellingStops(supported, before, CancelParent);
    } else if ShutDown in before {
      TellingStops(supported, before, ShutDown);
    }
    ReachedEnds(supported, before);
    NoStreamAfterStop(supported, before, after);
    ReturnsAtOnce(supported, before + after);
  }

  lemma ReturnsAtOnce(supported: bool, acts: seq<Action>)
    requires Exec(supported, acts).Some? && Stopped(Exec(supported, acts).value)
    ensures Exec(supported, acts).value.main.Top? ==>
      exists way, s :: Exec(supported, acts + [Begin] + [way]) == Some(s) && s.main.Returned? && s.respCloses == 1 && s.childDone
  {
    hide Exec;
    var s := Exec(supported, acts).value;
    if s.main.Top? {
      Controlled(supported, acts);
      OneMore(supported, acts, Begin);
      var way := if s.shutdown then SeeShutdown else if s.parentDone then SeeCancelled else Unsupported;
      OneMore(supported, acts + [Begin], way);
      assert Exec(supported, acts + [Begin] + [way]) == Some(Apply(Apply(s, Begin), way));
    }
  }

  function Offers(s: State): nat { if s.recv.RecvOffer? then 1 else 0 }

  /** The attempt is over or its context done, and no more than `most` responses have been or are being offered. */
  predicate Dwindles(s: State, most: nat) {
    && |s.log.delivered| + Offers(s) <= most
    && (s.main.Waiting? ==> Done(s)) && (!s.main.Waiting? ==> s.recv.RecvDone?)
  }

  lemma DwindlesStill(s: State, a: Action, most: nat)
    requires Control(s) && Enabled(s, a) && Dwindles(s, most) && !a.OpenStream?
    ensures Dwindles(Apply(s, a), most)
  {}

  /** After the context of an attempt is done nothing more is delivered on it, but for the one response the
      receiver may be offering already. */
  lemma {:induction false} AtMostOneMore(supported: bool, before: seq<Action>, after: seq<Action>)
    requires Exec(supported, before).Some? && Exec(supported, before + after).Some?
    requires var s := Exec(supported, before).value; s.main.Waiting? && (s.childDone || s.parentDone)
    requires forall a :: a in after ==> !a.OpenStream?
    ensures var s, s' := Exec(supported, before).value, Exec(supported, before + after).value;
      && |s'.log.delivered| <= |s.log.delivered| + (if s.recv.RecvOffer? then 1 else 0)
      && Dwindles(s', |s.log.delivered| + Offers(s))
  {
    if after == [] {
      assert before + after == before;
    } else {
      var init, a := after[..|after| - 1], after[|after| - 1];
      Unroll(supported, before, after);
      AtMostOneMore(supported, before, init);
      ReachedInv(supported, before + init);
      var s := Exec(supported, before).value;
      assert a in after;
      DwindlesStill(Exec(supported, before + init).value, a, |s.log.delivered| + Offers(s));
    }
  }

  lemma OneMore(supported: bool, acts: seq<Action>, a: Action)
    requires Exec(supported, acts).Some? && Enabled(Exec(supported, acts).value, a)
    ensures Exec(supported, acts + [a]) == Some(Apply(Exec(supported, acts).value, a))
  {
    assert (acts + [a])[..|acts + [a]| - 1] == acts;
  }

  /** The ways in which an attempt fails. */
  predicate FailsAttempt(a: Action) { a.Timeout? || a.OpenFails? || a.SendFails? || a.RecvFails? || a.Stall? || a.SeeChanClosed? }

  /** How many attempts have come to their end with both goroutines gone. */
  function Joins(acts: seq<Action>): nat {
    if acts == [] then 0 else Joins(acts[..|acts| - 1]) + if acts[|acts| - 1].Join? then 1 else 0
  }

  lemma FailureStep(s: State, a: Action)
    requires Enabled(s, a)
    ensures FailsAttempt(a) ==> Apply(s, a).childDone
    ensures Apply(s, a).past == s.past + if a.Join? then [s.log] else []
  {}

  /** Whatever makes an attempt fail cancels its context, so that the other goroutine leaves as well; and
      every attempt that ends is recorded as it was. */
  lemma {:induction false} FailuresCancel(supported: bool, acts: seq<Action>)
    requires Exec(supported, acts).Some?
    ensures acts != [] && FailsAttempt(acts[|acts| - 1]) ==> Exec(supported, acts).value.childDone
    ensures acts != [] && acts[|acts| - 1].Join? ==>
      var before := Exec(supported, acts[..|acts| - 1]).value; Exec(supported, acts).value.past == before.past + [before.log]
    ensures |Exec(supported, acts).value.past| == Joins(acts)
  {
    hide Enabled, Apply, FailsAttempt;
    if acts != [] {
      FailuresCancel(supported, acts[..|acts| - 1]);
      FailureStep(Exec(supported, acts[..|acts| - 1]).value, acts[|acts| - 1]);
    }
  }

  /** An attempt on which only the empty request has been sent. */
  predicate Greeted(s: State) {
    && s.main.Waiting? && s.send.SendSelect? && s.recv.RecvWait? && s.signal == [] && !s.signalClosed
    && !s.childDone && !s.parentDone && s.log == Log([Version("", "")], [Version("", "")], [])
  }

  lemma Greets(supported: bool, acts: seq<Action>)
    requires Exec(supported, acts).Some?
    requires var s := Exec(supported, acts).value; s.main.Top? && !s.parentDone && !s.shutdown && s.supported
    ensures var s' := Exec(supported, acts + [Begin] + [OpenStream] + [Take] + [SendOk]);
      s'.Some? && Greeted(s'.value) && s'.value.past == Exec(supported, acts).value.past
  {
    hide Exec;
    OneMore(supported, acts, Begin);
    OneMore(supported, acts + [Begin], OpenStream);
    OneMore(supported, acts + [Begin] + [OpenStream], Take);
    OneMore(supported, acts + [Begin] + [OpenStream] + [Take], SendOk);
  }

  lemma Receives(supported: bool, acts: seq<Action>, r: Response)
    requires Exec(supported, acts).Some? && Greeted(Exec(supported, acts).value)
    ensures var s' := Exec(supported, acts + [RecvMsg(r)] + [RecvGoesOn] + [Deliver] + [QueueAck]);
      && s'.Some? && s'.value.past == Exec(supported, acts).value.past
      && s'.value.main.Waiting? && s'.value.send.SendSelect? && !s'.value.childDone
      && s'.value.signal == [Version(r.version, r.nonce)]
      && s'.value.log == Log([Version("", "")], [Version("", "")], [r])
  {
    hide Exec;
    OneMore(supported, acts, RecvMsg(r));
    OneMore(supported, acts + [RecvMsg(r)], RecvGoesOn);
    OneMore(supported, acts + [RecvMsg(r)] + [RecvGoesOn], Deliver);
    OneMore(supported, acts + [RecvMsg(r)] + [RecvGoesOn] + [Deliver], QueueAck);
  }

  /** From every state in which the loop is about to try again, and has not been told to stop, a next attempt
      can send the empty request, deliver a response, and send the request that names its version and its
      nonce: nothing of earlier attempts stands in its way. */
  lemma RetryWorks(supported: bool, acts: seq<Action>, r: Response) returns (more: seq<Action>)
    requires Exec(supported, acts).Some?
    requires var s := Exec(supported, acts).value; s.main.Top? && !s.parentDone && !s.shutdown && s.supported
    ensures Exec(supported, acts + more).Some?
    ensures var s := Exec(supported, acts + more).value;
      && s.log.delivered == [r] && s.log.sent == [Version("", ""), Version(r.version, r.nonce)]
      && s.past == Exec(supported, acts).value.past && s.main.Waiting? && !s.childDone
  {
    hide Exec;
    Greets(supported, acts);
    var greeted := acts + [Begin] + [OpenStream] + [Take] + [SendOk];
    Receives(supported, greeted, r);
    var answered := greeted + [RecvMsg(r)] + [RecvGoesOn] + [Deliver] + [QueueAck];
    OneMore(supported, answered, Take);
    OneMore(supported, answered + [Take], SendOk);
    more := [Begin, OpenStream, Take, SendOk, RecvMsg(r), RecvGoesOn, Deliver, QueueAck, Take, SendOk];
    assert acts + more == answered + [Take] + [SendOk];
  }
}
