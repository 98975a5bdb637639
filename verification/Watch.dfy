/**
 The one-slot channel between the relay and one downstream client. `Send` runs under a read lock, so
 several sends may overlap; `Close` runs under the write lock, so it overlaps with none.
 */
module Slots {
  import opened Common

  /** A capacity-1 channel with counts of what has happened to it. Closing keeps a buffered value. */
  datatype Slot<X> = Slot(held: Option<X>, closes: nat, writes: nat, drains: nat, taken: nat) {
    predicate Closed() { closes > 0 }

    /** First `select` of `Send`: drop the older response, if any. */
    function Drain(): Slot<X> {
      if held.Some? then this.(held := None, drains := drains + 1) else this
    }

    predicate Blocked() { held.Some? }

    /** Second `select` of `Send`: write if there is room; otherwise `Send` returns an error. */
    function Write(x: X): Slot<X> {
      if Blocked() then this else this.(held := Some(x), writes := writes + 1)
    }

    function Read(): Slot<X>
      requires held.Some?
    {
      this.(held := None, taken := taken + 1)
    }

    function Close(): Slot<X> { this.(closes := closes + 1) }

    /** A `Send` that no other `Send` overlaps. */
    function Send(x: X): Slot<X> {
      if Closed() then this else Drain().Write(x)
    }
  }

  function Open<X>(): Slot<X> { Slot(None, 0, 0, 0, 0) }

  predicate Conserved<X>(w: Slot<X>) {
    w.writes == w.taken + w.drains + if w.held.Some? then 1 else 0
  }

  // ------------------------------------------------------ overlapping sends

  /** A `Send` past its closed check. `seen` is the number of writes there had been at its drain. */
  datatype Pending<X> = Entered(x: X) | Drained(x: X, seen: nat)

  /** `errors` holds, for each `Send` that returned an error, the writes seen at its drain and at its end. */
  datatype Run<X> = Run(slot: Slot<X>, sends: map<nat, Pending<X>>, errors: seq<(nat, nat)>)

  datatype Action<X> = Enter(t: nat, x: X) | DoDrain(t: nat) | DoWrite(t: nat) | Receive | Shut

  predicate Enabled<X>(s: Run<X>, a: Action<X>) {
    match a
    case Enter(t, _) => t !in s.sends && !s.slot.Closed()
    case DoDrain(t) => t in s.sends && s.sends[t].Entered?
    case DoWrite(t) => t in s.sends && s.sends[t].Drained?
    case Receive => s.slot.held.Some?
    case Shut => s.sends == map[] && !s.slot.Closed()
  }

  function Apply<X>(s: Run<X>, a: Action<X>): Run<X>
    requires Enabled(s, a)
  {
    match a
    case Enter(t, x) => s.(sends := s.sends[t := Entered(x)])
    case DoDrain(t) => s.(slot := s.slot.Drain(), sends := s.sends[t := Drained(s.sends[t].x, s.slot.writes)])
    case DoWrite(t) =>
      Run(s.slot.Write(s.sends[t].x), s.sends - {t},
          if s.slot.Blocked() then s.errors + [(s.sends[t].seen, s.slot.writes)] else s.errors)
    case Receive => s.(slot := s.slot.Read())
    case Shut => s.(slot := s.slot.Close())
  }

  ghost function Exec<X>(acts: seq<Action<X>>): Option<Run<X>> {
    if acts == [] then Some(Run(Open(), map[], []))
    else
      var prev := Exec(acts[..|acts| - 1]);
      if prev.Some? && Enabled(prev.value, acts[|acts| - 1]) then Some(Apply(prev.value, acts[|acts| - 1])) else None
  }

  ghost predicate Inv<X>(s: Run<X>) {
    && Conserved(s.slot)
    && (s.slot.Closed() ==> s.sends == map[] && s.slot.closes == 1)
    && (forall t :: t in s.sends && s.sends[t].Drained? ==>
          s.sends[t].seen <= s.slot.writes && (s.slot.held.Some? ==> s.sends[t].seen < s.slot.writes))
    && (forall e :: e in s.errors ==> e.0 < e.1)
  }

  /** However sends, receives and the close interleave: every successful write is accounted for by a
      receive, a drain or the slot; a send errs only if another send wrote after its drain; nothing
      is written to a closed channel, which is closed at most once. */
  lemma {:induction false} SlotConservation<X>(acts: seq<Action<X>>)
    requires Exec(acts).Some?
    ensures Inv(Exec(acts).value)
  {
    if acts != [] {
      SlotConservation(acts[..|acts| - 1]);
    }
  }

  // --------------------------------------------------- sends that do not overlap

  datatype Serial<X> = SendOne(x: X) | ReadOne

  /** The slot, the last value sent and the last value received. */
  ghost function ExecSerial<X>(w: Slot<X>, ops: seq<Serial<X>>): (Slot<X>, Option<X>, Option<X>) {
    if ops == [] then (w, None, None)
    else
      var (v, sent, got) := ExecSerial(w, ops[..|ops| - 1]);
      match ops[|ops| - 1]
      case SendOne(x) => (v.Send(x), Some(x), got)
      case ReadOne => if v.held.Some? then (v.Read(), sent, v.held) else (v, sent, got)
  }

  /** Sends that do not overlap never find the slot full, and the value sent last is in the slot or
      was the value received last. */
  lemma {:induction false} LastSentWins<X>(w: Slot<X>, ops: seq<Serial<X>>)
    requires !w.Closed() && Conserved(w)
    ensures var (v, sent, got) := ExecSerial(w, ops);
            && !v.Closed() && Conserved(v) && !v.Drain().Blocked()
            && (sent.Some? ==> v.held == sent || (v.held.None? && got == sent))
            && (forall x :: v.Send(x).held == Some(x) && v.Send(x).writes == v.writes + 1)
  {
    if ops != [] {
      LastSentWins(w, ops[..|ops| - 1]);
    }
  }

  /** Closing keeps what is in the slot, which can still be received, once; and after the close no send
      changes anything. */
  lemma {:induction false} ClosedKeepsValue<X>(w: Slot<X>, ops: seq<Serial<X>>)
    ensures w.Close().Closed() && w.Close().held == w.held && w.Close().writes == w.writes
    ensures var (v, _, got) := ExecSerial(w.Close(), ops);
      && v.Closed() && v.writes == w.writes && v.drains == w.drains
      && (if v.held.Some? then v.held == w.held && got.None? else got == w.held)
  {
    if ops != [] {
      ClosedKeepsValue(w, ops[..|ops| - 1]);
    }
  }

  // --------------------------------------------------------------- the object

  /** `watchV2` and `watchV3`, which differ in the message type only. */
  class Watch<X> {
    var out: Option<X>
    var closed: bool

    constructor ()
      ensures out.None? && !closed
    {
      out, closed := None, false;
    }

    /** Closing a channel twice panics, so the caller must close once. */
    method Close()
      requires !closed
      modifies this
      ensures closed && out == old(out)
    {
      closed := true;
    }

    method Send(s: X) returns (err: bool)
      modifies this
      ensures !err && closed == old(closed)
      ensures out == if old(closed) then old(out) else Some(s)
    {
      if closed {
        return false;
      }
      if out.Some? {
        out := None;
      }
      if out.None? {
        out := Some(s);
        return false;
      }
      return true;
    }

    method Receive() returns (x: Option<X>)
      modifies this
      ensures x == old(out) && out.None? && closed == old(closed)
    {
      x, out := out, None;
    }
  }
}
