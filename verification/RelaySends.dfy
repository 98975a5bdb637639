/**
 What becomes of a response that is sent. A `Send` puts it into the slot of the watch, or finds the slot
 full and drops it with an error. It is dropped only if another `Send` on the same watch overlapped and
 wrote in between; without overlapping sends no update is missed.
 */
module RelaySends {
  import opened Common
  import opened CacheSpec
  import opened Relay
  import opened RelayBasics
  import opened RelayCover
  import opened RelaySteps
  import opened RelaySafety
  import Slots

  /** Whoever is about to write has seen all writes up to its drain, and if the slot is full again,
      somebody else has written since. */
  ghost predicate WriterOk(watches: map<Req, Slots.Slot<Msg>>, j: Job) {
    j.Sending? && j.spc.ToWrite? ==>
      && j.r in watches && j.spc.seen <= watches[j.r].writes
      && (watches[j.r].held.Some? ==> j.spc.seen < watches[j.r].writes)
  }

  /** As long as no two sends have overlapped on `r`'s watch, there is one at most, and it finds room. */
  ghost predicate SoleSender(s: System, r: Req) {
    && (forall t, u :: t in s.threads && u in s.threads && Holds(s.threads[t], r) && Holds(s.threads[u], r) ==> t == u)
    && (forall t :: t in s.threads && Holds(s.threads[t], r) && s.threads[t].job.spc.ToWrite? ==>
          r in s.watches && s.watches[r].held.None?)
  }

  /** A dropped response was stored, for the watch's key, and met a write that overlapped its `Send`. */
  ghost predicate DropOk(s: System, d: SendError) {
    && d.seen < d.writes && d.r in s.log.crossed
    && HasKey(s.reqs, d.r, d.m.stream.key) && MsgOk(s.sets, d.m, d.m.stream.key)
  }

  ghost predicate WasDropped(s: System, r: Req, stamp: int) {
    exists d :: d in s.log.dropped && d.r == r && d.m.stamp == stamp
  }

  /** The highest response offered to `r` was put into its slot, or dropped. */
  ghost predicate OfferOk(s: System, r: Req) {
    && At(s.log.written, r) <= At(s.attempted, r)
    && (At(s.log.written, r) < At(s.attempted, r) ==> WasDropped(s, r, At(s.attempted, r) - 1))
  }

  ghost predicate SendsOk(s: System) {
    && (forall t :: t in s.threads ==> WriterOk(s.watches, s.threads[t].job))
    && (forall r :: r !in s.log.crossed ==> SoleSender(s, r))
    && (forall d :: d in s.log.dropped ==> DropOk(s, d))
    && (forall r :: OfferOk(s, r))
  }

  // ---------------------------------------------------------- preservation

  /** No send is begun, drained or written, and no slot is filled. */
  ghost predicate Aside(s: System, s': System) {
    && (forall x, r :: x in s'.threads && Holds(s'.threads[x], r) ==> x in s.threads && s'.threads[x].job == s.threads[x].job)
    && s'.log.written == s.log.written && s'.log.dropped == s.log.dropped && s'.log.crossed == s.log.crossed
    && s'.attempted == s.attempted && s.sets <= s'.sets
    && (forall r :: r in s.reqs ==> r in s'.reqs && s'.reqs[r] == s.reqs[r])
    && (forall r :: r in s.watches ==>
          && r in s'.watches && s'.watches[r].writes == s.watches[r].writes
          && (s'.watches[r].held == s.watches[r].held || s'.watches[r].held.None?))
  }

  lemma AsideKept(s: System, s': System)
    requires SendsOk(s) && Aside(s, s')
    ensures SendsOk(s')
  {
    forall x | x in s'.threads ensures WriterOk(s'.watches, s'.threads[x].job) {
      var j := s'.threads[x].job;
      if j.Sending? && j.spc.ToWrite? {
        assert Holds(s'.threads[x], j.r) && WriterOk(s.watches, s.threads[x].job);
      }
    }
    forall r | r !in s'.log.crossed ensures SoleSender(s', r) {
      assert SoleSender(s, r);
    }
    forall d | d in s'.log.dropped ensures DropOk(s', d) {
      assert DropOk(s, d);
    }
    forall r ensures OfferOk(s', r) {
      assert OfferOk(s, r);
    }
  }

  lemma CreateAsideEnrolling(cfg: Config, s: System, a: Action, s': System)
    requires WatchesOk(s) && CacheSpec.Valid(s.cache) && CreateNext(cfg, s, a, s')
    requires Enrols(a)
    ensures Aside(s, s')
  {
    hide AddRequest, DeleteRequest, CacheSpec.Valid, Wants, Cached, WatchOk, Quiet, AfterReturn;
  }

  lemma CreateAsideStreaming(cfg: Config, s: System, a: Action, s': System)
    requires WatchesOk(s) && CacheSpec.Valid(s.cache) && CreateNext(cfg, s, a, s')
    requires !Enrols(a)
    ensures Aside(s, s')
  {
    hide AddRequest, DeleteRequest, CacheSpec.Valid, Wants, Cached, WatchOk, Quiet, Cleaning, Misses;
  }

  lemma CreateAside(cfg: Config, s: System, a: Action, s': System)
    requires WatchesOk(s) && CacheSpec.Valid(s.cache) && CreateNext(cfg, s, a, s')
    ensures Aside(s, s')
  {
    hide CreateNext, CacheSpec.Valid;
    if Enrols(a) {
      CreateAsideEnrolling(cfg, s, a, s');
    } else {
      CreateAsideStreaming(cfg, s, a, s');
    }
  }

  lemma WatchAside(cfg: Config, s: System, a: Action, s': System)
    requires CacheSpec.Valid(s.cache) && WatchNext(cfg, s, a, s')
    ensures Aside(s, s')
  {
    hide SetResponse, CacheSpec.Valid;
  }

  lemma FetchAside(cfg: Config, s: System, a: Action, s': System)
    requires CacheSpec.Valid(s.cache) && FetchNext(cfg, s, a, s')
    ensures Aside(s, s')
  {
    hide FetchLook, FetchReap, DeleteKey, CacheSpec.Valid;
  }

  lemma EvictAside(cfg: Config, s: System, a: Action, s': System)
    requires CacheSpec.Valid(s.cache) && EvictNext(cfg, s, a, s')
    ensures Aside(s, s')
  {
    hide CacheSpec.Valid, OtherRemoval, Quiet;
  }

  lemma OtherAside(cfg: Config, s: System, a: Action, s': System)
    requires CacheSpec.Valid(s.cache) && SendNext(cfg, s, a, s') && !a.Enter? && !a.Drain? && !a.Write?
    ensures Aside(s, s')
  {
    hide CacheSpec.Valid, OtherHolder;
  }

  lemma EnterSends(s: System, t: Tid)
    requires SendsOk(s) && CanEnter(s, t)
    ensures SendsOk(DoEnter(s, t))
  {
    var s', r := DoEnter(s, t), s.threads[t].job.r;
    forall x | x in s'.threads ensures WriterOk(s'.watches, s'.threads[x].job) {
      assert WriterOk(s.watches, s.threads[x].job);
    }
    forall q | q !in s'.log.crossed ensures SoleSender(s', q) {
      assert SoleSender(s, q);
      assert q == r && Holds(s'.threads[t], r) ==> !OtherHolder(s.threads, t, r);
    }
    forall d | d in s'.log.dropped ensures DropOk(s', d) {
      assert DropOk(s, d);
    }
    forall q ensures OfferOk(s', q) {
      assert OfferOk(s, q);
    }
  }

  lemma DrainSends(s: System, t: Tid)
    requires SendsOk(s) && CanDrain(s, t)
    ensures SendsOk(DoDrain(s, t))
  {
    var s', r := DoDrain(s, t), s.threads[t].job.r;
    forall x | x in s'.threads ensures WriterOk(s'.watches, s'.threads[x].job) {
      assert WriterOk(s.watches, s.threads[x].job);
    }
    forall q | q !in s'.log.crossed ensures SoleSender(s', q) {
      assert SoleSender(s, q);
    }
    forall d | d in s'.log.dropped ensures DropOk(s', d) {
      assert DropOk(s, d);
    }
    forall q ensures OfferOk(s', q) {
      assert OfferOk(s, q);
    }
  }

  lemma WriteSenders(s: System, t: Tid)
    requires SendsOk(s) && CanWrite(s, t)
    ensures var s' := DoWrite(s, t);
      && (forall x :: x in s'.threads ==> WriterOk(s'.watches, s'.threads[x].job))
      && (forall q :: q !in s'.log.crossed ==> SoleSender(s', q))
  {
    var s', r := DoWrite(s, t), s.threads[t].job.r;
    forall x | x in s'.threads ensures WriterOk(s'.watches, s'.threads[x].job) {
      assert WriterOk(s.watches, s.threads[x].job);
    }
    forall q | q !in s'.log.crossed ensures SoleSender(s', q) {
      assert SoleSender(s, q) && (q == r ==> Holds(s.threads[t], r));
    }
  }

  lemma WriteDrops(s: System, t: Tid)
    requires SendsOk(s) && CanWrite(s, t) && ThreadOk(s, s.threads[t])
    ensures var s' := DoWrite(s, t); forall d :: d in s'.log.dropped ==> DropOk(s', d)
  {
    var s', j := DoWrite(s, t), s.threads[t].job;
    assert WriterOk(s.watches, j) && Holds(s.threads[t], j.r);
    assert j.r !in s.log.crossed ==> SoleSender(s, j.r);
    forall d | d in s'.log.dropped ensures DropOk(s', d) {
      assert d in s.log.dropped ==> DropOk(s, d);
    }
  }

  lemma WriteOffers(s: System, t: Tid)
    requires SendsOk(s) && CanWrite(s, t)
    ensures var s' := DoWrite(s, t); forall q :: OfferOk(s', q)
  {
    var s', j := DoWrite(s, t), s.threads[t].job;
    forall q ensures OfferOk(s', q) {
      assert OfferOk(s, q);
      if At(s'.log.written, q) < At(s'.attempted, q) {
        if At(s'.attempted, q) == At(s.attempted, q) {
          assert At(s.log.written, q) < At(s.attempted, q);
          var d :| d in s.log.dropped && d.r == q && d.m.stamp == At(s.attempted, q) - 1;
          assert d in s'.log.dropped;
        } else {
          assert s'.log.dropped[|s.log.dropped|] in s'.log.dropped;
        }
      }
    }
  }

  predicate Sends(a: Action) { a.Enter? || a.Drain? || a.Write? }

  lemma SendersSend(cfg: Config, s: System, a: Action, s': System)
    requires Next(cfg, s, a, s') && Sends(a)
    ensures SendNext(cfg, s, a, s')
  {
    hide SendNext, CacheSpec.Valid;
  }

  lemma OthersAside(cfg: Config, s: System, a: Action, s': System)
    requires WatchesOk(s) && Next(cfg, s, a, s') && !Sends(a)
    ensures Aside(s, s')
  {
    hide CreateNext, WatchNext, FetchNext, EvictNext, SendNext, Aside, CacheSpec.Valid, WatchesOk;
    if CreateNext(cfg, s, a, s') {
      CreateAside(cfg, s, a, s');
    } else if WatchNext(cfg, s, a, s') {
      WatchAside(cfg, s, a, s');
    } else if FetchNext(cfg, s, a, s') {
      FetchAside(cfg, s, a, s');
    } else if EvictNext(cfg, s, a, s') {
      EvictAside(cfg, s, a, s');
    } else {
      OtherAside(cfg, s, a, s');
    }
  }

  lemma SenderKept(cfg: Config, s: System, a: Action, s': System)
    requires Basics(s) && SendsOk(s) && SendNext(cfg, s, a, s') && Sends(a)
    ensures SendsOk(s')
  {
    hide SendsOk, DoEnter, DoDrain, DoWrite, CacheOk, WatchesOk, LocksOk, HistoryOk;
    match a
    case Enter(t) => EnterSends(s, t);
    case Drain(t) => DrainSends(s, t);
    case Write(t) => assert ThreadOk(s, s.threads[t]); WriteSends(s, t);
  }

  lemma SendsKept(cfg: Config, s: System, a: Action, s': System)
    requires Inv(s) && SendsOk(s) && Next(cfg, s, a, s')
    ensures SendsOk(s')
  {
    hide SendsOk, Aside, Next, SendNext, CacheOk, ThreadsOk, WatchesOk, LocksOk, HistoryOk;
    if Sends(a) {
      SendersSend(cfg, s, a, s');
      SenderKept(cfg, s, a, s');
    } else {
      OthersAside(cfg, s, a, s');
      AsideKept(s, s');
    }
  }

  lemma WriteSends(s: System, t: Tid)
    requires SendsOk(s) && CanWrite(s, t) && ThreadOk(s, s.threads[t])
    ensures SendsOk(DoWrite(s, t))
  {
    hide DropOk, WriterOk, SoleSender, OfferOk, DoWrite, ThreadOk;
    WriteSenders(s, t);
    WriteDrops(s, t);
    WriteOffers(s, t);
  }

  lemma {:induction false} ReachedSends(cfg: Config, now: int, acts: seq<Action>, s: System)
    requires Reached(cfg, now, acts, s)
    ensures SendsOk(s)
  {
    hide Inv, Next;
    if acts != [] {
      var init, a := acts[..|acts| - 1], acts[|acts| - 1];
      var p :| Leads(cfg, Init(now), init, p) && Next(cfg, p, a, s);
      ReachedInv(cfg, now, init, p);
      ReachedSends(cfg, now, init, p);
      SendsKept(cfg, p, a, s);
    }
  }

  // ------------------------------------------------------------- what holds

  /** A `Send` that errs was overlapped by another one on the same watch, which wrote after its drain. */
  lemma DropsAreCrossed(cfg: Config, now: int, acts: seq<Action>, s: System, d: SendError)
    requires Reached(cfg, now, acts, s) && d in s.log.dropped
    ensures d.seen < d.writes && d.r in s.log.crossed
  {
    ReachedSends(cfg, now, acts, s);
    assert DropOk(s, d);
  }

  /** A response for `k` stored no earlier than `n` was put into the slot of `r`. */
  ghost predicate Served(s: System, k: Key, r: Req, n: nat) {
    exists i :: n <= i < |s.sets| && At(s.log.written, r) == i + 1 && s.sets[i].stream.key == k
  }

  /** A `Send` of such a response to `r` was overlapped by another and erred. */
  ghost predicate Crossed(s: System, k: Key, r: Req, n: nat) {
    exists d :: d in s.log.dropped && d.r == r && d.m.stamp >= n && d.m.stream.key == k && d.seen < d.writes
  }

  /** What was offered was put into the slot, or its `Send` was overlapped. */
  lemma OfferedIsServed(s: System, k: Key, r: Req, n: nat)
    requires SendsOk(s) && Offered(s, k, r, n)
    ensures Served(s, k, r, n) || Crossed(s, k, r, n)
    ensures r !in s.log.crossed ==> Served(s, k, r, n)
  {
    var i :| n <= i < |s.sets| && At(s.attempted, r) == i + 1 && s.sets[i].stream.key == k;
    assert OfferOk(s, r);
    if At(s.log.written, r) == i + 1 {
      assert Served(s, k, r, n);
    } else {
      var d :| d in s.log.dropped && d.r == r && d.m.stamp == i;
      assert DropOk(s, d);
      assert Crossed(s, k, r, n);
    }
  }

  /** No missed update. When things have settled, a watch registered for a key whose entry holds a
      response has had that response or one stored later put into its slot; or such a response is the one
      that `CreateWatch` found and did not push, the request having named its version or being a NACK; or a
      `Send` of such a response was overlapped by another on the same watch and erred. If no two sends ever
      overlapped on the watch, the last is not so. */
  lemma NoMissedUpdate(cfg: Config, now: int, acts: seq<Action>, s: System, k: Key, r: Req)
    requires Reached(cfg, now, acts, s) && Due(s, k, r) && Settled(s, k, r)
    ensures var n := Lookup(s.cache.lru, k).value.resp.value.stamp;
      && (Served(s, k, r, n) || Withheld(s, k, r, n) || Crossed(s, k, r, n))
      && (r !in s.log.crossed ==> Served(s, k, r, n) || Withheld(s, k, r, n))
  {
    hide Leads, Settled, Inv;
    NoMissedOffer(cfg, now, acts, s, k, r);
    ReachedSends(cfg, now, acts, s);
    var n := Lookup(s.cache.lru, k).value.resp.value.stamp;
    if Offered(s, k, r, n) {
      OfferedIsServed(s, k, r, n);
    }
  }
}
