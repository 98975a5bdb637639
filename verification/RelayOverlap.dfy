/**
 When a `done` channel is closed twice: exactly after two removals of one key have overlapped. The flag
 `overlap` is tied to what it stands for, and every state in which it is set is at most two steps, of the
 removing threads alone, from a second close.
 */
module RelayOverlap {
  import opened Common
  import opened CacheSpec
  import opened Relay
  import opened RelayBasics
  import opened RelayReach
  import opened RelayStreams
  import opened RelaySteps
  import opened RelaySafety

  /** Thread `t` is about to close the `done` channel of `id`. */
  ghost predicate Closer(s: System, t: Tid, id: StreamId) {
    t in s.threads && s.threads[t].cb.ToCloseDone? && s.threads[t].cb.s == id
  }

  /** The `done` channel of `id` was closed twice, or will have been when those about to close it have. */
  ghost predicate Doomed(s: System, id: StreamId) {
    && id in s.streams
    && (|| s.streams[id].closes >= 2
        || (s.streams[id].closes == 1 && exists t :: Closer(s, t, id))
        || exists t, u :: t != u && Closer(s, t, id) && Closer(s, u, id))
  }

  // ------------------------------------------------------------ doom stays

  /** Nothing is unclosed, and only the actor can cease to be about to close, by closing. */
  ghost predicate Closes(s: System, s': System, t: Tid, id: StreamId)
    requires id in s.streams
  {
    && id in s'.streams && s'.streams[id].closes >= s.streams[id].closes
    && (forall x :: x != t && Closer(s, x, id) ==> Closer(s', x, id))
    && (Closer(s, t, id) ==> Closer(s', t, id) || s'.streams[id].closes > s.streams[id].closes)
  }

  lemma DoomStays(s: System, s': System, t: Tid, id: StreamId)
    requires Doomed(s, id) && Closes(s, s', t, id)
    ensures Doomed(s', id)
  {
    hide Closer;
    var c, c' := s.streams[id].closes, s'.streams[id].closes;
    if c' < 2 {
      if x :| Closer(s, x, id) && Closer(s', x, id) && x != t {
        if y :| Closer(s, y, id) && y != x {
          assert c' == c ==> Closer(s', y, id);
        }
      } else if c == 1 {
        assert Closer(s, t, id);
      }
    }
  }

  /** What a step does to the closings of `id` and to the flag. */
  ghost predicate Quietly(s: System, a: Action, s': System, id: StreamId) {
    && (id in s.streams ==> Closes(s, s', ActorOf(a), id))
    && (!BeginsRemoval(a) ==> s'.overlap == s.overlap)
  }

  predicate BeginsRemoval(a: Action) { a.Load? || a.Shutdown? }

  ghost function ActorOf(a: Action): Tid { if Actor(a).Some? then Actor(a).value else 0 }

  /** An actor without a callback, and closes left as they are. */
  lemma IdleCloses(s: System, s': System, t: Tid, id: StreamId)
    requires OthersStay(s, s', t) && (t in s.threads ==> s.threads[t].cb.NoCallback?)
    requires id in s.streams ==> id in s'.streams && s'.streams[id].closes >= s.streams[id].closes
    ensures id in s.streams ==> Closes(s, s', t, id)
  {}

  lemma SameCloses(s: System, s': System, t: Tid, id: StreamId)
    requires s'.threads == s.threads && s'.streams == s.streams
    ensures id in s.streams ==> Closes(s, s', t, id)
  {}

  lemma CreateStaysEnrolling(cfg: Config, s: System, a: Action, s': System)
    requires CacheSpec.Valid(s.cache) && CreateNext(cfg, s, a, s')
    requires Enrols(a)
    ensures OthersStay(s, s', a.t) && (a.t in s.threads ==> s.threads[a.t].cb.NoCallback?) && s'.overlap == s.overlap
  {
    hide AddRequest, DeleteRequest, CacheSpec.Valid, AfterReturn, AfterInsert, Closed, CanClose, Wants, Raise, Cached;
  }

  lemma CreateStaysStreaming(cfg: Config, s: System, a: Action, s': System)
    requires CacheSpec.Valid(s.cache) && CreateNext(cfg, s, a, s')
    requires !Enrols(a)
    ensures OthersStay(s, s', a.t) && (a.t in s.threads ==> s.threads[a.t].cb.NoCallback?) && s'.overlap == s.overlap
  {
    hide AddRequest, DeleteRequest, CacheSpec.Valid, AfterReturn, AfterInsert, Closed, CanClose, Wants, Raise, Cached;
  }

  lemma CreateStays(cfg: Config, s: System, a: Action, s': System)
    requires CacheSpec.Valid(s.cache) && CreateNext(cfg, s, a, s')
    ensures OthersStay(s, s', a.t) && (a.t in s.threads ==> s.threads[a.t].cb.NoCallback?) && s'.overlap == s.overlap
  {
    hide CreateNext, CacheSpec.Valid;
    if Enrols(a) {
      CreateStaysEnrolling(cfg, s, a, s');
    } else {
      CreateStaysStreaming(cfg, s, a, s');
    }
  }

  /** A stream not yet in the map has not been closed. */
  ghost predicate TransitOpen(s: System) {
    forall t :: t in s.threads && Holder(s.threads[t]).Some? && s.threads[t].job.Creating? ==>
      Holder(s.threads[t]).value in s.streams && s.streams[Holder(s.threads[t]).value].closes == 0
  }

  lemma OwnedTransitOpen(s: System)
    requires Owned(s)
    ensures TransitOpen(s)
  {
    forall t | t in s.threads ensures HoldsOwn(s, t) {}
  }

  lemma CreateKeepsClosesEnrolling(cfg: Config, s: System, a: Action, s': System, id: StreamId)
    requires CacheSpec.Valid(s.cache) && TransitOpen(s) && CreateNext(cfg, s, a, s') && id in s.streams
    requires Enrols(a)
    ensures id in s'.streams && s'.streams[id].closes >= s.streams[id].closes
  {
    hide AddRequest, DeleteRequest, CacheSpec.Valid, AfterReturn, AfterInsert, Closed, CanClose, Wants, Raise, Cached;
  }

  lemma CreateKeepsClosesStreaming(cfg: Config, s: System, a: Action, s': System, id: StreamId)
    requires CacheSpec.Valid(s.cache) && TransitOpen(s) && CreateNext(cfg, s, a, s') && id in s.streams
    requires !Enrols(a)
    ensures id in s'.streams && s'.streams[id].closes >= s.streams[id].closes
  {
    hide AddRequest, DeleteRequest, CacheSpec.Valid, AfterReturn, AfterInsert, Closed, CanClose, Wants, Raise, Cached;
  }

  lemma CreateKeepsCloses(cfg: Config, s: System, a: Action, s': System, id: StreamId)
    requires CacheSpec.Valid(s.cache) && TransitOpen(s) && CreateNext(cfg, s, a, s') && id in s.streams
    ensures id in s'.streams && s'.streams[id].closes >= s.streams[id].closes
  {
    hide CreateNext, CacheSpec.Valid;
    if Enrols(a) {
      CreateKeepsClosesEnrolling(cfg, s, a, s', id);
    } else {
      CreateKeepsClosesStreaming(cfg, s, a, s', id);
    }
  }

  lemma CreatesAct(cfg: Config, s: System, a: Action, s': System)
    requires CacheSpec.Valid(s.cache) && CreateNext(cfg, s, a, s')
    ensures Actor(a).Some? && !BeginsRemoval(a)
  {
    hide CacheSpec.Valid, AddRequest, DeleteRequest, AfterReturn, AfterInsert, Quiet;
  }

  lemma CreateCloses(cfg: Config, s: System, a: Action, s': System, id: StreamId)
    requires CacheSpec.Valid(s.cache) && Owned(s) && CreateNext(cfg, s, a, s')
    ensures Quietly(s, a, s', id)
  {
    hide CreateNext, Owned, TransitOpen, Closes, OthersStay, CacheSpec.Valid;
    CreatesAct(cfg, s, a, s');
    CreateStays(cfg, s, a, s');
    OwnedTransitOpen(s);
    if id in s.streams {
      CreateKeepsCloses(cfg, s, a, s', id);
    }
    IdleCloses(s, s', a.t, id);
  }

  lemma WatchCloses(cfg: Config, s: System, a: Action, s': System, id: StreamId)
    requires CacheSpec.Valid(s.cache) && WatchNext(cfg, s, a, s')
    ensures Quietly(s, a, s', id)
  {
    hide CacheSpec.Valid, Closer, Closes, SetResponse;
    IdleCloses(s, s', ActorOf(a), id);
  }

  lemma FetchCloses(cfg: Config, s: System, a: Action, s': System, id: StreamId)
    requires CacheSpec.Valid(s.cache) && FetchNext(cfg, s, a, s')
    ensures Quietly(s, a, s', id)
  {
    hide CacheSpec.Valid, Closer, Closes;
    IdleCloses(s, s', ActorOf(a), id);
  }

  lemma EvictCloses(cfg: Config, s: System, a: Action, s': System, id: StreamId)
    requires CacheSpec.Valid(s.cache) && EvictNext(cfg, s, a, s')
    ensures Quietly(s, a, s', id)
  {}

  lemma SendCloses(cfg: Config, s: System, a: Action, s': System, id: StreamId)
    requires CacheSpec.Valid(s.cache) && SendNext(cfg, s, a, s')
    ensures Quietly(s, a, s', id)
  {
    hide CacheSpec.Valid, Closer, Closes;
    if Actor(a).Some? {
      IdleCloses(s, s', ActorOf(a), id);
    } else {
      SameCloses(s, s', ActorOf(a), id);
    }
  }

  lemma StepsQuietly(cfg: Config, s: System, a: Action, s': System, id: StreamId)
    requires Owned(s) && Next(cfg, s, a, s')
    ensures Quietly(s, a, s', id)
  {
    hide Owned, CreateNext, WatchNext, FetchNext, EvictNext, SendNext, CacheSpec.Valid, Quietly;
    if CreateNext(cfg, s, a, s') {
      CreateCloses(cfg, s, a, s', id);
    } else if WatchNext(cfg, s, a, s') {
      WatchCloses(cfg, s, a, s', id);
    } else if FetchNext(cfg, s, a, s') {
      FetchCloses(cfg, s, a, s', id);
    } else if EvictNext(cfg, s, a, s') {
      EvictCloses(cfg, s, a, s', id);
    } else {
      SendCloses(cfg, s, a, s', id);
    }
  }

  lemma DoomKept(cfg: Config, s: System, a: Action, s': System, id: StreamId)
    requires Owned(s) && Next(cfg, s, a, s') && Doomed(s, id)
    ensures Doomed(s', id)
  {
    hide Owned, Next, Closes;
    StepsQuietly(cfg, s, a, s', id);
    DoomStays(s, s', ActorOf(a), id);
  }

  // ----------------------------------------------------- overlap is doom

  /** A removal that begins while another is under way finds the same stream: the other is about to close
      it, or has closed it. */
  lemma OverlapDooms(cfg: Config, s: System, a: Action, s': System)
    requires Inv(s) && Next(cfg, s, a, s') && !s.overlap && s'.overlap
    ensures exists id :: Doomed(s', id)
  {
    hide Next, NonOverlapping, Owned;
    if !BeginsRemoval(a) {
      LeavesOverlap(cfg, s, a, s');
    } else {
      assert forall k :: k in s.up ==> Stored(s, s.up[k]) by { MapIsStored(s); }
      BeginningsEvict(cfg, s, a, s');
      BeginDooms(cfg, s, a, s');
    }
  }

  lemma MapIsStored(s: System)
    requires Owned(s)
    ensures forall k :: k in s.up ==> Stored(s, s.up[k])
  {}

  lemma BeginningsEvict(cfg: Config, s: System, a: Action, s': System)
    requires Next(cfg, s, a, s') && BeginsRemoval(a)
    ensures EvictNext(cfg, s, a, s')
  {
    hide EvictNext, CacheSpec.Valid;
  }

  lemma BeginDooms(cfg: Config, s: System, a: Action, s': System)
    requires NonOverlapping(s) && UpOk(s) && CacheSpec.Valid(s.cache) && EvictNext(cfg, s, a, s') && BeginsRemoval(a)
    requires !s.overlap && s'.overlap && forall k :: k in s.up ==> s.up[k] in s.streams
    ensures exists id :: Doomed(s', id)
  {
    var k := if a.Load? then s.threads[a.t].cb.k else a.k;
    var u :| u in s.threads && u != a.t && Removing(s.threads[u].cb, k);
    assert RemovalOk(s, s.threads[u].cb);
    assert Closer(s', a.t, s.up[k]);
    assert s.threads[u].cb.ToCloseDone? ==> Closer(s', u, s.up[k]);
    assert Doomed(s', s.up[k]);
  }

  lemma DoomIsOverlap(s: System, id: StreamId)
    requires StreamsOk(s) && UpOk(s) && Doomed(s, id)
    ensures s.overlap
  {
    if !s.overlap {
      assert DoneOk(s, id);
      if t :| Closer(s, t, id) {
        assert RemovalOk(s, s.threads[t].cb);
        assert exists u :: u != t && Closer(s, u, id);
        var u :| u != t && Closer(s, u, id);
        assert RemovalOk(s, s.threads[u].cb);
        assert Removing(s.threads[t].cb, s.threads[t].cb.k) && Removing(s.threads[u].cb, s.threads[u].cb.k);
      }
    }
  }

  /** Two removals of one key have overlapped if and only if some `done` channel has been closed twice or
      is about to be. */
  lemma {:induction false} OverlapIsDoom(cfg: Config, now: int, acts: seq<Action>, s: System)
    requires Reached(cfg, now, acts, s)
    ensures s.overlap <==> exists id :: Doomed(s, id)
  {
    ReachedInv(cfg, now, acts, s);
    if id :| Doomed(s, id) {
      DoomIsOverlap(s, id);
    }
    if acts != [] {
      var init, a := acts[..|acts| - 1], acts[|acts| - 1];
      var p :| Leads(cfg, Init(now), init, p) && Next(cfg, p, a, s);
      ReachedInv(cfg, now, init, p);
      OverlapIsDoom(cfg, now, init, p);
      if p.overlap {
        var id :| Doomed(p, id);
        DoomKept(cfg, p, a, s, id);
      } else if s.overlap {
        OverlapDooms(cfg, p, a, s);
      }
    }
  }

  // ------------------------------------------------ and doom is a double close

  ghost predicate ClosedTwice(s: System) { exists id :: id in s.streams && s.streams[id].closes >= 2 }

  /** `more` consists of closings of `done` channels and leads to a second close of one. */
  ghost predicate ClosingRun(cfg: Config, s: System, more: seq<Action>, s': System) {
    |more| <= 2 && (forall a :: a in more ==> a.CloseDone?) && Leads(cfg, s, more, s') && ClosedTwice(s')
  }

  lemma CloseNow(cfg: Config, s: System, t: Tid, id: StreamId) returns (s': System)
    requires Inv(s) && Closer(s, t, id) && id in s.streams
    ensures Next(cfg, s, CloseDone(t), s') && id in s'.streams && s'.streams[id].closes == s.streams[id].closes + 1
    ensures forall u :: u != t && Closer(s, u, id) ==> Closer(s', u, id)
  {
    hide CreateNext, WatchNext, FetchNext, SendNext, CacheSpec.Valid;
    hide Reachable, ThreadsOk, WatchesOk, LocksOk, HistoryOk, StreamsOk, RelayCover.NoMiss;
    s' := DoCloseDone(s, t);
    assert EvictNext(cfg, s, CloseDone(t), s');
  }

  lemma DoomCloses(cfg: Config, s: System, id: StreamId) returns (more: seq<Action>, s': System)
    requires Inv(s) && Doomed(s, id)
    ensures ClosingRun(cfg, s, more, s')
  {
    hide Inv, Next, Closer;
    if s.streams[id].closes >= 2 {
      more, s' := [], s;
    } else {
      var t :| Closer(s, t, id);
      var p := CloseNow(cfg, s, t, id);
      NextKept(cfg, s, CloseDone(t), p);
      more := [CloseDone(t)];
      assert more[..0] == [] && Leads(cfg, s, [], s);
      assert Leads(cfg, s, more, p);
      if p.streams[id].closes >= 2 {
        s' := p;
      } else {
        assert exists u :: u != t && Closer(s, u, id);
        var u :| u != t && Closer(s, u, id);
        s' := CloseNow(cfg, p, u, id);
        more := [CloseDone(t), CloseDone(u)];
        assert more[..1] == [CloseDone(t)];
        assert Leads(cfg, s, more, s');
      }
    }
  }

  lemma LeavesOverlap(cfg: Config, s: System, a: Action, s': System)
    requires Inv(s) && Next(cfg, s, a, s') && !BeginsRemoval(a)
    ensures s'.overlap == s.overlap
  {
    hide Next, Owned;
    StepsQuietly(cfg, s, a, s', StreamId("", 0));
  }

  lemma {:induction false} ClosingLeavesOverlap(cfg: Config, s: System, more: seq<Action>, s': System)
    requires Inv(s) && Leads(cfg, s, more, s') && forall a :: a in more ==> a.CloseDone?
    ensures s'.overlap == s.overlap
  {
    hide Inv, Next, Quietly;
    if more != [] {
      var init, a := more[..|more| - 1], more[|more| - 1];
      var p :| Leads(cfg, s, init, p) && Next(cfg, p, a, s');
      assert a in more;
      ClosingLeavesOverlap(cfg, s, init, p);
      LeadsKeeps(cfg, s, init, p);
      LeavesOverlap(cfg, p, a, s');
    }
  }

  /** In every reachable state: two removals of one key have overlapped if and only if the removing
      threads, by closings alone, at most two, bring about that a `done` channel has been closed twice. */
  lemma DoubleCloseIffOverlap(cfg: Config, now: int, acts: seq<Action>, s: System)
    requires Reached(cfg, now, acts, s)
    ensures s.overlap <==> exists more, s' :: ClosingRun(cfg, s, more, s')
  {
    ReachedInv(cfg, now, acts, s);
    OverlapIsDoom(cfg, now, acts, s);
    if s.overlap {
      var id :| Doomed(s, id);
      var more, s' := DoomCloses(cfg, s, id);
    }
    if more, s' :| ClosingRun(cfg, s, more, s') {
      LeadsKeeps(cfg, s, more, s');
      ClosingLeavesOverlap(cfg, s, more, s');
      var id :| id in s'.streams && s'.streams[id].closes >= 2;
      assert Doomed(s', id);
      DoomIsOverlap(s', id);
    }
  }
}
