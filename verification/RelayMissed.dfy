/**
 What it costs a waiting request to be missed by a clean-up, at whatever point the clean-up is, and what
 it costs a key that the ended stream is left in the map. Both are among the ways in which a key becomes
 hasty; that the shutdown leaves whoever waits without a stream is `RelayWaiting.MissedIsStranded`, its
 callback being one past its scan.
 */
module RelayMissed {
  import opened Common
  import opened CacheSpec
  import opened Relay
  import opened RelayBasics
  import opened RelayReach
  import opened RelayStreams
  import opened RelaySteps
  import opened RelaySafety
  import opened RelayLive
  import opened RelayWaiting

  lemma Single(cfg: Config, s: System, a: Action, s': System)
    requires Inv(s) && Next(cfg, s, a, s')
    ensures Leads(cfg, s, [a], s') && Inv(s')
  {
    hide Inv, Next;
    assert [a][..0] == [];
    assert Leads(cfg, s, [], s);
    NextKept(cfg, s, a, s');
  }

  // ------------------------------------------------------- sends come to an end

  predicate InSend(th: Thread) { th.job.Sending? && (th.job.spc.ToDrain? || th.job.spc.ToWrite?) }

  ghost predicate NoSends(s: System) { forall x :: x in s.threads ==> !InSend(s.threads[x]) }

  /** As far as waiting requests and clean-ups go, nothing has changed. */
  ghost predicate Undisturbed(s: System, s': System) {
    && s'.cache == s.cache && s'.up == s.up && s'.open == s.open && s'.returned == s.returned
    && s'.reqs == s.reqs && s'.mu == s.mu
    && (forall x :: x in s.threads && !s.threads[x].job.Sending? ==> x in s'.threads && s'.threads[x] == s.threads[x])
    && (forall x :: x in s'.threads && s'.threads[x].cb.Closing? ==> x in s.threads && s'.threads[x] == s.threads[x])
  }

  lemma DrainEnds(cfg: Config, s: System, u: Tid) returns (s': System)
    requires Inv(s) && u in s.threads && s.threads[u].job.Sending? && s.threads[u].job.spc.ToDrain?
    ensures Leads(cfg, s, [Drain(u)], s') && Inv(s') && Undisturbed(s, s')
    ensures u in s'.threads && s'.threads == s.threads[u := s'.threads[u]]
    ensures s'.threads[u].job.Sending? && s'.threads[u].job.spc.ToWrite?
  {
    hide Inv, CacheSpec.Valid, Next, Leads;
    SenderCanGoOn(s, u);
    s' := DoDrain(s, u);
    SendGoesOn(cfg, s, Drain(u), s');
    Single(cfg, s, Drain(u), s');
  }

  lemma WriteEnds(cfg: Config, s: System, u: Tid) returns (s': System)
    requires Inv(s) && u in s.threads && s.threads[u].job.Sending? && s.threads[u].job.spc.ToWrite?
    ensures Leads(cfg, s, [Write(u)], s') && Inv(s') && Undisturbed(s, s')
    ensures u in s'.threads && s'.threads == s.threads[u := s'.threads[u]] && s'.threads[u].job.Finished?
  {
    hide Inv, CacheSpec.Valid, Next, Leads, Raise;
    SenderCanGoOn(s, u);
    s' := DoWrite(s, u);
    SendGoesOn(cfg, s, Write(u), s');
    Single(cfg, s, Write(u), s');
  }

  lemma SenderCanGoOn(s: System, u: Tid)
    requires Inv(s) && u in s.threads && s.threads[u].job.Sending?
    ensures IsSending(s, u) && CacheSpec.Valid(s.cache)
  {
    assert ThreadOk(s, s.threads[u]);
  }

  lemma CacheIsValid(s: System)
    requires Inv(s)
    ensures CacheSpec.Valid(s.cache)
  {}

  lemma SendGoesOn(cfg: Config, s: System, a: Action, s': System)
    requires CacheSpec.Valid(s.cache)
    requires match a
      case Drain(u) => CanDrain(s, u) && s' == DoDrain(s, u)
      case Write(u) => CanWrite(s, u) && s' == DoWrite(s, u)
      case _ => false
    ensures Next(cfg, s, a, s')
  {
    hide CreateNext, WatchNext, FetchNext, EvictNext, CacheSpec.Valid, DoDrain, DoWrite;
  }

  lemma SendEnds(cfg: Config, s: System, u: Tid) returns (more: seq<Action>, s': System)
    requires Inv(s) && u in s.threads && InSend(s.threads[u])
    ensures Leads(cfg, s, more, s') && Inv(s') && Undisturbed(s, s')
    ensures u in s'.threads && s'.threads == s.threads[u := s'.threads[u]] && !InSend(s'.threads[u])
  {
    hide Inv, Next, Leads;
    if s.threads[u].job.spc.ToDrain? {
      var p := DrainEnds(cfg, s, u);
      s' := WriteEnds(cfg, p, u);
      LeadsJoin(cfg, s, [Drain(u)], p, [Write(u)], s');
      more := [Drain(u)] + [Write(u)];
    } else {
      s' := WriteEnds(cfg, s, u);
      more := [Write(u)];
    }
  }

  /** Every send that holds a watch can run to its end, and then every watch can be closed. */
  lemma {:induction false} SendsEnd(cfg: Config, s: System, busy: set<Tid>) returns (more: seq<Action>, s': System)
    requires Inv(s) && forall x :: x in s.threads && InSend(s.threads[x]) ==> x in busy
    ensures Leads(cfg, s, more, s') && Inv(s') && Undisturbed(s, s') && NoSends(s')
    decreases |busy|
  {
    hide Inv, Next;
    if busy == {} {
      more, s' := [], s;
    } else {
      var u :| u in busy;
      if u in s.threads && InSend(s.threads[u]) {
        var first, p := SendEnds(cfg, s, u);
        more, s' := SendsEnd(cfg, p, busy - {u});
        LeadsJoin(cfg, s, first, p, more, s');
        more := first + more;
      } else {
        more, s' := SendsEnd(cfg, s, busy - {u});
      }
    }
  }

  // -------------------------------------------------------- scans come to an end

  /** The scan of the thread is bound to close the watch of `r`. */
  predicate WillReach(th: Thread, stores: map<StoreId, set<Req>>, r: Req) {
    th.cb.Closing? && InStore(stores, th.cb.store, r) && r in th.cb.must && r !in th.cb.visited
  }

  /** A scan of thread `t` has closed watches, not that of `r`. */
  ghost predicate ScanMoves(s: System, s': System, t: Tid, r: Req) {
    && s'.cache == s.cache && s'.up == s.up && s'.returned == s.returned && s'.reqs == s.reqs
    && (r in s.open ==> r in s'.open)
    && t in s.threads && t in s'.threads && s'.threads == s.threads[t := s.threads[t].(cb := s'.threads[t].cb)]
  }

  function Remaining(s: System, t: Tid): set<Req>
    requires IsClosing(s, t)
  {
    s.threads[t].cb.must * s.cache.stores[s.threads[t].cb.store] - s.threads[t].cb.visited
  }

  lemma EvictGoesOn(cfg: Config, s: System, a: Action, s': System)
    requires CacheSpec.Valid(s.cache)
    requires match a
      case Lock(t) => CanLock(s, t) && s' == DoLock(s, t)
      case CloseOne(t, q) => CanCloseOne(s, t, q) && s' == DoCloseOne(s, t, q)
      case Unlock(t) => CanUnlock(s, t) && s' == DoUnlock(s, t)
      case _ => false
    ensures Next(cfg, s, a, s')
  {
    hide CreateNext, WatchNext, FetchNext, SendNext, CacheSpec.Valid, DoLock, DoCloseOne, DoUnlock;
  }

  lemma ClosesNext(cfg: Config, s: System, t: Tid, r: Req) returns (q: Req, s': System)
    requires Inv(s) && NoSends(s) && IsClosing(s, t) && Remaining(s, t) != {} && r !in Remaining(s, t)
    ensures Leads(cfg, s, [CloseOne(t, q)], s') && Inv(s') && NoSends(s') && ScanMoves(s, s', t, r)
    ensures IsClosing(s', t) && s'.threads[t].cb.k == s.threads[t].cb.k && s'.threads[t].cb.locked == s.threads[t].cb.locked
    ensures q in Remaining(s, t) && Remaining(s', t) == Remaining(s, t) - {q}
  {
    hide Inv, CacheSpec.Valid, Next, Leads;
    q :| q in Remaining(s, t);
    s' := DoCloseOne(s, t, q);
    CacheIsValid(s);
    assert CanClose(s, q) by {
      assert forall x :: x in s.threads && Holds(s.threads[x], q) ==> InSend(s.threads[x]);
    }
    EvictGoesOn(cfg, s, CloseOne(t, q), s');
    Single(cfg, s, CloseOne(t, q), s');
  }

  lemma Unlocks(cfg: Config, s: System, t: Tid, r: Req) returns (s': System)
    requires Inv(s) && IsClosing(s, t) && Remaining(s, t) == {}
    ensures Leads(cfg, s, [Unlock(t)], s') && Inv(s') && ScanMoves(s, s', t, r)
    ensures s'.mu.None? && s'.threads[t].cb == ToLoad(s.threads[t].cb.k, s.threads[t].cb.locked)
  {
    hide Inv, CacheSpec.Valid, Next, Leads;
    s' := DoUnlock(s, t);
    CacheIsValid(s);
    var cb := s.threads[t].cb;
    assert cb.must * s.cache.stores[cb.store] <= cb.visited by {
      forall x | x in cb.must * s.cache.stores[cb.store] ensures x in cb.visited {
        assert x !in Remaining(s, t);
      }
    }
    EvictGoesOn(cfg, s, Unlock(t), s');
    Single(cfg, s, Unlock(t), s');
  }

  /** With no send under way a scan can be brought to its end; those it is not bound to reach stay open. */
  lemma {:induction false} ScanEnds(cfg: Config, s: System, t: Tid, r: Req) returns (more: seq<Action>, s': System)
    requires Inv(s) && NoSends(s) && IsClosing(s, t) && r !in Remaining(s, t)
    ensures Leads(cfg, s, more, s') && Inv(s') && NoSends(s') && ScanMoves(s, s', t, r)
    ensures s'.mu.None? && s'.threads[t].cb == ToLoad(s.threads[t].cb.k, s.threads[t].cb.locked)
    decreases |Remaining(s, t)|
  {
    hide Inv, Next, IsClosing;
    if Remaining(s, t) == {} {
      s' := Unlocks(cfg, s, t, r);
      more := [Unlock(t)];
    } else {
      var q, p := ClosesNext(cfg, s, t, r);
      var rest;
      rest, s' := ScanEnds(cfg, p, t, r);
      LeadsJoin(cfg, s, [CloseOne(t, q)], p, rest, s');
      more := [CloseOne(t, q)] + rest;
    }
  }

  // ------------------------------------------------------- missed is stranded

  /** Thread `t` is cleaning up after a failed stream and misses `r`, which waits; and no scan under way
      is bound to close it. */
  ghost predicate Overlooked(s: System, t: Tid, r: Req) {
    && Waiting(s, KeyOf(s, r), r) && t in s.threads && Misses(s.threads[t], s.cache.stores, KeyOf(s, r), r)
    && forall u :: u in s.threads ==> !WillReach(s.threads[u], s.cache.stores, r)
  }

  lemma OverlookedStays(s: System, s': System, t: Tid, r: Req)
    requires Inv(s) && Overlooked(s, t, r) && Undisturbed(s, s')
    ensures Overlooked(s', t, r)
  {
    assert ThreadOk(s, s.threads[t]);
  }

  /** A scan of another thread ends. */
  lemma OverlookedMoves(s: System, s': System, t: Tid, u: Tid, r: Req)
    requires Overlooked(s, t, r) && ScanMoves(s, s', u, r) && u != t && !s'.threads[u].cb.Closing?
    ensures Overlooked(s', t, r) && s'.reqs == s.reqs
  {}

  /** The lock of the downstream map can be had. */
  lemma MuIsFreed(cfg: Config, s: System, t: Tid, r: Req) returns (more: seq<Action>, s': System)
    requires Inv(s) && NoSends(s) && Overlooked(s, t, r)
    ensures Leads(cfg, s, more, s') && Inv(s') && NoSends(s') && Overlooked(s', t, r) && (s'.mu.None? || s'.mu == Some(t))
    ensures s'.reqs == s.reqs
  {
    hide Inv, Next, ScanMoves, Misses;
    if s.mu.None? || s.mu == Some(t) {
      more, s' := [], s;
    } else {
      var u := s.mu.value;
      HolderScans(s, u);
      more, s' := ScanEnds(cfg, s, u, r);
      OverlookedMoves(s, s', t, u, r);
    }
  }

  lemma HolderScans(s: System, u: Tid)
    requires Inv(s) && s.mu == Some(u)
    ensures IsClosing(s, u)
  {
    assert ThreadOk(s, s.threads[u]);
  }

  lemma CleanGoesOn(cfg: Config, s: System, t: Tid)
    requires CacheSpec.Valid(s.cache) && CanClean(s, t)
    ensures Next(cfg, s, Clean(t), DoClean(s, t))
  {
    hide CreateNext, FetchNext, EvictNext, SendNext, CacheSpec.Valid, DoClean;
  }

  lemma CleanBegins(cfg: Config, s: System, t: Tid, r: Req) returns (s': System)
    requires Inv(s) && NoSends(s) && Overlooked(s, t, r) && s.threads[t].cb.NoCallback?
    ensures Leads(cfg, s, [Clean(t)], s') && Inv(s') && NoSends(s') && Overlooked(s', t, r)
    ensures s'.mu == s.mu && s'.reqs == s.reqs && s'.threads[t].cb.ToLock?
  {
    hide Inv, Next, Leads, CacheSpec.Valid;
    CacheIsValid(s);
    WatchedIsKnown(s, t);
    s' := DoClean(s, t);
    CleanGoesOn(cfg, s, t);
    Single(cfg, s, Clean(t), s');
  }

  lemma WatchedIsKnown(s: System, t: Tid)
    requires Inv(s) && t in s.threads && s.threads[t].job.Watching?
    ensures s.threads[t].job.s in s.streams
  {
    assert HoldsOwn(s, t);
  }

  lemma LockBegins(cfg: Config, s: System, t: Tid, r: Req) returns (s': System)
    requires Inv(s) && NoSends(s) && Overlooked(s, t, r) && s.threads[t].cb.ToLock? && s.mu.None?
    ensures Leads(cfg, s, [Lock(t)], s') && Inv(s') && NoSends(s') && Overlooked(s', t, r) && IsClosing(s', t)
    ensures s'.reqs == s.reqs
  {
    hide Inv, Next, Leads, CacheSpec.Valid;
    CacheIsValid(s);
    StoreIsKnown(s, t);
    s' := DoLock(s, t);
    EvictGoesOn(cfg, s, Lock(t), s');
    Single(cfg, s, Lock(t), s');
  }

  lemma StoreIsKnown(s: System, t: Tid)
    requires Inv(s) && t in s.threads
    ensures s.threads[t].cb.ToLock? || s.threads[t].cb.Closing? ==> s.threads[t].cb.store in s.cache.stores
    ensures s.mu == Some(t) ==> s.threads[t].cb.Closing?
  {
    assert ThreadOk(s, s.threads[t]);
  }

  /** The clean-up comes to its scan. */
  lemma ScanBegins(cfg: Config, s: System, t: Tid, r: Req) returns (more: seq<Action>, s': System)
    requires Inv(s) && NoSends(s) && Overlooked(s, t, r) && (s.mu.None? || s.mu == Some(t)) && !PastScan(s, t, KeyOf(s, r))
    ensures Leads(cfg, s, more, s') && Inv(s') && NoSends(s') && Overlooked(s', t, r) && IsClosing(s', t)
    ensures s'.reqs == s.reqs
  {
    hide Inv, Next, Leads, NoSends;
    StoreIsKnown(s, t);
    if s.threads[t].cb.NoCallback? {
      var p := CleanBegins(cfg, s, t, r);
      s' := LockBegins(cfg, p, t, r);
      LeadsJoin(cfg, s, [Clean(t)], p, [Lock(t)], s');
      more := [Clean(t)] + [Lock(t)];
    } else if s.threads[t].cb.ToLock? {
      s' := LockBegins(cfg, s, t, r);
      more := [Lock(t)];
    } else {
      more, s' := [], s;
      assert Leads(cfg, s, [], s) by { Nothing(cfg, s); }
    }
  }

  lemma Nothing(cfg: Config, s: System)
    ensures Leads(cfg, s, [], s)
  {}

  /** From wherever it is, the clean-up can get past its scan with `r` still waiting. */
  lemma ScanIsPassed(cfg: Config, s: System, t: Tid, r: Req) returns (more: seq<Action>, s': System)
    requires Inv(s) && Overlooked(s, t, r)
    ensures Leads(cfg, s, more, s') && Waiting(s', KeyOf(s', r), r) && KeyOf(s', r) == KeyOf(s, r)
    ensures PastScan(s', t, KeyOf(s', r))
  {
    hide Inv, Next, Leads;
    var xs, p := SendsEnd(cfg, s, s.threads.Keys);
    OverlookedStays(s, p, t, r);
    var ys, q := MuIsFreed(cfg, p, t, r);
    LeadsJoin(cfg, s, xs, p, ys, q);
    more, s' := xs + ys, q;
    if !PastScan(q, t, KeyOf(q, r)) {
      var zs, b := ScanBegins(cfg, q, t, r);
      LeadsJoin(cfg, s, xs + ys, q, zs, b);
      var ws, e := ScanEnds(cfg, b, t, r);
      LeadsJoin(cfg, s, xs + ys + zs, b, ws, e);
      more, s' := xs + ys + zs + ws, e;
    }
  }

  /** Every request that waits and is missed by a clean-up, be it before, during or after the scan of it,
      can end up without a stream, unless a scan under way is bound to close its watch. */
  lemma MissedCanBeStranded(cfg: Config, now: int, acts: seq<Action>, s: System, t: Tid, r: Req)
    requires Reached(cfg, now, acts, s) && Waiting(s, KeyOf(s, r), r)
    requires t in s.threads && Misses(s.threads[t], s.cache.stores, KeyOf(s, r), r)
    requires forall u :: u in s.threads ==> !WillReach(s.threads[u], s.cache.stores, r)
    ensures exists more, s' :: Leads(cfg, s, more, s') && Waiting(s', KeyOf(s, r), r) && KeyOf(s, r) !in s'.up
  {
    hide Inv, Next, Leads, PastScan, Waiting;
    ReachedInv(cfg, now, acts, s);
    var more, p := ScanIsPassed(cfg, s, t, r);
    LeadsJoin(cfg, Init(now), acts, s, more, p);
    MissedIsStranded(cfg, now, acts + more, p, t, r);
    var rest, s' :| StrandingRun(cfg, p, t, r, rest, s');
    LeadsJoin(cfg, s, more, p, rest, s');
  }

  // -------------------------------------------------- the ended stream that stays

  /** The map holds the stream, which nobody watches any more. */
  ghost predicate EndedInMap(s: System, id: StreamId) {
    InMap(s, id) && id in s.streams && s.streams[id].phase.Ended?
  }

  /** The step takes the key out of the map. */
  ghost predicate Deletes(s: System, a: Action, k: Key) {
    a.Delete? && a.t in s.threads && s.threads[a.t].cb.ToDelete? && s.threads[a.t].cb.k == k
  }

  lemma PlainKeepsEnded(cfg: Config, s: System, a: Action, s': System)
    requires CacheSpec.Valid(s.cache) && CreateNext(cfg, s, a, s') && !a.OpenStream? && !a.Insert? && !a.Lose?
    ensures s'.up == s.up && s'.streams == s.streams
  {
    hide AddRequest, DeleteRequest, CacheSpec.Valid, AfterReturn, Closed, CanClose, Wants, Raise, Cached;
  }

  /** A stream in the map that has ended is not the one the thread brings. */
  lemma BringerKeepsEnded(s: System, t: Tid, id: StreamId)
    requires t in s.threads && HoldsOwn(s, t) && EndedInMap(s, id)
    ensures forall n :: CanOpenStream(s, t, n) ==> EndedInMap(DoOpenStream(s, t, n), id)
    ensures forall u :: CanInsert(s, t, u) ==> EndedInMap(DoInsert(s, t, u), id)
    ensures CanLose(s, t) ==> EndedInMap(DoLose(s, t), id)
  {
    hide AfterReturn, AfterInsert;
  }

  lemma CreateKeepsEnded(cfg: Config, s: System, a: Action, s': System, id: StreamId)
    requires CacheSpec.Valid(s.cache) && Owned(s) && CreateNext(cfg, s, a, s') && EndedInMap(s, id)
    ensures EndedInMap(s', id)
  {
    hide CacheSpec.Valid, HoldsOwn, DoOpenStream, DoInsert, DoLose;
    if a.OpenStream? || a.Insert? || a.Lose? {
      assert HoldsOwn(s, a.t);
      BringerKeepsEnded(s, a.t, id);
    } else {
      PlainKeepsEnded(cfg, s, a, s');
    }
  }

  lemma WatchKeepsEnded(cfg: Config, s: System, a: Action, s': System, id: StreamId)
    requires CacheSpec.Valid(s.cache) && WatchNext(cfg, s, a, s') && EndedInMap(s, id)
    ensures EndedInMap(s', id)
  {
    hide SetResponse, CacheSpec.Valid, Cached;
  }

  lemma RestKeepsEnded(cfg: Config, s: System, a: Action, s': System, id: StreamId)
    requires CacheSpec.Valid(s.cache) && EndedInMap(s, id) && !Deletes(s, a, id.key)
    requires FetchNext(cfg, s, a, s') || EvictNext(cfg, s, a, s') || SendNext(cfg, s, a, s')
    ensures EndedInMap(s', id)
  {
    hide CacheSpec.Valid, Quiet, OtherRemoval, OtherHolder, Raise;
  }

  /** No step but a deletion by a callback of its key replaces an ended stream in the map. */
  lemma EndedStays(cfg: Config, s: System, a: Action, s': System, id: StreamId)
    requires Inv(s) && Next(cfg, s, a, s') && EndedInMap(s, id) && !Deletes(s, a, id.key)
    ensures EndedInMap(s', id)
  {
    hide CreateNext, WatchNext, FetchNext, EvictNext, SendNext, CacheSpec.Valid, EndedInMap, Basics, Reachable;
    hide RelayCover.NoMiss, NonOverlapping, Owned;
    if CreateNext(cfg, s, a, s') {
      CreateKeepsEnded(cfg, s, a, s', id);
    } else if WatchNext(cfg, s, a, s') {
      WatchKeepsEnded(cfg, s, a, s', id);
    } else {
      RestKeepsEnded(cfg, s, a, s', id);
    }
  }

  /** `acts` leads from `s` to `s'`, and none of it takes `k` out of the map. */
  ghost predicate LeadsKeeping(cfg: Config, s: System, acts: seq<Action>, s': System, k: Key) {
    if acts == [] then s' == s
    else
      var init, a := acts[..|acts| - 1], acts[|acts| - 1];
      exists p :: LeadsKeeping(cfg, s, init, p, k) && Next(cfg, p, a, s') && !Deletes(p, a, k)
  }

  lemma {:induction false} EndedRemains(cfg: Config, s: System, more: seq<Action>, s': System, id: StreamId)
    requires Inv(s) && EndedInMap(s, id) && LeadsKeeping(cfg, s, more, s', id.key)
    ensures Inv(s') && EndedInMap(s', id)
  {
    hide Inv, Next, EndedInMap, Deletes;
    if more != [] {
      var init, a := more[..|more| - 1], more[|more| - 1];
      var p :| LeadsKeeping(cfg, s, init, p, id.key) && Next(cfg, p, a, s') && !Deletes(p, a, id.key);
      EndedRemains(cfg, s, init, p, id);
      NextKept(cfg, p, a, s');
      EndedStays(cfg, p, a, s', id);
    }
  }

  /** A failure that finds no cache entry leaves its ended stream in the map. Whatever happens then, until
      a callback deletes the key from the map, no request of the key has a live stream there: those that
      wait are not served, and those to come find the ended stream and open none. */
  lemma LeftBehind(cfg: Config, now: int, acts: seq<Action>, s: System, t: Tid, more: seq<Action>, s': System)
    requires Reached(cfg, now, acts, s) && CanClean(s, t) && s.threads[t].fetch == Got(Missing)
    requires InMap(s, s.threads[t].job.s)
    requires LeadsKeeping(cfg, DoClean(s, t), more, s', s.threads[t].job.s.key)
    ensures var k := s.threads[t].job.s.key;
      k in s'.up && !Live(s', s'.up[k])
  {
    hide Inv, Next, Leads, LeadsKeeping;
    ReachedInv(cfg, now, acts, s);
    CacheIsValid(s);
    CleanGoesOn(cfg, s, t);
    Single(cfg, s, Clean(t), DoClean(s, t));
    EndedRemains(cfg, DoClean(s, t), more, s', s.threads[t].job.s);
  }
}
