/**
 When a waiting client has a live stream: the theorems. A request that has been returned and whose watch
 is open is served unless its key is hasty, which only keys become of which a stream has failed or was
 removed by the shutdown; and a clean-up that misses a waiting request does leave it without a stream.
 */
module RelayWaiting {
  import opened Common
  import opened CacheSpec
  import opened Relay
  import opened RelayBasics
  import opened RelayReach
  import opened RelayStreams
  import opened RelaySteps
  import opened RelaySafety
  import opened RelayLive

  // ------------------------------------------------------------- what holds

  /** A clean-up after a failed stream of `k` is under way that has yet to close `r`'s watch. */
  ghost predicate WillClose(s: System, k: Key, r: Req) {
    exists t ::
      && t in s.threads && (s.threads[t].cb.ToLock? || s.threads[t].cb.Closing?)
      && s.threads[t].cb.k == k && !s.threads[t].cb.locked && !Misses(s.threads[t], s.cache.stores, k, r)
  }

  /** Unless its key is hasty, a waiting request has a live stream in the map, or is about to be closed by
      the clean-up of a failed one. */
  lemma WaitingIsServed(cfg: Config, now: int, acts: seq<Action>, s: System, k: Key, r: Req)
    requires Reached(cfg, now, acts, s) && Waiting(s, k, r) && k !in s.log.hasty
    ensures k in s.up && (Live(s, s.up[k]) || WillClose(s, k, r))
  {
    ReachedInv(cfg, now, acts, s);
    ReachedLive(cfg, now, acts, s);
    assert LiveOk(s, k);
    if !Live(s, s.up[k]) {
      var t :| t in s.threads && Removes(s.threads[t].cb, k);
      assert !Misses(s.threads[t], s.cache.stores, k, r);
      if s.threads[t].cb.locked {
        NobodyWaits(s, t, r);
      }
    }
  }

  /** A stream of `k` has failed and its clean-up is not over. */
  ghost predicate CleaningUp(s: System, k: Key) {
    exists t :: t in s.threads && Cleans(s.threads[t], k)
  }

  predicate Cleans(th: Thread, k: Key) {
    || (th.job.Watching? && th.job.s.key == k && th.job.wpc.ToFail?)
    || (!th.cb.NoCallback? && th.cb.k == k && !th.cb.locked)
  }

  /** The goroutine that watches `id` is waiting for responses or handing one on. */
  ghost predicate Receiving(s: System, id: StreamId) {
    && Live(s, id)
    && exists t ::
      && t in s.threads && s.streams[id].phase == Phase.Watched(t)
      && s.threads[t].job.Watching? && s.threads[t].job.s == id && !s.threads[t].job.wpc.ToFail?
  }

  lemma NobodyWillClose(s: System, k: Key, r: Req)
    requires !CleaningUp(s, k)
    ensures !WillClose(s, k, r)
  {
    hide Misses;
    assert forall t :: t in s.threads ==> !Cleans(s.threads[t], k);
  }

  /** While no failure is being cleaned up, a waiting request of a key that is not hasty has a stream in
      the map that is live and received from. */
  lemma WaitingHasStream(cfg: Config, now: int, acts: seq<Action>, s: System, k: Key, r: Req)
    requires Reached(cfg, now, acts, s) && Waiting(s, k, r) && k !in s.log.hasty && !CleaningUp(s, k)
    ensures k in s.up && s.up[k].key == k && Receiving(s, s.up[k])
  {
    hide Reached, CacheOk, ThreadsOk, WatchesOk, LocksOk, HistoryOk, Reachable, RelayCover.NoMiss, NonOverlapping;
    ReachedInv(cfg, now, acts, s);
    WaitingIsServed(cfg, now, acts, s, k, r);
    NobodyWillClose(s, k, r);
    var id := s.up[k];
    assert PhaseOk(s, id);
    assert !Cleans(s.threads[s.streams[id].phase.t], k);
  }

  // ------------------------------------------------------ keys without failures

  /** A thread cleans up for failed keys only. */
  predicate FailedOnly(th: Thread, failed: set<Key>) {
    && (th.job.Watching? && th.job.wpc.ToFail? ==> th.job.s.key in failed)
    && (!th.cb.NoCallback? && !th.cb.locked ==> th.cb.k in failed)
  }

  ghost predicate FailuresOk(s: System) {
    s.log.hasty <= s.log.failed && forall t :: t in s.threads ==> FailedOnly(s.threads[t], s.log.failed)
  }

  lemma MissersFailed(s: System)
    requires FailuresOk(s)
    ensures forall t, k, r :: t in s.threads && Misses(s.threads[t], s.cache.stores, k, r) ==> k in s.log.failed
  {
    forall t, k, r | t in s.threads && Misses(s.threads[t], s.cache.stores, k, r) ensures k in s.log.failed {
      assert FailedOnly(s.threads[t], s.log.failed);
    }
  }

  lemma CreateFailures(cfg: Config, s: System, a: Action, s': System)
    requires CacheSpec.Valid(s.cache) && FailuresOk(s) && CreateNext(cfg, s, a, s')
    ensures FailuresOk(s')
  {
    hide AddRequest, DeleteRequest, CacheSpec.Valid, Wants, Cached, Quiet, Misses;
    MissersFailed(s);
  }

  lemma WatchFailures(cfg: Config, s: System, a: Action, s': System)
    requires CacheSpec.Valid(s.cache) && FailuresOk(s) && WatchNext(cfg, s, a, s')
    ensures FailuresOk(s')
  {
    hide SetResponse, CacheSpec.Valid, Cached;
  }

  lemma FetchFailures(cfg: Config, s: System, a: Action, s': System)
    requires CacheSpec.Valid(s.cache) && FailuresOk(s) && FetchNext(cfg, s, a, s')
    ensures FailuresOk(s')
  {
    hide FetchLook, FetchReap, DeleteKey, Lookup, CacheSpec.Valid;
  }

  lemma EvictFailures(cfg: Config, s: System, a: Action, s': System)
    requires CacheSpec.Valid(s.cache) && FailuresOk(s) && EvictNext(cfg, s, a, s')
    ensures FailuresOk(s')
  {
    hide CacheSpec.Valid, Quiet, OtherRemoval;
  }

  lemma SendFailures(cfg: Config, s: System, a: Action, s': System)
    requires CacheSpec.Valid(s.cache) && FailuresOk(s) && SendNext(cfg, s, a, s')
    ensures FailuresOk(s')
  {
    hide CacheSpec.Valid, OtherHolder;
  }

  lemma FailuresKept(cfg: Config, s: System, a: Action, s': System)
    requires FailuresOk(s) && Next(cfg, s, a, s')
    ensures FailuresOk(s')
  {
    hide CreateNext, WatchNext, FetchNext, EvictNext, SendNext, FailuresOk, CacheSpec.Valid;
    if CreateNext(cfg, s, a, s') {
      CreateFailures(cfg, s, a, s');
    } else if WatchNext(cfg, s, a, s') {
      WatchFailures(cfg, s, a, s');
    } else if FetchNext(cfg, s, a, s') {
      FetchFailures(cfg, s, a, s');
    } else if EvictNext(cfg, s, a, s') {
      EvictFailures(cfg, s, a, s');
    } else {
      SendFailures(cfg, s, a, s');
    }
  }

  lemma {:induction false} ReachedFailures(cfg: Config, now: int, acts: seq<Action>, s: System)
    requires Reached(cfg, now, acts, s)
    ensures FailuresOk(s)
  {
    hide Next;
    if acts != [] {
      var init, a := acts[..|acts| - 1], acts[|acts| - 1];
      var p :| Leads(cfg, Init(now), init, p) && Next(cfg, p, a, s);
      ReachedFailures(cfg, now, init, p);
      FailuresKept(cfg, p, a, s);
    }
  }

  /** As long as no stream of its key has failed, nor been removed by the shutdown, every waiting request
      has a live stream that is received from, whatever is evicted, expires, is cleared or is cancelled,
      and whatever happens to other keys. */
  lemma UnfailedHasStream(cfg: Config, now: int, acts: seq<Action>, s: System, r: Req)
    requires Reached(cfg, now, acts, s) && r in s.returned && r in s.open && KeyOf(s, r) !in s.log.failed
    ensures KeyOf(s, r) in s.up && Receiving(s, s.up[KeyOf(s, r)])
  {
    hide Reached, Receiving;
    var k := KeyOf(s, r);
    ReachedFailures(cfg, now, acts, s);
    assert !CleaningUp(s, k) by {
      forall t | t in s.threads ensures !Cleans(s.threads[t], k) {
        assert FailedOnly(s.threads[t], s.log.failed);
      }
    }
    WaitingHasStream(cfg, now, acts, s, k, r);
  }

  predicate Disturbs(a: Action) { a.FailUp? || a.Shutdown? }

  lemma OthersFailNone(cfg: Config, s: System, a: Action, s': System)
    requires Next(cfg, s, a, s') && !Disturbs(a)
    ensures s'.log.failed == s.log.failed
  {
    hide CreateNext, WatchNext, FetchNext, EvictNext, SendNext, CacheSpec.Valid;
    if CreateNext(cfg, s, a, s') {
      CreateFailsNone(cfg, s, a, s');
    } else if WatchNext(cfg, s, a, s') {
      WatchFailsNone(cfg, s, a, s');
    } else {
      RestFailsNone(cfg, s, a, s');
    }
  }

  lemma CreateFailsNone(cfg: Config, s: System, a: Action, s': System)
    requires CacheSpec.Valid(s.cache) && CreateNext(cfg, s, a, s')
    ensures s'.log.failed == s.log.failed
  {}

  lemma WatchFailsNone(cfg: Config, s: System, a: Action, s': System)
    requires CacheSpec.Valid(s.cache) && WatchNext(cfg, s, a, s') && !Disturbs(a)
    ensures s'.log.failed == s.log.failed
  {}

  lemma RestFailsNone(cfg: Config, s: System, a: Action, s': System)
    requires CacheSpec.Valid(s.cache) && !Disturbs(a)
    requires FetchNext(cfg, s, a, s') || EvictNext(cfg, s, a, s') || SendNext(cfg, s, a, s')
    ensures s'.log.failed == s.log.failed
  {}

  lemma {:induction false} NothingFailed(cfg: Config, now: int, acts: seq<Action>, s: System)
    requires Reached(cfg, now, acts, s) && forall a :: a in acts ==> !Disturbs(a)
    ensures s.log.failed == {}
  {
    hide Next;
    if acts != [] {
      var init, a := acts[..|acts| - 1], acts[|acts| - 1];
      var p :| Leads(cfg, Init(now), init, p) && Next(cfg, p, a, s);
      NothingFailed(cfg, now, init, p);
      assert a in acts;
      OthersFailNone(cfg, p, a, s);
    }
  }

  /** So on a run without an upstream failure and without the shutdown: the stream is in the map, it is
      watched, and its `done` is open. */
  lemma CalmWaitingHasStream(cfg: Config, now: int, acts: seq<Action>, s: System, r: Req)
    requires Reached(cfg, now, acts, s) && forall a :: a in acts ==> !Disturbs(a)
    requires r in s.returned && r in s.open
    ensures var k := KeyOf(s, r);
      k in s.up && s.up[k] in s.streams && s.streams[s.up[k]].phase.Watched? && s.streams[s.up[k]].closes == 0
  {
    hide Reached;
    NothingFailed(cfg, now, acts, s);
    UnfailedHasStream(cfg, now, acts, s, r);
  }

  // ------------------------------------------------- what a hasty return costs

  /** `more`, at most three steps of thread `t`, leads to a state in which `r` still waits and its key has
      no stream in the map. */
  ghost predicate StrandingRun(cfg: Config, s: System, t: Tid, r: Req, more: seq<Action>, s': System) {
    && |more| <= 3 && (forall a :: a in more ==> Actor(a) == Some(t)) && Leads(cfg, s, more, s')
    && Waiting(s', KeyOf(s, r), r) && KeyOf(s, r) !in s'.up
  }

  /** A clean-up of `k` by thread `t` whose scan is over. */
  ghost predicate PastScan(s: System, t: Tid, k: Key) {
    && t in s.threads && !s.threads[t].cb.NoCallback? && s.threads[t].cb.k == k && !s.threads[t].cb.locked
    && !s.threads[t].cb.ToLock? && !s.threads[t].cb.Closing?
  }

  /** The steps left to it: it loads the stream, closes `done`, deletes the map entry; or finds none. */
  lemma LoadsOn(cfg: Config, s: System, t: Tid, r: Req) returns (a: Action, s': System)
    requires CacheSpec.Valid(s.cache) && PastScan(s, t, KeyOf(s, r)) && s.threads[t].cb.ToLoad? && Waiting(s, KeyOf(s, r), r)
    ensures Actor(a) == Some(t) && Next(cfg, s, a, s') && Waiting(s', KeyOf(s, r), r)
    ensures KeyOf(s, r) !in s'.up || (PastScan(s', t, KeyOf(s, r)) && s'.threads[t].cb.ToCloseDone?)
  {
    hide Next, CacheSpec.Valid, OtherRemoval;
    if s.threads[t].cb.k in s.up {
      a, s' := Load(t), DoLoad(s, t);
    } else {
      a, s' := LoadNone(t), DoLoadNone(s, t);
    }
    CanGoOn(cfg, s, a, s');
  }

  lemma ClosesOn(cfg: Config, s: System, t: Tid, r: Req) returns (s': System)
    requires CacheSpec.Valid(s.cache) && PastScan(s, t, KeyOf(s, r)) && s.threads[t].cb.ToCloseDone? && Waiting(s, KeyOf(s, r), r)
    requires s.threads[t].cb.s in s.streams
    ensures Next(cfg, s, CloseDone(t), s') && Waiting(s', KeyOf(s, r), r)
    ensures PastScan(s', t, KeyOf(s, r)) && s'.threads[t].cb.ToDelete?
  {
    hide Next, CacheSpec.Valid;
    s' := DoCloseDone(s, t);
    CanGoOn(cfg, s, CloseDone(t), s');
  }

  lemma DeletesOn(cfg: Config, s: System, t: Tid, r: Req) returns (s': System)
    requires CacheSpec.Valid(s.cache) && PastScan(s, t, KeyOf(s, r)) && s.threads[t].cb.ToDelete? && Waiting(s, KeyOf(s, r), r)
    ensures Next(cfg, s, Delete(t), s') && Waiting(s', KeyOf(s, r), r) && KeyOf(s, r) !in s'.up
  {
    hide Next, CacheSpec.Valid;
    s' := DoDelete(s, t);
    CanGoOn(cfg, s, Delete(t), s');
  }

  lemma CleanUpSteps(cfg: Config, s: System, t: Tid, r: Req) returns (a: Action, s': System)
    requires CacheSpec.Valid(s.cache) && PastScan(s, t, KeyOf(s, r)) && ClosesStored(s, s.threads[t].cb)
    requires Waiting(s, KeyOf(s, r), r)
    ensures Actor(a) == Some(t) && Next(cfg, s, a, s') && Waiting(s', KeyOf(s, r), r)
    ensures match s.threads[t].cb
      case ToLoad(_, _) => KeyOf(s, r) !in s'.up || (PastScan(s', t, KeyOf(s, r)) && s'.threads[t].cb.ToCloseDone?)
      case ToCloseDone(_, _, _) => PastScan(s', t, KeyOf(s, r)) && s'.threads[t].cb.ToDelete?
      case _ => KeyOf(s, r) !in s'.up
  {
    hide Next, CacheSpec.Valid, Waiting;
    if s.threads[t].cb.ToLoad? {
      a, s' := LoadsOn(cfg, s, t, r);
    } else if s.threads[t].cb.ToCloseDone? {
      a := CloseDone(t);
      s' := ClosesOn(cfg, s, t, r);
    } else {
      a := Delete(t);
      s' := DeletesOn(cfg, s, t, r);
    }
  }

  lemma CanGoOn(cfg: Config, s: System, a: Action, s': System)
    requires CacheSpec.Valid(s.cache)
    requires match a
      case Load(t) => CanLoad(s, t) && s' == DoLoad(s, t)
      case LoadNone(t) => CanLoadNone(s, t) && s' == DoLoadNone(s, t)
      case CloseDone(t) => CanCloseDone(s, t) && s' == DoCloseDone(s, t)
      case Delete(t) => CanDelete(s, t) && s' == DoDelete(s, t)
      case _ => false
    ensures Next(cfg, s, a, s')
  {
    hide CreateNext, WatchNext, FetchNext, SendNext, CacheSpec.Valid, DoLoad, DoLoadNone, DoCloseDone, DoDelete;
  }

  lemma ReadyToClean(s: System, t: Tid)
    requires Inv(s) && t in s.threads
    ensures CacheSpec.Valid(s.cache) && ClosesStored(s, s.threads[t].cb)
  {}

  lemma OneStep(cfg: Config, s: System, before: seq<Action>, p: System, a: Action, s': System)
    requires Leads(cfg, s, before, p) && Next(cfg, p, a, s')
    ensures Leads(cfg, s, before + [a], s')
  {
    assert (before + [a])[..|before + [a]| - 1] == before;
  }

  /** It does not recover by itself: a request that waits while the clean-up of its key is past its scan
      is left without a stream when that clean-up ends, which nothing can prevent it from doing. */
  lemma MissedIsStranded(cfg: Config, now: int, acts: seq<Action>, s: System, t: Tid, r: Req)
    requires Reached(cfg, now, acts, s) && Waiting(s, KeyOf(s, r), r) && PastScan(s, t, KeyOf(s, r))
    ensures exists more, s' :: StrandingRun(cfg, s, t, r, more, s')
  {
    hide Inv, Next, Waiting, CacheSpec.Valid, ClosesStored;
    ReachedInv(cfg, now, acts, s);
    ReadyToClean(s, t);
    var a, p := CleanUpSteps(cfg, s, t, r);
    OneStep(cfg, s, [], s, a, p);
    NextKept(cfg, s, a, p);
    if KeyOf(s, r) !in p.up {
      assert StrandingRun(cfg, s, t, r, [] + [a], p);
    } else {
      WaitingKey(p, KeyOf(s, r), r);
      ReadyToClean(p, t);
      var b, q := CleanUpSteps(cfg, p, t, r);
      OneStep(cfg, s, [] + [a], p, b, q);
      NextKept(cfg, p, b, q);
      if KeyOf(s, r) !in q.up {
        assert StrandingRun(cfg, s, t, r, [] + [a] + [b], q);
      } else {
        WaitingKey(q, KeyOf(s, r), r);
        ReadyToClean(q, t);
        var c, s' := CleanUpSteps(cfg, q, t, r);
        OneStep(cfg, s, [] + [a] + [b], q, c, s');
        assert StrandingRun(cfg, s, t, r, [] + [a] + [b] + [c], s');
      }
    }
  }

  lemma WaitingKey(s: System, k: Key, r: Req)
    requires Waiting(s, k, r)
    ensures KeyOf(s, r) == k
  {}
}
