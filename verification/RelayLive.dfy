/**
 When a waiting client has a live stream. A request whose `CreateWatch` has returned and whose watch is
 open finds the stream of its key in the map, watched and with `done` open, or a clean-up that is about
 to close its watch - unless the key is `hasty`: see `Relay.Log` for the three ways in which that comes
 about. An upstream failure alone does no harm: the clean-up closes everyone who returned before it
 looked the entry up.
 */
module RelayLive {
  import opened Common
  import opened CacheSpec
  import opened Relay
  import opened RelayBasics
  import opened RelayReach
  import opened RelayStreams
  import opened RelaySteps
  import opened RelaySafety

  /** `CreateWatch` has returned `r`, which maps to `k`, and its watch is open. */
  ghost predicate Waiting(s: System, k: Key, r: Req) {
    r in s.returned && r in s.open && KeyOf(s, r) == k
  }

  ghost predicate Live(s: System, id: StreamId) {
    id in s.streams && s.streams[id].phase.Watched? && s.streams[id].closes == 0
  }

  /** A callback for `k` that is not an eviction, or has closed `done`. */
  predicate Removes(cb: Callback, k: Key) {
    !cb.NoCallback? && cb.k == k && (!cb.locked || cb.ToDelete?)
  }

  ghost predicate BeingRemoved(s: System, k: Key) {
    exists t :: t in s.threads && Removes(s.threads[t].cb, k)
  }

  /** Waiting requests have a stream in the map; it is live, or a callback will remove it; and no clean-up
      misses one of them. */
  ghost predicate LiveOk(s: System, k: Key) {
    && (forall r :: Waiting(s, k, r) ==> k in s.up)
    && (k in s.up ==> Live(s, s.up[k]) || BeingRemoved(s, k))
    && (forall t, r :: t in s.threads && Waiting(s, k, r) ==> !Misses(s.threads[t], s.cache.stores, k, r))
  }

  /** An evicted entry is gone while its callback runs. */
  ghost predicate EvictedGone(s: System) {
    forall t :: t in s.threads && HoldsCache(s.threads[t]) ==> Lookup(s.cache.lru, s.threads[t].cb.k).None?
  }

  /** A watcher that has seen its stream fail runs a callback only after an expired fetch. */
  predicate FailingOk(th: Thread) {
    !th.cb.NoCallback? && th.job.Watching? && th.job.wpc.ToFail? ==> th.fetch == Got(Nil)
  }

  ghost predicate LiveInv(s: System) {
    && EvictedGone(s) && (forall t :: t in s.threads ==> FailingOk(s.threads[t]))
    && forall k :: k !in s.log.hasty ==> LiveOk(s, k)
  }

  // ------------------------------------------------------------ one step

  /** The thread misses nobody: no clean-up, or one that has yet to look the entry up. */
  predicate Harmless(th: Thread) {
    if th.cb.NoCallback? then th.job.Watching? && th.job.wpc.ToFail? && th.fetch.Got? ==> th.fetch.f.Nil?
    else th.cb.locked
  }

  ghost predicate StoresKeep(s: System, s': System) {
    forall id, r :: r in s'.open && InStore(s.cache.stores, id, r) ==> InStore(s'.cache.stores, id, r)
  }

  /** Nobody new waits. */
  ghost predicate WaitersStay(s: System, s': System) {
    forall k, r :: Waiting(s', k, r) ==> Waiting(s, k, r)
  }

  ghost predicate Starters(s: System, s': System, t: Tid) {
    && (forall x :: x in s.threads && x != t ==> x in s'.threads && s'.threads[x] == s.threads[x])
    && (forall x :: x in s'.threads && x != t && x !in s.threads ==> s'.threads[x].cb.NoCallback? && Harmless(s'.threads[x]))
  }

  /** What one step of `t` must do for `k` to stay served. */
  ghost predicate Steady(s: System, s': System, t: Tid, k: Key) {
    && WaitersStay(s, s') && StoresKeep(s, s') && Starters(s, s', t)
    && (k in s'.up <==> k in s.up) && (k in s.up ==> s'.up[k] == s.up[k])
    && (k in s.up && Live(s, s.up[k]) ==> Live(s', s.up[k]) || (t in s'.threads && Removes(s'.threads[t].cb, k)))
    && (t in s.threads && Removes(s.threads[t].cb, k) ==> t in s'.threads && Removes(s'.threads[t].cb, k))
    && (t in s'.threads ==> forall r :: Waiting(s', k, r) ==> !Misses(s'.threads[t], s'.cache.stores, k, r))
  }

  lemma SteadyKept(s: System, s': System, t: Tid, k: Key)
    requires LiveOk(s, k) && Steady(s, s', t, k)
    ensures LiveOk(s', k)
  {
    forall x, r | x in s'.threads && Waiting(s', k, r) ensures !Misses(s'.threads[x], s'.cache.stores, k, r) {
      if x != t && x in s.threads {
        assert !Misses(s.threads[x], s.cache.stores, k, r);
      }
    }
    if k in s'.up && !Live(s', s'.up[k]) && !Live(s, s.up[k]) {
      var x :| x in s.threads && Removes(s.threads[x].cb, k);
      assert Removes(s'.threads[x].cb, k);
    }
  }

  // ------------------------------------------------ steps that concern no key

  /** A thread without a callback moves on, and still has none, or an eviction's. */
  ghost predicate Mild(s: System, s': System, t: Tid) {
    && WaitersStay(s, s') && StoresKeep(s, s') && Starters(s, s', t)
    && s'.up == s.up && s'.log.hasty == s.log.hasty
    && (forall k :: k in s.up && Live(s, s.up[k]) ==> Live(s', s.up[k]))
    && (t in s.threads ==> s.threads[t].cb.NoCallback?)
    && (t in s'.threads ==> Harmless(s'.threads[t]))
  }

  lemma MildKept(s: System, s': System, t: Tid, k: Key)
    requires Mild(s, s', t) && LiveOk(s, k)
    ensures LiveOk(s', k)
  {
    hide LiveOk, WaitersStay, StoresKeep, Starters, Live;
    SteadyKept(s, s', t, k);
  }

  predicate Returns(a: Action) { a.SeeStream? || a.Insert? || a.Lose? }

  /** The steps that are not mild. */
  predicate Delicate(a: Action) { Returns(a) || a.Clean? || a.Look? || a.Reap? }

  lemma CreateWaiters(cfg: Config, s: System, a: Action, s': System)
    requires CacheSpec.Valid(s.cache) && s.returned <= s.reqs.Keys && CreateNext(cfg, s, a, s') && !Delicate(a)
    ensures WaitersStay(s, s')
  {
    hide AddRequest, DeleteRequest, CacheSpec.Valid, Wants, Cached, Quiet;
  }

  lemma CreateStores(cfg: Config, s: System, a: Action, s': System)
    requires CacheSpec.Valid(s.cache) && CreateNext(cfg, s, a, s') && !Delicate(a)
    requires forall t :: t in s.threads && s.threads[t].job.Cancelling? ==> s.threads[t].job.r !in s.open
    ensures StoresKeep(s, s')
  {
    hide CacheSpec.Valid, Wants, Cached, Quiet, Put;
  }

  lemma CreateStartersEnrolling(cfg: Config, s: System, a: Action, s': System)
    requires CacheSpec.Valid(s.cache) && CreateNext(cfg, s, a, s') && !Delicate(a)
    requires Enrols(a)
    ensures Starters(s, s', a.t) && (a.t in s.threads ==> s.threads[a.t].cb.NoCallback?)
    ensures a.t in s'.threads ==> Harmless(s'.threads[a.t])
    ensures s'.up == s.up && s'.log.hasty == s.log.hasty
    ensures forall k :: k in s.up && Live(s, s.up[k]) ==> Live(s', s.up[k])
  {
    hide AddRequest, DeleteRequest, CacheSpec.Valid, Wants, Cached, Quiet, AfterReturn, AfterInsert, CanClose, Closed, Raise;
  }

  lemma CreateStartersStreaming(cfg: Config, s: System, a: Action, s': System)
    requires CacheSpec.Valid(s.cache) && CreateNext(cfg, s, a, s') && !Delicate(a)
    requires !Enrols(a)
    ensures Starters(s, s', a.t) && (a.t in s.threads ==> s.threads[a.t].cb.NoCallback?)
    ensures a.t in s'.threads ==> Harmless(s'.threads[a.t])
    ensures s'.up == s.up && s'.log.hasty == s.log.hasty
    ensures forall k :: k in s.up && Live(s, s.up[k]) ==> Live(s', s.up[k])
  {
    hide AddRequest, DeleteRequest, CacheSpec.Valid, Wants, Cached, Quiet;
  }

  lemma CreateStarters(cfg: Config, s: System, a: Action, s': System)
    requires CacheSpec.Valid(s.cache) && CreateNext(cfg, s, a, s') && !Delicate(a)
    ensures Starters(s, s', a.t) && (a.t in s.threads ==> s.threads[a.t].cb.NoCallback?)
    ensures a.t in s'.threads ==> Harmless(s'.threads[a.t])
    ensures s'.up == s.up && s'.log.hasty == s.log.hasty
    ensures forall k :: k in s.up && Live(s, s.up[k]) ==> Live(s', s.up[k])
  {
    hide CreateNext, CacheSpec.Valid;
    if Enrols(a) {
      CreateStartersEnrolling(cfg, s, a, s');
    } else {
      CreateStartersStreaming(cfg, s, a, s');
    }
  }

  lemma CancellersClosed(s: System)
    requires ThreadsOk(s)
    ensures forall t :: t in s.threads && s.threads[t].job.Cancelling? ==> s.threads[t].job.r !in s.open
  {
    forall t | t in s.threads ensures ThreadOk(s, s.threads[t]) {}
  }

  lemma CreateMild(cfg: Config, s: System, a: Action, s': System)
    requires CacheSpec.Valid(s.cache) && WatchesOk(s) && ThreadsOk(s) && CreateNext(cfg, s, a, s') && !Delicate(a)
    ensures Mild(s, s', a.t)
  {
    hide CreateNext, ThreadsOk, WaitersStay, StoresKeep, Starters, Live, CacheSpec.Valid, Harmless;
    CancellersClosed(s);
    CreateWaiters(cfg, s, a, s');
    CreateStores(cfg, s, a, s');
    CreateStarters(cfg, s, a, s');
  }

  lemma WatchWaiters(cfg: Config, s: System, a: Action, s': System)
    requires CacheSpec.Valid(s.cache) && WatchNext(cfg, s, a, s') && !Delicate(a)
    ensures WaitersStay(s, s') && StoresKeep(s, s')
  {
    hide CacheSpec.Valid, Cached, Put;
  }

  lemma WatchStarters(cfg: Config, s: System, a: Action, s': System)
    requires CacheSpec.Valid(s.cache) && WatchNext(cfg, s, a, s') && !Delicate(a)
    ensures Starters(s, s', a.t) && (a.t in s.threads ==> s.threads[a.t].cb.NoCallback?)
    ensures a.t in s'.threads ==> Harmless(s'.threads[a.t])
    ensures s'.up == s.up && s'.log.hasty == s.log.hasty
    ensures forall k :: k in s.up && Live(s, s.up[k]) ==> Live(s', s.up[k])
  {
    hide SetResponse, CacheSpec.Valid, Cached;
  }

  lemma WatchMild(cfg: Config, s: System, a: Action, s': System)
    requires CacheSpec.Valid(s.cache) && WatchNext(cfg, s, a, s') && !Delicate(a)
    ensures Mild(s, s', a.t)
  {
    hide WatchNext, WaitersStay, StoresKeep, Starters, Live, CacheSpec.Valid, Harmless;
    WatchWaiters(cfg, s, a, s');
    WatchStarters(cfg, s, a, s');
  }

  lemma FetchMild(cfg: Config, s: System, a: Action, s': System)
    requires CacheSpec.Valid(s.cache) && FetchNext(cfg, s, a, s') && !Delicate(a)
    ensures Mild(s, s', a.t)
  {
    hide CacheSpec.Valid;
  }

  /** The clock and the receiver are nobody's thread: `t` is one that does not run. */
  lemma SendMild(cfg: Config, s: System, a: Action, s': System, t: Tid)
    requires CacheSpec.Valid(s.cache) && SendNext(cfg, s, a, s')
    requires if Actor(a).Some? then a.t == t else t !in s.threads
    ensures Mild(s, s', t)
  {
    hide CacheSpec.Valid, OtherHolder;
  }

  // ------------------------------------------------------- CreateWatch returns

  /** `log` differs from the log of `s` at most at the key of `r`, which is hasty there if a clean-up misses `r`. */
  ghost predicate LogOk(s: System, log: Log, r: Req) {
    && (forall k :: k != KeyOf(s, r) ==> (k in log.hasty <==> k in s.log.hasty))
    && (KeyOf(s, r) !in log.hasty ==> forall x :: x in s.threads ==> !Misses(s.threads[x], s.cache.stores, KeyOf(s, r), r))
  }

  lemma LogsOk(s: System, r: Req)
    ensures LogOk(s, AfterReturn(s, r), r) && LogOk(s, AfterInsert(s, r), r)
    ensures s.log.hasty <= AfterReturn(s, r).hasty
  {}

  /** `r`'s `CreateWatch` returns in thread `t`. */
  ghost predicate ReturnStep(s: System, s': System, t: Tid, r: Req) {
    && s'.returned == s.returned + {r} && s'.open == s.open && s'.reqs == s.reqs && s'.cache == s.cache
    && LogOk(s, s'.log, r) && KeyOf(s, r) in s'.up
    && (forall k :: k != KeyOf(s, r) ==> (k in s'.up <==> k in s.up) && (k in s.up ==> s'.up[k] == s.up[k]))
    && (KeyOf(s, r) in s.up ==> s'.up == s.up)
    && (KeyOf(s, r) !in s.up ==> Live(s', s'.up[KeyOf(s, r)]))
    && (forall k :: k in s.up && Live(s, s.up[k]) ==> Live(s', s.up[k]))
    && Starters(s, s', t) && t in s.threads && t in s'.threads
    && s.threads[t].cb.NoCallback? && s'.threads[t] == s.threads[t].(job := Finished)
  }

  lemma ReturnKept(s: System, s': System, t: Tid, r: Req, k: Key)
    requires ReturnStep(s, s', t, r) && k !in s'.log.hasty && LiveOk(s, k)
    ensures LiveOk(s', k)
  {
    forall x, q | x in s'.threads && Waiting(s', k, q) ensures !Misses(s'.threads[x], s'.cache.stores, k, q) {
      if x in s.threads && x != t {
        assert Waiting(s, k, q) || q == r;
        assert !Misses(s.threads[x], s.cache.stores, k, q);
      }
    }
    forall q | Waiting(s', k, q) ensures k in s'.up {
      assert Waiting(s, k, q) || q == r;
    }
    if k in s'.up && !Live(s', s'.up[k]) {
      var x :| x in s.threads && Removes(s.threads[x].cb, k);
      assert Removes(s'.threads[x].cb, k);
    }
  }

  lemma SeeStreamIs(s: System, t: Tid)
    requires CanSeeStream(s, t)
    ensures ReturnStep(s, DoSeeStream(s, t), t, s.threads[t].job.r)
  {
    hide AfterReturn, AfterInsert, LogOk;
    LogsOk(s, s.threads[t].job.r);
  }

  lemma InsertIs(s: System, t: Tid, u: Tid)
    requires CanInsert(s, t, u) && ThreadOk(s, s.threads[t]) && t in s.threads && HoldsOwn(s, t)
    requires forall k :: k in s.up ==> Stored(s, s.up[k])
    ensures ReturnStep(s, DoInsert(s, t, u), t, s.threads[t].job.r)
  {
    hide AfterReturn, AfterInsert, LogOk;
    LogsOk(s, s.threads[t].job.r);
  }

  lemma LoseIs(s: System, t: Tid)
    requires CanLose(s, t) && ThreadOk(s, s.threads[t]) && t in s.threads && HoldsOwn(s, t)
    requires forall k :: k in s.up ==> Stored(s, s.up[k])
    ensures ReturnStep(s, DoLose(s, t), t, s.threads[t].job.r)
  {
    hide AfterReturn, AfterInsert, LogOk;
    LogsOk(s, s.threads[t].job.r);
  }

  /** A new stream ends the haste of its key: it serves whoever waits, and nobody is about to miss anyone. */
  lemma InsertFresh(s: System, t: Tid, u: Tid, k: Key)
    requires CanInsert(s, t, u) && ThreadOk(s, s.threads[t])
    requires k in s.log.hasty && k !in DoInsert(s, t, u).log.hasty
    ensures LiveOk(DoInsert(s, t, u), k)
  {
    hide AfterReturn;
    LogsOk(s, s.threads[t].job.r);
  }

  lemma OnlyInsertCools(cfg: Config, s: System, a: Action, s': System)
    requires CacheSpec.Valid(s.cache) && CreateNext(cfg, s, a, s') && Returns(a) && !(s.log.hasty <= s'.log.hasty)
    ensures a.Insert?
  {
    hide CacheSpec.Valid, Misses, Cleaning;
  }

  lemma ReturnIs(cfg: Config, s: System, a: Action, s': System)
    requires CacheSpec.Valid(s.cache) && ThreadsOk(s) && Owned(s) && CreateNext(cfg, s, a, s') && Returns(a)
    ensures a.t in s.threads && s.threads[a.t].job.Creating? && ReturnStep(s, s', a.t, s.threads[a.t].job.r)
  {
    hide ReturnStep, DoSeeStream, DoInsert, DoLose, CacheSpec.Valid, Stored, HoldsOwn, ThreadOk;
    hide DoRegister, DoReject, DoAdd, DoPush, DoNoPush, DoOpenStream, DoCancel, DoForget;
    assert ThreadOk(s, s.threads[a.t]) && HoldsOwn(s, a.t);
    match a
    case SeeStream(t) => SeeStreamIs(s, t);
    case Insert(t, u) => InsertIs(s, t, u);
    case Lose(t) => LoseIs(s, t);
  }

  // ------------------------------------------------------------------- fetches

  /** While the cache lock is free, whoever waits is in the store of its key's entry. */
  lemma WaitersAtHome(s: System, k: Key, r: Req)
    requires WatchesOk(s) && Reachable(s) && s.cacheLock.None? && Waiting(s, k, r)
    ensures Lookup(s.cache.lru, k).Some? && InStore(s.cache.stores, Lookup(s.cache.lru, k).value.requests, r)
  {
    assert AtHome(s, r) || BeingClosed(s, r);
  }

  lemma LookSteady(s: System, t: Tid, k: Key)
    requires Basics(s) && CacheSpec.Valid(s.cache) && Reachable(s) && CanLook(s, t)
    ensures Steady(s, DoLook(s, t), t, k)
  {
    hide CacheOk, HistoryOk, LocksOk, Reachable, MsgOk, ValueOk, CacheSpec.Valid;
    assert ThreadOk(s, s.threads[t]);
    var s' := DoLook(s, t);
    forall r | Waiting(s', k, r) ensures !Misses(s'.threads[t], s'.cache.stores, k, r) {
      WaitersAtHome(s, k, r);
    }
  }

  lemma ReapSteady(s: System, t: Tid, k: Key)
    requires Basics(s) && CacheSpec.Valid(s.cache) && Reachable(s) && CanReap(s, t)
    ensures Steady(s, DoReap(s, t), t, k)
  {
    hide CacheOk, HistoryOk, LocksOk, Reachable, MsgOk, ValueOk, CacheSpec.Valid;
    assert ThreadOk(s, s.threads[t]);
    var s' := DoReap(s, t);
    forall r | Waiting(s', k, r) ensures !Misses(s'.threads[t], s'.cache.stores, k, r) {
      WaitersAtHome(s, k, r);
    }
  }

  // -------------------------------------------------------------- the clean-up

  lemma CleanSteady(s: System, t: Tid, k: Key)
    requires UpOk(s) && CanClean(s, t) && LiveOk(s, k) && k !in DoClean(s, t).log.hasty
    ensures Steady(s, DoClean(s, t), t, k)
  {
    var s' := DoClean(s, t);
    forall r | Waiting(s', k, r) ensures !Misses(s'.threads[t], s'.cache.stores, k, r) {
      assert Waiting(s, k, r) && !Misses(s.threads[t], s.cache.stores, k, r);
    }
  }

  lemma LockSteady(s: System, t: Tid, k: Key)
    requires CanLock(s, t) && LiveOk(s, k)
    ensures Steady(s, DoLock(s, t), t, k)
  {
    var s' := DoLock(s, t);
    forall q | Waiting(s', k, q) ensures Waiting(s, k, q) && !Misses(s.threads[t], s.cache.stores, k, q) {
      assert Waiting(s, k, q);
    }
  }

  lemma CloseOneSteady(s: System, t: Tid, r: Req, k: Key)
    requires CanCloseOne(s, t, r) && LiveOk(s, k)
    ensures Steady(s, DoCloseOne(s, t, r), t, k)
  {
    var s' := DoCloseOne(s, t, r);
    forall q | Waiting(s', k, q) ensures Waiting(s, k, q) && !Misses(s.threads[t], s.cache.stores, k, q) {
      assert Waiting(s, k, q);
    }
    hide Quiet;
  }

  lemma UnlockSteady(s: System, t: Tid, k: Key)
    requires CanUnlock(s, t) && LiveOk(s, k)
    ensures Steady(s, DoUnlock(s, t), t, k)
  {
    var s' := DoUnlock(s, t);
    forall q | Waiting(s', k, q) ensures Waiting(s, k, q) && !Misses(s.threads[t], s.cache.stores, k, q) {
      assert Waiting(s, k, q);
    }
    var cb := s.threads[t].cb;
    assert forall r :: r in cb.must && r in s.cache.stores[cb.store] ==> r in cb.visited by {
      forall r | r in cb.must && r in s.cache.stores[cb.store] ensures r in cb.visited {
        assert r in cb.must * s.cache.stores[cb.store];
      }
    }
  }

  lemma LoadSteady(s: System, t: Tid, k: Key)
    requires CanLoad(s, t) && LiveOk(s, k)
    ensures Steady(s, DoLoad(s, t), t, k)
  {
    var s' := DoLoad(s, t);
    forall q | Waiting(s', k, q) ensures Waiting(s, k, q) && !Misses(s.threads[t], s.cache.stores, k, q) {
      assert Waiting(s, k, q);
    }
    hide OtherRemoval;
  }

  lemma CloseDoneSteady(s: System, t: Tid, k: Key)
    requires UpOk(s) && CanCloseDone(s, t) && LiveOk(s, k) && s.threads[t].cb.s.key == s.threads[t].cb.k
    ensures Steady(s, DoCloseDone(s, t), t, k)
  {
    var s' := DoCloseDone(s, t);
    forall q | Waiting(s', k, q) ensures Waiting(s, k, q) && !Misses(s.threads[t], s.cache.stores, k, q) {
      assert Waiting(s, k, q);
    }
  }

  lemma ShutdownSteady(s: System, t: Tid, k0: Key, k: Key)
    requires CanShutdown(s, t, k0) && k != k0
    ensures Steady(s, DoShutdown(s, t, k0), t, k)
  {
    hide OtherRemoval;
  }

  /** Once an eviction's scan is over nobody waits for its key. */
  lemma NobodyWaits(s: System, t: Tid, r: Req)
    requires LocksOk(s) && WatchesOk(s) && Reachable(s) && EvictedGone(s) && t in s.threads && HoldsCache(s.threads[t])
    requires !s.threads[t].cb.ToLock? && !s.threads[t].cb.Closing?
    ensures !Waiting(s, s.threads[t].cb.k, r)
  {
    assert Waiting(s, s.threads[t].cb.k, r) ==> AtHome(s, r) || BeingClosed(s, r);
  }

  /** The end of a callback: whoever waited for its key has been closed, and the map holds nothing for it. */
  ghost predicate CallbackEnds(s: System, s': System, t: Tid) {
    && t in s.threads && !s.threads[t].cb.NoCallback? && s'.threads == s.threads[t := s.threads[t].(cb := NoCallback)]
    && s'.returned == s.returned && s'.open == s.open && s'.reqs == s.reqs && s'.cache == s.cache
    && s'.streams == s.streams && s'.up == s.up - {s.threads[t].cb.k}
    && s'.log == AfterCallback(s, s.threads[t].cb) && FailingOk(s.threads[t])
  }

  lemma EndKept(s: System, s': System, t: Tid, k: Key)
    requires CallbackEnds(s, s', t) && k !in s'.log.hasty
    requires k == s.threads[t].cb.k ==> forall r :: !Waiting(s, k, r)
    requires k !in s.log.hasty ==> LiveOk(s, k)
    ensures LiveOk(s', k)
  {
    if k == s.threads[t].cb.k {
      forall r ensures !Waiting(s', k, r) {
        assert !Waiting(s, k, r);
      }
    } else {
      forall x, r | x in s'.threads && Waiting(s', k, r) ensures !Misses(s'.threads[x], s'.cache.stores, k, r) {
        assert Waiting(s, k, r) && !Misses(s.threads[x], s.cache.stores, k, r);
      }
      forall r | Waiting(s', k, r) ensures k in s'.up {
        assert Waiting(s, k, r);
      }
      if k in s'.up && !Live(s', s'.up[k]) {
        var x :| x in s.threads && Removes(s.threads[x].cb, k);
        assert Removes(s'.threads[x].cb, k);
      }
    }
  }

  lemma EndNobody(s: System, t: Tid, r: Req)
    requires Inv(s) && LiveInv(s) && (CanDelete(s, t) || CanLoadNone(s, t))
    requires s.threads[t].cb.locked || s.threads[t].cb.k !in s.log.hasty
    ensures !Waiting(s, s.threads[t].cb.k, r)
  {
    if s.threads[t].cb.locked {
      NobodyWaits(s, t, r);
    } else {
      assert LiveOk(s, s.threads[t].cb.k);
      assert Misses(s.threads[t], s.cache.stores, s.threads[t].cb.k, r);
    }
  }

  // ------------------------------------------------------ what goes with it

  /** Who holds the cache lock held it before for the same key, the cache being left alone, or has just
      evicted the entry it holds it for. */
  ghost predicate GoneStep(s: System, s': System) {
    forall x :: x in s'.threads && HoldsCache(s'.threads[x]) ==>
      || Lookup(s'.cache.lru, s'.threads[x].cb.k).None?
      || (x in s.threads && HoldsCache(s.threads[x]) && s.threads[x].cb.k == s'.threads[x].cb.k && s'.cache.lru == s.cache.lru)
  }

  ghost predicate FailingsOk(s: System) { forall t :: t in s.threads ==> FailingOk(s.threads[t]) }

  lemma AddSide(cfg: Config, s: System, t: Tid, n: nat)
    requires CacheSpec.Valid(s.cache) && LocksOk(s) && FailingsOk(s) && CanAdd(s, t, n)
    ensures GoneStep(s, DoAdd(cfg, s, t, n)) && FailingsOk(DoAdd(cfg, s, t, n))
  {
    hide AddRequest, CacheSpec.Valid, Lookup;
    var r := s.threads[t].job.r;
    AddRequestEffect(s.cache, cfg, KeyOf(s, r), r, s.now, StoreId(KeyOf(s, r), n));
  }

  lemma OtherCreateSideEnrolling(cfg: Config, s: System, a: Action, s': System)
    requires CacheSpec.Valid(s.cache) && LocksOk(s) && FailingsOk(s) && CreateNext(cfg, s, a, s') && !a.Add?
    requires Enrols(a)
    ensures GoneStep(s, s') && FailingsOk(s')
  {
    hide DeleteRequest, CacheSpec.Valid, Wants, Cached, Quiet, AfterReturn, Lookup;
  }

  lemma OtherCreateSideStreaming(cfg: Config, s: System, a: Action, s': System)
    requires CacheSpec.Valid(s.cache) && LocksOk(s) && FailingsOk(s) && CreateNext(cfg, s, a, s') && !a.Add?
    requires !Enrols(a)
    ensures GoneStep(s, s') && FailingsOk(s')
  {
    hide DeleteRequest, CacheSpec.Valid, Wants, Cached, Quiet, AfterReturn, Lookup;
  }

  lemma OtherCreateSide(cfg: Config, s: System, a: Action, s': System)
    requires CacheSpec.Valid(s.cache) && LocksOk(s) && FailingsOk(s) && CreateNext(cfg, s, a, s') && !a.Add?
    ensures GoneStep(s, s') && FailingsOk(s')
  {
    hide CreateNext, CacheSpec.Valid;
    if Enrols(a) {
      OtherCreateSideEnrolling(cfg, s, a, s');
    } else {
      OtherCreateSideStreaming(cfg, s, a, s');
    }
  }

  lemma CreateSide(cfg: Config, s: System, a: Action, s': System)
    requires CacheSpec.Valid(s.cache) && LocksOk(s) && FailingsOk(s) && CreateNext(cfg, s, a, s')
    ensures GoneStep(s, s') && FailingsOk(s')
  {
    hide LocksOk, FailingsOk, GoneStep, DoAdd, CanAdd, CacheSpec.Valid;
    if a.Add? {
      AddSide(cfg, s, a.t, a.n);
    } else {
      OtherCreateSide(cfg, s, a, s');
    }
  }

  lemma SetUpSide(cfg: Config, s: System, t: Tid, n: nat)
    requires CacheSpec.Valid(s.cache) && LocksOk(s) && FailingsOk(s) && CanSetUp(s, t, n)
    ensures GoneStep(s, DoSetUp(cfg, s, t, n)) && FailingsOk(DoSetUp(cfg, s, t, n))
  {
    hide SetResponse, CacheSpec.Valid, Cached, Lookup;
    var j := s.threads[t].job;
    SetResponseEffect(s.cache, cfg, j.s.key, Msg(j.wpc.version, j.s, |s.sets|), s.now, StoreId(j.s.key, n));
  }

  lemma OtherWatchSide(cfg: Config, s: System, a: Action, s': System)
    requires CacheSpec.Valid(s.cache) && LocksOk(s) && FailingsOk(s) && WatchNext(cfg, s, a, s') && !a.SetUp?
    ensures GoneStep(s, s') && FailingsOk(s')
  {
    hide SetResponse, CacheSpec.Valid, Cached, Lookup;
  }

  lemma WatchSide(cfg: Config, s: System, a: Action, s': System)
    requires CacheSpec.Valid(s.cache) && LocksOk(s) && FailingsOk(s) && WatchNext(cfg, s, a, s')
    ensures GoneStep(s, s') && FailingsOk(s')
  {
    hide LocksOk, FailingsOk, GoneStep, DoSetUp, CanSetUp, CacheSpec.Valid;
    if a.SetUp? {
      SetUpSide(cfg, s, a.t, a.n);
    } else {
      OtherWatchSide(cfg, s, a, s');
    }
  }

  lemma FetchSide(cfg: Config, s: System, a: Action, s': System)
    requires CacheSpec.Valid(s.cache) && LocksOk(s) && FailingsOk(s) && FetchNext(cfg, s, a, s')
    ensures GoneStep(s, s') && FailingsOk(s')
  {
    hide CacheSpec.Valid;
  }

  lemma EvictSide(cfg: Config, s: System, a: Action, s': System)
    requires CacheSpec.Valid(s.cache) && FailingsOk(s) && EvictNext(cfg, s, a, s')
    ensures GoneStep(s, s') && FailingsOk(s')
  {
    hide CacheSpec.Valid, Quiet, OtherRemoval, AfterCallback;
  }

  lemma SendSide(cfg: Config, s: System, a: Action, s': System)
    requires CacheSpec.Valid(s.cache) && FailingsOk(s) && SendNext(cfg, s, a, s')
    ensures GoneStep(s, s') && FailingsOk(s')
  {
    hide CacheSpec.Valid, OtherHolder;
  }

  lemma SideKept(cfg: Config, s: System, a: Action, s': System)
    requires Basics(s) && EvictedGone(s) && FailingsOk(s) && Next(cfg, s, a, s')
    ensures EvictedGone(s') && FailingsOk(s')
  {
    hide CreateNext, WatchNext, FetchNext, EvictNext, SendNext, FailingsOk, CacheSpec.Valid;
    hide CacheOk, ThreadsOk, WatchesOk, LocksOk, HistoryOk;
    if CreateNext(cfg, s, a, s') {
      CreateSide(cfg, s, a, s');
    } else if WatchNext(cfg, s, a, s') {
      WatchSide(cfg, s, a, s');
    } else if FetchNext(cfg, s, a, s') {
      FetchSide(cfg, s, a, s');
    } else if EvictNext(cfg, s, a, s') {
      EvictSide(cfg, s, a, s');
    } else {
      SendSide(cfg, s, a, s');
    }
  }

  // ------------------------------------------------------------ all together

  /** Hasty keys stay so, but for the end of an eviction. */
  predicate Ends(a: Action) { a.Delete? || a.LoadNone? }

  lemma CreateLive(cfg: Config, s: System, a: Action, s': System, k: Key)
    requires Inv(s) && LiveInv(s) && CacheSpec.Valid(s.cache) && CreateNext(cfg, s, a, s') && k !in s'.log.hasty
    ensures LiveOk(s', k)
  {
    hide Reachable, StreamsOk, RelayCover.NoMiss, CacheOk, LocksOk, HistoryOk, CreateNext, LiveOk, CacheSpec.Valid;
    hide ThreadsOk, WatchesOk, Owned;
    if Returns(a) {
      StreamsAreOwned(s);
      ReturnIs(cfg, s, a, s');
      if k in s.log.hasty {
        CoolingIsInsert(cfg, s, a, s', k);
      } else {
        ReturnKept(s, s', a.t, s.threads[a.t].job.r, k);
      }
    } else {
      OnlyCreates(cfg, s, a, s');
      CreateMild(cfg, s, a, s');
      MildKept(s, s', a.t, k);
    }
  }

  lemma CoolingIsInsert(cfg: Config, s: System, a: Action, s': System, k: Key)
    requires CacheSpec.Valid(s.cache) && ThreadsOk(s) && CreateNext(cfg, s, a, s') && Returns(a)
    requires k in s.log.hasty && k !in s'.log.hasty
    ensures LiveOk(s', k)
  {
    hide CacheSpec.Valid, ThreadOk, LiveOk, DoInsert, DoSeeStream, DoLose;
    OnlyInsertCools(cfg, s, a, s');
    assert ThreadOk(s, s.threads[a.t]);
    InsertFresh(s, a.t, a.u, k);
  }

  lemma StreamsAreOwned(s: System)
    requires StreamsOk(s)
    ensures Owned(s)
  {}

  lemma OnlyCreates(cfg: Config, s: System, a: Action, s': System)
    requires CacheSpec.Valid(s.cache) && CreateNext(cfg, s, a, s') && !Returns(a)
    ensures !Delicate(a) && !a.Tick? && !a.Consume? && s'.log.hasty == s.log.hasty
  {
    hide CacheSpec.Valid;
  }

  lemma WatchLive(cfg: Config, s: System, a: Action, s': System, k: Key)
    requires Basics(s) && LiveInv(s) && CacheSpec.Valid(s.cache) && WatchNext(cfg, s, a, s') && k !in s'.log.hasty
    ensures LiveOk(s', k)
  {
    hide CacheOk, ThreadsOk, WatchesOk, LocksOk, HistoryOk, LiveOk, CacheSpec.Valid, Steady, Mild;
    if a.Clean? {
      CleanSteady(s, a.t, k);
      SteadyKept(s, s', a.t, k);
    } else {
      assert !Delicate(a);
      WatchMild(cfg, s, a, s');
      assert s'.log.hasty == s.log.hasty;
      MildKept(s, s', a.t, k);
    }
  }

  lemma FetchLive(cfg: Config, s: System, a: Action, s': System, k: Key)
    requires Basics(s) && Reachable(s) && LiveInv(s) && CacheSpec.Valid(s.cache) && FetchNext(cfg, s, a, s')
    requires k !in s'.log.hasty
    ensures LiveOk(s', k)
  {
    hide CacheOk, ThreadsOk, WatchesOk, LocksOk, HistoryOk, Reachable, LiveOk, CacheSpec.Valid, Steady, Mild;
    if a.Look? {
      LookSteady(s, a.t, k);
      SteadyKept(s, s', a.t, k);
    } else if a.Reap? {
      ReapSteady(s, a.t, k);
      SteadyKept(s, s', a.t, k);
    } else {
      FetchMild(cfg, s, a, s');
      MildKept(s, s', a.t, k);
    }
  }

  lemma EvictSteady(cfg: Config, s: System, a: Action, s': System, k: Key)
    requires ThreadsOk(s) && UpOk(s) && LiveOk(s, k) && CacheSpec.Valid(s.cache) && EvictNext(cfg, s, a, s') && !Ends(a)
    requires k !in s'.log.hasty
    ensures Steady(s, s', a.t, k)
  {
    hide UpOk, LiveOk, CacheSpec.Valid, Steady, Quiet, OtherRemoval;
    match a
    case Lock(t) => LockSteady(s, t, k);
    case CloseOne(t, r) => CloseOneSteady(s, t, r, k);
    case Unlock(t) => UnlockSteady(s, t, k);
    case Load(t) => LoadSteady(s, t, k);
    case CloseDone(t) => assert ThreadOk(s, s.threads[t]); CloseDoneSteady(s, t, k);
    case Shutdown(t, q) => ShutdownSteady(s, t, q, k);
  }

  lemma EvictKeepsHaste(cfg: Config, s: System, a: Action, s': System)
    requires CacheSpec.Valid(s.cache) && EvictNext(cfg, s, a, s') && !Ends(a)
    ensures s.log.hasty <= s'.log.hasty && Actor(a).Some?
  {
    hide CacheSpec.Valid, Quiet, OtherRemoval;
  }

  lemma EvictLive(cfg: Config, s: System, a: Action, s': System, k: Key)
    requires Basics(s) && LiveInv(s) && CacheSpec.Valid(s.cache) && EvictNext(cfg, s, a, s') && !Ends(a)
    requires k !in s'.log.hasty
    ensures LiveOk(s', k)
  {
    hide EvictNext, CacheOk, ThreadsOk, WatchesOk, LocksOk, HistoryOk, UpOk, LiveOk, CacheSpec.Valid, Steady;
    EvictKeepsHaste(cfg, s, a, s');
    EvictSteady(cfg, s, a, s', k);
    SteadyKept(s, s', a.t, k);
  }

  lemma EndIs(cfg: Config, s: System, a: Action, s': System)
    requires CacheSpec.Valid(s.cache) && FailingsOk(s) && EvictNext(cfg, s, a, s') && Ends(a)
    ensures (CanDelete(s, a.t) || CanLoadNone(s, a.t)) && CallbackEnds(s, s', a.t)
  {
    hide CacheSpec.Valid;
    if a.LoadNone? {
      assert s.up - {s.threads[a.t].cb.k} == s.up;
    }
  }

  lemma EndLive(cfg: Config, s: System, a: Action, s': System, k: Key)
    requires Inv(s) && LiveInv(s) && CacheSpec.Valid(s.cache) && EvictNext(cfg, s, a, s') && Ends(a)
    requires k !in s'.log.hasty
    ensures LiveOk(s', k)
  {
    hide Inv, EvictNext, LiveOk, CacheSpec.Valid, EvictedGone;
    EndIs(cfg, s, a, s');
    if k == s.threads[a.t].cb.k {
      forall r ensures !Waiting(s, k, r) {
        EndNobody(s, a.t, r);
      }
    }
    EndKept(s, s', a.t, k);
  }

  lemma SendLive(cfg: Config, s: System, a: Action, s': System, k: Key)
    requires LiveInv(s) && CacheSpec.Valid(s.cache) && SendNext(cfg, s, a, s') && k !in s'.log.hasty
    ensures LiveOk(s', k)
  {
    hide LiveOk, CacheSpec.Valid, SendNext;
    var t := if Actor(a).Some? then a.t else NewTid(s);
    SendMild(cfg, s, a, s', t);
    MildKept(s, s', t, k);
  }

  lemma LiveKept(cfg: Config, s: System, a: Action, s': System)
    requires Inv(s) && LiveInv(s) && Next(cfg, s, a, s')
    ensures LiveInv(s')
  {
    hide Basics, Reachable, StreamsOk, RelayCover.NoMiss, CreateNext, WatchNext, FetchNext, EvictNext, SendNext, LiveOk, CacheSpec.Valid;
    hide EvictedGone, FailingOk;
    SideKept(cfg, s, a, s');
    forall k | k !in s'.log.hasty ensures LiveOk(s', k) {
      if CreateNext(cfg, s, a, s') {
        CreateLive(cfg, s, a, s', k);
      } else if WatchNext(cfg, s, a, s') {
        WatchLive(cfg, s, a, s', k);
      } else if FetchNext(cfg, s, a, s') {
        FetchLive(cfg, s, a, s', k);
      } else if EvictNext(cfg, s, a, s') {
        if Ends(a) {
          EndLive(cfg, s, a, s', k);
        } else {
          EvictLive(cfg, s, a, s', k);
        }
      } else {
        SendLive(cfg, s, a, s', k);
      }
    }
  }

  lemma {:induction false} ReachedLive(cfg: Config, now: int, acts: seq<Action>, s: System)
    requires Reached(cfg, now, acts, s)
    ensures LiveInv(s)
  {
    if acts != [] {
      hide Inv, Next, LiveInv;
      var init, a := acts[..|acts| - 1], acts[|acts| - 1];
      var p :| Leads(cfg, Init(now), init, p) && Next(cfg, p, a, s);
      ReachedInv(cfg, now, init, p);
      ReachedLive(cfg, now, init, p);
      LiveKept(cfg, p, a, s);
    }
  }
}
