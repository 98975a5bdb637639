/** What holds in every state the relay can reach, stated in the relay's own terms. */
module RelaySafety {
  import opened Common
  import opened CacheSpec
  import opened Relay
  import opened RelayBasics
  import opened RelayReach
  import opened RelayStreams
  import opened RelayCover
  import opened RelaySteps

  lemma EnrolKept(cfg: Config, s: System, a: Action, s': System)
    requires Inv(s) && CacheSpec.Valid(s.cache) && CreateNext(cfg, s, a, s') && Enrols(a)
    ensures Inv(s')
  {
    hide Inv, CanRegister, DoRegister, CanReject, DoReject, CanAdd, DoAdd, CanPush, DoPush, CanNoPush, DoNoPush;
    match a
    case Register(t, r, info) => RegisterKept(s, t, r, info);
    case Reject(t) => RejectKept(s, t);
    case Add(t, n) => AddKept(cfg, s, t, n);
    case Push(t, u) => PushKept(s, t, u);
    case NoPush(t) => NoPushKept(s, t);
  }

  lemma StreamingKept(cfg: Config, s: System, a: Action, s': System)
    requires Inv(s) && CacheSpec.Valid(s.cache) && CreateNext(cfg, s, a, s') && !Enrols(a)
    ensures Inv(s')
  {
    hide Inv, CanSeeStream, DoSeeStream, CanOpenStream, DoOpenStream, CanInsert, DoInsert, CanLose, DoLose, CanCancel;
    hide DoCancel, CanForget, DoForget;
    match a
    case SeeStream(t) => SeeStreamKept(s, t);
    case OpenStream(t, n) => OpenStreamKept(s, t, n);
    case Insert(t, u) => InsertKept(s, t, u);
    case Lose(t) => LoseKept(s, t);
    case Cancel(t, r) => CancelKept(s, t, r);
    case Forget(t) => ForgetKept(cfg, s, t);
  }

  lemma CreateKept(cfg: Config, s: System, a: Action, s': System)
    requires Inv(s) && CacheSpec.Valid(s.cache) && CreateNext(cfg, s, a, s')
    ensures Inv(s')
  {
    hide Inv, CreateNext, CacheSpec.Valid;
    if Enrols(a) {
      EnrolKept(cfg, s, a, s');
    } else {
      StreamingKept(cfg, s, a, s');
    }
  }

  lemma WatchKept(cfg: Config, s: System, a: Action, s': System)
    requires Inv(s) && CacheSpec.Valid(s.cache) && WatchNext(cfg, s, a, s')
    ensures Inv(s')
  {
    hide Inv, CanReceiveUp, DoReceiveUp, CanSetUp, DoSetUp, CanStartScan, DoStartScan, CanFan, DoFan, CanEndScan;
    hide DoEndScan, DoFailUp, CanClean, DoClean, CanStop, DoStop;
    match a
    case ReceiveUp(t, version) => ReceiveUpKept(s, t, version);
    case SetUp(t, n) => SetUpKept(cfg, s, t, n);
    case StartScan(t) => StartScanKept(s, t);
    case Fan(t, u, r) => FanKept(s, t, u, r);
    case EndScan(t) => EndScanKept(s, t);
    case FailUp(t) => FailUpKept(s, t);
    case Clean(t) => CleanKept(s, t);
    case Stop(t) => StopKept(s, t);
  }

  lemma FetchKept(cfg: Config, s: System, a: Action, s': System)
    requires Inv(s) && CacheSpec.Valid(s.cache) && FetchNext(cfg, s, a, s')
    ensures Inv(s')
  {
    hide Inv, CanLook, DoLook, CanReap, DoReap, DoRead, CanClearKey, DoClearKey;
    match a
    case Look(t) => LookKept(s, t);
    case Reap(t) => ReapKept(s, t);
    case Read(t, k) => ReadKept(s, t, k);
    case ClearKey(t, k) => ClearKeyKept(s, t, k);
  }

  lemma EvictKept(cfg: Config, s: System, a: Action, s': System)
    requires Inv(s) && CacheSpec.Valid(s.cache) && EvictNext(cfg, s, a, s')
    ensures Inv(s')
  {
    hide Inv, CanLock, DoLock, CanCloseOne, DoCloseOne, CanUnlock, DoUnlock, CanLoad, DoLoad, CanLoadNone;
    hide DoLoadNone, CanCloseDone, DoCloseDone, CanDelete, DoDelete, CanShutdown, DoShutdown;
    match a
    case Lock(t) => LockKept(s, t);
    case CloseOne(t, r) => CloseOneKept(s, t, r);
    case Unlock(t) => UnlockKept(s, t);
    case Load(t) => LoadKept(s, t);
    case LoadNone(t) => LoadNoneKept(s, t);
    case CloseDone(t) => CloseDoneKept(s, t);
    case Delete(t) => DeleteKept(s, t);
    case Shutdown(t, k) => ShutdownKept(s, t, k);
  }

  lemma SendKept(cfg: Config, s: System, a: Action, s': System)
    requires Inv(s) && CacheSpec.Valid(s.cache) && SendNext(cfg, s, a, s')
    ensures Inv(s')
  {
    hide Inv, CanGet, DoGet, CanEnter, DoEnter, CanDrain, DoDrain, CanWrite, DoWrite, CanConsume, DoConsume;
    hide CanExit;
    match a
    case Tick(d) => TickKept(s, d, NewTid(s));
    case Get(t) => GetKept(s, t);
    case Enter(t) => EnterKept(s, t);
    case Drain(t) => DrainKept(s, t);
    case Write(t) => WriteKept(s, t);
    case Consume(r) => ConsumeKept(s, r, NewTid(s));
    case Exit(t) => ExitKept(s, t);
  }

  /** Every action keeps every invariant. */
  lemma NextKept(cfg: Config, s: System, a: Action, s': System)
    requires Inv(s) && Next(cfg, s, a, s')
    ensures Inv(s')
  {
    hide Inv, CreateNext, WatchNext, FetchNext, EvictNext, SendNext;
    if CreateNext(cfg, s, a, s') {
      CreateKept(cfg, s, a, s');
    } else if WatchNext(cfg, s, a, s') {
      WatchKept(cfg, s, a, s');
    } else if FetchNext(cfg, s, a, s') {
      FetchKept(cfg, s, a, s');
    } else if EvictNext(cfg, s, a, s') {
      EvictKept(cfg, s, a, s');
    } else {
      SendKept(cfg, s, a, s');
    }
  }

  ghost function Max(ts: set<Tid>): (m: Tid)
    ensures forall t :: t in ts ==> t <= m
  {
    if ts == {} then 0
    else
      var t :| t in ts;
      var m := Max(ts - {t});
      assert ts == ts - {t} + {t};
      if t > m then t else m
  }

  /** A thread name not in use. */
  ghost function NewTid(s: System): (t: Tid)
    ensures t !in s.threads
  {
    Max(s.threads.Keys) + 1
  }

  /** `acts` leads from `s` to `s'`. */
  ghost predicate Leads(cfg: Config, s: System, acts: seq<Action>, s': System) {
    if acts == [] then s' == s
    else
      var init, a := acts[..|acts| - 1], acts[|acts| - 1];
      exists p :: Leads(cfg, s, init, p) && Next(cfg, p, a, s')
  }

  /** `acts` leads from the empty relay to `s`. */
  ghost predicate Reached(cfg: Config, now: int, acts: seq<Action>, s: System) {
    Leads(cfg, Init(now), acts, s)
  }

  lemma {:induction false} LeadsKeeps(cfg: Config, s: System, acts: seq<Action>, s': System)
    requires Inv(s) && Leads(cfg, s, acts, s')
    ensures Inv(s')
  {
    if acts != [] {
      var p :| Leads(cfg, s, acts[..|acts| - 1], p) && Next(cfg, p, acts[|acts| - 1], s');
      LeadsKeeps(cfg, s, acts[..|acts| - 1], p);
      NextKept(cfg, p, acts[|acts| - 1], s');
    }
  }

  lemma {:induction false} LeadsJoin(cfg: Config, s: System, first: seq<Action>, p: System, second: seq<Action>, s': System)
    requires Leads(cfg, s, first, p) && Leads(cfg, p, second, s')
    ensures Leads(cfg, s, first + second, s')
    decreases |second|
  {
    hide Next;
    if second == [] {
      assert first + second == first;
    } else {
      var init, a := second[..|second| - 1], second[|second| - 1];
      var q :| Leads(cfg, p, init, q) && Next(cfg, q, a, s');
      LeadsJoin(cfg, s, first, p, init, q);
      assert (first + second)[..|first + second| - 1] == first + init;
    }
  }

  /** Every reachable state, however many calls and goroutines have interleaved in whatever way. */
  lemma ReachedInv(cfg: Config, now: int, acts: seq<Action>, s: System)
    requires Reached(cfg, now, acts, s)
    ensures Inv(s)
  {
    assert Inv(Init(now));
    LeadsKeeps(cfg, Init(now), acts, s);
  }

  // ------------------------------------------------------------- watches

  /** A watch is closed, once, if and only if it has left the downstream map, and whoever is about to
      write to a watch finds it open. */
  lemma WatchClosedOnce(cfg: Config, now: int, acts: seq<Action>, s: System, r: Req)
    requires Reached(cfg, now, acts, s) && r in s.watches
    ensures s.watches[r].closes == if r in s.open then 0 else 1
    ensures forall t :: t in s.threads && Holds(s.threads[t], r) ==> !s.watches[r].Closed()
  {
    ReachedInv(cfg, now, acts, s);
    forall t | t in s.threads && Holds(s.threads[t], r) ensures !s.watches[r].Closed() {
      assert ThreadOk(s, s.threads[t]);
    }
  }

  /** What waits in a watch came in on a stream opened for the watch's own key. */
  lemma KeyIsolation(cfg: Config, now: int, acts: seq<Action>, s: System, r: Req)
    requires Reached(cfg, now, acts, s) && r in s.watches && s.watches[r].held.Some?
    ensures var id := s.watches[r].held.value.stream;
            id in s.streams && r in s.reqs && s.reqs[r].key == Some(id.key)
  {
    ReachedInv(cfg, now, acts, s);
    assert WatchOk(s.reqs, s.open, s.sets, r, s.watches[r]);
    assert s.watches[r].held.value in s.sets;
  }

  ghost predicate Silent(s: System, s': System, r: Req)
    requires r in s.watches
  {
    && r in s'.watches && r !in s'.open
    && s'.watches[r].writes == s.watches[r].writes
    && (s'.watches[r].held == s.watches[r].held || s'.watches[r].held.None?)
  }

  predicate TouchesWatches(a: Action) {
    a.Register? || a.Reject? || a.Cancel? || a.CloseOne? || a.Drain? || a.Write? || a.Consume?
  }

  ghost predicate SameWatches(s: System, s': System) { s'.watches == s.watches && s'.open == s.open }

  lemma CreateLeavesWatches(cfg: Config, s: System, a: Action, s': System)
    requires CacheSpec.Valid(s.cache) && CreateNext(cfg, s, a, s') && !TouchesWatches(a)
    ensures SameWatches(s, s')
  {}

  lemma WatchLeavesWatches(cfg: Config, s: System, a: Action, s': System)
    requires CacheSpec.Valid(s.cache) && WatchNext(cfg, s, a, s') && !TouchesWatches(a)
    ensures SameWatches(s, s')
  {}

  lemma FetchLeavesWatches(cfg: Config, s: System, a: Action, s': System)
    requires CacheSpec.Valid(s.cache) && FetchNext(cfg, s, a, s') && !TouchesWatches(a)
    ensures SameWatches(s, s')
  {}

  lemma EvictLeavesWatches(cfg: Config, s: System, a: Action, s': System)
    requires CacheSpec.Valid(s.cache) && EvictNext(cfg, s, a, s') && !TouchesWatches(a)
    ensures SameWatches(s, s')
  {}

  lemma SendLeavesWatches(cfg: Config, s: System, a: Action, s': System)
    requires CacheSpec.Valid(s.cache) && SendNext(cfg, s, a, s') && !TouchesWatches(a)
    ensures SameWatches(s, s')
  {}

  lemma OthersLeaveWatches(cfg: Config, s: System, a: Action, s': System)
    requires Next(cfg, s, a, s') && !TouchesWatches(a)
    ensures SameWatches(s, s')
  {
    hide CreateNext, WatchNext, FetchNext, EvictNext, SendNext, SameWatches, TouchesWatches, CacheSpec.Valid;
    if CreateNext(cfg, s, a, s') {
      CreateLeavesWatches(cfg, s, a, s');
    } else if WatchNext(cfg, s, a, s') {
      WatchLeavesWatches(cfg, s, a, s');
    } else if FetchNext(cfg, s, a, s') {
      FetchLeavesWatches(cfg, s, a, s');
    } else if EvictNext(cfg, s, a, s') {
      EvictLeavesWatches(cfg, s, a, s');
    } else {
      SendLeavesWatches(cfg, s, a, s');
    }
  }

  lemma SendersOpen(s: System, t: Tid)
    requires ThreadsOk(s) && t in s.threads && s.threads[t].job.Sending? && Holds(s.threads[t], s.threads[t].job.r)
    ensures s.threads[t].job.r in s.open
  {
    assert ThreadOk(s, s.threads[t]);
  }

  lemma TouchersElsewhere(cfg: Config, s: System, a: Action, s': System)
    requires CacheSpec.Valid(s.cache) && TouchesWatches(a)
    ensures !WatchNext(cfg, s, a, s') && !FetchNext(cfg, s, a, s')
  {}

  lemma CreateSilent(cfg: Config, s: System, a: Action, s': System, r: Req)
    requires CacheSpec.Valid(s.cache) && CreateNext(cfg, s, a, s') && TouchesWatches(a)
    requires r in s.watches && r in s.reqs && r !in s.open
    ensures Silent(s, s', r)
  {
    hide CacheSpec.Valid, CanReject, CanCancel, CanAdd, CanPush, CanNoPush, CanSeeStream, CanOpenStream;
    hide CanInsert, CanLose, CanForget, DoAdd, DoPush, DoNoPush, DoSeeStream, DoOpenStream, DoInsert, DoLose, DoForget;
  }

  lemma EvictSilent(cfg: Config, s: System, a: Action, s': System, r: Req)
    requires CacheSpec.Valid(s.cache) && EvictNext(cfg, s, a, s') && TouchesWatches(a)
    requires r in s.watches && r in s.reqs && r !in s.open
    ensures Silent(s, s', r)
  {
    hide CacheSpec.Valid, Quiet;
  }

  lemma SendSilent(cfg: Config, s: System, a: Action, s': System, r: Req)
    requires CacheSpec.Valid(s.cache) && ThreadsOk(s) && SendNext(cfg, s, a, s') && TouchesWatches(a)
    requires r in s.watches && r in s.reqs && r !in s.open
    ensures Silent(s, s', r)
  {
    hide CacheSpec.Valid, ThreadsOk, Raise;
    if a.Drain? || a.Write? {
      SendersOpen(s, a.t);
    }
  }

  lemma ClosedStep(cfg: Config, s: System, a: Action, s': System, r: Req)
    requires ThreadsOk(s) && Next(cfg, s, a, s') && r in s.watches && r in s.reqs && r !in s.open
    ensures Silent(s, s', r)
  {
    hide CreateNext, WatchNext, FetchNext, EvictNext, SendNext, CacheSpec.Valid, ThreadsOk, TouchesWatches;
    if !TouchesWatches(a) {
      OthersLeaveWatches(cfg, s, a, s');
    } else {
      TouchersElsewhere(cfg, s, a, s');
      if CreateNext(cfg, s, a, s') {
        CreateSilent(cfg, s, a, s', r);
      } else if EvictNext(cfg, s, a, s') {
        EvictSilent(cfg, s, a, s', r);
      } else {
        SendSilent(cfg, s, a, s', r);
      }
    }
  }

  /** Once its watch is closed - cancelled, evicted or rejected - nothing is ever put into it again. */
  lemma {:induction false} ClosedForGood(cfg: Config, now: int, before: seq<Action>, s: System, after: seq<Action>, s': System, r: Req)
    requires Reached(cfg, now, before, s) && r in s.watches && r !in s.open && Leads(cfg, s, after, s')
    ensures Silent(s, s', r)
  {
    ReachedInv(cfg, now, before, s);
    if after != [] {
      var p :| Leads(cfg, s, after[..|after| - 1], p) && Next(cfg, p, after[|after| - 1], s');
      ClosedForGood(cfg, now, before, s, after[..|after| - 1], p, r);
      LeadsKeeps(cfg, s, after[..|after| - 1], p);
      ClosedStep(cfg, p, after[|after| - 1], s', r);
    }
  }

  /** A request added to the cache whose watch is open is registered with its own key's entry, unless
      the thread that holds the cache lock is evicting it and will close the watch. */
  lemma OpenWatchIsRegistered(cfg: Config, now: int, acts: seq<Action>, s: System, r: Req)
    requires Reached(cfg, now, acts, s) && r in s.added && r in s.open
    ensures AtHome(s, r) || BeingClosed(s, r)
    ensures s.cacheLock.None? ==> AtHome(s, r)
  {
    ReachedInv(cfg, now, acts, s);
  }

  // ------------------------------------------------------------- streams

  /** Every stream opened is in the hands of the one call or goroutine its phase names, or done with. */
  lemma NoOrphanStream(cfg: Config, now: int, acts: seq<Action>, s: System, id: StreamId)
    requires Reached(cfg, now, acts, s) && id in s.streams
    ensures match s.streams[id].phase
            case Transit(t) => forall u :: (u in s.threads && Holder(s.threads[u]) == Some(id)) <==> u == t
            case Watched(t) => forall u :: (u in s.threads && Holder(s.threads[u]) == Some(id)) <==> u == t
            case _ => forall u :: u in s.threads ==> Holder(s.threads[u]) != Some(id)
  {
    ReachedInv(cfg, now, acts, s);
    assert PhaseOk(s, id);
    forall u | u in s.threads && Holder(s.threads[u]) == Some(id) ensures s.streams[id].phase == PhaseOf(u, s.threads[u]) {
      assert HoldsOwn(s, u);
    }
  }

  /** As long as no two removals of one key overlap: no `done` channel is closed twice; a watched stream
      is what the map holds for its key exactly while its `done` is open or its removal is half done;
      and no key has two watched streams with `done` open. */
  lemma OneStreamPerKey(cfg: Config, now: int, acts: seq<Action>, s: System, id: StreamId, other: StreamId)
    requires Reached(cfg, now, acts, s) && !s.overlap && id in s.streams && s.streams[id].phase.Watched?
    requires other in s.streams && s.streams[other].phase.Watched? && other.key == id.key
    ensures s.streams[id].closes <= 1
    ensures InMap(s, id) <==> s.streams[id].closes == 0 || MidRemoval(s, id)
    ensures s.streams[id].closes == 0 && s.streams[other].closes == 0 ==> id == other
  {
    ReachedInv(cfg, now, acts, s);
    assert DoneOk(s, id) && DoneOk(s, other);
    if MidRemoval(s, id) {
      var t :| t in s.threads && s.threads[t].cb.ToDelete? && s.threads[t].cb.s == id;
      assert RemovalOk(s, s.threads[t].cb) && ThreadOk(s, s.threads[t]);
    }
  }

  /** A `done` channel is closed twice only if removals overlapped. */
  lemma DoubleCloseNeedsOverlap(cfg: Config, now: int, acts: seq<Action>, s: System, id: StreamId)
    requires Reached(cfg, now, acts, s) && id in s.streams && s.streams[id].closes > 1
    ensures s.overlap
  {
    ReachedInv(cfg, now, acts, s);
    assert !s.overlap ==> DoneOk(s, id);
  }

  /** Evictions are serialised by the cache lock: of two overlapping removals one is an upstream
      failure's or the shutdown's. */
  lemma OverlapNeedsUnlocked(cfg: Config, now: int, acts: seq<Action>, s: System, t: Tid, u: Tid, k: Key)
    requires Reached(cfg, now, acts, s) && t in s.threads && u in s.threads && t != u
    requires Removing(s.threads[t].cb, k) && Removing(s.threads[u].cb, k)
    ensures !s.threads[t].cb.locked || !s.threads[u].cb.locked
  {
    ReachedInv(cfg, now, acts, s);
    assert HoldsCache(s.threads[t]) ==> s.cacheLock == Some(t);
  }

  // ------------------------------------------------------------- updates

  /** Nobody is on the way to offer anything for key `k` to `r`. */
  ghost predicate Settled(s: System, k: Key, r: Req) {
    forall t :: t in s.threads ==> SettledThread(s.threads[t], k, r)
  }

  predicate SettledThread(th: Thread, k: Key, r: Req) {
    match th.job
    case Creating(q, _) => q != r
    case Sending(q, _, _, _) => q != r
    case Watching(id, pc) => id.key != k || !(pc.ToFan? || pc.Scanning?)
    case _ => true
  }

  /** When things have settled, no thread is left that would still offer `r` the response in the entry. */
  lemma SettledCoversNone(s: System, k: Key, r: Req, v: Value, th: Thread)
    requires v.resp.Some? && v.requests.key == k
    requires SettledThread(th, k, r) && CallbackOk(s.cache.stores.Keys, th.cb)
    requires th.job.Watching? && th.job.wpc.Scanning? ==> th.job.wpc.store.key == th.job.s.key
    ensures !Covers(th, r, k, v)
  {}

  lemma SettledIsServed(s: System, k: Key, r: Req)
    requires CacheOk(s) && ThreadsOk(s) && NoMiss(s) && Due(s, k, r) && Settled(s, k, r)
    ensures var n := Lookup(s.cache.lru, k).value.resp.value.stamp; At(s.attempted, r) > n || At(s.skipped, r) > n
  {
    hide CacheSpec.Valid, Lookup, MsgOk, Members;
    var v := Lookup(s.cache.lru, k).value;
    assert Covered(s, r, k, v);
    forall t | t in s.threads ensures !Covers(s.threads[t], r, k, v) {
      assert ThreadOk(s, s.threads[t]) && SettledThread(s.threads[t], k, r);
      SettledCoversNone(s, k, r, v, s.threads[t]);
    }
  }

  /** A `Send` to `r` of a response for `k` stored no earlier than `n` has come to its write. */
  ghost predicate Offered(s: System, k: Key, r: Req, n: nat) {
    exists i :: n <= i < |s.sets| && At(s.attempted, r) == i + 1 && s.sets[i].stream.key == k
  }

  /** Such a response is the one that the `CreateWatch` of `r` fetched and did not push, as `r` named its
      version or is a NACK. */
  ghost predicate Withheld(s: System, k: Key, r: Req, n: nat) {
    exists i ::
      && n <= i < |s.sets| && At(s.skipped, r) == i + 1 && s.sets[i].stream.key == k
      && r in s.reqs && (s.reqs[r].version == s.sets[i].version || s.reqs[r].nack)
  }

  /** No missed offer. When things have settled, a `Send` of the response in its key's entry, or of one
      stored later, has come to its write on every watch registered with the entry, or such a response is
      the one `CreateWatch` found and withheld. What becomes of the offer: see `RelaySends`. */
  lemma NoMissedOffer(cfg: Config, now: int, acts: seq<Action>, s: System, k: Key, r: Req)
    requires Reached(cfg, now, acts, s) && Due(s, k, r) && Settled(s, k, r)
    ensures var n := Lookup(s.cache.lru, k).value.resp.value.stamp; Offered(s, k, r, n) || Withheld(s, k, r, n)
  {
    hide Leads, Settled, CacheOk, ThreadsOk, WatchesOk, LocksOk, Reachable, StreamsOk, NoMiss, Covers, CacheSpec.Valid;
    ReachedInv(cfg, now, acts, s);
    SettledIsServed(s, k, r);
    DueKey(s, k, r);
    var n := Lookup(s.cache.lru, k).value.resp.value.stamp;
    if At(s.attempted, r) > n {
      var i := At(s.attempted, r) - 1;
      assert HasKey(s.reqs, r, s.sets[i].stream.key);
      assert n <= i < |s.sets| && At(s.attempted, r) == i + 1 && s.sets[i].stream.key == k;
    } else {
      var i := At(s.skipped, r) - 1;
      assert HasKey(s.reqs, r, s.sets[i].stream.key);
      assert n <= i < |s.sets| && At(s.skipped, r) == i + 1 && s.sets[i].stream.key == k;
      assert s.reqs[r].version == s.sets[i].version || s.reqs[r].nack;
    }
  }

  // --------------------------------------------------------------- locks

  /** Thread `t` holds a lock across steps. */
  predicate HoldsLock(s: System, t: Tid) {
    && t in s.threads
    && (s.cacheLock == Some(t) || s.mu == Some(t)
        || (s.threads[t].job.Sending? && (s.threads[t].job.spc.ToDrain? || s.threads[t].job.spc.ToWrite?)))
  }

  /** The thread that takes the step. */
  function Actor(a: Action): Option<Tid> {
    if a.Tick? || a.Consume? then None else Some(a.t)
  }

  ghost predicate CanStep(cfg: Config, s: System, t: Tid) {
    exists a, s' :: Actor(a) == Some(t) && Next(cfg, s, a, s')
  }

  lemma Steps(cfg: Config, s: System, a: Action, s': System, t: Tid)
    requires Next(cfg, s, a, s') && Actor(a) == Some(t)
    ensures CanStep(cfg, s, t)
  {
  }

  /** A sender in the middle of a `Send` needs no lock but the one it holds. */
  lemma SenderSteps(cfg: Config, s: System, t: Tid)
    requires CacheSpec.Valid(s.cache) && IsSending(s, t)
    requires s.threads[t].job.spc.ToDrain? || s.threads[t].job.spc.ToWrite?
    ensures CanStep(cfg, s, t)
  {
    hide CacheSpec.Valid, CreateNext, WatchNext, FetchNext, EvictNext;
    if s.threads[t].job.spc.ToDrain? {
      Steps(cfg, s, Drain(t), DoDrain(s, t), t);
    } else {
      Steps(cfg, s, Write(t), DoWrite(s, t), t);
    }
  }

  /** The holder of the map's lock closes the next watch, or is done, or waits for a sender. */
  lemma CloserSteps(cfg: Config, s: System, t: Tid)
    requires CacheSpec.Valid(s.cache) && IsClosing(s, t)
    requires forall u, r :: u in s.threads && Holds(s.threads[u], r) ==> IsSending(s, u)
    ensures CanStep(cfg, s, t) || exists u :: HoldsLock(s, u) && CanStep(cfg, s, u)
  {
    hide CacheSpec.Valid, CreateNext, WatchNext, FetchNext, SendNext;
    var cb := s.threads[t].cb;
    if r :| r in cb.must * s.cache.stores[cb.store] && r !in cb.visited {
      if r in s.open && !Quiet(s.threads, r) {
        var u :| u in s.threads && Holds(s.threads[u], r);
        SenderSteps(cfg, s, u);
        assert HoldsLock(s, u);
      } else {
        Steps(cfg, s, CloseOne(t, r), DoCloseOne(s, t, r), t);
      }
    } else {
      Steps(cfg, s, Unlock(t), DoUnlock(s, t), t);
    }
  }

  lemma LoaderSteps(cfg: Config, s: System, t: Tid)
    requires CacheSpec.Valid(s.cache) && t in s.threads && s.threads[t].cb.ToLoad?
    ensures CanStep(cfg, s, t)
  {
    hide CacheSpec.Valid, CreateNext, WatchNext, FetchNext, SendNext;
    if s.threads[t].cb.k in s.up {
      Steps(cfg, s, Load(t), DoLoad(s, t), t);
    } else {
      Steps(cfg, s, LoadNone(t), DoLoadNone(s, t), t);
    }
  }

  /** A callback under the cache lock can go on if nobody holds the map's lock. */
  lemma CallbackSteps(cfg: Config, s: System, t: Tid)
    requires CacheSpec.Valid(s.cache) && t in s.threads && HoldsCache(s.threads[t]) && s.mu.None? && !s.threads[t].cb.Closing?
    requires CallbackOk(s.cache.stores.Keys, s.threads[t].cb) && ClosesStored(s, s.threads[t].cb)
    ensures CanStep(cfg, s, t)
  {
    hide CacheSpec.Valid, CreateNext, WatchNext, FetchNext, SendNext;
    match s.threads[t].cb
    case ToLock(_, _, _) => Steps(cfg, s, Lock(t), DoLock(s, t), t);
    case ToLoad(_, _) => LoaderSteps(cfg, s, t);
    case ToCloseDone(_, _, _) => Steps(cfg, s, CloseDone(t), DoCloseDone(s, t), t);
    case ToDelete(_, _, _) => Steps(cfg, s, Delete(t), DoDelete(s, t), t);
  }

  lemma ReadyToStep(s: System)
    requires Inv(s)
    ensures CacheSpec.Valid(s.cache) && LocksOk(s)
    ensures forall u :: u in s.threads ==> CallbackOk(s.cache.stores.Keys, s.threads[u].cb) && ClosesStored(s, s.threads[u].cb)
    ensures forall u, r :: u in s.threads && Holds(s.threads[u], r) ==> IsSending(s, u)
  {
    forall u | u in s.threads ensures ThreadOk(s, s.threads[u]) {}
  }

  /** No deadlock: whenever some lock is held, some thread that holds a lock can take a step. Threads
      take the cache lock before the map's and the map's before a watch's, in callbacks too. */
  lemma LockHolderCanStep(cfg: Config, now: int, acts: seq<Action>, s: System, t: Tid)
    requires Reached(cfg, now, acts, s) && HoldsLock(s, t)
    ensures exists u :: HoldsLock(s, u) && CanStep(cfg, s, u)
  {
    hide Inv, Leads, CacheSpec.Valid, CanStep;
    ReachedInv(cfg, now, acts, s);
    ReadyToStep(s);
    if s.mu.Some? {
      CloserSteps(cfg, s, s.mu.value);
      assert HoldsLock(s, s.mu.value);
    } else if s.cacheLock == Some(t) {
      CallbackSteps(cfg, s, t);
    } else {
      assert Holds(s.threads[t], s.threads[t].job.r);
      SenderSteps(cfg, s, t);
    }
  }
}
