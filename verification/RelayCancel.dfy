/**
 What a cancellation leaves behind: nothing. Once the cancel function of a request has run to its end,
 the request is in no store that an entry of the cache points to, and never again will be.
 */
module RelayCancel {
  import opened Common
  import opened CacheSpec
  import opened Relay
  import opened RelayBasics
  import opened RelaySteps
  import opened RelaySafety

  /** `r` is registered with some entry of the cache. */
  ghost predicate InCache(s: System, r: Req) {
    exists k :: Lookup(s.cache.lru, k).Some? && InStore(s.cache.stores, Lookup(s.cache.lru, k).value.requests, r)
  }

  /** A `CreateWatch` under way has not returned, and adds its request once. */
  ghost predicate CreatorOk(s: System, th: Thread) {
    th.job.Creating? ==>
      && th.job.r in s.reqs && th.job.r !in s.returned
      && (th.job.cpc.ToReject? || th.job.cpc.ToAdd? ==> th.job.r !in s.added)
  }

  predicate CreateSame(th: Thread, other: Thread) {
    th.job.Creating? && other.job.Creating? && th.job.r == other.job.r
  }

  ghost predicate CreatorsOk(s: System) {
    && (forall t :: t in s.threads ==> CreatorOk(s, s.threads[t]))
    && (forall t, u :: t in s.threads && u in s.threads && CreateSame(s.threads[t], s.threads[u]) ==> t == u)
  }

  ghost predicate StillCancelling(s: System, r: Req) {
    exists t :: t in s.threads && s.threads[t].job == Cancelling(r)
  }

  ghost predicate CancelledOk(s: System, r: Req) {
    r in s.returned && r !in s.open && (StillCancelling(s, r) || !InCache(s, r))
  }

  /** Returned requests were added, added ones registered. */
  ghost predicate InOrder(s: System) { s.returned <= s.added <= s.reqs.Keys }

  lemma BasicsInOrder(s: System)
    requires Basics(s)
    ensures InOrder(s)
  {}

  ghost predicate CancelInv(s: System) {
    CreatorsOk(s) && forall r :: r in s.log.cancelled ==> CancelledOk(s, r)
  }

  // -------------------------------------------------------------- creators

  /** `r`'s `CreateWatch` is under way in `t` and in no other thread. */
  ghost predicate SoleCreators(s: System) {
    forall t, u :: t in s.threads && u in s.threads && CreateSame(s.threads[t], s.threads[u]) ==> t == u
  }

  lemma CreateSoleEnrolling(cfg: Config, s: System, a: Action, s': System)
    requires CacheSpec.Valid(s.cache) && CreatorsOk(s) && CreateNext(cfg, s, a, s')
    requires Enrols(a)
    ensures SoleCreators(s')
  {
    hide AddRequest, DeleteRequest, CacheSpec.Valid, AfterReturn, AfterInsert, Closed, CanClose, Wants, Raise, Cached, Quiet;
    assert a.Register? ==> forall t :: t in s.threads && s.threads[t].job.Creating? ==> s.threads[t].job.r != a.r by {
      forall t | t in s.threads ensures CreatorOk(s, s.threads[t]) {}
    }
  }

  lemma CreateSoleStreaming(cfg: Config, s: System, a: Action, s': System)
    requires CacheSpec.Valid(s.cache) && CreatorsOk(s) && CreateNext(cfg, s, a, s')
    requires !Enrols(a)
    ensures SoleCreators(s')
  {
    hide AddRequest, DeleteRequest, CacheSpec.Valid, AfterReturn, AfterInsert, Closed, CanClose, Wants, Raise, Cached, Quiet;
  }

  lemma CreateSole(cfg: Config, s: System, a: Action, s': System)
    requires CacheSpec.Valid(s.cache) && CreatorsOk(s) && CreateNext(cfg, s, a, s')
    ensures SoleCreators(s')
  {
    hide CreateNext, CacheSpec.Valid;
    if Enrols(a) {
      CreateSoleEnrolling(cfg, s, a, s');
    } else {
      CreateSoleStreaming(cfg, s, a, s');
    }
  }

  lemma CreateCreators(cfg: Config, s: System, a: Action, s': System)
    requires CacheSpec.Valid(s.cache) && InOrder(s) && CreatorsOk(s) && CreateNext(cfg, s, a, s')
    ensures CreatorsOk(s')
  {
    hide CreateNext, CreatorOk, CreateSame, CacheSpec.Valid;
    CreateSole(cfg, s, a, s');
    assert !a.Tick? && !a.Consume? by { CreatesHaveActors(cfg, s, a, s'); }
    CreateEach(cfg, s, a, s');
  }

  lemma CreatesHaveActors(cfg: Config, s: System, a: Action, s': System)
    requires CacheSpec.Valid(s.cache) && CreateNext(cfg, s, a, s')
    ensures !a.Tick? && !a.Consume?
  {}

  lemma CreateEach(cfg: Config, s: System, a: Action, s': System)
    requires CacheSpec.Valid(s.cache) && InOrder(s) && CreatorsOk(s) && CreateNext(cfg, s, a, s') && !a.Tick? && !a.Consume?
    ensures forall t :: t in s'.threads ==> CreatorOk(s', s'.threads[t])
  {
    hide CreateNext, CreatorOk, CacheSpec.Valid;
    forall t | t in s'.threads ensures CreatorOk(s', s'.threads[t]) {
      assert t in s.threads ==> CreatorOk(s, s.threads[t]);
      assert t in s.threads && a.t in s.threads && t != a.t ==> !CreateSame(s.threads[t], s.threads[a.t]);
      assert a.t in s.threads ==> CreatorOk(s, s.threads[a.t]);
      CreateOne(cfg, s, a, s', t);
    }
  }

  lemma CreateOneEnrolling(cfg: Config, s: System, a: Action, s': System, t: Tid)
    requires CacheSpec.Valid(s.cache) && InOrder(s) && CreateNext(cfg, s, a, s') && t in s'.threads
    requires t in s.threads ==> CreatorOk(s, s.threads[t])
    requires a.t in s.threads ==> CreatorOk(s, s.threads[a.t])
    requires t in s.threads && a.t in s.threads && t != a.t ==> !CreateSame(s.threads[t], s.threads[a.t])
    requires Enrols(a)
    ensures CreatorOk(s', s'.threads[t])
  {
    hide AddRequest, DeleteRequest, CacheSpec.Valid, AfterReturn, AfterInsert, Closed, CanClose, Wants, Raise, Cached, Quiet;
  }

  lemma CreateOneStreaming(cfg: Config, s: System, a: Action, s': System, t: Tid)
    requires CacheSpec.Valid(s.cache) && InOrder(s) && CreateNext(cfg, s, a, s') && t in s'.threads
    requires t in s.threads ==> CreatorOk(s, s.threads[t])
    requires a.t in s.threads ==> CreatorOk(s, s.threads[a.t])
    requires t in s.threads && a.t in s.threads && t != a.t ==> !CreateSame(s.threads[t], s.threads[a.t])
    requires !Enrols(a)
    ensures CreatorOk(s', s'.threads[t])
  {
    hide AddRequest, DeleteRequest, CacheSpec.Valid, AfterReturn, AfterInsert, Closed, CanClose, Wants, Raise, Cached, Quiet;
  }

  lemma CreateOne(cfg: Config, s: System, a: Action, s': System, t: Tid)
    requires CacheSpec.Valid(s.cache) && InOrder(s) && CreateNext(cfg, s, a, s') && t in s'.threads
    requires t in s.threads ==> CreatorOk(s, s.threads[t])
    requires a.t in s.threads ==> CreatorOk(s, s.threads[a.t])
    requires t in s.threads && a.t in s.threads && t != a.t ==> !CreateSame(s.threads[t], s.threads[a.t])
    ensures CreatorOk(s', s'.threads[t])
  {
    hide CreateNext, CacheSpec.Valid;
    if Enrols(a) {
      CreateOneEnrolling(cfg, s, a, s', t);
    } else {
      CreateOneStreaming(cfg, s, a, s', t);
    }
  }

  /** Threads that create a request are as before, or are gone; nobody is returned or added. */
  ghost predicate NoCreator(s: System, s': System) {
    && s'.returned == s.returned && s'.added == s.added && s.reqs.Keys <= s'.reqs.Keys
    && forall t :: t in s'.threads && s'.threads[t].job.Creating? ==> t in s.threads && s'.threads[t].job == s.threads[t].job
  }

  lemma NoCreatorKept(s: System, s': System)
    requires CreatorsOk(s) && NoCreator(s, s')
    ensures CreatorsOk(s')
  {
    forall t | t in s'.threads ensures CreatorOk(s', s'.threads[t]) {
      if s'.threads[t].job.Creating? {
        assert CreatorOk(s, s.threads[t]);
      }
    }
  }

  // ------------------------------------------------------------- the cancelled

  /** What a step that is not a registration, cancellation or forgetting does for the cancelled. */
  ghost predicate LeavesCancelled(s: System, s': System) {
    && s'.log.cancelled == s.log.cancelled && s.returned <= s'.returned
    && (forall r :: r in s'.open && r in s.returned ==> r in s.open)
    && (forall t :: t in s.threads && s.threads[t].job.Cancelling? ==> t in s'.threads && s'.threads[t].job == s.threads[t].job)
    && (forall r :: r in s.returned && InCache(s', r) ==> InCache(s, r))
  }

  lemma LeavesKept(s: System, s': System, r: Req)
    requires CancelledOk(s, r) && LeavesCancelled(s, s')
    ensures CancelledOk(s', r)
  {
    if t :| t in s.threads && s.threads[t].job == Cancelling(r) {
      assert s'.threads[t].job == Cancelling(r);
    }
  }

  /** The entries left are old ones, whose stores have gained nobody but `rs`, or the new one, which
      holds nobody but `rs`. */
  lemma CacheGains(s: System, s': System, h: StoreId, rs: set<Req>, r: Req)
    requires InCache(s', r) && r !in rs
    requires forall k :: Lookup(s'.cache.lru, k).Some? ==>
      var id := Lookup(s'.cache.lru, k).value.requests;
      && (id == h ==> id in s'.cache.stores && s'.cache.stores[id] <= rs)
      && (id != h ==> Lookup(s.cache.lru, k).Some? && Lookup(s.cache.lru, k).value.requests == id)
    requires forall id :: id in s'.cache.stores && id != h ==> id in s.cache.stores && s'.cache.stores[id] <= s.cache.stores[id] + rs
    ensures InCache(s, r)
  {
    var k :| Lookup(s'.cache.lru, k).Some? && InStore(s'.cache.stores, Lookup(s'.cache.lru, k).value.requests, r);
    assert InStore(s.cache.stores, Lookup(s.cache.lru, k).value.requests, r);
  }

  lemma AddLeaves(cfg: Config, s: System, t: Tid, n: nat, r: Req)
    requires CacheSpec.Valid(s.cache) && CanAdd(s, t, n) && r != s.threads[t].job.r && InCache(DoAdd(cfg, s, t, n), r)
    ensures InCache(s, r)
  {
    hide AddRequest, CacheSpec.Valid, Put;
    var q := s.threads[t].job.r;
    var k, h := KeyOf(s, q), StoreId(KeyOf(s, q), n);
    AddRequestEffect(s.cache, cfg, k, q, s.now, h);
    HandlesAreKnown(s);
    CacheGains(s, DoAdd(cfg, s, t, n), h, {q}, r);
  }

  lemma SetUpLeaves(cfg: Config, s: System, t: Tid, n: nat, r: Req)
    requires CacheSpec.Valid(s.cache) && CanSetUp(s, t, n) && InCache(DoSetUp(cfg, s, t, n), r)
    ensures InCache(s, r)
  {
    hide SetResponse, CacheSpec.Valid, Put;
    var id := s.threads[t].job.s;
    var m, h := Msg(s.threads[t].job.wpc.version, id, |s.sets|), StoreId(id.key, n);
    SetResponseEffect(s.cache, cfg, id.key, m, s.now, h);
    HandlesAreKnown(s);
    CacheGains(s, DoSetUp(cfg, s, t, n), h, {}, r);
  }

  lemma HandlesAreKnown(s: System)
    requires CacheSpec.Valid(s.cache)
    ensures forall k :: Lookup(s.cache.lru, k).Some? ==> Lookup(s.cache.lru, k).value.requests in s.cache.stores
  {}

  predicate Special(a: Action) { a.Cancel? || a.Forget? }

  lemma AddLeavesAll(cfg: Config, s: System, t: Tid, n: nat)
    requires CacheSpec.Valid(s.cache) && CanAdd(s, t, n) && CreatorOk(s, s.threads[t])
    ensures LeavesCancelled(s, DoAdd(cfg, s, t, n))
  {
    hide AddRequest, CacheSpec.Valid, InCache, Lookup;
    forall r | r in s.returned && InCache(DoAdd(cfg, s, t, n), r) ensures InCache(s, r) {
      AddLeaves(cfg, s, t, n, r);
    }
  }

  lemma OtherCreateLeaves(cfg: Config, s: System, a: Action, s': System)
    requires CacheSpec.Valid(s.cache) && s.returned <= s.reqs.Keys && CreateNext(cfg, s, a, s') && !Special(a) && !a.Add?
    ensures LeavesCancelled(s, s')
  {
    hide CacheSpec.Valid, Wants, Cached, Quiet, InCache, Lookup, Misses;
    SameCache(s, s');
  }

  lemma CreateLeaves(cfg: Config, s: System, a: Action, s': System)
    requires CacheSpec.Valid(s.cache) && s.returned <= s.reqs.Keys && CreatorsOk(s) && CreateNext(cfg, s, a, s') && !Special(a)
    ensures LeavesCancelled(s, s')
  {
    hide CacheSpec.Valid, LeavesCancelled, DoAdd, CreatorOk;
    if a.Add? {
      AddLeavesAll(cfg, s, a.t, a.n);
    } else {
      OtherCreateLeaves(cfg, s, a, s');
    }
  }

  lemma SameCache(s: System, s': System)
    ensures s'.cache == s.cache ==> forall r :: InCache(s', r) ==> InCache(s, r)
  {}

  lemma WatchLeaves(cfg: Config, s: System, a: Action, s': System)
    requires CacheSpec.Valid(s.cache) && WatchNext(cfg, s, a, s')
    ensures LeavesCancelled(s, s')
  {
    hide SetResponse, CacheSpec.Valid, Cached, InCache, Lookup;
    if a.SetUp? {
      forall r | InCache(s', r) ensures InCache(s, r) {
        SetUpLeaves(cfg, s, a.t, a.n, r);
      }
    } else {
      SameCache(s, s');
    }
  }

  lemma FetchShrinks(cfg: Config, s: System, a: Action, s': System, r: Req)
    requires CacheSpec.Valid(s.cache) && FetchNext(cfg, s, a, s') && InCache(s', r)
    ensures InCache(s, r)
  {
    hide CacheSpec.Valid, After, LockAfter;
    var k :| Lookup(s'.cache.lru, k).Some? && InStore(s'.cache.stores, Lookup(s'.cache.lru, k).value.requests, r);
    assert Lookup(s.cache.lru, k) == Lookup(s'.cache.lru, k);
  }

  lemma FetchLeaves(cfg: Config, s: System, a: Action, s': System)
    requires CacheSpec.Valid(s.cache) && FetchNext(cfg, s, a, s')
    ensures LeavesCancelled(s, s')
  {
    hide CacheSpec.Valid, InCache, Lookup, FetchLook, FetchReap, DeleteKey;
    forall r | InCache(s', r) ensures InCache(s, r) {
      FetchShrinks(cfg, s, a, s', r);
    }
  }

  lemma EvictLeaves(cfg: Config, s: System, a: Action, s': System)
    requires CacheSpec.Valid(s.cache) && EvictNext(cfg, s, a, s')
    ensures LeavesCancelled(s, s')
  {
    hide CacheSpec.Valid, Quiet, OtherRemoval, InCache;
    SameCache(s, s');
  }

  lemma SendLeaves(cfg: Config, s: System, a: Action, s': System)
    requires CacheSpec.Valid(s.cache) && SendNext(cfg, s, a, s')
    ensures LeavesCancelled(s, s')
  {
    hide CacheSpec.Valid, OtherHolder, InCache;
    SameCache(s, s');
  }

  lemma CancelForgotten(s: System, t: Tid, q: Req, r: Req)
    requires CanCancel(s, t, q) && r in DoCancel(s, t, q).log.cancelled && (r in s.log.cancelled ==> CancelledOk(s, r))
    ensures CancelledOk(DoCancel(s, t, q), r)
  {
    hide Quiet, InCache;
    var s' := DoCancel(s, t, q);
    if r == q {
      assert s'.threads[t].job == Cancelling(r);
    } else {
      SameCache(s, s');
      if u :| u in s.threads && s.threads[u].job == Cancelling(r) {
        assert s'.threads[u].job == Cancelling(r);
      }
    }
  }

  /** Forgetting takes the request out of the one store it can be in, that of its own key's entry. */
  lemma ForgetForgotten(cfg: Config, s: System, t: Tid, r: Req)
    requires CacheOk(s) && CanForget(s, t) && CancelledOk(s, r)
    ensures CancelledOk(DoForget(cfg, s, t), r)
  {
    hide CacheSpec.Valid, MsgOk;
    var s', q := DoForget(cfg, s, t), s.threads[t].job.r;
    if InCache(s', r) {
      var k :| Lookup(s'.cache.lru, k).Some? && InStore(s'.cache.stores, Lookup(s'.cache.lru, k).value.requests, r);
      var id := Lookup(s'.cache.lru, k).value.requests;
      assert Lookup(s.cache.lru, k).Some? && Lookup(s.cache.lru, k).value.requests == id;
      assert InStore(s.cache.stores, id, r);
      assert Members(s, s.cache.stores[id], id.key) && ValueOk(s.sets, s.cache.stores.Keys, Lookup(s.cache.lru, k).value, k);
      assert r != q;
      var u :| u in s.threads && s.threads[u].job == Cancelling(r);
      assert s'.threads[u].job == Cancelling(r);
    }
  }

  // ------------------------------------------------------------ all together

  lemma WatchMakesNone(cfg: Config, s: System, a: Action, s': System)
    requires CacheSpec.Valid(s.cache) && WatchNext(cfg, s, a, s')
    ensures NoCreator(s, s')
  {
    hide CacheSpec.Valid, SetResponse, Cached;
  }

  lemma FetchMakesNone(cfg: Config, s: System, a: Action, s': System)
    requires CacheSpec.Valid(s.cache) && FetchNext(cfg, s, a, s')
    ensures NoCreator(s, s')
  {
    hide CacheSpec.Valid, FetchLook, FetchReap, DeleteKey, Lookup;
  }

  lemma EvictMakesNone(cfg: Config, s: System, a: Action, s': System)
    requires CacheSpec.Valid(s.cache) && EvictNext(cfg, s, a, s')
    ensures NoCreator(s, s')
  {
    hide CacheSpec.Valid, Quiet, OtherRemoval, AfterCallback;
  }

  lemma SendMakesNone(cfg: Config, s: System, a: Action, s': System)
    requires CacheSpec.Valid(s.cache) && SendNext(cfg, s, a, s')
    ensures NoCreator(s, s')
  {
    hide CacheSpec.Valid, OtherHolder;
  }

  lemma OthersMakeNone(cfg: Config, s: System, a: Action, s': System)
    requires Next(cfg, s, a, s') && !CreateNext(cfg, s, a, s')
    ensures NoCreator(s, s')
  {
    hide CreateNext, WatchNext, FetchNext, EvictNext, SendNext, NoCreator, CacheSpec.Valid;
    if WatchNext(cfg, s, a, s') {
      WatchMakesNone(cfg, s, a, s');
    } else if FetchNext(cfg, s, a, s') {
      FetchMakesNone(cfg, s, a, s');
    } else if EvictNext(cfg, s, a, s') {
      EvictMakesNone(cfg, s, a, s');
    } else {
      SendMakesNone(cfg, s, a, s');
    }
  }

  lemma CreateCancels(cfg: Config, s: System, a: Action, s': System, r: Req)
    requires Basics(s) && CancelInv(s) && CacheSpec.Valid(s.cache) && CreateNext(cfg, s, a, s')
    requires r in s'.log.cancelled
    ensures CancelledOk(s', r)
  {
    hide CacheOk, ThreadsOk, WatchesOk, LocksOk, HistoryOk, CancelledOk, CreatorsOk, CacheSpec.Valid;
    BasicsInOrder(s);
    if a.Cancel? {
      CancelForgotten(s, a.t, a.r, r);
    } else if a.Forget? {
      ForgetForgotten(cfg, s, a.t, r);
    } else {
      CreateLeaves(cfg, s, a, s');
      LeavesKept(s, s', r);
    }
  }

  lemma OtherCancels(cfg: Config, s: System, a: Action, s': System, r: Req)
    requires CancelInv(s) && Next(cfg, s, a, s') && CacheSpec.Valid(s.cache) && !CreateNext(cfg, s, a, s')
    requires r in s'.log.cancelled
    ensures CancelledOk(s', r)
  {
    hide CreateNext, WatchNext, FetchNext, EvictNext, SendNext, CancelledOk, CreatorsOk, CacheSpec.Valid;
    if WatchNext(cfg, s, a, s') {
      WatchLeaves(cfg, s, a, s');
    } else if FetchNext(cfg, s, a, s') {
      FetchLeaves(cfg, s, a, s');
    } else if EvictNext(cfg, s, a, s') {
      EvictLeaves(cfg, s, a, s');
    } else {
      SendLeaves(cfg, s, a, s');
    }
    LeavesKept(s, s', r);
  }

  lemma CancelInvKept(cfg: Config, s: System, a: Action, s': System)
    requires Basics(s) && CancelInv(s) && Next(cfg, s, a, s')
    ensures CancelInv(s')
  {
    hide CreateNext, WatchNext, FetchNext, EvictNext, SendNext, CancelledOk, CreatorsOk, NoCreator, CacheSpec.Valid;
    hide CacheOk, ThreadsOk, WatchesOk, LocksOk, HistoryOk;
    if CreateNext(cfg, s, a, s') {
      BasicsInOrder(s);
      CreateCreators(cfg, s, a, s');
      forall r | r in s'.log.cancelled ensures CancelledOk(s', r) {
        CreateCancels(cfg, s, a, s', r);
      }
    } else {
      OthersMakeNone(cfg, s, a, s');
      NoCreatorKept(s, s');
      forall r | r in s'.log.cancelled ensures CancelledOk(s', r) {
        OtherCancels(cfg, s, a, s', r);
      }
    }
  }

  lemma {:induction false} ReachedCancel(cfg: Config, now: int, acts: seq<Action>, s: System)
    requires Reached(cfg, now, acts, s)
    ensures CancelInv(s)
  {
    if acts != [] {
      hide Next, CancelInv, RelayReach.Reachable, RelayStreams.StreamsOk, RelayCover.NoMiss, Basics;
      var init, a := acts[..|acts| - 1], acts[|acts| - 1];
      var p :| Leads(cfg, Init(now), init, p) && Next(cfg, p, a, s);
      ReachedInv(cfg, now, init, p);
      ReachedCancel(cfg, now, init, p);
      CancelInvKept(cfg, p, a, s);
    }
  }

  /** Once the cancel function of `r` has run to its end, `r`'s watch is closed and no entry of the cache
      points to a store that holds `r`. */
  lemma CancelLeavesNothing(cfg: Config, now: int, acts: seq<Action>, s: System, r: Req)
    requires Reached(cfg, now, acts, s) && r in s.log.cancelled
    requires forall t :: t in s.threads ==> s.threads[t].job != Cancelling(r)
    ensures r !in s.open && !InCache(s, r)
  {
    hide Leads;
    ReachedCancel(cfg, now, acts, s);
    assert CancelledOk(s, r);
  }
}
