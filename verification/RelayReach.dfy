/**
 No open watch is ever out of reach: a request that was added to the cache and still has its watch
 is in the request store of its key's cache entry, or in the store that an eviction under way is
 about to close. Otherwise no response and no eviction would ever find it.
 */
module RelayReach {
  import opened Common
  import opened CacheSpec
  import opened Relay
  import opened RelayBasics

  ghost predicate AtHome(s: System, r: Req) {
    var v := Lookup(s.cache.lru, KeyOf(s, r));
    v.Some? && v.value.requests in s.cache.stores && r in s.cache.stores[v.value.requests]
  }

  /** The callback `cb`, run under the cache lock, will still close `r`'s watch. */
  ghost predicate Pending(stores: map<StoreId, set<Req>>, cb: Callback, r: Req) {
    && (cb.ToLock? || cb.Closing?) && cb.locked
    && cb.store in stores && r in stores[cb.store]
    && (cb.Closing? ==> r !in cb.visited)
  }

  ghost predicate BeingClosed(s: System, r: Req) {
    s.cacheLock.Some? && s.cacheLock.value in s.threads && Pending(s.cache.stores, s.threads[s.cacheLock.value].cb, r)
  }

  ghost predicate Reachable(s: System) {
    && (forall r :: r in s.added && r in s.open ==> AtHome(s, r) || BeingClosed(s, r))
    && (forall t :: t in s.threads ==> ScanIsWhole(s, s.threads[t].cb))
  }

  /** While the cache lock is held nobody can change the store that is being closed. */
  ghost predicate ScanIsWhole(s: System, cb: Callback) {
    cb.Closing? && cb.locked ==> cb.store in s.cache.stores && cb.must == s.cache.stores[cb.store]
  }

  // -------------------------------------------------------------- preservation

  ghost predicate OthersStay(s: System, s': System, t: Tid) {
    && (forall x :: x in s.threads && x != t ==> x in s'.threads && s'.threads[x] == s.threads[x])
    && (forall x :: x in s'.threads && x != t && x !in s.threads ==> s'.threads[x].cb.NoCallback?)
  }

  ghost predicate SameRequests(s: System, s': System) {
    && s'.added == s.added
    && (forall r :: r in s.reqs ==> r in s'.reqs && s'.reqs[r] == s.reqs[r])
    && (forall r :: r in s'.open && r in s.added ==> r in s.open)
  }

  /** Steps that leave the cache alone, and after which `t`'s callback has as much ahead of it as before. */
  lemma ReachSame(s: System, s': System, t: Tid)
    requires Basics(s) && Reachable(s) && OthersStay(s, s', t) && SameRequests(s, s') && s'.cache == s.cache
    requires s.cacheLock == Some(t) ==>
               forall r :: r in s'.open && Pending(s.cache.stores, s.threads[t].cb, r) ==>
                 s'.cacheLock == Some(t) && t in s'.threads && Pending(s.cache.stores, s'.threads[t].cb, r)
    requires s.cacheLock.Some? && s.cacheLock != Some(t) ==> s'.cacheLock == s.cacheLock
    requires t in s'.threads ==> ScanIsWhole(s', s'.threads[t].cb)
    ensures Reachable(s')
  {
    forall r | r in s'.added && r in s'.open ensures AtHome(s', r) || BeingClosed(s', r) {
      assert AtHome(s, r) || BeingClosed(s, r);
      assert r in s.reqs && KeyOf(s', r) == KeyOf(s, r);
    }
    forall x | x in s'.threads ensures ScanIsWhole(s', s'.threads[x].cb) {
      if x != t && x in s.threads {
        assert ScanIsWhole(s, s.threads[x].cb);
      }
    }
  }

  /** Cache operations: an entry that goes takes its whole store into the callback of the thread that
      dropped it. */
  lemma ReachCacheOp(s: System, s': System, t: Tid, out: Option<Entry<Msg, StoreId>>)
    requires LocksOk(s) && Reachable(s) && s.cacheLock.None? && OthersStay(s, s', t)
    requires s'.reqs == s.reqs && s'.open == s.open
    requires s'.cacheLock == LockAfter(t, out)
    requires t in s'.threads && (out.None? ==> s'.threads[t].cb.NoCallback?)
    requires out.Some? ==> s'.threads[t].cb == ToLock(out.value.key, out.value.value.requests, true)
    requires out.Some? ==> out.value.value.requests in s'.cache.stores
    // the entry of a key stays, with its store, or is the one dropped
    requires forall k :: Lookup(s.cache.lru, k).Some? ==>
               var h := Lookup(s.cache.lru, k).value.requests;
               || (Lookup(s'.cache.lru, k).Some? && Lookup(s'.cache.lru, k).value.requests == h)
               || (out.Some? && out.value.key == k && out.value.value.requests == h)
    // stores lose only requests without an open watch
    requires forall id :: id in s.cache.stores ==> id in s'.cache.stores
    requires forall id :: id in s.cache.stores ==>
               forall r :: r in s.cache.stores[id] && r in s.open ==> r in s'.cache.stores[id]
    // whoever is new is at home, or in the dropped store
    requires forall r :: r in s'.added && r !in s.added ==> AtHome(s', r) || BeingClosed(s', r)
    requires s.added <= s'.added
    ensures Reachable(s')
  {
    forall r | r in s'.added && r in s'.open ensures AtHome(s', r) || BeingClosed(s', r) {
      if r in s.added {
        assert AtHome(s, r);
        var h := Lookup(s.cache.lru, KeyOf(s, r)).value.requests;
        assert r in s'.cache.stores[h];
      }
    }
    forall x | x in s'.threads ensures ScanIsWhole(s', s'.threads[x].cb) {
      if x != t && x in s.threads {
        assert !HoldsCache(s.threads[x]);
      }
    }
  }

  /** The end of the scan: everyone in the store has been visited. */
  lemma ScanDone(s: System, t: Tid, r: Req)
    requires Basics(s) && Reachable(s) && CanUnlock(s, t) && s.threads[t].cb.locked
    ensures !Pending(s.cache.stores, s.threads[t].cb, r)
  {
    assert ScanIsWhole(s, s.threads[t].cb);
  }

  /** A write of `k` that puts `rs` into its store. */
  lemma ReachWrite(s: System, s': System, t: Tid, out: Option<Entry<Msg, StoreId>>, k: Key, v: Value, rs: set<Req>)
    requires LocksOk(s) && Reachable(s) && s.cacheLock.None? && OthersStay(s, s', t)
    requires s'.reqs == s.reqs && s'.open == s.open && s'.cacheLock == LockAfter(t, out) && s'.added == s.added + rs
    requires t in s'.threads && (out.None? ==> s'.threads[t].cb.NoCallback?) && CallbackOk(s'.cache.stores.Keys, s'.threads[t].cb)
    requires out.Some? ==> s'.threads[t].cb == ToLock(out.value.key, out.value.value.requests, true)
    requires Wrote(s.cache.lru, s'.cache.lru, out, k, v)
    requires Lookup(s.cache.lru, k).Some? ==> Lookup(s.cache.lru, k).value.requests == v.requests
    requires v.requests in s'.cache.stores && rs <= s'.cache.stores[v.requests]
    requires forall id :: id in s.cache.stores ==> id in s'.cache.stores && s.cache.stores[id] <= s'.cache.stores[id]
    requires forall r :: r in rs ==> KeyOf(s, r) == k
    ensures Reachable(s')
  {
    forall r | r in s'.added && r !in s.added ensures AtHome(s', r) || BeingClosed(s', r) {
      assert KeyOf(s', r) == k;
    }
    ReachCacheOp(s, s', t, out);
  }

  lemma AddReach(cfg: Config, s: System, t: Tid, n: nat)
    requires LocksOk(s) && CacheSpec.Valid(s.cache) && Reachable(s) && CanAdd(s, t, n)
    requires var s' := DoAdd(cfg, s, t, n); CallbackOk(s'.cache.stores.Keys, s'.threads[t].cb)
    ensures Reachable(DoAdd(cfg, s, t, n))
  {
    var r := s.threads[t].job.r;
    var k, h := KeyOf(s, r), StoreId(KeyOf(s, r), n);
    AddRequestEffect(s.cache, cfg, k, r, s.now, h);
    ReachWrite(s, DoAdd(cfg, s, t, n), t, AddRequest(s.cache, cfg, k, r, s.now, h).evicted, k,
               EntryOr(s.cache.lru, cfg, k, s.now, h), {r});
  }

  lemma SetUpReach(cfg: Config, s: System, t: Tid, n: nat)
    requires LocksOk(s) && CacheSpec.Valid(s.cache) && Reachable(s) && CanSetUp(s, t, n)
    requires var s' := DoSetUp(cfg, s, t, n); CallbackOk(s'.cache.stores.Keys, s'.threads[t].cb)
    ensures Reachable(DoSetUp(cfg, s, t, n))
  {
    var id := s.threads[t].job.s;
    var m, h := Msg(s.threads[t].job.wpc.version, id, |s.sets|), StoreId(id.key, n);
    SetResponseEffect(s.cache, cfg, id.key, m, s.now, h);
    var v := EntryOr(s.cache.lru, cfg, id.key, s.now, h).(resp := Some(m), expiry := ExpirationTime(cfg, s.now));
    ReachWrite(s, DoSetUp(cfg, s, t, n), t, SetResponse(s.cache, cfg, id.key, m, s.now, h).evicted, id.key, v, {});
  }

  /** An operation that at most drops one entry. */
  lemma ReachDrop(s: System, s': System, t: Tid, out: Option<Entry<Msg, StoreId>>)
    requires Reachable(s) && LocksOk(s) && s.cacheLock.None? && OthersStay(s, s', t)
    requires s'.reqs == s.reqs && s'.open == s.open && s'.cacheLock == LockAfter(t, out) && s'.added == s.added
    requires t in s'.threads && (out.None? ==> s'.threads[t].cb.NoCallback?)
    requires out.Some? ==> s'.threads[t].cb == ToLock(out.value.key, out.value.value.requests, true)
    requires Dropped(s.cache.lru, s'.cache.lru, out) && s'.cache.stores == s.cache.stores
    ensures Reachable(s')
  {
    forall r | r in s'.added && r in s'.open ensures AtHome(s', r) || BeingClosed(s', r) {
      assert AtHome(s, r) && KeyOf(s', r) == KeyOf(s, r);
    }
    forall x | x in s'.threads ensures ScanIsWhole(s', s'.threads[x].cb) {
      assert x != t && x in s.threads ==> !HoldsCache(s.threads[x]);
    }
  }

  lemma ReapReach(s: System, t: Tid)
    requires LocksOk(s) && CacheSpec.Valid(s.cache) && Reachable(s) && CanReap(s, t)
    ensures Reachable(DoReap(s, t))
  {
    ReapEffect(s.cache, s.threads[t].fetch.k, s.now);
    ReachDrop(s, DoReap(s, t), t, FetchReap(s.cache, s.threads[t].fetch.k, s.now).0.evicted);
  }

  lemma ClearKeyReach(s: System, t: Tid, k: Key)
    requires LocksOk(s) && CacheSpec.Valid(s.cache) && Reachable(s) && CanClearKey(s, t)
    ensures Reachable(DoClearKey(s, t, k))
  {
    ReachDrop(s, DoClearKey(s, t, k), t, DeleteKey(s.cache, k).evicted);
  }
}
