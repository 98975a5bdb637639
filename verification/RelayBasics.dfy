/**
 What every step of the relay keeps, first part: keys are never mixed up, watches are closed exactly
 when they leave the downstream map, nothing is written to a closed watch, and locks have one holder.
 */
module RelayBasics {
  import opened Common
  import opened CacheSpec
  import opened Relay
  import Slots

  ghost predicate HasKey(reqs: map<Req, ReqInfo>, r: Req, k: Key) {
    r in reqs && reqs[r].key == Some(k)
  }

  /** `m` was stored, and came in on a stream opened for `k`. */
  ghost predicate MsgOk(sets: seq<Msg>, m: Msg, k: Key) {
    m.stream.key == k && m.stamp < |sets| && sets[m.stamp] == m
  }

  ghost predicate ValueOk(sets: seq<Msg>, ids: set<StoreId>, v: Value, k: Key) {
    && v.requests.key == k && v.requests in ids
    && (v.resp.Some? ==> MsgOk(sets, v.resp.value, k))
  }

  /** Every request in the store of a key was added, and maps to that key. */
  ghost predicate Members(s: System, rs: set<Req>, k: Key) {
    forall r :: r in rs ==> HasKey(s.reqs, r, k) && r in s.added
  }

  ghost predicate CacheOk(s: System) {
    && CacheSpec.Valid(s.cache)
    && (forall k :: Lookup(s.cache.lru, k).Some? ==>
          ValueOk(s.sets, s.cache.stores.Keys, Lookup(s.cache.lru, k).value, k))
    && (forall id :: id in s.cache.stores ==> Members(s, s.cache.stores[id], id.key))
  }

  ghost predicate FetchOk(sets: seq<Msg>, ids: set<StoreId>, f: FetchPc, k: Key) {
    match f
    case NoFetch => false
    case Looking(q) => q == k
    case Reaping(q) => q == k
    case Got(Hit(v)) => ValueOk(sets, ids, v, k)
    case Got(_) => true
  }

  ghost predicate CallbackOk(ids: set<StoreId>, cb: Callback) {
    match cb
    case ToLock(k, store, _) => store.key == k && store in ids
    case Closing(k, store, _, _, _) => store.key == k && store in ids
    case ToCloseDone(k, _, id) => id.key == k
    case ToDelete(k, _, id) => id.key == k
    case _ => true
  }

  ghost predicate JobOk(reqs: map<Req, ReqInfo>, added: set<Req>, open: set<Req>, sets: seq<Msg>, ids: set<StoreId>,
                        th: Thread) {
    match th.job
    case Creating(r, pc) =>
      && r in reqs && (pc.ToReject? <==> reqs[r].key.None?)
      && (!pc.ToReject? && !pc.ToAdd? ==> r in added)
      && (pc.ToPush? ==> FetchOk(sets, ids, th.fetch, reqs[r].key.value))
      && (!pc.ToPush? ==> th.fetch.NoFetch?)
      && (pc.ToInsert? ==> pc.s.key == reqs[r].key.value)
    case Cancelling(r) => r in reqs && reqs[r].key.Some? && r !in open && th.fetch.NoFetch?
    case Watching(id, pc) =>
      && (pc.ToFan? || pc.ToFail? ==> FetchOk(sets, ids, th.fetch, id.key))
      && (!pc.ToFan? && !pc.ToFail? ==> th.fetch.NoFetch?)
      && (pc.Scanning? ==> pc.store.key == id.key && pc.store in ids && MsgOk(sets, pc.m, id.key))
    case Sending(r, m, _, pc) =>
      && HasKey(reqs, r, m.stream.key) && MsgOk(sets, m, m.stream.key)
      && (pc.ToDrain? || pc.ToWrite? ==> r in open)
      && th.fetch.NoFetch? && th.cb.NoCallback?
    case Reading => true
    case _ => th.fetch.NoFetch? || th.fetch.Got?
  }

  ghost predicate ThreadOk(s: System, th: Thread) {
    && JobOk(s.reqs, s.added, s.open, s.sets, s.cache.stores.Keys, th)
    && CallbackOk(s.cache.stores.Keys, th.cb)
  }

  ghost predicate ThreadsOk(s: System) {
    forall t :: t in s.threads ==> ThreadOk(s, s.threads[t])
  }

  /** A watch is closed, once, exactly if it has left the map; what waits in its slot came in on a
      stream opened for the key of its request. */
  ghost predicate WatchOk(reqs: map<Req, ReqInfo>, open: set<Req>, sets: seq<Msg>, r: Req, w: Slots.Slot<Msg>) {
    && w.closes == (if r in open then 0 else 1)
    && Slots.Conserved(w)
    && (w.held.Some? ==> HasKey(reqs, r, w.held.value.stream.key) && MsgOk(sets, w.held.value, w.held.value.stream.key))
  }

  ghost predicate WatchesOk(s: System) {
    && s.watches.Keys == s.reqs.Keys && s.open <= s.watches.Keys
    && s.returned <= s.added <= s.reqs.Keys
    && (forall r :: r in s.added ==> s.reqs[r].key.Some?)
    && (forall r :: r in s.watches ==> WatchOk(s.reqs, s.open, s.sets, r, s.watches[r]))
  }

  ghost predicate LocksOk(s: System) {
    && (s.cacheLock.Some? ==> s.cacheLock.value in s.threads && HoldsCache(s.threads[s.cacheLock.value]))
    && (s.mu.Some? ==> s.mu.value in s.threads && s.threads[s.mu.value].cb.Closing?)
    && (forall t :: t in s.threads && HoldsCache(s.threads[t]) ==> s.cacheLock == Some(t))
    && (forall t :: t in s.threads && s.threads[t].cb.Closing? ==> s.mu == Some(t))
  }

  ghost predicate UpOk(s: System) {
    forall k :: k in s.up ==> s.up[k].key == k
  }

  /** The response last sent to `r` and the one withheld from it were stored, and came in for its key; the
      request names the version of the latter, or is a NACK. */
  ghost predicate HistoryOk(reqs: map<Req, ReqInfo>, sets: seq<Msg>, attempted: map<Req, nat>, skipped: map<Req, nat>) {
    && (forall r :: At(attempted, r) > 0 ==>
          At(attempted, r) <= |sets| && HasKey(reqs, r, sets[At(attempted, r) - 1].stream.key))
    && (forall r :: At(skipped, r) > 0 ==>
          && At(skipped, r) <= |sets| && HasKey(reqs, r, sets[At(skipped, r) - 1].stream.key)
          && (reqs[r].version == sets[At(skipped, r) - 1].version || reqs[r].nack))
  }

  ghost predicate Basics(s: System) {
    && CacheOk(s) && ThreadsOk(s) && WatchesOk(s) && LocksOk(s) && UpOk(s)
    && HistoryOk(s.reqs, s.sets, s.attempted, s.skipped)
  }

  // ------------------------------------------------- one step, part by part

  /** What no step takes back. A watch is closed only while no sender holds it, and never reopened. */
  ghost predicate Grows(s: System, s': System) {
    && (forall r :: r in s.reqs ==> r in s'.reqs && s'.reqs[r] == s.reqs[r])
    && s.added <= s'.added
    && s.cache.stores.Keys <= s'.cache.stores.Keys
    && s.sets <= s'.sets
    && (forall r :: r in s.reqs && r in s'.open ==> r in s.open)
    && (forall r :: r in s.open && r !in s'.open ==> Quiet(s.threads, r))
  }

  /** All threads but `t` are as before, or start now without a callback. */
  ghost predicate Moves(s: System, s': System, t: Tid) {
    && (forall x :: x in s.threads && x != t ==> x in s'.threads && s'.threads[x] == s.threads[x])
    && (forall x :: x in s'.threads && x != t && x !in s.threads ==> s'.threads[x].cb.NoCallback? && ThreadOk(s', s'.threads[x]))
    && (t in s'.threads ==> ThreadOk(s', s'.threads[t]))
  }

  ghost predicate LockMoves(s: System, s': System, t: Tid) {
    var h, h' := t in s.threads && HoldsCache(s.threads[t]), t in s'.threads && HoldsCache(s'.threads[t]);
    var m, m' := t in s.threads && s.threads[t].cb.Closing?, t in s'.threads && s'.threads[t].cb.Closing?;
    && s'.cacheLock == (if h' then Some(t) else if h then None else s.cacheLock) && (h' && !h ==> s.cacheLock.None?)
    && s'.mu == (if m' then Some(t) else if m then None else s.mu) && (m' && !m ==> s.mu.None?)
  }

  lemma ThreadsStep(s: System, s': System, t: Tid)
    requires Basics(s) && Grows(s, s') && Moves(s, s', t)
    ensures ThreadsOk(s')
  {
    forall x | x in s'.threads ensures ThreadOk(s', s'.threads[x]) {
      if x != t && x in s.threads {
        ThreadStays(s, s', x);
      }
    }
  }

  lemma ThreadStays(s: System, s': System, x: Tid)
    requires Basics(s) && Grows(s, s') && x in s.threads
    ensures ThreadOk(s', s.threads[x])
  {
    hide CacheOk, WatchesOk, LocksOk;
    assert ThreadOk(s, s.threads[x]);
    var j := s.threads[x].job;
    assert j.Sending? && Holds(s.threads[x], j.r) ==> !Quiet(s.threads, j.r);
  }

  lemma LocksStep(s: System, s': System, t: Tid)
    requires LocksOk(s) && Moves(s, s', t) && LockMoves(s, s', t)
    ensures LocksOk(s')
  {
    hide ThreadOk;
  }

  lemma WatchesStep(s: System, s': System, r: Req)
    requires WatchesOk(s) && Grows(s, s')
    requires s'.watches.Keys == s'.reqs.Keys && s'.reqs.Keys <= s.reqs.Keys + {r} && s'.open <= s'.watches.Keys
    requires s'.returned <= s'.added <= s'.reqs.Keys
    requires forall q :: q in s'.added ==> s'.reqs[q].key.Some?
    requires forall q :: q in s'.watches && q != r ==> s'.watches[q] == s.watches[q] && (q in s'.open <==> q in s.open)
    requires r in s'.watches ==> WatchOk(s'.reqs, s'.open, s'.sets, r, s'.watches[r])
    ensures WatchesOk(s')
  {}

  // ------------------------------------------------------- cache operations

  lemma CacheStep(s: System, s': System, k: Key)
    requires CacheOk(s) && Grows(s, s') && CacheSpec.Valid(s'.cache)
    requires forall q :: q != k && Lookup(s'.cache.lru, q).Some? ==> Lookup(s'.cache.lru, q) == Lookup(s.cache.lru, q)
    requires Lookup(s'.cache.lru, k).Some? ==> ValueOk(s'.sets, s'.cache.stores.Keys, Lookup(s'.cache.lru, k).value, k)
    requires forall id :: id in s'.cache.stores ==>
               || (id in s.cache.stores && s'.cache.stores[id] <= s.cache.stores[id])
               || Members(s', s'.cache.stores[id], id.key)
    ensures CacheOk(s')
  {
    forall id | id in s'.cache.stores ensures Members(s', s'.cache.stores[id], id.key) {
      if id in s.cache.stores && s'.cache.stores[id] <= s.cache.stores[id] {
        assert Members(s, s.cache.stores[id], id.key);
      }
    }
  }

  lemma CacheSame(s: System, s': System)
    requires CacheOk(s) && Grows(s, s') && s'.cache == s.cache
    ensures CacheOk(s')
  {
    forall id | id in s'.cache.stores ensures Members(s', s'.cache.stores[id], id.key) {
      assert Members(s, s.cache.stores[id], id.key);
    }
  }

  // ---------------------------------------------------- watches and history

  lemma WatchesSame(s: System, s': System)
    requires WatchesOk(s) && Grows(s, s')
    requires s'.reqs == s.reqs && s'.watches == s.watches && s'.open == s.open
    requires s'.returned <= s'.added <= s.reqs.Keys && forall r :: r in s'.added ==> s.reqs[r].key.Some?
    ensures WatchesOk(s')
  {
    forall r | r in s'.watches ensures WatchOk(s'.reqs, s'.open, s'.sets, r, s'.watches[r]) {
      assert WatchOk(s.reqs, s.open, s.sets, r, s.watches[r]);
    }
  }

  lemma HistoryStays(s: System, s': System)
    requires HistoryOk(s.reqs, s.sets, s.attempted, s.skipped) && Grows(s, s')
    requires s'.attempted == s.attempted && s'.skipped == s.skipped
    ensures HistoryOk(s'.reqs, s'.sets, s'.attempted, s'.skipped)
  {
    forall r | At(s'.attempted, r) > 0 ensures At(s'.attempted, r) <= |s'.sets|
                                               && HasKey(s'.reqs, r, s'.sets[At(s'.attempted, r) - 1].stream.key) {
      assert HasKey(s.reqs, r, s.sets[At(s.attempted, r) - 1].stream.key);
    }
    forall r | At(s'.skipped, r) > 0 ensures HasKey(s'.reqs, r, s'.sets[At(s'.skipped, r) - 1].stream.key) {
      assert HasKey(s.reqs, r, s.sets[At(s.skipped, r) - 1].stream.key);
    }
  }

  /** A step that leaves requests, watches and the cache alone. */
  lemma PlainStep(s: System, s': System, t: Tid)
    requires Basics(s) && Moves(s, s', t) && LockMoves(s, s', t)
    requires s'.reqs == s.reqs && s'.watches == s.watches && s'.open == s.open && s'.added == s.added
    requires s'.cache == s.cache && s'.sets == s.sets && s'.returned <= s'.added && UpOk(s')
    requires HistoryOk(s'.reqs, s'.sets, s'.attempted, s'.skipped)
    ensures Basics(s')
  {
    assert s'.added <= s.reqs.Keys && forall r :: r in s'.added ==> s.reqs[r].key.Some?;
    hide CacheOk, ThreadsOk, WatchesOk, LocksOk, UpOk, HistoryOk, Moves, LockMoves;
    ThreadsStep(s, s', t);
    LocksStep(s, s', t);
    CacheSame(s, s');
    WatchesSame(s, s');
  }

  /** A step that changes requests or watches at `r` only. */
  lemma WatchStep(s: System, s': System, t: Tid, r: Req)
    requires Basics(s) && Moves(s, s', t) && LockMoves(s, s', t) && Grows(s, s')
    requires s'.watches.Keys == s'.reqs.Keys && s'.reqs.Keys <= s.reqs.Keys + {r} && s'.open <= s'.watches.Keys
    requires s'.added == s.added && s'.returned == s.returned && s'.cache == s.cache && s'.up == s.up
    requires (s'.attempted == s.attempted && s'.skipped == s.skipped)
             || HistoryOk(s'.reqs, s'.sets, s'.attempted, s'.skipped)
    requires forall q :: q in s'.watches && q != r ==> s'.watches[q] == s.watches[q] && (q in s'.open <==> q in s.open)
    requires r in s'.watches ==> WatchOk(s'.reqs, s'.open, s'.sets, r, s'.watches[r])
    ensures Basics(s')
  {
    AddedStay(s, s');
    assert UpOk(s');
    hide CacheOk, ThreadsOk, WatchesOk, LocksOk, UpOk, HistoryOk, Moves, LockMoves, Grows, WatchOk;
    ThreadsStep(s, s', t);
    LocksStep(s, s', t);
    CacheSame(s, s');
    WatchesStep(s, s', r);
    if s'.attempted == s.attempted && s'.skipped == s.skipped {
      HistoryStays(s, s');
    }
  }

  lemma AddedStay(s: System, s': System)
    requires WatchesOk(s) && Grows(s, s') && s'.added == s.added && s'.returned == s.returned
    ensures s'.returned <= s'.added <= s'.reqs.Keys && forall q :: q in s'.added ==> s'.reqs[q].key.Some?
  {
  }

  /** A cache operation on key `k`. */
  lemma CacheOpStep(s: System, s': System, t: Tid, k: Key)
    requires Basics(s) && Moves(s, s', t) && LockMoves(s, s', t) && Grows(s, s')
    requires s'.reqs == s.reqs && s'.watches == s.watches && s'.open == s.open && s'.returned == s.returned && s'.up == s.up
    requires s'.attempted == s.attempted && s'.skipped == s.skipped
    requires s'.added <= s.reqs.Keys && forall q :: q in s'.added ==> s.reqs[q].key.Some?
    requires CacheSpec.Valid(s'.cache)
    requires forall q :: q != k && Lookup(s'.cache.lru, q).Some? ==> Lookup(s'.cache.lru, q) == Lookup(s.cache.lru, q)
    requires Lookup(s'.cache.lru, k).Some? ==> ValueOk(s'.sets, s'.cache.stores.Keys, Lookup(s'.cache.lru, k).value, k)
    requires forall id :: id in s'.cache.stores ==>
               || (id in s.cache.stores && s'.cache.stores[id] <= s.cache.stores[id])
               || Members(s', s'.cache.stores[id], id.key)
    ensures Basics(s')
  {
    assert s'.returned <= s'.added by {
      hide CacheOk, ThreadsOk, LocksOk, UpOk, HistoryOk, Moves, LockMoves, Lookup, Members;
    }
    assert UpOk(s');
    hide CacheOk, ThreadsOk, WatchesOk, LocksOk, UpOk, HistoryOk, Moves, LockMoves, Grows, ValueOk, CacheSpec.Valid;
    ThreadsStep(s, s', t);
    LocksStep(s, s', t);
    CacheStep(s, s', k);
    WatchesSame(s, s');
    HistoryStays(s, s');
  }
}
