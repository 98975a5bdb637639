/**
 The cache operations inside the relay: when a fetch hands an entry back, when it removes it, until when an
 entry lives, and that the entry an operation is about becomes the most recently used one.
 */
module RelayFetch {
  import opened Common
  import opened CacheSpec
  import opened Relay
  import opened RelayBasics
  import opened RelaySteps
  import opened RelaySafety

  // Which part of the relay's steps an action belongs to.

  lemma LooksFetch(cfg: Config, s: System, s': System, t: Tid)
    requires Next(cfg, s, Look(t), s')
    ensures FetchNext(cfg, s, Look(t), s')
  {
    hide FetchNext, CacheSpec.Valid;
  }

  lemma ReapsFetch(cfg: Config, s: System, s': System, t: Tid)
    requires Next(cfg, s, Reap(t), s')
    ensures FetchNext(cfg, s, Reap(t), s')
  {
    hide FetchNext, CacheSpec.Valid;
  }

  lemma ClearsFetch(cfg: Config, s: System, s': System, t: Tid, k: Key)
    requires Next(cfg, s, ClearKey(t, k), s')
    ensures FetchNext(cfg, s, ClearKey(t, k), s')
  {
    hide FetchNext, CacheSpec.Valid;
  }

  lemma StoresWatch(cfg: Config, s: System, s': System, t: Tid, n: nat)
    requires Next(cfg, s, SetUp(t, n), s')
    ensures WatchNext(cfg, s, SetUp(t, n), s')
  {
    hide WatchNext, CacheSpec.Valid;
  }

  lemma AddsCreate(cfg: Config, s: System, s': System, t: Tid, n: nat)
    requires Next(cfg, s, Add(t, n), s')
    ensures CreateNext(cfg, s, Add(t, n), s')
  {
    hide CreateNext, CacheSpec.Valid;
  }

  /** The entry's time is over. */
  predicate Past<X, S>(v: Resource<X, S>, now: int) { v.expiry.Some? && v.expiry.value < now }

  /** The first section of a fetch: an absent key is reported missing; an entry whose time is over is left to
      the second section; any other is handed back, and is the most recently used one from then on. */
  lemma LookDecides(cfg: Config, s: System, t: Tid, s': System)
    requires Next(cfg, s, Look(t), s')
    ensures CanLook(s, t) && t in s'.threads
    ensures var k := s.threads[t].fetch.k;
      && t in s'.threads && s'.threads[t].cb == s.threads[t].cb && s'.threads[t].job == s.threads[t].job
      && (forall q :: Lookup(s'.cache.lru, q) == Lookup(s.cache.lru, q))
      && match Lookup(s.cache.lru, k)
         case None => s'.threads[t].fetch == Got(Missing)
         case Some(v) =>
           && (Past(v, s.now) ==> s'.threads[t].fetch == Reaping(k))
           && (!Past(v, s.now) ==> s'.threads[t].fetch == Got(Hit(v)))
           && s'.cache.lru != [] && s'.cache.lru[0] == Entry(k, v)
  {
    hide CreateNext, WatchNext, EvictNext, SendNext;
    LooksFetch(cfg, s, s', t);
  }

  /** The second section: if the entry is gone nothing is handed back; if its time is still over it leaves the
      cache, its watches are to be closed, and nothing is handed back; if a response has been stored
      meanwhile, so that its time is not over, it stays and is handed back. */
  lemma ReapDecides(cfg: Config, s: System, t: Tid, s': System)
    requires Next(cfg, s, Reap(t), s')
    ensures CanReap(s, t) && t in s'.threads
    ensures var k := s.threads[t].fetch.k;
      && t in s'.threads && s'.threads[t].job == s.threads[t].job
      && (forall q :: q != k ==> Lookup(s'.cache.lru, q) == Lookup(s.cache.lru, q))
      && match Lookup(s.cache.lru, k)
         case None => s'.threads[t].fetch == Got(Nil) && s'.cache == s.cache && s'.threads[t].cb.NoCallback?
         case Some(v) =>
           if v.expiry.Some? && v.expiry.value < s.now then
             && Lookup(s'.cache.lru, k).None? && s'.threads[t].fetch == Got(Nil)
             && s'.threads[t].cb == ToLock(k, v.requests, true) && s'.cacheLock == Some(t)
           else
             && Lookup(s'.cache.lru, k) == Some(v) && s'.threads[t].fetch == Got(Hit(v))
             && s'.threads[t].cb.NoCallback? && s'.cache.lru[0] == Entry(k, v)
  {
    hide CreateNext, WatchNext, EvictNext, SendNext;
    ReapsFetch(cfg, s, s', t);
  }

  /** Whatever a fetch hands back was not past its expiry when it was handed back. */
  lemma FetchedIsFresh(cfg: Config, s: System, a: Action, s': System, v: Value)
    requires Next(cfg, s, a, s') && (a.Look? || a.Reap?)
    requires a.t in s'.threads && s'.threads[a.t].fetch == Got(Hit(v))
    ensures v.expiry.None? || s.now <= v.expiry.value
  {
    if a.Look? {
      LookDecides(cfg, s, a.t, s');
    } else {
      ReapDecides(cfg, s, a.t, s');
    }
  }

  /** When an entry that is stored now is past its time. */
  function Deadline(cfg: Config, now: int): Option<int> { if cfg.ttl > 0 then Some(now + cfg.ttl) else None }

  /** A response the upstream sent is stored under the key of its stream, to live for the configured time from
      now on, as the most recently used entry; the watches registered for the key stay registered. Only a
      negative capacity drops it at once, and then its watches are to be closed. */
  lemma ResponseIsStored(cfg: Config, s: System, t: Tid, n: nat, s': System)
    requires Next(cfg, s, SetUp(t, n), s')
    ensures CanSetUp(s, t, n) && t in s'.threads
    ensures var id, before := s.threads[t].job.s, Lookup(s.cache.lru, s.threads[t].job.s.key);
      && s'.sets == s.sets + [Msg(s.threads[t].job.wpc.version, id, |s.sets|)]
      && match Lookup(s'.cache.lru, id.key)
         case Some(v) =>
           && v.resp == Some(s'.sets[|s.sets|]) && v.expiry == Deadline(cfg, s.now)
           && v.requests in s'.cache.stores && s'.cache.lru[0] == Entry(id.key, v)
           && s'.cache.stores[v.requests] == if before.Some? then s.cache.stores[before.value.requests] else {}
         case None => cfg.maxEntries < 0 && before.None? && s'.threads[t].cb.ToLock? && s'.threads[t].cb.k == id.key
  {
    hide CreateNext, FetchNext, EvictNext, SendNext;
    StoresWatch(cfg, s, s', t, n);
  }

  /** A request that is added is in the store of its key's entry; a new entry lives for the configured time,
      one that was there as long as before, with the response it had. */
  lemma RequestIsAdded(cfg: Config, s: System, t: Tid, n: nat, s': System)
    requires Next(cfg, s, Add(t, n), s')
    ensures CanAdd(s, t, n) && t in s'.threads
    ensures var r := s.threads[t].job.r; var k := KeyOf(s, r);
      && r in s'.added
      && match Lookup(s'.cache.lru, k)
         case Some(v) =>
           && v.requests in s'.cache.stores && r in s'.cache.stores[v.requests] && s'.cache.lru[0] == Entry(k, v)
           && (match Lookup(s.cache.lru, k)
               case None => v.resp.None? && v.expiry == Deadline(cfg, s.now)
               case Some(w) => v == w)
         case None => cfg.maxEntries < 0 && s'.threads[t].cb.ToLock? && s'.threads[t].cb.k == k
  {
    hide WatchNext, FetchNext, EvictNext, SendNext;
    AddsCreate(cfg, s, s', t, n);
  }

  /** Clearing a key removes its entry and has its watches closed; a key without one is left alone. */
  lemma KeyIsCleared(cfg: Config, s: System, t: Tid, k: Key, s': System)
    requires Next(cfg, s, ClearKey(t, k), s')
    ensures CanClearKey(s, t) && t in s'.threads
    ensures Lookup(s'.cache.lru, k).None?
    ensures forall q :: q != k ==> Lookup(s'.cache.lru, q) == Lookup(s.cache.lru, q)
    ensures match Lookup(s.cache.lru, k)
      case None => s'.threads[t].cb.NoCallback?
      case Some(v) => s'.threads[t].cb == ToLock(k, v.requests, true) && s'.cacheLock == Some(t)
  {
    hide CreateNext, WatchNext, EvictNext, SendNext;
    ClearsFetch(cfg, s, s', t, k);
  }
}
