/** A concrete schedule of the relay that bounds what can be claimed of it. */
module RelayWitness {
  import opened Common
  import opened CacheSpec
  import opened Relay
  import opened RelaySafety
  import Slots

  const K: Key := "k"
  const ID := StreamId(K, 0)
  const STORE := StoreId(K, 0)

  /** No capacity limit and no expiry. */
  const PLAIN := Config(0, 0)

  /** `acts` reaches `s`, whose cache is valid as in every reached state. */
  ghost predicate ReachedBy(acts: seq<Action>, s: System) {
    Reached(PLAIN, 0, acts, s) && CacheSpec.Valid(s.cache)
  }

  lemma Extend(acts: seq<Action>, p: System, a: Action, s: System)
    requires ReachedBy(acts, p) && Next(PLAIN, p, a, s)
    ensures ReachedBy(acts + [a], s)
  {
    assert (acts + [a])[..|acts + [a]| - 1] == acts;
    assert Leads(PLAIN, Init(0), acts + [a], s);
    ReachedInv(PLAIN, 0, acts + [a], s);
  }

  /** One request has come, found no stream, and opened one; its watch is open. */
  ghost predicate OneStream(s: System) {
    && s.cache.lru == [Entry(K, Resource(None, STORE, None))] && s.cache.stores == map[STORE := {7}]
    && s.cacheLock.None? && s.mu.None? && s.open == {7} && 7 in s.watches && s.watches[7] == Slots.Open()
    && s.up == map[K := ID] && s.streams == map[ID := Stream(Watched(1), 0)]
    && s.threads == map[0 := Thread(Finished, NoFetch, NoCallback), 1 := Thread(Watching(ID, ToSelect), NoFetch, NoCallback)]
    && 7 in s.returned && s.reqs == map[7 := ReqInfo(Some(K), "", false)] && Fresh(s)
  }

  /** No response has been stored, written or dropped. */
  ghost predicate Fresh(s: System) {
    s.sets == [] && s.log.written == map[] && s.log.dropped == []
  }

  lemma OpenOneEarly() returns (acts: seq<Action>, s: System)
    ensures ReachedBy(acts, s) && OneRequest(s.(streams := map[])) && s.streams == map[ID := Stream(Transit(0), 0)]
    ensures s.threads == map[0 := Thread(Creating(7, ToInsert(ID)), NoFetch, NoCallback)]
  {
    var s1 := DoRegister(Init(0), 0, 7, ReqInfo(Some(K), "", false));
    assert ReachedBy([], Init(0));
    Extend([], Init(0), Register(0, 7, ReqInfo(Some(K), "", false)), s1);
    acts, s := AddOne([] + [Register(0, 7, ReqInfo(Some(K), "", false))], s1);
    acts, s := LookOne(acts, s);
    acts, s := SkipOne(acts, s);
    acts, s := OpenForOne(acts, s);
  }

  lemma OpenOne() returns (acts: seq<Action>, s: System)
    ensures ReachedBy(acts, s) && OneStream(s)
  {
    acts, s := OpenOneEarly();
    acts, s := InsertForOne(acts, s);
  }

  /** The cache and the watch of the one request, before any stream is opened. */
  ghost predicate OneRequest(s: System) {
    && s.cache.lru == [Entry(K, Resource(None, STORE, None))] && s.cache.stores == map[STORE := {7}]
    && s.cacheLock.None? && s.mu.None? && s.open == {7} && 7 in s.watches && s.watches[7] == Slots.Open()
    && s.up == map[] && s.streams == map[] && s.reqs == map[7 := ReqInfo(Some(K), "", false)]
    && Fresh(s)
  }

  lemma AddOne(before: seq<Action>, s: System) returns (acts: seq<Action>, s': System)
    requires ReachedBy(before, s) && s == DoRegister(Init(0), 0, 7, ReqInfo(Some(K), "", false))
    ensures ReachedBy(acts, s') && CreatingOne(s', ToPush, Looking(K))
  {
    assert KeyOf(s, 7) == K;
    s' := DoAdd(PLAIN, s, 0, 0);
    acts := before + [Add(0, 0)];
    Extend(before, s, Add(0, 0), s');
    assert s'.cache.lru == [Entry(K, Resource(None, STORE, None))];
  }

  ghost predicate CreatingOne(s: System, pc: CreatePc, fetch: FetchPc) {
    OneRequest(s) && s.threads == map[0 := Thread(Creating(7, pc), fetch, NoCallback)]
  }

  lemma LookOne(before: seq<Action>, s: System) returns (acts: seq<Action>, s': System)
    requires ReachedBy(before, s) && CreatingOne(s, ToPush, Looking(K))
    ensures ReachedBy(acts, s') && CreatingOne(s', ToPush, Got(Hit(Resource(None, STORE, None))))
  {
    hide Reached, CacheSpec.Valid, CreateNext, WatchNext, EvictNext, SendNext;
    assert Lookup(s.cache.lru, K) == Some(Resource(None, STORE, None));
    s' := DoLook(s, 0);
    assert s'.cache.lru == s.cache.lru;
    acts := before + [Look(0)];
    Extend(before, s, Look(0), s');
  }

  lemma SkipOne(before: seq<Action>, s: System) returns (acts: seq<Action>, s': System)
    requires ReachedBy(before, s) && CreatingOne(s, ToPush, Got(Hit(Resource(None, STORE, None))))
    ensures ReachedBy(acts, s') && CreatingOne(s', ToExists, NoFetch)
  {
    hide Reached, CacheSpec.Valid, FetchNext, WatchNext, EvictNext, SendNext;
    s' := DoNoPush(s, 0);
    acts := before + [NoPush(0)];
    Extend(before, s, NoPush(0), s');
  }

  lemma OpenForOne(before: seq<Action>, s: System) returns (acts: seq<Action>, s': System)
    requires ReachedBy(before, s) && CreatingOne(s, ToExists, NoFetch)
    ensures ReachedBy(acts, s') && s'.(streams := map[], threads := s.threads) == s
    ensures s'.threads == map[0 := Thread(Creating(7, ToInsert(ID)), NoFetch, NoCallback)]
    ensures s'.streams == map[ID := Stream(Transit(0), 0)]
  {
    hide Reached, CacheSpec.Valid, FetchNext, WatchNext, EvictNext, SendNext;
    s' := DoOpenStream(s, 0, 0);
    acts := before + [OpenStream(0, 0)];
    Extend(before, s, OpenStream(0, 0), s');
  }

  lemma InsertForOne(before: seq<Action>, s: System) returns (acts: seq<Action>, s': System)
    requires ReachedBy(before, s) && OneRequest(s.(streams := map[]))
    requires s.threads == map[0 := Thread(Creating(7, ToInsert(ID)), NoFetch, NoCallback)]
    requires s.streams == map[ID := Stream(Transit(0), 0)]
    ensures ReachedBy(acts, s') && OneStream(s')
  {
    hide Reached, CacheSpec.Valid, FetchNext, WatchNext, EvictNext, SendNext;
    s' := DoInsert(s, 0, 1);
    acts := before + [Insert(0, 1)];
    Extend(before, s, Insert(0, 1), s');
  }

  /** The entry is being evicted: thread 2 runs the callback, thread 3, if any, the shutdown. */
  ghost predicate Evicting(s: System, cb: Callback, down: Option<Callback>, closes: nat) {
    && s.cache.stores == map[STORE := {7}] && s.mu == (if cb.Closing? then Some(2) else None)
    && s.up == map[K := ID] && ID in s.streams && s.streams[ID].closes == closes
    && 2 in s.threads && s.threads[2].cb == cb
    && (forall t :: t in s.threads ==> !s.threads[t].job.Sending? && (s.threads[t].job.ShuttingDown? ==> down.Some?))
    && (if down.Some? then 3 in s.threads && s.threads[3].cb == down.value else 3 !in s.threads)
  }

  lemma Clears(s: System)
    requires CacheSpec.Valid(s.cache) && CanClearKey(s, 2)
    ensures Next(PLAIN, s, ClearKey(2, K), DoClearKey(s, 2, K))
  {
    hide CacheSpec.Valid, CreateNext, WatchNext, EvictNext, SendNext, DoClearKey;
  }

  lemma ClearOne(before: seq<Action>, s: System) returns (acts: seq<Action>, s': System)
    requires ReachedBy(before, s) && OneStream(s)
    ensures ReachedBy(acts, s') && Evicting(s', ToLock(K, STORE, true), None, 0)
  {
    hide Reached, Next, CacheSpec.Valid;
    assert Lookup(s.cache.lru, K) == Some(Resource(None, STORE, None));
    s' := DoClearKey(s, 2, K);
    acts := before + [ClearKey(2, K)];
    Clears(s);
    Extend(before, s, ClearKey(2, K), s');
  }

  lemma LockMap(before: seq<Action>, s: System) returns (acts: seq<Action>, s': System)
    requires ReachedBy(before, s) && Evicting(s, ToLock(K, STORE, true), None, 0)
    ensures ReachedBy(acts, s') && Evicting(s', Closing(K, STORE, true, {7}, {}), None, 0)
  {
    hide Reached, CacheSpec.Valid, CreateNext, WatchNext, FetchNext, SendNext;
    s' := DoLock(s, 2);
    acts := before + [Lock(2)];
    Extend(before, s, Lock(2), s');
  }

  lemma CloseWatch(before: seq<Action>, s: System) returns (acts: seq<Action>, s': System)
    requires ReachedBy(before, s) && Evicting(s, Closing(K, STORE, true, {7}, {}), None, 0)
    ensures ReachedBy(acts, s') && Evicting(s', Closing(K, STORE, true, {7}, {7}), None, 0)
  {
    hide Reached, CacheSpec.Valid, CreateNext, WatchNext, FetchNext, SendNext;
    s' := DoCloseOne(s, 2, 7);
    acts := before + [CloseOne(2, 7)];
    Extend(before, s, CloseOne(2, 7), s');
  }

  lemma UnlockMap(before: seq<Action>, s: System) returns (acts: seq<Action>, s': System)
    requires ReachedBy(before, s) && Evicting(s, Closing(K, STORE, true, {7}, {7}), None, 0)
    ensures ReachedBy(acts, s') && Evicting(s', ToLoad(K, true), None, 0)
  {
    hide Reached, CacheSpec.Valid, CreateNext, WatchNext, FetchNext, SendNext;
    s' := DoUnlock(s, 2);
    acts := before + [Unlock(2)];
    Extend(before, s, Unlock(2), s');
  }

  lemma LoadStream(before: seq<Action>, s: System) returns (acts: seq<Action>, s': System)
    requires ReachedBy(before, s) && Evicting(s, ToLoad(K, true), None, 0)
    ensures ReachedBy(acts, s') && Evicting(s', ToCloseDone(K, true, ID), None, 0)
  {
    hide Reached, CacheSpec.Valid, CreateNext, WatchNext, FetchNext, SendNext;
    s' := DoLoad(s, 2);
    acts := before + [Load(2)];
    Extend(before, s, Load(2), s');
  }

  lemma ShutDown(before: seq<Action>, s: System) returns (acts: seq<Action>, s': System)
    requires ReachedBy(before, s) && Evicting(s, ToCloseDone(K, true, ID), None, 0)
    ensures ReachedBy(acts, s') && Evicting(s', ToCloseDone(K, true, ID), Some(ToCloseDone(K, false, ID)), 0)
  {
    hide Reached, CacheSpec.Valid, CreateNext, WatchNext, FetchNext, SendNext;
    s' := DoShutdown(s, 3, K);
    acts := before + [Shutdown(3, K)];
    Extend(before, s, Shutdown(3, K), s');
  }

  lemma CloseHere(before: seq<Action>, s: System) returns (acts: seq<Action>, s': System)
    requires ReachedBy(before, s) && Evicting(s, ToCloseDone(K, true, ID), Some(ToCloseDone(K, false, ID)), 0)
    ensures ReachedBy(acts, s') && Evicting(s', ToDelete(K, true, ID), Some(ToCloseDone(K, false, ID)), 1)
  {
    hide Reached, CacheSpec.Valid, CreateNext, WatchNext, FetchNext, SendNext;
    s' := DoCloseDone(s, 2);
    acts := before + [CloseDone(2)];
    Extend(before, s, CloseDone(2), s');
  }

  lemma CloseThere(before: seq<Action>, s: System) returns (acts: seq<Action>, s': System)
    requires ReachedBy(before, s) && Evicting(s, ToDelete(K, true, ID), Some(ToCloseDone(K, false, ID)), 1)
    ensures ReachedBy(acts, s') && Evicting(s', ToDelete(K, true, ID), Some(ToDelete(K, false, ID)), 2)
  {
    hide Reached, CacheSpec.Valid, CreateNext, WatchNext, FetchNext, SendNext;
    s' := DoCloseDone(s, 3);
    acts := before + [CloseDone(3)];
    Extend(before, s, CloseDone(3), s');
  }

  /** `upstreamResponseMap.delete` loads, closes and deletes in three steps: when the shutdown runs
      between an eviction's load and its close, the same `done` channel is closed twice. */
  lemma DoubleClose() returns (acts: seq<Action>, s: System)
    ensures Reached(PLAIN, 0, acts, s) && ID in s.streams && s.streams[ID].closes == 2
  {
    hide Reached, OneStream, CacheSpec.Valid;
    acts, s := OpenOne();
    acts, s := ClearOne(acts, s);
    acts, s := LockMap(acts, s);
    acts, s := CloseWatch(acts, s);
    acts, s := UnlockMap(acts, s);
    acts, s := LoadStream(acts, s);
    acts, s := ShutDown(acts, s);
    acts, s := CloseHere(acts, s);
    acts, s := CloseThere(acts, s);
  }
}
