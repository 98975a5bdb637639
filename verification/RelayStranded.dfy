/**
 A schedule that leaves a client waiting: a key is evicted between a request's registration and the
 insertion of the stream it opened, the stream fails, and the failure finds no cache entry. The ended
 stream stays in the upstream map, and the next request for the key relies on it.
 */
module RelayStranded {
  import opened Common
  import opened CacheSpec
  import opened Relay
  import opened RelaySafety
  import opened RelayWitness

  const LATER := StoreId(K, 1)

  /** Request 7 has registered and opened its stream, and its entry is being evicted by thread 2. */
  ghost predicate Registered(s: System, cb: Callback) {
    && s.cache.lru == [] && s.cache.stores == map[STORE := {7}]
    && s.cacheLock == (if cb.NoCallback? then None else Some(2)) && s.mu == (if cb.Closing? then Some(2) else None)
    && s.up == map[] && s.streams == map[ID := Stream(Transit(0), 0)]
    && s.reqs == map[7 := ReqInfo(Some(K), "", false)]
    && s.threads == map[0 := Thread(Creating(7, ToInsert(ID)), NoFetch, NoCallback), 2 := Thread(Finished, NoFetch, cb)]
  }

  /** The stream is in the map, the entry is gone, and thread 1 watches the stream. */
  ghost predicate Failing(s: System, pc: WatchPc, fetch: FetchPc) {
    && s.cache.lru == [] && s.cache.stores == map[STORE := {7}] && s.cacheLock.None? && s.mu.None?
    && s.up == map[K := ID] && s.streams == map[ID := Stream(Phase.Watched(1), 0)] && s.reqs.Keys == {7}
    && s.threads == map[0 := Thread(Finished, NoFetch, NoCallback), 1 := Thread(Watching(ID, pc), fetch, NoCallback),
                        2 := Thread(Finished, NoFetch, NoCallback)]
  }

  /** The stream has ended and is still in the map; `job` and `fetch` are those of request 8, in thread 3. */
  ghost predicate Gone(s: System, job: Option<Job>, fetch: FetchPc) {
    && s.cacheLock.None? && s.mu.None? && s.up == map[K := ID] && s.streams == map[ID := Stream(Phase.Ended, 0)]
    && (forall t :: t in s.threads && t != 3 ==> s.threads[t] == Thread(Finished, NoFetch, NoCallback))
    && if job.None? then s.reqs.Keys == {7} && 3 !in s.threads && s.cache.lru == [] && LATER !in s.cache.stores
       else
         && 8 in s.reqs && s.reqs[8] == ReqInfo(Some(K), "", false) && 8 in s.open
         && 3 in s.threads && s.threads[3] == Thread(job.value, fetch, NoCallback)
         && if job.value == Creating(8, ToAdd) then s.cache.lru == [] && LATER !in s.cache.stores
            else s.cache.lru == [Entry(K, Resource(None, LATER, None))]
  }

  lemma ClearEarly(before: seq<Action>, s: System) returns (acts: seq<Action>, s': System)
    requires ReachedBy(before, s) && OneRequest(s.(streams := map[]))
    requires s.threads == map[0 := Thread(Creating(7, ToInsert(ID)), NoFetch, NoCallback)]
    requires s.streams == map[ID := Stream(Transit(0), 0)]
    ensures ReachedBy(acts, s') && Registered(s', ToLock(K, STORE, true))
  {
    hide Reached, CacheSpec.Valid, CreateNext, WatchNext, EvictNext, SendNext;
    assert Lookup(s.cache.lru, K) == Some(Resource(None, STORE, None));
    s' := DoClearKey(s, 2, K);
    acts := before + [ClearKey(2, K)];
    Extend(before, s, ClearKey(2, K), s');
  }

  lemma LockEarly(before: seq<Action>, s: System) returns (acts: seq<Action>, s': System)
    requires ReachedBy(before, s) && Registered(s, ToLock(K, STORE, true))
    ensures ReachedBy(acts, s') && Registered(s', Closing(K, STORE, true, {7}, {}))
  {
    hide Reached, CacheSpec.Valid, CreateNext, WatchNext, FetchNext, SendNext;
    s' := DoLock(s, 2);
    acts := before + [Lock(2)];
    Extend(before, s, Lock(2), s');
  }

  lemma CloseEarly(before: seq<Action>, s: System) returns (acts: seq<Action>, s': System)
    requires ReachedBy(before, s) && Registered(s, Closing(K, STORE, true, {7}, {}))
    ensures ReachedBy(acts, s') && Registered(s', Closing(K, STORE, true, {7}, {7}))
  {
    hide Reached, CacheSpec.Valid, CreateNext, WatchNext, FetchNext, SendNext;
    assert s.threads[2].cb.visited + {7} == {7};
    s' := DoCloseOne(s, 2, 7);
    acts := before + [CloseOne(2, 7)];
    Extend(before, s, CloseOne(2, 7), s');
  }

  lemma UnlockEarly(before: seq<Action>, s: System) returns (acts: seq<Action>, s': System)
    requires ReachedBy(before, s) && Registered(s, Closing(K, STORE, true, {7}, {7}))
    ensures ReachedBy(acts, s') && Registered(s', ToLoad(K, true))
  {
    hide Reached, CacheSpec.Valid, CreateNext, WatchNext, FetchNext, SendNext;
    s' := DoUnlock(s, 2);
    acts := before + [Unlock(2)];
    Extend(before, s, Unlock(2), s');
  }

  lemma LoadEarly(before: seq<Action>, s: System) returns (acts: seq<Action>, s': System)
    requires ReachedBy(before, s) && Registered(s, ToLoad(K, true))
    ensures ReachedBy(acts, s') && Registered(s', NoCallback)
  {
    hide Reached, CacheSpec.Valid, CreateNext, WatchNext, FetchNext, SendNext;
    s' := DoLoadNone(s, 2);
    acts := before + [LoadNone(2)];
    Extend(before, s, LoadNone(2), s');
  }

  lemma InsertLate(before: seq<Action>, s: System) returns (acts: seq<Action>, s': System)
    requires ReachedBy(before, s) && Registered(s, NoCallback)
    ensures ReachedBy(acts, s') && Failing(s', ToSelect, NoFetch)
  {
    hide Reached, CacheSpec.Valid, FetchNext, WatchNext, EvictNext, SendNext, AfterInsert, Cleaning;
    s' := DoInsert(s, 0, 1);
    acts := before + [Insert(0, 1)];
    Extend(before, s, Insert(0, 1), s');
  }

  lemma Fail(before: seq<Action>, s: System) returns (acts: seq<Action>, s': System)
    requires ReachedBy(before, s) && Failing(s, ToSelect, NoFetch)
    ensures ReachedBy(acts, s') && Failing(s', ToFail, Looking(K))
  {
    hide Reached, CacheSpec.Valid, CreateNext, FetchNext, EvictNext, SendNext;
    s' := DoFailUp(s, 1);
    acts := before + [FailUp(1)];
    Extend(before, s, FailUp(1), s');
  }

  lemma Miss(before: seq<Action>, s: System) returns (acts: seq<Action>, s': System)
    requires ReachedBy(before, s) && Failing(s, ToFail, Looking(K))
    ensures ReachedBy(acts, s') && Failing(s', ToFail, Got(Missing))
  {
    hide Reached, CacheSpec.Valid, CreateNext, WatchNext, EvictNext, SendNext;
    s' := DoLook(s, 1);
    acts := before + [Look(1)];
    Extend(before, s, Look(1), s');
  }

  lemma CleanIsNext(s: System)
    requires CacheSpec.Valid(s.cache) && CanClean(s, 1)
    ensures Next(PLAIN, s, Clean(1), DoClean(s, 1))
  {
    hide CacheSpec.Valid, CreateNext, FetchNext, EvictNext, SendNext, DoClean;
  }

  lemma Leaves(s: System)
    requires Failing(s, ToFail, Got(Missing))
    ensures CanClean(s, 1) && Gone(DoClean(s, 1), None, NoFetch)
  {
    assert DoClean(s, 1).streams == map[ID := Stream(Phase.Ended, 0)];
  }

  lemma End(before: seq<Action>, s: System) returns (acts: seq<Action>, s': System)
    requires ReachedBy(before, s) && Failing(s, ToFail, Got(Missing))
    ensures ReachedBy(acts, s') && Gone(s', None, NoFetch)
  {
    hide Reached, Next, CacheSpec.Valid, Failing, Gone, CanClean;
    Leaves(s);
    s' := DoClean(s, 1);
    acts := before + [Clean(1)];
    CleanIsNext(s);
    Extend(before, s, Clean(1), s');
  }

  lemma Come(before: seq<Action>, s: System) returns (acts: seq<Action>, s': System)
    requires ReachedBy(before, s) && Gone(s, None, NoFetch)
    ensures ReachedBy(acts, s') && Gone(s', Some(Creating(8, ToAdd)), NoFetch)
  {
    hide Reached, CacheSpec.Valid, FetchNext, WatchNext, EvictNext, SendNext;
    s' := DoRegister(s, 3, 8, ReqInfo(Some(K), "", false));
    acts := before + [Register(3, 8, ReqInfo(Some(K), "", false))];
    Extend(before, s, Register(3, 8, ReqInfo(Some(K), "", false)), s');
  }

  lemma Enrol(before: seq<Action>, s: System) returns (acts: seq<Action>, s': System)
    requires ReachedBy(before, s) && Gone(s, Some(Creating(8, ToAdd)), NoFetch)
    ensures ReachedBy(acts, s') && Gone(s', Some(Creating(8, ToPush)), Looking(K))
  {
    hide Reached, CacheSpec.Valid, FetchNext, WatchNext, EvictNext, SendNext;
    assert KeyOf(s, 8) == K;
    assert Without(s.cache.lru, K) == [];
    s' := DoAdd(PLAIN, s, 3, 1);
    acts := before + [Add(3, 1)];
    Extend(before, s, Add(3, 1), s');
  }

  lemma Find(before: seq<Action>, s: System) returns (acts: seq<Action>, s': System)
    requires ReachedBy(before, s) && Gone(s, Some(Creating(8, ToPush)), Looking(K))
    ensures ReachedBy(acts, s') && Gone(s', Some(Creating(8, ToPush)), Got(Hit(Resource(None, LATER, None))))
  {
    hide Reached, CacheSpec.Valid, CreateNext, WatchNext, EvictNext, SendNext;
    assert Lookup(s.cache.lru, K) == Some(Resource(None, LATER, None));
    s' := DoLook(s, 3);
    acts := before + [Look(3)];
    Extend(before, s, Look(3), s');
  }

  lemma Skip(before: seq<Action>, s: System) returns (acts: seq<Action>, s': System)
    requires ReachedBy(before, s) && Gone(s, Some(Creating(8, ToPush)), Got(Hit(Resource(None, LATER, None))))
    ensures ReachedBy(acts, s') && Gone(s', Some(Creating(8, ToExists)), NoFetch)
  {
    hide Reached, CacheSpec.Valid, FetchNext, WatchNext, EvictNext, SendNext;
    s' := DoNoPush(s, 3);
    acts := before + [NoPush(3)];
    Extend(before, s, NoPush(3), s');
  }

  lemma Rely(before: seq<Action>, s: System) returns (acts: seq<Action>, s': System)
    requires ReachedBy(before, s) && Gone(s, Some(Creating(8, ToExists)), NoFetch)
    ensures ReachedBy(acts, s') && Gone(s', Some(Finished), NoFetch) && 8 in s'.returned
  {
    hide Reached, CacheSpec.Valid, FetchNext, WatchNext, EvictNext, SendNext;
    s' := DoSeeStream(s, 3);
    acts := before + [SeeStream(3)];
    Extend(before, s, SeeStream(3), s');
  }

  /** A reachable state in which request 8 has an open watch and `CreateWatch` has returned it, the map
      says its key has a stream, that stream has ended, and nobody is left who would open another. */
  lemma Stranded() returns (acts: seq<Action>, s: System)
    ensures Reached(PLAIN, 0, acts, s) && 8 in s.open && 8 in s.returned && 8 in s.reqs && s.reqs[8].key == Some(K)
    ensures s.up == map[K := ID] && s.streams == map[ID := Stream(Phase.Ended, 0)]
    ensures forall t :: t in s.threads ==> s.threads[t] == Thread(Finished, NoFetch, NoCallback)
  {
    hide Reached, CacheSpec.Valid;
    acts, s := OpenOneEarly();
    acts, s := ClearEarly(acts, s);
    acts, s := LockEarly(acts, s);
    acts, s := CloseEarly(acts, s);
    acts, s := UnlockEarly(acts, s);
    acts, s := LoadEarly(acts, s);
    acts, s := InsertLate(acts, s);
    acts, s := Fail(acts, s);
    acts, s := Miss(acts, s);
    acts, s := End(acts, s);
    acts, s := Come(acts, s);
    acts, s := Enrol(acts, s);
    acts, s := Find(acts, s);
    acts, s := Skip(acts, s);
    acts, s := Rely(acts, s);
  }
}
