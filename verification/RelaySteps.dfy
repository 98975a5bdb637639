/**
 Every action keeps every invariant. Each lemma puts one action's step together from the general
 lemmas about the parts it touches and the parts it leaves alone.
 */
module RelaySteps {
  import opened Common
  import opened CacheSpec
  import opened Relay
  import opened RelayBasics
  import opened RelayReach
  import opened RelayStreams
  import opened RelayCover

  ghost predicate Inv(s: System) {
    Basics(s) && Reachable(s) && StreamsOk(s) && NoMiss(s)
  }

  /** The entry dropped for a write of `k` has a store made for its key. */
  lemma DroppedOk(s: System, l': seq<Entry<Msg, StoreId>>, out: Option<Entry<Msg, StoreId>>, k: Key, v: Value)
    requires CacheOk(s) && Wrote(s.cache.lru, l', out, k, v) && v.requests.key == k
    ensures out.Some? ==> out.value.value.requests.key == out.value.key
    ensures out.Some? && out.value.value.requests != v.requests ==> out.value.value.requests in s.cache.stores
  {
    hide CacheSpec.Valid;
  }

  lemma AddMoves(cfg: Config, s: System, t: Tid, n: nat)
    requires Basics(s) && CanAdd(s, t, n)
    ensures var s' := DoAdd(cfg, s, t, n); Grows(s, s') && Moves(s, s', t) && LockMoves(s, s', t)
  {
    var r := s.threads[t].job.r;
    var k, h := KeyOf(s, r), StoreId(KeyOf(s, r), n);
    var e, v := AddRequest(s.cache, cfg, k, r, s.now, h), EntryOr(s.cache.lru, cfg, k, s.now, h);
    AddRequestEffect(s.cache, cfg, k, r, s.now, h);
    DroppedOk(s, e.state.lru, e.evicted, k, v);
    AddedThreadOk(s, DoAdd(cfg, s, t, n), t, e.evicted);
  }

  lemma AddedThreadOk(s: System, s': System, t: Tid, out: Option<Entry<Msg, StoreId>>)
    requires Basics(s) && IsCreating(s, t) && s.threads[t].job.cpc.ToAdd?
    requires s'.reqs == s.reqs && s'.open == s.open && s'.sets == s.sets && s'.added == s.added + {s.threads[t].job.r}
    requires s.cache.stores.Keys <= s'.cache.stores.Keys
    requires out.Some? ==> out.value.value.requests.key == out.value.key && out.value.value.requests in s'.cache.stores
    requires s.cacheLock.None? && s'.cacheLock == LockAfter(t, out) && s'.mu == s.mu
    requires var r := s.threads[t].job.r;
             s'.threads == s.threads[t := After(Thread(Creating(r, ToPush), Looking(KeyOf(s, r)), NoCallback), out)]
    ensures Grows(s, s') && Moves(s, s', t) && LockMoves(s, s', t)
  {}

  lemma AddStep(cfg: Config, s: System, t: Tid, n: nat)
    requires Basics(s) && CanAdd(s, t, n)
    ensures Basics(DoAdd(cfg, s, t, n))
  {
    hide WatchesOk, MsgOk, LocksOk, HistoryOk, UpOk;
    var r := s.threads[t].job.r;
    var k, h := KeyOf(s, r), StoreId(KeyOf(s, r), n);
    AddMoves(cfg, s, t, n);
    AddRequestValid(s.cache, cfg, k, r, s.now, h);
    AddRequestEffect(s.cache, cfg, k, r, s.now, h);
    assert ThreadOk(s, s.threads[t]);
    hide Moves, LockMoves;
    WroteStep(s, DoAdd(cfg, s, t, n), t, AddRequest(s.cache, cfg, k, r, s.now, h).evicted, k,
              EntryOr(s.cache.lru, cfg, k, s.now, h), {r});
  }

  lemma SetUpMoves(cfg: Config, s: System, t: Tid, n: nat)
    requires Basics(s) && CanSetUp(s, t, n)
    ensures var s' := DoSetUp(cfg, s, t, n); Grows(s, s') && Moves(s, s', t) && LockMoves(s, s', t)
  {
    var id := s.threads[t].job.s;
    var m, h := Msg(s.threads[t].job.wpc.version, id, |s.sets|), StoreId(id.key, n);
    var e := SetResponse(s.cache, cfg, id.key, m, s.now, h);
    var v := EntryOr(s.cache.lru, cfg, id.key, s.now, h).(resp := Some(m), expiry := ExpirationTime(cfg, s.now));
    SetResponseEffect(s.cache, cfg, id.key, m, s.now, h);
    DroppedOk(s, e.state.lru, e.evicted, id.key, v);
    StoringThreadOk(s, DoSetUp(cfg, s, t, n), t, e.evicted);
  }

  lemma StoringThreadOk(s: System, s': System, t: Tid, out: Option<Entry<Msg, StoreId>>)
    requires Basics(s) && IsWatching(s, t)
    requires s'.reqs == s.reqs && s'.open == s.open && s.sets <= s'.sets && s'.added == s.added
    requires s.cache.stores.Keys <= s'.cache.stores.Keys
    requires out.Some? ==> out.value.value.requests.key == out.value.key && out.value.value.requests in s'.cache.stores
    requires s.cacheLock.None? && s'.cacheLock == LockAfter(t, out) && s'.mu == s.mu
    requires var id := s.threads[t].job.s;
             s'.threads == s.threads[t := After(Thread(Watching(id, ToFan), Looking(id.key), NoCallback), out)]
    ensures Grows(s, s') && Moves(s, s', t) && LockMoves(s, s', t)
  {}

  lemma SetUpStep(cfg: Config, s: System, t: Tid, n: nat)
    requires Basics(s) && CanSetUp(s, t, n)
    ensures Basics(DoSetUp(cfg, s, t, n))
  {
    hide WatchesOk, HistoryOk, LocksOk, Members;
    var id := s.threads[t].job.s;
    var m, h := Msg(s.threads[t].job.wpc.version, id, |s.sets|), StoreId(id.key, n);
    SetUpMoves(cfg, s, t, n);
    SetResponseValid(s.cache, cfg, id.key, m, s.now, h);
    SetResponseEffect(s.cache, cfg, id.key, m, s.now, h);
    var v := EntryOr(s.cache.lru, cfg, id.key, s.now, h).(resp := Some(m), expiry := ExpirationTime(cfg, s.now));
    hide Moves, LockMoves, ThreadsOk;
    WroteStep(s, DoSetUp(cfg, s, t, n), t, SetResponse(s.cache, cfg, id.key, m, s.now, h).evicted, id.key, v, {});
  }

  /** A write of `k` that puts `rs` into its store. */
  lemma WroteStep(s: System, s': System, t: Tid, out: Option<Entry<Msg, StoreId>>, k: Key, v: Value, rs: set<Req>)
    requires Basics(s) && Moves(s, s', t) && LockMoves(s, s', t) && Grows(s, s')
    requires s'.reqs == s.reqs && s'.watches == s.watches && s'.open == s.open && s'.returned == s.returned && s'.up == s.up
    requires s'.attempted == s.attempted && s'.skipped == s.skipped && s'.added == s.added + rs
    requires CacheSpec.Valid(s'.cache) && Wrote(s.cache.lru, s'.cache.lru, out, k, v)
    requires ValueOk(s'.sets, s'.cache.stores.Keys, v, k)
    requires forall r :: r in rs ==> HasKey(s.reqs, r, k)
    requires forall id :: id in s'.cache.stores ==>
               s'.cache.stores[id] <= (if id in s.cache.stores then s.cache.stores[id] else {}) + (if id.key == k then rs else {})
    ensures Basics(s')
  {
    hide HistoryOk, ThreadsOk, CacheSpec.Valid, ValueOk;
    forall id | id in s'.cache.stores ensures Members(s', s'.cache.stores[id], id.key) {
      if id in s.cache.stores {
        assert Members(s, s.cache.stores[id], id.key);
      }
    }
    CacheOpStep(s, s', t, k);
  }

  lemma ForgetStep(cfg: Config, s: System, t: Tid)
    requires Basics(s) && CanForget(s, t)
    ensures Basics(DoForget(cfg, s, t))
  {
    hide HistoryOk, UpOk, LocksOk, CacheSpec.Valid;
    var r := s.threads[t].job.r;
    DeleteRequestValid(s.cache, cfg, KeyOf(s, r), r);
    CacheOpStep(s, DoForget(cfg, s, t), t, KeyOf(s, r));
  }

  lemma FoundOk(s: System, t: Tid)
    requires CacheOk(s) && CanLook(s, t) && ThreadOk(s, s.threads[t])
    ensures ThreadOk(s, DoLook(s, t).threads[t])
  {
    hide CacheSpec.Valid, Members, MsgOk, ValueOk;
  }

  lemma LookMoves(s: System, t: Tid)
    requires Basics(s) && CanLook(s, t)
    ensures Grows(s, DoLook(s, t)) && Moves(s, DoLook(s, t), t) && LockMoves(s, DoLook(s, t), t)
  {
    hide HistoryOk, CacheSpec.Valid, Members, ValueOk, WatchesOk, UpOk, JobOk, CallbackOk, Lookup;
    FoundOk(s, t);
  }

  lemma LookStep(s: System, t: Tid)
    requires Basics(s) && CanLook(s, t)
    ensures Basics(DoLook(s, t))
  {
    LookMoves(s, t);
    hide Moves, LockMoves, HistoryOk, LocksOk, ThreadsOk;
    LookAndRemoveValid(s.cache, s.threads[t].fetch.k, s.now);
    CacheOpStep(s, DoLook(s, t), t, s.threads[t].fetch.k);
  }

  lemma ReapedOk(s: System, t: Tid)
    requires CacheOk(s) && CanReap(s, t) && ThreadOk(s, s.threads[t])
    ensures ThreadOk(s, DoReap(s, t).threads[t])
  {
    hide CacheSpec.Valid, Members, MsgOk;
  }

  lemma ReapMoves(s: System, t: Tid)
    requires Basics(s) && CanReap(s, t)
    ensures Grows(s, DoReap(s, t)) && Moves(s, DoReap(s, t), t) && LockMoves(s, DoReap(s, t), t)
  {
    hide HistoryOk, CacheSpec.Valid, Members, ValueOk, WatchesOk, UpOk, JobOk, CallbackOk, Lookup;
    ReapedOk(s, t);
  }

  lemma ReapStep(s: System, t: Tid)
    requires Basics(s) && CanReap(s, t)
    ensures Basics(DoReap(s, t))
  {
    ReapMoves(s, t);
    hide Moves, LockMoves, ThreadsOk, LocksOk, HistoryOk;
    LookAndRemoveValid(s.cache, s.threads[t].fetch.k, s.now);
    CacheOpStep(s, DoReap(s, t), t, s.threads[t].fetch.k);
  }

  lemma ClearKeyMoves(s: System, t: Tid, k: Key)
    requires Basics(s) && CanClearKey(s, t)
    ensures Grows(s, DoClearKey(s, t, k)) && Moves(s, DoClearKey(s, t, k), t) && LockMoves(s, DoClearKey(s, t, k), t)
  {
    hide HistoryOk, CacheSpec.Valid, WatchesOk, ThreadsOk, UpOk;
  }

  lemma ClearKeyStep(s: System, t: Tid, k: Key)
    requires Basics(s) && CanClearKey(s, t)
    ensures Basics(DoClearKey(s, t, k))
  {
    ClearKeyMoves(s, t, k);
    hide Moves, LockMoves, HistoryOk, LocksOk, ThreadsOk;
    LookAndRemoveValid(s.cache, k, s.now);
    CacheOpStep(s, DoClearKey(s, t, k), t, k);
  }

  lemma TickKept(s: System, d: nat, t: Tid)
    requires Inv(s) && t !in s.threads
    ensures Inv(s.(now := s.now + d))
  {
    hide Reachable, StreamsOk, NoMiss, HistoryOk, ThreadsOk, CacheOk;
    var s' := s.(now := s.now + d);
    PlainStep(s, s', t);
    ReachSame(s, s', t);
    StreamsSame(s, s', t);
    CoverSame(s, s', t);
  }

  lemma RegisterMoves(s: System, t: Tid, r: Req, info: ReqInfo)
    requires Basics(s) && CanRegister(s, t, r)
    ensures Grows(s, DoRegister(s, t, r, info)) && Moves(s, DoRegister(s, t, r, info), t)
    ensures LockMoves(s, DoRegister(s, t, r, info), t)
  {
    hide HistoryOk, CacheOk, UpOk, ThreadsOk, WatchOk;
  }

  lemma RegisterStep(s: System, t: Tid, r: Req, info: ReqInfo)
    requires Basics(s) && CanRegister(s, t, r)
    ensures Basics(DoRegister(s, t, r, info))
  {
    RegisterMoves(s, t, r, info);
    hide HistoryOk, CacheOk, UpOk, Moves, LockMoves, LocksOk, ThreadsOk;
    WatchStep(s, DoRegister(s, t, r, info), t, r);
  }

  lemma RegisterKept(s: System, t: Tid, r: Req, info: ReqInfo)
    requires Inv(s) && CanRegister(s, t, r)
    ensures Inv(DoRegister(s, t, r, info))
  {
    hide Reachable, StreamsOk, NoMiss, HistoryOk, ThreadsOk, CacheOk;
    var s' := DoRegister(s, t, r, info);
    RegisterStep(s, t, r, info);
    ReachSame(s, s', t);
    StreamsSame(s, s', t);
    CoverSame(s, s', t);
  }

  lemma RejectMoves(s: System, t: Tid)
    requires Basics(s) && CanReject(s, t)
    ensures Grows(s, DoReject(s, t)) && Moves(s, DoReject(s, t), t) && LockMoves(s, DoReject(s, t), t)
  {
    hide HistoryOk, CacheOk, UpOk, WatchOk;
  }

  lemma RejectStep(s: System, t: Tid)
    requires Basics(s) && CanReject(s, t)
    ensures Basics(DoReject(s, t))
  {
    RejectMoves(s, t);
    hide HistoryOk, CacheOk, UpOk, Moves, LockMoves, LocksOk;
    WatchStep(s, DoReject(s, t), t, s.threads[t].job.r);
  }

  lemma RejectKept(s: System, t: Tid)
    requires Inv(s) && CanReject(s, t)
    ensures Inv(DoReject(s, t))
  {
    hide Reachable, StreamsOk, NoMiss, WatchesOk, ThreadOk;
    var s' := DoReject(s, t);
    RejectStep(s, t);
    ReachSame(s, s', t);
    StreamsSame(s, s', t);
    CoverSame(s, s', t);
  }

  lemma AddKept(cfg: Config, s: System, t: Tid, n: nat)
    requires Inv(s) && CanAdd(s, t, n)
    ensures Inv(DoAdd(cfg, s, t, n))
  {
    hide Reachable, StreamsOk, NoMiss, WatchesOk, HistoryOk, CacheSpec.Valid;
    var s' := DoAdd(cfg, s, t, n);
    AddStep(cfg, s, t, n);
    assert ThreadOk(s', s'.threads[t]);
    AddReach(cfg, s, t, n);
    StreamsSame(s, s', t);
    AddCover(cfg, s, t, n);
  }

  lemma PushMoves(s: System, t: Tid, u: Tid)
    requires Basics(s) && CanPush(s, t, u)
    ensures Moves(s, DoPush(s, t, u), t) && LockMoves(s, DoPush(s, t, u), t)
  {
    hide CacheOk, HistoryOk;
  }

  lemma PushStep(s: System, t: Tid, u: Tid)
    requires Basics(s) && CanPush(s, t, u)
    ensures Basics(DoPush(s, t, u))
  {
    PushMoves(s, t, u);
    hide Moves, LockMoves, ThreadsOk, LocksOk, CacheOk;
    PlainStep(s, DoPush(s, t, u), t);
  }

  lemma PushKept(s: System, t: Tid, u: Tid)
    requires Inv(s) && CanPush(s, t, u)
    ensures Inv(DoPush(s, t, u))
  {
    hide Reachable, StreamsOk, NoMiss, CacheOk, WatchesOk, ThreadOk, LocksOk, CacheSpec.Valid;
    var s' := DoPush(s, t, u);
    PushStep(s, t, u);
    ReachSame(s, s', t);
    StreamsSame(s, s', t);
    PushCover(s, t, u);
  }

  lemma SkipHistory(s: System, r: Req, m: Msg)
    requires HistoryOk(s.reqs, s.sets, s.attempted, s.skipped)
    requires m.stamp < |s.sets| && s.sets[m.stamp] == m && HasKey(s.reqs, r, m.stream.key) && !Wants(s.reqs[r], m)
    ensures HistoryOk(s.reqs, s.sets, s.attempted, Raise(s.skipped, r, m.stamp + 1))
  {
    var skipped := Raise(s.skipped, r, m.stamp + 1);
    assert forall q :: At(skipped, q) == At(s.skipped, q) || (q == r && At(skipped, q) == m.stamp + 1);
  }

  lemma NoPushHistory(s: System, t: Tid)
    requires Basics(s) && CanNoPush(s, t)
    ensures var s' := DoNoPush(s, t); HistoryOk(s'.reqs, s'.sets, s'.attempted, s'.skipped)
  {
    hide CacheOk, WatchesOk, LocksOk, HistoryOk, Wants;
    assert ThreadOk(s, s.threads[t]);
    var c := Cached(s.threads[t].fetch.f);
    if c.Some? {
      assert MsgOk(s.sets, c.value, s.reqs[s.threads[t].job.r].key.value);
      SkipHistory(s, s.threads[t].job.r, c.value);
    }
  }

  lemma WriteHistory(s: System, t: Tid)
    requires Basics(s) && CanWrite(s, t)
    ensures var s' := DoWrite(s, t); HistoryOk(s'.reqs, s'.sets, s'.attempted, s'.skipped)
  {
    assert ThreadOk(s, s.threads[t]);
    var s', j := DoWrite(s, t), s.threads[t].job;
    forall r | At(s'.attempted, r) > 0
      ensures At(s'.attempted, r) <= |s.sets| && HasKey(s.reqs, r, s.sets[At(s'.attempted, r) - 1].stream.key)
    {
      assert At(s'.attempted, r) == At(s.attempted, r) || (r == j.r && At(s'.attempted, r) == j.m.stamp + 1);
    }
  }

  lemma NoPushStep(s: System, t: Tid)
    requires Basics(s) && CanNoPush(s, t)
    ensures Basics(DoNoPush(s, t))
  {
    hide CacheOk, HistoryOk, Raise, Wants, WatchOk;
    NoPushHistory(s, t);
    PlainStep(s, DoNoPush(s, t), t);
  }

  lemma NoPushKept(s: System, t: Tid)
    requires Inv(s) && CanNoPush(s, t)
    ensures Inv(DoNoPush(s, t))
  {
    hide Reachable, StreamsOk, NoMiss, CacheOk, WatchesOk, HistoryOk, LocksOk, CacheSpec.Valid;
    var s' := DoNoPush(s, t);
    NoPushStep(s, t);
    ReachSame(s, s', t);
    StreamsSame(s, s', t);
    NoPushCover(s, t);
  }

  lemma SeeStreamStep(s: System, t: Tid)
    requires Basics(s) && CanSeeStream(s, t)
    ensures Basics(DoSeeStream(s, t))
  {
    hide CacheOk, HistoryOk, Cleaning, Misses, WatchOk, MsgOk;
    PlainStep(s, DoSeeStream(s, t), t);
  }

  lemma SeeStreamKept(s: System, t: Tid)
    requires Inv(s) && CanSeeStream(s, t)
    ensures Inv(DoSeeStream(s, t))
  {
    hide Reachable, StreamsOk, NoMiss, CacheOk, WatchesOk, LocksOk, CacheSpec.Valid;
    var s' := DoSeeStream(s, t);
    SeeStreamStep(s, t);
    ReachSame(s, s', t);
    StreamsSame(s, s', t);
    CoverSame(s, s', t);
  }

  lemma OpenStreamStep(s: System, t: Tid, n: nat)
    requires Basics(s) && CanOpenStream(s, t, n)
    ensures Basics(DoOpenStream(s, t, n))
  {
    hide CacheOk, HistoryOk;
    PlainStep(s, DoOpenStream(s, t, n), t);
  }

  lemma OpenStreamKept(s: System, t: Tid, n: nat)
    requires Inv(s) && CanOpenStream(s, t, n)
    ensures Inv(DoOpenStream(s, t, n))
  {
    hide Reachable, StreamsOk, NoMiss, CacheOk, WatchesOk, LocksOk, CacheSpec.Valid;
    var s' := DoOpenStream(s, t, n);
    OpenStreamStep(s, t, n);
    ReachSame(s, s', t);
    OpenStreamStreams(s, t, n);
    CoverSame(s, s', t);
  }

  lemma InsertMoves(s: System, t: Tid, u: Tid)
    requires Basics(s) && CanInsert(s, t, u)
    ensures Moves(s, DoInsert(s, t, u), t) && LockMoves(s, DoInsert(s, t, u), t)
  {
    hide CacheOk, HistoryOk, WatchesOk, UpOk, CallbackOk, AfterInsert;
  }

  lemma InsertStep(s: System, t: Tid, u: Tid)
    requires Basics(s) && CanInsert(s, t, u)
    ensures Basics(DoInsert(s, t, u))
  {
    InsertMoves(s, t, u);
    hide Moves, LockMoves, ThreadsOk, LocksOk, CacheOk;
    PlainStep(s, DoInsert(s, t, u), t);
  }

  lemma InsertKept(s: System, t: Tid, u: Tid)
    requires Inv(s) && CanInsert(s, t, u)
    ensures Inv(DoInsert(s, t, u))
  {
    hide Reachable, StreamsOk, NoMiss, LocksOk, CacheSpec.Valid, CacheOk, WatchesOk, ThreadOk;
    var s' := DoInsert(s, t, u);
    InsertStep(s, t, u);
    ReachSame(s, s', t);
    InsertStreams(s, t, u);
    CoverSame(s, s', t);
  }

  lemma LoseStep(s: System, t: Tid)
    requires Basics(s) && CanLose(s, t)
    ensures Basics(DoLose(s, t))
  {
    hide CacheOk, HistoryOk, Cleaning, Misses;
    PlainStep(s, DoLose(s, t), t);
  }

  lemma LoseKept(s: System, t: Tid)
    requires Inv(s) && CanLose(s, t)
    ensures Inv(DoLose(s, t))
  {
    hide Reachable, StreamsOk, NoMiss, CacheOk, WatchesOk, LocksOk, CacheSpec.Valid;
    var s' := DoLose(s, t);
    LoseStep(s, t);
    ReachSame(s, s', t);
    LoseStreams(s, t);
    CoverSame(s, s', t);
  }

  lemma CancelMoves(s: System, t: Tid, r: Req)
    requires Basics(s) && CanCancel(s, t, r)
    ensures Grows(s, DoCancel(s, t, r)) && Moves(s, DoCancel(s, t, r), t) && LockMoves(s, DoCancel(s, t, r), t)
  {
    hide HistoryOk, CacheOk, UpOk, ThreadsOk, WatchOk;
  }

  lemma CancelStep(s: System, t: Tid, r: Req)
    requires Basics(s) && CanCancel(s, t, r)
    ensures Basics(DoCancel(s, t, r))
  {
    CancelMoves(s, t, r);
    hide HistoryOk, CacheOk, UpOk, Moves, LockMoves, LocksOk, ThreadsOk;
    WatchStep(s, DoCancel(s, t, r), t, r);
  }

  lemma CancelKept(s: System, t: Tid, r: Req)
    requires Inv(s) && CanCancel(s, t, r)
    ensures Inv(DoCancel(s, t, r))
  {
    hide Reachable, StreamsOk, NoMiss, CacheOk, HistoryOk, UpOk, ThreadsOk, WatchesOk;
    var s' := DoCancel(s, t, r);
    CancelStep(s, t, r);
    ReachSame(s, s', t);
    StreamsSame(s, s', t);
    CoverSame(s, s', t);
  }

  lemma ForgetKept(cfg: Config, s: System, t: Tid)
    requires Inv(s) && CanForget(s, t)
    ensures Inv(DoForget(cfg, s, t))
  {
    hide Reachable, StreamsOk, NoMiss, WatchesOk, HistoryOk, LocksOk;
    var s' := DoForget(cfg, s, t);
    ForgetStep(cfg, s, t);
    ReachCacheOp(s, s', t, None);
    StreamsSame(s, s', t);
    ForgetCover(cfg, s, t);
  }

  lemma ReceiveUpKept(s: System, t: Tid, version: string)
    requires Inv(s) && CanReceiveUp(s, t)
    ensures Inv(DoReceiveUp(s, t, version))
  {
    hide Reachable, StreamsOk, NoMiss, CacheOk, LocksOk;
    var s' := DoReceiveUp(s, t, version);
    PlainStep(s, s', t);
    ReachSame(s, s', t);
    StreamsSame(s, s', t);
    CoverSame(s, s', t);
  }

  lemma SetUpKept(cfg: Config, s: System, t: Tid, n: nat)
    requires Inv(s) && CanSetUp(s, t, n)
    ensures Inv(DoSetUp(cfg, s, t, n))
  {
    hide Reachable, NoMiss, WatchesOk, HistoryOk;
    var s' := DoSetUp(cfg, s, t, n);
    assert HoldsOwn(s, t);
    SetUpStep(cfg, s, t, n);
    assert ThreadOk(s', s'.threads[t]);
    SetUpReach(cfg, s, t, n);
    StreamsSame(s, s', t);
    SetUpCover(cfg, s, t, n);
  }

  lemma StartScanKept(s: System, t: Tid)
    requires Inv(s) && CanStartScan(s, t)
    ensures Inv(DoStartScan(s, t))
  {
    hide Reachable, StreamsOk, NoMiss, CacheOk, LocksOk;
    var s' := DoStartScan(s, t);
    PlainStep(s, s', t);
    ReachSame(s, s', t);
    StreamsSame(s, s', t);
    StartScanCover(s, t);
  }

  lemma FannedIsMember(s: System, t: Tid, u: Tid, r: Req)
    requires Basics(s) && CanFan(s, t, u, r)
    ensures HasKey(s.reqs, r, s.threads[t].job.s.key)
  {
    hide HistoryOk, CacheSpec.Valid, WatchesOk, LocksOk, UpOk, MsgOk;
    assert ThreadOk(s, s.threads[t]);
    assert Members(s, s.cache.stores[s.threads[t].job.wpc.store], s.threads[t].job.wpc.store.key);
  }

  lemma FanMoves(s: System, t: Tid, u: Tid, r: Req)
    requires Basics(s) && CanFan(s, t, u, r)
    ensures Moves(s, DoFan(s, t, u, r), t) && LockMoves(s, DoFan(s, t, u, r), t)
  {
    hide HistoryOk, CacheOk, WatchesOk, UpOk;
    FannedIsMember(s, t, u, r);
    assert ThreadOk(s, s.threads[t]);
  }

  lemma FanStep(s: System, t: Tid, u: Tid, r: Req)
    requires Basics(s) && CanFan(s, t, u, r)
    ensures Basics(DoFan(s, t, u, r))
  {
    FanMoves(s, t, u, r);
    hide Moves, LockMoves, ThreadsOk, LocksOk, CacheOk;
    PlainStep(s, DoFan(s, t, u, r), t);
  }

  lemma FanKept(s: System, t: Tid, u: Tid, r: Req)
    requires Inv(s) && CanFan(s, t, u, r)
    ensures Inv(DoFan(s, t, u, r))
  {
    hide Reachable, StreamsOk, NoMiss, HistoryOk, LocksOk, CacheSpec.Valid, CacheOk, ThreadOk;
    var s' := DoFan(s, t, u, r);
    FanStep(s, t, u, r);
    ReachSame(s, s', t);
    StreamsSame(s, s', t);
    FanCover(s, t, u, r);
  }

  lemma EndScanKept(s: System, t: Tid)
    requires Inv(s) && CanEndScan(s, t)
    ensures Inv(DoEndScan(s, t))
  {
    hide Reachable, StreamsOk, NoMiss, CacheOk;
    var s' := DoEndScan(s, t);
    PlainStep(s, s', t);
    ReachSame(s, s', t);
    StreamsSame(s, s', t);
    EndScanCover(s, t);
  }

  lemma FailUpKept(s: System, t: Tid)
    requires Inv(s) && CanReceiveUp(s, t)
    ensures Inv(DoFailUp(s, t))
  {
    hide Reachable, StreamsOk, NoMiss, CacheOk, ThreadsOk, LocksOk;
    var s' := DoFailUp(s, t);
    PlainStep(s, s', t);
    ReachSame(s, s', t);
    StreamsSame(s, s', t);
    CoverSame(s, s', t);
  }

  lemma CleanKept(s: System, t: Tid)
    requires Inv(s) && CanClean(s, t)
    ensures Inv(DoClean(s, t))
  {
    hide Reachable, StreamsOk, NoMiss, CacheOk;
    var s' := DoClean(s, t);
    PlainStep(s, s', t);
    ReachSame(s, s', t);
    CleanStreams(s, t);
    CoverSame(s, s', t);
  }

  lemma StopKept(s: System, t: Tid)
    requires Inv(s) && CanStop(s, t)
    ensures Inv(DoStop(s, t))
  {
    hide Reachable, StreamsOk, NoMiss, LocksOk, CacheOk;
    var s' := DoStop(s, t);
    PlainStep(s, s', t);
    ReachSame(s, s', t);
    StopStreams(s, t);
    CoverSame(s, s', t);
  }

  lemma LookKept(s: System, t: Tid)
    requires Inv(s) && CanLook(s, t)
    ensures Inv(DoLook(s, t))
  {
    hide Reachable, StreamsOk, NoMiss, LocksOk, ThreadsOk, WatchesOk;
    var s' := DoLook(s, t);
    LookStep(s, t);
    ReachCacheOp(s, s', t, None);
    StreamsSame(s, s', t);
    LookCover(s, t);
  }

  lemma ReapKept(s: System, t: Tid)
    requires Inv(s) && CanReap(s, t)
    ensures Inv(DoReap(s, t))
  {
    hide Reachable, StreamsOk, NoMiss, WatchesOk, HistoryOk, LocksOk, ThreadsOk, CacheSpec.Valid;
    var s' := DoReap(s, t);
    ReapStep(s, t);
    ReapReach(s, t);
    StreamsSame(s, s', t);
    ReapCover(s, t);
  }

  lemma ReadKept(s: System, t: Tid, k: Key)
    requires Inv(s) && t !in s.threads
    ensures Inv(DoRead(s, t, k))
  {
    hide Reachable, StreamsOk, NoMiss, CacheOk, HistoryOk, ThreadsOk, CacheSpec.Valid;
    var s' := DoRead(s, t, k);
    PlainStep(s, s', t);
    ReachSame(s, s', t);
    StreamsSame(s, s', t);
    CoverSame(s, s', t);
  }

  lemma ClearKeyKept(s: System, t: Tid, k: Key)
    requires Inv(s) && CanClearKey(s, t)
    ensures Inv(DoClearKey(s, t, k))
  {
    hide Reachable, StreamsOk, NoMiss, WatchesOk, HistoryOk, LocksOk, ThreadsOk, CacheSpec.Valid;
    var s' := DoClearKey(s, t, k);
    ClearKeyStep(s, t, k);
    ClearKeyReach(s, t, k);
    StreamsSame(s, s', t);
    ClearKeyCover(s, t, k);
  }

  lemma LockStep(s: System, t: Tid)
    requires Basics(s) && CanLock(s, t)
    ensures Basics(DoLock(s, t))
  {
    hide HistoryOk, CacheSpec.Valid;
    PlainStep(s, DoLock(s, t), t);
  }

  lemma LockKept(s: System, t: Tid)
    requires Inv(s) && CanLock(s, t)
    ensures Inv(DoLock(s, t))
  {
    hide StreamsOk, NoMiss, HistoryOk, CacheOk, WatchesOk, CacheSpec.Valid;
    var s' := DoLock(s, t);
    LockStep(s, t);
    ReachSame(s, s', t);
    StreamsSame(s, s', t);
    CoverSame(s, s', t);
  }

  lemma CloseOneMoves(s: System, t: Tid, r: Req)
    requires Basics(s) && CanCloseOne(s, t, r)
    ensures Grows(s, DoCloseOne(s, t, r)) && Moves(s, DoCloseOne(s, t, r), t) && LockMoves(s, DoCloseOne(s, t, r), t)
  {
    hide HistoryOk, UpOk, MsgOk, CacheOk;
  }

  lemma CloseOneStep(s: System, t: Tid, r: Req)
    requires Basics(s) && CanCloseOne(s, t, r)
    ensures Basics(DoCloseOne(s, t, r))
  {
    CloseOneMoves(s, t, r);
    hide HistoryOk, UpOk, CacheOk, Moves, LockMoves, LocksOk, ThreadsOk;
    WatchStep(s, DoCloseOne(s, t, r), t, r);
  }

  lemma CloseOneKept(s: System, t: Tid, r: Req)
    requires Inv(s) && CanCloseOne(s, t, r)
    ensures Inv(DoCloseOne(s, t, r))
  {
    hide StreamsOk, NoMiss, CacheOk, WatchesOk, HistoryOk, UpOk, LocksOk, ThreadsOk, ThreadOk;
    var s' := DoCloseOne(s, t, r);
    CloseOneStep(s, t, r);
    ReachSame(s, s', t);
    StreamsSame(s, s', t);
    CoverSame(s, s', t);
  }

  lemma UnlockStep(s: System, t: Tid)
    requires Basics(s) && CanUnlock(s, t)
    ensures Basics(DoUnlock(s, t))
  {
    hide CacheOk, HistoryOk;
    PlainStep(s, DoUnlock(s, t), t);
  }

  lemma UnlockKept(s: System, t: Tid)
    requires Inv(s) && CanUnlock(s, t)
    ensures Inv(DoUnlock(s, t))
  {
    hide StreamsOk, NoMiss, CacheOk, WatchesOk, CacheSpec.Valid;
    var s' := DoUnlock(s, t);
    UnlockStep(s, t);
    forall r | s.threads[t].cb.locked ensures !Pending(s.cache.stores, s.threads[t].cb, r) {
      ScanDone(s, t, r);
    }
    ReachSame(s, s', t);
    StreamsSame(s, s', t);
    CoverSame(s, s', t);
  }

  lemma LoadKept(s: System, t: Tid)
    requires Inv(s) && CanLoad(s, t)
    ensures Inv(DoLoad(s, t))
  {
    hide Reachable, StreamsOk, NoMiss, CacheOk, CacheSpec.Valid;
    var s' := DoLoad(s, t);
    PlainStep(s, s', t);
    ReachSame(s, s', t);
    LoadStreams(s, s', t, s.threads[t].cb.k);
    CoverSame(s, s', t);
  }

  lemma LoadNoneStep(s: System, t: Tid)
    requires Basics(s) && CanLoadNone(s, t)
    ensures Basics(DoLoadNone(s, t))
  {
    hide CacheOk, HistoryOk;
    PlainStep(s, DoLoadNone(s, t), t);
  }

  lemma LoadNoneKept(s: System, t: Tid)
    requires Inv(s) && CanLoadNone(s, t)
    ensures Inv(DoLoadNone(s, t))
  {
    hide Reachable, StreamsOk, NoMiss, CacheOk, WatchesOk, HistoryOk, CacheSpec.Valid;
    var s' := DoLoadNone(s, t);
    LoadNoneStep(s, t);
    ReachSame(s, s', t);
    StreamsSame(s, s', t);
    CoverSame(s, s', t);
  }

  lemma CloseDoneKept(s: System, t: Tid)
    requires Inv(s) && CanCloseDone(s, t)
    ensures Inv(DoCloseDone(s, t))
  {
    hide Reachable, StreamsOk, NoMiss, CacheOk;
    var s' := DoCloseDone(s, t);
    PlainStep(s, s', t);
    ReachSame(s, s', t);
    CloseDoneStreams(s, t);
    CoverSame(s, s', t);
  }

  lemma DeleteKept(s: System, t: Tid)
    requires Inv(s) && CanDelete(s, t)
    ensures Inv(DoDelete(s, t))
  {
    hide Reachable, StreamsOk, NoMiss, CacheOk, HistoryOk;
    var s' := DoDelete(s, t);
    PlainStep(s, s', t);
    ReachSame(s, s', t);
    DeleteStreams(s, t);
    CoverSame(s, s', t);
  }

  lemma ShutdownKept(s: System, t: Tid, k: Key)
    requires Inv(s) && CanShutdown(s, t, k)
    ensures Inv(DoShutdown(s, t, k))
  {
    hide Reachable, StreamsOk, NoMiss, HistoryOk, ThreadsOk, CacheSpec.Valid, CacheOk;
    var s' := DoShutdown(s, t, k);
    PlainStep(s, s', t);
    ReachSame(s, s', t);
    LoadStreams(s, s', t, k);
    CoverSame(s, s', t);
  }

  lemma GetStep(s: System, t: Tid)
    requires Basics(s) && CanGet(s, t)
    ensures Basics(DoGet(s, t))
  {
    hide CacheOk, HistoryOk;
    PlainStep(s, DoGet(s, t), t);
  }

  lemma GetKept(s: System, t: Tid)
    requires Inv(s) && CanGet(s, t)
    ensures Inv(DoGet(s, t))
  {
    hide Reachable, StreamsOk, NoMiss, CacheOk, WatchesOk, LocksOk, CacheSpec.Valid;
    var s' := DoGet(s, t);
    GetStep(s, t);
    ReachSame(s, s', t);
    StreamsSame(s, s', t);
    GetCover(s, t);
  }

  lemma EnterStep(s: System, t: Tid)
    requires Basics(s) && CanEnter(s, t)
    ensures Basics(DoEnter(s, t))
  {
    hide CacheOk, HistoryOk;
    PlainStep(s, DoEnter(s, t), t);
  }

  lemma EnterKept(s: System, t: Tid)
    requires Inv(s) && CanEnter(s, t)
    ensures Inv(DoEnter(s, t))
  {
    hide Reachable, StreamsOk, NoMiss, CacheOk, WatchesOk, LocksOk, CacheSpec.Valid;
    var s' := DoEnter(s, t);
    EnterStep(s, t);
    ReachSame(s, s', t);
    StreamsSame(s, s', t);
    EnterCover(s, t);
  }

  lemma DrainMoves(s: System, t: Tid)
    requires Basics(s) && CanDrain(s, t)
    ensures Grows(s, DoDrain(s, t)) && Moves(s, DoDrain(s, t), t) && LockMoves(s, DoDrain(s, t), t)
  {
    hide HistoryOk, CacheOk, UpOk;
  }

  lemma DrainStep(s: System, t: Tid)
    requires Basics(s) && CanDrain(s, t)
    ensures Basics(DoDrain(s, t))
  {
    DrainMoves(s, t);
    hide HistoryOk, CacheOk, UpOk, Moves, LockMoves, LocksOk;
    assert ThreadOk(s, s.threads[t]);
    WatchStep(s, DoDrain(s, t), t, s.threads[t].job.r);
  }

  lemma DrainKept(s: System, t: Tid)
    requires Inv(s) && CanDrain(s, t)
    ensures Inv(DoDrain(s, t))
  {
    hide Reachable, StreamsOk, NoMiss, CacheOk, WatchesOk, ThreadOk, LocksOk;
    var s' := DoDrain(s, t);
    DrainStep(s, t);
    ReachSame(s, s', t);
    StreamsSame(s, s', t);
    DrainCover(s, t);
  }

  lemma WriteMoves(s: System, t: Tid)
    requires Basics(s) && CanWrite(s, t)
    ensures Grows(s, DoWrite(s, t)) && Moves(s, DoWrite(s, t), t) && LockMoves(s, DoWrite(s, t), t)
  {
    hide HistoryOk, CacheOk, UpOk, Raise;
  }

  lemma WriteStep(s: System, t: Tid)
    requires Basics(s) && CanWrite(s, t)
    ensures Basics(DoWrite(s, t))
  {
    WriteHistory(s, t);
    WriteMoves(s, t);
    hide HistoryOk, CacheOk, UpOk, Moves, LockMoves, LocksOk, Raise;
    assert ThreadOk(s, s.threads[t]);
    WatchStep(s, DoWrite(s, t), t, s.threads[t].job.r);
  }

  lemma WriteKept(s: System, t: Tid)
    requires Inv(s) && CanWrite(s, t)
    ensures Inv(DoWrite(s, t))
  {
    hide Reachable, StreamsOk, NoMiss, CacheOk, HistoryOk, LocksOk, ThreadOk;
    var s' := DoWrite(s, t);
    WriteStep(s, t);
    ReachSame(s, s', t);
    StreamsSame(s, s', t);
    WriteCover(s, t);
  }

  lemma ConsumeKept(s: System, r: Req, t: Tid)
    requires Inv(s) && CanConsume(s, r) && t !in s.threads
    ensures Inv(DoConsume(s, r))
  {
    hide Reachable, StreamsOk, NoMiss, CacheOk, HistoryOk, ThreadsOk, ThreadOk;
    var s' := DoConsume(s, r);
    WatchStep(s, s', t, r);
    ReachSame(s, s', t);
    StreamsSame(s, s', t);
    CoverSame(s, s', t);
  }

  lemma ExitKept(s: System, t: Tid)
    requires Inv(s) && CanExit(s, t)
    ensures Inv(s.(threads := s.threads - {t}))
  {
    hide Reachable, StreamsOk, NoMiss, CacheOk, HistoryOk, ThreadsOk, ThreadOk;
    var s' := s.(threads := s.threads - {t});
    PlainStep(s, s', t);
    ReachSame(s, s', t);
    StreamsSame(s, s', t);
    CoverSame(s, s', t);
  }
}
