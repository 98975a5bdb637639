/**
 No missed offer. On a watch that is registered for a key whose cache entry holds a response, a `Send`
 of that response or a later one has come to its write, or `CreateWatch` found such a response and did not
 push it, or some thread is still on its way to do one of these: the two orders "register, then fetch" and "store, then scan" leave
 no gap between them.
 */
module RelayCover {
  import opened Common
  import opened CacheSpec
  import opened Relay
  import opened RelayBasics
  import opened RelayReach

  /** `r` has an open watch and is registered with key `k`, whose entry holds a response. */
  ghost predicate Due(s: System, k: Key, r: Req) {
    var o := Lookup(s.cache.lru, k);
    && o.Some? && o.value.resp.Some?
    && o.value.requests in s.cache.stores && r in s.cache.stores[o.value.requests] && r in s.open
  }

  /** The thread will offer `r` the response in `v` or a later one, unless the entry of `k` goes. */
  ghost predicate Covers(th: Thread, r: Req, k: Key, v: Value)
    requires v.resp.Some?
  {
    var n := v.resp.value.stamp;
    match th.job
    case Creating(q, ToPush) =>
      q == r && (th.fetch.Got? ==> Cached(th.fetch.f).Some? && Cached(th.fetch.f).value.stamp >= n)
    case Sending(q, m, _, _) => q == r && m.stamp >= n
    case Watching(id, ToFan) =>
      && id.key == k
      && (th.fetch.Got? ==>
            && th.fetch.f.Hit? && th.fetch.f.value.requests == v.requests
            && th.fetch.f.value.resp.Some? && th.fetch.f.value.resp.value.stamp >= n)
    case Watching(_, Scanning(m, store, must, visited)) =>
      store == v.requests && m.stamp >= n && r in must && r !in visited
    case _ => false
  }

  /** A `Send` to `r` of the response in `v` or a later one has come to its write, or `CreateWatch` has withheld one,
      or a thread will do one of these. */
  ghost predicate Covered(s: System, r: Req, k: Key, v: Value)
    requires v.resp.Some?
  {
    || At(s.attempted, r) > v.resp.value.stamp
    || At(s.skipped, r) > v.resp.value.stamp
    || exists t :: t in s.threads && Covers(s.threads[t], r, k, v)
  }

  ghost predicate NoMiss(s: System) {
    forall k, r :: Due(s, k, r) ==> Covered(s, r, k, Lookup(s.cache.lru, k).value)
  }

  // -------------------------------------------------------------- preservation

  ghost predicate HistoryGrows(s: System, s': System) {
    && (forall r :: At(s'.attempted, r) >= At(s.attempted, r))
    && (forall r :: At(s'.skipped, r) >= At(s.skipped, r))
  }

  /** Whatever `t` was going to do is done, or `t` or a thread it started is still going to do it. */
  ghost predicate HandsOn(s: System, s': System, t: Tid) {
    t in s.threads ==>
      forall k, r :: Due(s', k, r) && Covers(s.threads[t], r, k, Lookup(s'.cache.lru, k).value) ==>
        Covered(s', r, k, Lookup(s'.cache.lru, k).value)
  }

  /** Anyone due after the step was due before it, with the same entry, or is covered now. */
  ghost predicate DueBefore(s: System, s': System) {
    forall k, r :: Due(s', k, r) ==>
      || (Due(s, k, r) && SameOffer(Lookup(s.cache.lru, k), Lookup(s'.cache.lru, k)))
      || Covered(s', r, k, Lookup(s'.cache.lru, k).value)
  }

  ghost predicate SameOffer(o: Option<Value>, o': Option<Value>) {
    o.Some? && o'.Some? && o.value.resp == o'.value.resp && o.value.requests == o'.value.requests
  }

  lemma CoverStep(s: System, s': System, t: Tid)
    requires NoMiss(s) && OthersStay(s, s', t) && HistoryGrows(s, s') && HandsOn(s, s', t) && DueBefore(s, s')
    ensures NoMiss(s')
  {
    forall k, r | Due(s', k, r) ensures Covered(s', r, k, Lookup(s'.cache.lru, k).value) {
      var v := Lookup(s'.cache.lru, k).value;
      if Due(s, k, r) && SameOffer(Lookup(s.cache.lru, k), Lookup(s'.cache.lru, k)) {
        assert Covered(s, r, k, Lookup(s.cache.lru, k).value);
        if At(s.attempted, r) <= v.resp.value.stamp && At(s.skipped, r) <= v.resp.value.stamp {
          var x :| x in s.threads && Covers(s.threads[x], r, k, Lookup(s.cache.lru, k).value);
          assert Covers(s.threads[x], r, k, v);
        }
      }
    }
  }

  /** Steps that leave the cache alone and open no watch that was added before. */
  lemma DueSame(s: System, s': System)
    requires Basics(s) && s'.cache == s.cache && s'.added == s.added
    requires forall r :: r in s'.open && r in s.added ==> r in s.open
    ensures DueBefore(s, s')
  {
    forall k, r | Due(s', k, r) ensures Due(s, k, r) {
      assert Members(s, s.cache.stores[Lookup(s.cache.lru, k).value.requests], Lookup(s.cache.lru, k).value.requests.key);
    }
  }

  /** Steps in which `t` covers no one, before. */
  lemma CoverSame(s: System, s': System, t: Tid)
    requires Basics(s) && NoMiss(s) && OthersStay(s, s', t) && s'.cache == s.cache && s'.added == s.added
    requires forall r :: r in s'.open && r in s.added ==> r in s.open
    requires s'.attempted == s.attempted && s'.skipped == s.skipped
    requires t in s.threads ==>
               || (t in s'.threads && s'.threads[t].job == s.threads[t].job && s'.threads[t].fetch == s.threads[t].fetch)
               || (s.threads[t].job.Creating? && !s.threads[t].job.cpc.ToPush?)
               || (s.threads[t].job.Watching? && !s.threads[t].job.wpc.ToFan? && !s.threads[t].job.wpc.Scanning?)
               || (!s.threads[t].job.Creating? && !s.threads[t].job.Watching? && !s.threads[t].job.Sending?)
    ensures NoMiss(s')
  {
    DueSame(s, s');
    forall k, r | t in s.threads && Due(s', k, r) && Covers(s.threads[t], r, k, Lookup(s'.cache.lru, k).value)
      ensures Covered(s', r, k, Lookup(s'.cache.lru, k).value)
    {
      assert Covers(s'.threads[t], r, k, Lookup(s'.cache.lru, k).value);
    }
    CoverStep(s, s', t);
  }

  lemma PushCover(s: System, t: Tid, u: Tid)
    requires Basics(s) && NoMiss(s) && CanPush(s, t, u)
    ensures NoMiss(DoPush(s, t, u))
  {
    var s' := DoPush(s, t, u);
    DueSame(s, s');
    forall k, r | Due(s', k, r) && Covers(s.threads[t], r, k, Lookup(s'.cache.lru, k).value)
      ensures Covered(s', r, k, Lookup(s'.cache.lru, k).value)
    {
      assert Covers(s'.threads[u], r, k, Lookup(s'.cache.lru, k).value);
    }
    CoverStep(s, s', t);
  }

  lemma NoPushCover(s: System, t: Tid)
    requires Basics(s) && NoMiss(s) && CanNoPush(s, t)
    ensures NoMiss(DoNoPush(s, t))
  {
    var s' := DoNoPush(s, t);
    DueSame(s, s');
    CoverStep(s, s', t);
  }

  lemma FanCover(s: System, t: Tid, u: Tid, r: Req)
    requires Basics(s) && NoMiss(s) && CanFan(s, t, u, r)
    ensures NoMiss(DoFan(s, t, u, r))
  {
    var s' := DoFan(s, t, u, r);
    DueSame(s, s');
    forall k, q | Due(s', k, q) && Covers(s.threads[t], q, k, Lookup(s'.cache.lru, k).value)
      ensures Covered(s', q, k, Lookup(s'.cache.lru, k).value)
    {
      assert Covers(s'.threads[if q == r then u else t], q, k, Lookup(s'.cache.lru, k).value);
    }
    CoverStep(s, s', t);
  }

  lemma StartScanCover(s: System, t: Tid)
    requires Basics(s) && NoMiss(s) && CanStartScan(s, t)
    ensures NoMiss(DoStartScan(s, t))
  {
    var s' := DoStartScan(s, t);
    DueSame(s, s');
    forall k, r | Due(s', k, r) && Covers(s.threads[t], r, k, Lookup(s'.cache.lru, k).value)
      ensures Covered(s', r, k, Lookup(s'.cache.lru, k).value)
    {
      assert Covers(s'.threads[t], r, k, Lookup(s'.cache.lru, k).value);
    }
    CoverStep(s, s', t);
  }

  /** The scan ends only when everyone who was there when it began, and still is, has been offered. */
  lemma EndScanCover(s: System, t: Tid)
    requires Basics(s) && NoMiss(s) && CanEndScan(s, t)
    ensures NoMiss(DoEndScan(s, t))
  {
    var s' := DoEndScan(s, t);
    DueSame(s, s');
    CoverStep(s, s', t);
  }

  /** `Get` gives up, `Enter` gives up, only if the watch is closed. */
  lemma GetCover(s: System, t: Tid)
    requires Basics(s) && NoMiss(s) && CanGet(s, t)
    ensures NoMiss(DoGet(s, t))
  {
    var s' := DoGet(s, t);
    DueSame(s, s');
    SenderStays(s, s', t);
  }

  lemma EnterCover(s: System, t: Tid)
    requires Basics(s) && NoMiss(s) && CanEnter(s, t)
    ensures NoMiss(DoEnter(s, t))
  {
    var s' := DoEnter(s, t);
    DueSame(s, s');
    assert WatchOk(s.reqs, s.open, s.sets, s.threads[t].job.r, s.watches[s.threads[t].job.r]);
    SenderStays(s, s', t);
  }

  lemma DrainCover(s: System, t: Tid)
    requires Basics(s) && NoMiss(s) && CanDrain(s, t)
    ensures NoMiss(DoDrain(s, t))
  {
    var s' := DoDrain(s, t);
    DueSame(s, s');
    SenderStays(s, s', t);
  }

  lemma SenderStays(s: System, s': System, t: Tid)
    requires NoMiss(s) && OthersStay(s, s', t) && HistoryGrows(s, s') && DueBefore(s, s')
    requires t in s.threads && s.threads[t].job.Sending? && t in s'.threads
    requires s.threads[t].job.r in s'.open ==>
               s'.threads[t].job.Sending? && s'.threads[t].job.r == s.threads[t].job.r && s'.threads[t].job.m == s.threads[t].job.m
    ensures NoMiss(s')
  {
    forall k, r | Due(s', k, r) && Covers(s.threads[t], r, k, Lookup(s'.cache.lru, k).value)
      ensures Covered(s', r, k, Lookup(s'.cache.lru, k).value)
    {
      assert Covers(s'.threads[t], r, k, Lookup(s'.cache.lru, k).value);
    }
    CoverStep(s, s', t);
  }

  lemma WriteCover(s: System, t: Tid)
    requires Basics(s) && NoMiss(s) && CanWrite(s, t)
    ensures NoMiss(DoWrite(s, t))
  {
    var s' := DoWrite(s, t);
    DueSame(s, s');
    CoverStep(s, s', t);
  }

  // ------------------------------------------------------- cache operations

  lemma DueKey(s: System, k: Key, r: Req)
    requires Basics(s) && Due(s, k, r)
    ensures KeyOf(s, r) == k && r in s.added
  {
    var v := Lookup(s.cache.lru, k).value;
    assert Members(s, s.cache.stores[v.requests], v.requests.key);
  }

  /** A request registers before it fetches, so it is its own witness. */
  lemma AddCover(cfg: Config, s: System, t: Tid, n: nat)
    requires Basics(s) && NoMiss(s) && CanAdd(s, t, n)
    ensures NoMiss(DoAdd(cfg, s, t, n))
  {
    hide AddRequest, HistoryOk;
    var r := s.threads[t].job.r;
    var k, h := KeyOf(s, r), StoreId(KeyOf(s, r), n);
    AddRequestEffect(s.cache, cfg, k, r, s.now, h);
    WriteCovered(s, DoAdd(cfg, s, t, n), t, AddRequest(s.cache, cfg, k, r, s.now, h).evicted, k,
                 EntryOr(s.cache.lru, cfg, k, s.now, h), {r});
  }

  /** A response is stored before the watchers are looked up: the thread that stores it is the witness
      for everyone registered. */
  lemma SetUpCover(cfg: Config, s: System, t: Tid, n: nat)
    requires Basics(s) && NoMiss(s) && CanSetUp(s, t, n)
    ensures NoMiss(DoSetUp(cfg, s, t, n))
  {
    hide SetResponse, HistoryOk;
    var id := s.threads[t].job.s;
    var m, h := Msg(s.threads[t].job.wpc.version, id, |s.sets|), StoreId(id.key, n);
    SetResponseEffect(s.cache, cfg, id.key, m, s.now, h);
    var v := EntryOr(s.cache.lru, cfg, id.key, s.now, h).(resp := Some(m), expiry := ExpirationTime(cfg, s.now));
    WriteCovered(s, DoSetUp(cfg, s, t, n), t, SetResponse(s.cache, cfg, id.key, m, s.now, h).evicted, id.key, v, {});
  }

  /** A write of key `k` that registers `rs` or brings a response, by a thread that covers whoever is
      concerned. */
  lemma WriteCovered(s: System, s': System, t: Tid, out: Option<Entry<Msg, StoreId>>, k: Key, v: Value, rs: set<Req>)
    requires NoMiss(s) && OthersStay(s, s', t) && t in s'.threads && s'.open == s.open
    requires s'.attempted == s.attempted && s'.skipped == s.skipped
    requires t in s.threads && !s.threads[t].job.Sending? && (s.threads[t].job.Creating? ==> s.threads[t].job.cpc.ToAdd?)
    requires s.threads[t].job.Watching? ==> s.threads[t].job.wpc.ToSet?
    requires Wrote(s.cache.lru, s'.cache.lru, out, k, v)
    requires forall id :: id in s'.cache.stores ==>
               s'.cache.stores[id] <= (if id in s.cache.stores then s.cache.stores[id] else {}) + rs
    requires v.resp.Some? && !SameOffer(Lookup(s.cache.lru, k), Some(v)) ==>
               forall r :: Covers(s'.threads[t], r, k, v)
    requires forall r, q, w: Value :: r in rs && w.resp.Some? ==> Covers(s'.threads[t], r, q, w)
    ensures NoMiss(s')
  {
    forall q, r | Due(s', q, r)
      ensures (Due(s, q, r) && SameOffer(Lookup(s.cache.lru, q), Lookup(s'.cache.lru, q)))
              || Covered(s', r, q, Lookup(s'.cache.lru, q).value)
    {
      var w := Lookup(s'.cache.lru, q).value;
      if r in rs || !SameOffer(Lookup(s.cache.lru, q), Some(w)) {
        assert Covers(s'.threads[t], r, q, w);
      } else {
        assert r in s.cache.stores[w.requests];
      }
    }
    CoverStep(s, s', t);
  }

  lemma ForgetCover(cfg: Config, s: System, t: Tid)
    requires CacheSpec.Valid(s.cache) && NoMiss(s) && CanForget(s, t)
    ensures NoMiss(DoForget(cfg, s, t))
  {
    CoverStep(s, DoForget(cfg, s, t), t);
  }

  lemma ClearKeyCover(s: System, t: Tid, k: Key)
    requires CacheSpec.Valid(s.cache) && NoMiss(s) && CanClearKey(s, t)
    ensures NoMiss(DoClearKey(s, t, k))
  {
    CoverStep(s, DoClearKey(s, t, k), t);
  }

  /** A fetch returns what is in the entry now, if there is one. */
  lemma FetchCover(s: System, s': System, t: Tid, k: Key, out: Option<Entry<Msg, StoreId>>)
    requires NoMiss(s) && OthersStay(s, s', t) && s'.open == s.open
    requires s'.attempted == s.attempted && s'.skipped == s.skipped
    requires Dropped(s.cache.lru, s'.cache.lru, out) && s'.cache.stores == s.cache.stores
    requires t in s.threads && t in s'.threads && s'.threads[t].job == s.threads[t].job
    requires s'.threads[t].fetch == Reaping(k) ||
             (s'.threads[t].fetch.Got?
              && (Lookup(s'.cache.lru, k).Some? ==> s'.threads[t].fetch.f == Hit(Lookup(s'.cache.lru, k).value)))
    // the thread fetches the key it works for
    requires forall q, r :: Due(s', q, r) && s.threads[t].job == Creating(r, ToPush) ==> q == k
    requires forall id :: s.threads[t].job == Watching(id, ToFan) ==> id.key == k
    ensures NoMiss(s')
  {
    forall q, r | Due(s', q, r) && Covers(s.threads[t], r, q, Lookup(s'.cache.lru, q).value)
      ensures Covered(s', r, q, Lookup(s'.cache.lru, q).value)
    {
      assert Covers(s'.threads[t], r, q, Lookup(s'.cache.lru, q).value);
    }
    CoverStep(s, s', t);
  }

  lemma LookCover(s: System, t: Tid)
    requires Basics(s) && NoMiss(s) && CanLook(s, t) && Basics(DoLook(s, t))
    ensures NoMiss(DoLook(s, t))
  {
    FetchingOwnKey(s, DoLook(s, t), t, s.threads[t].fetch.k);
    FetchCover(s, DoLook(s, t), t, s.threads[t].fetch.k, None);
  }

  lemma ReapCover(s: System, t: Tid)
    requires Basics(s) && NoMiss(s) && CanReap(s, t) && Basics(DoReap(s, t))
    ensures NoMiss(DoReap(s, t))
  {
    var k := s.threads[t].fetch.k;
    ReapEffect(s.cache, k, s.now);
    FetchingOwnKey(s, DoReap(s, t), t, k);
    FetchCover(s, DoReap(s, t), t, k, FetchReap(s.cache, k, s.now).0.evicted);
  }

  lemma FetchingOwnKey(s: System, s': System, t: Tid, k: Key)
    requires Basics(s) && Basics(s') && s'.reqs == s.reqs
    requires t in s.threads && (s.threads[t].fetch == Looking(k) || s.threads[t].fetch == Reaping(k))
    ensures forall q, r :: Due(s', q, r) && s.threads[t].job == Creating(r, ToPush) ==> q == k
    ensures forall id :: s.threads[t].job == Watching(id, ToFan) ==> id.key == k
  {
    assert ThreadOk(s, s.threads[t]);
    forall q, r | Due(s', q, r) && s.threads[t].job == Creating(r, ToPush) ensures q == k {
      DueKey(s', q, r);
    }
  }
}
