/**
 The history fields tell the truth, one step at a time: what counts as put into a slot is in it, what counts as
 withheld is what was fetched, sends that count as overlapping overlap, and a key counts as failed or hasty
 only for its own failures. And nobody but its senders and its receiver changes what waits in a watch.
 */
module RelayTruths {
  import opened Common
  import opened CacheSpec
  import opened Relay
  import opened RelayBasics
  import opened RelayStreams
  import opened RelaySteps
  import opened RelaySafety
  import opened RelayLive

  // ------------------------------------------------------- slots and sends

  /** The step puts a response into the slot of `r`, or finds it full. */
  predicate WritesTo(s: System, a: Action, r: Req) {
    && a.Write? && a.t in s.threads && s.threads[a.t].job.Sending? && s.threads[a.t].job.r == r
    && s.threads[a.t].job.spc.ToWrite?
  }

  predicate DrainsOf(s: System, a: Action, r: Req) {
    a.Drain? && a.t in s.threads && s.threads[a.t].job.Sending? && s.threads[a.t].job.r == r
  }

  /** What waits in the watch of `r` stays, but for its senders and its receiver; a write finds room or changes
      nothing; and "written" means that it is in the slot. */
  ghost predicate SlotTruth(s: System, a: Action, s': System, r: Req) {
    r in s.watches && r in s.reqs ==>
      && r in s'.watches
      && (s'.watches[r].held != s.watches[r].held ==> a == Consume(r) || DrainsOf(s, a, r) || WritesTo(s, a, r))
      && (a == Consume(r) || DrainsOf(s, a, r) ==> s'.watches[r].held.None?)
      && (WritesTo(s, a, r) ==>
            s'.watches[r].held == if s.watches[r].held.Some? then s.watches[r].held else Some(s.threads[a.t].job.m))
      && (At(s'.log.written, r) != At(s.log.written, r) ==>
            && WritesTo(s, a, r) && s.watches[r].held.None?
            && At(s'.log.written, r) == s.threads[a.t].job.m.stamp + 1)
      && (WritesTo(s, a, r) && s.watches[r].held.None? ==> At(s'.log.written, r) > s.threads[a.t].job.m.stamp)
      && (WritesTo(s, a, r) && s.watches[r].held.Some? ==>
            && |s'.log.dropped| == |s.log.dropped| + 1
            && s'.log.dropped[|s.log.dropped|].r == r && s'.log.dropped[|s.log.dropped|].m == s.threads[a.t].job.m)
      && (s'.log.dropped != s.log.dropped ==> exists q :: WritesTo(s, a, q))
  }

  lemma EnrolSlots(cfg: Config, s: System, a: Action, s': System, r: Req)
    requires CacheSpec.Valid(s.cache) && CreateNext(cfg, s, a, s') && Enrols(a)
    ensures SlotTruth(s, a, s', r)
  {
    hide AddRequest, CacheSpec.Valid, Quiet, Wants, Cached;
  }

  lemma StreamSlots(cfg: Config, s: System, a: Action, s': System, r: Req)
    requires CacheSpec.Valid(s.cache) && CreateNext(cfg, s, a, s') && !Enrols(a)
    ensures SlotTruth(s, a, s', r)
  {
    hide DeleteRequest, CacheSpec.Valid, Quiet, Cleaning, Misses;
  }

  lemma WatchSlots(cfg: Config, s: System, a: Action, s': System, r: Req)
    requires CacheSpec.Valid(s.cache) && WatchNext(cfg, s, a, s')
    ensures SlotTruth(s, a, s', r)
  {
    hide SetResponse, CacheSpec.Valid, Cached;
  }

  lemma FetchSlots(cfg: Config, s: System, a: Action, s': System, r: Req)
    requires CacheSpec.Valid(s.cache) && FetchNext(cfg, s, a, s')
    ensures SlotTruth(s, a, s', r)
  {
    hide FetchLook, FetchReap, DeleteKey, CacheSpec.Valid;
  }

  lemma EvictSlots(cfg: Config, s: System, a: Action, s': System, r: Req)
    requires CacheSpec.Valid(s.cache) && EvictNext(cfg, s, a, s')
    ensures SlotTruth(s, a, s', r)
  {
    hide CacheSpec.Valid, Quiet, OtherRemoval;
  }

  lemma SendSlots(cfg: Config, s: System, a: Action, s': System, r: Req)
    requires CacheSpec.Valid(s.cache) && SendNext(cfg, s, a, s')
    ensures SlotTruth(s, a, s', r)
  {
    hide CacheSpec.Valid, OtherHolder;
    if a.Write? {
      assert WritesTo(s, a, s.threads[a.t].job.r);
    }
  }

  /** What waits in a watch is changed by its senders and its receiver only, so closing it - by a cancellation,
      an eviction or a rejection - leaves what waits to be received; and the records of what was put into the
      slot and of what was dropped are what happened. */
  lemma SlotsTellTheTruth(cfg: Config, s: System, a: Action, s': System, r: Req)
    requires Next(cfg, s, a, s')
    ensures SlotTruth(s, a, s', r)
  {
    hide CreateNext, WatchNext, FetchNext, EvictNext, SendNext, CacheSpec.Valid, SlotTruth;
    if CreateNext(cfg, s, a, s') {
      if Enrols(a) {
        EnrolSlots(cfg, s, a, s', r);
      } else {
        StreamSlots(cfg, s, a, s', r);
      }
    } else if WatchNext(cfg, s, a, s') {
      WatchSlots(cfg, s, a, s', r);
    } else if FetchNext(cfg, s, a, s') {
      FetchSlots(cfg, s, a, s', r);
    } else if EvictNext(cfg, s, a, s') {
      EvictSlots(cfg, s, a, s', r);
    } else {
      SendSlots(cfg, s, a, s', r);
    }
  }

  predicate MovesSlots(a: Action) { a.Consume? || a.Drain? || a.Write? }

  lemma SlotMovesSend(cfg: Config, s: System, a: Action, s': System)
    requires Next(cfg, s, a, s') && MovesSlots(a)
    ensures CacheSpec.Valid(s.cache) && SendNext(cfg, s, a, s')
  {
    hide SendNext, CacheSpec.Valid;
  }

  lemma SlotMovesLeaveOpen(cfg: Config, s: System, a: Action, s': System)
    requires CacheSpec.Valid(s.cache) && SendNext(cfg, s, a, s') && MovesSlots(a)
    ensures s'.open == s.open
  {
    hide CacheSpec.Valid;
  }

  lemma ClosedWatch(s: System, r: Req)
    requires WatchesOk(s) && r in s.watches && r !in s.open
    ensures s.watches[r].Closed()
  {
    assert WatchOk(s.reqs, s.open, s.sets, r, s.watches[r]);
  }

  /** A watch that is closed keeps what waits in it. */
  lemma CloseKeepsWaiting(cfg: Config, s: System, a: Action, s': System, r: Req)
    requires Basics(s) && WatchesOk(s') && Next(cfg, s, a, s') && r in s.open && r !in s'.open
    ensures r in s'.watches && s'.watches[r].Closed() && r in s.watches && s'.watches[r].held == s.watches[r].held
  {
    hide Next, SendNext, WatchOk, CacheOk, ThreadsOk, LocksOk, HistoryOk;
    SlotsTellTheTruth(cfg, s, a, s', r);
    ClosedWatch(s', r);
    if MovesSlots(a) {
      SlotMovesSend(cfg, s, a, s');
      SlotMovesLeaveOpen(cfg, s, a, s');
    }
  }

  // ------------------------------------------------------ the other records

  /** What the step adds to the records. */
  ghost predicate RecordTruth(s: System, a: Action, s': System, k: Key, r: Req) {
    && (At(s'.skipped, r) != At(s.skipped, r) ==>
          && a.NoPush? && a.t in s.threads && s.threads[a.t].job.Creating? && s.threads[a.t].job.r == r
          && s.threads[a.t].fetch.Got? && s.threads[a.t].fetch.f.Hit? && s.threads[a.t].fetch.f.value.resp.Some?
          && At(s'.skipped, r) == s.threads[a.t].fetch.f.value.resp.value.stamp + 1)
    && (r in s'.log.crossed && r !in s.log.crossed ==>
          exists t, u :: t != u && t in s'.threads && u in s'.threads && Holds(s'.threads[t], r) && Holds(s'.threads[u], r))
    && (r in s'.log.cancelled <==> r in s.log.cancelled || (a.Cancel? && a.r == r))
    && (k in s'.log.failed && k !in s.log.failed ==>
          || (a.FailUp? && a.t in s.threads && s.threads[a.t].job.Watching? && s.threads[a.t].job.s.key == k)
          || (a.Shutdown? && a.k == k))
    && (k in s'.log.hasty && k !in s.log.hasty ==>
          || (a.Shutdown? && a.k == k)
          || (a.Clean? && k in s'.up && s'.up[k] in s'.streams && s'.streams[s'.up[k]].phase.Ended?)
          || exists t, q :: t in s.threads && q in s'.returned && KeyOf(s, q) == k && Misses(s.threads[t], s.cache.stores, k, q))
  }

  lemma EnrolRecords(cfg: Config, s: System, a: Action, s': System, k: Key, r: Req)
    requires CacheSpec.Valid(s.cache) && CreateNext(cfg, s, a, s') && Enrols(a)
    ensures RecordTruth(s, a, s', k, r)
  {
    hide AddRequest, CacheSpec.Valid, Quiet, Wants;
  }

  lemma StreamRecords(cfg: Config, s: System, a: Action, s': System, k: Key, r: Req)
    requires CacheSpec.Valid(s.cache) && CreateNext(cfg, s, a, s') && !Enrols(a)
    ensures RecordTruth(s, a, s', k, r)
  {
    hide DeleteRequest, CacheSpec.Valid, Quiet, Cleaning, Misses;
  }

  lemma WatchRecords(cfg: Config, s: System, a: Action, s': System, k: Key, r: Req)
    requires CacheSpec.Valid(s.cache) && WatchNext(cfg, s, a, s')
    ensures RecordTruth(s, a, s', k, r)
  {
    hide SetResponse, CacheSpec.Valid, Cached, Misses;
  }

  lemma FetchRecords(cfg: Config, s: System, a: Action, s': System, k: Key, r: Req)
    requires CacheSpec.Valid(s.cache) && FetchNext(cfg, s, a, s')
    ensures RecordTruth(s, a, s', k, r)
  {
    hide FetchLook, FetchReap, DeleteKey, CacheSpec.Valid, Misses;
  }

  lemma EvictRecords(cfg: Config, s: System, a: Action, s': System, k: Key, r: Req)
    requires CacheSpec.Valid(s.cache) && EvictNext(cfg, s, a, s')
    ensures RecordTruth(s, a, s', k, r)
  {
    hide CacheSpec.Valid, Quiet, OtherRemoval, Misses;
  }

  lemma SendRecords(cfg: Config, s: System, a: Action, s': System, k: Key, r: Req)
    requires CacheSpec.Valid(s.cache) && SendNext(cfg, s, a, s')
    ensures RecordTruth(s, a, s', k, r)
  {
    hide CacheSpec.Valid, Misses;
    if a.Enter? && r in s'.log.crossed && r !in s.log.crossed {
      var u :| u in s.threads && u != a.t && Holds(s.threads[u], r);
      assert Holds(s'.threads[u], r) && Holds(s'.threads[a.t], r);
    }
  }

  /** A response counts as withheld only if `CreateWatch` has just fetched it; sends count as overlapping only
      if two of them are on the same watch at once; a request as cancelled exactly if its cancel function is
      called; a key as failed only if a stream of it failed or the shutdown removed it; and as hasty only for
      one of the three reasons. */
  lemma RecordsTellTheTruth(cfg: Config, s: System, a: Action, s': System, k: Key, r: Req)
    requires Next(cfg, s, a, s')
    ensures RecordTruth(s, a, s', k, r)
  {
    hide CreateNext, WatchNext, FetchNext, EvictNext, SendNext, CacheSpec.Valid, RecordTruth;
    if CreateNext(cfg, s, a, s') {
      if Enrols(a) {
        EnrolRecords(cfg, s, a, s', k, r);
      } else {
        StreamRecords(cfg, s, a, s', k, r);
      }
    } else if WatchNext(cfg, s, a, s') {
      WatchRecords(cfg, s, a, s', k, r);
    } else if FetchNext(cfg, s, a, s') {
      FetchRecords(cfg, s, a, s', k, r);
    } else if EvictNext(cfg, s, a, s') {
      EvictRecords(cfg, s, a, s', k, r);
    } else {
      SendRecords(cfg, s, a, s', k, r);
    }
  }

  lemma InsertCools(cfg: Config, s: System, t: Tid, u: Tid, s': System)
    requires CacheSpec.Valid(s.cache) && CreateNext(cfg, s, Insert(t, u), s')
    ensures IsCreating(s, t)
    ensures (forall x :: x in s.threads ==> !Cleaning(s.threads[x], KeyOf(s, s.threads[t].job.r))) ==>
      KeyOf(s, s.threads[t].job.r) !in s'.log.hasty
  {
    hide CacheSpec.Valid, Misses;
  }

  lemma EvictionCools(cfg: Config, s: System, a: Action, s': System)
    requires CacheSpec.Valid(s.cache) && EvictNext(cfg, s, a, s') && (a.Delete? || a.LoadNone?)
    ensures a.t in s.threads && !s.threads[a.t].cb.NoCallback?
    ensures s.threads[a.t].cb.locked ==> s.threads[a.t].cb.k !in s'.log.hasty
  {
    hide CacheSpec.Valid;
  }

  /** The haste of a key ends with an eviction of it, and when a new stream of it is put into the map while nobody
      who has found its entry is cleaning up. */
  lemma HasteEnds(cfg: Config, s: System, a: Action, s': System)
    requires Next(cfg, s, a, s') && (a.Insert? || a.Delete? || a.LoadNone?)
    ensures a.t in s.threads
    ensures a.Insert? && s.threads[a.t].job.Creating?
      && (forall x :: x in s.threads ==> !Cleaning(s.threads[x], KeyOf(s, s.threads[a.t].job.r)))
      ==> KeyOf(s, s.threads[a.t].job.r) !in s'.log.hasty
    ensures !a.Insert? && !s.threads[a.t].cb.NoCallback? && s.threads[a.t].cb.locked ==> s.threads[a.t].cb.k !in s'.log.hasty
  {
    hide CreateNext, WatchNext, FetchNext, EvictNext, SendNext, CacheSpec.Valid, Cleaning;
    if a.Insert? {
      InsertIsCreate(cfg, s, a, s');
      InsertCools(cfg, s, a.t, a.u, s');
    } else {
      EndIsEvict(cfg, s, a, s');
      EvictionCools(cfg, s, a, s');
    }
  }

  lemma InsertIsCreate(cfg: Config, s: System, a: Action, s': System)
    requires Next(cfg, s, a, s') && a.Insert?
    ensures CreateNext(cfg, s, a, s')
  {
    hide CreateNext, CacheSpec.Valid;
  }

  lemma EndIsEvict(cfg: Config, s: System, a: Action, s': System)
    requires Next(cfg, s, a, s') && (a.Delete? || a.LoadNone?)
    ensures EvictNext(cfg, s, a, s')
  {
    hide EvictNext, CacheSpec.Valid;
  }

  /** A request counts as cancelled exactly if its cancel function has been called. */
  lemma {:induction false} CancelledIff(cfg: Config, now: int, acts: seq<Action>, s: System, r: Req)
    requires Reached(cfg, now, acts, s)
    ensures r in s.log.cancelled <==> exists a :: a in acts && a.Cancel? && a.r == r
  {
    hide Next, RecordTruth;
    if acts != [] {
      var init, a := acts[..|acts| - 1], acts[|acts| - 1];
      var p :| Leads(cfg, Init(now), init, p) && Next(cfg, p, a, s);
      CancelledIff(cfg, now, init, p, r);
      CancelTruth(cfg, p, a, s, r);
      assert acts == init + [a];
    }
  }

  lemma CancelTruth(cfg: Config, s: System, a: Action, s': System, r: Req)
    requires Next(cfg, s, a, s')
    ensures r in s'.log.cancelled <==> r in s.log.cancelled || (a.Cancel? && a.r == r)
  {
    hide Next;
    RecordsTellTheTruth(cfg, s, a, s', "", r);
  }
}
