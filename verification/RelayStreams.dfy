/**
 Upstream streams: every stream ever opened is held by the call that opened it, was shut down as the
 loser of a race, is watched by one goroutine, or has ended. As long as removals of one key from the
 upstream map do not overlap, no `done` channel is closed twice, and a stream is watched in vain for
 no longer than its removal takes.
 */
module RelayStreams {
  import opened Common
  import opened CacheSpec
  import opened Relay
  import opened RelayBasics
  import opened RelayReach

  /** The phase of a stream names the thread that holds it. */
  ghost predicate PhaseOk(s: System, id: StreamId)
    requires id in s.streams
  {
    match s.streams[id].phase
    case Transit(t) => t in s.threads && Holder(s.threads[t]) == Some(id) && s.threads[t].job.Creating?
    case Watched(t) => t in s.threads && Holder(s.threads[t]) == Some(id) && s.threads[t].job.Watching?
    case Loser => true
    case Ended => true
  }

  /** The stream a thread is responsible for, if any. */
  function Holder(th: Thread): Option<StreamId> {
    match th.job
    case Creating(_, ToInsert(id)) => Some(id)
    case Watching(id, _) => Some(id)
    case _ => None
  }

  function PhaseOf(t: Tid, th: Thread): Phase {
    if th.job.Creating? then Transit(t) else Watched(t)
  }

  /** Both directions: phases name their holders, and whoever holds a stream is named by its phase. */
  ghost predicate Owned(s: System) {
    && (forall id :: id in s.streams ==> PhaseOk(s, id))
    && (forall t :: t in s.threads ==> HoldsOwn(s, t))
    && (forall id :: id in s.streams && (s.streams[id].phase.Transit? || s.streams[id].phase.Loser?) ==>
          s.streams[id].closes == 0)
    && (forall k :: k in s.up ==> Stored(s, s.up[k]))
    && (forall t :: t in s.threads ==> ClosesStored(s, s.threads[t].cb))
    && (forall m :: m in s.sets ==> m.stream in s.streams)
  }

  ghost predicate ClosesStored(s: System, cb: Callback) {
    cb.ToCloseDone? || cb.ToDelete? ==> Stored(s, cb.s)
  }

  ghost predicate HoldsOwn(s: System, t: Tid)
    requires t in s.threads
  {
    var h := Holder(s.threads[t]);
    h.Some? ==> h.value in s.streams && s.streams[h.value].phase == PhaseOf(t, s.threads[t])
  }

  ghost predicate Stored(s: System, id: StreamId) {
    id in s.streams && (s.streams[id].phase.Watched? || s.streams[id].phase.Ended?)
  }

  /** A removal under way works on what the map holds for its key, before and after the closing. */
  ghost predicate RemovalOk(s: System, cb: Callback) {
    && (cb.ToCloseDone? ==> cb.k in s.up && s.up[cb.k] == cb.s && cb.s in s.streams && s.streams[cb.s].closes == 0)
    && (cb.ToDelete? ==> cb.k in s.up && s.up[cb.k] == cb.s && cb.s in s.streams && s.streams[cb.s].closes == 1)
  }

  ghost predicate InMap(s: System, id: StreamId) {
    id.key in s.up && s.up[id.key] == id
  }

  /** Some thread has closed the `done` channel of `id` and has yet to delete it from the map. */
  ghost predicate MidRemoval(s: System, id: StreamId) {
    exists t :: t in s.threads && s.threads[t].cb.ToDelete? && s.threads[t].cb.s == id
  }

  ghost predicate DoneOk(s: System, id: StreamId)
    requires id in s.streams
  {
    && s.streams[id].closes <= 1
    && (s.streams[id].phase.Watched? && s.streams[id].closes == 0 ==> InMap(s, id))
    && (s.streams[id].closes == 1 && InMap(s, id) ==> MidRemoval(s, id))
  }

  ghost predicate NonOverlapping(s: System) {
    && (forall t, u, k :: t in s.threads && u in s.threads && Removing(s.threads[t].cb, k) && Removing(s.threads[u].cb, k) ==> t == u)
    && (forall t :: t in s.threads ==> RemovalOk(s, s.threads[t].cb))
    && (forall id :: id in s.streams ==> DoneOk(s, id))
  }

  ghost predicate StreamsOk(s: System) {
    Owned(s) && (!s.overlap ==> NonOverlapping(s))
  }

  // -------------------------------------------------------------- preservation

  /** Steps after which all streams are in the same phase and the same hands, and the map has no more. */
  lemma OwnedStays(s: System, s': System, t: Tid)
    requires Owned(s) && OthersStay(s, s', t)
    requires forall k :: k in s'.up ==> k in s.up && s'.up[k] == s.up[k]
    requires s'.streams.Keys == s.streams.Keys && forall id :: id in s.streams ==> s'.streams[id].phase == s.streams[id].phase
    requires forall id :: id in s.streams && s'.streams[id].closes != s.streams[id].closes ==> Stored(s, id)
    requires forall x :: x in s'.threads && x !in s.threads ==> Holder(s'.threads[x]).None?
    requires t in s.threads ==>
               if t in s'.threads then
                 && Holder(s'.threads[t]) == Holder(s.threads[t])
                 && (Holder(s.threads[t]).Some? ==> s'.threads[t].job.Creating? == s.threads[t].job.Creating?)
               else Holder(s.threads[t]).None?
    requires t in s'.threads ==> ClosesStored(s, s'.threads[t].cb)
    requires forall m :: m in s'.sets ==> m in s.sets || m.stream in s.streams
    ensures Owned(s')
  {
    forall id | id in s'.streams ensures PhaseOk(s', id) { assert PhaseOk(s, id); }
    forall x | x in s'.threads ensures HoldsOwn(s', x) { assert x in s.threads ==> HoldsOwn(s, x); }
    forall k | k in s'.up ensures Stored(s', s'.up[k]) { assert Stored(s, s.up[k]); }
    forall x | x in s'.threads ensures ClosesStored(s', s'.threads[x].cb) {
      assert x in s.threads ==> ClosesStored(s, s.threads[x].cb);
    }
  }

  /** Steps that touch neither the map nor the streams, nor what `t` holds or removes. */
  lemma StreamsSame(s: System, s': System, t: Tid)
    requires StreamsOk(s) && OthersStay(s, s', t)
    requires s'.up == s.up && s'.streams == s.streams && s'.overlap == s.overlap
    requires forall m :: m in s'.sets ==> m in s.sets || m.stream in s.streams
    requires forall x :: x in s'.threads && x !in s.threads ==> Holder(s'.threads[x]).None?
    requires t in s.threads ==>
               if t in s'.threads then
                 && Holder(s'.threads[t]) == Holder(s.threads[t])
                 && (Holder(s.threads[t]).Some? ==> s'.threads[t].job.Creating? == s.threads[t].job.Creating?)
               else Holder(s.threads[t]).None?
    requires t in s.threads && (s.threads[t].cb.ToCloseDone? || s.threads[t].cb.ToDelete?) ==>
               t in s'.threads && s'.threads[t].cb == s.threads[t].cb
    requires t in s'.threads && (s'.threads[t].cb.ToCloseDone? || s'.threads[t].cb.ToDelete?) ==>
               t in s.threads && s'.threads[t].cb == s.threads[t].cb
    ensures StreamsOk(s')
  {
    assert t in s.threads ==> ClosesStored(s, s.threads[t].cb);
    OwnedStays(s, s', t);
    if !s.overlap {
      RemovalsSame(s, s', t);
    }
  }

  lemma RemovalsSame(s: System, s': System, t: Tid)
    requires NonOverlapping(s) && OthersStay(s, s', t)
    requires s'.up == s.up && s'.streams == s.streams
    requires t in s.threads && (s.threads[t].cb.ToCloseDone? || s.threads[t].cb.ToDelete?) ==>
               t in s'.threads && s'.threads[t].cb == s.threads[t].cb
    requires t in s'.threads && (s'.threads[t].cb.ToCloseDone? || s'.threads[t].cb.ToDelete?) ==>
               t in s.threads && s'.threads[t].cb == s.threads[t].cb
    ensures NonOverlapping(s')
  {
    forall x | x in s'.threads ensures RemovalOk(s', s'.threads[x].cb) {
      assert x in s.threads ==> RemovalOk(s, s.threads[x].cb);
    }
    forall id | id in s'.streams ensures DoneOk(s', id) {
      assert DoneOk(s, id);
      if MidRemoval(s, id) {
        var x :| x in s.threads && s.threads[x].cb.ToDelete? && s.threads[x].cb.s == id;
        assert x in s'.threads && s'.threads[x].cb.ToDelete?;
      }
    }
    forall x, y, k | x in s'.threads && y in s'.threads && Removing(s'.threads[x].cb, k) && Removing(s'.threads[y].cb, k)
      ensures x == y
    {
      assert Removing(s.threads[x].cb, k) && Removing(s.threads[y].cb, k);
    }
  }

  lemma OpenStreamStreams(s: System, t: Tid, n: nat)
    requires StreamsOk(s) && CanOpenStream(s, t, n)
    ensures StreamsOk(DoOpenStream(s, t, n))
  {
    var s' := DoOpenStream(s, t, n);
    PhasesStay(s, s', t, StreamId(KeyOf(s, s.threads[t].job.r), n));
    if !s.overlap {
      RemovalsStay(s, s', t);
    }
  }

  lemma InsertOwned(s: System, t: Tid, u: Tid)
    requires Owned(s) && CanInsert(s, t, u)
    ensures Owned(DoInsert(s, t, u))
  {
    hide AfterReturn, AfterInsert, CacheSpec.Valid;
    assert HoldsOwn(s, t);
    PhasesStay(s, DoInsert(s, t, u), t, s.threads[t].job.cpc.s);
  }

  lemma InsertStreams(s: System, t: Tid, u: Tid)
    requires StreamsOk(s) && CanInsert(s, t, u)
    ensures StreamsOk(DoInsert(s, t, u))
  {
    hide AfterReturn, AfterInsert, CacheSpec.Valid, NonOverlapping;
    InsertOwned(s, t, u);
    if !s.overlap {
      assert HoldsOwn(s, t);
      RemovalsStay(s, DoInsert(s, t, u), t);
    }
  }

  lemma LoseOwned(s: System, t: Tid)
    requires Owned(s) && CanLose(s, t)
    ensures Owned(DoLose(s, t))
  {
    hide AfterReturn, AfterInsert, CacheSpec.Valid;
    assert HoldsOwn(s, t);
    PhasesStay(s, DoLose(s, t), t, s.threads[t].job.cpc.s);
  }

  lemma LoseStreams(s: System, t: Tid)
    requires StreamsOk(s) && CanLose(s, t)
    ensures StreamsOk(DoLose(s, t))
  {
    hide AfterReturn, AfterInsert, CacheSpec.Valid, NonOverlapping;
    LoseOwned(s, t);
    if !s.overlap {
      assert HoldsOwn(s, t);
      RemovalsStay(s, DoLose(s, t), t);
    }
  }

  lemma CleanStreams(s: System, t: Tid)
    requires StreamsOk(s) && CanClean(s, t)
    ensures StreamsOk(DoClean(s, t))
  {
    var s', id := DoClean(s, t), s.threads[t].job.s;
    assert HoldsOwn(s, t);
    PhasesStay(s, s', t, id);
    if !s.overlap {
      RemovalsStay(s, s', t);
    }
  }

  lemma StopStreams(s: System, t: Tid)
    requires StreamsOk(s) && CanStop(s, t)
    ensures StreamsOk(DoStop(s, t))
  {
    var s', id := DoStop(s, t), s.threads[t].job.s;
    assert HoldsOwn(s, t);
    PhasesStay(s, s', t, id);
    if !s.overlap {
      RemovalsStay(s, s', t);
    }
  }

  /** Steps that change one stream, `id`, held before or after by `t` alone. */
  lemma PhasesStay(s: System, s': System, t: Tid, id: StreamId)
    requires Owned(s) && OthersStay(s, s', t) && t in s.threads && t in s'.threads
    requires s'.streams.Keys == s.streams.Keys + {id} && s'.sets == s.sets
    requires forall x :: x in s.streams && x != id ==> s'.streams[x] == s.streams[x]
    requires id in s.streams ==> (s.streams[id].phase == Transit(t) || s.streams[id].phase == Watched(t))
    requires forall x :: x in s'.threads && x !in s.threads ==> HoldsOwn(s', x) && (Holder(s'.threads[x]).Some? ==> Holder(s'.threads[x]) == Some(id))
    requires PhaseOk(s', id) && HoldsOwn(s', t)
    requires Holder(s.threads[t]) == None || Holder(s.threads[t]) == Some(id)
    requires s'.streams[id].phase.Transit? || s'.streams[id].phase.Loser? ==> s'.streams[id].closes == 0
    requires forall k :: k in s'.up ==> (k in s.up && s'.up[k] == s.up[k]) || s'.up[k] == id
    requires (exists k :: k in s'.up && s'.up[k] == id) ==> Stored(s', id)
    requires Stored(s, id) ==> Stored(s', id)
    requires s'.threads[t].cb.NoCallback? || s'.threads[t].cb.ToLock?
    ensures Owned(s')
  {
    forall x | x in s'.threads ensures ClosesStored(s', s'.threads[x].cb) {
      assert x in s.threads ==> ClosesStored(s, s.threads[x].cb);
    }
    forall x | x in s'.streams ensures PhaseOk(s', x) {
      assert x != id ==> PhaseOk(s, x);
    }
    forall x | x in s'.threads ensures HoldsOwn(s', x) {
      assert x in s.threads ==> HoldsOwn(s, x);
    }
    forall k | k in s'.up ensures Stored(s', s'.up[k]) {
      assert k in s.up ==> Stored(s, s.up[k]);
    }
  }

  /** Steps that close no `done` channel and take nothing out of the map. */
  lemma RemovalsStay(s: System, s': System, t: Tid)
    requires NonOverlapping(s) && OthersStay(s, s', t) && t in s'.threads
    requires t in s.threads && s.threads[t].cb.NoCallback? && (s'.threads[t].cb.NoCallback? || s'.threads[t].cb.ToLock?)
    requires forall k :: k in s.up ==> k in s'.up && s'.up[k] == s.up[k]
    requires forall x :: x in s.streams ==> x in s'.streams && s'.streams[x].closes == s.streams[x].closes
    requires forall x :: x in s'.streams && x !in s.streams ==> s'.streams[x].closes == 0 && s'.streams[x].phase.Transit?
    requires forall x :: x in s.streams && s'.streams[x].phase.Watched? ==> s.streams[x].phase.Watched? || InMap(s', x)
    requires forall k :: k in s'.up && k !in s.up ==> s'.up[k] in s.streams && s'.streams[s'.up[k]].closes == 0
    ensures NonOverlapping(s')
  {
    forall x | x in s'.threads ensures RemovalOk(s', s'.threads[x].cb) {
      assert x in s.threads ==> RemovalOk(s, s.threads[x].cb);
    }
    forall id | id in s'.streams ensures DoneOk(s', id) {
      if id in s.streams {
        assert DoneOk(s, id);
        if MidRemoval(s, id) {
          var x :| x in s.threads && s.threads[x].cb.ToDelete? && s.threads[x].cb.s == id;
          assert x in s'.threads && s'.threads[x].cb.ToDelete?;
        }
      }
    }
    forall x, y, k | x in s'.threads && y in s'.threads && Removing(s'.threads[x].cb, k) && Removing(s'.threads[y].cb, k)
      ensures x == y
    {
      assert Removing(s.threads[x].cb, k) && Removing(s.threads[y].cb, k);
    }
  }

  // ----------------------------------------------- the three steps of a removal

  /** `Load` by `onCacheEvicted`, or by the iteration of `shutdown`. */
  lemma LoadStreams(s: System, s': System, t: Tid, k: Key)
    requires ThreadsOk(s) && UpOk(s) && StreamsOk(s) && OthersStay(s, s', t) && t in s'.threads && k in s.up
    requires t in s.threads ==> s.threads[t].cb.ToLoad? && s'.threads[t].job == s.threads[t].job
    requires t !in s.threads ==> Holder(s'.threads[t]).None?
    requires s'.threads[t].cb.ToCloseDone? && s'.threads[t].cb.k == k && s'.threads[t].cb.s == s.up[k]
    requires s'.threads.Keys == s.threads.Keys + {t}
    requires s'.up == s.up && s'.streams == s.streams && s'.overlap == (s.overlap || OtherRemoval(s.threads, t, k))
    requires s'.sets == s.sets
    ensures StreamsOk(s')
  {
    assert Stored(s, s.up[k]);
    OwnedStays(s, s', t);
    if !s'.overlap {
      LoadRemovals(s, s', t, k);
    }
  }

  lemma LoadRemovals(s: System, s': System, t: Tid, k: Key)
    requires ThreadsOk(s) && UpOk(s) && Owned(s) && NonOverlapping(s) && OthersStay(s, s', t) && t in s'.threads && k in s.up
    requires t in s.threads ==> s.threads[t].cb.ToLoad?
    requires s'.threads[t].cb.ToCloseDone? && s'.threads[t].cb.k == k && s'.threads[t].cb.s == s.up[k]
    requires s'.threads.Keys == s.threads.Keys + {t}
    requires s'.up == s.up && s'.streams == s.streams && !OtherRemoval(s.threads, t, k)
    ensures NonOverlapping(s')
  {
    var id := s.up[k];
    assert Stored(s, id) && DoneOk(s, id) && InMap(s, id);
    if MidRemoval(s, id) {
      var x :| x in s.threads && s.threads[x].cb.ToDelete? && s.threads[x].cb.s == id;
      assert ThreadOk(s, s.threads[x]);
      assert Removing(s.threads[x].cb, k);
    }
    forall x | x in s'.threads ensures RemovalOk(s', s'.threads[x].cb) {
      assert x in s.threads ==> RemovalOk(s, s.threads[x].cb);
    }
    DonesStay(s, s', t);
    forall x, y, q | x in s'.threads && y in s'.threads && Removing(s'.threads[x].cb, q) && Removing(s'.threads[y].cb, q)
      ensures x == y
    {
      assert x != t ==> Removing(s.threads[x].cb, q);
      assert y != t ==> Removing(s.threads[y].cb, q);
    }
  }

  lemma DonesStay(s: System, s': System, t: Tid)
    requires NonOverlapping(s) && OthersStay(s, s', t)
    requires s'.up == s.up && s'.streams == s.streams
    requires t in s.threads ==> !s.threads[t].cb.ToDelete?
    ensures forall id :: id in s'.streams ==> DoneOk(s', id)
  {
    forall id | id in s'.streams ensures DoneOk(s', id) {
      assert DoneOk(s, id);
      if MidRemoval(s, id) {
        var x :| x in s.threads && s.threads[x].cb.ToDelete? && s.threads[x].cb.s == id;
        assert x in s'.threads && s'.threads[x].cb.ToDelete?;
      }
    }
  }

  lemma CloseDoneStreams(s: System, t: Tid)
    requires ThreadsOk(s) && StreamsOk(s) && CanCloseDone(s, t)
    ensures StreamsOk(DoCloseDone(s, t))
  {
    var s', cb := DoCloseDone(s, t), s.threads[t].cb;
    assert ClosesStored(s, cb);
    OwnedStays(s, s', t);
    if !s.overlap {
      CloseDoneRemovals(s, t);
    }
  }

  lemma CloseDoneRemovals(s: System, t: Tid)
    requires ThreadsOk(s) && NonOverlapping(s) && CanCloseDone(s, t)
    ensures NonOverlapping(DoCloseDone(s, t))
  {
    var s', cb := DoCloseDone(s, t), s.threads[t].cb;
    assert RemovalOk(s, cb) && ThreadOk(s, s.threads[t]);
    forall x | x in s'.threads ensures RemovalOk(s', s'.threads[x].cb) {
      assert RemovalOk(s, s.threads[x].cb) && ThreadOk(s, s.threads[x]);
      if x != t && Removing(s.threads[x].cb, cb.k) {
        assert Removing(cb, cb.k);
      }
    }
    forall id | id in s'.streams ensures DoneOk(s', id) {
      assert DoneOk(s, id);
      if id == cb.s {
        assert s'.threads[t].cb.ToDelete? && s'.threads[t].cb.s == id;
      } else if MidRemoval(s, id) {
        var x :| x in s.threads && s.threads[x].cb.ToDelete? && s.threads[x].cb.s == id;
        assert x in s'.threads && s'.threads[x].cb.ToDelete?;
      }
    }
    forall x, y, q | x in s'.threads && y in s'.threads && Removing(s'.threads[x].cb, q) && Removing(s'.threads[y].cb, q)
      ensures x == y
    {
      assert Removing(s.threads[x].cb, q) && Removing(s.threads[y].cb, q);
    }
  }

  lemma DeleteStreams(s: System, t: Tid)
    requires ThreadsOk(s) && StreamsOk(s) && CanDelete(s, t)
    ensures StreamsOk(DoDelete(s, t))
  {
    var s', cb := DoDelete(s, t), s.threads[t].cb;
    assert ClosesStored(s, cb);
    OwnedStays(s, s', t);
    if !s.overlap {
      DeleteRemovals(s, t);
    }
  }

  lemma DeleteRemovals(s: System, t: Tid)
    requires ThreadsOk(s) && NonOverlapping(s) && CanDelete(s, t)
    ensures NonOverlapping(DoDelete(s, t))
  {
    var s', cb := DoDelete(s, t), s.threads[t].cb;
    assert RemovalOk(s, cb) && ThreadOk(s, s.threads[t]);
    forall x | x in s'.threads ensures RemovalOk(s', s'.threads[x].cb) {
      assert RemovalOk(s, s.threads[x].cb);
      if x != t && Removing(s.threads[x].cb, cb.k) {
        assert Removing(cb, cb.k);
      }
    }
    forall id | id in s'.streams ensures DoneOk(s', id) {
      assert DoneOk(s, id);
      if MidRemoval(s, id) && InMap(s', id) {
        var x :| x in s.threads && s.threads[x].cb.ToDelete? && s.threads[x].cb.s == id;
        assert x != t;
        assert x in s'.threads && s'.threads[x].cb.ToDelete?;
      }
    }
    forall x, y, q | x in s'.threads && y in s'.threads && Removing(s'.threads[x].cb, q) && Removing(s'.threads[y].cb, q)
      ensures x == y
    {
      assert Removing(s.threads[x].cb, q) && Removing(s.threads[y].cb, q);
    }
  }
}
