/**
 A schedule that loses the newest response: a cached push and the fan-out of a newer response overlap on
 one watch, both drain it, the older response is written first, and the newer finds the slot full.
 */
module RelayLost {
  import opened Common
  import opened CacheSpec
  import opened Relay
  import opened RelayCover
  import opened RelaySafety
  import opened RelaySends
  import opened RelayWitness
  import Slots

  const INFO := ReqInfo(Some(K), "", false)
  const OLDER := Msg("1", ID, 0)
  const NEWER := Msg("2", ID, 1)

  /** What matters of a state in which request 7 is gone: who is registered, what is stored, the thread
      that watches the stream, the threads from 3 on, and request 8's slot and history. */
  datatype View = View(
    members: set<Req>, sets: seq<Msg>, watcher: Thread, more: map<Tid, Thread>, slot: Option<Slots.Slot<Msg>>,
    written: nat, dropped: seq<SendError>)

  function LastOf(sets: seq<Msg>): Option<Msg> { if sets == [] then None else Some(sets[|sets| - 1]) }

  function Entered(v: View): Value { Resource(LastOf(v.sets), STORE, None) }

  ghost predicate Shows(s: System, v: View) {
    && s.cache.lru == [Entry(K, Entered(v))] && s.cache.stores == map[STORE := v.members]
    && s.cacheLock.None? && s.mu.None? && s.up == map[K := ID] && s.sets == v.sets
    && 1 in s.threads && s.threads[1] == v.watcher
    && (forall t :: t in s.threads && t < 3 && t != 1 ==> s.threads[t].job.Finished?)
    && (forall t :: t >= 3 ==> (t in s.threads <==> t in v.more) && (t in v.more ==> s.threads[t] == v.more[t]))
    && (8 in s.reqs <==> v.slot.Some?)
    && (v.slot.Some? ==> s.reqs[8] == INFO && 8 in s.open && 8 in s.watches && s.watches[8] == v.slot.value)
    && At(s.log.written, 8) == v.written && s.log.dropped == v.dropped
  }

  function Doing(job: Job, fetch: FetchPc): Thread { Thread(job, fetch, NoCallback) }

  function Watching1(pc: WatchPc, fetch: FetchPc): Thread { Doing(Watching(ID, pc), fetch) }

  // --------------------------------------------------- request 7 comes and goes

  lemma Leave(before: seq<Action>, s: System) returns (acts: seq<Action>, s': System)
    requires ReachedBy(before, s) && OneStream(s)
    ensures ReachedBy(acts, s') && s'.threads == s.threads[2 := Doing(Cancelling(7), NoFetch)]
    ensures s'.cache == s.cache && s'.cacheLock.None? && s'.mu.None? && s'.up == s.up && s'.reqs == s.reqs && Fresh(s')
  {
    hide Reached, CacheSpec.Valid, WatchNext, FetchNext, EvictNext, SendNext;
    s' := DoCancel(s, 2, 7);
    acts := before + [Cancel(2, 7)];
    Extend(before, s, Cancel(2, 7), s');
  }

  lemma LeaveCache(before: seq<Action>, s: System) returns (acts: seq<Action>, s': System)
    requires ReachedBy(before, s) && Fresh(s)
    requires s.cache.lru == [Entry(K, Resource(None, STORE, None))] && s.cache.stores == map[STORE := {7}]
    requires s.threads == map[0 := Doing(Finished, NoFetch), 1 := Watching1(ToSelect, NoFetch), 2 := Doing(Cancelling(7), NoFetch)]
    requires s.cacheLock.None? && s.mu.None? && s.up == map[K := ID] && s.reqs == map[7 := INFO]
    ensures ReachedBy(acts, s') && Shows(s', View({}, [], Watching1(ToSelect, NoFetch), map[], None, 0, []))
  {
    hide Reached, CacheSpec.Valid, WatchNext, FetchNext, EvictNext, SendNext;
    assert KeyOf(s, 7) == K;
    assert Lookup(s.cache.lru, K) == Some(Resource(None, STORE, None)) && Without(s.cache.lru, K) == [];
    assert {7} - {7} == {};
    s' := DoForget(PLAIN, s, 2);
    acts := before + [Forget(2)];
    Extend(before, s, Forget(2), s');
  }

  // ------------------------------------------------ the watcher of the stream

  lemma PutOne(v: Value, w: Value)
    ensures Put([Entry(K, v)], K, w, 0) == ([Entry(K, w)], None)
  {
    assert Without([Entry(K, v)], K) == [] && [Entry(K, w)] + [] == [Entry(K, w)];
  }

  lemma Receive(before: seq<Action>, s: System, v: View, version: string) returns (acts: seq<Action>, s': System, v': View)
    requires ReachedBy(before, s) && Shows(s, v)
    requires v.watcher == Watching1(ToSelect, NoFetch)
    ensures v' == v.(watcher := Watching1(ToSet(version), NoFetch))
    ensures ReachedBy(acts, s') && Shows(s', v')
  {
    hide Reached, CacheSpec.Valid, CreateNext, FetchNext, EvictNext, SendNext;
    s', v' := DoReceiveUp(s, 1, version), v.(watcher := Watching1(ToSet(version), NoFetch));
    acts := before + [ReceiveUp(1, version)];
    Extend(before, s, ReceiveUp(1, version), s');
  }

  lemma Store(before: seq<Action>, s: System, v: View, m: Msg) returns (acts: seq<Action>, s': System, v': View)
    requires ReachedBy(before, s) && Shows(s, v)
    requires v.watcher == Watching1(ToSet(m.version), NoFetch) && m == Msg(m.version, ID, |v.sets|)
    ensures v' == v.(sets := v.sets + [m], watcher := Watching1(ToFan, Looking(K)))
    ensures ReachedBy(acts, s') && Shows(s', v')
  {
    hide Reached, CacheSpec.Valid, CreateNext, FetchNext, EvictNext, SendNext;
    PutOne(Entered(v), Entered(v).(resp := Some(m), expiry := None));
    hide Put;
    assert Lookup(s.cache.lru, K) == Some(Entered(v)) && Without(s.cache.lru, K) == [];
    s', v' := DoSetUp(PLAIN, s, 1, 1), v.(sets := v.sets + [m], watcher := Watching1(ToFan, Looking(K)));
    acts := before + [SetUp(1, 1)];
    Extend(before, s, SetUp(1, 1), s');
  }

  lemma Refetch(before: seq<Action>, s: System, v: View) returns (acts: seq<Action>, s': System, v': View)
    requires ReachedBy(before, s) && Shows(s, v)
    requires v.watcher == Watching1(ToFan, Looking(K))
    ensures v' == v.(watcher := Watching1(ToFan, Got(Hit(Entered(v)))))
    ensures ReachedBy(acts, s') && Shows(s', v')
  {
    hide Reached, CacheSpec.Valid, CreateNext, WatchNext, EvictNext, SendNext;
    assert Lookup(s.cache.lru, K) == Some(Entered(v)) && Without(s.cache.lru, K) == [];
    s', v' := DoLook(s, 1), v.(watcher := Watching1(ToFan, Got(Hit(Entered(v)))));
    acts := before + [Look(1)];
    Extend(before, s, Look(1), s');
  }

  lemma Scan(before: seq<Action>, s: System, v: View, m: Msg) returns (acts: seq<Action>, s': System, v': View)
    requires ReachedBy(before, s) && Shows(s, v)
    requires v.watcher == Watching1(ToFan, Got(Hit(Entered(v)))) && LastOf(v.sets) == Some(m)
    ensures v' == v.(watcher := Watching1(Scanning(m, STORE, v.members, {}), NoFetch))
    ensures ReachedBy(acts, s') && Shows(s', v')
  {
    hide Reached, CacheSpec.Valid, CreateNext, FetchNext, EvictNext, SendNext;
    s', v' := DoStartScan(s, 1), v.(watcher := Watching1(Scanning(m, STORE, v.members, {}), NoFetch));
    acts := before + [StartScan(1)];
    Extend(before, s, StartScan(1), s');
  }

  lemma FanOut(before: seq<Action>, s: System, v: View, m: Msg) returns (acts: seq<Action>, s': System, v': View)
    requires ReachedBy(before, s) && Shows(s, v)
    requires v.watcher == Watching1(Scanning(m, STORE, {8}, {}), NoFetch) && v.members == {8} && 5 !in v.more
    ensures v' == v.(watcher := Watching1(Scanning(m, STORE, {8}, {8}), NoFetch), more := v.more[5 := Doing(Sending(8, m, Some(1), ToGet), NoFetch)])
    ensures ReachedBy(acts, s') && Shows(s', v')
  {
    hide Reached, CacheSpec.Valid, CreateNext, FetchNext, EvictNext, SendNext;
    assert v.watcher.job.wpc.visited + {8} == {8};
    s', v' := DoFan(s, 1, 5, 8), v.(watcher := Watching1(Scanning(m, STORE, {8}, {8}), NoFetch), more := v.more[5 := Doing(Sending(8, m, Some(1), ToGet), NoFetch)]);
    acts := before + [Fan(1, 5, 8)];
    Extend(before, s, Fan(1, 5, 8), s');
  }

  lemma FinishScan(before: seq<Action>, s: System, v: View, m: Msg) returns (acts: seq<Action>, s': System, v': View)
    requires ReachedBy(before, s) && Shows(s, v)
    requires v.watcher == Watching1(Scanning(m, STORE, v.members, v.members), NoFetch)
    requires forall t :: t in v.more ==> !v.more[t].job.Sending?
    ensures v' == v.(watcher := Watching1(ToSelect, NoFetch))
    ensures ReachedBy(acts, s') && Shows(s', v')
  {
    hide Reached, CacheSpec.Valid, CreateNext, FetchNext, EvictNext, SendNext;
    s', v' := DoEndScan(s, 1), v.(watcher := Watching1(ToSelect, NoFetch));
    acts := before + [EndScan(1)];
    Extend(before, s, EndScan(1), s');
  }

  // -------------------------------------------------------- request 8 registers

  lemma Come(before: seq<Action>, s: System, v: View) returns (acts: seq<Action>, s': System, v': View)
    requires ReachedBy(before, s) && Shows(s, v)
    requires v.slot.None? && 3 !in v.more
    ensures v' == v.(slot := Some(Slots.Open()), more := v.more[3 := Doing(Creating(8, ToAdd), NoFetch)])
    ensures ReachedBy(acts, s') && Shows(s', v')
  {
    hide Reached, CacheSpec.Valid, FetchNext, WatchNext, EvictNext, SendNext;
    s', v' := DoRegister(s, 3, 8, INFO), v.(slot := Some(Slots.Open()), more := v.more[3 := Doing(Creating(8, ToAdd), NoFetch)]);
    acts := before + [Register(3, 8, INFO)];
    Extend(before, s, Register(3, 8, INFO), s');
  }

  lemma Enrol(before: seq<Action>, s: System, v: View) returns (acts: seq<Action>, s': System, v': View)
    requires ReachedBy(before, s) && Shows(s, v)
    requires v.slot.Some? && v.members == {} && 3 in v.more && v.more[3] == Doing(Creating(8, ToAdd), NoFetch)
    ensures v' == v.(members := {8}, more := v.more[3 := Doing(Creating(8, ToPush), Looking(K))])
    ensures ReachedBy(acts, s') && Shows(s', v')
  {
    hide Reached, CacheSpec.Valid, FetchNext, WatchNext, EvictNext, SendNext;
    PutOne(Entered(v), Entered(v));
    hide Put;
    assert KeyOf(s, 8) == K && {} + {8} == {8};
    assert Lookup(s.cache.lru, K) == Some(Entered(v)) && Without(s.cache.lru, K) == [];
    s', v' := DoAdd(PLAIN, s, 3, 1), v.(members := {8}, more := v.more[3 := Doing(Creating(8, ToPush), Looking(K))]);
    acts := before + [Add(3, 1)];
    Extend(before, s, Add(3, 1), s');
  }

  lemma Find(before: seq<Action>, s: System, v: View) returns (acts: seq<Action>, s': System, v': View)
    requires ReachedBy(before, s) && Shows(s, v)
    requires 3 in v.more && v.more[3] == Doing(Creating(8, ToPush), Looking(K))
    ensures v' == v.(more := v.more[3 := Doing(Creating(8, ToPush), Got(Hit(Entered(v))))])
    ensures ReachedBy(acts, s') && Shows(s', v')
  {
    hide Reached, CacheSpec.Valid, CreateNext, WatchNext, EvictNext, SendNext;
    assert Lookup(s.cache.lru, K) == Some(Entered(v)) && Without(s.cache.lru, K) == [];
    s', v' := DoLook(s, 3), v.(more := v.more[3 := Doing(Creating(8, ToPush), Got(Hit(Entered(v))))]);
    acts := before + [Look(3)];
    Extend(before, s, Look(3), s');
  }

  lemma PushCached(before: seq<Action>, s: System, v: View, m: Msg) returns (acts: seq<Action>, s': System, v': View)
    requires ReachedBy(before, s) && Shows(s, v)
    requires v.slot.Some? && 3 in v.more && v.more[3] == Doing(Creating(8, ToPush), Got(Hit(Entered(v)))) && 4 !in v.more
    requires LastOf(v.sets) == Some(m) && m.version != ""
    ensures v' == v.(more := v.more[3 := Doing(Creating(8, ToExists), NoFetch)][4 := Doing(Sending(8, m, None, ToEnter), NoFetch)])
    ensures ReachedBy(acts, s') && Shows(s', v')
  {
    hide Reached, CacheSpec.Valid, FetchNext, WatchNext, EvictNext, SendNext;
    s', v' := DoPush(s, 3, 4), v.(more := v.more[3 := Doing(Creating(8, ToExists), NoFetch)][4 := Doing(Sending(8, m, None, ToEnter), NoFetch)]);
    acts := before + [Push(3, 4)];
    Extend(before, s, Push(3, 4), s');
  }

  lemma Return8(before: seq<Action>, s: System, v: View) returns (acts: seq<Action>, s': System, v': View)
    requires ReachedBy(before, s) && Shows(s, v)
    requires v.slot.Some? && 3 in v.more && v.more[3] == Doing(Creating(8, ToExists), NoFetch)
    ensures v' == v.(more := v.more[3 := Doing(Finished, NoFetch)])
    ensures ReachedBy(acts, s') && Shows(s', v')
  {
    hide Reached, CacheSpec.Valid, FetchNext, WatchNext, EvictNext, SendNext;
    s', v' := DoSeeStream(s, 3), v.(more := v.more[3 := Doing(Finished, NoFetch)]);
    acts := before + [SeeStream(3)];
    Extend(before, s, SeeStream(3), s');
  }

  // ------------------------------------------------------------------- the sends

  lemma GetWatch(before: seq<Action>, s: System, v: View) returns (acts: seq<Action>, s': System, v': View)
    requires ReachedBy(before, s) && Shows(s, v)
    requires v.slot.Some? && 5 in v.more && v.more[5] == Doing(Sending(8, NEWER, Some(1), ToGet), NoFetch)
    ensures v' == v.(more := v.more[5 := Doing(Sending(8, NEWER, Some(1), ToEnter), NoFetch)])
    ensures ReachedBy(acts, s') && Shows(s', v')
  {
    hide Reached, CacheSpec.Valid, CreateNext, WatchNext, FetchNext, EvictNext;
    s', v' := DoGet(s, 5), v.(more := v.more[5 := Doing(Sending(8, NEWER, Some(1), ToEnter), NoFetch)]);
    acts := before + [Get(5)];
    Extend(before, s, Get(5), s');
  }

  lemma EnterSend(before: seq<Action>, s: System, v: View, t: Tid, j: Job) returns (acts: seq<Action>, s': System, v': View)
    requires ReachedBy(before, s) && Shows(s, v)
    requires v.slot.Some? && !v.slot.value.Closed() && t >= 3 && t in v.more
    requires v.more[t] == Doing(j, NoFetch) && j.Sending? && j.r == 8 && j.spc.ToEnter?
    ensures v' == v.(more := v.more[t := Doing(j.(spc := ToDrain), NoFetch)])
    ensures ReachedBy(acts, s') && Shows(s', v')
  {
    hide Reached, CacheSpec.Valid, CreateNext, WatchNext, FetchNext, EvictNext;
    s', v' := DoEnter(s, t), v.(more := v.more[t := Doing(j.(spc := ToDrain), NoFetch)]);
    acts := before + [Enter(t)];
    Extend(before, s, Enter(t), s');
  }

  lemma DrainSlot(before: seq<Action>, s: System, v: View, t: Tid, j: Job) returns (acts: seq<Action>, s': System, v': View)
    requires ReachedBy(before, s) && Shows(s, v)
    requires v.slot.Some? && t >= 3 && t in v.more && v.more[t] == Doing(j, NoFetch) && j.Sending? && j.r == 8 && j.spc.ToDrain?
    ensures v' == v.(slot := Some(v.slot.value.Drain()), more := v.more[t := Doing(j.(spc := ToWrite(v.slot.value.writes)), NoFetch)])
    ensures ReachedBy(acts, s') && Shows(s', v')
  {
    hide Reached, CacheSpec.Valid, CreateNext, WatchNext, FetchNext, EvictNext;
    s', v' := DoDrain(s, t), v.(slot := Some(v.slot.value.Drain()), more := v.more[t := Doing(j.(spc := ToWrite(v.slot.value.writes)), NoFetch)]);
    acts := before + [Drain(t)];
    Extend(before, s, Drain(t), s');
  }

  lemma WriteOlder(before: seq<Action>, s: System, v: View) returns (acts: seq<Action>, s': System, v': View)
    requires ReachedBy(before, s) && Shows(s, v)
    requires v.slot == Some(Slots.Open()) && v.written == 0 && 4 in v.more
    requires v.more[4] == Doing(Sending(8, OLDER, None, ToWrite(0)), NoFetch)
    ensures v' == v.(slot := Some(Slots.Open().Write(OLDER)), written := 1, more := v.more[4 := Doing(Finished, NoFetch)])
    ensures ReachedBy(acts, s') && Shows(s', v')
  {
    hide Reached, CacheSpec.Valid, CreateNext, WatchNext, FetchNext, EvictNext;
    s', v' := DoWrite(s, 4), v.(slot := Some(Slots.Open().Write(OLDER)), written := 1, more := v.more[4 := Doing(Finished, NoFetch)]);
    acts := before + [Write(4)];
    Extend(before, s, Write(4), s');
  }

  lemma DropNewer(before: seq<Action>, s: System, v: View) returns (acts: seq<Action>, s': System, v': View)
    requires ReachedBy(before, s) && Shows(s, v)
    requires v.slot == Some(Slots.Open().Write(OLDER)) && 5 in v.more
    requires v.more[5] == Doing(Sending(8, NEWER, Some(1), ToWrite(0)), NoFetch)
    ensures v' == v.(dropped := v.dropped + [SendError(8, NEWER, 0, 1)], more := v.more[5 := Doing(Finished, NoFetch)])
    ensures ReachedBy(acts, s') && Shows(s', v')
  {
    hide Reached, CacheSpec.Valid, CreateNext, WatchNext, FetchNext, EvictNext;
    s', v' := DoWrite(s, 5), v.(dropped := v.dropped + [SendError(8, NEWER, 0, 1)], more := v.more[5 := Doing(Finished, NoFetch)]);
    acts := before + [Write(5)];
    Extend(before, s, Write(5), s');
  }

  // --------------------------------------------------------------- the whole run

  /** The older response is stored while nobody is registered; request 8 comes, and its push is on the way. */
  lemma PushOnTheWay() returns (acts: seq<Action>, s: System, v: View)
    ensures ReachedBy(acts, s) && Shows(s, v)
    ensures v == View({8}, [OLDER], Watching1(ToSelect, NoFetch),
      map[3 := Doing(Finished, NoFetch), 4 := Doing(Sending(8, OLDER, None, ToEnter), NoFetch)], Some(Slots.Open()), 0, [])
  {
    hide ReachedBy, Shows, OneStream, Fresh;
    acts, s, v := StoredAlone();
    acts, s, v := Come(acts, s, v);
    acts, s, v := Enrol(acts, s, v);
    acts, s, v := Find(acts, s, v);
    acts, s, v := PushCached(acts, s, v, OLDER);
    acts, s, v := Return8(acts, s, v);
  }

  lemma StoredAlone() returns (acts: seq<Action>, s: System, v: View)
    ensures ReachedBy(acts, s) && Shows(s, v)
    ensures v == View({}, [OLDER], Watching1(ToSelect, NoFetch), map[], None, 0, [])
  {
    hide ReachedBy, Shows;
    acts, s := OpenOne();
    acts, s := Leave(acts, s);
    acts, s := LeaveCache(acts, s);
    v := View({}, [], Watching1(ToSelect, NoFetch), map[], None, 0, []);
    acts, s, v := Receive(acts, s, v, "1");
    acts, s, v := Store(acts, s, v, OLDER);
    acts, s, v := Refetch(acts, s, v);
    acts, s, v := Scan(acts, s, v, OLDER);
    acts, s, v := FinishScan(acts, s, v, OLDER);
  }

  /** The newer response arrives, and its send overlaps the push. */
  lemma BothDrained() returns (acts: seq<Action>, s: System, v: View)
    ensures ReachedBy(acts, s) && Shows(s, v)
    ensures v == View({8}, [OLDER, NEWER], Watching1(Scanning(NEWER, STORE, {8}, {8}), NoFetch),
      map[3 := Doing(Finished, NoFetch), 4 := Doing(Sending(8, OLDER, None, ToWrite(0)), NoFetch),
          5 := Doing(Sending(8, NEWER, Some(1), ToWrite(0)), NoFetch)], Some(Slots.Open()), 0, [])
  {
    hide ReachedBy, Shows;
    acts, s, v := PushOnTheWay();
    acts, s, v := Receive(acts, s, v, "2");
    acts, s, v := Store(acts, s, v, NEWER);
    acts, s, v := Refetch(acts, s, v);
    acts, s, v := Scan(acts, s, v, NEWER);
    acts, s, v := FanOut(acts, s, v, NEWER);
    acts, s, v := GetWatch(acts, s, v);
    acts, s, v := EnterSend(acts, s, v, 4, Sending(8, OLDER, None, ToEnter));
    acts, s, v := EnterSend(acts, s, v, 5, Sending(8, NEWER, Some(1), ToEnter));
    acts, s, v := DrainSlot(acts, s, v, 4, Sending(8, OLDER, None, ToDrain));
    acts, s, v := DrainSlot(acts, s, v, 5, Sending(8, NEWER, Some(1), ToDrain));
  }

  lemma AllSettled() returns (acts: seq<Action>, s: System, v: View)
    ensures Reached(PLAIN, 0, acts, s) && Shows(s, v)
    ensures v == View({8}, [OLDER, NEWER], Watching1(ToSelect, NoFetch),
      map[3 := Doing(Finished, NoFetch), 4 := Doing(Finished, NoFetch), 5 := Doing(Finished, NoFetch)],
      Some(Slots.Open().Write(OLDER)), 1, [SendError(8, NEWER, 0, 1)])
  {
    hide Reached, Shows, CacheSpec.Valid;
    acts, s, v := BothDrained();
    acts, s, v := WriteOlder(acts, s, v);
    acts, s, v := DropNewer(acts, s, v);
    acts, s, v := FinishScan(acts, s, v, NEWER);
  }

  /** Everything has settled, request 8 is registered with an entry that holds the newer response, it asked
      for any version, and what it has been given is the older one. */
  lemma NewestLost() returns (acts: seq<Action>, s: System)
    ensures Reached(PLAIN, 0, acts, s) && Due(s, K, 8) && Settled(s, K, 8)
    ensures Lookup(s.cache.lru, K).value.resp == Some(NEWER) && 8 in s.watches && s.watches[8].held == Some(OLDER)
    ensures !Served(s, K, 8, NEWER.stamp) && !Withheld(s, K, 8, NEWER.stamp)
  {
    hide Reached;
    var v;
    acts, s, v := AllSettled();
    assert Lookup(s.cache.lru, K) == Some(Entered(v));
    forall t | t in s.threads ensures SettledThread(s.threads[t], K, 8) {
      assert t >= 3 ==> t in v.more;
    }
  }
}
