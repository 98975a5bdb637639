/**
 Where things come from and how they end: what is stored is what the upstream sent, the sends of one fan-out are
 over before the next begins, and a request without a key is left with a closed watch.
 */
module RelayOrigins {
  import opened Common
  import opened CacheSpec
  import opened Relay
  import opened RelayBasics
  import opened RelaySteps
  import opened RelaySafety

  // ---------------------------------------------------- requests are what they are

  /** Only a registration adds a request, with what it was registered with. */
  ghost predicate RequestStep(s: System, a: Action, s': System) {
    if a.Register? then a.r !in s.reqs && s'.reqs == s.reqs[a.r := a.info] else s'.reqs == s.reqs
  }

  lemma EnrolRequests(cfg: Config, s: System, a: Action, s': System)
    requires CacheSpec.Valid(s.cache) && CreateNext(cfg, s, a, s') && Enrols(a)
    ensures RequestStep(s, a, s')
  {
    hide AddRequest, CacheSpec.Valid, Quiet, Wants, Cached;
  }

  lemma StreamRequests(cfg: Config, s: System, a: Action, s': System)
    requires CacheSpec.Valid(s.cache) && CreateNext(cfg, s, a, s') && !Enrols(a)
    ensures RequestStep(s, a, s')
  {
    hide DeleteRequest, CacheSpec.Valid, Quiet, AfterReturn, AfterInsert;
  }

  lemma WatchRequests(cfg: Config, s: System, a: Action, s': System)
    requires CacheSpec.Valid(s.cache) && WatchNext(cfg, s, a, s')
    ensures RequestStep(s, a, s')
  {
    hide SetResponse, CacheSpec.Valid, Cached;
  }

  lemma FetchRequests(cfg: Config, s: System, a: Action, s': System)
    requires CacheSpec.Valid(s.cache) && FetchNext(cfg, s, a, s')
    ensures RequestStep(s, a, s')
  {
    hide FetchLook, FetchReap, DeleteKey, CacheSpec.Valid;
  }

  lemma EvictRequests(cfg: Config, s: System, a: Action, s': System)
    requires CacheSpec.Valid(s.cache) && EvictNext(cfg, s, a, s')
    ensures RequestStep(s, a, s')
  {
    hide CacheSpec.Valid, Quiet, OtherRemoval;
  }

  lemma SendRequests(cfg: Config, s: System, a: Action, s': System)
    requires CacheSpec.Valid(s.cache) && SendNext(cfg, s, a, s')
    ensures RequestStep(s, a, s')
  {
    hide CacheSpec.Valid, OtherHolder;
  }

  lemma StepRequests(cfg: Config, s: System, a: Action, s': System)
    requires Next(cfg, s, a, s')
    ensures RequestStep(s, a, s')
  {
    hide CreateNext, WatchNext, FetchNext, EvictNext, SendNext, CacheSpec.Valid, RequestStep;
    if CreateNext(cfg, s, a, s') {
      if Enrols(a) {
        EnrolRequests(cfg, s, a, s');
      } else {
        StreamRequests(cfg, s, a, s');
      }
    } else if WatchNext(cfg, s, a, s') {
      WatchRequests(cfg, s, a, s');
    } else if FetchNext(cfg, s, a, s') {
      FetchRequests(cfg, s, a, s');
    } else if EvictNext(cfg, s, a, s') {
      EvictRequests(cfg, s, a, s');
    } else {
      SendRequests(cfg, s, a, s');
    }
  }

  /** A request is known exactly if it has been registered, with the key, the version and the NACK it was
      registered with, and is registered once. */
  lemma {:induction false} RegisteredAsAsked(cfg: Config, now: int, acts: seq<Action>, s: System, r: Req, info: ReqInfo)
    requires Reached(cfg, now, acts, s)
    ensures r in s.reqs && s.reqs[r] == info <==> exists i ::
      && 0 <= i < |acts| && acts[i].Register? && acts[i].r == r && acts[i].info == info
  {
    hide Next;
    if acts != [] {
      var init, a := acts[..|acts| - 1], acts[|acts| - 1];
      var p :| Leads(cfg, Init(now), init, p) && Next(cfg, p, a, s);
      RegisteredAsAsked(cfg, now, init, p, r, info);
      StepRequests(cfg, p, a, s);
      assert forall i :: 0 <= i < |init| ==> acts[i] == init[i];
      if r in p.reqs && p.reqs[r] == info {
        var i :| 0 <= i < |init| && init[i].Register? && init[i].r == r && init[i].info == info;
        assert acts[i] == init[i];
      }
    }
  }

  // ------------------------------------------------- what is stored was received

  /** The version of the response `t` has received last. */
  function LastReceived(acts: seq<Action>, t: Tid): Option<string> {
    if acts == [] then None
    else if acts[|acts| - 1].ReceiveUp? && acts[|acts| - 1].t == t then Some(acts[|acts| - 1].version)
    else LastReceived(acts[..|acts| - 1], t)
  }

  /** A thread comes to store a response by receiving it, and receives no other before it stores it. */
  ghost predicate ComesToSet(s: System, a: Action, s': System, t: Tid, version: string) {
    t in s'.threads && s'.threads[t].job.Watching? && s'.threads[t].job.wpc == ToSet(version) ==>
      || a == ReceiveUp(t, version)
      || (!(a.ReceiveUp? && a.t == t) && t in s.threads && s.threads[t].job == s'.threads[t].job)
  }

  lemma EnrolComesToSet(cfg: Config, s: System, a: Action, s': System, t: Tid, version: string)
    requires CacheSpec.Valid(s.cache) && CreateNext(cfg, s, a, s') && Enrols(a)
    ensures ComesToSet(s, a, s', t, version)
  {
    hide AddRequest, CacheSpec.Valid, Quiet, Wants, Cached;
  }

  lemma StreamComesToSet(cfg: Config, s: System, a: Action, s': System, t: Tid, version: string)
    requires CacheSpec.Valid(s.cache) && CreateNext(cfg, s, a, s') && !Enrols(a)
    ensures ComesToSet(s, a, s', t, version)
  {
    hide DeleteRequest, CacheSpec.Valid, Quiet, AfterReturn, AfterInsert;
  }

  lemma WatchComesToSet(cfg: Config, s: System, a: Action, s': System, t: Tid, version: string)
    requires CacheSpec.Valid(s.cache) && WatchNext(cfg, s, a, s')
    ensures ComesToSet(s, a, s', t, version)
  {
    hide SetResponse, CacheSpec.Valid, Cached;
  }

  lemma FetchComesToSet(cfg: Config, s: System, a: Action, s': System, t: Tid, version: string)
    requires CacheSpec.Valid(s.cache) && FetchNext(cfg, s, a, s')
    ensures ComesToSet(s, a, s', t, version)
  {
    hide FetchLook, FetchReap, DeleteKey, CacheSpec.Valid;
  }

  lemma EvictComesToSet(cfg: Config, s: System, a: Action, s': System, t: Tid, version: string)
    requires CacheSpec.Valid(s.cache) && EvictNext(cfg, s, a, s')
    ensures ComesToSet(s, a, s', t, version)
  {
    hide CacheSpec.Valid, Quiet, OtherRemoval;
  }

  lemma SendComesToSet(cfg: Config, s: System, a: Action, s': System, t: Tid, version: string)
    requires CacheSpec.Valid(s.cache) && SendNext(cfg, s, a, s')
    ensures ComesToSet(s, a, s', t, version)
  {
    hide CacheSpec.Valid, OtherHolder;
  }

  lemma StepComesToSet(cfg: Config, s: System, a: Action, s': System, t: Tid, version: string)
    requires Next(cfg, s, a, s')
    ensures ComesToSet(s, a, s', t, version)
  {
    hide CreateNext, WatchNext, FetchNext, EvictNext, SendNext, CacheSpec.Valid, ComesToSet;
    if CreateNext(cfg, s, a, s') {
      if Enrols(a) {
        EnrolComesToSet(cfg, s, a, s', t, version);
      } else {
        StreamComesToSet(cfg, s, a, s', t, version);
      }
    } else if WatchNext(cfg, s, a, s') {
      WatchComesToSet(cfg, s, a, s', t, version);
    } else if FetchNext(cfg, s, a, s') {
      FetchComesToSet(cfg, s, a, s', t, version);
    } else if EvictNext(cfg, s, a, s') {
      EvictComesToSet(cfg, s, a, s', t, version);
    } else {
      SendComesToSet(cfg, s, a, s', t, version);
    }
  }

  lemma {:induction false} LastIsReceipt(cfg: Config, now: int, acts: seq<Action>, s: System, t: Tid)
    requires Reached(cfg, now, acts, s) && t in s.threads && s.threads[t].job.Watching? && s.threads[t].job.wpc.ToSet?
    ensures LastReceived(acts, t) == Some(s.threads[t].job.wpc.version)
  {
    hide Next;
    if acts != [] {
      var init, a := acts[..|acts| - 1], acts[|acts| - 1];
      var p :| Leads(cfg, Init(now), init, p) && Next(cfg, p, a, s);
      StepComesToSet(cfg, p, a, s, t, s.threads[t].job.wpc.version);
      if a != ReceiveUp(t, s.threads[t].job.wpc.version) {
        LastIsReceipt(cfg, now, init, p, t);
      }
    }
  }

  lemma SetUpStores(cfg: Config, s: System, t: Tid, n: nat, s': System)
    requires Next(cfg, s, SetUp(t, n), s')
    ensures CanSetUp(s, t, n) && s'.sets == s.sets + [Msg(s.threads[t].job.wpc.version, s.threads[t].job.s, |s.sets|)]
  {
    hide CreateNext, FetchNext, EvictNext, SendNext, CacheSpec.Valid, SetResponse;
    SetUpWatches(cfg, s, t, n, s');
  }

  lemma SetUpWatches(cfg: Config, s: System, t: Tid, n: nat, s': System)
    requires Next(cfg, s, SetUp(t, n), s')
    ensures WatchNext(cfg, s, SetUp(t, n), s')
  {
    hide WatchNext, CacheSpec.Valid;
  }

  /** What a watcher stores is the response it has just received, on its own stream. */
  lemma StoredAsReceived(cfg: Config, now: int, acts: seq<Action>, s: System, t: Tid, n: nat, s': System)
    requires Reached(cfg, now, acts, s) && Next(cfg, s, SetUp(t, n), s')
    ensures |s'.sets| == |s.sets| + 1 && s.sets <= s'.sets
    ensures var m := s'.sets[|s.sets|];
      LastReceived(acts, t) == Some(m.version) && m.stream == s.threads[t].job.s && m.stamp == |s.sets|
  {
    hide Next, Leads;
    SetUpStores(cfg, s, t, n, s');
    LastIsReceipt(cfg, now, acts, s, t);
  }

  // -------------------------------------------------- one fan-out after the other

  /** The send belongs to the fan-out its parent is in the middle of. */
  ghost predicate ChildOk(s: System, th: Thread) {
    th.job.Sending? && th.job.parent.Some? ==>
      var t := th.job.parent.value;
      && t in s.threads && s.threads[t].job.Watching? && s.threads[t].job.wpc.Scanning?
      && s.threads[t].job.wpc.m == th.job.m && th.job.r in s.threads[t].job.wpc.visited
  }

  predicate Twins(a: Thread, b: Thread) {
    && a.job.Sending? && b.job.Sending? && a.job.parent.Some?
    && a.job.parent == b.job.parent && a.job.r == b.job.r
  }

  ghost predicate FanoutsOk(s: System) {
    && (forall u :: u in s.threads ==> ChildOk(s, s.threads[u]))
    && (forall u, v :: u in s.threads && v in s.threads && Twins(s.threads[u], s.threads[v]) ==> u == v)
  }

  /** No send of a fan-out begins or moves, and every watcher goes on with its job. */
  ghost predicate SameFans(s: System, s': System) {
    && (forall x :: x in s'.threads && s'.threads[x].job.Sending? && s'.threads[x].job.parent.Some? ==>
          x in s.threads && s.threads[x].job == s'.threads[x].job)
    && (forall x :: x in s.threads && s.threads[x].job.Watching? ==> x in s'.threads && s'.threads[x].job == s.threads[x].job)
  }

  lemma SameFansKept(s: System, s': System)
    requires FanoutsOk(s) && SameFans(s, s')
    ensures FanoutsOk(s')
  {
    forall u | u in s'.threads ensures ChildOk(s', s'.threads[u]) {
      assert u in s.threads ==> ChildOk(s, s.threads[u]);
    }
    forall u, v | u in s'.threads && v in s'.threads && Twins(s'.threads[u], s'.threads[v]) ensures u == v {
      assert Twins(s.threads[u], s.threads[v]);
    }
  }

  lemma EnrolFans(cfg: Config, s: System, a: Action, s': System)
    requires CacheSpec.Valid(s.cache) && CreateNext(cfg, s, a, s') && Enrols(a)
    ensures SameFans(s, s')
  {
    hide AddRequest, CacheSpec.Valid, Quiet, Wants, Cached;
  }

  lemma StreamFans(cfg: Config, s: System, a: Action, s': System)
    requires CacheSpec.Valid(s.cache) && CreateNext(cfg, s, a, s') && !Enrols(a)
    ensures SameFans(s, s')
  {
    hide DeleteRequest, CacheSpec.Valid, Quiet, AfterReturn, AfterInsert;
  }

  lemma FetchFans(cfg: Config, s: System, a: Action, s': System)
    requires CacheSpec.Valid(s.cache) && FetchNext(cfg, s, a, s')
    ensures SameFans(s, s')
  {
    hide FetchLook, FetchReap, DeleteKey, CacheSpec.Valid;
  }

  lemma EvictFans(cfg: Config, s: System, a: Action, s': System)
    requires CacheSpec.Valid(s.cache) && EvictNext(cfg, s, a, s')
    ensures SameFans(s, s')
  {
    hide CacheSpec.Valid, Quiet, OtherRemoval;
  }

  lemma FanFanouts(s: System, t: Tid, u: Tid, r: Req)
    requires CanFan(s, t, u, r) && FanoutsOk(s)
    ensures FanoutsOk(DoFan(s, t, u, r))
  {
    var s' := DoFan(s, t, u, r);
    forall x | x in s'.threads ensures ChildOk(s', s'.threads[x]) {
      assert x in s.threads ==> ChildOk(s, s.threads[x]);
    }
    forall x, y | x in s'.threads && y in s'.threads && Twins(s'.threads[x], s'.threads[y]) ensures x == y {
      assert x in s.threads ==> ChildOk(s, s.threads[x]);
      assert y in s.threads ==> ChildOk(s, s.threads[y]);
      assert x in s.threads && y in s.threads ==> Twins(s.threads[x], s.threads[y]);
    }
  }

  /** Watcher `t` moves on, and had no sends under way. */
  ghost predicate Alone(s: System, s': System, t: Tid) {
    && t in s.threads && t in s'.threads && s'.threads == s.threads[t := s'.threads[t]]
    && s.threads[t].job.Watching? && !s'.threads[t].job.Sending?
    && (s.threads[t].job.wpc.Scanning? ==>
          forall u :: u in s.threads && s.threads[u].job.Sending? ==> s.threads[u].job.parent != Some(t))
  }

  lemma AloneKept(s: System, s': System, t: Tid)
    requires FanoutsOk(s) && Alone(s, s', t)
    ensures FanoutsOk(s')
  {
    forall x | x in s'.threads ensures ChildOk(s', s'.threads[x]) {
      assert ChildOk(s, s.threads[x]);
    }
    forall x, y | x in s'.threads && y in s'.threads && Twins(s'.threads[x], s'.threads[y]) ensures x == y {
      assert Twins(s.threads[x], s.threads[y]);
    }
  }

  /** A watcher that ends its scan has waited for the sends. */
  lemma WatchersAlone(cfg: Config, s: System, a: Action, s': System)
    requires CacheSpec.Valid(s.cache) && WatchNext(cfg, s, a, s') && !a.Fan?
    ensures Alone(s, s', a.t)
  {
    hide SetResponse, CacheSpec.Valid, Cached;
  }

  lemma WatchFanouts(cfg: Config, s: System, a: Action, s': System)
    requires CacheSpec.Valid(s.cache) && WatchNext(cfg, s, a, s') && FanoutsOk(s)
    ensures FanoutsOk(s')
  {
    hide FanoutsOk, Alone, CacheSpec.Valid, CanFan, DoFan, DoSetUp, DoStartScan, DoEndScan, DoFailUp, DoClean, DoStop;
    if a.Fan? {
      FanFanouts(s, a.t, a.u, a.r);
    } else {
      WatchersAlone(cfg, s, a, s');
      AloneKept(s, s', a.t);
    }
  }

  lemma SendFanouts(cfg: Config, s: System, a: Action, s': System)
    requires CacheSpec.Valid(s.cache) && SendNext(cfg, s, a, s') && FanoutsOk(s)
    ensures FanoutsOk(s')
  {
    hide FanoutsOk, CacheSpec.Valid;
    SendsShrink(cfg, s, a, s');
    ShrinkingKept(s, s');
  }

  /** A send goes on or ends; no watcher's job changes. */
  ghost predicate Shrinks(s: System, s': System) {
    && (forall x :: x in s'.threads && s'.threads[x].job.Sending? ==>
          && x in s.threads && s.threads[x].job.Sending? && s'.threads[x].job.(spc := ToGet) == s.threads[x].job.(spc := ToGet))
    && (forall x :: x in s.threads && s.threads[x].job.Watching? ==> x in s'.threads && s'.threads[x].job == s.threads[x].job)
  }

  lemma SendsShrink(cfg: Config, s: System, a: Action, s': System)
    requires CacheSpec.Valid(s.cache) && SendNext(cfg, s, a, s')
    ensures Shrinks(s, s')
  {
    hide CacheSpec.Valid, OtherHolder, Raise;
  }

  lemma ShrinkingKept(s: System, s': System)
    requires FanoutsOk(s) && Shrinks(s, s')
    ensures FanoutsOk(s')
  {
    forall x | x in s'.threads ensures ChildOk(s', s'.threads[x]) {
      assert x in s.threads ==> ChildOk(s, s.threads[x]);
    }
    forall x, y | x in s'.threads && y in s'.threads && Twins(s'.threads[x], s'.threads[y]) ensures x == y {
      assert Twins(s.threads[x], s.threads[y]);
    }
  }

  lemma FanoutsKept(cfg: Config, s: System, a: Action, s': System)
    requires Next(cfg, s, a, s') && FanoutsOk(s)
    ensures FanoutsOk(s')
  {
    hide CreateNext, WatchNext, FetchNext, EvictNext, SendNext, CacheSpec.Valid, FanoutsOk, SameFans;
    if WatchNext(cfg, s, a, s') {
      WatchFanouts(cfg, s, a, s');
    } else if SendNext(cfg, s, a, s') {
      SendFanouts(cfg, s, a, s');
    } else {
      if CreateNext(cfg, s, a, s') {
        if Enrols(a) {
          EnrolFans(cfg, s, a, s');
        } else {
          StreamFans(cfg, s, a, s');
        }
      } else if FetchNext(cfg, s, a, s') {
        FetchFans(cfg, s, a, s');
      } else {
        EvictFans(cfg, s, a, s');
      }
      SameFansKept(s, s');
    }
  }

  lemma {:induction false} ReachedFanouts(cfg: Config, now: int, acts: seq<Action>, s: System)
    requires Reached(cfg, now, acts, s)
    ensures FanoutsOk(s)
  {
    hide Next;
    if acts != [] {
      var init, a := acts[..|acts| - 1], acts[|acts| - 1];
      var p :| Leads(cfg, Init(now), init, p) && Next(cfg, p, a, s);
      ReachedFanouts(cfg, now, init, p);
      FanoutsKept(cfg, p, a, s);
    }
  }

  /** Fan-outs of one stream do not overlap: the sends under way for one watcher are all of one response, to
      different requests, and as long as there are any the watcher neither stores the next response nor
      receives one nor sees that the stream has failed. */
  lemma FanoutsDoNotOverlap(cfg: Config, now: int, acts: seq<Action>, s: System, u: Tid, v: Tid, t: Tid)
    requires Reached(cfg, now, acts, s) && u in s.threads && v in s.threads && u != v
    requires s.threads[u].job.Sending? && s.threads[u].job.parent == Some(t)
    requires s.threads[v].job.Sending? && s.threads[v].job.parent == Some(t)
    ensures s.threads[u].job.m == s.threads[v].job.m && s.threads[u].job.r != s.threads[v].job.r
    ensures !CanReceiveUp(s, t) && !CanStop(s, t) && forall n :: !CanSetUp(s, t, n)
  {
    ReachedFanouts(cfg, now, acts, s);
    assert ChildOk(s, s.threads[u]) && ChildOk(s, s.threads[v]);
    assert !Twins(s.threads[u], s.threads[v]);
  }

  /** A send of a fan-out looks the watch up first: if it has left the map there is nobody to send to. */
  lemma GoneAreLeftOut(cfg: Config, s: System, t: Tid, s': System)
    requires Next(cfg, s, Get(t), s')
    ensures t in s.threads && s.threads[t].job.Sending? && t in s'.threads
    ensures var j := s.threads[t].job;
      s'.threads[t].job == if j.r in s.open then Sending(j.r, j.m, j.parent, ToEnter) else Finished
  {
    hide CacheSpec.Valid;
  }

  /** Of two streams opened for one key the one that comes second to the map is shut down: it never gets into
      the map, nobody watches it, and `CreateWatch` returns. */
  lemma SlowerIsShutDown(cfg: Config, s: System, t: Tid, s': System)
    requires Next(cfg, s, Lose(t), s')
    ensures t in s.threads && s.threads[t].job.Creating? && s.threads[t].job.cpc.ToInsert?
    ensures var id := s.threads[t].job.cpc.s;
      && id.key in s.up && s'.up == s.up && s'.streams == s.streams[id := Stream(Loser, 0)]
      && s'.threads == s.threads[t := s.threads[t].(job := Finished)] && s.threads[t].job.r in s'.returned
  {
    hide CacheSpec.Valid;
  }

  // ------------------------------------------------------------- one shutdown

  /** The shutdown takes up a key only when it has done with the one before. */
  ghost predicate ShutdownStep(s: System, a: Action, s': System) {
    forall x :: x in s'.threads && s'.threads[x].job.ShuttingDown? ==>
      || (x in s.threads && s.threads[x].job.ShuttingDown? && !a.Shutdown?)
      || (a.Shutdown? && a.t == x && forall u :: u in s.threads ==> !s.threads[u].job.ShuttingDown?)
  }

  lemma EnrolShutdowns(cfg: Config, s: System, a: Action, s': System)
    requires CacheSpec.Valid(s.cache) && CreateNext(cfg, s, a, s') && Enrols(a)
    ensures ShutdownStep(s, a, s')
  {
    hide AddRequest, CacheSpec.Valid, Quiet, Wants, Cached;
  }

  lemma StreamShutdowns(cfg: Config, s: System, a: Action, s': System)
    requires CacheSpec.Valid(s.cache) && CreateNext(cfg, s, a, s') && !Enrols(a)
    ensures ShutdownStep(s, a, s')
  {
    hide DeleteRequest, CacheSpec.Valid, Quiet, AfterReturn, AfterInsert;
  }

  lemma WatchShutdowns(cfg: Config, s: System, a: Action, s': System)
    requires CacheSpec.Valid(s.cache) && WatchNext(cfg, s, a, s')
    ensures ShutdownStep(s, a, s')
  {
    hide SetResponse, CacheSpec.Valid, Cached;
  }

  lemma FetchShutdowns(cfg: Config, s: System, a: Action, s': System)
    requires CacheSpec.Valid(s.cache) && FetchNext(cfg, s, a, s')
    ensures ShutdownStep(s, a, s')
  {
    hide FetchLook, FetchReap, DeleteKey, CacheSpec.Valid;
  }

  lemma EvictShutdowns(cfg: Config, s: System, a: Action, s': System)
    requires CacheSpec.Valid(s.cache) && EvictNext(cfg, s, a, s')
    ensures ShutdownStep(s, a, s')
  {
    hide CacheSpec.Valid, Quiet, OtherRemoval;
  }

  lemma SendShutdowns(cfg: Config, s: System, a: Action, s': System)
    requires CacheSpec.Valid(s.cache) && SendNext(cfg, s, a, s')
    ensures ShutdownStep(s, a, s')
  {
    hide CacheSpec.Valid, OtherHolder;
  }

  lemma StepShutdowns(cfg: Config, s: System, a: Action, s': System)
    requires Next(cfg, s, a, s')
    ensures ShutdownStep(s, a, s')
  {
    hide CreateNext, WatchNext, FetchNext, EvictNext, SendNext, CacheSpec.Valid, ShutdownStep;
    if CreateNext(cfg, s, a, s') {
      if Enrols(a) {
        EnrolShutdowns(cfg, s, a, s');
      } else {
        StreamShutdowns(cfg, s, a, s');
      }
    } else if WatchNext(cfg, s, a, s') {
      WatchShutdowns(cfg, s, a, s');
    } else if FetchNext(cfg, s, a, s') {
      FetchShutdowns(cfg, s, a, s');
    } else if EvictNext(cfg, s, a, s') {
      EvictShutdowns(cfg, s, a, s');
    } else {
      SendShutdowns(cfg, s, a, s');
    }
  }

  /** The shutdown goes through the keys one at a time. */
  lemma {:induction false} ShutdownIsSerial(cfg: Config, now: int, acts: seq<Action>, s: System)
    requires Reached(cfg, now, acts, s)
    ensures forall t, u :: t in s.threads && u in s.threads && s.threads[t].job.ShuttingDown? && s.threads[u].job.ShuttingDown? ==> t == u
  {
    hide Next;
    if acts != [] {
      var init, a := acts[..|acts| - 1], acts[|acts| - 1];
      var p :| Leads(cfg, Init(now), init, p) && Next(cfg, p, a, s);
      ShutdownIsSerial(cfg, now, init, p);
      StepShutdowns(cfg, p, a, s);
    }
  }

  // ------------------------------------------------------ requests without a key

  predicate Rejects(th: Thread, r: Req) { th.job == Creating(r, ToReject) }

  /** The watch of a request without a key is closed, or about to be. */
  ghost predicate KeylessOk(s: System) {
    forall r :: r in s.reqs && s.reqs[r].key.None? && r in s.open ==> exists t :: t in s.threads && Rejects(s.threads[t], r)
  }

  /** Whoever is about to reject `r` still is, as long as the watch is open; and `r` is new only when registered. */
  ghost predicate KeylessStep(s: System, a: Action, s': System, r: Req, t: Tid) {
    && (r in s'.open && r in s.reqs ==> r in s.open && r in s'.reqs && s'.reqs[r] == s.reqs[r])
    && (t in s.threads && Rejects(s.threads[t], r) && r in s'.open ==> t in s'.threads && Rejects(s'.threads[t], r))
    && (r !in s.reqs && r in s'.reqs && s'.reqs[r].key.None? ==> a.Register? && a.t in s'.threads && Rejects(s'.threads[a.t], r))
  }

  lemma EnrolKeyless(cfg: Config, s: System, a: Action, s': System, r: Req, t: Tid)
    requires CacheSpec.Valid(s.cache) && CreateNext(cfg, s, a, s') && Enrols(a)
    ensures KeylessStep(s, a, s', r, t)
  {
    hide AddRequest, CacheSpec.Valid, Quiet, Wants, Cached;
  }

  lemma StreamKeyless(cfg: Config, s: System, a: Action, s': System, r: Req, t: Tid)
    requires CacheSpec.Valid(s.cache) && CreateNext(cfg, s, a, s') && !Enrols(a)
    ensures KeylessStep(s, a, s', r, t)
  {
    hide DeleteRequest, CacheSpec.Valid, Quiet, AfterReturn, AfterInsert;
  }

  lemma WatchKeyless(cfg: Config, s: System, a: Action, s': System, r: Req, t: Tid)
    requires CacheSpec.Valid(s.cache) && WatchNext(cfg, s, a, s')
    ensures KeylessStep(s, a, s', r, t)
  {
    hide SetResponse, CacheSpec.Valid, Cached;
  }

  lemma FetchKeyless(cfg: Config, s: System, a: Action, s': System, r: Req, t: Tid)
    requires CacheSpec.Valid(s.cache) && FetchNext(cfg, s, a, s')
    ensures KeylessStep(s, a, s', r, t)
  {
    hide FetchLook, FetchReap, DeleteKey, CacheSpec.Valid;
  }

  lemma EvictKeyless(cfg: Config, s: System, a: Action, s': System, r: Req, t: Tid)
    requires CacheSpec.Valid(s.cache) && EvictNext(cfg, s, a, s')
    ensures KeylessStep(s, a, s', r, t)
  {
    hide CacheSpec.Valid, Quiet, OtherRemoval;
  }

  lemma SendKeyless(cfg: Config, s: System, a: Action, s': System, r: Req, t: Tid)
    requires CacheSpec.Valid(s.cache) && SendNext(cfg, s, a, s')
    ensures KeylessStep(s, a, s', r, t)
  {
    hide CacheSpec.Valid, OtherHolder;
  }

  lemma StepKeyless(cfg: Config, s: System, a: Action, s': System, r: Req, t: Tid)
    requires Next(cfg, s, a, s')
    ensures KeylessStep(s, a, s', r, t)
  {
    hide CreateNext, WatchNext, FetchNext, EvictNext, SendNext, CacheSpec.Valid, KeylessStep;
    if CreateNext(cfg, s, a, s') {
      if Enrols(a) {
        EnrolKeyless(cfg, s, a, s', r, t);
      } else {
        StreamKeyless(cfg, s, a, s', r, t);
      }
    } else if WatchNext(cfg, s, a, s') {
      WatchKeyless(cfg, s, a, s', r, t);
    } else if FetchNext(cfg, s, a, s') {
      FetchKeyless(cfg, s, a, s', r, t);
    } else if EvictNext(cfg, s, a, s') {
      EvictKeyless(cfg, s, a, s', r, t);
    } else {
      SendKeyless(cfg, s, a, s', r, t);
    }
  }

  lemma KeylessKept(cfg: Config, s: System, a: Action, s': System)
    requires Next(cfg, s, a, s') && KeylessOk(s)
    ensures KeylessOk(s')
  {
    hide Next, Rejects;
    forall r | r in s'.reqs && s'.reqs[r].key.None? && r in s'.open
      ensures exists t :: t in s'.threads && Rejects(s'.threads[t], r)
    {
      StepKeyless(cfg, s, a, s', r, 0);
      if r in s.reqs {
        var t :| t in s.threads && Rejects(s.threads[t], r);
        StepKeyless(cfg, s, a, s', r, t);
      }
    }
  }

  /** Once the call of `CreateWatch` for a request without a key is over, its watch is closed; and such a request
      is never registered with the cache. */
  lemma {:induction false} KeylessIsClosed(cfg: Config, now: int, acts: seq<Action>, s: System, r: Req)
    requires Reached(cfg, now, acts, s) && r in s.reqs && s.reqs[r].key.None?
    ensures r in s.open ==> exists t :: t in s.threads && s.threads[t].job == Creating(r, ToReject)
    ensures r !in s.added && r !in s.returned && forall id :: id in s.cache.stores ==> r !in s.cache.stores[id]
  {
    ReachedKeyless(cfg, now, acts, s);
    ReachedInv(cfg, now, acts, s);
    assert forall id :: id in s.cache.stores ==> Members(s, s.cache.stores[id], id.key);
    if r in s.open {
      var t :| t in s.threads && Rejects(s.threads[t], r);
    }
  }

  lemma {:induction false} ReachedKeyless(cfg: Config, now: int, acts: seq<Action>, s: System)
    requires Reached(cfg, now, acts, s)
    ensures KeylessOk(s)
  {
    hide Next;
    if acts != [] {
      var init, a := acts[..|acts| - 1], acts[|acts| - 1];
      var p :| Leads(cfg, Init(now), init, p) && Next(cfg, p, a, s);
      ReachedKeyless(cfg, now, init, p);
      KeylessKept(cfg, p, a, s);
    }
  }
}
