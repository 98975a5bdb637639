/**
 The relay protocol: any number of `CreateWatch` calls, cancellations, cached pushes, upstream
 watchers and their fan-outs, key clearings, read-only fetches and the shutdown, interleaved at the
 granularity of their lock-protected sections.

 The caller's lock is released between sections, except while the eviction callback runs: that runs
 nested inside the cache lock, takes the downstream map's lock in turn, and closes watches one by
 one under it. These stretches are explicit thread states (`Callback`), with `cacheLock` and `mu`
 recording who holds what. A watch's read lock is held by a sender in `ToDrain` or `ToWrite`.
 */
module Relay {
  import opened Common
  import opened CacheSpec
  import Slots

  /** Requests are compared by pointer and every call of `CreateWatch` brings a fresh one. */
  type Req = nat
  type Tid = nat

  /** A stream remembers the key it was opened for, a request store the key it was made for. */
  datatype StreamId = StreamId(key: Key, n: nat)
  datatype StoreId = StoreId(key: Key, n: nat)

  /** A response: its version, the stream it came in on, and its rank among all calls of `SetResponse`. */
  datatype Msg = Msg(version: string, stream: StreamId, stamp: nat)

  type Value = Resource<Msg, StoreId>

  /** What `CreateWatch` reads off its request: the key (or none), the version it has, whether it is a NACK. */
  datatype ReqInfo = ReqInfo(key: Option<Key>, version: string, nack: bool)

  datatype FetchPc = NoFetch | Looking(k: Key) | Reaping(k: Key) | Got(f: Fetched<Msg, StoreId>)

  datatype CreatePc = ToReject | ToAdd | ToPush | ToExists | ToInsert(s: StreamId)

  datatype WatchPc =
    | ToSelect
    | ToSet(version: string)
    | ToFan
    | Scanning(m: Msg, store: StoreId, must: set<Req>, visited: set<Req>)
    | ToFail

  /** `seen` is the number of writes there had been to the watch at the drain. */
  datatype SendPc = ToGet | ToEnter | ToDrain | ToWrite(seen: nat)

  datatype Job =
    | Creating(r: Req, cpc: CreatePc)
    | Cancelling(r: Req)
    | Watching(s: StreamId, wpc: WatchPc)
    | Sending(r: Req, m: Msg, parent: Option<Tid>, spc: SendPc)
    | Reading
    | ShuttingDown
    | Finished

  /** `onCacheEvicted`; `locked` says whether it runs under the cache lock. `must` is the store's
      content when the scan of it began, `visited` what the scan has handled. */
  datatype Callback =
    | NoCallback
    | ToLock(k: Key, store: StoreId, locked: bool)
    | Closing(k: Key, store: StoreId, locked: bool, must: set<Req>, visited: set<Req>)
    | ToLoad(k: Key, locked: bool)
    | ToCloseDone(k: Key, locked: bool, s: StreamId)
    | ToDelete(k: Key, locked: bool, s: StreamId)

  datatype Thread = Thread(job: Job, fetch: FetchPc, cb: Callback)

  datatype Phase = Transit(t: Tid) | Loser | Watched(t: Tid) | Ended

  /** `closes` counts the closings of the stream's `done` channel. */
  datatype Stream = Stream(phase: Phase, closes: nat)

  /** A `Send` that found the slot full and returned an error, with the writes there had been to the
      watch at its drain and at its end. */
  datatype SendError = SendError(r: Req, m: Msg, seen: nat, writes: nat)

  /** History, read by no step. `written`: one more than the highest stamp put into the slot of a
      request. `crossed`: requests on whose watch two sends have overlapped. `cancelled`: requests whose
      cancel function was called. `failed`: keys of which a stream has failed, or was removed by the
      shutdown. `hasty`: keys for which one of these has happened: a `CreateWatch` returned that the
      clean-up of a failed stream was going to miss; a failed stream was left in the map, there being no
      entry to clean up; the shutdown removed the stream. A key is taken out again at the end of an
      eviction of it, and when a new stream of it is inserted while no clean-up of it is under way. */
  datatype Log = Log(
    written: map<Req, nat>,
    dropped: seq<SendError>,
    crossed: set<Req>,
    cancelled: set<Req>,
    failed: set<Key>,
    hasty: set<Key>)

  datatype System = System(
    now: int,
    cache: CacheSpec.State<Req, Msg, StoreId>,
    cacheLock: Option<Tid>,
    /** holder of the downstream map's write lock, where it is held across steps */
    mu: Option<Tid>,
    reqs: map<Req, ReqInfo>,
    /** every watch ever made; `open` is the domain of the downstream map */
    watches: map<Req, Slots.Slot<Msg>>,
    open: set<Req>,
    added: set<Req>,
    returned: set<Req>,
    up: map<Key, StreamId>,
    streams: map<StreamId, Stream>,
    threads: map<Tid, Thread>,
    /** history: all responses stored, in order */
    sets: seq<Msg>,
    /** history: one more than the highest stamp of a `Send` that came to its write on the watch of a request */
    attempted: map<Req, nat>,
    /** history: one more than the stamp of the cached response `CreateWatch` chose not to push */
    skipped: map<Req, nat>,
    /** history: two removals of one key from the upstream map have overlapped */
    overlap: bool,
    log: Log)

  function Init(now: int): System {
    System(now, CacheSpec.State([], map[]), None, None, map[], map[], {}, {}, {}, map[], map[], map[], [], map[], map[], false,
           Log(map[], [], {}, {}, {}, {}))
  }

  /** One lock-protected section of one thread; `t` is the thread, `u` a thread it starts. Where the
      code branches on what it reads, each branch is an action of its own. */
  datatype Action =
    | Tick(d: nat)
    // CreateWatch and the cancel function it returns
    | Register(t: Tid, r: Req, info: ReqInfo)
    | Reject(t: Tid)
    | Add(t: Tid, n: nat)
    | Push(t: Tid, u: Tid)
    | NoPush(t: Tid)
    | SeeStream(t: Tid)
    | OpenStream(t: Tid, n: nat)
    | Insert(t: Tid, u: Tid)
    | Lose(t: Tid)
    | Cancel(t: Tid, r: Req)
    | Forget(t: Tid)
    // watchUpstream and fanout
    | ReceiveUp(t: Tid, version: string)
    | SetUp(t: Tid, n: nat)
    | StartScan(t: Tid)
    | Fan(t: Tid, u: Tid, r: Req)
    | EndScan(t: Tid)
    | FailUp(t: Tid)
    | Clean(t: Tid)
    | Stop(t: Tid)
    // cache.Fetch, the read-only fetch, DeleteKey
    | Look(t: Tid)
    | Reap(t: Tid)
    | Read(t: Tid, k: Key)
    | ClearKey(t: Tid, k: Key)
    // onCacheEvicted, and shutdown, which removes upstream entries in the same steps
    | Lock(t: Tid)
    | CloseOne(t: Tid, r: Req)
    | Unlock(t: Tid)
    | Load(t: Tid)
    | LoadNone(t: Tid)
    | CloseDone(t: Tid)
    | Delete(t: Tid)
    | Shutdown(t: Tid, k: Key)
    // Watch.Send and the receiver of the watch
    | Get(t: Tid)
    | Enter(t: Tid)
    | Drain(t: Tid)
    | Write(t: Tid)
    | Consume(r: Req)
    | Exit(t: Tid)

  // -------------------------------------------------------------- pieces

  predicate Holds(th: Thread, r: Req) {
    th.job.Sending? && th.job.r == r && (th.job.spc.ToDrain? || th.job.spc.ToWrite?)
  }

  /** Nobody holds the read lock of `r`'s watch, so it can be closed. */
  ghost predicate Quiet(threads: map<Tid, Thread>, r: Req) {
    forall t :: t in threads ==> !Holds(threads[t], r)
  }

  /** `r` has no open watch, or its watch can be closed now. */
  ghost predicate CanClose(s: System, r: Req) {
    r in s.open ==> Quiet(s.threads, r)
  }

  function Closed(s: System, r: Req): map<Req, Slots.Slot<Msg>> {
    if r in s.open && r in s.watches then s.watches[r := s.watches[r].Close()] else s.watches
  }

  predicate HoldsCache(th: Thread) { !th.cb.NoCallback? && th.cb.locked }

  predicate Removing(cb: Callback, k: Key) { (cb.ToCloseDone? || cb.ToDelete?) && cb.k == k }

  ghost predicate OtherRemoval(threads: map<Tid, Thread>, t: Tid, k: Key) {
    exists u :: u in threads && u != t && Removing(threads[u].cb, k)
  }

  /** The thread after a cache operation: an evicted entry starts the callback under the lock. */
  function After(th: Thread, out: Option<Entry<Msg, StoreId>>): Thread {
    match out
    case None => th
    case Some(x) => th.(cb := ToLock(x.key, x.value.requests, true))
  }

  function LockAfter(t: Tid, out: Option<Entry<Msg, StoreId>>): Option<Tid> {
    if out.Some? then Some(t) else None
  }

  /** The lock after a callback is over. */
  function Released(s: System, cb: Callback): Option<Tid>
    requires !cb.NoCallback?
  {
    if cb.locked then None else s.cacheLock
  }

  function KeyOf(s: System, r: Req): Key {
    if r in s.reqs && s.reqs[r].key.Some? then s.reqs[r].key.value else ""
  }

  function At(m: map<Req, nat>, r: Req): nat { if r in m then m[r] else 0 }

  function Raise(m: map<Req, nat>, r: Req, n: nat): map<Req, nat> {
    if At(m, r) < n then m[r := n] else m
  }

  /** The cached response in a fetch result, if any. */
  function Cached(f: Fetched<Msg, StoreId>): Option<Msg> {
    if f.Hit? then f.value.resp else None
  }

  /** `CreateWatch` pushes a cached response unless the request has that version or is a NACK. */
  predicate Wants(info: ReqInfo, m: Msg) {
    m.version != info.version && !info.nack
  }

  /** Another thread is in the middle of a send on `r`'s watch. */
  ghost predicate OtherHolder(threads: map<Tid, Thread>, t: Tid, r: Req) {
    exists u :: u in threads && u != t && Holds(threads[u], r)
  }

  /** The thread cleans up after a failed stream of `k` and has found the entry. */
  predicate Cleaning(th: Thread, k: Key) {
    if th.cb.NoCallback? then
      && th.job.Watching? && th.job.s.key == k && th.job.wpc.ToFail?
      && th.fetch.Got? && th.fetch.f.Hit?
    else !th.cb.locked && th.cb.k == k
  }

  /** It does so, and will not close the watch of `r`. */
  predicate Misses(th: Thread, stores: map<StoreId, set<Req>>, k: Key, r: Req) {
    && Cleaning(th, k)
    && match th.cb
       case NoCallback => !InStore(stores, th.fetch.f.value.requests, r)
       case ToLock(_, store, _) => !InStore(stores, store, r)
       case Closing(_, store, _, must, visited) => !(InStore(stores, store, r) && r in must && r !in visited)
       case _ => true
  }

  predicate InStore(stores: map<StoreId, set<Req>>, id: StoreId, r: Req) {
    id in stores && r in stores[id]
  }

  /** `CreateWatch` returns `r`. */
  ghost function AfterReturn(s: System, r: Req): Log {
    if exists t :: t in s.threads && Misses(s.threads[t], s.cache.stores, KeyOf(s, r), r)
    then s.log.(hasty := s.log.hasty + {KeyOf(s, r)}) else s.log
  }

  /** It does so having put a stream in the map. With nobody cleaning up, the new stream serves everyone. */
  ghost function AfterInsert(s: System, r: Req): Log {
    if exists t :: t in s.threads && Cleaning(s.threads[t], KeyOf(s, r))
    then AfterReturn(s, r) else s.log.(hasty := s.log.hasty - {KeyOf(s, r)})
  }

  /** The callback ends. */
  function AfterCallback(s: System, cb: Callback): Log
    requires !cb.NoCallback?
  {
    if cb.locked then s.log.(hasty := s.log.hasty - {cb.k}) else s.log
  }

  // ------------------------------------------------- CreateWatch and cancel

  predicate Idle(s: System, t: Tid) { t in s.threads && s.threads[t].cb.NoCallback? }

  predicate IsCreating(s: System, t: Tid) {
    Idle(s, t) && s.threads[t].job.Creating? && s.threads[t].job.r in s.reqs
  }

  predicate CanRegister(s: System, t: Tid, r: Req) {
    t !in s.threads && r !in s.reqs && s.mu.None?
  }

  /** The key is computed and the watch is put in the downstream map. */
  function DoRegister(s: System, t: Tid, r: Req, info: ReqInfo): System {
    s.(reqs := s.reqs[r := info], watches := s.watches[r := Slots.Open()], open := s.open + {r},
       threads := s.threads[t := Thread(Creating(r, if info.key.None? then ToReject else ToAdd), NoFetch, NoCallback)])
  }

  ghost predicate CanReject(s: System, t: Tid) {
    IsCreating(s, t) && s.threads[t].job.cpc.ToReject? && s.mu.None? && CanClose(s, s.threads[t].job.r)
  }

  /** A request without a key gets a closed watch. */
  function DoReject(s: System, t: Tid): System
    requires IsCreating(s, t)
  {
    var r := s.threads[t].job.r;
    s.(watches := Closed(s, r), open := s.open - {r}, threads := s.threads[t := s.threads[t].(job := Finished)])
  }

  predicate CanAdd(s: System, t: Tid, n: nat) {
    && IsCreating(s, t) && s.threads[t].job.cpc.ToAdd? && s.cacheLock.None?
    && StoreId(KeyOf(s, s.threads[t].job.r), n) !in s.cache.stores
  }

  function DoAdd(cfg: Config, s: System, t: Tid, n: nat): System
    requires CacheSpec.Valid(s.cache) && IsCreating(s, t)
  {
    var r := s.threads[t].job.r;
    var k := KeyOf(s, r);
    var e := AddRequest(s.cache, cfg, k, r, s.now, StoreId(k, n));
    s.(cache := e.state, added := s.added + {r}, cacheLock := LockAfter(t, e.evicted),
       threads := s.threads[t := After(Thread(Creating(r, ToPush), Looking(k), NoCallback), e.evicted)])
  }

  predicate CanPush(s: System, t: Tid, u: Tid) {
    && IsCreating(s, t) && s.threads[t].job.cpc.ToPush? && s.threads[t].fetch.Got? && u !in s.threads
    && Cached(s.threads[t].fetch.f).Some? && Wants(s.reqs[s.threads[t].job.r], Cached(s.threads[t].fetch.f).value)
  }

  /** The cached response is pushed by a goroutine of its own. */
  function DoPush(s: System, t: Tid, u: Tid): System
    requires CanPush(s, t, u)
  {
    var r, m := s.threads[t].job.r, Cached(s.threads[t].fetch.f).value;
    s.(threads := s.threads[t := Thread(Creating(r, ToExists), NoFetch, NoCallback)][
                            u := Thread(Sending(r, m, None, ToEnter), NoFetch, NoCallback)])
  }

  predicate CanNoPush(s: System, t: Tid) {
    && IsCreating(s, t) && s.threads[t].job.cpc.ToPush? && s.threads[t].fetch.Got?
    && (Cached(s.threads[t].fetch.f).Some? ==>
          !Wants(s.reqs[s.threads[t].job.r], Cached(s.threads[t].fetch.f).value))
  }

  function DoNoPush(s: System, t: Tid): System
    requires IsCreating(s, t) && s.threads[t].fetch.Got?
  {
    var r, c := s.threads[t].job.r, Cached(s.threads[t].fetch.f);
    s.(skipped := if c.Some? then Raise(s.skipped, r, c.value.stamp + 1) else s.skipped,
       threads := s.threads[t := Thread(Creating(r, ToExists), NoFetch, NoCallback)])
  }

  predicate CanSeeStream(s: System, t: Tid) {
    IsCreating(s, t) && s.threads[t].job.cpc.ToExists? && KeyOf(s, s.threads[t].job.r) in s.up
  }

  /** `exists` says yes: `CreateWatch` returns. */
  ghost function DoSeeStream(s: System, t: Tid): System
    requires IsCreating(s, t)
  {
    s.(log := AfterReturn(s, s.threads[t].job.r), returned := s.returned + {s.threads[t].job.r},
       threads := s.threads[t := s.threads[t].(job := Finished)])
  }

  predicate CanOpenStream(s: System, t: Tid, n: nat) {
    && IsCreating(s, t)
    && s.threads[t].job.cpc.ToExists? && KeyOf(s, s.threads[t].job.r) !in s.up
    && StreamId(KeyOf(s, s.threads[t].job.r), n) !in s.streams
  }

  /** `exists` says no: a stream is opened, to be added to the map in a later step. */
  function DoOpenStream(s: System, t: Tid, n: nat): System
    requires IsCreating(s, t)
  {
    var r := s.threads[t].job.r;
    var id := StreamId(KeyOf(s, r), n);
    s.(streams := s.streams[id := Stream(Transit(t), 0)],
       threads := s.threads[t := s.threads[t].(job := Creating(r, ToInsert(id)))])
  }

  predicate CanInsert(s: System, t: Tid, u: Tid) {
    && IsCreating(s, t) && s.threads[t].job.cpc.ToInsert? && u !in s.threads
    && s.threads[t].job.cpc.s.key !in s.up
  }

  /** `add` stores the first stream of a key, and a goroutine starts to watch it. */
  ghost function DoInsert(s: System, t: Tid, u: Tid): System
    requires CanInsert(s, t, u)
  {
    var r, id := s.threads[t].job.r, s.threads[t].job.cpc.s;
    s.(log := AfterInsert(s, r), returned := s.returned + {r}, up := s.up[id.key := id],
       streams := s.streams[id := Stream(Watched(u), 0)],
       threads := s.threads[t := s.threads[t].(job := Finished)][u := Thread(Watching(id, ToSelect), NoFetch, NoCallback)])
  }

  predicate CanLose(s: System, t: Tid) {
    IsCreating(s, t) && s.threads[t].job.cpc.ToInsert? && s.threads[t].job.cpc.s.key in s.up
  }

  /** `add` finds a stream of the key stored before: the slower one is shut down. */
  ghost function DoLose(s: System, t: Tid): System
    requires CanLose(s, t)
  {
    var id := s.threads[t].job.cpc.s;
    s.(log := AfterReturn(s, s.threads[t].job.r), returned := s.returned + {s.threads[t].job.r},
       streams := s.streams[id := Stream(Loser, 0)],
       threads := s.threads[t := s.threads[t].(job := Finished)])
  }

  ghost predicate CanCancel(s: System, t: Tid, r: Req) {
    t !in s.threads && r in s.returned && s.mu.None? && CanClose(s, r)
  }

  function DoCancel(s: System, t: Tid, r: Req): System {
    s.(watches := Closed(s, r), open := s.open - {r}, log := s.log.(cancelled := s.log.cancelled + {r}),
       threads := s.threads[t := Thread(Cancelling(r), NoFetch, NoCallback)])
  }

  predicate CanForget(s: System, t: Tid) {
    Idle(s, t) && s.threads[t].job.Cancelling? && s.cacheLock.None?
  }

  function DoForget(cfg: Config, s: System, t: Tid): System
    requires CacheSpec.Valid(s.cache) && CanForget(s, t)
  {
    var r := s.threads[t].job.r;
    s.(cache := DeleteRequest(s.cache, cfg, KeyOf(s, r), r), threads := s.threads[t := s.threads[t].(job := Finished)])
  }

  // ------------------------------------------------ watchUpstream and fanout

  predicate IsWatching(s: System, t: Tid) { Idle(s, t) && s.threads[t].job.Watching? }

  predicate CanReceiveUp(s: System, t: Tid) { IsWatching(s, t) && s.threads[t].job.wpc.ToSelect? }

  function DoReceiveUp(s: System, t: Tid, version: string): System
    requires IsWatching(s, t)
  {
    s.(threads := s.threads[t := s.threads[t].(job := Watching(s.threads[t].job.s, ToSet(version)))])
  }

  predicate CanSetUp(s: System, t: Tid, n: nat) {
    && IsWatching(s, t) && s.threads[t].job.wpc.ToSet? && s.cacheLock.None?
    && StoreId(s.threads[t].job.s.key, n) !in s.cache.stores
  }

  function DoSetUp(cfg: Config, s: System, t: Tid, n: nat): System
    requires CacheSpec.Valid(s.cache) && CanSetUp(s, t, n)
  {
    var id := s.threads[t].job.s;
    var m := Msg(s.threads[t].job.wpc.version, id, |s.sets|);
    var e := SetResponse(s.cache, cfg, id.key, m, s.now, StoreId(id.key, n));
    s.(cache := e.state, sets := s.sets + [m], cacheLock := LockAfter(t, e.evicted),
       threads := s.threads[t := After(Thread(Watching(id, ToFan), Looking(id.key), NoCallback), e.evicted)])
  }

  predicate CanStartScan(s: System, t: Tid) {
    && IsWatching(s, t) && s.threads[t].job.wpc.ToFan? && s.threads[t].fetch.Got?
    && (s.threads[t].fetch.f.Hit? ==> s.threads[t].fetch.f.value.requests in s.cache.stores)
  }

  /** The fan-out goes to whoever is in the fetched resource's store, if there is a response in it. */
  function DoStartScan(s: System, t: Tid): System
    requires CanStartScan(s, t)
  {
    var th := s.threads[t];
    var pc := match Cached(th.fetch.f)
      case None => ToSelect
      case Some(m) => Scanning(m, th.fetch.f.value.requests, s.cache.stores[th.fetch.f.value.requests], {});
    s.(threads := s.threads[t := Thread(Watching(th.job.s, pc), NoFetch, NoCallback)])
  }

  predicate IsScanning(s: System, t: Tid) {
    IsWatching(s, t) && s.threads[t].job.wpc.Scanning? && s.threads[t].job.wpc.store in s.cache.stores
  }

  predicate CanFan(s: System, t: Tid, u: Tid, r: Req) {
    && IsScanning(s, t) && u !in s.threads
    && r in s.cache.stores[s.threads[t].job.wpc.store] && r !in s.threads[t].job.wpc.visited
  }

  function DoFan(s: System, t: Tid, u: Tid, r: Req): System
    requires IsScanning(s, t)
  {
    var id, pc := s.threads[t].job.s, s.threads[t].job.wpc;
    s.(threads := s.threads[t := s.threads[t].(job := Watching(id, pc.(visited := pc.visited + {r})))][
                            u := Thread(Sending(r, pc.m, Some(t), ToGet), NoFetch, NoCallback)])
  }

  /** The scan has met everyone who was there throughout, and all its sends have returned. */
  ghost predicate CanEndScan(s: System, t: Tid) {
    && IsScanning(s, t)
    && s.threads[t].job.wpc.must * s.cache.stores[s.threads[t].job.wpc.store] <= s.threads[t].job.wpc.visited
    && (forall u :: u in s.threads && s.threads[u].job.Sending? ==> s.threads[u].job.parent != Some(t))
  }

  function DoEndScan(s: System, t: Tid): System
    requires IsWatching(s, t)
  {
    s.(threads := s.threads[t := s.threads[t].(job := Watching(s.threads[t].job.s, ToSelect))])
  }

  /** The response channel was closed. */
  function DoFailUp(s: System, t: Tid): System
    requires IsWatching(s, t)
  {
    var id := s.threads[t].job.s;
    s.(log := s.log.(failed := s.log.failed + {id.key}),
       threads := s.threads[t := Thread(Watching(id, ToFail), Looking(id.key), NoCallback)])
  }

  /** A nil result without an error is dereferenced by the code, which is the end of the process. */
  predicate CanClean(s: System, t: Tid) {
    && IsWatching(s, t) && s.threads[t].job.wpc.ToFail? && s.threads[t].fetch.Got? && !s.threads[t].fetch.f.Nil?
    && s.threads[t].job.s in s.streams
  }

  function DoClean(s: System, t: Tid): System
    requires CanClean(s, t)
  {
    var id, f := s.threads[t].job.s, s.threads[t].fetch.f;
    var cb := if f.Hit? then ToLock(id.key, f.value.requests, false) else NoCallback;
    var left := f.Missing? && id.key in s.up && s.up[id.key] == id;
    s.(log := if left then s.log.(hasty := s.log.hasty + {id.key}) else s.log,
       streams := s.streams[id := s.streams[id].(phase := Ended)],
       threads := s.threads[t := Thread(Finished, NoFetch, cb)])
  }

  predicate CanStop(s: System, t: Tid) {
    && IsWatching(s, t) && s.threads[t].job.wpc.ToSelect?
    && s.threads[t].job.s in s.streams && s.streams[s.threads[t].job.s].closes > 0
  }

  /** `done` is closed: the upstream is shut down. */
  function DoStop(s: System, t: Tid): System
    requires CanStop(s, t)
  {
    var id := s.threads[t].job.s;
    s.(streams := s.streams[id := s.streams[id].(phase := Ended)],
       threads := s.threads[t := s.threads[t].(job := Finished)])
  }

  // ------------------------------------------------------------ cache.Fetch

  predicate CanLook(s: System, t: Tid) { Idle(s, t) && s.threads[t].fetch.Looking? && s.cacheLock.None? }

  function DoLook(s: System, t: Tid): System
    requires CacheSpec.Valid(s.cache) && CanLook(s, t)
  {
    var k := s.threads[t].fetch.k;
    var f := match Lookup(s.cache.lru, k)
      case None => Got(Missing)
      case Some(v) => if IsExpired(v, s.now) then Reaping(k) else Got(Hit(v));
    s.(cache := FetchLook(s.cache, k), threads := s.threads[t := s.threads[t].(fetch := f)])
  }

  predicate CanReap(s: System, t: Tid) { Idle(s, t) && s.threads[t].fetch.Reaping? && s.cacheLock.None? }

  function DoReap(s: System, t: Tid): System
    requires CacheSpec.Valid(s.cache) && CanReap(s, t)
  {
    var (e, f) := FetchReap(s.cache, s.threads[t].fetch.k, s.now);
    s.(cache := e.state, cacheLock := LockAfter(t, e.evicted),
       threads := s.threads[t := After(s.threads[t].(fetch := Got(f)), e.evicted)])
  }

  function DoRead(s: System, t: Tid, k: Key): System {
    s.(threads := s.threads[t := Thread(Reading, Looking(k), NoCallback)])
  }

  predicate CanClearKey(s: System, t: Tid) { t !in s.threads && s.cacheLock.None? }

  function DoClearKey(s: System, t: Tid, k: Key): System
    requires CacheSpec.Valid(s.cache)
  {
    var e := DeleteKey(s.cache, k);
    s.(cache := e.state, cacheLock := LockAfter(t, e.evicted),
       threads := s.threads[t := After(Thread(Finished, NoFetch, NoCallback), e.evicted)])
  }

  // ---------------------------------------------- onCacheEvicted and shutdown

  predicate CanLock(s: System, t: Tid) {
    t in s.threads && s.threads[t].cb.ToLock? && s.mu.None? && s.threads[t].cb.store in s.cache.stores
  }

  function DoLock(s: System, t: Tid): System
    requires CanLock(s, t)
  {
    var cb := s.threads[t].cb;
    s.(mu := Some(t),
       threads := s.threads[t := s.threads[t].(cb := Closing(cb.k, cb.store, cb.locked, s.cache.stores[cb.store], {}))])
  }

  predicate IsClosing(s: System, t: Tid) {
    t in s.threads && s.threads[t].cb.Closing? && s.threads[t].cb.store in s.cache.stores
  }

  ghost predicate CanCloseOne(s: System, t: Tid, r: Req) {
    && IsClosing(s, t) && r in s.cache.stores[s.threads[t].cb.store] && r !in s.threads[t].cb.visited
    && CanClose(s, r)
  }

  function DoCloseOne(s: System, t: Tid, r: Req): System
    requires IsClosing(s, t)
  {
    var cb := s.threads[t].cb;
    s.(watches := Closed(s, r), open := s.open - {r},
       threads := s.threads[t := s.threads[t].(cb := cb.(visited := cb.visited + {r}))])
  }

  predicate CanUnlock(s: System, t: Tid) {
    IsClosing(s, t) && s.threads[t].cb.must * s.cache.stores[s.threads[t].cb.store] <= s.threads[t].cb.visited
  }

  function DoUnlock(s: System, t: Tid): System
    requires IsClosing(s, t)
  {
    var cb := s.threads[t].cb;
    s.(mu := None, threads := s.threads[t := s.threads[t].(cb := ToLoad(cb.k, cb.locked))])
  }

  predicate CanLoad(s: System, t: Tid) { t in s.threads && s.threads[t].cb.ToLoad? && s.threads[t].cb.k in s.up }

  ghost function DoLoad(s: System, t: Tid): System
    requires CanLoad(s, t)
  {
    var cb := s.threads[t].cb;
    s.(overlap := s.overlap || OtherRemoval(s.threads, t, cb.k),
       threads := s.threads[t := s.threads[t].(cb := ToCloseDone(cb.k, cb.locked, s.up[cb.k]))])
  }

  predicate CanLoadNone(s: System, t: Tid) { t in s.threads && s.threads[t].cb.ToLoad? && s.threads[t].cb.k !in s.up }

  function DoLoadNone(s: System, t: Tid): System
    requires CanLoadNone(s, t)
  {
    s.(cacheLock := Released(s, s.threads[t].cb), log := AfterCallback(s, s.threads[t].cb),
       threads := s.threads[t := s.threads[t].(cb := NoCallback)])
  }

  predicate CanCloseDone(s: System, t: Tid) {
    t in s.threads && s.threads[t].cb.ToCloseDone? && s.threads[t].cb.s in s.streams
  }

  function DoCloseDone(s: System, t: Tid): System
    requires CanCloseDone(s, t)
  {
    var cb := s.threads[t].cb;
    s.(streams := s.streams[cb.s := s.streams[cb.s].(closes := s.streams[cb.s].closes + 1)],
       threads := s.threads[t := s.threads[t].(cb := ToDelete(cb.k, cb.locked, cb.s))])
  }

  predicate CanDelete(s: System, t: Tid) { t in s.threads && s.threads[t].cb.ToDelete? }

  function DoDelete(s: System, t: Tid): System
    requires CanDelete(s, t)
  {
    var cb := s.threads[t].cb;
    s.(up := s.up - {cb.k}, cacheLock := Released(s, cb), log := AfterCallback(s, cb),
       threads := s.threads[t := s.threads[t].(cb := NoCallback)])
  }

  ghost predicate CanShutdown(s: System, t: Tid, k: Key) {
    t !in s.threads && k in s.up && forall u :: u in s.threads ==> !s.threads[u].job.ShuttingDown?
  }

  ghost function DoShutdown(s: System, t: Tid, k: Key): System
    requires CanShutdown(s, t, k)
  {
    s.(overlap := s.overlap || OtherRemoval(s.threads, t, k),
       log := s.log.(failed := s.log.failed + {k}, hasty := s.log.hasty + {k}),
       threads := s.threads[t := Thread(ShuttingDown, NoFetch, ToCloseDone(k, false, s.up[k]))])
  }

  // ------------------------------------------------------------- Watch.Send

  predicate IsSending(s: System, t: Tid) {
    Idle(s, t) && s.threads[t].job.Sending? && s.threads[t].job.r in s.watches
  }

  predicate CanGet(s: System, t: Tid) { IsSending(s, t) && s.threads[t].job.spc.ToGet? && s.mu.None? }

  function DoGet(s: System, t: Tid): System
    requires IsSending(s, t)
  {
    var j := s.threads[t].job;
    s.(threads := s.threads[t := s.threads[t].(job := if j.r in s.open then j.(spc := ToEnter) else Finished)])
  }

  predicate CanEnter(s: System, t: Tid) { IsSending(s, t) && s.threads[t].job.spc.ToEnter? }

  ghost function DoEnter(s: System, t: Tid): System
    requires IsSending(s, t)
  {
    var j := s.threads[t].job;
    var crosses := !s.watches[j.r].Closed() && OtherHolder(s.threads, t, j.r);
    s.(log := if crosses then s.log.(crossed := s.log.crossed + {j.r}) else s.log,
       threads := s.threads[t := s.threads[t].(job := if s.watches[j.r].Closed() then Finished else j.(spc := ToDrain))])
  }

  predicate CanDrain(s: System, t: Tid) { IsSending(s, t) && s.threads[t].job.spc.ToDrain? }

  function DoDrain(s: System, t: Tid): System
    requires IsSending(s, t)
  {
    var j := s.threads[t].job;
    s.(watches := s.watches[j.r := s.watches[j.r].Drain()],
       threads := s.threads[t := s.threads[t].(job := j.(spc := ToWrite(s.watches[j.r].writes)))])
  }

  predicate CanWrite(s: System, t: Tid) { IsSending(s, t) && s.threads[t].job.spc.ToWrite? }

  function DoWrite(s: System, t: Tid): System
    requires CanWrite(s, t)
  {
    var j := s.threads[t].job;
    var w := s.watches[j.r];
    s.(log := if w.Blocked() then s.log.(dropped := s.log.dropped + [SendError(j.r, j.m, j.spc.seen, w.writes)])
              else s.log.(written := Raise(s.log.written, j.r, j.m.stamp + 1)),
       watches := s.watches[j.r := w.Write(j.m)], attempted := Raise(s.attempted, j.r, j.m.stamp + 1),
       threads := s.threads[t := s.threads[t].(job := Finished)])
  }

  predicate CanConsume(s: System, r: Req) { r in s.watches && s.watches[r].held.Some? }

  function DoConsume(s: System, r: Req): System
    requires CanConsume(s, r)
  {
    s.(watches := s.watches[r := s.watches[r].Read()])
  }

  predicate CanExit(s: System, t: Tid) {
    && Idle(s, t)
    && (|| s.threads[t].job.Finished? || s.threads[t].job.ShuttingDown?
        || (s.threads[t].job.Reading? && s.threads[t].fetch.Got?))
  }

  // ----------------------------------------------------------- all together

  /** The sections of `CreateWatch` and of the cancel function it returns. */
  ghost predicate CreateNext(cfg: Config, s: System, a: Action, s': System)
    requires CacheSpec.Valid(s.cache)
  {
    match a
    case Register(t, r, info) => CanRegister(s, t, r) && s' == DoRegister(s, t, r, info)
    case Reject(t) => CanReject(s, t) && s' == DoReject(s, t)
    case Add(t, n) => CanAdd(s, t, n) && s' == DoAdd(cfg, s, t, n)
    case Push(t, u) => CanPush(s, t, u) && s' == DoPush(s, t, u)
    case NoPush(t) => CanNoPush(s, t) && s' == DoNoPush(s, t)
    case SeeStream(t) => CanSeeStream(s, t) && s' == DoSeeStream(s, t)
    case OpenStream(t, n) => CanOpenStream(s, t, n) && s' == DoOpenStream(s, t, n)
    case Insert(t, u) => CanInsert(s, t, u) && s' == DoInsert(s, t, u)
    case Lose(t) => CanLose(s, t) && s' == DoLose(s, t)
    case Cancel(t, r) => CanCancel(s, t, r) && s' == DoCancel(s, t, r)
    case Forget(t) => CanForget(s, t) && s' == DoForget(cfg, s, t)
    case _ => false
  }

  /** The sections up to the push of a cached response; the others deal with the stream and the cancellation. */
  predicate Enrols(a: Action) { a.Register? || a.Reject? || a.Add? || a.Push? || a.NoPush? }

  /** Those of `watchUpstream` and `fanout`. */
  ghost predicate WatchNext(cfg: Config, s: System, a: Action, s': System)
    requires CacheSpec.Valid(s.cache)
  {
    match a
    case ReceiveUp(t, version) => CanReceiveUp(s, t) && s' == DoReceiveUp(s, t, version)
    case SetUp(t, n) => CanSetUp(s, t, n) && s' == DoSetUp(cfg, s, t, n)
    case StartScan(t) => CanStartScan(s, t) && s' == DoStartScan(s, t)
    case Fan(t, u, r) => CanFan(s, t, u, r) && s' == DoFan(s, t, u, r)
    case EndScan(t) => CanEndScan(s, t) && s' == DoEndScan(s, t)
    case FailUp(t) => CanReceiveUp(s, t) && s' == DoFailUp(s, t)
    case Clean(t) => CanClean(s, t) && s' == DoClean(s, t)
    case Stop(t) => CanStop(s, t) && s' == DoStop(s, t)
    case _ => false
  }

  /** Those of `Fetch`, of the read-only fetch, and of `DeleteKey`. */
  ghost predicate FetchNext(cfg: Config, s: System, a: Action, s': System)
    requires CacheSpec.Valid(s.cache)
  {
    match a
    case Look(t) => CanLook(s, t) && s' == DoLook(s, t)
    case Reap(t) => CanReap(s, t) && s' == DoReap(s, t)
    case Read(t, k) => t !in s.threads && s' == DoRead(s, t, k)
    case ClearKey(t, k) => CanClearKey(s, t) && s' == DoClearKey(s, t, k)
    case _ => false
  }

  /** Those of the eviction callback and of the shutdown. */
  ghost predicate EvictNext(cfg: Config, s: System, a: Action, s': System)
    requires CacheSpec.Valid(s.cache)
  {
    match a
    case Lock(t) => CanLock(s, t) && s' == DoLock(s, t)
    case CloseOne(t, r) => CanCloseOne(s, t, r) && s' == DoCloseOne(s, t, r)
    case Unlock(t) => CanUnlock(s, t) && s' == DoUnlock(s, t)
    case Load(t) => CanLoad(s, t) && s' == DoLoad(s, t)
    case LoadNone(t) => CanLoadNone(s, t) && s' == DoLoadNone(s, t)
    case CloseDone(t) => CanCloseDone(s, t) && s' == DoCloseDone(s, t)
    case Delete(t) => CanDelete(s, t) && s' == DoDelete(s, t)
    case Shutdown(t, k) => CanShutdown(s, t, k) && s' == DoShutdown(s, t, k)
    case _ => false
  }

  /** Those of `Watch.Send` and its receiver; the clock; threads that are done. */
  ghost predicate SendNext(cfg: Config, s: System, a: Action, s': System)
    requires CacheSpec.Valid(s.cache)
  {
    match a
    case Tick(d) => s' == s.(now := s.now + d)
    case Get(t) => CanGet(s, t) && s' == DoGet(s, t)
    case Enter(t) => CanEnter(s, t) && s' == DoEnter(s, t)
    case Drain(t) => CanDrain(s, t) && s' == DoDrain(s, t)
    case Write(t) => CanWrite(s, t) && s' == DoWrite(s, t)
    case Consume(r) => CanConsume(s, r) && s' == DoConsume(s, r)
    case Exit(t) => CanExit(s, t) && s' == s.(threads := s.threads - {t})
    case _ => false
  }

  /** From `s`, action `a` may lead to `s'`. */
  ghost predicate Next(cfg: Config, s: System, a: Action, s': System) {
    // no restriction: every reachable state has a valid cache, see `RelaySafety.ReachedInv`
    && CacheSpec.Valid(s.cache)
    && (|| CreateNext(cfg, s, a, s') || WatchNext(cfg, s, a, s') || FetchNext(cfg, s, a, s')
        || EvictNext(cfg, s, a, s') || SendNext(cfg, s, a, s'))
  }
}
