# xds-relay: a verified model

xds-relay stands between many Envoy proxies and an upstream xDS management server. It maps every
downstream request to an aggregated key, keeps one upstream stream per key, caches the latest
response of each key in an LRU cache with a time to live, and fans every new response out to all
requests registered for the key. This project models those parts in Dafny and proves what they are
relied on for. `dafny verify dfyconfig.toml` checks all of it.

## How the project is laid out

| files | what they model |
|---|---|
| `CacheSpec`, `CacheHistory`, `Cache` | the LRU+TTL cache: as a value, over whole histories of operations, and as the class that implements it, with shared `RequestsStore` objects |
| `Watch`, `ResponseMaps` | the one-slot watch channel, with overlapping sends; the downstream and upstream maps as classes |
| `Relay` | the relay protocol as a transition system whose steps are the lock-protected sections of all goroutines |
| `RelayBasics`, `RelayReach`, `RelayStreams`, `RelayCover`, `RelaySteps` | its invariants, by topic, and their preservation by every action |
| `RelaySafety` | what follows for every reachable state |
| `RelaySends`, `RelayFanout`, `RelayLost` | what becomes of a response that is sent, what the fan-out owes a request, and a schedule that loses the newest response |
| `RelayLive`, `RelayWaiting`, `RelayMissed`, `RelayStranded` | when a waiting client has a live stream, what can leave it without one, and a schedule that does |
| `RelayOverlap`, `RelayWitness` | when a `done` channel is closed twice, and a schedule in which one is |
| `RelayPush`, `RelayFetch`, `RelayOrigins` | when a cached response is pushed, what the cache operations do inside the relay, and where responses and rejections come from |
| `RelayTruths` | that the history fields record what happened, and that only its senders and its receiver change a watch |
| `RelayCancel` | what a cancellation leaves behind |
| `AckPipeline`, `AckRuns` | the upstream client's retry loop with its sender and receiver goroutines, and what holds of its runs |
| `Keyer`, `Verdicts` | match predicates, and what each kind of them says about a request |
| `Fragments`, `Texts` | result fragments, and what each kind of them contributes |
| `Mapper`, `Refused` | the aggregated key, and which requests are refused one |
| `Validate` | the generated validation of a keyer configuration, and what it guarantees |
| `KeyStability` | the in-place rewriting of the representative request, and the key it leaves alone |

### The relay protocol

`Relay.System` holds the cache, both maps, every watch ever made and every stream ever opened, and a
set of threads: `CreateWatch` calls, cancellations, pushes of a cached response, upstream watchers, the
sends of their fan-outs, read-only fetches, key clearings and the shutdown. Any number of them
interleave. The eviction callback runs nested inside the cache lock and takes the downstream map's lock in
turn; its progress is a thread state (`Callback`), so other threads run between its steps. Some fields of the
state are history only, read by no step: the responses stored so far, what was offered, written and dropped on each
watch, the response `CreateWatch` chose not to push, whether two removals of one key have overlapped, and, in
`Relay.Log`, which sends overlapped, which requests were cancelled, and which keys had a failure.

A reachable state is one that some sequence of actions leads to from the empty relay. The theorems in
`RelaySafety`, `RelaySends`, `RelayFanout`, `RelayWaiting`, `RelayOverlap` and `RelayCancel` hold in all of them:

* no missed update: once no thread is still on its way to offer a key's response to a request, an open
  watch registered with an entry that holds a response has had that response or a later one put into its slot, or
  such a response is the one the request's own `CreateWatch` found in the cache and did not push, as the request named
  its version or is a NACK, or a `Send` of such a response was overlapped by another on the same watch and returned
  "channel is blocked"; if sends on the watch never overlapped, the last is not so;
* no missed fan-out: of a response stored after `CreateWatch` is past that push nothing is withheld, from a NACK no more
  than from anybody else: once settled, it or a later one was put into the slot, or its `Send` was so overlapped;
* a returned request with an open watch has a live stream in the map that is received from, as long as no stream of its
  key has failed or been removed by the shutdown, and after failures too unless one of three things (below) has
  happened since the key was last evicted, or last got a new stream undisturbed;
* every open watch whose request was added to the cache is in the store of its own key's entry, or in the
  store the current holder of the cache lock is about to close;
* every stream is in the hands of exactly the thread its phase names, is a shut-down loser, or has ended; and
  without overlapping removals a key has one watched stream with `done` open and no `done` closes twice;
* two removals of a key have overlapped if and only if at most two closings by the removing threads make it that a
  `done` has been closed twice;
* what waits in a watch came in on a stream opened for the watch's own key;
* a watch is closed once, exactly when it has left the downstream map, and nothing enters it afterwards;
* once the cancel function of a request has run to its end, no cache entry points to a store that holds it;
* whenever a lock is held, some thread that holds a lock can take a step.

### Where the code and the obvious claim differ

* Removal from the upstream map loads, closes and deletes in three steps. With overlapping removals of one
  key a `done` channel can be closed twice; `RelayWitness.DoubleClose` is such a schedule.
  `RelayOverlap.OverlapIsDoom` and `RelayOverlap.DoubleCloseIffOverlap` make overlap the exact condition.
* A waiting client need not have a live stream after an upstream failure. The clean-up of a failed stream closes
  everyone who returned before it looked the entry up, so a failure alone does no harm. Harm can be done in three
  ways, and a key is `hasty` once one of them has come about:
  a `CreateWatch` for the key returns that a clean-up which has found the entry is not going to close - for instance
  one added after its scan, which finds the ended stream still in the map; a failure finds no cache entry and leaves
  the ended stream in the map; the shutdown removes the stream. A key is no longer hasty after its next eviction, or
  when a new stream is inserted for it with no such clean-up, nor the shutdown's removal, under way.
  `RelayWaiting.WaitingHasStream` and `RelayWaiting.WaitingIsServed` say that there are no other ways. The harm is
  `RelayMissed.MissedCanBeStranded` for the first: at whatever point the clean-up is, a waiting request it misses can end
  up with no stream in the map, unless a scan under way is bound to close its watch; after the scan that is how the clean-up
  ends, says `RelayWaiting.MissedIsStranded`, and so does the shutdown, whose callback has no scan. For the second it is
  `RelayMissed.LeftBehind`, and `RelayStranded.Stranded` is a schedule.
  What the relay sees as an upstream failure is rare: the response channel of a stream nobody has cancelled is
  closed only when the client is shut down or the type URL is not supported
  (`internal/app/upstream/client.go:196-260`, `AckPipeline.ReturnsOnlyIf`); a broken stream is opened again.
* `Send` is meant to replace what is in the slot, but two sends on one watch run under a read lock. When both drain
  before either writes, the later write finds the slot full and its response is dropped, also if it is the newer one:
  `RelayLost.NewestLost` is a schedule after which everything has settled and the client holds the older of two responses.
* A cached response is pushed by a goroutine of its own and can overwrite a newer one in the slot, so
  versions seen by a client are not claimed to increase.
* The comments on `and_match` and `or_match` in
  `api/protos/aggregation/v1/aggregation.proto` (lines 128-134) describe each other. The code takes "and" as all
  and "or" as any, and so does the model: `Verdicts.AndIsAll` and `Verdicts.OrIsAny`.
* The same file (line 27) says the first matching rule of a fragment applies. The code applies every
  matching rule. `Mapper.FirstMatchRule` and `Mapper.FirstMatchRuleErrs` state when the two agree.
* The cache can be configured with a negative capacity, which the library reads as "always over
  capacity". The model keeps that: such a cache stays empty, and only then is the victim the key just written.

## Model

| member | source | states |
|---|---|---|
| CacheSpec.Put | internal/app/cache/cache.go:67-83 | adding to the LRU changes no key but the one written and the one evicted, and what it evicts is handed over with its latest value; overwriting a present key evicts nothing |
| CacheSpec.AddRequestValid | internal/app/cache/cache.go:188-226 | adding a request keeps keys distinct and never lets two keys share a request store |
| CacheSpec.SetResponseValid | internal/app/cache/cache.go:151-186 | storing a response keeps keys distinct and never lets two keys share a request store |
| CacheSpec.ReapEffect | internal/app/cache/cache.go:118-149 | the second section of a fetch drops at most the one entry, with its value, and returns exactly what the cache then holds for the key |
| CacheHistory.StepRefinesPlain | internal/app/cache/cache.go:103-265 | one operation is one step of an unbounded plain map on its own key, the identity on every other key, and at most one logged loss with the final value |
| CacheHistory.CacheRefinesReplay | internal/app/cache/cache.go:103-265 | after any history a present key holds exactly what a plain map holds after that key's own operations since it was last absent |
| CacheHistory.CreatedByWrite | internal/app/cache/cache.go:155-163 | only an AddRequest or SetResponse on the key itself brings a key into the cache |
| CacheHistory.ExpiryIsFromLastSet | internal/app/cache/cache.go:274-279 | a present key's expiry counts from its last SetResponse, or from its creation; no fetch, deletion or later AddRequest moves it |
| CacheHistory.ReapExactly | internal/app/cache/cache.go:118-139 | fetch removes a present key exactly when it is expired at the instant of removal, so a response set between the two checks is not lost unless itself expired by then, and a returned resource was unexpired at its last check |
| CacheHistory.EvictionAccounting | internal/app/cache/cache.go:67-83 | entries created equal entries present plus eviction callbacks made, and a positive capacity is never exceeded |
| CacheHistory.ListIsByRecency | internal/app/cache/cache.go:103-265 | the list is always ordered by the last operation on each key |
| CacheHistory.CapacityVictim | internal/app/cache/cache.go:67-83 | the victim of a write is the least recently touched of all keys, and is the key just written exactly when the capacity is negative |
| CacheObjects.RequestsStore.Set | internal/app/cache/request_store.go:19-21 | adds the request to the shared set |
| CacheObjects.RequestsStore.Delete | internal/app/cache/request_store.go:28-30 | removes the request from the shared set |
| CacheObjects.RequestsStore.ForEach | internal/app/cache/request_store.go:32-41 | visits every request of the set once |
| CacheObjects.Cache.New | internal/app/cache/cache.go:62-89 | a negative time to live is refused; otherwise the cache starts empty |
| CacheObjects.Cache.AddRequest | internal/app/cache/cache.go:188-226 | the object changes as the value does, in place: an existing store is updated for all copies of the resource, an evicted entry is passed to the callback |
| CacheObjects.Cache.SetResponse | internal/app/cache/cache.go:151-186 | the object changes as the value does, and the request store of the key is returned and kept |
| CacheObjects.Cache.DeleteRequest | internal/app/cache/cache.go:228-251 | the request leaves the key's store, in place; an absent key is no error |
| CacheObjects.Cache.DeleteKey | internal/app/cache/cache.go:253-265 | the entry goes to the callback; an absent key is reported and nothing changes |
| CacheObjects.Cache.FetchLook | internal/app/cache/cache.go:104-107 | the entry is returned and becomes the most recently used |
| CacheObjects.Cache.FetchReap | internal/app/cache/cache.go:118-139 | the entry is checked again and removed only if still expired |
| CacheObjects.Cache.Fetch | internal/app/cache/cache.go:103-149 | both sections together, undisturbed: missing, expired and dropped, or hit and touched |
| Slots.SlotConservation | internal/app/transport/watchv2.go:33-70 | however sends, receives and the close interleave, writes equal receives plus drains plus the slot, and a send errs only if another send wrote after its drain |
| Slots.LastSentWins | internal/app/transport/watchv3.go:45-69 | sends that do not overlap never err, and the last one sent is in the slot or was received last |
| Slots.ClosedKeepsValue | internal/app/transport/watchv2.go:33-54 | closing keeps what is in the slot, which can be received once more, and after it no send changes anything |
| Slots.Watch.Close | internal/app/transport/watchv2.go:33-38 | closes once and keeps a buffered value |
| Slots.Watch.Send | internal/app/transport/watchv2.go:46-70 | replaces what is in the slot; after the close it does nothing; undisturbed it never errs |
| ResponseMaps.DownstreamResponseMap.CreateWatch | internal/app/orchestrator/downstream.go:38-45 | a request keeps its watch; a new one gets a fresh open watch |
| ResponseMaps.DownstreamResponseMap.Delete | internal/app/orchestrator/downstream.go:57-67 | exactly the one watch is closed, as it leaves the map; doing it again changes nothing |
| ResponseMaps.DownstreamResponseMap.DeleteAll | internal/app/orchestrator/downstream.go:71-81 | exactly the watches of the given requests are closed, each once, and leave the map |
| ResponseMaps.DownstreamResponseMap.GetAggregatedKeys | internal/app/orchestrator/downstream.go:84-97 | the set of keys of all open watches, or the error of one of them |
| ResponseMaps.UpstreamResponseMap.Exists | internal/app/orchestrator/upstream.go:45-48 | whether the key has a stream |
| ResponseMaps.UpstreamResponseMap.Add | internal/app/orchestrator/upstream.go:52-62 | the first stream of a key is kept with a fresh open `done`; a later one is not stored |
| ResponseMaps.UpstreamResponseMap.Delete | internal/app/orchestrator/upstream.go:66-74 | undisturbed, exactly the key's `done` is closed as it leaves the map |
| ResponseMaps.UpstreamResponseMap.DeleteAll | internal/app/orchestrator/upstream.go:78-84 | undisturbed, every `done` is closed once and the map is empty |
| RelaySafety.NextKept | internal/app/orchestrator/orchestrator.go:130-431 | each of the relay's 38 kinds of step keeps all invariants |
| RelaySafety.ReachedInv | internal/app/orchestrator/orchestrator.go:130-431 | all invariants hold after every interleaving of any number of calls and goroutines |
| RelaySafety.NoMissedOffer | internal/app/orchestrator/orchestrator.go:159-213 | when things have settled, on the watch of whoever is registered with an entry that holds a response a send of it or of a later one of the same key has come to its write, or such a response of the key is the very one its `CreateWatch` fetched and did not push, the request having named its version or being a NACK |
| RelaySends.NoMissedUpdate | internal/app/orchestrator/orchestrator.go:159-213 | the same with the outcome: such a response was put into the slot, or is the one `CreateWatch` withheld, or its send was overlapped by another on the same watch and erred; without overlapping sends the last is not so |
| RelayFanout.NoMissedFanout | internal/app/orchestrator/orchestrator.go:308-386 | of what is stored after a request's `CreateWatch` is past its push nothing is withheld: once settled such a response or a later one was put into the slot, or its send was overlapped and erred; without overlapping sends it was put into the slot, for a NACK as for any other request |
| RelaySends.DropsAreCrossed | internal/app/transport/watchv2.go:56-69 | a send that errs was overlapped by another send on the same watch, which wrote between its drain and its write |
| RelayPush.PushDecided | internal/app/orchestrator/orchestrator.go:195-200 | with the fetch done, `CreateWatch` pushes exactly if a response was found, of another version than the request names, and the request is no NACK; what it pushes is that response; otherwise it goes on without |
| RelayPush.PushesWanted | internal/app/orchestrator/orchestrator.go:195-213 | on every run, whatever is being pushed from the cache has another version than its request names, and its request is no NACK |
| RelayOrigins.StoredAsReceived | internal/app/orchestrator/orchestrator.go:291-308 | what a watcher stores is the response it has received last, on its own stream |
| RelayOrigins.FanoutsDoNotOverlap | internal/app/orchestrator/orchestrator.go:358-397 | the sends under way for one watcher are all of one response and to different requests, and as long as there are any it neither receives, nor stores, nor stops |
| RelayOrigins.KeylessIsClosed | internal/app/orchestrator/orchestrator.go:133-147 | once `CreateWatch` is over for a request without a key its watch is closed; such a request is never registered |
| RelayOrigins.RegisteredAsAsked | internal/app/orchestrator/orchestrator.go:130-147 | a request is known exactly if it has been registered, once, with the key, version and NACK it came with |
| RelayOrigins.GoneAreLeftOut | internal/app/orchestrator/orchestrator.go:364-367 | a send of a fan-out that finds the watch gone ends, any other goes on with the same response |
| RelayOrigins.SlowerIsShutDown | internal/app/orchestrator/orchestrator.go:217-226 | of two streams opened for a key the one that comes second to the map is shut down and never gets into it |
| RelayOrigins.ShutdownIsSerial | internal/app/orchestrator/upstream.go:78-84 | the shutdown goes through the keys one at a time |
| RelayTruths.SlotsTellTheTruth | internal/app/transport/watchv2.go:33-70 | only its senders and its receiver change what waits in a watch, a write finds room or changes nothing, and what the history counts as put into the slot or as dropped was |
| RelayTruths.CloseKeepsWaiting | internal/app/transport/watchv2.go:33-38 | a watch that is closed, by a cancellation, an eviction or a rejection, keeps what waits in it |
| RelayTruths.RecordsTellTheTruth | internal/app/orchestrator/orchestrator.go:130-431 | a response counts as withheld only if `CreateWatch` fetched it just before, sends as overlapping only if two are on the watch at once, a key as failed only for its own stream, and as hasty only for one of the three reasons |
| RelayTruths.CancelledIff | internal/app/orchestrator/orchestrator.go:414-425 | a request counts as cancelled exactly if its cancel function has been called |
| RelayTruths.HasteEnds | internal/app/orchestrator/orchestrator.go:402-411 | the haste of a key ends with an eviction of it, and with a new stream put into the map while nobody who has found its entry is cleaning up |
| RelayFetch.LookDecides | internal/app/cache/cache.go:103-118 | the first section of a fetch: missing; or past its expiry, and then the second section follows; or handed back and most recently used |
| RelayFetch.ReapDecides | internal/app/cache/cache.go:118-139 | the second section: an entry still past its expiry leaves the cache and its watches are to be closed; one refreshed meanwhile stays and is handed back; one that is gone gives nil |
| RelayFetch.FetchedIsFresh | internal/app/cache/cache.go:103-149 | whatever a fetch hands back was not past its expiry when it was handed back |
| RelayFetch.ResponseIsStored | internal/app/cache/cache.go:151-186 | a response that arrives is in the entry of its stream's key, to live for the configured time from then on, with the same requests registered; only a negative capacity drops it at once, and then its watches are to be closed |
| RelayFetch.RequestIsAdded | internal/app/cache/cache.go:188-226 | a request that is added is in the store of its key's entry, which keeps its response and its expiry, or is new with the configured time to live |
| RelayFetch.KeyIsCleared | internal/app/cache/cache.go:253-265 | clearing a key removes its entry, leaves all others, and has its watches closed |
| RelayLost.NewestLost | internal/app/orchestrator/orchestrator.go:195-213 | a schedule after which everything has settled and a registered client that asked for any version holds the older of two responses, the newer having been dropped and not withheld |
| RelaySafety.OpenWatchIsRegistered | internal/app/orchestrator/orchestrator.go:399-425 | an open watch past AddRequest is in its own key's request store, or in the one being closed under the cache lock |
| RelaySafety.NoOrphanStream | internal/app/orchestrator/orchestrator.go:217-232 | a stream in transit or watched is held by exactly the thread its phase names; a loser or an ended stream by none |
| RelaySafety.OneStreamPerKey | internal/app/orchestrator/upstream.go:45-84 | without overlapping removals each `done` closes at most once, a watched stream is its key's map entry exactly while its `done` is open or its removal is half done, and a key has at most one watched stream with `done` open |
| RelaySafety.DoubleCloseNeedsOverlap | internal/app/orchestrator/upstream.go:66-74 | a `done` channel closes twice only after two removals of one key overlapped |
| RelayOverlap.OverlapIsDoom | internal/app/orchestrator/upstream.go:66-84 | two removals of a key have overlapped if and only if some `done` has been closed twice, or once with another thread about to close it, or two threads are about to close it |
| RelayOverlap.DoubleCloseIffOverlap | internal/app/orchestrator/upstream.go:66-84 | two removals of a key have overlapped if and only if at most two closings by the removing threads lead to a `done` closed twice |
| RelaySafety.OverlapNeedsUnlocked | internal/app/orchestrator/orchestrator.go:300-303 | of two overlapping removals of a key one is an upstream failure's or the shutdown's; evictions never overlap each other |
| RelayWitness.DoubleClose | internal/app/orchestrator/upstream.go:66-84 | a schedule of an eviction and the shutdown in which one `done` channel is closed twice |
| RelayLive.ReachedLive | internal/app/orchestrator/orchestrator.go:217-305 | for every key that is not hasty: waiting requests have a stream in the map, which is live or being removed by a callback, and no clean-up misses one of them |
| RelayWaiting.WaitingIsServed | internal/app/orchestrator/orchestrator.go:217-305 | a returned request with an open watch whose key is not hasty has a live stream in the map, or the clean-up of a failed one is about to close its watch |
| RelayWaiting.WaitingHasStream | internal/app/orchestrator/orchestrator.go:217-305 | when no failure of the key is being cleaned up, that stream is live and its goroutine is receiving |
| RelayWaiting.UnfailedHasStream | internal/app/orchestrator/orchestrator.go:217-354 | as long as no stream of its key has failed or been removed by the shutdown, a returned request with an open watch has a live stream that is received from |
| RelayWaiting.CalmWaitingHasStream | internal/app/orchestrator/orchestrator.go:217-235 | on every run without upstream failure and shutdown, every returned request with an open watch has its key in the map, and the stream there is watched with `done` open |
| RelayWaiting.MissedIsStranded | internal/app/orchestrator/orchestrator.go:300-305 | a request that waits while the clean-up or the shutdown of its key is past the scan is left with no stream in the map by at most three further steps of that thread |
| RelayMissed.MissedCanBeStranded | internal/app/orchestrator/orchestrator.go:300-305 | a waiting request that a clean-up misses, before, during or after its scan, can end up with no stream in the map, unless a scan under way is bound to close its watch |
| RelayMissed.LeftBehind | internal/app/orchestrator/orchestrator.go:300-305 | a failure that finds no cache entry leaves the ended stream in the map, and until a callback deletes this key from the map, whatever happens to others, no request of the key has a live stream there |
| RelayStranded.Stranded | internal/app/orchestrator/orchestrator.go:217-305 | the second way to become hasty does harm: a schedule after which a returned request has an open watch, the map holds an ended stream for its key, and no goroutine is left to open another |
| RelaySafety.KeyIsolation | internal/app/orchestrator/orchestrator.go:308-386 | whatever waits in a watch was received on a stream opened for the watch's own key |
| RelaySafety.WatchClosedOnce | internal/app/orchestrator/downstream.go:38-81 | a watch is closed, once, exactly if it has left the map, and no sender in the middle of a send finds it closed |
| RelaySafety.ClosedForGood | internal/app/orchestrator/orchestrator.go:414-425 | after a watch is closed nothing is ever written to it, on any continuation of the run |
| RelaySafety.LockHolderCanStep | internal/app/cache/cache.go:72-82 | whenever a lock is held some lock holder can take a step, eviction callback included |
| RelayCancel.CancelLeavesNothing | internal/app/orchestrator/orchestrator.go:414-425 | once the cancel function of a request has run to its end, its watch is closed and no cache entry points to a store that holds it |
| RelayReach.AddReach | internal/app/cache/cache.go:188-226 | adding a request, with the eviction it may cause, leaves no open watch out of reach |
| RelayReach.SetUpReach | internal/app/cache/cache.go:151-186 | storing a response, with the eviction it may cause, leaves no open watch out of reach |
| RelayCover.AddCover | internal/app/orchestrator/orchestrator.go:160 | registering a request keeps everyone who is due a response offered it or about to be |
| RelayCover.SetUpCover | internal/app/orchestrator/orchestrator.go:308 | storing a response keeps everyone who is due one offered it or about to be |
| AckPipeline.ReachedInv | internal/app/upstream/client.go:179-408 | the loop's invariants hold after every sequence of steps of loop, sender, receiver and environment |
| AckPipeline.AckConservation | internal/app/upstream/client.go:270-378 | requests taken, then the channel, then the pending ACK: the first names no version and no nonce, each later one version and nonce of the response delivered before it, one for every response; at most one more response is delivered than requests are taken |
| AckPipeline.PastAttempts | internal/app/upstream/client.go:276-286 | the requests of a finished attempt answer its responses in the same way, those sent are the first of them, and at most two responses are left without a sent ACK |
| AckPipeline.CloseDiscipline | internal/app/upstream/client.go:195-288 | no write to a closed channel, the response channel closed once and only on return, the sender's "chan closed" branch unreachable, each attempt's context done before the next begins |
| AckPipeline.ReturnsOnlyIf | internal/app/upstream/client.go:196-260 | the response channel is closed only after the caller cancelled, the client was shut down, or for an unsupported type URL |
| AckPipeline.SilentAfterReturn | internal/app/upstream/client.go:206-221 | after the response channel is closed nothing is delivered or sent |
| AckRuns.DeliveredAsReceived | internal/app/upstream/client.go:345-380 | what is delivered on an attempt is what was received on it, one by one and in order, but for the response in hand and those given up on; as many requests count as sent as went out without an error |
| AckRuns.NoStreamAfterStop | internal/app/upstream/client.go:206-221 | once told to stop, and for an unsupported type from the beginning, the loop opens no attempt any more |
| AckRuns.StopIsFinal | internal/app/upstream/client.go:206-260 | the same after any cancellation by the caller or shutdown of the client; and from wherever the loop tries again it can return at once, closing the response channel |
| AckRuns.AtMostOneMore | internal/app/upstream/client.go:360-378 | after the context of an attempt is done nothing more is delivered on it, but for the one response that may be on offer |
| AckRuns.FailuresCancel | internal/app/upstream/client.go:320-378 | whatever makes an attempt fail cancels its context, and every attempt that ends is recorded as it was |
| AckRuns.RetryWorks | internal/app/upstream/client.go:195-288 | from every state in which the loop is to try again a next attempt can send the empty request, deliver a response, and send the request with its version and its nonce |
| Keyer.LocalityFieldByField | internal/app/mapper/mapper.go:494-526 | a locality matches exactly if every configured field does, and errs exactly if some field errs, with the first such error, even after a mismatch |
| Keyer.LookupIsWalk | internal/app/mapper/mapper.go:536-551 | a path finds a value exactly when a chain of structs leads to it |
| Keyer.CompareNodeMetadata | internal/app/mapper/mapper.go:528-561 | the walk along the path compares the value the path leads to; a path that leaves the structs does not match; absent metadata is an error |
| Keyer.ProbesAreMeaning | internal/app/mapper/mapper.go:100-232 | the chain of probes equals the structural meaning of every predicate on every request, with the error that stands first |
| Keyer.DeMorgan | internal/app/mapper/mapper.go:185-232 | both laws hold between verdicts, errors included |
| Keyer.PushingNegations | internal/app/mapper/mapper.go:100-232 | pushing all negations to the leaves leaves the verdict of every predicate on every request as it was |
| Verdicts.AndIsAll | internal/app/mapper/mapper.go:185-201 | a conjunction is true exactly if every member is; otherwise its verdict is that of the first member that is not true |
| Verdicts.OrIsAny | internal/app/mapper/mapper.go:203-219 | a disjunction is false exactly if every member is; otherwise its verdict is that of the first member that is not false |
| Verdicts.OtherVerdicts | internal/app/mapper/mapper.go:167-232 | a negation turns answers round and keeps errors, a type predicate holds for the listed types only, "any" is what it is set to, and what has no predicate matches nothing |
| Verdicts.NodeVerdicts | internal/app/mapper/mapper.go:136-165 | id, cluster and locality matchers look at their own fields: true exactly if those configured are the text wanted or match as the engine says, an error exactly if a pattern does not compile |
| Verdicts.MetadataVerdicts | internal/app/mapper/mapper.go:528-561 | a metadata matcher errs exactly without metadata or with a broken pattern; a string one looks at the string at the end of the path, a boolean one at whether a true boolean is there |
| Fragments.ActionText | internal/app/mapper/mapper.go:390-415 | an action never yields the empty string |
| Texts.ActionTexts | internal/app/mapper/mapper.go:390-415 | the exact action gives the value as it stands; a regular expression what the engine makes of pattern, value and replacement in these roles; each error has one cause; any other action is the empty pattern |
| Texts.EnginesShow | internal/app/mapper/mapper.go:400-412 | with an engine that leaves values alone a regular expression is the exact action; with one that always puts the replacement it is the configured replacement |
| Texts.NodeTexts | internal/app/mapper/mapper.go:282-306 | the id and the cluster action read their own fields |
| Texts.LocalityTexts | internal/app/mapper/mapper.go:417-449 | the exact locality action gives the chosen fields in the order region, zone, sub-zone with a bar between them |
| Texts.PathAndNameTexts | internal/app/mapper/mapper.go:364-388 | the exact action on a path gives the string at its end, on a list of names the one the index counts from zero; a path that leads nowhere is an error |
| Texts.AndTexts | internal/app/mapper/mapper.go:308-351 | two results give their texts one after the other, or the first error |
| Fragments.ExactAgrees | internal/app/mapper/mapper.go:472-488 | an exact matcher accepts a string exactly when the exact action yields what the matcher wants |
| Fragments.MatcherAndActionAgree | internal/app/mapper/mapper.go:451-470 | on one metadata path an exact matcher accepts exactly when the exact action yields the wanted text; the action's path error occurs exactly where the walk finds nothing |
| Fragments.SplitOfJoin | internal/app/mapper/mapper.go:93 | joined parts can be split again exactly when none contains the separator |
| Fragments.JoinOfSplit | internal/app/mapper/mapper.go:93 | every string is the join of its parts |
| Fragments.LocalityIsReadable | internal/app/mapper/mapper.go:447-448 | a locality text tells its fields apart exactly when none contains a bar |
| Fragments.LocalityFails | internal/app/mapper/mapper.go:417-445 | a text exactly when something is configured and every configured field has one; the empty-fragment error exactly when nothing is configured |
| Fragments.IndexIsChecked | internal/app/mapper/mapper.go:374-378 | below 2^31 names an index is refused exactly when out of range; beyond, an index out of range is still refused |
| Fragments.TruncatedLengthIsSafe | internal/app/mapper/mapper.go:374-378 | an index that passes the test against the 32-bit length is in range, whatever the length |
| Fragments.GetFragmentFromLocalityAction | internal/app/mapper/mapper.go:417-449 | there is a text exactly when some field is configured and every configured field has a text, and it is those texts, region, zone, sub-zone, joined with a bar; otherwise the error is that of the first field without one, or that nothing is configured |
| Fragments.LocalityTextIsUnique | internal/app/mapper/mapper.go:417-449 | that meaning leaves no choice: two texts of the same fields are equal |
| Fragments.GetFragmentFromNodeMetadataAction | internal/app/mapper/mapper.go:451-470 | the action applied to the string the path leads to; a path that leads nowhere is an error |
| Fragments.GetResultFromResourceNamesPredicate | internal/app/mapper/mapper.go:364-388 | the range error exactly when the index reaches no name, below 2^31 names exactly when it is out of range; otherwise the action on the very name it points to, the name itself for an exact action, and never an empty fragment |
| Fragments.GetResultFromAndResultPredicate | internal/app/mapper/mapper.go:308-351 | the members' texts in order, or the error of the first that has one |
| Fragments.GetResult | internal/app/mapper/mapper.go:234-260 | the text of whichever kind of result is configured; none configured is the empty text |
| Fragments.TextIsThatOfLeaves | internal/app/mapper/mapper.go:308-351 | nested and_results give the texts of the flattened leaves left to right, with the first leaf's error |
| Fragments.GroupingIsImmaterial | internal/app/mapper/mapper.go:308-351 | two results with the same leaves in the same order give the same text or error |
| Mapper.GetKey | internal/app/mapper/mapper.go:53-94 | the loop over fragments and rules computes the specified key or error |
| Mapper.KeyCharacterised | internal/app/mapper/mapper.go:53-94 | a request has a key exactly if it is not refused, no rule fails and some rule matches; the key is the matching rules' texts in order joined with "_"; an error is the refusal, the first failure, or that nothing matched |
| Refused.RefusedExactly | internal/app/mapper/mapper.go:53-64 | whatever is configured: the type-URL error exactly for an empty type, the names error exactly for a v2 or v3 ClusterLoadAssignment request without names, and "cannot map" exactly if neither and no rule matches or fails |
| Mapper.FragmentsAreFlat | internal/app/mapper/mapper.go:66-85 | where a fragment ends makes no difference to the key |
| Mapper.FirstMatchRule | api/protos/aggregation/v1/aggregation.proto:27 | key and error are those of the documented first-match rule if no rule after a matching one matches or errs; where there is a key, only then |
| Mapper.FirstMatchRuleErrs | internal/app/mapper/mapper.go:66-85 | where a rule fails, the documented rule gives the same error exactly if no rule of that fragment matches before the first failing one, or if it goes on to the same error in a later fragment |
| Mapper.FirstMatchRuleFails | internal/app/mapper/mapper.go:67-85 | one fragment with two matching rules has a key the documentation does not give |
| Mapper.KeyIsReadable | internal/app/mapper/mapper.go:93 | the parts can be read back from a key exactly when none contains the separator |
| Mapper.SameKeySameParts | internal/app/mapper/mapper.go:53-94 | requests whose parts are free of the separator share a key only if they agree on every part |
| Mapper.DifferentNodesOneKey | internal/app/mapper/mapper.go:93 | with the separator inside a part, different nodes share a key |
| Validate.Each | pkg/api/aggregation/v1/aggregation.pb.validate.go:1301-1329 | a repeated field fails with its first failing member, and only if there is one |
| Validate.MatchPasses | pkg/api/aggregation/v1/aggregation.pb.validate.go:650-735 | a predicate passes exactly if it is well formed at every depth |
| Validate.ResultPasses | pkg/api/aggregation/v1/aggregation.pb.validate.go:794-846 | a result passes exactly if it is well formed at every depth |
| Validate.ValidationIsWellFormedness | pkg/api/aggregation/v1/aggregation.pb.validate.go:42-69 | validation accepts exactly the well-formed configurations |
| Validate.ValidatedIsSafe | internal/app/mapper/mapper.go:136-165 | with a validated configuration no request gets "RequestNodeMatch is invalid", "Invalid NodeMetadata Match" or the error of an empty pattern, at any depth |
| Validate.UnvalidatedIsNotSafe | internal/app/mapper/mapper.go:553-560 | without validation each of these errors occurs |
| Validate.PushedIsValid | pkg/api/aggregation/v1/aggregation.pb.validate.go:650-735 | pushing negations to the leaves keeps a predicate valid |
| Validate.SetShapes | pkg/api/aggregation/v1/aggregation.pb.validate.go:1301-1329 | fewer than two members is a violation of this very field; two are as good as both of them, and a negation as its operand |
| Validate.MatchShapes | pkg/api/aggregation/v1/aggregation.pb.validate.go:650-735 | no type, "any" switched off and no kind are violations of these very fields; the texts compared with are free |
| Validate.PathShapes | pkg/api/aggregation/v1/aggregation.pb.validate.go:544-620 | a metadata path without keys, an empty key, and nothing to compare with are violations |
| Validate.ResultShapes | pkg/api/aggregation/v1/aggregation.pb.validate.go:794-846 | fewer than two results, a negative index, no action, "exact" switched off and an empty pattern are violations; an empty constant is not |
| Validate.ConfigShapes | pkg/api/aggregation/v1/aggregation.pb.validate.go:42-69 | no fragment, no rule, no predicate and no result are violations |
| KeyStability.Stream.SendMsg | internal/app/transport/streamv2.go:29-46 | version, nonce, error and the relay's metadata entry of the shared request are overwritten in place, and nothing else |
| KeyStability.RewritingGrows | internal/app/transport/streamv3.go:29-46 | as the mapper reads it, a rewritten request differs only in the relay's own metadata entry and in having metadata |
| KeyStability.MapperReads | internal/app/transport/requestv2.go:25-70 | a rule that takes the node id, the cluster, the region, a name or a metadata string as it stands makes that of the request itself the key |
| KeyStability.MapperReadsNothing | internal/app/transport/requestv2.go:35-50 | without a node the id is empty; without a metadata struct a metadata matcher fails, while an empty struct has nothing at any path |
| KeyStability.LastSendWins | internal/app/transport/streamv2.go:29-46 | after a run of sends the request carries the last version, nonce and metadata, no error, and is otherwise the request it was |
| KeyStability.WhatCanBeSent | internal/app/transport/streamv2.go:29-46 | without metadata every request can be sent; with metadata one needs a node, and a struct that is there needs its map; once it has been sent so it always can |
| KeyStability.KeyIsStable | internal/app/transport/streamv2.go:29-46 | a request with a key keeps it through any sequence of sends if no configured path starts at the relay's entry; with metadata present, an error stays the same too |
| KeyStability.OwnEntryIsNotStable | internal/app/transport/streamv2.go:29-46 | a path that starts there gives the request a new key at a send |
| KeyStability.KeyMayAppear | internal/app/transport/streamv2.go:34-40 | a request without metadata and without a key can gain a key by being sent; this bounds `SendMsg` alone, as the relay never sends such a request: `CreateWatch` rejects it (`internal/app/orchestrator/orchestrator.go:133-147`) |

## Left out

- gRPC dialling, interceptors, connectivity gauges, server startup and signals: sending and receiving a message is a step that succeeds or fails.
- Logging, metrics and statistics scopes: no effect on the modelled state.
- The admin HTTP handlers, resource marshalling and the readiness toggle.
- Regular expressions: two functions with an error result, of which nothing else is known.
- The LRU library: an ordered list on which lookups and additions move to the front, additions drop the oldest entry over capacity, and every removal owes one callback.
- Memory-model races, such as the reordering of the LRU list under a read lock: each lock-protected section is one step.
- Nil message payloads and nil elements of repeated fields: a oneof is a datatype. The nil map of an empty metadata struct is modelled, because writing to it panics.
- The difference between the v2 and v3 message types: one request, one response and one watch type stand for both.
- YAML parsing, host names, durations and jitter.
- The dereference of a nil fetch result after an upstream failure (internal/app/orchestrator/orchestrator.go:300-302) ends the process; the model has no step there.
- The stalled-receiver branch (internal/app/upstream/client.go:376-377) logs a nil error; the model takes its evident intent, cancel and continue.
- Progress of the receiver, which can wait for a sender that has left, and of the retry loop: only safety is claimed.
- Order between a cached push and a fan-out: an older response may overwrite a newer one.
- The goroutine a timed-out send leaves behind (`DoWithTimeout`): a send is one step of the sender.
- `sync.Map.Range`: a scan meets everyone who was in the set throughout, and may or may not meet those who come or go meanwhile.
- Closing a watch and deleting it from the map is one step, since both happen under the map's lock; a thread holding that lock is visible only while it scans.
- The texts of error messages: errors are told apart by kind, validation errors also by field and position.
- CacheObjects.Cache.Fetch: describes a fetch that no other call interrupts; `CacheHistory` and `Relay` have its two sections as separate steps.
- ResponseMaps.UpstreamResponseMap.Delete: describes a removal that no other overlaps, as its requirement that `done` is open says; `Relay` has its three steps.
- ResponseMaps.UpstreamResponseMap.DeleteAll: describes a shutdown that no other removal overlaps; `Relay` has the overlapping case.
- Slots.Watch.Send: describes a send that no other overlaps; `Slots.SlotConservation` has the overlapping case.
- RelaySafety.OneStreamPerKey: assumes that no removals of one key overlapped, which the code does not guarantee.
