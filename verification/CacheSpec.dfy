/**
 The relay cache as a value: an LRU list of entries, most recently touched first, and the
 request stores the entries point to. A `Resource` is copied by value, its `requests` handle is
 shared by all copies, so the contents of a store live in `State.stores` under the handle.

 The handle type `S` is a parameter: the class `Cache` uses object references, the relay
 protocol uses identifiers, and both are specified by the functions below.
 */
module CacheSpec {
  import opened Common

  type Key = string

  /** `expiry == None` is Go's zero time: the resource never expires. */
  datatype Resource<X, S> = Resource(resp: Option<X>, requests: S, expiry: Option<int>)

  datatype Entry<X, S> = Entry(key: Key, value: Resource<X, S>)

  /** `maxEntries == 0` means no limit; `ttl == 0` means no expiry. */
  datatype Config = Config(maxEntries: int, ttl: int)

  datatype State<R(==), X, S(==)> = State(lru: seq<Entry<X, S>>, stores: map<S, set<R>>)

  /** What one lock-protected cache operation leaves behind: at most one entry is removed, and the
      eviction callback is owed for it. */
  datatype Effect<R(==), X, S(==)> = Effect(state: State<R, X, S>, evicted: Option<Entry<X, S>>)

  // ---------------------------------------------------------------- LRU list

  ghost predicate Distinct<X, S>(l: seq<Entry<X, S>>) {
    forall i, j :: 0 <= i < j < |l| ==> l[i].key != l[j].key
  }

  function Lookup<X, S>(l: seq<Entry<X, S>>, k: Key): (r: Option<Resource<X, S>>)
    ensures r.Some? ==> exists i :: 0 <= i < |l| && l[i] == Entry(k, r.value)
    ensures r.None? ==> forall i :: 0 <= i < |l| ==> l[i].key != k
  {
    if l == [] then None
    else if l[0].key == k then Some(l[0].value)
    else
      var r := Lookup(l[1..], k);
      assert forall i :: 0 < i < |l| ==> l[i] == l[1..][i - 1];
      r
  }

  lemma LookupAt<X, S>(l: seq<Entry<X, S>>, i: nat)
    requires Distinct(l) && i < |l|
    ensures Lookup(l, l[i].key) == Some(l[i].value)
  {}

  function Without<X, S>(l: seq<Entry<X, S>>, k: Key): (r: seq<Entry<X, S>>)
    ensures |r| <= |l|
    ensures forall e :: e in r ==> e in l && e.key != k
  {
    if l == [] then []
    else if l[0].key == k then Without(l[1..], k)
    else [l[0]] + Without(l[1..], k)
  }

  lemma {:induction false} WithoutAbsent<X, S>(l: seq<Entry<X, S>>, k: Key)
    requires forall i :: 0 <= i < |l| ==> l[i].key != k
    ensures Without(l, k) == l
  {
    if l != [] {
      WithoutAbsent(l[1..], k);
    }
  }

  lemma {:induction false} WithoutDistinct<X, S>(l: seq<Entry<X, S>>, k: Key)
    requires Distinct(l)
    ensures Distinct(Without(l, k))
    ensures |Without(l, k)| == if Lookup(l, k).Some? then |l| - 1 else |l|
  {
    if l == [] {
    } else if l[0].key == k {
      WithoutAbsent(l[1..], k);
    } else {
      WithoutDistinct(l[1..], k);
      var w := Without(l[1..], k);
      forall i | 0 <= i < |w| ensures w[i].key != l[0].key {
        assert w[i] in l[1..];
      }
    }
  }

  lemma WithoutFacts<X, S>(l: seq<Entry<X, S>>, k: Key)
    requires Distinct(l)
    ensures Distinct(Without(l, k))
    ensures |Without(l, k)| == if Lookup(l, k).Some? then |l| - 1 else |l|
    ensures Lookup(l, k).None? ==> Without(l, k) == l
  {
    WithoutDistinct(l, k);
    if Lookup(l, k).None? {
      WithoutAbsent(l, k);
    }
  }

  lemma {:induction false} LookupWithout<X, S>(l: seq<Entry<X, S>>, k: Key, q: Key)
    ensures Lookup(Without(l, k), q) == if q == k then None else Lookup(l, q)
  {
    if l != [] {
      LookupWithout(l[1..], k, q);
      if l[0].key != k {
        assert Without(l, k)[1..] == Without(l[1..], k);
      }
    }
  }

  lemma {:induction false} LookupDropLast<X, S>(l: seq<Entry<X, S>>, q: Key)
    requires Distinct(l) && |l| > 0
    ensures Lookup(l[..|l| - 1], q) == if q == l[|l| - 1].key then None else Lookup(l, q)
  {
    if |l| > 1 {
      assert l[..|l| - 1][1..] == l[1..][..|l| - 2];
      LookupDropLast(l[1..], q);
    }
  }

  /** Move or push `k` to the front with value `v`. */
  function Front<X, S>(l: seq<Entry<X, S>>, k: Key, v: Resource<X, S>): (r: seq<Entry<X, S>>)
    requires Distinct(l)
    ensures Distinct(r)
    ensures |r| == if Lookup(l, k).Some? then |l| else |l| + 1
    ensures forall q :: Lookup(r, q) == if q == k then Some(v) else Lookup(l, q)
  {
    WithoutFacts(l, k);
    var r := [Entry(k, v)] + Without(l, k);
    assert r[1..] == Without(l, k);
    assert forall q :: Lookup(r, q) == if q == k then Some(v) else Lookup(l, q) by {
      forall q ensures Lookup(r, q) == if q == k then Some(v) else Lookup(l, q) { LookupWithout(l, k, q); }
    }
    r
  }

  /** `RemoveOldest` of groupcache's LRU. */
  function DropOldest<X, S>(l: seq<Entry<X, S>>): (r: seq<Entry<X, S>>)
    requires Distinct(l) && |l| > 0
    ensures Distinct(r) && |r| == |l| - 1
    ensures Lookup(l, l[|l| - 1].key) == Some(l[|l| - 1].value)
    ensures forall q :: Lookup(r, q) == if q == l[|l| - 1].key then None else Lookup(l, q)
  {
    LookupAt(l, |l| - 1);
    var r := l[..|l| - 1];
    assert forall q :: Lookup(r, q) == if q == l[|l| - 1].key then None else Lookup(l, q) by {
      forall q ensures Lookup(r, q) == if q == l[|l| - 1].key then None else Lookup(l, q) { LookupDropLast(l, q); }
    }
    r
  }

  /** `Get` of groupcache's LRU: a hit moves the entry to the front. */
  function Touch<X, S>(l: seq<Entry<X, S>>, k: Key): (r: seq<Entry<X, S>>)
    requires Distinct(l)
    ensures Distinct(r) && |r| == |l|
    ensures forall q :: Lookup(r, q) == Lookup(l, q)
  {
    match Lookup(l, k)
    case None => l
    case Some(v) => Front(l, k, v)
  }

  /** `Add` of groupcache's LRU: overwrite in place and move to the front, or push to the front and
      drop the oldest entry when a nonzero capacity is exceeded. */
  function Put<X, S>(l: seq<Entry<X, S>>, k: Key, v: Resource<X, S>, max: int)
    : (r: (seq<Entry<X, S>>, Option<Entry<X, S>>))
    requires Distinct(l)
    ensures Distinct(r.0)
    ensures Lookup(l, k).Some? ==> r.1.None?
    ensures forall q :: Lookup(r.0, q) ==
              if r.1.Some? && q == r.1.value.key then None else if q == k then Some(v) else Lookup(l, q)
    ensures r.1.Some? ==>
              Some(r.1.value.value) == if r.1.value.key == k then Some(v) else Lookup(l, r.1.value.key)
  {
    var full := Front(l, k, v);
    if Lookup(l, k).None? && max != 0 && |full| > max then (DropOldest(full), Some(full[|full| - 1]))
    else (full, None)
  }

  /** `Remove` of groupcache's LRU. */
  function Drop<X, S>(l: seq<Entry<X, S>>, k: Key): (r: seq<Entry<X, S>>)
    requires Distinct(l)
    ensures Distinct(r)
    ensures forall q :: Lookup(r, q) == if q == k then None else Lookup(l, q)
  {
    WithoutFacts(l, k);
    assert forall q :: Lookup(Without(l, k), q) == if q == k then None else Lookup(l, q) by {
      forall q ensures Lookup(Without(l, k), q) == if q == k then None else Lookup(l, q) { LookupWithout(l, k, q); }
    }
    Without(l, k)
  }

  // ------------------------------------------------------- cache operations

  function IsExpired<X, S>(v: Resource<X, S>, now: int): bool {
    v.expiry.Some? && v.expiry.value < now
  }

  function ExpirationTime(cfg: Config, now: int): Option<int> {
    if cfg.ttl > 0 then Some(now + cfg.ttl) else None
  }

  ghost predicate SameStore<X, S>(l: seq<Entry<X, S>>, k: Key, q: Key) {
    && Lookup(l, k).Some? && Lookup(l, q).Some?
    && Lookup(l, k).value.requests == Lookup(l, q).value.requests
  }

  /** Entries have distinct keys, distinct handles, and every handle has a store. */
  ghost predicate Valid<R, X, S>(c: State<R, X, S>) {
    && Distinct(c.lru)
    && (forall k :: Lookup(c.lru, k).Some? ==> Lookup(c.lru, k).value.requests in c.stores)
    && (forall k, q :: SameStore(c.lru, k, q) ==> k == q)
  }

  /** `handle` names the store that is made if the key is absent. */
  function AddRequest<R, X, S>(c: State<R, X, S>, cfg: Config, k: Key, r: R, now: int, handle: S)
    : (e: Effect<R, X, S>)
    requires Valid(c)
  {
    match Lookup(c.lru, k)
    case None =>
      var v := Resource(None, handle, ExpirationTime(cfg, now));
      var (l, out) := Put(c.lru, k, v, cfg.maxEntries);
      Effect(State(l, c.stores[handle := {r}]), out)
    case Some(v) =>
      var (l, out) := Put(c.lru, k, v, cfg.maxEntries);
      Effect(State(l, c.stores[v.requests := c.stores[v.requests] + {r}]), out)
  }

  function SetResponse<R, X, S>(c: State<R, X, S>, cfg: Config, k: Key, x: X, now: int, handle: S)
    : (e: Effect<R, X, S>)
    requires Valid(c)
  {
    match Lookup(c.lru, k)
    case None =>
      var v := Resource(Some(x), handle, ExpirationTime(cfg, now));
      var (l, out) := Put(c.lru, k, v, cfg.maxEntries);
      Effect(State(l, c.stores[handle := {}]), out)
    case Some(v) =>
      var (l, out) := Put(c.lru, k, v.(resp := Some(x), expiry := ExpirationTime(cfg, now)), cfg.maxEntries);
      Effect(State(l, c.stores), out)
  }

  function DeleteRequest<R, X, S>(c: State<R, X, S>, cfg: Config, k: Key, r: R): (c': State<R, X, S>)
    requires Valid(c)
  {
    match Lookup(c.lru, k)
    case None => c
    case Some(v) =>
      State(Put(c.lru, k, v, cfg.maxEntries).0, c.stores[v.requests := c.stores[v.requests] - {r}])
  }

  /** An absent key is an error for the caller and leaves the cache alone. */
  function DeleteKey<R, X, S>(c: State<R, X, S>, k: Key): (e: Effect<R, X, S>)
    requires Valid(c)
  {
    match Lookup(c.lru, k)
    case None => Effect(c, None)
    case Some(v) => Effect(c.(lru := Drop(c.lru, k)), Some(Entry(k, v)))
  }

  /** What `Fetch` hands back: a copy of the resource, nil without an error, or an error. */
  datatype Fetched<X, S> = Hit(value: Resource<X, S>) | Nil | Missing

  /** First critical section of `Fetch`: look the key up under the read lock. */
  function FetchLook<R, X, S>(c: State<R, X, S>, k: Key): (c': State<R, X, S>)
    requires Valid(c)
  {
    c.(lru := Touch(c.lru, k))
  }

  /** Second critical section of `Fetch`, entered only if the first one saw an expired entry. */
  function FetchReap<R, X, S>(c: State<R, X, S>, k: Key, now: int): (e: (Effect<R, X, S>, Fetched<X, S>))
    requires Valid(c)
  {
    match Lookup(c.lru, k)
    case None => (Effect(c, None), Nil)
    case Some(v) =>
      if IsExpired(v, now) then (Effect(c.(lru := Drop(c.lru, k)), Some(Entry(k, v))), Nil)
      else (Effect(c.(lru := Touch(c.lru, k)), None), Hit(v))
  }

  // ------------------------------------------------- what the operations do

  /** Key `k` was written with `v`; at most one entry, with its latest value, was dropped for it. */
  ghost predicate Wrote<X, S>(l: seq<Entry<X, S>>, l': seq<Entry<X, S>>, out: Option<Entry<X, S>>, k: Key, v: Resource<X, S>) {
    && (forall q :: Lookup(l', q) ==
                    if out.Some? && q == out.value.key then None else if q == k then Some(v) else Lookup(l, q))
    && (out.Some? ==> Some(out.value.value) == if out.value.key == k then Some(v) else Lookup(l, out.value.key))
  }

  /** The entry of `k`, made with the given handle if absent. */
  function EntryOr<X, S>(l: seq<Entry<X, S>>, cfg: Config, k: Key, now: int, handle: S): Resource<X, S> {
    match Lookup(l, k) case None => Resource(None, handle, ExpirationTime(cfg, now)) case Some(v) => v
  }

  lemma AddRequestEffect<R, X, S>(c: State<R, X, S>, cfg: Config, k: Key, r: R, now: int, handle: S)
    requires Valid(c)
    ensures var e, v := AddRequest(c, cfg, k, r, now, handle), EntryOr(c.lru, cfg, k, now, handle);
            && Wrote(c.lru, e.state.lru, e.evicted, k, v)
            && e.state.stores == c.stores[v.requests := if Lookup(c.lru, k).Some? then c.stores[v.requests] + {r} else {r}]
  {}

  lemma SetResponseEffect<R, X, S>(c: State<R, X, S>, cfg: Config, k: Key, x: X, now: int, handle: S)
    requires Valid(c)
    ensures var e := SetResponse(c, cfg, k, x, now, handle);
            var v := EntryOr(c.lru, cfg, k, now, handle).(resp := Some(x), expiry := ExpirationTime(cfg, now));
            && Wrote(c.lru, e.state.lru, e.evicted, k, v)
            && e.state.stores == (if Lookup(c.lru, k).Some? then c.stores else c.stores[handle := {}])
  {
    match Lookup(c.lru, k)
    case None =>
    case Some(_) =>
  }

  /** Nothing was written; at most one entry went. */
  ghost predicate Dropped<X, S>(l: seq<Entry<X, S>>, l': seq<Entry<X, S>>, out: Option<Entry<X, S>>) {
    && (forall q :: Lookup(l', q) == if out.Some? && q == out.value.key then None else Lookup(l, q))
    && (out.Some? ==> Lookup(l, out.value.key) == Some(out.value.value))
  }

  lemma ReapEffect<R, X, S>(c: State<R, X, S>, k: Key, now: int)
    requires Valid(c)
    ensures var (e, f) := FetchReap(c, k, now);
            && Dropped(c.lru, e.state.lru, e.evicted) && e.state.stores == c.stores
            && f == (match Lookup(e.state.lru, k) case None => Nil case Some(v) => Hit(v))
  {}

  // --------------------------------------------- what the operations preserve

  lemma PutValid<R, X, S>(c: State<R, X, S>, k: Key, v: Resource<X, S>, max: int, stores: map<S, set<R>>)
    requires Valid(c)
    requires c.stores.Keys <= stores.Keys && v.requests in stores
    requires match Lookup(c.lru, k) case None => v.requests !in c.stores case Some(w) => w.requests == v.requests
    ensures Valid(State(Put(c.lru, k, v, max).0, stores))
  {
    var l := Put(c.lru, k, v, max).0;
    forall p, q | SameStore(l, p, q) ensures p == q {
      if Lookup(c.lru, k).Some? || (p != k && q != k) {
        assert SameStore(c.lru, p, q);
      } else {
        assert Lookup(l, if p == k then q else p).value.requests in c.stores || p == q;
      }
    }
  }

  /** Validity is about which stores there are, not about what is in them. */
  lemma StoresChange<R, X, S>(c: State<R, X, S>, stores: map<S, set<R>>)
    requires Valid(c) && c.stores.Keys <= stores.Keys
    ensures Valid(State(c.lru, stores))
  {}

  lemma AddRequestValid<R, X, S>(c: State<R, X, S>, cfg: Config, k: Key, r: R, now: int, handle: S)
    requires Valid(c) && handle !in c.stores
    ensures Valid(AddRequest(c, cfg, k, r, now, handle).state)
  {
    match Lookup(c.lru, k)
    case None =>
      PutValid(c, k, Resource(None, handle, ExpirationTime(cfg, now)), cfg.maxEntries, c.stores[handle := {r}]);
    case Some(v) =>
      PutValid(c, k, v, cfg.maxEntries, c.stores[v.requests := c.stores[v.requests] + {r}]);
  }

  lemma SetResponseValid<R, X, S>(c: State<R, X, S>, cfg: Config, k: Key, x: X, now: int, handle: S)
    requires Valid(c) && handle !in c.stores
    ensures Valid(SetResponse(c, cfg, k, x, now, handle).state)
  {
    var v := match Lookup(c.lru, k)
      case None => Resource(Some(x), handle, ExpirationTime(cfg, now))
      case Some(v) => v.(resp := Some(x), expiry := ExpirationTime(cfg, now));
    PutValid(c, k, v, cfg.maxEntries, SetResponse(c, cfg, k, x, now, handle).state.stores);
  }

  lemma DeleteRequestValid<R, X, S>(c: State<R, X, S>, cfg: Config, k: Key, r: R)
    requires Valid(c)
    ensures Valid(DeleteRequest(c, cfg, k, r))
  {
    if Lookup(c.lru, k).Some? {
      var v := Lookup(c.lru, k).value;
      PutValid(c, k, v, cfg.maxEntries, c.stores[v.requests := c.stores[v.requests] - {r}]);
    }
  }

  lemma LookAndRemoveValid<R, X, S>(c: State<R, X, S>, k: Key, now: int)
    requires Valid(c)
    ensures Valid(DeleteKey(c, k).state)
    ensures Valid(FetchLook(c, k))
    ensures Valid(FetchReap(c, k, now).0.state)
  {
    SameStoreFrame(c.lru, FetchLook(c, k).lru);
    SameStoreFrame(c.lru, DeleteKey(c, k).state.lru);
    SameStoreFrame(c.lru, FetchReap(c, k, now).0.state.lru);
  }

  lemma SameStoreFrame<X, S>(l: seq<Entry<X, S>>, l': seq<Entry<X, S>>)
    requires forall q :: Lookup(l', q).Some? ==> Lookup(l', q) == Lookup(l, q)
    ensures forall p, q :: SameStore(l', p, q) ==> SameStore(l, p, q)
  {}
}
