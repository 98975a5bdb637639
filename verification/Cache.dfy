/**
 The cache object: an LRU list and shared request stores, changed in place under one lock. Each
 method is one critical section and is specified by the function of the same name in `CacheSpec`
 applied to the abstract state.
 */
module CacheObjects {
  import opened Common
  import opened CacheSpec

  /** The set of requests watching one key. `Resource` copies share it by reference. */
  class RequestsStore<R(==)> {
    var m: set<R>

    constructor ()
      ensures m == {}
    {
      m := {};
    }

    method Set(r: R)
      modifies this
      ensures m == old(m) + {r}
    {
      m := m + {r};
    }

    method Delete(r: R)
      modifies this
      ensures m == old(m) - {r}
    {
      m := m - {r};
    }

    /** The order in which `ForEach` calls its argument: every request once, nothing else. */
    method ForEach() returns (visited: seq<R>)
      ensures forall r :: r in visited <==> r in m
      ensures forall i, j :: 0 <= i < j < |visited| ==> visited[i] != visited[j]
      ensures |visited| == |m|
    {
      visited := [];
      var rest := m;
      while rest != {}
        invariant rest <= m
        invariant forall r :: r in visited <==> r in m - rest
        invariant forall i, j :: 0 <= i < j < |visited| ==> visited[i] != visited[j]
        invariant |visited| + |rest| == |m|
        decreases rest
      {
        var r :| r in rest;
        ghost var before := visited;
        assert r !in before;
        forall i | 0 <= i < |before| ensures before[i] != r {
          assert before[i] in before;
        }
        rest := rest - {r};
        visited := visited + [r];
        assert forall q :: q in visited <==> q in before || q == r;
      }
    }
  }

  class Cache<R(==), X> {
    const cfg: Config
    var lru: seq<Entry<X, RequestsStore<R>>>
    /** The calls made to the eviction callback, oldest first. */
    var onEvicted: seq<Entry<X, RequestsStore<R>>>
    /** Every store this cache ever made. */
    ghost var Repr: set<RequestsStore<R>>

    ghost function Model(): State<R, X, RequestsStore<R>>
      reads this, Repr
    {
      State(lru, map s | s in Repr :: s.m)
    }

    ghost predicate Valid()
      reads this, Repr
    {
      CacheSpec.Valid(Model())
    }

    static function Calls<Y, S>(e: Option<Entry<Y, S>>): seq<Entry<Y, S>> {
      match e case None => [] case Some(x) => [x]
    }

    constructor (cfg: Config)
      requires cfg.ttl >= 0
      ensures Valid() && this.cfg == cfg && onEvicted == [] && Repr == {}
      ensures Model() == State([], map[])
    {
      this.cfg := cfg;
      lru, onEvicted, Repr := [], [], {};
    }

    /** `NewCache`: a negative ttl is refused. */
    static method New(cfg: Config) returns (c: Result<Cache<R, X>, string>)
      ensures c.Err? <==> cfg.ttl < 0
      ensures c.Ok? ==> fresh(c.value) && c.value.Valid() && c.value.cfg == cfg && c.value.Model() == State([], map[])
    {
      if cfg.ttl < 0 {
        return Err("ttl must be nonnegative");
      }
      var made := new Cache(cfg);
      return Ok(made);
    }

    /** The store of every entry is one this cache made. */
    lemma InRepr(key: Key)
      requires Valid()
      ensures Lookup(lru, key).Some? ==> Lookup(lru, key).value.requests in Repr
    {
      assert Lookup(lru, key).Some? ==> Lookup(Model().lru, key).value.requests in Model().stores;
    }

    /** The LRU's `Add` for an entry that keeps its store or brings a new one, with the callback for
        the entry it drops. */
    method Insert(key: Key, value: Resource<X, RequestsStore<R>>)
      requires Valid()
      requires match Lookup(lru, key) case None => value.requests !in Repr case Some(w) => w.requests == value.requests
      modifies this
      ensures Valid() && Repr == old(Repr) + {value.requests}
      ensures var (l, out) := Put(old(lru), key, value, cfg.maxEntries);
              && Model() == State(l, old(Model()).stores[value.requests := value.requests.m])
              && onEvicted == old(onEvicted) + Calls(out)
    {
      hide Put, Lookup;
      ghost var before := Model();
      ghost var stores := before.stores[value.requests := value.requests.m];
      PutValid(before, key, value, cfg.maxEntries, stores);
      var (l, out) := Put(lru, key, value, cfg.maxEntries);
      lru, onEvicted, Repr := l, onEvicted + Calls(out), Repr + {value.requests};
      assert Model().stores == stores;
    }

    /** `made` is the key's request store, new exactly if the call had to create the entry. */
    method AddRequest(key: Key, req: R, now: int) returns (ghost made: RequestsStore<R>)
      requires Valid()
      modifies this, Repr
      ensures Valid() && Repr == old(Repr) + {made}
      ensures match Lookup(old(lru), key) case None => fresh(made) case Some(v) => made == v.requests
      ensures var e := CacheSpec.AddRequest(old(Model()), cfg, key, req, now, made);
              Model() == e.state && onEvicted == old(onEvicted) + Calls(e.evicted)
    {
      ghost var before := Model();
      var value := Lookup(lru, key);
      if value.None? {
        var requests := new RequestsStore<R>();
        requests.Set(req);
        made := requests;
        assert made.m == {req} && Model() == before;
        Insert(key, Resource(None, requests, ExpirationTime(cfg, now)));
      } else {
        made := value.value.requests;
        value.value.requests.Set(req);
        assert Model().stores == before.stores[made := before.stores[made] + {req}];
        Insert(key, value.value);
      }
    }

    method SetResponse(key: Key, resp: X, now: int) returns (requests: RequestsStore<R>)
      requires Valid()
      modifies this
      ensures Valid() && Repr == old(Repr) + {requests}
      ensures match Lookup(old(lru), key) case None => fresh(requests) case Some(v) => requests == v.requests
      ensures var e := CacheSpec.SetResponse(old(Model()), cfg, key, resp, now, requests);
              Model() == e.state && onEvicted == old(onEvicted) + Calls(e.evicted)
    {
      ghost var before := Model();
      var value := Lookup(lru, key);
      if value.None? {
        requests := new RequestsStore<R>();
        assert Model() == before;
        Insert(key, Resource(Some(resp), requests, ExpirationTime(cfg, now)));
      } else {
        requests := value.value.requests;
        Insert(key, value.value.(resp := Some(resp), expiry := ExpirationTime(cfg, now)));
      }
    }

    method DeleteRequest(key: Key, req: R)
      requires Valid()
      modifies this, Repr
      ensures Valid() && Repr == old(Repr) && onEvicted == old(onEvicted)
      ensures Model() == CacheSpec.DeleteRequest(old(Model()), cfg, key, req)
    {
      hide CacheSpec.Valid, Lookup, Put;
      ghost var before := Model();
      var value := Lookup(lru, key);
      if value.Some? {
        ghost var store := value.value.requests;
        InRepr(key);
        value.value.requests.Delete(req);
        assert Model().stores == before.stores[store := before.stores[store] - {req}];
        StoresChange(before, Model().stores);
        Insert(key, value.value);
      }
    }

    method DeleteKey(key: Key) returns (found: bool)
      requires Valid()
      modifies this
      ensures Valid() && Repr == old(Repr)
      ensures found <==> Lookup(old(lru), key).Some?
      ensures var e := CacheSpec.DeleteKey(old(Model()), key);
              Model() == e.state && onEvicted == old(onEvicted) + Calls(e.evicted)
    {
      LookAndRemoveValid(Model(), key, 0);
      var value := Lookup(lru, key);
      found := value.Some?;
      if found {
        lru, onEvicted := Drop(lru, key), onEvicted + [Entry(key, value.value)];
      }
    }

    /** First critical section of `Fetch`; `value` is a copy that shares its request store. */
    method FetchLook(key: Key) returns (value: Option<Resource<X, RequestsStore<R>>>)
      requires Valid()
      modifies this
      ensures Valid() && Repr == old(Repr) && onEvicted == old(onEvicted)
      ensures Model() == CacheSpec.FetchLook(old(Model()), key)
      ensures value == Lookup(old(lru), key)
    {
      LookAndRemoveValid(Model(), key, 0);
      value := Lookup(lru, key);
      lru := Touch(lru, key);
    }

    /** Second critical section of `Fetch`, after the first one saw an expired value. */
    method FetchReap(key: Key, now: int) returns (got: Fetched<X, RequestsStore<R>>)
      requires Valid()
      modifies this
      ensures Valid() && Repr == old(Repr)
      ensures var (e, r) := CacheSpec.FetchReap(old(Model()), key, now);
              Model() == e.state && onEvicted == old(onEvicted) + Calls(e.evicted) && got == r
    {
      LookAndRemoveValid(Model(), key, now);
      var value := Lookup(lru, key);
      if value.None? {
        return Nil;
      }
      if IsExpired(value.value, now) {
        lru, onEvicted := Drop(lru, key), onEvicted + [Entry(key, value.value)];
        return Nil;
      }
      lru := Touch(lru, key);
      return Hit(value.value);
    }

    /** `Fetch` when no other call runs between its two critical sections; `later` is the second
        reading of the clock. */
    method Fetch(key: Key, now: int, later: int) returns (got: Fetched<X, RequestsStore<R>>)
      requires Valid() && now <= later
      modifies this
      ensures Valid() && Repr == old(Repr)
      ensures match Lookup(old(lru), key)
              case None => got == Missing && lru == old(lru) && onEvicted == old(onEvicted)
              case Some(v) =>
                if IsExpired(v, now) then got == Nil && lru == Drop(old(lru), key) && onEvicted == old(onEvicted) + [Entry(key, v)]
                else got == Hit(v) && lru == Touch(old(lru), key) && onEvicted == old(onEvicted)
    {
      var value := FetchLook(key);
      if value.None? {
        return Missing;
      }
      if IsExpired(value.value, now) {
        DropTouch(old(lru), key);
        got := FetchReap(key, later);
        return got;
      }
      return Hit(value.value);
    }
  }

  lemma DropTouch<X, S>(l: seq<Entry<X, S>>, k: Key)
    requires Distinct(l) && Lookup(l, k).Some?
    ensures Drop(Touch(l, k), k) == Drop(l, k)
  {
    WithoutFacts(l, k);
    LookupWithout(l, k, k);
    WithoutFacts(Without(l, k), k);
    assert Touch(l, k)[1..] == Without(l, k);
  }
}
