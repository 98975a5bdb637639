/**
 The two maps of the orchestrator: requests to the watches that answer them, and aggregated keys to
 the upstream streams that feed them. Each method is called here without interference; what
 overlapping calls can do is the subject of `Relay`.
 */
module ResponseMaps {
  import opened Common
  import opened Slots
  import opened CacheObjects

  /** The watches still open, by request. A watch leaves the map when it is closed, and only then. */
  class DownstreamResponseMap<R(==), X> {
    var watches: map<R, Watch<X>>

    ghost predicate Valid()
      reads this, watches.Values
    {
      && (forall r :: r in watches ==> !watches[r].closed)
      && (forall r, q :: r in watches && q in watches && watches[r] == watches[q] ==> r == q)
    }

    constructor ()
      ensures Valid() && watches == map[]
    {
      watches := map[];
    }

    method CreateWatch(req: R) returns (w: Watch<X>)
      requires Valid()
      modifies this
      ensures Valid() && watches == old(watches)[req := w]
      ensures if req in old(watches) then w == old(watches)[req] else fresh(w) && w.out.None?
    {
      if req !in watches {
        var made := new Watch<X>();
        watches := watches[req := made];
      }
      w := watches[req];
    }

    method Get(req: R) returns (w: Option<Watch<X>>)
      ensures w == if req in watches then Some(watches[req]) else None
    {
      w := if req in watches then Some(watches[req]) else None;
    }

    /** Idempotent: a request that has no open watch is left alone. */
    method Delete(req: R) returns (w: Option<Watch<X>>)
      requires Valid()
      modifies this, watches.Values
      ensures Valid() && watches == old(watches) - {req}
      ensures w == if req in old(watches) then Some(old(watches)[req]) else None
      ensures forall r :: r in old(watches) ==>
                old(watches)[r].closed == (r == req) && old(watches)[r].out == old(watches[r].out)
    {
      w := None;
      if req in watches {
        w := Some(watches[req]);
        watches[req].Close();
        watches := watches - {req};
      }
    }

    /** Closes and removes the watch of every request in the store, each once. */
    method DeleteAll(watchers: RequestsStore<R>)
      requires Valid()
      modifies this, watches.Values
      ensures Valid() && watches == old(watches) - watchers.m
      ensures forall r :: r in old(watches) ==>
                old(watches)[r].closed == (r in watchers.m) && old(watches)[r].out == old(watches[r].out)
    {
      var order := watchers.ForEach();
      var i := 0;
      while i < |order|
        invariant 0 <= i <= |order| && Valid()
        invariant watches == old(watches) - (set r | r in order[..i])
        invariant forall r :: r in old(watches) ==>
                    old(watches)[r].closed == (r in order[..i]) && old(watches)[r].out == old(watches[r].out)
      {
        var w := Delete(order[i]);
        assert order[..i + 1] == order[..i] + [order[i]];
        i := i + 1;
      }
      assert order[..i] == order;
      assert (set r | r in order) == watchers.m;
    }

    /** The keys of all open watches, or the error of one whose key cannot be computed. */
    method GetAggregatedKeys<E>(keyOf: R -> Result<string, E>) returns (keys: Result<set<string>, E>)
      ensures keys.Ok? ==> forall r :: r in watches ==> keyOf(r).Ok?
      ensures keys.Ok? ==> keys.value == set r | r in watches :: KeyOr(keyOf(r))
      ensures keys.Err? ==> exists r :: r in watches && keyOf(r) == Err(keys.error)
    {
      var found: set<string> := {};
      var rest := watches.Keys;
      while rest != {}
        invariant rest <= watches.Keys
        invariant forall r :: r in watches && r !in rest ==> keyOf(r).Ok?
        invariant found == set r | r in watches && r !in rest :: KeyOr(keyOf(r))
        decreases rest
      {
        var r :| r in rest;
        var k := keyOf(r);
        if k.Err? {
          return Err(k.error);
        }
        rest, found := rest - {r}, found + {k.value};
      }
      return Ok(found);
    }

    static function KeyOr<E>(k: Result<string, E>): string {
      if k.Ok? then k.value else ""
    }
  }

  /** The `done` channel of one upstream stream. */
  class Done {
    var closed: bool

    constructor ()
      ensures !closed
    {
      closed := false;
    }

    method Close()
      requires !closed
      modifies this
      ensures closed
    {
      closed := true;
    }
  }

  datatype UpstreamChannel<C> = UpstreamChannel(response: C, done: Done)

  class UpstreamResponseMap<C> {
    var streams: map<string, UpstreamChannel<C>>

    ghost function Dones(): set<Done>
      reads this
    {
      set k | k in streams :: streams[k].done
    }

    ghost predicate Valid()
      reads this, Dones()
    {
      && (forall k :: k in streams ==> !streams[k].done.closed)
      && (forall k, q :: k in streams && q in streams && streams[k].done == streams[q].done ==> k == q)
    }

    constructor ()
      ensures Valid() && streams == map[]
    {
      streams := map[];
    }

    method Exists(key: string) returns (found: bool)
      ensures found <==> key in streams
    {
      found := key in streams;
    }

    /** Load or store: the first channel of a key stays, a later one is not stored. */
    method Add(key: string, response: C) returns (c: UpstreamChannel<C>, existed: bool)
      requires Valid()
      modifies this
      ensures Valid() && existed == (key in old(streams)) && streams == old(streams)[key := c]
      ensures if existed then c == old(streams)[key] else c.response == response && fresh(c.done) && !c.done.closed
    {
      existed := key in streams;
      if !existed {
        var done := new Done();
        streams := streams[key := UpstreamChannel(response, done)];
      }
      c := streams[key];
    }

    method Delete(key: string)
      requires Valid()
      modifies this, Dones()
      ensures Valid() && streams == old(streams) - {key}
      ensures forall k :: k in old(streams) ==> old(streams)[k].done.closed == (k == key)
    {
      if key in streams {
        streams[key].done.Close();
        streams := streams - {key};
      }
    }

    method DeleteAll()
      requires Valid()
      modifies this, Dones()
      ensures Valid() && streams == map[]
      ensures forall k :: k in old(streams) ==> old(streams)[k].done.closed
    {
      while streams != map[]
        invariant Valid() && streams.Keys <= old(streams).Keys
        invariant forall k :: k in streams ==> streams[k] == old(streams)[k]
        invariant forall k :: k in old(streams) ==> old(streams)[k].done.closed == (k !in streams)
        decreases streams.Keys
      {
        assert streams.Keys != {};
        var k :| k in streams.Keys;
        Delete(k);
      }
    }
  }
}
