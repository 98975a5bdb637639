/**
 Whole histories of cache operations: the bounded LRU+TTL cache against an unbounded plain map,
 the bookkeeping of evictions, and the choice of the capacity victim.
 */
module CacheHistory {
  import opened Common
  import opened CacheSpec

  /** One critical section on the cache. `Fetch` is `LookOp`, then `ReapOp` if that saw an expired entry. */
  datatype Op<R, X> =
    | AddOp(key: Key, r: R, now: int)
    | SetOp(key: Key, x: X, now: int)
    | RemoveRequestOp(key: Key, r: R)
    | RemoveKeyOp(key: Key)
    | LookOp(key: Key)
    | ReapOp(key: Key, now: int)

  /** What a key holds, its request store resolved to the requests in it. */
  datatype Plain<R(==), X> = Plain(resp: Option<X>, requests: set<R>, expiry: Option<int>)

  datatype Eviction<R(==), X> = Eviction(key: Key, value: Plain<R, X>)

  /** The cache with a record of the eviction callbacks made and a count of the entries created. */
  datatype Machine<R(==), X> = Machine(c: State<R, X, nat>, evicted: seq<Eviction<R, X>>, created: nat)

  ghost predicate Inv<R, X>(m: Machine<R, X>) {
    Valid(m.c) && forall s :: s in m.c.stores ==> s < m.created
  }

  function Do<R, X>(m: Machine<R, X>, cfg: Config, op: Op<R, X>): Effect<R, X, nat>
    requires Inv(m)
  {
    match op
    case AddOp(k, r, now) => AddRequest(m.c, cfg, k, r, now, m.created)
    case SetOp(k, x, now) => SetResponse(m.c, cfg, k, x, now, m.created)
    case RemoveRequestOp(k, r) => Effect(DeleteRequest(m.c, cfg, k, r), None)
    case RemoveKeyOp(k) => DeleteKey(m.c, k)
    case LookOp(k) => Effect(FetchLook(m.c, k), None)
    case ReapOp(k, now) => FetchReap(m.c, k, now).0
  }

  lemma DoValid<R, X>(m: Machine<R, X>, cfg: Config, op: Op<R, X>)
    requires Inv(m)
    ensures Valid(Do(m, cfg, op).state)
    ensures Do(m, cfg, op).state.stores.Keys <= m.c.stores.Keys + {m.created}
    ensures m.c.stores.Keys <= Do(m, cfg, op).state.stores.Keys
    ensures Creates(m, op) || Do(m, cfg, op).state.stores.Keys == m.c.stores.Keys
    ensures Do(m, cfg, op).evicted.Some? ==>
              Do(m, cfg, op).evicted.value.value.requests in Do(m, cfg, op).state.stores
  {
    match op
    case AddOp(k, r, now) => AddRequestValid(m.c, cfg, k, r, now, m.created);
    case SetOp(k, x, now) => SetResponseValid(m.c, cfg, k, x, now, m.created);
    case RemoveRequestOp(k, r) => DeleteRequestValid(m.c, cfg, k, r);
    case RemoveKeyOp(k) => LookAndRemoveValid(m.c, k, 0);
    case LookOp(k) => LookAndRemoveValid(m.c, k, 0);
    case ReapOp(k, now) => LookAndRemoveValid(m.c, k, now);
  }

  predicate Creates<R, X>(m: Machine<R, X>, op: Op<R, X>) {
    (op.AddOp? || op.SetOp?) && Lookup(m.c.lru, op.key).None?
  }

  function Value<R, X>(c: State<R, X, nat>, k: Key): Option<Plain<R, X>>
    requires Valid(c)
  {
    match Lookup(c.lru, k)
    case None => None
    case Some(v) => Some(Plain(v.resp, c.stores[v.requests], v.expiry))
  }

  function Step<R, X>(m: Machine<R, X>, cfg: Config, op: Op<R, X>): (m': Machine<R, X>)
    requires Inv(m)
    ensures Inv(m')
  {
    DoValid(m, cfg, op);
    var e := Do(m, cfg, op);
    var log := match e.evicted
      case None => []
      case Some(x) => [Eviction(x.key, Plain(x.value.resp, e.state.stores[x.value.requests], x.value.expiry))];
    Machine(e.state, m.evicted + log, if Creates(m, op) then m.created + 1 else m.created)
  }

  // ------------------------------------------- the plain map the cache refines

  /** What an operation on its own key does to a plain, unbounded map. */
  function PlainStep<R, X>(p: Option<Plain<R, X>>, op: Op<R, X>, cfg: Config): Option<Plain<R, X>> {
    if Discards(p, op) then None else PlainWrite(p, op, cfg)
  }

  predicate Discards<R, X>(p: Option<Plain<R, X>>, op: Op<R, X>) {
    p.Some? && (op.RemoveKeyOp? || (op.ReapOp? && p.value.expiry.Some? && p.value.expiry.value < op.now))
  }

  function PlainWrite<R, X>(p: Option<Plain<R, X>>, op: Op<R, X>, cfg: Config): Option<Plain<R, X>> {
    match (op, p)
    case (AddOp(_, r, now), None) => Some(Plain(None, {r}, ExpirationTime(cfg, now)))
    case (AddOp(_, r, _), Some(v)) => Some(v.(requests := v.requests + {r}))
    case (SetOp(_, x, now), None) => Some(Plain(Some(x), {}, ExpirationTime(cfg, now)))
    case (SetOp(_, x, now), Some(v)) => Some(v.(resp := Some(x), expiry := ExpirationTime(cfg, now)))
    case (RemoveRequestOp(_, r), Some(v)) => Some(v.(requests := v.requests - {r}))
    case (_, _) => p
  }

  /** Key `q` goes from `before` to `written`, unless this step logged its loss with value `written`. */
  ghost predicate Becomes<R, X>(m: Machine<R, X>, m': Machine<R, X>, q: Key, written: Option<Plain<R, X>>)
    requires Inv(m) && Inv(m')
  {
    var lost := |m'.evicted| > |m.evicted| && m'.evicted[|m.evicted|].key == q;
    && m.evicted <= m'.evicted && |m'.evicted| <= |m.evicted| + 1
    && Value(m'.c, q) == (if lost then None else written)
    && (lost ==> written == Some(m'.evicted[|m.evicted|].value))
  }

  /** The handle of one key is never the one an operation on another key writes to. */
  lemma StoreFrame<R, X>(m: Machine<R, X>, cfg: Config, op: Op<R, X>, q: Key)
    requires Inv(m) && q != op.key && Lookup(m.c.lru, q).Some?
    ensures var s := Lookup(m.c.lru, q).value.requests;
            s in Do(m, cfg, op).state.stores && Do(m, cfg, op).state.stores[s] == m.c.stores[s]
  {
    assert !SameStore(m.c.lru, q, op.key);
  }

  lemma OtherKey<R, X>(m: Machine<R, X>, cfg: Config, op: Op<R, X>, q: Key)
    requires Inv(m) && q != op.key
    ensures Becomes(m, Step(m, cfg, op), q, Value(m.c, q))
  {
    if Lookup(m.c.lru, q).Some? {
      PresentOtherKey(m, cfg, op, q);
    }
  }

  lemma PresentOtherKey<R, X>(m: Machine<R, X>, cfg: Config, op: Op<R, X>, q: Key)
    requires Inv(m) && q != op.key && Lookup(m.c.lru, q).Some?
    ensures Becomes(m, Step(m, cfg, op), q, Value(m.c, q))
  {
    StoreFrame(m, cfg, op, q);
  }

  lemma OwnKey<R, X>(m: Machine<R, X>, cfg: Config, op: Op<R, X>)
    requires Inv(m)
    ensures Becomes(m, Step(m, cfg, op), op.key, PlainWrite(Value(m.c, op.key), op, cfg))
    ensures Discards(Value(m.c, op.key), op) ==> Value(Step(m, cfg, op).c, op.key).None?
  {}

  /** One step of the cache is one step of the plain map on the operation's own key, the identity on
      every other key, and the loss of at most one key, which is logged with its final value. */
  lemma StepRefinesPlain<R, X>(m: Machine<R, X>, cfg: Config, op: Op<R, X>, q: Key)
    requires Inv(m)
    ensures Becomes(m, Step(m, cfg, op), q, if q == op.key then PlainWrite(Value(m.c, q), op, cfg) else Value(m.c, q))
    ensures q == op.key && Discards(Value(m.c, q), op) ==> Value(Step(m, cfg, op).c, q).None?
  {
    if q == op.key { OwnKey(m, cfg, op); } else { OtherKey(m, cfg, op, q); }
  }

  // ------------------------------------------------------- histories and replay

  ghost function Start<R, X>(): (m: Machine<R, X>)
    ensures Inv(m)
  {
    Machine(State([], map[]), [], 0)
  }

  ghost function Exec<R, X>(cfg: Config, ops: seq<Op<R, X>>): (m: Machine<R, X>)
    ensures Inv(m)
  {
    if ops == [] then Start() else Step(Exec(cfg, ops[..|ops| - 1]), cfg, ops[|ops| - 1])
  }

  /** The plain map's value of `k` after the operations on `k` alone, starting from nothing. */
  ghost function Replay<R, X>(cfg: Config, ops: seq<Op<R, X>>, k: Key): Option<Plain<R, X>> {
    if ops == [] then None
    else
      var p, op := Replay(cfg, ops[..|ops| - 1], k), ops[|ops| - 1];
      if op.key == k then PlainStep(p, op, cfg) else p
  }

  ghost function ValueAt<R, X>(cfg: Config, ops: seq<Op<R, X>>, i: nat, k: Key): Option<Plain<R, X>>
    requires i <= |ops|
  {
    Value(Exec(cfg, ops[..i]).c, k)
  }

  /** `k` was last absent after `j` operations and has been present since. */
  ghost predicate PresentSince<R, X>(cfg: Config, ops: seq<Op<R, X>>, j: nat, k: Key)
    requires j <= |ops|
  {
    && ValueAt(cfg, ops, j, k).None?
    && forall i :: j < i <= |ops| ==> ValueAt(cfg, ops, i, k).Some?
  }

  lemma PresentSincePrefix<R, X>(cfg: Config, ops: seq<Op<R, X>>, j: nat, k: Key)
    requires j < |ops| && PresentSince(cfg, ops, j, k)
    ensures PresentSince(cfg, ops[..|ops| - 1], j, k)
  {
    var init := ops[..|ops| - 1];
    forall i | 0 <= i <= |init| ensures ValueAt(cfg, init, i, k) == ValueAt(cfg, ops, i, k) {
      assert init[..i] == ops[..i];
    }
  }

  /** A present key holds exactly what a plain unbounded map holds after the operations on that key
      since it was last absent: neither capacity nor operations on other keys show. */
  lemma {:induction false} CacheRefinesReplay<R, X>(cfg: Config, ops: seq<Op<R, X>>, j: nat, k: Key)
    requires j <= |ops| && PresentSince(cfg, ops, j, k)
    ensures Value(Exec(cfg, ops).c, k) == Replay(cfg, ops[j..], k)
  {
    hide Step, Value;
    assert ops[..|ops|] == ops;
    if j < |ops| {
      var init, op := ops[..|ops| - 1], ops[|ops| - 1];
      PresentSincePrefix(cfg, ops, j, k);
      CacheRefinesReplay(cfg, init, j, k);
      assert ops[j..][..|ops| - j - 1] == init[j..];
      StepRefinesPlain(Exec(cfg, init), cfg, op, k);
      assert ValueAt(cfg, ops, |ops|, k).Some?;
    }
  }

  /** The index of the last `SetResponse` on `k`, or 0. */
  function LastSet<R, X>(ops: seq<Op<R, X>>, k: Key): (i: nat)
    ensures ops != [] ==> i < |ops|
    ensures i != 0 ==> i < |ops| && ops[i].SetOp? && ops[i].key == k
    ensures forall n :: i < n < |ops| ==> !(ops[n].SetOp? && ops[n].key == k)
  {
    if |ops| <= 1 then 0
    else if ops[|ops| - 1].SetOp? && ops[|ops| - 1].key == k then |ops| - 1
    else
      var i := LastSet(ops[..|ops| - 1], k);
      assert forall n :: 0 <= n < |ops| - 1 ==> ops[n] == ops[..|ops| - 1][n];
      i
  }

  /** The operation that made a key present is an `AddRequest` or `SetResponse` on that key. */
  lemma CreatedByWrite<R, X>(cfg: Config, ops: seq<Op<R, X>>, j: nat, k: Key)
    requires j < |ops| && PresentSince(cfg, ops, j, k)
    ensures ops[j].key == k && (ops[j].AddOp? || ops[j].SetOp?)
  {
    assert ops[..j + 1][..j] == ops[..j];
    assert ValueAt(cfg, ops, j + 1, k).Some?;
    StepRefinesPlain(Exec(cfg, ops[..j]), cfg, ops[j], k);
  }

  lemma {:induction false} ReplayExpiry<R, X>(cfg: Config, ops: seq<Op<R, X>>, k: Key)
    requires ops != [] && ops[0].key == k && (ops[0].AddOp? || ops[0].SetOp?)
    requires forall i :: 0 < i <= |ops| ==> Replay(cfg, ops[..i], k).Some?
    ensures var w := ops[LastSet(ops, k)];
            && (w.AddOp? || w.SetOp?)
            && Replay(cfg, ops, k).Some?
            && Replay(cfg, ops, k).value.expiry == ExpirationTime(cfg, w.now)
  {
    assert ops[..|ops|] == ops;
    var init := ops[..|ops| - 1];
    if init == [] {
      assert Replay(cfg, init, k).None?;
    } else {
      forall i | 0 < i <= |init| ensures Replay(cfg, init[..i], k).Some? { assert init[..i] == ops[..i]; }
      ReplayExpiry(cfg, init, k);
    }
  }

  lemma ReplayOfPrefix<R, X>(cfg: Config, ops: seq<Op<R, X>>, j: nat, i: nat, k: Key)
    requires i <= |ops| - j && PresentSince(cfg, ops, j, k)
    ensures Replay(cfg, ops[j..][..i], k) == ValueAt(cfg, ops, j + i, k)
  {
    var pre := ops[..j + i];
    forall n | 0 <= n <= j + i ensures ValueAt(cfg, pre, n, k) == ValueAt(cfg, ops, n, k) {
      assert pre[..n] == ops[..n];
    }
    CacheRefinesReplay(cfg, pre, j, k);
    assert pre[j..] == ops[j..][..i];
  }

  /** The expiry of a present key is counted from its last `SetResponse`, or from its creation if
      there was none since; nothing else moves it. */
  lemma ExpiryIsFromLastSet<R, X>(cfg: Config, ops: seq<Op<R, X>>, j: nat, k: Key)
    requires j < |ops| && PresentSince(cfg, ops, j, k)
    ensures var w := ops[j + LastSet(ops[j..], k)];
            && (w.AddOp? || w.SetOp?)
            && ValueAt(cfg, ops, |ops|, k).value.expiry == ExpirationTime(cfg, w.now)
  {
    hide Step;
    CreatedByWrite(cfg, ops, j, k);
    ReplayPresent(cfg, ops, j, k);
    ReplayExpiry(cfg, ops[j..], k);
    ReplayOfPrefix(cfg, ops, j, |ops| - j, k);
    assert ops[j..][..|ops| - j] == ops[j..];
  }

  lemma ReplayPresent<R, X>(cfg: Config, ops: seq<Op<R, X>>, j: nat, k: Key)
    requires j < |ops| && PresentSince(cfg, ops, j, k)
    ensures forall i :: 0 < i <= |ops| - j ==> Replay(cfg, ops[j..][..i], k).Some?
  {
    forall i | 0 < i <= |ops| - j ensures Replay(cfg, ops[j..][..i], k).Some? {
      ReplayOfPrefix(cfg, ops, j, i, k);
      assert ValueAt(cfg, ops, j + i, k).Some?;
    }
  }

  /** The second critical section of `Fetch` removes a present key exactly when it is expired at that
      instant, counted from its last `SetResponse` or its creation. So a response stored between the
      two sections is not lost unless itself expired by then, and what is handed back was not expired when
      last checked. */
  lemma ReapExactly<R, X>(cfg: Config, ops: seq<Op<R, X>>, j: nat, k: Key, now: int)
    requires j < |ops| && PresentSince(cfg, ops, j, k)
    ensures var m := Exec(cfg, ops);
            var got, after := FetchReap(m.c, k, now).1, Value(Step(m, cfg, ReapOp(k, now)).c, k);
            var w := ops[j + LastSet(ops[j..], k)];
            var live := cfg.ttl <= 0 || (w.AddOp? && now <= w.now + cfg.ttl) || (w.SetOp? && now <= w.now + cfg.ttl);
            && Lookup(m.c.lru, k).Some?
            && (live ==> after == Value(m.c, k) && got == Hit(Lookup(m.c.lru, k).value) && !IsExpired(got.value, now))
            && (!live ==> after == None && got == Nil)
  {
    assert ops[..|ops|] == ops;
    ExpiryIsFromLastSet(cfg, ops, j, k);
    ReapStep(Exec(cfg, ops), cfg, k, now);
  }

  lemma ReapStep<R, X>(m: Machine<R, X>, cfg: Config, k: Key, now: int)
    requires Inv(m) && Lookup(m.c.lru, k).Some?
    ensures var v := Lookup(m.c.lru, k).value;
            && Value(m.c, k).value.expiry == v.expiry
            && FetchReap(m.c, k, now).1 == (if IsExpired(v, now) then Nil else Hit(v))
            && Value(Step(m, cfg, ReapOp(k, now)).c, k) == if IsExpired(v, now) then None else Value(m.c, k)
  {
    var c := FetchReap(m.c, k, now).0.state;
    LookAndRemoveValid(m.c, k, now);
    assert c.stores == m.c.stores;
    assert Value(c, k) == if IsExpired(Lookup(m.c.lru, k).value, now) then None else Value(m.c, k);
    assert Step(m, cfg, ReapOp(k, now)).c == c;
  }

  // ------------------------------------------------------- eviction accounting

  ghost predicate Balanced<R, X>(m: Machine<R, X>, cfg: Config) {
    && m.created == |m.c.lru| + |m.evicted|
    && (cfg.maxEntries > 0 ==> |m.c.lru| <= cfg.maxEntries)
    && (cfg.maxEntries < 0 ==> m.c.lru == [])
  }

  lemma StepBalances<R, X>(m: Machine<R, X>, cfg: Config, op: Op<R, X>)
    requires Inv(m) && Balanced(m, cfg)
    ensures Balanced(Step(m, cfg, op), cfg)
  {
    WithoutFacts(m.c.lru, op.key);
  }

  /** Every entry ever created is present or was handed to the eviction callback, and the list
      respects the capacity. A negative capacity, which no configuration check rules out, keeps
      the cache empty. */
  lemma {:induction false} EvictionAccounting<R, X>(cfg: Config, ops: seq<Op<R, X>>)
    ensures var m := Exec(cfg, ops);
            && m.created == |m.c.lru| + |m.evicted|
            && (cfg.maxEntries > 0 ==> |m.c.lru| <= cfg.maxEntries)
            && (cfg.maxEntries < 0 ==> m.c.lru == [])
  {
    hide Step;
    if ops != [] {
      var init, op := ops[..|ops| - 1], ops[|ops| - 1];
      EvictionAccounting(cfg, init);
      StepBalances(Exec(cfg, init), cfg, op);
    }
  }

  /** The index of the last operation on `k`, or -1. */
  function LastTouch<R, X>(ops: seq<Op<R, X>>, k: Key): int {
    if ops == [] then -1
    else if ops[|ops| - 1].key == k then |ops| - 1
    else LastTouch(ops[..|ops| - 1], k)
  }

  lemma LastTouchBound<R, X>(ops: seq<Op<R, X>>, k: Key)
    ensures LastTouch(ops, k) < |ops|
  {}

  ghost predicate ByRecency<R, X>(l: seq<Entry<X, nat>>, ops: seq<Op<R, X>>) {
    forall i, j :: 0 <= i < j < |l| ==> LastTouch(ops, l[i].key) > LastTouch(ops, l[j].key)
  }

  lemma FirstByRecency<R, X>(w: seq<Entry<X, nat>>, ops: seq<Op<R, X>>, e: Entry<X, nat>)
    requires ByRecency(w, ops) && forall i :: 0 <= i < |w| ==> LastTouch(ops, w[i].key) < LastTouch(ops, e.key)
    ensures ByRecency([e] + w, ops)
  {
    hide LastTouch;
  }

  lemma {:induction false} ByRecencyWithout<R, X>(l: seq<Entry<X, nat>>, k: Key, ops: seq<Op<R, X>>)
    requires ByRecency(l, ops)
    ensures ByRecency(Without(l, k), ops)
  {
    hide LastTouch;
    if l != [] {
      var rest, w := l[1..], Without(l[1..], k);
      assert forall i :: 0 <= i < |rest| ==> rest[i] == l[i + 1];
      ByRecencyWithout(rest, k, ops);
      forall j | 0 <= j < |w| ensures LastTouch(ops, l[0].key) > LastTouch(ops, w[j].key) {
        assert w[j] in rest;
      }
      FirstByRecency(w, ops, l[0]);
    }
  }

  /** The list is always ordered by the last operation on each key. */
  lemma {:induction false} ListIsByRecency<R, X>(cfg: Config, ops: seq<Op<R, X>>)
    ensures ByRecency(Exec(cfg, ops).c.lru, ops)
  {
    hide Step;
    if ops != [] {
      var init, op := ops[..|ops| - 1], ops[|ops| - 1];
      ListIsByRecency(cfg, init);
      assert init + [op] == ops;
      StepByRecency(Exec(cfg, init), cfg, init, op);
    }
  }

  lemma StepByRecency<R, X>(m: Machine<R, X>, cfg: Config, init: seq<Op<R, X>>, op: Op<R, X>)
    requires Inv(m) && ByRecency(m.c.lru, init)
    ensures ByRecency(Step(m, cfg, op).c.lru, init + [op])
  {
    hide Step, LastTouch, Without;
    FrontByRecency(m.c.lru, init, op);
    StepShape(m, cfg, op);
    var l := Step(m, cfg, op).c.lru;
    if l != [] && l[0].key == op.key {
      assert ByRecency([Entry(op.key, l[0].value)] + Without(m.c.lru, op.key), init + [op]);
    }
  }

  /** A step moves or pushes its key to the front, drops it, or finds it absent; it may then cut the
      last entry off. */
  lemma StepShape<R, X>(m: Machine<R, X>, cfg: Config, op: Op<R, X>)
    requires Inv(m)
    ensures var l, l' := m.c.lru, Step(m, cfg, op).c.lru;
            || l' == Without(l, op.key)
            || l' == []
            || (l' != [] && l'[0].key == op.key && l' <= [l'[0]] + Without(l, op.key))
  {
    WithoutFacts(m.c.lru, op.key);
    match op
    case AddOp(k, r, now) =>
      PutShape(m.c.lru, k, match Lookup(m.c.lru, k)
                           case None => Resource(None, m.created, ExpirationTime(cfg, now))
                           case Some(v) => v, cfg.maxEntries);
    case SetOp(k, x, now) =>
      PutShape(m.c.lru, k, match Lookup(m.c.lru, k)
                           case None => Resource(Some(x), m.created, ExpirationTime(cfg, now))
                           case Some(v) => v.(resp := Some(x), expiry := ExpirationTime(cfg, now)), cfg.maxEntries);
    case _ =>
      if Lookup(m.c.lru, op.key).Some? {
        PutShape(m.c.lru, op.key, Lookup(m.c.lru, op.key).value, cfg.maxEntries);
      }
  }

  lemma PutShape<X, S>(l: seq<Entry<X, S>>, k: Key, v: Resource<X, S>, max: int)
    requires Distinct(l)
    ensures var l' := Put(l, k, v, max).0;
            l' == [] || (l'[0].key == k && l' <= [l'[0]] + Without(l, k))
  {}

  /** When a write makes an entry over capacity, the last entry of the extended list goes. */
  lemma EvictShape<R, X>(m: Machine<R, X>, cfg: Config, op: Op<R, X>)
    requires Inv(m) && (op.AddOp? || op.SetOp?)
    requires var m' := Step(m, cfg, op); |m'.evicted| > |m.evicted|
    ensures var m' := Step(m, cfg, op);
            && Lookup(m.c.lru, op.key).None?
            && cfg.maxEntries != 0 && |m.c.lru| + 1 > cfg.maxEntries
            && |m'.evicted| == |m.evicted| + 1
            && m'.c.lru == Extended(m, cfg, op)[..|m.c.lru|]
            && m'.evicted[|m.evicted|].key == Extended(m, cfg, op)[|m.c.lru|].key
  {
    hide DeleteRequest, DeleteKey, FetchLook, FetchReap, SameStore, Distinct;
    WithoutFacts(m.c.lru, op.key);
  }

  function Extended<R, X>(m: Machine<R, X>, cfg: Config, op: Op<R, X>): (l: seq<Entry<X, nat>>)
    requires op.AddOp? || op.SetOp?
    ensures |l| == |m.c.lru| + 1 && l[0].key == op.key && l[1..] == m.c.lru
  {
    var v := if op.AddOp? then Resource(None, m.created, ExpirationTime(cfg, op.now))
             else Resource(Some(op.x), m.created, ExpirationTime(cfg, op.now));
    [Entry(op.key, v)] + m.c.lru
  }

  lemma FrontByRecency<R, X>(l: seq<Entry<X, nat>>, init: seq<Op<R, X>>, op: Op<R, X>)
    requires Distinct(l) && ByRecency(l, init)
    ensures ByRecency(Without(l, op.key), init + [op])
    ensures forall v :: ByRecency([Entry(op.key, v)] + Without(l, op.key), init + [op])
    ensures Lookup(l, op.key).None? ==> Without(l, op.key) == l
  {
    var ops, w := init + [op], Without(l, op.key);
    assert ops[..|ops| - 1] == init;
    WithoutFacts(l, op.key);
    ByRecencyWithout(l, op.key, init);
    forall i | 0 <= i < |w| ensures LastTouch(ops, w[i].key) == LastTouch(init, w[i].key) < |init| {
      assert w[i] in w;
      LastTouchBound(init, w[i].key);
    }
    forall v ensures ByRecency([Entry(op.key, v)] + w, ops) {
      FirstByRecency(w, ops, Entry(op.key, v));
    }
  }

  ghost predicate CapacityEviction<R, X>(cfg: Config, ops: seq<Op<R, X>>) {
    && ops != [] && (ops[|ops| - 1].AddOp? || ops[|ops| - 1].SetOp?)
    && |Exec(cfg, ops).evicted| > |Exec(cfg, ops[..|ops| - 1]).evicted|
  }

  ghost predicate RightVictim<R, X>(m: Machine<R, X>, m': Machine<R, X>, cfg: Config, ops: seq<Op<R, X>>, q: Key)
    requires |m'.evicted| > |m.evicted| && ops != []
  {
    var victim := m'.evicted[|m.evicted|].key;
    && |m'.evicted| == |m.evicted| + 1
    && (Lookup(m'.c.lru, q).Some? ==> LastTouch(ops, victim) < LastTouch(ops, q))
    && (victim == ops[|ops| - 1].key <==> cfg.maxEntries < 0)
  }

  /** A capacity victim is the least recently touched of all keys, and it is the key just written
      exactly when the configured capacity is negative. */
  lemma CapacityVictim<R, X>(cfg: Config, ops: seq<Op<R, X>>, q: Key)
    requires CapacityEviction(cfg, ops)
    ensures RightVictim(Exec(cfg, ops[..|ops| - 1]), Exec(cfg, ops), cfg, ops, q)
  {
    hide Step, RightVictim, ByRecency;
    var init, op := ops[..|ops| - 1], ops[|ops| - 1];
    ListIsByRecency(cfg, init);
    EvictionAccounting(cfg, init);
    assert init + [op] == ops;
    VictimOfStep(Exec(cfg, init), cfg, init, op, q);
  }

  lemma VictimOfStep<R, X>(m: Machine<R, X>, cfg: Config, init: seq<Op<R, X>>, op: Op<R, X>, q: Key)
    requires Inv(m) && ByRecency(m.c.lru, init) && (cfg.maxEntries < 0 ==> m.c.lru == [])
    requires (op.AddOp? || op.SetOp?) && |Step(m, cfg, op).evicted| > |m.evicted|
    ensures RightVictim(m, Step(m, cfg, op), cfg, init + [op], q)
  {
    hide Step, ByRecency, LastTouch, Extended, Lookup;
    EvictShape(m, cfg, op);
    LastIsLeastRecent(m.c.lru, Extended(m, cfg, op), init, op, q);
  }

  lemma LastIsLeastRecent<R, X>(l: seq<Entry<X, nat>>, full: seq<Entry<X, nat>>, init: seq<Op<R, X>>, op: Op<R, X>, q: Key)
    requires Distinct(l) && ByRecency(l, init) && Lookup(l, op.key).None?
    requires full != [] && full[0].key == op.key && full[1..] == l
    ensures Lookup(full[..|l|], q).Some? ==> LastTouch(init + [op], full[|l|].key) < LastTouch(init + [op], q)
    ensures full[|l|].key == op.key <==> l == []
  {
    hide LastTouch;
    FrontByRecency(l, init, op);
    assert full == [Entry(op.key, full[0].value)] + l;
    assert ByRecency(full, init + [op]);
    if Lookup(full[..|l|], q).Some? {
      var i := LookupIndex(full[..|l|], q);
      assert full[i].key == q;
    }
    if l != [] {
      LookupLast(l);
    }
  }

  lemma {:induction false} LookupIndex<X>(l: seq<Entry<X, nat>>, q: Key) returns (i: nat)
    requires Lookup(l, q).Some?
    ensures i < |l| && l[i].key == q
  {
    if l[0].key == q {
      i := 0;
    } else {
      i := LookupIndex(l[1..], q);
      i := i + 1;
    }
  }

  lemma {:induction false} LookupLast<X>(l: seq<Entry<X, nat>>)
    requires l != []
    ensures Lookup(l, l[|l| - 1].key).Some?
  {
    if |l| > 1 {
      LookupLast(l[1..]);
    }
  }
}
