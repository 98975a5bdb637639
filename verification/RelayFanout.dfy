/**
 What the fan-out owes a request. Once `CreateWatch` is past its push of a cached response, nothing is
 withheld from the request any more: every response stored from then on is for it, whatever version it
 named and whether or not it is a NACK.
 */
module RelayFanout {
  import opened Common
  import opened CacheSpec
  import opened Relay
  import opened RelayBasics
  import opened RelayCover
  import opened RelaySteps
  import opened RelaySafety
  import opened RelaySends

  /** `r` is registered, and its `CreateWatch` has pushed, or chosen not to push, what it found in the cache. */
  ghost predicate PastPush(s: System, r: Req) {
    r in s.reqs && forall t :: t in s.threads ==> !BeforePush(s.threads[t], r)
  }

  predicate BeforePush(th: Thread, r: Req) {
    th.job.Creating? && th.job.r == r && (th.job.cpc.ToAdd? || th.job.cpc.ToPush?)
  }

  /** The push stays behind, and nothing more is withheld. */
  ghost predicate StaysPast(s: System, s': System, r: Req) {
    PastPush(s', r) && At(s'.skipped, r) == At(s.skipped, r)
  }

  lemma EnrolPast(cfg: Config, s: System, a: Action, s': System, r: Req)
    requires CacheSpec.Valid(s.cache) && CreateNext(cfg, s, a, s') && Enrols(a) && PastPush(s, r)
    ensures StaysPast(s, s', r)
  {
    hide AddRequest, CacheSpec.Valid, Wants, Cached, Quiet;
  }

  lemma StreamPast(cfg: Config, s: System, a: Action, s': System, r: Req)
    requires CacheSpec.Valid(s.cache) && CreateNext(cfg, s, a, s') && !Enrols(a) && PastPush(s, r)
    ensures StaysPast(s, s', r)
  {
    hide DeleteRequest, CacheSpec.Valid, Quiet, AfterReturn, AfterInsert;
  }

  lemma WatchPast(cfg: Config, s: System, a: Action, s': System, r: Req)
    requires CacheSpec.Valid(s.cache) && WatchNext(cfg, s, a, s') && PastPush(s, r)
    ensures StaysPast(s, s', r)
  {
    hide SetResponse, CacheSpec.Valid, Cached;
  }

  lemma FetchPast(cfg: Config, s: System, a: Action, s': System, r: Req)
    requires CacheSpec.Valid(s.cache) && FetchNext(cfg, s, a, s') && PastPush(s, r)
    ensures StaysPast(s, s', r)
  {
    hide FetchLook, FetchReap, DeleteKey, CacheSpec.Valid;
  }

  lemma EvictPast(cfg: Config, s: System, a: Action, s': System, r: Req)
    requires CacheSpec.Valid(s.cache) && EvictNext(cfg, s, a, s') && PastPush(s, r)
    ensures StaysPast(s, s', r)
  {
    hide CacheSpec.Valid, Quiet, OtherRemoval;
  }

  lemma SendPast(cfg: Config, s: System, a: Action, s': System, r: Req)
    requires CacheSpec.Valid(s.cache) && SendNext(cfg, s, a, s') && PastPush(s, r)
    ensures StaysPast(s, s', r)
  {
    hide CacheSpec.Valid, OtherHolder;
  }

  lemma StepStaysPast(cfg: Config, s: System, a: Action, s': System, r: Req)
    requires Next(cfg, s, a, s') && PastPush(s, r)
    ensures StaysPast(s, s', r)
  {
    hide CreateNext, WatchNext, FetchNext, EvictNext, SendNext, CacheSpec.Valid, PastPush, StaysPast;
    if CreateNext(cfg, s, a, s') {
      if Enrols(a) {
        EnrolPast(cfg, s, a, s', r);
      } else {
        StreamPast(cfg, s, a, s', r);
      }
    } else if WatchNext(cfg, s, a, s') {
      WatchPast(cfg, s, a, s', r);
    } else if FetchNext(cfg, s, a, s') {
      FetchPast(cfg, s, a, s', r);
    } else if EvictNext(cfg, s, a, s') {
      EvictPast(cfg, s, a, s', r);
    } else {
      SendPast(cfg, s, a, s', r);
    }
  }

  lemma {:induction false} RunStaysPast(cfg: Config, s: System, more: seq<Action>, s': System, r: Req)
    requires Leads(cfg, s, more, s') && PastPush(s, r)
    ensures StaysPast(s, s', r)
  {
    hide Next;
    if more != [] {
      var init, a := more[..|more| - 1], more[|more| - 1];
      var p :| Leads(cfg, s, init, p) && Next(cfg, p, a, s');
      RunStaysPast(cfg, s, init, p, r);
      StepStaysPast(cfg, p, a, s', r);
    }
  }

  /** No missed fan-out. From `p` on, in which `r` is past its push, `more` leads to a state in which things
      have settled and `r` is due a response that was stored after `p`: then this response or one stored
      later was put into the slot of `r`, or a `Send` of one was overlapped by another on the same watch and
      erred; and if no two sends ever overlapped on the watch, it was put into the slot. */
  lemma NoMissedFanout(cfg: Config, now: int, acts: seq<Action>, p: System, more: seq<Action>, s: System, k: Key, r: Req)
    requires Reached(cfg, now, acts, p) && PastPush(p, r) && Leads(cfg, p, more, s)
    requires Due(s, k, r) && Settled(s, k, r) && Lookup(s.cache.lru, k).value.resp.value.stamp >= |p.sets|
    ensures var n := Lookup(s.cache.lru, k).value.resp.value.stamp;
      && (Served(s, k, r, n) || Crossed(s, k, r, n))
      && (r !in s.log.crossed ==> Served(s, k, r, n))
  {
    hide Leads, Settled, Served, Crossed, CacheOk, ThreadsOk, WatchesOk, LocksOk;
    LeadsJoin(cfg, Init(now), acts, p, more, s);
    NoMissedUpdate(cfg, now, acts + more, s, k, r);
    ReachedInv(cfg, now, acts, p);
    RunStaysPast(cfg, p, more, s, r);
    assert At(p.skipped, r) <= |p.sets|;
  }
}
