/**
 When `CreateWatch` pushes what it found in the cache: exactly if there is a response in it, the request is no
 NACK, and it names another version.
 */
module RelayPush {
  import opened Common
  import opened CacheSpec
  import opened Relay
  import opened RelayBasics
  import opened RelaySteps
  import opened RelaySafety

  /** With the fetch done, the response found decides; one of the two goes on, never both. */
  lemma PushDecided(s: System, t: Tid, u: Tid)
    requires IsCreating(s, t) && s.threads[t].job.cpc.ToPush? && s.threads[t].fetch.Got? && u !in s.threads
    ensures var f, info := s.threads[t].fetch.f, s.reqs[s.threads[t].job.r];
      var other := f.Hit? && f.value.resp.Some? && f.value.resp.value.version != info.version;
      && (CanPush(s, t, u) <==> other && !info.nack)
      && (CanNoPush(s, t) <==> !other || info.nack)
    ensures CanPush(s, t, u) ==>
      DoPush(s, t, u).threads[u].job == Sending(s.threads[t].job.r, s.threads[t].fetch.f.value.resp.value, None, ToEnter)
  {}

  /** A send without a fan-out behind it is a push: of another version than the request names, and to no NACK. */
  predicate PushOk(reqs: map<Req, ReqInfo>, th: Thread) {
    th.job.Sending? && th.job.parent.None? ==>
      th.job.r in reqs && th.job.m.version != reqs[th.job.r].version && !reqs[th.job.r].nack
  }

  ghost predicate PushesOk(s: System) {
    forall t :: t in s.threads ==> PushOk(s.reqs, s.threads[t])
  }

  lemma EnrolPushes(cfg: Config, s: System, a: Action, s': System)
    requires CacheSpec.Valid(s.cache) && CreateNext(cfg, s, a, s') && Enrols(a) && PushesOk(s)
    ensures PushesOk(s')
  {
    hide AddRequest, CacheSpec.Valid, Quiet;
  }

  lemma StreamPushes(cfg: Config, s: System, a: Action, s': System)
    requires CacheSpec.Valid(s.cache) && CreateNext(cfg, s, a, s') && !Enrols(a) && PushesOk(s)
    ensures PushesOk(s')
  {
    hide DeleteRequest, CacheSpec.Valid, Quiet, AfterReturn, AfterInsert;
  }

  lemma WatchPushes(cfg: Config, s: System, a: Action, s': System)
    requires CacheSpec.Valid(s.cache) && WatchNext(cfg, s, a, s') && PushesOk(s)
    ensures PushesOk(s')
  {
    hide SetResponse, CacheSpec.Valid, Cached;
  }

  lemma FetchPushes(cfg: Config, s: System, a: Action, s': System)
    requires CacheSpec.Valid(s.cache) && FetchNext(cfg, s, a, s') && PushesOk(s)
    ensures PushesOk(s')
  {
    hide FetchLook, FetchReap, DeleteKey, CacheSpec.Valid;
  }

  lemma EvictPushes(cfg: Config, s: System, a: Action, s': System)
    requires CacheSpec.Valid(s.cache) && EvictNext(cfg, s, a, s') && PushesOk(s)
    ensures PushesOk(s')
  {
    hide CacheSpec.Valid, Quiet, OtherRemoval;
  }

  lemma SendPushes(cfg: Config, s: System, a: Action, s': System)
    requires CacheSpec.Valid(s.cache) && SendNext(cfg, s, a, s') && PushesOk(s)
    ensures PushesOk(s')
  {
    hide CacheSpec.Valid, OtherHolder;
  }

  lemma PushesKept(cfg: Config, s: System, a: Action, s': System)
    requires Next(cfg, s, a, s') && PushesOk(s)
    ensures PushesOk(s')
  {
    hide CreateNext, WatchNext, FetchNext, EvictNext, SendNext, CacheSpec.Valid, PushesOk;
    if CreateNext(cfg, s, a, s') {
      if Enrols(a) {
        EnrolPushes(cfg, s, a, s');
      } else {
        StreamPushes(cfg, s, a, s');
      }
    } else if WatchNext(cfg, s, a, s') {
      WatchPushes(cfg, s, a, s');
    } else if FetchNext(cfg, s, a, s') {
      FetchPushes(cfg, s, a, s');
    } else if EvictNext(cfg, s, a, s') {
      EvictPushes(cfg, s, a, s');
    } else {
      SendPushes(cfg, s, a, s');
    }
  }

  /** On every run, whatever is being sent as a push of the cache has another version than its request names,
      and its request is no NACK. */
  lemma {:induction false} PushesWanted(cfg: Config, now: int, acts: seq<Action>, s: System)
    requires Reached(cfg, now, acts, s)
    ensures forall t :: t in s.threads && s.threads[t].job.Sending? && s.threads[t].job.parent.None? ==>
      var j := s.threads[t].job; j.r in s.reqs && j.m.version != s.reqs[j.r].version && !s.reqs[j.r].nack
    ensures PushesOk(s)
  {
    hide Next;
    if acts != [] {
      var init, a := acts[..|acts| - 1], acts[|acts| - 1];
      var p :| Leads(cfg, Init(now), init, p) && Next(cfg, p, a, s);
      PushesWanted(cfg, now, init, p);
      PushesKept(cfg, p, a, s);
    }
  }
}
