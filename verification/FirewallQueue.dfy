/** The work queue between service events, the periodic sync and the single worker,
    interleaved step by step: no change is ever lost. */
module FirewallQueue {
  import opened Prelude
  import opened Cluster
  import opened Firewalls
  import opened FirewallRequests
  import opened FirewallMeaning
  import opened FirewallControl

  datatype Config = Config(name: string, tags: seq<string>, default: LBType)

  // ----- state -----

  /** Where the worker is in processNextItem and ensureReconciledFirewall. */
  datatype Worker =
    | Waiting
    | Took
    | Listed(fr: FirewallRequest)
    | ApiRead(fr: FirewallRequest, fw: Option<Firewall>)
    | Fetched(fr: FirewallRequest, fw: Option<Firewall>)
    | Differs(fr: FirewallRequest, fw: Option<Firewall>)
    | Stored(fr: FirewallRequest, current: Firewall)
    | Finished(ok: bool)
    | Reported(ok: bool)

  /** Where the periodic sync is: its API read, its cache write and its queue add are
      separate steps. */
  datatype Syncer = Resting | HasRead(fw: Option<Firewall>) | Wrote

  /** The queue holds one key. `dirty` and not `processing` is "queued"; `delayed` is a
      rate-limited add whose timer has not fired. `undelivered` counts service changes
      the lister shows but whose event handler has not run. */
  datatype State = State(services: seq<Service>, undelivered: nat, dirty: bool, processing: bool, delayed: bool,
                         cache: Cache, worker: Worker, syncer: Syncer, processed: bool)

  datatype Event =
    | ServiceChange(services: seq<Service>)
    | Deliver
    | TimerFires
    | Take
    | ListServices(request: Result<FirewallRequest>)
    | UseCache
    | ReadApi(reply: Result<Option<Firewall>>)
    | FillCache
    | Compare
    | CallSet(answer: Result<Firewall>)
    | WriteCache
    | Report
    | Done
    | SyncReads(fw: Option<Firewall>)
    | SyncWrites
    | SyncAdds

  ghost predicate Initial(s: State) {
    !s.processing && s.cache == EMPTY_CACHE && s.worker == Waiting && s.syncer == Resting && !s.processed
  }

  /** One step; an event that is not enabled changes nothing. */
  ghost function Next(c: Config, s: State, e: Event): State {
    match e
    case ServiceChange(services) => s.(services := services, undelivered := s.undelivered + 1)
    case Deliver => if s.undelivered > 0 then s.(undelivered := s.undelivered - 1, dirty := true) else s
    case TimerFires => if s.delayed then s.(delayed := false, dirty := true) else s
    case Take =>
      if s.worker.Waiting? && s.dirty && !s.processing then s.(dirty := false, processing := true, worker := Took) else s
    case ListServices(request) =>
      if s.worker.Took? && IsRequest(s.services, c.default, c.name, c.tags, request)
      then s.(worker := if request.Ok? then Listed(request.value) else Finished(false)) else s
    case UseCache =>
      if s.worker.Listed? && s.cache.isSet then s.(worker := Fetched(s.worker.fr, s.cache.firewall)) else s
    case ReadApi(reply) =>
      if s.worker.Listed? && !s.cache.isSet
      then s.(worker := if reply.Ok? then ApiRead(s.worker.fr, reply.value) else Finished(false)) else s
    case FillCache =>
      if s.worker.ApiRead?
      then s.(cache := UpdateCache(s.cache, s.worker.fw), worker := Fetched(s.worker.fr, s.worker.fw)) else s
    case Compare =>
      if s.worker.Fetched?
      then s.(worker := if FirewallRequestEqual(s.worker.fw, s.worker.fr) then Finished(true) else Differs(s.worker.fr, s.worker.fw)) else s
    case CallSet(answer) =>
      if s.worker.Differs? && (answer.Ok? ==> FirewallRequestEqual(Some(answer.value), s.worker.fr))
      then s.(worker := if answer.Ok? then Stored(s.worker.fr, answer.value) else Finished(false)) else s
    case WriteCache =>
      if s.worker.Stored? then s.(cache := UpdateCache(s.cache, Some(s.worker.current)), worker := Finished(true)) else s
    case Report =>
      if s.worker.Finished? then s.(delayed := s.delayed || !s.worker.ok, worker := Reported(s.worker.ok)) else s
    case Done =>
      if s.worker.Reported? then s.(processing := false, worker := Waiting, processed := true) else s
    case SyncReads(fw) => if s.syncer.Resting? then s.(syncer := HasRead(fw)) else s
    case SyncWrites =>
      if s.syncer.HasRead? then s.(cache := UpdateCache(s.cache, s.syncer.fw), syncer := Wrote) else s
    case SyncAdds => if s.syncer.Wrote? then s.(syncer := Resting, dirty := true) else s
  }

  ghost function Run(c: Config, s: State, events: seq<Event>): State {
    if events == [] then s else Next(c, Run(c, s, events[..|events| - 1]), events[|events| - 1])
  }

  // ----- the invariant -----

  ghost predicate IsCurrent(c: Config, s: State, fr: FirewallRequest) {
    IsRequest(s.services, c.default, c.name, c.tags, Ok(fr))
  }

  /** The cache equals the request for the current services. */
  ghost predicate UpToDate(c: Config, s: State) {
    exists fr :: IsCurrent(c, s, fr) && FirewallRequestEqual(s.cache.firewall, fr)
  }

  /** The services changed behind the worker, and the queue knows or will be told. */
  ghost predicate ServicesMoved(s: State) {
    s.dirty || s.undelivered > 0
  }

  /** The sync wrote the cache behind the worker, and the queue knows or will be told. */
  ghost predicate CacheMoved(s: State) {
    s.dirty || s.syncer.Wrote?
  }

  ghost predicate Inv(c: Config, s: State) {
    && s.processing == !s.worker.Waiting?
    && match s.worker
       case Waiting => s.processed ==> UpToDate(c, s) || ServicesMoved(s) || CacheMoved(s) || s.delayed
       case Took => true
       case Listed(fr) => IsCurrent(c, s, fr) || ServicesMoved(s)
       case ApiRead(fr, fw) => IsCurrent(c, s, fr) || ServicesMoved(s)
       case Fetched(fr, fw) =>
         && (IsCurrent(c, s, fr) || ServicesMoved(s))
         && (FirewallsEqual(s.cache.firewall, fw) || CacheMoved(s))
       case Differs(fr, fw) => IsCurrent(c, s, fr) || ServicesMoved(s)
       case Stored(fr, current) => FirewallRequestEqual(Some(current), fr) && (IsCurrent(c, s, fr) || ServicesMoved(s))
       case Finished(ok) => ok ==> UpToDate(c, s) || ServicesMoved(s) || CacheMoved(s)
       case Reported(ok) => UpToDate(c, s) || ServicesMoved(s) || CacheMoved(s) || s.delayed
  }

  lemma UpdatedCacheEqual(cache: Cache, fw: Option<Firewall>)
    ensures FirewallsEqual(UpdateCache(cache, fw).firewall, fw)
  {
    Equivalence(OfFirewall(fw), OfFirewall(fw), None);
  }

  lemma EqualThroughCache(cached: Option<Firewall>, fw: Option<Firewall>, fr: FirewallRequest)
    requires FirewallsEqual(cached, fw) && FirewallRequestEqual(fw, fr)
    ensures FirewallRequestEqual(cached, fr)
  {
    Equivalence(OfFirewall(cached), OfFirewall(fw), Some(OfRequest(fr)));
  }

  lemma CompareKeepsInv(c: Config, s: State, e: Event)
    requires Inv(c, s) && e.Compare?
    ensures Inv(c, Next(c, s, e))
  {
    if s.worker.Fetched? && FirewallRequestEqual(s.worker.fw, s.worker.fr) {
      if FirewallsEqual(s.cache.firewall, s.worker.fw) {
        EqualThroughCache(s.cache.firewall, s.worker.fw, s.worker.fr);
      }
      assert IsCurrent(c, s, s.worker.fr) ==> IsCurrent(c, Next(c, s, e), s.worker.fr);
    }
  }

  lemma WrittenIsUpToDate(c: Config, s: State, fr: FirewallRequest, current: Firewall)
    requires FirewallRequestEqual(Some(current), fr) && s.cache.firewall.Some? && FirewallsEqual(s.cache.firewall, Some(current))
    ensures IsCurrent(c, s, fr) ==> UpToDate(c, s)
  {
    EqualThroughCache(s.cache.firewall, Some(current), fr);
  }

  lemma WriteKeepsInv(c: Config, s: State, e: Event)
    requires Inv(c, s) && e.WriteCache?
    ensures Inv(c, Next(c, s, e))
  {
    if s.worker.Stored? {
      var fr, current, cache := s.worker.fr, s.worker.current, UpdateCache(s.cache, Some(s.worker.current));
      var t := s.(cache := cache, worker := Finished(true));
      UpdatedCacheEqual(s.cache, Some(current));
      assert Next(c, s, e) == t;
      WrittenIsUpToDate(c, t, fr, current);
      SameView(c, s, t);
    }
  }

  lemma FetchKeepsInv(c: Config, s: State, e: Event)
    requires Inv(c, s) && (e.FillCache? || e.UseCache?)
    ensures Inv(c, Next(c, s, e))
  {
    if e.UseCache? && s.worker.Listed? {
      Equivalence(OfFirewall(s.cache.firewall), OfFirewall(s.cache.firewall), None);
    } else if e.FillCache? && s.worker.ApiRead? {
      UpdatedCacheEqual(s.cache, s.worker.fw);
    }
  }

  lemma SameView(c: Config, s: State, t: State)
    requires t.services == s.services
    ensures forall fr :: IsCurrent(c, t, fr) == IsCurrent(c, s, fr)
    ensures t.cache == s.cache ==> UpToDate(c, t) == UpToDate(c, s)
  {
  }

  ghost predicate Outer(e: Event) {
    e.ServiceChange? || e.Deliver? || e.TimerFires? || e.SyncReads? || e.SyncWrites? || e.SyncAdds?
  }

  lemma OuterKeepsInv(c: Config, s: State, e: Event)
    requires Inv(c, s) && Outer(e)
    ensures Inv(c, Next(c, s, e))
  {
    var t := Next(c, s, e);
    assert t.worker == s.worker;
    if t.services == s.services {
      SameView(c, s, t);
    }
  }

  lemma InnerKeepsInv(c: Config, s: State, e: Event)
    requires Inv(c, s) && !Outer(e) && !(e.FillCache? || e.UseCache? || e.Compare? || e.WriteCache?)
    ensures Inv(c, Next(c, s, e))
  {
    SameView(c, s, Next(c, s, e));
  }

  lemma StepKeepsInv(c: Config, s: State, e: Event)
    requires Inv(c, s)
    ensures Inv(c, Next(c, s, e))
  {
    if e.FillCache? || e.UseCache? {
      FetchKeepsInv(c, s, e);
    } else if e.Compare? {
      CompareKeepsInv(c, s, e);
    } else if e.WriteCache? {
      WriteKeepsInv(c, s, e);
    } else if Outer(e) {
      OuterKeepsInv(c, s, e);
    } else {
      InnerKeepsInv(c, s, e);
    }
  }

  lemma {:induction false} RunKeepsInv(c: Config, s: State, events: seq<Event>)
    requires Inv(c, s)
    ensures Inv(c, Run(c, s, events))
  {
    if events != [] {
      RunKeepsInv(c, s, events[..|events| - 1]);
      StepKeepsInv(c, Run(c, s, events[..|events| - 1]), events[|events| - 1]);
    }
  }

  /** An item was processed, and nothing is queued, processing, delayed or undelivered, nor
      is a sync between its cache write and its queue add. */
  ghost predicate Quiet(s: State) {
    s.processed && !s.dirty && !s.processing && !s.delayed && s.undelivered == 0 && !s.syncer.Wrote?
  }

  lemma QuietIsUpToDate(c: Config, s: State, r: Result<FirewallRequest>)
    requires Inv(c, s) && Quiet(s) && IsRequest(s.services, c.default, c.name, c.tags, r)
    ensures r.Ok? && FirewallRequestEqual(s.cache.firewall, r.value) && s.worker.Waiting?
  {
    var fr :| IsCurrent(c, s, fr) && FirewallRequestEqual(s.cache.firewall, fr);
    RequestIgnoresOrder(s.services, s.services, c.default, c.name, c.tags, Ok(fr), r);
    Equivalence(OfFirewall(s.cache.firewall), Some(OfRequest(fr)), Some(OfRequest(r.value)));
  }

  /** No wake-up is lost. In every interleaving, once an item was processed: if nothing
      is queued, processing, delayed or undelivered and no sync is between its cache
      write and its queue add, the cache equals the request for the current services. */
  lemma NoLostWakeup(c: Config, start: State, events: seq<Event>, r: Result<FirewallRequest>)
    requires Initial(start)
    requires IsRequest(Run(c, start, events).services, c.default, c.name, c.tags, r)
    ensures Quiet(Run(c, start, events)) ==> r.Ok? && FirewallRequestEqual(Run(c, start, events).cache.firewall, r.value)
  {
    RunKeepsInv(c, start, events);
    if Quiet(Run(c, start, events)) {
      QuietIsUpToDate(c, Run(c, start, events), r);
    }
  }
}
