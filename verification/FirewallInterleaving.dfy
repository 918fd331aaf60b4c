/** The queue, the worker and the sync at work on the cloud: every API call and every cache
    write is a step of its own, and outsiders and restarts may come between any two. */
module FirewallInterleaving {
  import opened Prelude
  import opened Firewalls
  import opened FirewallRequests
  import opened FirewallControl
  import Runs = FirewallRuns
  import opened FirewallQueue

  /** `used` holds every ID the API ever assigned. */
  datatype World = World(queue: State, store: seq<Firewall>, used: set<string>)

  /** A step of the queue machine, with the API it meets; what is read and answered comes
      from the store and not from the event. */
  datatype Move = Act(event: Event, api: Api) | Outside(after: seq<Firewall>) | Restart(dirty: bool)

  function IdOf(fw: Option<Firewall>): string {
    if fw.Some? then fw.value.id else ""
  }

  /** What the API answers to the call that Set makes. */
  function Answer(store: seq<Firewall>, fwID: string, fr: FirewallRequest, api: Api): Result<Firewall> {
    if fwID != "" && (!api.updateWorks || ById(store, fwID).Some?) then
      if api.updateWorks then Ok(Rendered(fwID, api.echo(fr))) else Err(Failure)
    else if api.createWorks then Ok(Rendered(api.newID, api.echo(fr))) else Err(Failure)
  }

  ghost function CallApi(c: Config, x: World, api: Api): World
    requires x.queue.worker.Differs?
  {
    var fr, fwID := x.queue.worker.fr, IdOf(x.queue.worker.fw);
    var store := Set(EMPTY_CACHE, x.store, fwID, fr, api).store;
    World(Next(c, x.queue, CallSet(Answer(x.store, fwID, fr, api))), store, x.used + Runs.Ids(store))
  }

  ghost function Step(c: Config, x: World, m: Move): World {
    match m
    case Outside(after) => World(x.queue, after, x.used + Runs.Ids(after))
    case Restart(dirty) =>
      x.(queue := State(x.queue.services, x.queue.undelivered, dirty, false, false, EMPTY_CACHE, Waiting, Resting, false))
    case Act(e, api) =>
      match e
      case ReadApi(_) => x.(queue := Next(c, x.queue, ReadApi(Read(x.queue.cache, x.store, c.name, api))))
      case SyncReads(_) =>
        var r := Read(x.queue.cache, x.store, c.name, api);
        if r.Ok? then x.(queue := Next(c, x.queue, SyncReads(r.value))) else x
      case CallSet(_) => if x.queue.worker.Differs? then CallApi(c, x, api) else x
      case _ => x.(queue := Next(c, x.queue, e))
  }

  ghost function WorldRun(c: Config, x: World, moves: seq<Move>): World {
    if moves == [] then x else Step(c, WorldRun(c, x, moves[..|moves| - 1]), moves[|moves| - 1])
  }

  /** The hypotheses of serialized runs: an API that echoes and assigns fresh IDs, outsiders
      who edit and delete but neither create nor rename under the worker name. */
  ghost predicate Possible(c: Config, x: World, m: Move) {
    match m
    case Act(_, api) => Runs.Echoes(api) && api.newID !in x.used && api.newID != ""
    case Outside(after) => Runs.Allowed(c.name, Runs.State(x.store, EMPTY_CACHE, x.used), Runs.Outside(after))
    case Restart(_) => true
  }

  // ----- what the store and a view of it have in common -----

  /** The serialized invariant, for a cache of one's choice. */
  ghost predicate Holds(c: Config, x: World, cache: Cache) {
    Runs.Inv(c.name, Runs.State(x.store, cache, x.used))
  }

  /** `fw` is a true view of the store: there is at most one firewall of the name, and it
      has the ID of `fw`. */
  ghost predicate Sound(c: Config, x: World, fw: Option<Firewall>) {
    Holds(c, x, Cache(fw, true))
  }

  /** The ID of `fw` is none that has gone to a firewall of another name. */
  ghost predicate Plausible(c: Config, x: World, fw: Option<Firewall>) {
    fw.Some? ==> fw.value.id in x.used && forall g :: g in x.store && g.id == fw.value.id ==> g.name == c.name
  }

  /** Some firewall of the name exists that `fw` does not point to. */
  ghost predicate Misses(c: Config, x: World, fw: Option<Firewall>) {
    exists g :: g in x.store && g.name == c.name && (fw.None? || fw.value.id != g.id)
  }

  lemma SoundIff(c: Config, x: World, fw: Option<Firewall>)
    requires Holds(c, x, EMPTY_CACHE) && Plausible(c, x, fw)
    ensures Sound(c, x, fw) <==> !Misses(c, x, fw)
  {
  }

  lemma SoundPlausible(c: Config, x: World, fw: Option<Firewall>)
    requires Sound(c, x, fw)
    ensures Plausible(c, x, fw) && Holds(c, x, EMPTY_CACHE) && !Misses(c, x, fw)
  {
  }

  /** Whatever cache one reads through, what the API returns is sound. */
  lemma ReadSound(c: Config, x: World, cache: Cache, api: Api)
    requires Holds(c, x, EMPTY_CACHE) && Plausible(c, x, cache.firewall) && Read(cache, x.store, c.name, api).Ok?
    ensures Sound(c, x, Read(cache, x.store, c.name, api).value)
  {
    var fw := Read(cache, x.store, c.name, api).value;
    if fw.Some? {
      var i :| 0 <= i < |x.store| && x.store[i] == fw.value;
      assert fw.value.name == c.name && fw.value.id in Runs.Ids(x.store);
      forall g | g in x.store ensures g.name == c.name <==> g.id == fw.value.id {
        var j :| 0 <= j < |x.store| && x.store[j] == g;
        assert i < j ==> x.store[i].id != x.store[j].id;
        assert j < i ==> x.store[j].id != x.store[i].id;
      }
    }
  }

  // ----- when a cache write does harm -----

  /** Writing `fw` leaves a cache that misses the firewall that exists: the one that is
      kept because it compares equal does, or `fw` itself. */
  ghost predicate Loses(c: Config, x: World, fw: Option<Firewall>) {
    var cache := x.queue.cache;
    if cache.isSet && FirewallsEqual(cache.firewall, fw) then Misses(c, x, cache.firewall) else Misses(c, x, fw)
  }

  /** A cache write re-establishes the invariant if and only if it loses no firewall. */
  lemma WriteHoldsIff(c: Config, x: World, fw: Option<Firewall>)
    requires Holds(c, x, EMPTY_CACHE) && Plausible(c, x, fw) && Plausible(c, x, x.queue.cache.firewall)
    requires !x.queue.cache.isSet ==> x.queue.cache.firewall.None?
    ensures Holds(c, x, UpdateCache(x.queue.cache, fw)) <==> !Loses(c, x, fw)
  {
    SoundIff(c, x, fw);
    SoundIff(c, x, x.queue.cache.firewall);
    assert UpdateCache(x.queue.cache, fw).isSet;
    if FirewallsEqual(x.queue.cache.firewall, fw) && !x.queue.cache.isSet {
      assert fw.None?;
    }
  }

  /** And if it loses one, uniqueness is lost with the next reconcile that has something to
      do: with its API calls working, it leaves two firewalls of the name if and only if the
      cache it works from misses the one that exists. */
  lemma LostMakesTwoIff(c: Config, x: World, cache: Cache, fr: FirewallRequest, api: Api)
    requires Holds(c, x, EMPTY_CACHE) && cache.isSet && Plausible(c, x, cache.firewall) && fr.name == c.name
    requires Runs.Echoes(api) && api.newID !in x.used && api.newID != "" && api.updateWorks && api.createWorks
    requires !FirewallRequestEqual(cache.firewall, fr)
    ensures Runs.AtMostOne(Reconcile(cache, x.store, c.name, Ok(fr), api).store, c.name) <==> !Misses(c, x, cache.firewall)
  {
    SoundIff(c, x, cache.firewall);
    if Misses(c, x, cache.firewall) {
      Runs.RenderedEqual(api.newID, fr, api);
      var g :| g in x.store && g.name == c.name && (cache.firewall.None? || cache.firewall.value.id != g.id);
      var i :| 0 <= i < |x.store| && x.store[i] == g;
      GoneIfMissed(c, x, cache.firewall);
      var store := Reconcile(cache, x.store, c.name, Ok(fr), api).store;
      assert store == x.store + [Rendered(api.newID, api.echo(fr))];
      assert store[i].name == c.name && store[|x.store|].name == c.name;
    } else {
      assert cache == Cache(cache.firewall, true);
      Runs.ReconcileKeepsInv(c.name, Runs.State(x.store, cache, x.used), Ok(fr), api);
    }
  }

  lemma GoneIfMissed(c: Config, x: World, fw: Option<Firewall>)
    requires Holds(c, x, EMPTY_CACHE) && Plausible(c, x, fw) && Misses(c, x, fw)
    ensures fw.Some? ==> ById(x.store, fw.value.id).None?
  {
    if fw.Some? {
      var g :| g in x.store && g.name == c.name && fw.value.id != g.id;
      var i :| 0 <= i < |x.store| && x.store[i] == g;
      forall j | 0 <= j < |x.store| ensures x.store[j].id != fw.value.id {
        assert x.store[j] in x.store;
        assert x.store[j].name == c.name ==> i == j;
      }
    }
  }

  // ----- the invariant -----

  /** What the worker holds in hand is sound, and what it is about to set differs from it. */
  ghost predicate WorkerInv(c: Config, x: World) {
    match x.queue.worker
    case Listed(fr) => fr.name == c.name
    case ApiRead(fr, fw) => fr.name == c.name && Sound(c, x, fw)
    case Fetched(fr, fw) => fr.name == c.name && Sound(c, x, fw)
    case Differs(fr, fw) => fr.name == c.name && Sound(c, x, fw) && !FirewallRequestEqual(fw, fr)
    case Stored(fr, current) => Sound(c, x, Some(current))
    case _ => true
  }

  /** The cache holds, except that it may lag behind while the answer to a Set is yet to be
      written to it. */
  ghost predicate CacheInv(c: Config, x: World) {
    && Plausible(c, x, x.queue.cache.firewall) && (!x.queue.cache.isSet ==> x.queue.cache.firewall.None?)
    && (!x.queue.worker.Stored? ==> Holds(c, x, x.queue.cache))
  }

  ghost predicate WorldInv(c: Config, x: World) {
    && Holds(c, x, EMPTY_CACHE) && WorkerInv(c, x) && CacheInv(c, x)
    && (x.queue.syncer.HasRead? ==> Plausible(c, x, x.queue.syncer.fw))
  }

  /** No cache write loses a firewall. A sync may write anything while the answer to a Set
      is yet to be written: that write decides. */
  ghost predicate Careful(c: Config, x: World, m: Move) {
    m.Act? ==>
      && (m.event.SyncWrites? && x.queue.syncer.HasRead? && !x.queue.worker.Stored? ==> !Loses(c, x, x.queue.syncer.fw))
      && (m.event.WriteCache? && x.queue.worker.Stored? ==> !Loses(c, x, Some(x.queue.worker.current)))
  }

  ghost predicate AllCareful(c: Config, x: World, moves: seq<Move>) {
    forall i :: 0 <= i < |moves| ==> Possible(c, WorldRun(c, x, moves[..i]), moves[i]) && Careful(c, WorldRun(c, x, moves[..i]), moves[i])
  }

  // ----- steps outside the store -----

  /** Steps that neither call the API nor write the cache. */
  predicate IsLocal(e: Event) {
    || e.ServiceChange? || e.Deliver? || e.TimerFires? || e.SyncAdds?
    || e.Take? || e.ListServices? || e.UseCache? || e.Compare? || e.Report? || e.Done?
  }

  lemma Reframe(c: Config, x: World, q: State)
    requires WorldInv(c, x) && q.cache == x.queue.cache && (q.syncer.HasRead? ==> q.syncer == x.queue.syncer)
    requires (x.queue.worker.Stored? ==> q.worker.Stored?) && (q.worker.Stored? ==> x.queue.worker.Stored?)
    requires WorkerInv(c, x.(queue := q))
    ensures WorldInv(c, x.(queue := q))
  {
  }

  lemma SameWorker(c: Config, x: World, q: State)
    requires WorkerInv(c, x) && q.worker == x.queue.worker
    ensures WorkerInv(c, x.(queue := q))
  {
  }

  lemma AroundWorker(c: Config, x: World, e: Event)
    requires WorldInv(c, x) && (e.ServiceChange? || e.Deliver? || e.TimerFires? || e.SyncAdds?)
    ensures WorldInv(c, x.(queue := Next(c, x.queue, e)))
  {
    SameWorker(c, x, Next(c, x.queue, e));
    Reframe(c, x, Next(c, x.queue, e));
  }

  lemma WorkerMoves(c: Config, x: World, e: Event)
    requires WorldInv(c, x) && (e.Take? || e.ListServices? || e.Report? || e.Done?)
    ensures WorldInv(c, x.(queue := Next(c, x.queue, e)))
  {
    var q := Next(c, x.queue, e);
    assert q.worker == x.queue.worker || q.worker.Took? || q.worker.Listed? || q.worker.Finished? || q.worker.Reported? || q.worker.Waiting?;
    if q.worker == x.queue.worker {
      SameWorker(c, x, q);
    }
    Reframe(c, x, q);
  }

  lemma WorkerDecides(c: Config, x: World, e: Event)
    requires WorldInv(c, x) && (e.UseCache? || e.Compare?)
    ensures WorldInv(c, x.(queue := Next(c, x.queue, e)))
  {
    var q := Next(c, x.queue, e);
    if e.UseCache? && x.queue.worker.Listed? && x.queue.cache.isSet {
      assert x.queue.cache == Cache(x.queue.cache.firewall, true);
    }
    assert WorkerInv(c, x.(queue := q));
    Reframe(c, x, q);
  }

  lemma LocalKeepsInv(c: Config, x: World, e: Event)
    requires WorldInv(c, x) && IsLocal(e)
    ensures WorldInv(c, x.(queue := Next(c, x.queue, e)))
  {
    if e.ServiceChange? || e.Deliver? || e.TimerFires? || e.SyncAdds? {
      AroundWorker(c, x, e);
    } else if e.UseCache? || e.Compare? {
      WorkerDecides(c, x, e);
    } else {
      WorkerMoves(c, x, e);
    }
  }

  lemma FillKeepsInv(c: Config, x: World)
    requires WorldInv(c, x)
    ensures WorldInv(c, x.(queue := Next(c, x.queue, FillCache)))
  {
    var q := x.queue;
    if q.worker.ApiRead? {
      SoundPlausible(c, x, q.worker.fw);
      WriteHoldsIff(c, x, q.worker.fw);
      if q.cache.isSet {
        assert q.cache == Cache(q.cache.firewall, true);
        SoundPlausible(c, x, q.cache.firewall);
      }
    }
  }

  lemma AnswerKeepsInv(c: Config, x: World)
    requires WorldInv(c, x) && (x.queue.worker.Stored? ==> !Loses(c, x, Some(x.queue.worker.current)))
    ensures WorldInv(c, x.(queue := Next(c, x.queue, WriteCache)))
  {
    if x.queue.worker.Stored? {
      SoundPlausible(c, x, Some(x.queue.worker.current));
      WriteHoldsIff(c, x, Some(x.queue.worker.current));
    }
  }

  lemma SyncWriteKeepsInv(c: Config, x: World)
    requires WorldInv(c, x)
    requires x.queue.syncer.HasRead? && !x.queue.worker.Stored? ==> !Loses(c, x, x.queue.syncer.fw)
    ensures WorldInv(c, x.(queue := Next(c, x.queue, SyncWrites)))
  {
    if x.queue.syncer.HasRead? {
      WriteHoldsIff(c, x, x.queue.syncer.fw);
    }
  }

  /** The condition on cache writes is exact: they keep the invariant if and only if they
      lose no firewall. */
  lemma CarefulIff(c: Config, x: World, e: Event, api: Api)
    requires WorldInv(c, x) && (e.SyncWrites? || e.WriteCache?)
    ensures WorldInv(c, x.(queue := Next(c, x.queue, e))) <==> Careful(c, x, Act(e, api))
  {
    if e.SyncWrites? && x.queue.syncer.HasRead? {
      WriteHoldsIff(c, x, x.queue.syncer.fw);
    } else if e.WriteCache? && x.queue.worker.Stored? {
      SoundPlausible(c, x, Some(x.queue.worker.current));
      WriteHoldsIff(c, x, Some(x.queue.worker.current));
    }
  }

  // ----- steps that meet the store -----

  lemma WorkerReads(c: Config, x: World, api: Api)
    requires WorldInv(c, x)
    ensures WorldInv(c, x.(queue := Next(c, x.queue, ReadApi(Read(x.queue.cache, x.store, c.name, api)))))
  {
    var r := Read(x.queue.cache, x.store, c.name, api);
    var q := Next(c, x.queue, ReadApi(r));
    if r.Ok? {
      ReadSound(c, x, x.queue.cache, api);
    }
    assert WorkerInv(c, x.(queue := q));
    Reframe(c, x, q);
  }

  lemma SyncerReads(c: Config, x: World, fw: Option<Firewall>)
    requires WorldInv(c, x) && Plausible(c, x, fw)
    ensures WorldInv(c, x.(queue := Next(c, x.queue, SyncReads(fw))))
  {
    var y := x.(queue := Next(c, x.queue, SyncReads(fw)));
    SameWorker(c, x, y.queue);
    assert Plausible(c, y, fw);
  }

  lemma ReadsKeepInv(c: Config, x: World, e: Event, api: Api)
    requires WorldInv(c, x) && (e.ReadApi? || e.SyncReads?)
    ensures WorldInv(c, Step(c, x, Act(e, api)))
  {
    var r := Read(x.queue.cache, x.store, c.name, api);
    if e.ReadApi? {
      WorkerReads(c, x, api);
    } else if r.Ok? {
      ReadSound(c, x, x.queue.cache, api);
      SoundPlausible(c, x, r.value);
      SyncerReads(c, x, r.value);
    }
  }

  lemma OutsideKeepsSound(c: Config, x: World, after: seq<Firewall>, cache: Cache)
    requires Possible(c, x, Outside(after)) && Holds(c, x, cache)
    ensures Holds(c, Step(c, x, Outside(after)), cache)
  {
    Runs.OutsideKeepsInv(c.name, Runs.State(x.store, cache, x.used), after);
  }

  lemma OutsideKeepsPlausible(c: Config, x: World, after: seq<Firewall>, fw: Option<Firewall>)
    requires Possible(c, x, Outside(after)) && Plausible(c, x, fw)
    ensures Plausible(c, Step(c, x, Outside(after)), fw)
  {
  }

  lemma OutsideKeepsInv(c: Config, x: World, after: seq<Firewall>)
    requires WorldInv(c, x) && Possible(c, x, Outside(after))
    ensures WorldInv(c, Step(c, x, Outside(after)))
  {
    var q := x.queue;
    OutsideKeepsSound(c, x, after, EMPTY_CACHE);
    OutsideKeepsPlausible(c, x, after, q.cache.firewall);
    if !q.worker.Stored? {
      OutsideKeepsSound(c, x, after, q.cache);
    }
    if q.syncer.HasRead? {
      OutsideKeepsPlausible(c, x, after, q.syncer.fw);
    }
    match q.worker
    case ApiRead(_, fw) => OutsideKeepsSound(c, x, after, Cache(fw, true));
    case Fetched(_, fw) => OutsideKeepsSound(c, x, after, Cache(fw, true));
    case Differs(_, fw) => OutsideKeepsSound(c, x, after, Cache(fw, true));
    case Stored(_, current) => OutsideKeepsSound(c, x, after, Cache(Some(current), true));
    case _ =>
  }

  // ----- the Set call -----

  lemma AnswerIsSet(cache: Cache, store: seq<Firewall>, fwID: string, fr: FirewallRequest, api: Api)
    requires Runs.Echoes(api)
    ensures var r := Set(cache, store, fwID, fr, api); var answer := Answer(store, fwID, fr, api);
      && (r.err.None? <==> answer.Ok?)
      && r.cache == (if answer.Ok? then UpdateCache(cache, Some(answer.value)) else cache)
      && (answer.Ok? ==> FirewallRequestEqual(Some(answer.value), fr))
      && r.store == Set(EMPTY_CACHE, store, fwID, fr, api).store && (answer.Err? ==> r.store == store)
  {
    Runs.RenderedEqual(fwID, fr, api);
    Runs.RenderedEqual(api.newID, fr, api);
  }

  /** Every firewall was there before under its name, or has the new ID. */
  lemma SetDescends(c: Config, x: World, fw: Option<Firewall>, fr: FirewallRequest, api: Api, f: Firewall)
    requires Sound(c, x, fw) && Runs.Echoes(api) && fr.name == c.name
    requires f in Set(EMPTY_CACHE, x.store, IdOf(fw), fr, api).store
    ensures (exists g :: g in x.store && g.id == f.id && g.name == f.name) || f.id == api.newID
  {
    var fwID := IdOf(fw);
    var after := Set(EMPTY_CACHE, x.store, fwID, fr, api).store;
    var i :| 0 <= i < |after| && after[i] == f;
    Runs.RenderedEqual(fwID, fr, api);
    if i < |x.store| {
      assert x.store[i] in x.store && x.store[i].id == f.id;
    }
  }

  lemma SetKeepsPlausible(c: Config, x: World, fw: Option<Firewall>, fr: FirewallRequest, api: Api, other: Option<Firewall>)
    requires Sound(c, x, fw) && Runs.Echoes(api) && fr.name == c.name && api.newID !in x.used && Plausible(c, x, other)
    ensures var store := Set(EMPTY_CACHE, x.store, IdOf(fw), fr, api).store;
            Plausible(c, World(x.queue, store, x.used + Runs.Ids(store)), other)
  {
    if other.Some? {
      forall f | f in Set(EMPTY_CACHE, x.store, IdOf(fw), fr, api).store && f.id == other.value.id ensures f.name == c.name {
        SetDescends(c, x, fw, fr, api, f);
      }
    }
  }

  lemma SetSound(c: Config, x: World, fw: Option<Firewall>, fr: FirewallRequest, api: Api)
    requires Sound(c, x, fw) && !FirewallRequestEqual(fw, fr) && fr.name == c.name
    requires Runs.Echoes(api) && api.newID !in x.used && api.newID != "" && Answer(x.store, IdOf(fw), fr, api).Ok?
    ensures var store := Set(EMPTY_CACHE, x.store, IdOf(fw), fr, api).store;
            Sound(c, World(x.queue, store, x.used + Runs.Ids(store)), Some(Answer(x.store, IdOf(fw), fr, api).value))
  {
    var s := Runs.State(x.store, Cache(fw, true), x.used);
    Runs.SetKeepsInv(c.name, s, fr, api);
    AnswerIsSet(s.cache, x.store, IdOf(fw), fr, api);
    Runs.EqualityOfFirewalls(fw, Some(Answer(x.store, IdOf(fw), fr, api).value), fr);
  }

  lemma CallShape(c: Config, x: World, api: Api)
    requires x.queue.worker.Differs? && Runs.Echoes(api) && Answer(x.store, IdOf(x.queue.worker.fw), x.queue.worker.fr, api).Ok?
    ensures var fr, fwID := x.queue.worker.fr, IdOf(x.queue.worker.fw);
            var store := Set(EMPTY_CACHE, x.store, fwID, fr, api).store;
      && CallApi(c, x, api)
         == World(x.queue.(worker := Stored(fr, Answer(x.store, fwID, fr, api).value)), store, x.used + Runs.Ids(store))
      && FirewallRequestEqual(Some(Answer(x.store, fwID, fr, api).value), fr)
  {
    AnswerIsSet(EMPTY_CACHE, x.store, IdOf(x.queue.worker.fw), x.queue.worker.fr, api);
  }

  lemma CallSucceeds(c: Config, x: World, api: Api)
    requires WorldInv(c, x) && x.queue.worker.Differs? && Runs.Echoes(api) && api.newID !in x.used && api.newID != ""
    requires Answer(x.store, IdOf(x.queue.worker.fw), x.queue.worker.fr, api).Ok?
    ensures WorldInv(c, CallApi(c, x, api))
  {
    var q, fr, fw, y := x.queue, x.queue.worker.fr, x.queue.worker.fw, CallApi(c, x, api);
    CallShape(c, x, api);
    SetSound(c, x, fw, fr, api);
    SetKeepsPlausible(c, x, fw, fr, api, q.cache.firewall);
    if q.syncer.HasRead? {
      SetKeepsPlausible(c, x, fw, fr, api, q.syncer.fw);
    }
    SetWorldInv(c, y, q);
  }

  lemma SetWorldInv(c: Config, y: World, q: State)
    requires y.queue.worker.Stored? && y.queue == q.(worker := y.queue.worker) && Sound(c, y, Some(y.queue.worker.current))
    requires Plausible(c, y, q.cache.firewall) && (!q.cache.isSet ==> q.cache.firewall.None?)
    requires q.syncer.HasRead? ==> Plausible(c, y, q.syncer.fw)
    ensures WorldInv(c, y)
  {
    SoundPlausible(c, y, Some(y.queue.worker.current));
  }

  lemma FailedShape(c: Config, x: World, api: Api)
    requires Holds(c, x, EMPTY_CACHE) && x.queue.worker.Differs? && Runs.Echoes(api)
    requires Answer(x.store, IdOf(x.queue.worker.fw), x.queue.worker.fr, api).Err?
    ensures CallApi(c, x, api) == x.(queue := x.queue.(worker := Finished(false)))
  {
    AnswerIsSet(EMPTY_CACHE, x.store, IdOf(x.queue.worker.fw), x.queue.worker.fr, api);
    assert x.used + Runs.Ids(x.store) == x.used;
  }

  lemma CallFails(c: Config, x: World, api: Api)
    requires WorldInv(c, x) && x.queue.worker.Differs? && Runs.Echoes(api)
    requires Answer(x.store, IdOf(x.queue.worker.fw), x.queue.worker.fr, api).Err?
    ensures WorldInv(c, CallApi(c, x, api))
  {
    FailedShape(c, x, api);
    Reframe(c, x, x.queue.(worker := Finished(false)));
  }

  lemma CallKeepsInv(c: Config, x: World, api: Api)
    requires WorldInv(c, x) && x.queue.worker.Differs? && Runs.Echoes(api) && api.newID !in x.used && api.newID != ""
    ensures WorldInv(c, CallApi(c, x, api))
  {
    if Answer(x.store, IdOf(x.queue.worker.fw), x.queue.worker.fr, api).Ok? {
      CallSucceeds(c, x, api);
    } else {
      CallFails(c, x, api);
    }
  }

  // ----- runs -----

  lemma StepKeepsWorldInv(c: Config, x: World, m: Move)
    requires WorldInv(c, x) && Possible(c, x, m) && Careful(c, x, m)
    ensures WorldInv(c, Step(c, x, m))
  {
    match m
    case Outside(after) => OutsideKeepsInv(c, x, after);
    case Restart(_) =>
    case Act(e, api) =>
      if IsLocal(e) {
        LocalKeepsInv(c, x, e);
      } else if e.ReadApi? || e.SyncReads? {
        ReadsKeepInv(c, x, e, api);
      } else if e.FillCache? {
        FillKeepsInv(c, x);
      } else if e.WriteCache? {
        AnswerKeepsInv(c, x);
      } else if e.SyncWrites? {
        SyncWriteKeepsInv(c, x);
      } else if x.queue.worker.Differs? {
        CallKeepsInv(c, x, api);
      }
  }

  lemma FrontCareful(c: Config, x: World, moves: seq<Move>, n: nat)
    requires n < |moves| && AllCareful(c, x, moves)
    ensures AllCareful(c, x, moves[..n])
    ensures Possible(c, WorldRun(c, x, moves[..n]), moves[n]) && Careful(c, WorldRun(c, x, moves[..n]), moves[n])
  {
    forall i | 0 <= i < n
      ensures Possible(c, WorldRun(c, x, moves[..n][..i]), moves[..n][i]) && Careful(c, WorldRun(c, x, moves[..n][..i]), moves[..n][i])
    {
      assert moves[..n][..i] == moves[..i];
    }
  }

  lemma {:induction false} RunKeepsWorldInv(c: Config, x: World, moves: seq<Move>)
    requires WorldInv(c, x) && AllCareful(c, x, moves)
    ensures WorldInv(c, WorldRun(c, x, moves))
  {
    if moves != [] {
      var n := |moves| - 1;
      FrontCareful(c, x, moves, n);
      RunKeepsWorldInv(c, x, moves[..n]);
      StepKeepsWorldInv(c, WorldRun(c, x, moves[..n]), moves[n]);
    }
  }

  ghost predicate Started(c: Config, x: World) {
    && Initial(x.queue) && x.used == Runs.Ids(x.store)
    && Runs.AtMostOne(x.store, c.name) && Runs.UniqueIds(x.store) && "" !in x.used
  }

  /** For every interleaving of the single API calls and cache writes of worker and sync
      with service events, timers, restarts and outside changes: as long as no cache write
      loses a firewall there are never two of the worker name, and but for the moment
      between a Set's answer and its cache write, a cached ID is that of the one that exists. */
  lemma NeverTwoFirewalls(c: Config, x: World, moves: seq<Move>)
    requires Started(c, x) && AllCareful(c, x, moves)
    ensures var y := WorldRun(c, x, moves);
      && Runs.AtMostOne(y.store, c.name)
      && (!y.queue.worker.Stored? && y.queue.cache.isSet ==> !Misses(c, y, y.queue.cache.firewall))
  {
    RunKeepsWorldInv(c, x, moves);
    var y := WorldRun(c, x, moves);
    if !y.queue.worker.Stored? && y.queue.cache.isSet {
      assert y.queue.cache == Cache(y.queue.cache.firewall, true);
      SoundPlausible(c, y, y.queue.cache.firewall);
    }
  }

  // ----- no wake-up is lost here either -----

  lemma StepIsQueueStep(c: Config, x: World, m: Move)
    requires Inv(c, x.queue)
    ensures Inv(c, Step(c, x, m).queue)
  {
    match m
    case Outside(_) =>
    case Restart(_) =>
    case Act(e, api) =>
      var r := Read(x.queue.cache, x.store, c.name, api);
      match e
      case ReadApi(_) => FirewallQueue.StepKeepsInv(c, x.queue, ReadApi(r));
      case SyncReads(_) => if r.Ok? { FirewallQueue.StepKeepsInv(c, x.queue, SyncReads(r.value)); }
      case CallSet(_) =>
        if x.queue.worker.Differs? {
          FirewallQueue.StepKeepsInv(c, x.queue, CallSet(Answer(x.store, IdOf(x.queue.worker.fw), x.queue.worker.fr, api)));
        }
      case _ => FirewallQueue.StepKeepsInv(c, x.queue, e);
  }

  lemma {:induction false} RunKeepsQueueInv(c: Config, x: World, moves: seq<Move>)
    requires Inv(c, x.queue)
    ensures Inv(c, WorldRun(c, x, moves).queue)
  {
    if moves != [] {
      RunKeepsQueueInv(c, x, moves[..|moves| - 1]);
      StepIsQueueStep(c, WorldRun(c, x, moves[..|moves| - 1]), moves[|moves| - 1]);
    }
  }

  /** Both at once. When all is quiet after an item was processed, in any interleaving with
      outsiders and restarts: the cache equals the request for the current services, there is
      at most one firewall of the name, and if there is one, its ID is the cached one. */
  lemma QuietWorld(c: Config, x: World, moves: seq<Move>, r: Result<FirewallRequest>)
    requires Started(c, x) && AllCareful(c, x, moves) && Quiet(WorldRun(c, x, moves).queue)
    requires IsRequest(WorldRun(c, x, moves).queue.services, c.default, c.name, c.tags, r)
    ensures var y := WorldRun(c, x, moves);
      && r.Ok? && FirewallRequestEqual(y.queue.cache.firewall, r.value)
      && Runs.AtMostOne(y.store, c.name) && !Misses(c, y, y.queue.cache.firewall)
  {
    RunKeepsQueueInv(c, x, moves);
    RunKeepsWorldInv(c, x, moves);
    var y := WorldRun(c, x, moves);
    QuietIsUpToDate(c, y.queue, r);
    assert y.queue.cache == Cache(y.queue.cache.firewall, true);
    SoundPlausible(c, y, y.queue.cache.firewall);
  }
}
