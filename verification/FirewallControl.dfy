/** The firewall cache, the manager that reads and writes the cloud firewall through
    it, and the two operations of the controller: sync and reconcile. */
module FirewallControl {
  import opened Prelude
  import opened Seqs
  import opened Cluster
  import opened Firewalls
  import opened FirewallRequests

  // ----- state -----

  datatype Cache = Cache(firewall: Option<Firewall>, isSet: bool)

  const EMPTY_CACHE := Cache(None, false)

  /** The API's answers to the calls of one operation. A failed call has no effect;
      `echo` is how the API renders a request it stores, `newID` the ID it assigns. */
  datatype Api = Api(getWorks: bool, listWorks: bool, updateWorks: bool, createWorks: bool,
                     newID: string, echo: FirewallRequest -> FirewallRequest)

  // ----- the remote store, in listing order -----

  function ById(store: seq<Firewall>, id: string): (r: Option<Firewall>)
    ensures r.Some? ==> r.value in store && r.value.id == id
    ensures r.None? ==> forall f :: f in store ==> f.id != id
  {
    if store == [] then None
    else if store[0].id == id then Some(store[0])
    else ById(store[1..], id)
  }

  function ByName(store: seq<Firewall>, name: string): (r: Option<Firewall>)
    ensures r.Some? ==> r.value in store && r.value.name == name
    ensures r.None? ==> forall f :: f in store ==> f.name != name
  {
    if store == [] then None
    else if store[0].name == name then Some(store[0])
    else ByName(store[1..], name)
  }

  function Rendered(id: string, fr: FirewallRequest): Firewall {
    Firewall(id, fr.name, fr.inbound, fr.outbound, fr.tags)
  }

  /** Overwrites the firewall with that ID. */
  function Overwrite(store: seq<Firewall>, id: string, fr: FirewallRequest): (r: seq<Firewall>)
    ensures |r| == |store|
    ensures forall i :: 0 <= i < |store| ==> r[i] == if store[i].id == id then Rendered(id, fr) else store[i]
  {
    Map(store, (f: Firewall) => if f.id == id then Rendered(id, fr) else f)
  }

  // ----- operations -----

  /** updateCache: contents that compare equal keep the cached copy, ID included. */
  function UpdateCache(cache: Cache, fw: Option<Firewall>): Cache {
    if FirewallsEqual(cache.firewall, fw) then cache.(isSet := true) else Cache(fw, true)
  }

  /** The API reads of Get. */
  function Read(cache: Cache, store: seq<Firewall>, name: string, api: Api): Result<Option<Firewall>> {
    if cache.firewall.Some? && !api.getWorks then Err(Failure) else
    var byID := if cache.firewall.Some? then ById(store, cache.firewall.value.id) else None;
    if byID.Some? then Ok(byID)
    else if !api.listWorks then Err(Failure)
    else Ok(ByName(store, name))
  }

  /** Get */
  function Get(cache: Cache, store: seq<Firewall>, name: string, api: Api): (Result<Option<Firewall>>, Cache) {
    match Read(cache, store, name, api)
    case Err(e) => (Err(e), cache)
    case Ok(fw) => (Ok(fw), UpdateCache(cache, fw))
  }

  /** GetPreferFromCache */
  function GetPreferFromCache(cache: Cache, store: seq<Firewall>, name: string, api: Api): (Result<Option<Firewall>>, Cache) {
    if cache.isSet then (Ok(cache.firewall), cache) else Get(cache, store, name, api)
  }

  datatype SetResult = SetResult(err: Option<Error>, cache: Cache, store: seq<Firewall>)

  /** Set */
  function Set(cache: Cache, store: seq<Firewall>, fwID: string, fr: FirewallRequest, api: Api): SetResult {
    if fwID != "" && (!api.updateWorks || ById(store, fwID).Some?) then
      if !api.updateWorks then SetResult(Some(Failure), cache, store)
      else SetResult(None, UpdateCache(cache, Some(Rendered(fwID, api.echo(fr)))), Overwrite(store, fwID, api.echo(fr)))
    else if !api.createWorks then SetResult(Some(Failure), cache, store)
    else SetResult(None, UpdateCache(cache, Some(Rendered(api.newID, api.echo(fr)))), store + [Rendered(api.newID, api.echo(fr))])
  }

  datatype Outcome = Skipped | Applied | Failed(error: Error)

  datatype Reconciled = Reconciled(outcome: Outcome, cache: Cache, store: seq<Firewall>)

  /** ensureReconciledFirewall, from the request it built on. */
  function Reconcile(cache: Cache, store: seq<Firewall>, name: string, request: Result<FirewallRequest>, api: Api): Reconciled {
    if request.Err? then Reconciled(Failed(request.error), cache, store) else
    var (fw, cache1) := GetPreferFromCache(cache, store, name, api);
    if fw.Err? then Reconciled(Failed(fw.error), cache1, store)
    else if FirewallRequestEqual(fw.value, request.value) then Reconciled(Skipped, cache1, store)
    else
      var r := Set(cache1, store, if fw.value.Some? then fw.value.value.id else "", request.value, api);
      Reconciled(if r.err.Some? then Failed(r.err.value) else Applied, r.cache, r.store)
  }

  // ----- the objects -----

  class FirewallCache {
    var firewall: Option<Firewall>
    var isSet: bool

    function View(): Cache
      reads this
    {
      Cache(firewall, isSet)
    }

    constructor ()
      ensures View() == EMPTY_CACHE
    {
      firewall, isSet := None, false;
    }

    method Update(current: Option<Firewall>)
      modifies this
      ensures View() == UpdateCache(old(View()), current)
    {
      isSet := true;
      if !FirewallsEqual(firewall, current) {
        firewall := current;
      }
    }
  }

  class CloudFirewalls {
    var store: seq<Firewall>

    constructor (store: seq<Firewall>)
      ensures this.store == store
    {
      this.store := store;
    }
  }

  class FirewallManager {
    const cache: FirewallCache
    const cloud: CloudFirewalls
    const name: string
    const tags: seq<string>
    const defaultType: LBType

    constructor (cache: FirewallCache, cloud: CloudFirewalls, name: string, tags: seq<string>, defaultType: LBType)
      ensures this.cache == cache && this.cloud == cloud
      ensures this.name == name && this.tags == tags && this.defaultType == defaultType
    {
      this.cache, this.cloud, this.name, this.tags, this.defaultType := cache, cloud, name, tags, defaultType;
    }

    method GetFirewall(api: Api) returns (fw: Result<Option<Firewall>>)
      modifies cache
      ensures (fw, cache.View()) == old(Get(cache.View(), cloud.store, name, api))
    {
      var cached := cache.firewall;
      if cached.Some? {
        if !api.getWorks {
          return Err(Failure);
        }
        var byID := ById(cloud.store, cached.value.id);
        if byID.Some? {
          cache.Update(byID);
          return Ok(byID);
        }
      }
      if !api.listWorks {
        return Err(Failure);
      }
      var found := ByName(cloud.store, name);
      cache.Update(found);
      return Ok(found);
    }

    method GetPreferCached(api: Api) returns (fw: Result<Option<Firewall>>)
      modifies cache
      ensures (fw, cache.View()) == old(GetPreferFromCache(cache.View(), cloud.store, name, api))
    {
      if cache.isSet {
        return Ok(cache.firewall);
      }
      fw := GetFirewall(api);
    }

    method SetFirewall(fwID: string, fr: FirewallRequest, api: Api) returns (err: Option<Error>)
      modifies cache, cloud
      ensures SetResult(err, cache.View(), cloud.store) == old(Set(cache.View(), cloud.store, fwID, fr, api))
    {
      if fwID != "" {
        if !api.updateWorks {
          return Some(Failure);
        }
        if ById(cloud.store, fwID).Some? {
          cloud.store := Overwrite(cloud.store, fwID, api.echo(fr));
          cache.Update(Some(Rendered(fwID, api.echo(fr))));
          return None;
        }
      }
      if !api.createWorks {
        return Some(Failure);
      }
      var created := Rendered(api.newID, api.echo(fr));
      cloud.store := cloud.store + [created];
      cache.Update(Some(created));
      return None;
    }

    /** ensureReconciledFirewall on a service list. */
    method EnsureReconciled(services: seq<Service>, api: Api) returns (outcome: Outcome, ghost request: Result<FirewallRequest>)
      modifies cache, cloud
      ensures IsRequest(services, defaultType, name, tags, request)
      ensures Reconciled(outcome, cache.View(), cloud.store) == old(Reconcile(cache.View(), cloud.store, name, request, api))
    {
      var fr := CreateReconciledFirewallRequest(services, defaultType, name, tags);
      request := fr;
      if fr.Err? {
        return Failed(fr.error), request;
      }
      var fw := GetPreferCached(api);
      if fw.Err? {
        return Failed(fw.error), request;
      }
      if FirewallRequestEqual(fw.value, fr.value) {
        return Skipped, request;
      }
      var fwID := "";
      if fw.value.Some? {
        fwID := fw.value.value.id;
      }
      var err := SetFirewall(fwID, fr.value, api);
      if err.Some? {
        return Failed(err.value), request;
      }
      return Applied, request;
    }
  }

  /** The work queue for its one key: added while processing it only becomes dirty. */
  class WorkQueue {
    var dirty: bool
    var processing: bool
    var delayed: bool

    constructor ()
      ensures !dirty && !processing && !delayed
    {
      dirty, processing, delayed := false, false, false;
    }

    predicate Queued()
      reads this
    {
      dirty && !processing
    }

    method Add()
      modifies this`dirty
      ensures dirty
    {
      dirty := true;
    }

    method Take() returns (taken: bool)
      modifies this
      ensures taken == old(Queued()) && delayed == old(delayed) && (!taken ==> unchanged(this))
      ensures dirty == (old(dirty) && !taken) && processing == (old(processing) || taken)
    {
      taken := dirty && !processing;
      if taken {
        dirty, processing := false, true;
      }
    }

    method AddRateLimited()
      modifies this`delayed
      ensures delayed
    {
      delayed := true;
    }

    method Done()
      modifies this`processing
      ensures !processing && Queued() == dirty
    {
      processing := false;
    }
  }

  class FirewallController {
    const manager: FirewallManager
    const queue: WorkQueue

    constructor (manager: FirewallManager, queue: WorkQueue)
      ensures this.manager == manager && this.queue == queue
    {
      this.manager, this.queue := manager, queue;
    }

    /** syncResource: a read that succeeded is followed by a queue add. */
    method SyncResource(api: Api) returns (err: Option<Error>)
      modifies manager.cache, queue
      ensures var (fw, cache) := old(Get(manager.cache.View(), manager.cloud.store, manager.name, api));
              && manager.cache.View() == cache
              && (err.None? <==> fw.Ok?)
              && queue.dirty == (old(queue.dirty) || fw.Ok?)
      ensures queue.processing == old(queue.processing) && queue.delayed == old(queue.delayed)
    {
      var fw := manager.GetFirewall(api);
      if fw.Err? {
        return Some(fw.error);
      }
      queue.Add();
      return None;
    }

    /** processNextItem: a failed item is re-added with a delay, and the key is released
        in every case. */
    method ProcessNextItem(services: seq<Service>, api: Api)
      returns (taken: bool, outcome: Outcome, ghost request: Result<FirewallRequest>)
      modifies manager.cache, manager.cloud, queue
      ensures taken == old(queue.Queued())
      ensures !taken ==> unchanged(manager.cache) && unchanged(manager.cloud) && unchanged(queue)
      ensures taken ==> IsRequest(services, manager.defaultType, manager.name, manager.tags, request)
      ensures taken ==> Reconciled(outcome, manager.cache.View(), manager.cloud.store)
                        == old(Reconcile(manager.cache.View(), manager.cloud.store, manager.name, request, api))
      ensures taken ==> !queue.dirty && !queue.processing && queue.delayed == (old(queue.delayed) || outcome.Failed?)
    {
      outcome, request := Skipped, Err(Failure);
      taken := queue.Take();
      if !taken {
        return;
      }
      outcome, request := manager.EnsureReconciled(services, api);
      if outcome.Failed? {
        queue.AddRateLimited();
      }
      queue.Done();
    }
  }
}
