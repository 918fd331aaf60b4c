/** Whole runs of the firewall controller: never two firewalls of the worker name,
    and one sync followed by one reconcile converges. */
module FirewallRuns {
  import opened Prelude
  import opened Cluster
  import opened Firewalls
  import opened FirewallRequests
  import opened FirewallMeaning
  import opened FirewallControl

  // ----- runs -----

  /** `used` holds every firewall ID that was ever assigned. */
  datatype State = State(store: seq<Firewall>, cache: Cache, used: set<string>)

  datatype Event =
    | Sync(api: Api)
    | Reconciliation(request: Result<FirewallRequest>, api: Api)
    | Restart
    | Outside(after: seq<Firewall>)

  ghost function Ids(store: seq<Firewall>): set<string> {
    set f | f in store :: f.id
  }

  ghost function Step(name: string, s: State, e: Event): State {
    match e
    case Sync(api) => s.(cache := Get(s.cache, s.store, name, api).1)
    case Reconciliation(request, api) =>
      var r := Reconcile(s.cache, s.store, name, request, api);
      State(r.store, r.cache, s.used + Ids(r.store))
    case Restart => s.(cache := EMPTY_CACHE)
    case Outside(after) => State(after, s.cache, s.used + Ids(after))
  }

  ghost function Run(name: string, s: State, events: seq<Event>): State {
    if events == [] then s else Step(name, Run(name, s, events[..|events| - 1]), events[|events| - 1])
  }

  /** The API stores what it was sent, up to what the comparison ignores. */
  ghost predicate Echoes(api: Api) {
    forall fr :: Equal(Some(OfRequest(api.echo(fr))), Some(OfRequest(fr)))
  }

  ghost predicate UniqueIds(store: seq<Firewall>) {
    forall i, j :: 0 <= i < j < |store| ==> store[i].id != store[j].id
  }

  /** The API echoes requests and assigns fresh IDs. Outsiders edit rules and tags and
      delete as they like; firewalls they create have fresh IDs and another name, and
      no firewall changes its name. */
  ghost predicate Allowed(name: string, s: State, e: Event) {
    match e
    case Sync(api) => true
    case Reconciliation(request, api) =>
      Echoes(api) && api.newID !in s.used && api.newID != "" && (request.Ok? ==> request.value.name == name)
    case Restart => true
    case Outside(after) =>
      && UniqueIds(after) && "" !in Ids(after)
      && forall f :: f in after ==>
           if f.id in s.used then ById(s.store, f.id).Some? && ById(s.store, f.id).value.name == f.name
           else f.name != name
  }

  ghost predicate AllAllowed(name: string, s: State, events: seq<Event>) {
    forall i :: 0 <= i < |events| ==> Allowed(name, Run(name, s, events[..i]), events[i])
  }

  // ----- the invariant -----

  ghost predicate AtMostOne(store: seq<Firewall>, name: string) {
    forall i, j :: 0 <= i < |store| && 0 <= j < |store| && store[i].name == name && store[j].name == name ==> i == j
  }

  ghost predicate Inv(name: string, s: State) {
    && AtMostOne(s.store, name)
    && UniqueIds(s.store) && Ids(s.store) <= s.used && "" !in s.used
    && (s.cache.firewall.Some? ==> CachedIdIsCurrent(name, s))
    && (s.cache.isSet && s.cache.firewall.None? ==> forall f :: f in s.store ==> f.name != name)
    && (!s.cache.isSet ==> s.cache.firewall.None?)
  }

  /** A cached ID is the ID of the firewall of that name, if one exists. */
  ghost predicate CachedIdIsCurrent(name: string, s: State)
    requires s.cache.firewall.Some?
  {
    var id := s.cache.firewall.value.id;
    id in s.used && forall f :: f in s.store ==> (f.name == name <==> f.id == id)
  }

  lemma EqualityOfFirewalls(f: Option<Firewall>, g: Option<Firewall>, fr: FirewallRequest)
    requires FirewallRequestEqual(g, fr)
    ensures FirewallRequestEqual(f, fr) <==> FirewallsEqual(f, g)
    ensures FirewallsEqual(g, f) <==> FirewallsEqual(f, g)
  {
    Equivalence(OfFirewall(f), OfFirewall(g), Some(OfRequest(fr)));
    Equivalence(OfFirewall(g), OfFirewall(f), Some(OfRequest(fr)));
    Equivalence(OfFirewall(f), Some(OfRequest(fr)), OfFirewall(g));
    Equivalence(OfFirewall(g), Some(OfRequest(fr)), OfFirewall(f));
  }

  lemma RenderedEqual(id: string, fr: FirewallRequest, api: Api)
    requires Echoes(api)
    ensures FirewallRequestEqual(Some(Rendered(id, api.echo(fr))), fr)
    ensures Rendered(id, api.echo(fr)).name == fr.name
  {
    assert Equal(Some(OfRequest(api.echo(fr))), Some(OfRequest(fr)));
    assert OfFirewall(Some(Rendered(id, api.echo(fr)))) == Some(OfRequest(api.echo(fr)));
  }

  lemma ReadKeepsInv(name: string, s: State, api: Api)
    requires Inv(name, s)
    ensures Inv(name, s.(cache := Get(s.cache, s.store, name, api).1))
    ensures Get(s.cache, s.store, name, api).0.Ok? ==>
              var fw := Get(s.cache, s.store, name, api).0.value;
              && Get(s.cache, s.store, name, api).1.isSet
              && FirewallsEqual(Get(s.cache, s.store, name, api).1.firewall, fw)
              && fw == ByName(s.store, name)
              && (fw.Some? ==> Get(s.cache, s.store, name, api).1.firewall.Some?
                               && Get(s.cache, s.store, name, api).1.firewall.value.id == fw.value.id)
  {
    var r := Read(s.cache, s.store, name, api);
    if r.Ok? {
      var fw := r.value;
      Equivalence(OfFirewall(fw), OfFirewall(fw), None);
      if fw.Some? {
        assert fw.value in s.store && fw.value.name == name;
        var i :| 0 <= i < |s.store| && s.store[i] == fw.value;
        var g := ByName(s.store, name);
        assert g.Some?;
        var j :| 0 <= j < |s.store| && s.store[j] == g.value;
        assert i == j;
        forall f | f in s.store ensures f.name == name <==> f.id == fw.value.id {
          var k :| 0 <= k < |s.store| && s.store[k] == f;
          assert k != i ==> s.store[k].id != s.store[i].id;
        }
      }
    }
  }

  /** Creating or overwriting keeps the invariant: the comparison being an equivalence,
      a re-created firewall never hides behind the stale ID of its predecessor. */
  lemma SetKeepsInv(name: string, s: State, fr: FirewallRequest, api: Api)
    requires Inv(name, s) && s.cache.isSet && fr.name == name
    requires Echoes(api) && api.newID !in s.used && api.newID != ""
    requires !FirewallRequestEqual(s.cache.firewall, fr)
    ensures var fwID := if s.cache.firewall.Some? then s.cache.firewall.value.id else "";
            var r := Set(s.cache, s.store, fwID, fr, api);
            && Inv(name, State(r.store, r.cache, s.used + Ids(r.store)))
            && (r.err.None? ==> Converged(name, r.store, fr) && FirewallRequestEqual(r.cache.firewall, fr))
  {
    var fwID := if s.cache.firewall.Some? then s.cache.firewall.value.id else "";
    var r := Set(s.cache, s.store, fwID, fr, api);
    if r.err.None? {
      var id := if fwID != "" && ById(s.store, fwID).Some? then fwID else api.newID;
      var stored := Rendered(id, api.echo(fr));
      RenderedEqual(id, fr, api);
      EqualityOfFirewalls(s.cache.firewall, Some(stored), fr);
      assert r.cache == Cache(Some(stored), true);
      if id == fwID {
        OverwriteConverges(name, s, id, api.echo(fr));
      } else {
        CreateConverges(name, s, stored);
      }
      assert stored in r.store;
    } else {
      assert s.used + Ids(s.store) == s.used;
    }
  }

  /** Exactly one firewall of the name, and it is the requested one. */
  ghost predicate Converged(name: string, store: seq<Firewall>, fr: FirewallRequest) {
    && AtMostOne(store, name)
    && exists f :: f in store && f.name == name && FirewallRequestEqual(Some(f), fr)
  }

  lemma OverwriteConverges(name: string, s: State, id: string, echo: FirewallRequest)
    requires Inv(name, s) && s.cache.firewall.Some? && s.cache.firewall.value.id == id
    requires ById(s.store, id).Some? && echo.name == name
    ensures var store := Overwrite(s.store, id, echo);
            && AtMostOne(store, name) && UniqueIds(store) && Ids(store) <= s.used
            && Rendered(id, echo) in store
            && forall f :: f in store ==> (f.name == name <==> f.id == id)
  {
    var store := Overwrite(s.store, id, echo);
    var i :| 0 <= i < |s.store| && s.store[i].id == id;
    assert store[i] == Rendered(id, echo);
    forall k | 0 <= k < |store|
      ensures store[k].id == s.store[k].id && store[k].name == s.store[k].name && store[k].id in s.used
    {
      assert s.store[k] in s.store;
    }
  }

  lemma CreateConverges(name: string, s: State, created: Firewall)
    requires Inv(name, s) && s.cache.isSet && created.name == name && created.id !in s.used
    requires s.cache.firewall.Some? ==> ById(s.store, s.cache.firewall.value.id).None?
    ensures var store := s.store + [created];
            && AtMostOne(store, name) && UniqueIds(store)
            && forall f :: f in store ==> (f.name == name <==> f.id == created.id)
  {
    forall f | f in s.store ensures f.name != name && f.id != created.id {
      assert f.id in Ids(s.store);
    }
  }

  lemma PreferKeepsInv(name: string, s: State, api: Api)
    requires Inv(name, s)
    ensures var (fw, cache1) := GetPreferFromCache(s.cache, s.store, name, api);
      && Inv(name, s.(cache := cache1))
      && (fw.Ok? ==>
            && cache1.isSet && FirewallsEqual(cache1.firewall, fw.value)
            && (if fw.value.Some? then fw.value.value.id else "") == (if cache1.firewall.Some? then cache1.firewall.value.id else ""))
  {
    ReadKeepsInv(name, s, api);
    Equivalence(OfFirewall(s.cache.firewall), OfFirewall(s.cache.firewall), None);
  }

  lemma ReconcileKeepsInv(name: string, s: State, request: Result<FirewallRequest>, api: Api)
    requires Inv(name, s) && Allowed(name, s, Reconciliation(request, api))
    ensures Inv(name, Step(name, s, Reconciliation(request, api)))
  {
    assert s.used + Ids(s.store) == s.used;
    if request.Ok? {
      PreferKeepsInv(name, s, api);
      var (fw, cache1) := GetPreferFromCache(s.cache, s.store, name, api);
      var s1 := s.(cache := cache1);
      if fw.Ok? && !FirewallRequestEqual(fw.value, request.value) {
        RequestSeesTheCache(fw.value, cache1.firewall, request.value);
        SetKeepsInv(name, s1, request.value, api);
      }
    }
  }

  lemma RequestSeesTheCache(fw: Option<Firewall>, cached: Option<Firewall>, fr: FirewallRequest)
    requires FirewallsEqual(cached, fw)
    ensures FirewallRequestEqual(cached, fr) <==> FirewallRequestEqual(fw, fr)
  {
    Equivalence(OfFirewall(cached), OfFirewall(fw), Some(OfRequest(fr)));
    Equivalence(OfFirewall(fw), OfFirewall(cached), Some(OfRequest(fr)));
  }

  lemma OutsideKeepsInv(name: string, s: State, after: seq<Firewall>)
    requires Inv(name, s) && Allowed(name, s, Outside(after))
    ensures Inv(name, Step(name, s, Outside(after)))
  {
    forall f | f in after && f.name == name
      ensures ById(s.store, f.id).Some? && ById(s.store, f.id).value.name == name
    {
    }
    forall i, j | 0 <= i < |after| && 0 <= j < |after| && after[i].name == name && after[j].name == name
      ensures i == j
    {
      var f, g := ById(s.store, after[i].id).value, ById(s.store, after[j].id).value;
      var k :| 0 <= k < |s.store| && s.store[k] == f;
      var l :| 0 <= l < |s.store| && s.store[l] == g;
      assert k == l;
    }
  }

  lemma StepKeepsInv(name: string, s: State, e: Event)
    requires Inv(name, s) && Allowed(name, s, e)
    ensures Inv(name, Step(name, s, e))
  {
    match e
    case Sync(api) => ReadKeepsInv(name, s, api);
    case Reconciliation(request, api) => ReconcileKeepsInv(name, s, request, api);
    case Restart =>
    case Outside(after) => OutsideKeepsInv(name, s, after);
  }

  /** Every run keeps the invariant. */
  lemma {:induction false} RunKeepsInv(name: string, s: State, events: seq<Event>)
    requires Inv(name, s) && AllAllowed(name, s, events)
    ensures Inv(name, Run(name, s, events))
  {
    if events != [] {
      var n := |events| - 1;
      assert forall i :: 0 <= i < n ==> events[..n][..i] == events[..i] && events[..n][i] == events[i];
      RunKeepsInv(name, s, events[..n]);
      StepKeepsInv(name, Run(name, s, events[..n]), events[n]);
    }
  }

  /** From a freshly started controller and at most one firewall of the worker name,
      no run ever leads to two, and a cached ID is always that of the one that exists. */
  lemma SerializedNeverTwo(name: string, store: seq<Firewall>, events: seq<Event>)
    requires AtMostOne(store, name) && UniqueIds(store) && "" !in Ids(store)
    requires AllAllowed(name, State(store, EMPTY_CACHE, Ids(store)), events)
    ensures var s := Run(name, State(store, EMPTY_CACHE, Ids(store)), events);
            && AtMostOne(s.store, name)
            && (s.cache.firewall.Some? ==>
                  forall f :: f in s.store ==> (f.name == name <==> f.id == s.cache.firewall.value.id))
  {
    RunKeepsInv(name, State(store, EMPTY_CACHE, Ids(store)), events);
  }

  // ----- convergence -----

  /** A successful sync and then a successful reconcile leave exactly one firewall of
      the name, equal to the request; a skipped reconcile changes nothing. */
  lemma SyncThenReconcileConverges(name: string, s: State, sync: Api, fr: FirewallRequest, api: Api)
    requires Inv(name, s) && Get(s.cache, s.store, name, sync).0.Ok?
    requires Allowed(name, Step(name, s, Sync(sync)), Reconciliation(Ok(fr), api))
    ensures var s1 := Step(name, s, Sync(sync));
            var r := Reconcile(s1.cache, s1.store, name, Ok(fr), api);
            && (r.outcome.Skipped? ==> r.store == s1.store && r.cache == s1.cache)
            && (!r.outcome.Failed? ==> Converged(name, r.store, fr) && r.cache.isSet && FirewallRequestEqual(r.cache.firewall, fr))
  {
    ReadKeepsInv(name, s, sync);
    var s1 := Step(name, s, Sync(sync));
    var fw := Get(s.cache, s.store, name, sync).0.value;
    if FirewallRequestEqual(s1.cache.firewall, fr) {
      RequestSeesTheCache(fw, s1.cache.firewall, fr);
      assert fw.Some? && fw.value in s.store && fw.value.name == name;
    } else {
      SetKeepsInv(name, s1, fr, api);
    }
  }

  /** Once converged, reconciling the same services again is skipped, in whatever order
      they are listed and whatever the API would answer. */
  lemma ConvergedIsStable(name: string, services: seq<Service>, others: seq<Service>, default: LBType, tags: seq<string>,
                          cache: Cache, store: seq<Firewall>, fr: FirewallRequest, again: Result<FirewallRequest>, api: Api)
    requires cache.isSet && FirewallRequestEqual(cache.firewall, fr)
    requires IsRequest(services, default, name, tags, Ok(fr)) && IsRequest(others, default, name, tags, again)
    requires multiset(services) == multiset(others)
    ensures Reconcile(cache, store, name, again, api) == Reconciled(Skipped, cache, store)
  {
    RequestIgnoresOrder(services, others, default, name, tags, Ok(fr), again);
    Equivalence(OfFirewall(cache.firewall), Some(OfRequest(fr)), Some(OfRequest(again.value)));
  }

  /** The steps have to be serialized: if a sync reads the API, a reconcile creates the
      firewall, and only then the sync writes what it read to the cache, the reconcile
      that follows creates a second firewall of the same name. */
  lemma StaleReadMakesTwo(name: string, fr: FirewallRequest, api: Api, later: Api)
    requires fr.name == name && Echoes(api) && Echoes(later) && api.newID != later.newID
    requires api.listWorks && api.createWorks && later.createWorks
    ensures var read := Read(EMPTY_CACHE, [], name, api);
            var created := Reconcile(EMPTY_CACHE, [], name, Ok(fr), api);
            && read.Ok? && created.outcome == Applied
            && var again := Reconcile(UpdateCache(created.cache, read.value), created.store, name, Ok(fr), later);
               again.outcome == Applied && !AtMostOne(again.store, name)
  {
    RenderedEqual(api.newID, fr, api);
    RenderedEqual(later.newID, fr, later);
    var store := [Rendered(api.newID, api.echo(fr)), Rendered(later.newID, later.echo(fr))];
    assert [] + [store[0]] + [store[1]] == store;
    assert !AtMostOne(store, name) by {
      assert store[0].name == name && store[1].name == name;
    }
  }
}
