/** A service is given one load balancer, and keeps it, although the patch that records
    its ID may be lost and a create may be reported as failed. */
module LoadBalancerIdentity {
  import opened Prelude
  import opened Seqs
  import opened Cluster
  import opened LoadBalancerRequests
  import opened LoadBalancerSync
  import opened LoadBalancerRuns

  /** The load balancers a lookup for the service may return. */
  predicate IsOurs(service: Service, lb: LB) {
    var id := Annotation(service, LoadBalancerID);
    if id != "" then lb.id == id else NamedFor(service, lb)
  }

  ghost predicate Found(service: Service, lbs: seq<LB>) {
    exists lb :: lb in lbs && IsOurs(service, lb)
  }

  /** Edits leave the UID and the name and ID annotations alone; outsiders do not delete
      the service's load balancer, nor rename it before its ID is recorded. */
  ghost predicate Allowed(w: World, e: Event) {
    match e
    case EditService(service) =>
      && service.uid == w.service.uid && Annotation(service, LoadBalancerName) == Annotation(w.service, LoadBalancerName)
      && Annotation(service, LoadBalancerID) == Annotation(w.service, LoadBalancerID)
    case Outside(lbs) =>
      forall lb :: lb in w.lbs && IsOurs(w.service, lb) ==>
        exists kept :: kept in lbs && kept.id == lb.id && (Annotation(w.service, LoadBalancerID) == "" ==> kept.name == lb.name)
    case _ => true
  }

  ghost predicate AllowedRun(cfg: Config, w: World, events: seq<Event>)
    decreases |events|
  {
    events == [] || (Allowed(w, events[0]) && AllowedRun(cfg, Step(cfg, w, events[0]), events[1..]))
  }

  /** One was created at most, and if one was, or an ID is recorded, lookups find it. */
  ghost predicate Inv(w: World) {
    w.created <= 1 && ((w.created == 1 || Annotation(w.service, LoadBalancerID) != "") ==> Found(w.service, w.lbs))
  }

  lemma NotFoundIff(service: Service, lbs: seq<LB>, env: Env)
    ensures Retrieve(service, lbs, env) == Err(NotFound) ==> !Found(service, lbs)
    ensures Retrieve(service, lbs, env).Ok? ==> Retrieve(service, lbs, env).value in lbs && IsOurs(service, Retrieve(service, lbs, env).value)
  {
  }

  lemma WrittenName(cfg: Config, service: Service, env: Env, lb: LB, x: LB)
    requires Wrote(cfg, service, env, lb, x)
    ensures x.id == lb.id && x.name == Name(service)
  {
    var lbType, network, service1, b :| WroteAs(cfg, service, env, lb, x, lbType, network, service1, b);
    BuildMeaning(cfg, service1, env.nodes, Elements(lb.dropletIDs), env.look, lbType, network);
  }

  lemma MadeName(cfg: Config, service: Service, env: Env, x: LB)
    requires Made(cfg, service, env, x)
    ensures x.name == Name(service)
  {
    var lbType, network := GetType(service, cfg.defaultType).value, GetNetwork(service).value;
    BuildMeaning(cfg, service, env.nodes, {}, env.look, lbType, network);
  }

  /** A load balancer of the service's name and the recorded ID is found, whether or not
      the record took. */
  lemma FoundAfter(service: Service, after: Service, lbs: seq<LB>, x: LB)
    requires Follows(service, x.id, after) && x in lbs && x.name == Name(service)
    requires Annotation(service, LoadBalancerID) == "" || x.id == Annotation(service, LoadBalancerID)
    ensures Found(after, lbs)
  {
    SameNames(service, after);
    assert IsOurs(after, x);
  }

  lemma SyncKeepsFound(cfg: Config, w: World, e: Event)
    requires (e.EnsureCall? || e.UpdateCall?) && Found(w.service, w.lbs)
    ensures var s := Sync(cfg, w, e); s.created == 0 && Found(s.service, s.lbs)
  {
    var x := SyncEffect(cfg, w, e);
    var s := Sync(cfg, w, e);
    var r := Retrieve(w.service, w.lbs, e.env);
    NotFoundIff(w.service, w.lbs, e.env);
    if r.Ok? {
      SameNames(w.service, s.service);
      if x.Some? {
        OverwriteMembers(w.lbs, r.value.id, x.value);
        WrittenName(cfg, w.service, e.env, r.value, x.value);
        FoundAfter(w.service, s.service, s.lbs, x.value);
      } else {
        assert IsOurs(s.service, r.value);
      }
    }
  }

  lemma SyncKeepsInv(cfg: Config, w: World, e: Event)
    requires (e.EnsureCall? || e.UpdateCall?) && Inv(w)
    ensures Inv(Step(cfg, w, e))
  {
    if Found(w.service, w.lbs) {
      SyncKeepsFound(cfg, w, e);
    } else {
      var x := SyncEffect(cfg, w, e);
      NotFoundIff(w.service, w.lbs, e.env);
      if x.Some? {
        MadeName(cfg, w.service, e.env, x.value);
        FoundAfter(w.service, Sync(cfg, w, e).service, w.lbs + [x.value], x.value);
      }
    }
  }

  lemma StepKeepsInv(cfg: Config, w: World, e: Event)
    requires Inv(w) && Allowed(w, e)
    ensures Inv(Step(cfg, w, e))
  {
    match e
    case EditService(service) =>
      SameNames(w.service, service);
    case Outside(lbs) =>
      if Found(w.service, w.lbs) {
        var lb :| lb in w.lbs && IsOurs(w.service, lb);
        var kept :| kept in lbs && kept.id == lb.id && (Annotation(w.service, LoadBalancerID) == "" ==> kept.name == lb.name);
        assert IsOurs(w.service, kept);
      }
    case _ =>
      SyncKeepsInv(cfg, w, e);
  }

  lemma {:induction false} RunKeepsInv(cfg: Config, w: World, events: seq<Event>)
    requires Inv(w) && AllowedRun(cfg, w, events)
    ensures Inv(Run(cfg, w, events))
    decreases |events|
  {
    if events != [] {
      StepKeepsInv(cfg, w, events[0]);
      RunKeepsInv(cfg, Step(cfg, w, events[0]), events[1..]);
    }
  }

  /** From a service without a recorded ID, every allowed run creates at most one load
      balancer, however many patches are lost and creates misreported. */
  lemma AtMostOneCreated(cfg: Config, service: Service, lbs: seq<LB>, events: seq<Event>)
    requires Annotation(service, LoadBalancerID) == "" && AllowedRun(cfg, World(service, lbs, 0), events)
    ensures Run(cfg, World(service, lbs, 0), events).created <= 1
  {
    RunKeepsInv(cfg, World(service, lbs, 0), events);
  }

  lemma StepKeepsIdentity(cfg: Config, w: World, e: Event)
    requires Inv(w) && Allowed(w, e) && Annotation(w.service, LoadBalancerID) != ""
    ensures Annotation(Step(cfg, w, e).service, LoadBalancerID) == Annotation(w.service, LoadBalancerID)
    ensures Step(cfg, w, e).created == w.created
  {
    if e.EnsureCall? || e.UpdateCall? {
      var x := SyncEffect(cfg, w, e);
      NotFoundIff(w.service, w.lbs, e.env);
    }
  }

  lemma {:induction false} RunKeepsIdentity(cfg: Config, w: World, events: seq<Event>)
    requires Inv(w) && AllowedRun(cfg, w, events) && Annotation(w.service, LoadBalancerID) != ""
    ensures Annotation(Run(cfg, w, events).service, LoadBalancerID) == Annotation(w.service, LoadBalancerID)
    ensures Run(cfg, w, events).created == w.created
    decreases |events|
  {
    if events != [] {
      StepKeepsInv(cfg, w, events[0]);
      StepKeepsIdentity(cfg, w, events[0]);
      RunKeepsIdentity(cfg, Step(cfg, w, events[0]), events[1..]);
    }
  }

  /** Once an ID is recorded it stays, nothing more is created, and every lookup that
      reaches the API returns the load balancer with that ID, whatever it is named by then. */
  lemma SameLoadBalancerForever(cfg: Config, w: World, events: seq<Event>, env: Env)
    requires Inv(w) && AllowedRun(cfg, w, events) && Annotation(w.service, LoadBalancerID) != "" && env.getWorks
    ensures var after := Run(cfg, w, events); var r := Retrieve(after.service, after.lbs, env);
            r.Ok? && r.value.id == Annotation(w.service, LoadBalancerID) && after.created == w.created
  {
    RunKeepsInv(cfg, w, events);
    RunKeepsIdentity(cfg, w, events);
    var after := Run(cfg, w, events);
    NotFoundIff(after.service, after.lbs, env);
  }
}
