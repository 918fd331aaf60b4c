/** Whole runs: any sequence of syncs under any node changes, failures, edits of the
    service and outside changes to the load balancers. */
module LoadBalancerRuns {
  import opened Prelude
  import opened Seqs
  import opened Cluster
  import opened AnnotationMeaning
  import opened Droplets
  import opened NodeAdmission
  import opened ForwardingRules
  import opened LoadBalancerRequests
  import opened LoadBalancerSync
  import opened CertificateTracking

  // ----- runs -----

  datatype World = World(service: Service, lbs: seq<LB>, created: nat)

  datatype Event = EnsureCall(env: Env) | UpdateCall(env: Env) | EditService(service: Service) | Outside(lbs: seq<LB>)

  ghost function Sync(cfg: Config, w: World, e: Event): Synced
    requires e.EnsureCall? || e.UpdateCall?
  {
    if e.EnsureCall? then Ensure(cfg, w.service, e.env, w.lbs) else Update(cfg, w.service, e.env, w.lbs)
  }

  ghost function Step(cfg: Config, w: World, e: Event): World {
    match e
    case EditService(service) => w.(service := service)
    case Outside(lbs) => w.(lbs := lbs)
    case _ => var s := Sync(cfg, w, e); World(s.service, s.lbs, w.created + s.created)
  }

  ghost function Run(cfg: Config, w: World, events: seq<Event>): World
    decreases |events|
  {
    if events == [] then w else Run(cfg, Step(cfg, w, events[0]), events[1..])
  }

  // ----- what one sync may do -----

  /** `x` is what an update of `lb` writes: built from `service1`, the annotated service. */
  ghost predicate WroteAs(cfg: Config, service: Service, env: Env, lb: LB, x: LB, lbType: LBType, network: Network, service1: Service, b: Build) {
    && Asks(cfg, AnnotateWith(service, lb), lbType, network) && Asks(cfg, service1, lbType, network) && Name(service1) == Name(service)
    && BuildRequest(cfg, service1, env.nodes, Elements(lb.dropletIDs), env.look) == Ok(b)
    && x == Applied(lb, b.request, env.status)
  }

  ghost predicate Wrote(cfg: Config, service: Service, env: Env, lb: LB, x: LB) {
    exists lbType, network, service1, b :: WroteAs(cfg, service, env, lb, x, lbType, network, service1, b)
  }

  /** `x` is what a create makes. */
  ghost predicate Made(cfg: Config, service: Service, env: Env, x: LB) {
    var b := BuildRequest(cfg, service, env.nodes, {}, env.look);
    b.Ok? && x.name == b.value.request.name && x.dropletIDs == b.value.request.dropletIDs && !env.create.CreateFails? && x.id == env.create.lb.id
  }

  /** Nothing but the ID, type and certificate annotations differs, and the ID annotation
      is as before or the given one. */
  ghost predicate Follows(service: Service, id: string, after: Service) {
    && after == service.(annotations := after.annotations)
    && (forall key :: key != LoadBalancerID && key != LoadBalancerType && key != CertificateID ==> Annotation(after, key) == Annotation(service, key))
    && (Annotation(after, LoadBalancerID) == Annotation(service, LoadBalancerID) || Annotation(after, LoadBalancerID) == id)
  }

  /** The effect of a sync that leaves `after` and `store`, where `x` is what it wrote. */
  ghost predicate Effect(cfg: Config, service: Service, env: Env, lbs: seq<LB>, x: Option<LB>, after: Service, store: seq<LB>, created: nat) {
    match Retrieve(service, lbs, env)
    case Ok(lb) =>
      && created == 0 && Follows(service, lb.id, after)
      && (if x.None? then store == lbs else store == Overwrite(lbs, lb.id, x.value) && Wrote(cfg, service, env, lb, x.value))
    case Err(e) =>
      if x.None? then created == 0 && after == service && store == lbs
      else e == NotFound && created == 1 && Follows(service, x.value.id, after) && store == lbs + [x.value] && Made(cfg, service, env, x.value)
  }

  /** An update edits the certificate annotation at most. */
  lemma UpdateLBService(cfg: Config, lb: LB, service: Service, env: Env, lbs: seq<LB>)
    ensures var after := UpdateLB(cfg, lb, service, env, lbs).service;
      && after == service.(annotations := after.annotations)
      && forall key :: key != CertificateID ==> Annotation(after, key) == Annotation(service, key)
  {
    var cert := FindCertificateID(service, env.look.certs);
    if cert.Ok? && RecordCert(service, CertificateOf(lb.rules), cert.value, env.look.certs).Ok? {
      RecordedExactly(service, CertificateOf(lb.rules), cert.value, env.look.certs);
    }
  }

  lemma UpdateLBFails(cfg: Config, lb: LB, service: Service, env: Env, lbs: seq<LB>)
    requires UpdateLB(cfg, lb, service, env, lbs).result.Err?
    ensures UpdateLB(cfg, lb, service, env, lbs).lbs == lbs
  {
  }

  lemma SameNames(service: Service, after: Service)
    requires after.uid == service.uid && Annotation(after, LoadBalancerName) == Annotation(service, LoadBalancerName)
    ensures Name(after) == Name(service) && forall lb :: NamedFor(after, lb) <==> NamedFor(service, lb)
  {
  }

  lemma UpdateLBWrites(cfg: Config, lb: LB, service: Service, env: Env, lbs: seq<LB>)
    requires UpdateLB(cfg, lb, AnnotateWith(service, lb), env, lbs).result.Ok?
    ensures var u := UpdateLB(cfg, lb, AnnotateWith(service, lb), env, lbs);
            u.lbs == Overwrite(lbs, lb.id, u.result.value.0) && Wrote(cfg, service, env, lb, u.result.value.0)
  {
    var service1 := AnnotateWith(service, lb);
    UpdateLBService(cfg, lb, service1, env, lbs);
    var u := UpdateLB(cfg, lb, service1, env, lbs);
    SameNames(service, u.service);
    var lbType, network, b := UpdateMeaning(cfg, lb, service1, env, lbs);
    assert WroteAs(cfg, service, env, lb, u.result.value.0, lbType, network, u.service, b);
  }

  lemma UpdateLBFollows(cfg: Config, lb: LB, service: Service, env: Env, lbs: seq<LB>)
    ensures Follows(service, lb.id, UpdateLB(cfg, lb, AnnotateWith(service, lb), env, lbs).service)
  {
    UpdateLBService(cfg, lb, AnnotateWith(service, lb), env, lbs);
  }

  lemma UpdateLBEffect(cfg: Config, lb: LB, service: Service, env: Env, lbs: seq<LB>) returns (x: Option<LB>)
    ensures var u := UpdateLB(cfg, lb, AnnotateWith(service, lb), env, lbs);
      && Follows(service, lb.id, u.service)
      && (if x.None? then u.lbs == lbs else u.lbs == Overwrite(lbs, lb.id, x.value) && Wrote(cfg, service, env, lb, x.value))
  {
    var service1 := AnnotateWith(service, lb);
    UpdateLBFollows(cfg, lb, service, env, lbs);
    var r := UpdateLB(cfg, lb, service1, env, lbs).result;
    if r.Err? {
      UpdateLBFails(cfg, lb, service1, env, lbs);
      x := None;
    } else {
      UpdateLBWrites(cfg, lb, service, env, lbs);
      x := Some(r.value.0);
    }
  }

  lemma UpdateBodyEffect(cfg: Config, service: Service, env: Env, lbs: seq<LB>) returns (x: Option<LB>)
    ensures var b := UpdateBody(cfg, service, env, lbs); Effect(cfg, service, env, lbs, x, b.service, b.lbs, b.created)
  {
    x := None;
    var r := Retrieve(service, lbs, env);
    if r.Ok? && PrepareNodes(cfg, AnnotateWith(service, r.value), env.nodes).Ok? {
      x := UpdateLBEffect(cfg, r.value, service, env, lbs);
    }
  }

  lemma ExistingEffect(cfg: Config, lb: LB, service: Service, pending: seq<Node>, env: Env, lbs: seq<LB>) returns (x: Option<LB>)
    ensures var b := EnsureExisting(cfg, lb, AnnotateWith(service, lb), pending, env, lbs);
      && Follows(service, lb.id, b.service) && b.created == 0
      && (if x.None? then b.lbs == lbs else b.lbs == Overwrite(lbs, lb.id, x.value) && Wrote(cfg, service, env, lb, x.value))
  {
    x := None;
    if BuildRequest(cfg, AnnotateWith(service, lb), env.nodes, Elements(lb.dropletIDs), env.look).Ok? {
      x := UpdateLBEffect(cfg, lb, service, env, lbs);
    }
  }

  lemma EnsureBodyEffect(cfg: Config, service: Service, env: Env, lbs: seq<LB>) returns (x: Option<LB>)
    ensures var b := EnsureBody(cfg, service, env, lbs); Effect(cfg, service, env, lbs, x, b.service, b.lbs, b.created)
  {
    x := None;
    var r, pending := Retrieve(service, lbs, env), PrepareNodes(cfg, service, env.nodes);
    if pending.Ok? {
      if r.Ok? {
        x := ExistingEffect(cfg, r.value, service, pending.value, env, lbs);
      } else if r.error == NotFound {
        var b := BuildRequest(cfg, service, env.nodes, {}, env.look);
        x := if b.Ok? && !env.create.CreateFails? then Some(CreatedFrom(env.create.lb, b.value.request)) else None;
      }
    }
  }

  lemma SyncEffect(cfg: Config, w: World, e: Event) returns (x: Option<LB>)
    requires e.EnsureCall? || e.UpdateCall?
    ensures var s := Sync(cfg, w, e); Effect(cfg, w.service, e.env, w.lbs, x, s.service, s.lbs, s.created)
  {
    x := None;
    if BoolAnnotation(w.service, DisownLB).Ok? && !Disowned(w.service) {
      if e.EnsureCall? {
        x := EnsureBodyEffect(cfg, w.service, e.env, w.lbs);
      } else {
        x := UpdateBodyEffect(cfg, w.service, e.env, w.lbs);
      }
    }
  }

  // ----- disowned services -----

  /** The flag to leave the load balancer alone is set. */
  ghost predicate HandsOff(service: Service) {
    DisownLB in service.annotations && service.annotations[DisownLB] in {"1", "t", "T", "true", "TRUE", "True"}
  }

  ghost predicate FlagUnreadable(service: Service) {
    && DisownLB in service.annotations
    && service.annotations[DisownLB] !in {"1", "t", "T", "true", "TRUE", "True", "0", "f", "F", "false", "FALSE", "False"}
  }

  /** A sync of a disowned service succeeds and does nothing; one whose flag cannot be read
      fails and does nothing either. */
  lemma DisownedUntouched(cfg: Config, w: World, e: Event)
    requires e.EnsureCall? || e.UpdateCall?
    ensures HandsOff(w.service) ==> Sync(cfg, w, e) == Synced(None, w.service, w.lbs, 0)
    ensures FlagUnreadable(w.service) ==> Sync(cfg, w, e) == Synced(Some(Failure), w.service, w.lbs, 0)
  {
    BoolMeaning(w.service, DisownLB);
  }

  /** Every sync of the run sees a disowned service. */
  ghost predicate HandsOffRun(cfg: Config, w: World, events: seq<Event>)
    decreases |events|
  {
    events == [] ||
    ((events[0].EnsureCall? || events[0].UpdateCall? ==> HandsOff(w.service)) && HandsOffRun(cfg, Step(cfg, w, events[0]), events[1..]))
  }

  ghost function WithoutSyncs(events: seq<Event>): seq<Event> {
    if events == [] then []
    else (if events[0].EnsureCall? || events[0].UpdateCall? then [] else [events[0]]) + WithoutSyncs(events[1..])
  }

  /** Such a run is what edits and outsiders make of it: its syncs might as well not have
      happened. */
  lemma {:induction false} DisownedRun(cfg: Config, w: World, events: seq<Event>)
    requires HandsOffRun(cfg, w, events)
    ensures Run(cfg, w, events) == Run(cfg, w, WithoutSyncs(events))
    decreases |events|
  {
    if events != [] {
      var next, rest := Step(cfg, w, events[0]), WithoutSyncs(events[1..]);
      DisownedRun(cfg, next, events[1..]);
      if events[0].EnsureCall? || events[0].UpdateCall? {
        DisownedUntouched(cfg, w, events[0]);
        assert next == w && WithoutSyncs(events) == rest;
      } else {
        assert WithoutSyncs(events) == [events[0]] + rest && ([events[0]] + rest)[1..] == rest;
      }
    }
  }

  // ----- no flapping -----

  /** The load balancer `id` exists and has droplet `d` among its backends. */
  ghost predicate Backs(lbs: seq<LB>, id: string, d: int) {
    (exists lb :: lb in lbs && lb.id == id) && forall lb :: lb in lbs && lb.id == id ==> d in lb.dropletIDs
  }

  /** A node of droplet `d` is listed and usable by its addresses, for the type and network
      that the service asks of `lb`. Nothing is said of its readiness or taints. */
  ghost predicate StillUsable(cfg: Config, service: Service, lb: LB, nodes: seq<Node>, d: int) {
    forall lbType, network :: Asks(cfg, AnnotateWith(service, lb), lbType, network) ==>
      exists n :: n in nodes && n.providerID != "" && DropletID(n.providerID) == Ok(d) && LbReady(lbType, network, n)
  }

  /** The hypothesis on one event: its sync still lists a usable node of the droplet, the
      API does not reuse the ID, and outsiders leave the backend in. */
  ghost predicate Calm(cfg: Config, w: World, e: Event, id: string, d: int) {
    match e
    case EditService(_) => true
    case Outside(lbs) => Backs(lbs, id, d)
    case _ =>
      && (!e.env.create.CreateFails? ==> e.env.create.lb.id != id)
      && forall lb :: lb in w.lbs && lb.id == id ==> StillUsable(cfg, w.service, lb, e.env.nodes, d)
  }

  ghost predicate CalmRun(cfg: Config, w: World, events: seq<Event>, id: string, d: int)
    decreases |events|
  {
    events == [] || (Calm(cfg, w, events[0], id, d) && CalmRun(cfg, Step(cfg, w, events[0]), events[1..], id, d))
  }

  lemma WriteKeepsBackend(cfg: Config, service: Service, env: Env, lb: LB, x: LB, d: int)
    requires Wrote(cfg, service, env, lb, x) && d in lb.dropletIDs && StillUsable(cfg, service, lb, env.nodes, d)
    ensures d in x.dropletIDs
  {
    var lbType, network, service1, b :| WroteAs(cfg, service, env, lb, x, lbType, network, service1, b);
    var n :| n in env.nodes && n.providerID != "" && DropletID(n.providerID) == Ok(d) && LbReady(lbType, network, n);
    var admitted := Elements(lb.dropletIDs);
    BuildMeaning(cfg, service1, env.nodes, admitted, env.look, lbType, network);
    AdmittedMember(env.nodes, lbType, network, admitted, n);
    NodesResolved(Admitted(env.nodes, lbType, network, admitted), env.look.droplets, n);
  }

  /** Exactly: when all listed nodes have ProviderIDs, a written backend is kept if and
      only if some listed node usable by its addresses carries its ID. */
  lemma WriteKeepsBackendIff(cfg: Config, service: Service, env: Env, lb: LB, x: LB, lbType: LBType, network: Network, d: int)
    requires Wrote(cfg, service, env, lb, x) && Asks(cfg, AnnotateWith(service, lb), lbType, network) && d in lb.dropletIDs
    requires forall n :: n in env.nodes ==> n.providerID != ""
    ensures d in x.dropletIDs <==> exists n :: n in env.nodes && DropletID(n.providerID) == Ok(d) && LbReady(lbType, network, n)
  {
    if d in x.dropletIDs {
      var t, w, service1, b :| WroteAs(cfg, service, env, lb, x, t, w, service1, b);
      var n := WrittenStandsFor(cfg, service1, env.nodes, Elements(lb.dropletIDs), env.look, lbType, network, d);
    }
    if n :| n in env.nodes && DropletID(n.providerID) == Ok(d) && LbReady(lbType, network, n) {
      WriteKeepsBackend(cfg, service, env, lb, x, d);
    }
  }

  /** The names of the usable nodes without a ProviderID that are NodeReady and untainted. */
  ghost function ServingNames(nodes: seq<Node>, lbType: LBType, network: Network): set<string> {
    set n | n in nodes && n.providerID == "" && LbReady(lbType, network, n) && Serving(n) :: n.name
  }

  lemma UnidentifiedServe(nodes: seq<Node>, lbType: LBType, network: Network, admitted: set<int>)
    ensures Unidentified(Admitted(nodes, lbType, network, admitted)) == ServingNames(nodes, lbType, network)
  {
    forall n: Node | n.providerID == ""
      ensures n in Admitted(nodes, lbType, network, admitted) <==> n in nodes && LbReady(lbType, network, n) && Serving(n)
    {
      AdmittedMember(nodes, lbType, network, admitted, n);
    }
  }

  lemma CollectedIff(nodes: seq<Node>, lbType: LBType, network: Network, admitted: set<int>, d: int)
    requires Collect(Admitted(nodes, lbType, network, admitted), IdOf).Ok? && d in admitted
    ensures d in Collect(Admitted(nodes, lbType, network, admitted), IdOf).value <==>
            exists n :: n in nodes && n.providerID != "" && DropletID(n.providerID) == Ok(d) && LbReady(lbType, network, n)
  {
    var admit := Admitted(nodes, lbType, network, admitted);
    if d in Collect(admit, IdOf).value {
      var n := CollectOrigin(admit, IdOf, d);
      AdmittedMember(nodes, lbType, network, admitted, n);
    }
    if n :| n in nodes && n.providerID != "" && DropletID(n.providerID) == Ok(d) && LbReady(lbType, network, n) {
      AdmittedMember(nodes, lbType, network, admitted, n);
      CollectHas(admit, IdOf, n);
    }
  }

  /** Exactly, for any nodes: a backend is kept if and only if a listed node usable by its
      addresses carries its ID, or the droplet scan finds it for the names of the usable
      serving nodes without a ProviderID. */
  lemma WriteKeepsBackendExactly(cfg: Config, service: Service, env: Env, lb: LB, x: LB, lbType: LBType, network: Network, d: int)
    requires Wrote(cfg, service, env, lb, x) && Asks(cfg, AnnotateWith(service, lb), lbType, network) && d in lb.dropletIDs
    ensures d in x.dropletIDs <==>
      || (exists n :: n in env.nodes && n.providerID != "" && DropletID(n.providerID) == Ok(d) && LbReady(lbType, network, n))
      || d in Scanned(ServingNames(env.nodes, lbType, network), env.look.droplets)
  {
    var t, w, service1, b :| WroteAs(cfg, service, env, lb, x, t, w, service1, b);
    var admitted := Elements(lb.dropletIDs);
    BuildMeaning(cfg, service1, env.nodes, admitted, env.look, lbType, network);
    IdParts(Admitted(env.nodes, lbType, network, admitted), env.look.droplets);
    UnidentifiedServe(env.nodes, lbType, network, admitted);
    CollectedIff(env.nodes, lbType, network, admitted, d);
  }

  lemma UnidentifiedWaits(n: Node, admitted: set<int>)
    requires n.providerID == "" && (AlreadyAdmitted(n, admitted) || Serving(n))
    ensures Serving(n)
  {
  }

  /** A droplet known only by nodes without a ProviderID is dropped by the first write
      that finds none of them NodeReady and untainted, although it was a backend. */
  lemma UnidentifiedDropped(cfg: Config, service: Service, env: Env, lb: LB, x: LB, d: int)
    requires Wrote(cfg, service, env, lb, x)
    requires forall n :: n in env.nodes && StandsFor(n, d, env.look.droplets) ==> n.providerID == "" && !Serving(n)
    ensures d !in x.dropletIDs
  {
    if d in x.dropletIDs {
      var lbType, network, service1, b :| WroteAs(cfg, service, env, lb, x, lbType, network, service1, b);
      var n := WrittenStandsFor(cfg, service1, env.nodes, Elements(lb.dropletIDs), env.look, lbType, network, d);
      UnidentifiedWaits(n, Elements(lb.dropletIDs));
      assert false;
    }
  }

  lemma RetrievedListed(service: Service, lbs: seq<LB>, env: Env)
    ensures var r := Retrieve(service, lbs, env); r.Ok? ==> r.value in lbs
  {
  }

  lemma OverwriteMembers(lbs: seq<LB>, id: string, x: LB)
    ensures forall lb :: lb in Overwrite(lbs, id, x) ==> (lb in lbs && lb.id != id) || (lb == x && exists was :: was in lbs && was.id == id)
    ensures forall lb :: lb in lbs ==> (if lb.id == id then x else lb) in Overwrite(lbs, id, x)
  {
    var after := Overwrite(lbs, id, x);
    forall lb | lb in lbs ensures (if lb.id == id then x else lb) in after {
      var i :| 0 <= i < |lbs| && lbs[i] == lb;
      assert after[i] == if lb.id == id then x else lb;
    }
  }

  lemma StepKeepsBackend(cfg: Config, w: World, e: Event, id: string, d: int)
    requires Backs(w.lbs, id, d) && Calm(cfg, w, e, id, d)
    ensures Backs(Step(cfg, w, e).lbs, id, d)
  {
    if e.EnsureCall? || e.UpdateCall? {
      var x := SyncEffect(cfg, w, e);
      var r := Retrieve(w.service, w.lbs, e.env);
      RetrievedListed(w.service, w.lbs, e.env);
      if x.Some? && r.Ok? {
        OverwriteMembers(w.lbs, r.value.id, x.value);
        if r.value.id == id {
          WriteKeepsBackend(cfg, w.service, e.env, r.value, x.value, d);
        }
      }
    }
  }

  /** No flapping: over every run, a droplet once written stays written as long as each
      sync still lists a usable node for it, whatever that node's readiness and taints. */
  lemma {:induction false} NoFlapping(cfg: Config, w: World, events: seq<Event>, id: string, d: int)
    requires Backs(w.lbs, id, d) && CalmRun(cfg, w, events, id, d)
    ensures Backs(Run(cfg, w, events).lbs, id, d)
    decreases |events|
  {
    if events != [] {
      StepKeepsBackend(cfg, w, events[0], id, d);
      NoFlapping(cfg, Step(cfg, w, events[0]), events[1..], id, d);
    }
  }

  // ----- strict first admission -----

  ghost predicate IsBackend(lbs: seq<LB>, id: string, d: int) {
    exists lb :: lb in lbs && lb.id == id && d in lb.dropletIDs
  }

  /** The type and network that a sync goes by: those asked of the load balancer it found,
      or of a new one. */
  ghost predicate SyncAsks(cfg: Config, service: Service, lbs: seq<LB>, env: Env, lbType: LBType, network: Network) {
    match Retrieve(service, lbs, env)
    case Ok(lb) => Asks(cfg, AnnotateWith(service, lb), lbType, network)
    case Err(_) => Asks(cfg, service, lbType, network)
  }

  /** A NodeReady, untainted node, usable by its addresses, that stands for the droplet. */
  ghost predicate Qualifies(lbType: LBType, network: Network, n: Node, d: int, droplets: Result<seq<Droplet>>) {
    LbReady(lbType, network, n) && ReadyUntainted(n) && StandsFor(n, d, droplets)
  }

  /** The event brings droplet `d` in legitimately: a sync that lists a qualifying node, or
      an outsider. */
  ghost predicate BringsIn(cfg: Config, w: World, e: Event, id: string, d: int) {
    match e
    case EditService(_) => false
    case Outside(lbs) => IsBackend(lbs, id, d)
    case _ =>
      exists lbType, network, n :: SyncAsks(cfg, w.service, w.lbs, e.env, lbType, network)
        && n in e.env.nodes && Qualifies(lbType, network, n, d, e.env.look.droplets)
  }

  lemma NewcomerServes(n: Node, d: int, droplets: Result<seq<Droplet>>, admitted: set<int>)
    requires StandsFor(n, d, droplets) && d !in admitted
    ensures !AlreadyAdmitted(n, admitted)
  {
  }

  lemma BuildAdmitsServing(cfg: Config, service: Service, nodes: seq<Node>, admitted: set<int>, look: Lookups, lbType: LBType, network: Network, d: int)
    requires BuildRequest(cfg, service, nodes, admitted, look).Ok? && Asks(cfg, service, lbType, network)
    requires d in BuildRequest(cfg, service, nodes, admitted, look).value.request.dropletIDs && d !in admitted
    ensures exists n :: n in nodes && Qualifies(lbType, network, n, d, look.droplets)
  {
    var n := WrittenStandsFor(cfg, service, nodes, admitted, look, lbType, network, d);
    NewcomerServes(n, d, look.droplets, admitted);
    ServingIff(n);
  }

  lemma WriteAdmitsServing(cfg: Config, service: Service, env: Env, lb: LB, x: LB, d: int)
    requires Wrote(cfg, service, env, lb, x) && d in x.dropletIDs && d !in lb.dropletIDs
    ensures exists lbType, network, n :: Asks(cfg, AnnotateWith(service, lb), lbType, network)
              && n in env.nodes && Qualifies(lbType, network, n, d, env.look.droplets)
  {
    var lbType, network, service1, b :| WroteAs(cfg, service, env, lb, x, lbType, network, service1, b);
    BuildAdmitsServing(cfg, service1, env.nodes, Elements(lb.dropletIDs), env.look, lbType, network, d);
  }

  lemma StepAdmitsServing(cfg: Config, w: World, e: Event, id: string, d: int)
    requires !IsBackend(w.lbs, id, d) && IsBackend(Step(cfg, w, e).lbs, id, d)
    ensures BringsIn(cfg, w, e, id, d)
  {
    if e.EnsureCall? || e.UpdateCall? {
      var x := SyncEffect(cfg, w, e);
      var r := Retrieve(w.service, w.lbs, e.env);
      RetrievedListed(w.service, w.lbs, e.env);
      var lb :| lb in Step(cfg, w, e).lbs && lb.id == id && d in lb.dropletIDs;
      if r.Ok? {
        OverwriteMembers(w.lbs, r.value.id, x.value);
        WriteAdmitsServing(cfg, w.service, e.env, r.value, x.value, d);
      } else {
        var lbType, network := GetType(w.service, cfg.defaultType).value, GetNetwork(w.service).value;
        BuildAdmitsServing(cfg, w.service, e.env.nodes, {}, e.env.look, lbType, network, d);
      }
    }
  }

  lemma {:induction false} RunLast(cfg: Config, w: World, events: seq<Event>, e: Event)
    ensures Run(cfg, w, events + [e]) == Step(cfg, Run(cfg, w, events), e)
    decreases |events|
  {
    if events == [] {
      assert ([] + [e])[1..] == [];
    } else {
      assert (events + [e])[0] == events[0] && (events + [e])[1..] == events[1..] + [e];
      RunLast(cfg, Step(cfg, w, events[0]), events[1..], e);
    }
  }

  /** The event that made the droplet a backend. */
  lemma {:induction false} FirstAdmission(cfg: Config, w: World, events: seq<Event>, id: string, d: int) returns (k: nat)
    requires !IsBackend(w.lbs, id, d) && IsBackend(Run(cfg, w, events).lbs, id, d)
    ensures k < |events| && !IsBackend(Run(cfg, w, events[..k]).lbs, id, d) && IsBackend(Run(cfg, w, events[..k + 1]).lbs, id, d)
    decreases |events|
  {
    assert events != [];
    var n := |events| - 1;
    assert events == events[..n + 1];
    if IsBackend(Run(cfg, w, events[..n]).lbs, id, d) {
      k := FirstAdmission(cfg, w, events[..n], id, d);
      assert events[..n][..k] == events[..k] && events[..n][..k + 1] == events[..k + 1];
    } else {
      k := n;
    }
  }

  /** Strict first admission: over every run, a droplet that became a backend became one
      at an event that brings it in legitimately: it was none before that event and is one
      right after it. */
  lemma StrictFirstAdmission(cfg: Config, w: World, events: seq<Event>, id: string, d: int) returns (k: nat)
    requires !IsBackend(w.lbs, id, d) && IsBackend(Run(cfg, w, events).lbs, id, d)
    ensures k < |events| && BringsIn(cfg, Run(cfg, w, events[..k]), events[k], id, d)
    ensures !IsBackend(Run(cfg, w, events[..k]).lbs, id, d) && IsBackend(Run(cfg, w, events[..k + 1]).lbs, id, d)
  {
    k := FirstAdmission(cfg, w, events, id, d);
    assert events[..k + 1] == events[..k] + [events[k]];
    RunLast(cfg, w, events[..k], events[k]);
    StepAdmitsServing(cfg, Run(cfg, w, events[..k]), events[k], id, d);
  }
}
