/** Nodes without a ProviderID at their worst: a load balancer emptied by an update that
    returns nil, and a backend dropped because its node is not ready for a moment. */
module UnfoundNodes {
  import opened Prelude
  import opened Seqs
  import opened Cluster
  import opened Droplets
  import opened NodeAdmission
  import opened ForwardingRules
  import opened LoadBalancerRequests
  import opened LoadBalancerSync
  import opened LoadBalancerAccounting
  import opened LoadBalancerFixpoint
  import opened LoadBalancerRuns
  import opened EnsureBlindSpot

  /** A plain external REGIONAL_NETWORK service, found by ID, on which all calls work. */
  ghost predicate PlainSync(cfg: Config, service: Service, env: Env, lb: LB) {
    && cfg.settingsOf(AnnotateWith(service, lb)).Ok?
    && service.annotations == map[LoadBalancerID := lb.id] && lb.id != "" && service.ports == [ServicePort(TCP, 80, 30080)]
    && lb.lbType == TypeName(RegionalNetwork)
    && env.getWorks && env.updateWorks && env.patchWorks
  }

  lemma PlainAsks(cfg: Config, service: Service, env: Env, lb: LB)
    requires PlainSync(cfg, service, env, lb)
    ensures Asks(cfg, AnnotateWith(service, lb), RegionalNetwork, External)
    ensures BoolAnnotation(service, DisownLB) == Ok(None) && Annotation(AnnotateWith(service, lb), LoadBalancerNetworkStack) == ""
    ensures FindCertificateID(AnnotateWith(service, lb), env.look.certs) == Ok("")
  {
  }

  lemma PublicUsable(n: Node)
    requires n.addresses == [NodeAddress(ExternalIP, false)]
    ensures LbReady(RegionalNetwork, External, n) && ClassFor(RegionalNetwork, External, n) != PublicNetUnready
  {
    assert n.addresses[0] == NodeAddress(ExternalIP, false);
  }

  lemma PlainBuild(cfg: Config, service: Service, nodes: seq<Node>, admitted: set<int>, look: Lookups, n: Node)
    requires Asks(cfg, service, RegionalNetwork, External) && cfg.settingsOf(service).Ok? && service.ports == [ServicePort(TCP, 80, 30080)]
    requires Annotation(service, LoadBalancerNetworkStack) == "" && LbReady(RegionalNetwork, External, n)
    requires Admitted(nodes, RegionalNetwork, External, admitted) == [n] && DropletIDs([n], look.droplets).Ok?
    ensures var b := BuildRequest(cfg, service, nodes, admitted, look);
            b.Ok? && b.value.pendingNotReady == HeldBack(nodes, RegionalNetwork, External, admitted)
  {
    LateConfigure(cfg, service, look.certs, n, n);
    BuildForSucceeds(nodes, admitted, RegionalNetwork, External, Configurer(cfg, service, look.certs), Resolver(look.droplets));
  }

  // ----- an emptied load balancer -----

  /** The one node serves, but has no ProviderID and no listed droplet carries its name. */
  ghost predicate Emptied(cfg: Config, service: Service, env: Env, lb: LB, n: Node) {
    && PlainSync(cfg, service, env, lb) && lb.dropletIDs == [7] && env.nodes == [n]
    && n.addresses == [NodeAddress(ExternalIP, false)] && Serving(n) && n.providerID == ""
    && env.look.droplets.Ok? && forall d :: d in env.look.droplets.value ==> !Matches(d, {n.name})
  }

  lemma LoneNode(n: Node, admitted: set<int>)
    requires n.addresses == [NodeAddress(ExternalIP, false)] && Serving(n)
    ensures Admitted([n], RegionalNetwork, External, admitted) == [n] && HeldBack([n], RegionalNetwork, External, admitted) == []
    ensures Initializing([n], RegionalNetwork, External) == []
  {
    PublicUsable(n);
    FilterTwo(n, n, ReadyFor(RegionalNetwork, External));
    FilterTwo(n, n, Admissible(admitted));
    FilterTwo(n, n, Inadmissible(admitted));
    FilterTwo(n, n, InClass(RegionalNetwork, External, PublicNetUnready));
  }

  lemma LonePrepared(cfg: Config, service: Service, n: Node)
    requires Asks(cfg, service, RegionalNetwork, External)
    requires n.addresses == [NodeAddress(ExternalIP, false)] && Serving(n)
    ensures PrepareNodes(cfg, service, [n]) == Ok([])
  {
    LoneNode(n, {});
  }

  lemma LoneResolved(n: Node, droplets: Result<seq<Droplet>>)
    requires n.providerID == "" && droplets.Ok?
    ensures DropletIDs([n], droplets).Ok?
  {
    assert [n][..0] == [];
    assert Collect([n], IdOf).Ok?;
  }

  lemma EmptiedWrites(cfg: Config, service: Service, env: Env, lb: LB, n: Node)
    requires Emptied(cfg, service, env, lb, n)
    ensures Writes(cfg, service, env, [lb], lb) && UpdateLB(cfg, lb, AnnotateWith(service, lb), env, [lb]).result.value.1 == []
    ensures PrepareNodes(cfg, AnnotateWith(service, lb), env.nodes) == Ok([])
  {
    var service1 := AnnotateWith(service, lb);
    PlainAsks(cfg, service, env, lb);
    LateRetrieved(service, env, lb);
    PublicUsable(n);
    LonePrepared(cfg, service1, n);
    LoneNode(n, Elements(lb.dropletIDs));
    LoneResolved(n, env.look.droplets);
    PlainBuild(cfg, service1, [n], Elements(lb.dropletIDs), env.look, n);
    PlainUpdate(cfg, lb, service1, env, [lb]);
  }

  lemma NothingWritten(n: Node, droplets: Result<seq<Droplet>>)
    requires n.addresses == [NodeAddress(ExternalIP, false)]
    ensures !Accounted(RegionalNetwork, External, n, [], droplets)
  {
    PublicUsable(n);
  }

  lemma EmptiedIds(cfg: Config, lb: LB, service: Service, env: Env, n: Node)
    requires UpdateLB(cfg, lb, service, env, [lb]).result.Ok? && Asks(cfg, service, RegionalNetwork, External)
    requires env.nodes == [n] && n.addresses == [NodeAddress(ExternalIP, false)] && Serving(n) && !Findable(n, env.look.droplets)
    ensures var u := UpdateLB(cfg, lb, service, env, [lb]); ById(u.lbs, lb.id).Some? && ById(u.lbs, lb.id).value.dropletIDs == []
  {
    WrittenBy(cfg, lb, service, env, [lb], RegionalNetwork, External);
    LoneNode(n, Elements(lb.dropletIDs));
    NoBackendsIff(cfg, UpdateLB(cfg, lb, service, env, [lb]).service, env.nodes, Elements(lb.dropletIDs), env.look, RegionalNetwork, External);
  }

  /** In this family UpdateLoadBalancer returns nil, so that nothing will retry, and has
      replaced the backends of the load balancer by none at all. */
  lemma UpdateEmpties(cfg: Config, service: Service, env: Env, lb: LB, n: Node)
    requires Emptied(cfg, service, env, lb, n)
    ensures !Disowned(service) && Update(cfg, service, env, [lb]).err.None? && ById([lb], lb.id) == Some(lb) && lb.dropletIDs == [7]
    ensures var after := ById(Update(cfg, service, env, [lb]).lbs, lb.id);
      && after.Some? && after.value.dropletIDs == []
      && !AllAccounted(RegionalNetwork, External, env.nodes, after.value.dropletIDs, env.look.droplets)
  {
    PlainAsks(cfg, service, env, lb);
    EmptiedWrites(cfg, service, env, lb, n);
    UpdateEnds(cfg, service, env, [lb], lb);
    EmptiedIds(cfg, lb, AnnotateWith(service, lb), env, n);
    NothingWritten(n, env.look.droplets);
    assert n in env.nodes;
  }

  // ----- a dropped backend -----

  /** Both droplets are backends; the second is known by its node's name only, and that
      node is usable but not ready. */
  ghost predicate Flapped(cfg: Config, service: Service, env: Env, lb: LB, served: Node, n: Node) {
    && PlainSync(cfg, service, env, lb) && lb.dropletIDs == [1, 7] && env.nodes == [served, n]
    && served.addresses == [NodeAddress(ExternalIP, false)] && served.providerID == ProviderID(1)
    && n.addresses == [NodeAddress(ExternalIP, false)] && !Serving(n) && n.providerID == ""
    && env.look.droplets == Ok([Droplet(7, n.name, None)])
  }

  lemma FlappedAdmitted(served: Node, n: Node, admitted: set<int>)
    requires served.addresses == [NodeAddress(ExternalIP, false)] && n.addresses == [NodeAddress(ExternalIP, false)]
    requires AlreadyAdmitted(served, admitted) && !Serving(n) && n.providerID == ""
    ensures Admitted([served, n], RegionalNetwork, External, admitted) == [served]
  {
    PublicUsable(served);
    PublicUsable(n);
    FilterTwo(served, n, ReadyFor(RegionalNetwork, External));
    FilterTwo(served, n, Admissible(admitted));
  }

  lemma ServedResolved(served: Node, droplets: Result<seq<Droplet>>)
    requires served.providerID == ProviderID(1)
    ensures DropletIDs([served], droplets).Ok? && DropletID(served.providerID) == Ok(1)
  {
    ProviderIDRoundTrip(1);
    assert [served][..0] == [];
    assert Collect([served], IdOf).Ok?;
    assert Unidentified([served]) == {};
  }

  lemma FlappedStands(served: Node, n: Node, droplets: Result<seq<Droplet>>)
    requires served.providerID == ProviderID(1) && n.providerID == "" && droplets == Ok([Droplet(7, n.name, None)])
    ensures StandsFor(n, 7, droplets) && !StandsFor(served, 7, droplets)
  {
    ProviderIDRoundTrip(1);
    var d := Droplet(7, n.name, None);
    assert d in droplets.value && Matches(d, {n.name});
  }

  lemma FlappedWrites(cfg: Config, lb: LB, service: Service, env: Env, served: Node, n: Node)
    requires Asks(cfg, service, RegionalNetwork, External) && cfg.settingsOf(service).Ok? && service.ports == [ServicePort(TCP, 80, 30080)]
    requires Annotation(service, LoadBalancerNetworkStack) == "" && FindCertificateID(service, env.look.certs) == Ok("")
    requires lb.dropletIDs == [1, 7] && env.nodes == [served, n] && env.updateWorks
    requires served.addresses == [NodeAddress(ExternalIP, false)] && served.providerID == ProviderID(1)
    requires n.addresses == [NodeAddress(ExternalIP, false)] && !Serving(n) && n.providerID == ""
    ensures UpdateLB(cfg, lb, service, env, [lb]).result.Ok?
  {
    PublicUsable(served);
    ServedResolved(served, env.look.droplets);
    FlappedAdmitted(served, n, Elements(lb.dropletIDs));
    PlainBuild(cfg, service, env.nodes, Elements(lb.dropletIDs), env.look, served);
    PlainUpdate(cfg, lb, service, env, [lb]);
  }

  lemma FlappedDrops(cfg: Config, service: Service, env: Env, lb: LB, x: LB, served: Node, n: Node)
    requires Wrote(cfg, service, env, lb, x) && env.nodes == [served, n] && env.look.droplets == Ok([Droplet(7, n.name, None)])
    requires served.providerID == ProviderID(1) && !Serving(n) && n.providerID == ""
    ensures n in env.nodes && StandsFor(n, 7, env.look.droplets) && 7 !in x.dropletIDs
  {
    FlappedStands(served, n, env.look.droplets);
    UnidentifiedDropped(cfg, service, env, lb, x, 7);
  }

  /** In this family the write succeeds and drops droplet 7, although it was a backend and
      its node is listed and usable by its addresses: being not ready is enough. */
  lemma UnreadyDropped(cfg: Config, service: Service, env: Env, lb: LB, served: Node, n: Node)
    requires Flapped(cfg, service, env, lb, served, n)
    ensures var r := UpdateLB(cfg, lb, AnnotateWith(service, lb), env, [lb]).result;
      && 7 in lb.dropletIDs && n in env.nodes && LbReady(RegionalNetwork, External, n) && StandsFor(n, 7, env.look.droplets)
      && r.Ok? && 7 !in r.value.0.dropletIDs
  {
    PlainAsks(cfg, service, env, lb);
    FlappedWrites(cfg, lb, AnnotateWith(service, lb), env, served, n);
    UpdateLBWrites(cfg, lb, service, env, [lb]);
    FlappedDrops(cfg, service, env, lb, UpdateLB(cfg, lb, AnnotateWith(service, lb), env, [lb]).result.value.0, served, n);
    PublicUsable(n);
  }

  /** Neither family is empty. */
  lemma FamiliesExist(node: Node, service: Service, env: Env)
    returns (cfg: Config, s: Service, e: Env, f: Env, lb: LB, n: Node, served: Node, unready: Node)
    ensures Emptied(cfg, s, e, lb, n)
    ensures Flapped(cfg, s, f, lb.(dropletIDs := [1, 7]), served, unready)
  {
    cfg := Config(Regional, [], "", "", _ => Ok(Settings(map[])));
    lb := LB("lb", "name", TypeName(RegionalNetwork), Active, [7], [], IPv4);
    s := service.(annotations := map[LoadBalancerID := lb.id], ports := [ServicePort(TCP, 80, 30080)]);
    n := node.(providerID := "", addresses := [NodeAddress(ExternalIP, false)], conditions := [Condition(ReadyCondition, true)], taints := []);
    unready := n.(conditions := []);
    served := n.(providerID := ProviderID(1));
    e := env.(nodes := [n], look := env.look.(droplets := Ok([])), getWorks := true, updateWorks := true, patchWorks := true);
    f := e.(nodes := [served, unready], look := env.look.(droplets := Ok([Droplet(7, unready.name, None)])));
  }
}
