/** A service whose load balancer has a type it does not carry yet: Ensure returns nil and
    leaves a node out that nothing will retry. */
module EnsureBlindSpot {
  import opened Prelude
  import opened Seqs
  import opened Cluster
  import opened Droplets
  import opened NodeAdmission
  import opened ForwardingRules
  import opened LoadBalancerRequests
  import opened LoadBalancerSync
  import opened LoadBalancerAccounting

  /** The service carries no type yet, its load balancer is a REGIONAL_NETWORK one, and
      beside a served node there is one with a private address only, so far. */
  ghost predicate LateNode(cfg: Config, service: Service, env: Env, lb: LB, served: Node, late: Node) {
    && cfg.defaultType == Regional && cfg.settingsOf(AnnotateWith(service, lb)).Ok?
    && service.annotations == map[LoadBalancerID := lb.id] && lb.id != "" && service.ports == [ServicePort(TCP, 80, 30080)]
    && lb.lbType == TypeName(RegionalNetwork) && lb.dropletIDs == [1]
    && served.providerID == ProviderID(1) && served.addresses == [NodeAddress(ExternalIP, false)]
    && late.providerID == ProviderID(2) && late.addresses == [NodeAddress(InternalIP, false)] && late.networkType == ""
    && env.nodes == [served, late] && env.getWorks && env.updateWorks && env.patchWorks && env.status == Active
  }

  lemma FilterTwo(a: Node, b: Node, p: Node -> bool)
    ensures Filter([a], p) == if p(a) then [a] else []
    ensures Filter([a, b], p) == Filter([a], p) + if p(b) then [b] else []
  {
    assert [a][..0] == [] && [a, b][..1] == [a];
  }

  lemma LateClasses(served: Node, late: Node)
    requires served.addresses == [NodeAddress(ExternalIP, false)]
    requires late.addresses == [NodeAddress(InternalIP, false)] && late.networkType == ""
    ensures LbReady(RegionalNetwork, External, served) && !LbReady(RegionalNetwork, External, late)
    ensures LbReady(Regional, External, served) && LbReady(Regional, External, late)
    ensures !HasAddress(late, ExternalIP, true) && !HasAddress(late, ExternalIP, false) && IntendsPublic(late)
    ensures AwaitsAddress(RegionalNetwork, External, late)
  {
    assert served.addresses[0] == NodeAddress(ExternalIP, false);
    assert late.addresses[0] == NodeAddress(InternalIP, false);
    assert Lower("") == "";
  }

  lemma LateAdmitted(served: Node, late: Node)
    requires LbReady(RegionalNetwork, External, served) && !LbReady(RegionalNetwork, External, late) && AlreadyAdmitted(served, {1})
    ensures Admitted([served, late], RegionalNetwork, External, {1}) == [served]
    ensures HeldBack([served, late], RegionalNetwork, External, {1}) == []
  {
    FilterTwo(served, late, ReadyFor(RegionalNetwork, External));
    FilterTwo(served, late, Admissible({1}));
    FilterTwo(served, late, Inadmissible({1}));
  }

  lemma LateConfigure(cfg: Config, service: Service, certs: Certificates, served: Node, late: Node)
    requires Asks(cfg, service, RegionalNetwork, External) && cfg.settingsOf(service).Ok? && service.ports == [ServicePort(TCP, 80, 30080)]
    requires Annotation(service, LoadBalancerNetworkStack) == "" && LbReady(RegionalNetwork, External, served)
    ensures Configure(cfg, service, certs, Some(StateOf([served], RegionalNetwork, External))).Ok?
  {
    var state := StateOf([served], RegionalNetwork, External);
    FilterTwo(served, late, ReadyFor(RegionalNetwork, External));
    BugUnreachable(service, RegionalNetwork, External, Some(state));
    assert RegionalNetworkRules(service).Ok?;
  }

  lemma LateBuild(cfg: Config, service: Service, look: Lookups, served: Node, late: Node)
    requires Asks(cfg, service, RegionalNetwork, External) && cfg.settingsOf(service).Ok? && service.ports == [ServicePort(TCP, 80, 30080)]
    requires Annotation(service, LoadBalancerNetworkStack) == "" && served.providerID == ProviderID(1)
    requires LbReady(RegionalNetwork, External, served) && !LbReady(RegionalNetwork, External, late)
    ensures var b := BuildRequest(cfg, service, [served, late], {1}, look); b.Ok? && b.value.pendingNotReady == []
  {
    LateConfigure(cfg, service, look.certs, served, late);
    ProviderIDRoundTrip(1);
    assert [served][..0] == [];
    assert Collect([served], IdOf).Ok?;
    assert Unidentified([served]) == {};
    LateAdmitted(served, late);
    BuildForSucceeds([served, late], {1}, RegionalNetwork, External, Configurer(cfg, service, look.certs), Resolver(look.droplets));
  }

  /** An update without certificates succeeds when its request can be built and sent. */
  lemma PlainUpdate(cfg: Config, lb: LB, service: Service, env: Env, lbs: seq<LB>)
    requires BuildRequest(cfg, service, env.nodes, Elements(lb.dropletIDs), env.look).Ok?
    requires FindCertificateID(service, env.look.certs) == Ok("") && env.updateWorks && ById(lbs, lb.id).Some?
    ensures var u := UpdateLB(cfg, lb, service, env, lbs);
      && u.result.Ok? && u.result.value.0.status == env.status
      && u.result.value.1 == BuildRequest(cfg, service, env.nodes, Elements(lb.dropletIDs), env.look).value.pendingNotReady
  {
  }

  lemma ExistingSucceeds(cfg: Config, lb: LB, service: Service, env: Env, lbs: seq<LB>)
    requires var b := BuildRequest(cfg, service, env.nodes, Elements(lb.dropletIDs), env.look); b.Ok? && b.value.pendingNotReady == []
    requires FindCertificateID(service, env.look.certs) == Ok("") && env.updateWorks && ById(lbs, lb.id).Some? && env.status == Active
    ensures EnsureExisting(cfg, lb, service, [], env, lbs).err.None?
  {
    PlainUpdate(cfg, lb, service, env, lbs);
  }

  lemma EnsureSucceeds(cfg: Config, service: Service, env: Env, lbs: seq<LB>, lb: LB)
    requires BoolAnnotation(service, DisownLB).Ok? && env.patchWorks
    requires PrepareNodes(cfg, service, env.nodes) == Ok([]) && Retrieve(service, lbs, env) == Ok(lb)
    requires EnsureExisting(cfg, lb, AnnotateWith(service, lb), [], env, lbs).err.None?
    ensures Ensure(cfg, service, env, lbs).err.None?
  {
  }

  lemma LatePrepared(cfg: Config, service: Service, served: Node, late: Node)
    requires Asks(cfg, service, Regional, External)
    requires LbReady(Regional, External, served) && LbReady(Regional, External, late)
    ensures PrepareNodes(cfg, service, [served, late]) == Ok([])
  {
    FilterTwo(served, late, InClass(Regional, External, PublicNetUnready));
    FilterTwo(served, late, ReadyFor(Regional, External));
  }

  lemma LateAsks(cfg: Config, service: Service, env: Env, lb: LB, served: Node, late: Node)
    requires LateNode(cfg, service, env, lb, served, late)
    ensures Asks(cfg, service, Regional, External) && Asks(cfg, AnnotateWith(service, lb), RegionalNetwork, External)
    ensures BoolAnnotation(service, DisownLB) == Ok(None) && Annotation(AnnotateWith(service, lb), LoadBalancerNetworkStack) == ""
    ensures FindCertificateID(AnnotateWith(service, lb), env.look.certs) == Ok("")
  {
  }

  lemma LateRetrieved(service: Service, env: Env, lb: LB)
    requires Annotation(service, LoadBalancerID) == lb.id != "" && env.getWorks
    ensures Retrieve(service, [lb], env) == Ok(lb) && ById([lb], lb.id) == Some(lb)
  {
  }

  lemma LateWritten(cfg: Config, service: Service, env: Env, lb: LB, served: Node, late: Node)
    requires Asks(cfg, service, RegionalNetwork, External) && cfg.settingsOf(service).Ok? && service.ports == [ServicePort(TCP, 80, 30080)]
    requires Annotation(service, LoadBalancerNetworkStack) == "" && FindCertificateID(service, env.look.certs) == Ok("")
    requires served.providerID == ProviderID(1) && lb.dropletIDs == [1]
    requires LbReady(RegionalNetwork, External, served) && !LbReady(RegionalNetwork, External, late)
    requires env.nodes == [served, late] && env.updateWorks && env.status == Active
    ensures EnsureExisting(cfg, lb, service, [], env, [lb]).err.None?
  {
    LateBuild(cfg, service, env.look, served, late);
    assert Elements(lb.dropletIDs) == {1};
    ExistingSucceeds(cfg, lb, service, env, [lb]);
  }

  lemma LateReturnsNil(cfg: Config, service: Service, env: Env, lb: LB, served: Node, late: Node)
    requires LateNode(cfg, service, env, lb, served, late)
    ensures !Disowned(service) && Ensure(cfg, service, env, [lb]).err.None? && Retrieve(service, [lb], env) == Ok(lb)
    ensures Asks(cfg, service, Regional, External) && Asks(cfg, AnnotateWith(service, lb), RegionalNetwork, External)
    ensures late in env.nodes && AwaitsAddress(RegionalNetwork, External, late) && Misjudged(env.nodes, Regional, RegionalNetwork, External)
  {
    LateAsks(cfg, service, env, lb, served, late);
    LateRetrieved(service, env, lb);
    LateClasses(served, late);
    assert late in env.nodes;
    LatePrepared(cfg, service, served, late);
    LateWritten(cfg, AnnotateWith(service, lb), env, lb, served, late);
    EnsureSucceeds(cfg, service, env, [lb], lb);
  }

  lemma LateSeparate(served: Node, late: Node, droplets: Result<seq<Droplet>>)
    requires served.providerID == ProviderID(1) && late.providerID == ProviderID(2)
    ensures DropletID(late.providerID) == Ok(2)
    ensures forall m :: m in [served, late] && m != late ==> !StandsFor(m, 2, droplets)
  {
    ProviderIDRoundTrip(1);
    ProviderIDRoundTrip(2);
  }

  /** Misjudged nodes exist: in this family Ensure returns nil, so that nothing will retry,
      although the droplet of a public-intent node is not among the backends written. */
  lemma EnsureMissesNode(cfg: Config, service: Service, env: Env, lb: LB, served: Node, late: Node)
    requires LateNode(cfg, service, env, lb, served, late)
    ensures !Disowned(service) && Ensure(cfg, service, env, [lb]).err.None? && Retrieve(service, [lb], env) == Ok(lb)
    ensures Asks(cfg, service, Regional, External) && Asks(cfg, AnnotateWith(service, lb), RegionalNetwork, External)
    ensures Misjudged(env.nodes, Regional, RegionalNetwork, External)
    ensures var written := ById(Ensure(cfg, service, env, [lb]).lbs, lb.id);
      && written.Some? && late in env.nodes && DropletID(late.providerID) == Ok(2) && 2 !in written.value.dropletIDs
      && !AllAccounted(RegionalNetwork, External, env.nodes, written.value.dropletIDs, env.look.droplets)
  {
    LateReturnsNil(cfg, service, env, lb, served, late);
    EnsureNilAccountsIff(cfg, service, env, [lb], lb, Regional, RegionalNetwork, External);
    LateSeparate(served, late, env.look.droplets);
    AwaitingNotWritten(cfg, service, env, [lb], lb, RegionalNetwork, External, late, 2);
  }

  /** And the family is not empty. */
  lemma LateNodeExists(late: Node, service: Service, env: Env) returns (cfg: Config, s: Service, e: Env, lb: LB, served: Node, l: Node)
    ensures LateNode(cfg, s, e, lb, served, l)
  {
    cfg := Config(Regional, [], "", "", _ => Ok(Settings(map[])));
    lb := LB("lb", "name", TypeName(RegionalNetwork), Active, [1], [], IPv4);
    s := service.(annotations := map[LoadBalancerID := lb.id], ports := [ServicePort(TCP, 80, 30080)]);
    served := late.(providerID := ProviderID(1), addresses := [NodeAddress(ExternalIP, false)]);
    l := late.(providerID := ProviderID(2), addresses := [NodeAddress(InternalIP, false)], networkType := "");
    e := env.(nodes := [served, l], getWorks := true, updateWorks := true, patchWorks := true, status := Active);
  }
}
