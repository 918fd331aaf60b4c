/** The request that configures a load balancer for a service and its nodes. */
module LoadBalancerRequests {
  import opened Prelude
  import opened Seqs
  import opened Cluster
  import opened Droplets
  import opened NodeAdmission
  import opened ForwardingRules
  import opened ForwardingMeaning

  // ----- data -----

  /** The request fields read off single annotations (health check, sticky sessions,
      algorithm, size, flags, firewall, subnet). */
  datatype Settings = Settings(fields: map<string, string>)

  datatype Request = Request(name: string, lbType: LBType, network: Network, stack: Stack, rules: seq<ForwardingRule>,
                             settings: Settings, dropletIDs: seq<int>, tags: seq<string>, region: string, vpc: string)

  /** `settingsOf` stands for the single-annotation getters: any function will do. */
  datatype Config = Config(defaultType: LBType, tags: seq<string>, region: string, vpc: string,
                           settingsOf: Service -> Result<Settings>)

  /** What a build looks up: the certificate API and the list of all droplets. */
  datatype Lookups = Lookups(certs: Certificates, droplets: Result<seq<Droplet>>)

  // ----- network stack -----

  predicate IsAllDualStack(state: NodeState) {
    state.dualStack != [] && state.singleStackV4 == []
  }

  function DefaultStack(lbType: LBType, network: Network, state: Option<NodeState>): Stack {
    if network == Internal then IPv4
    else if lbType == RegionalNetwork then
      if state.Some? && IsAllDualStack(state.value) then DualStack else IPv4
    else DualStack
  }

  /** getNetworkStack; without a node state (admission) node checks are skipped. */
  function GetNetworkStack(service: Service, lbType: LBType, network: Network, state: Option<NodeState>): Result<Stack> {
    if state.Some? && state.value.lbReady == [] then Err(NoReadyNodes) else
    var name := Annotation(service, LoadBalancerNetworkStack);
    if name != "" && name != "IPV4" && name != "DUALSTACK" then Err(Failure) else
    var stack := if name == "" then DefaultStack(lbType, network, state) else if name == "IPV4" then IPv4 else DualStack;
    if stack == IPv4 then Ok(IPv4)
    else if network == Internal then Err(NetworkStackConfig)
    else if state.Some? && lbType == RegionalNetwork && state.value.singleStackV4 != [] then
      if name != "" then Err(NetworkStackConfig) else Err(BugDetected)
    else Ok(DualStack)
  }

  // ----- building -----

  function RulesFor(service: Service, certs: Certificates, lbType: LBType): Result<seq<ForwardingRule>> {
    if lbType == RegionalNetwork then RegionalNetworkRules(service) else Rules(service, certs)
  }

  /** buildLoadBalancerRequestWithNodeState */
  function Configure(cfg: Config, service: Service, certs: Certificates, state: Option<NodeState>): Result<Request> {
    var lbType :- GetType(service, cfg.defaultType);
    var network :- GetNetwork(service);
    var stack :- GetNetworkStack(service, lbType, network, state);
    var rules :- RulesFor(service, certs, lbType);
    match cfg.settingsOf(service)
    case Err(_) => Err(Failure)
    case Ok(settings) => Ok(Request(Name(service), lbType, network, stack, rules, settings, [], [], "", ""))
  }

  datatype Build = Build(request: Request, pendingNotReady: seq<Node>)

  const NOT_YET_LB_READY_RETRY := 5
  const NOT_YET_READY_RETRY := 15

  /** The part of buildLoadBalancerRequest that follows type and network, for any way to
      configure from a node state and to resolve nodes. */
  ghost function BuildFor(nodes: seq<Node>, admitted: set<int>, lbType: LBType, network: Network,
                          configure: NodeState -> Result<Request>, resolve: seq<Node> -> Result<seq<int>>): Result<Build>
  {
    var state := StateOf(nodes, lbType, network);
    if state.lbReady == [] && state.publicNetUnreadyCount > 0 && lbType == RegionalNetwork && network == External
    then Err(NoEligibleBackends) else
    var admit := Filter(state.lbReady, Admissible(admitted));
    var pending := Filter(state.lbReady, Inadmissible(admitted));
    if admit == [] && pending != [] then Err(RetryAfter(NOT_YET_READY_RETRY)) else
    var request :- configure(StateOf(admit, lbType, network));
    var ids :- resolve(admit);
    Ok(Build(request.(dropletIDs := ids), pending))
  }

  ghost function Configurer(cfg: Config, service: Service, certs: Certificates): NodeState -> Result<Request> {
    state =>
      match Configure(cfg, service, certs, Some(state))
      case Err(e) => Err(e)
      case Ok(request) => Ok(request.(tags := cfg.tags, region := cfg.region, vpc := cfg.vpc))
  }

  ghost function Resolver(droplets: Result<seq<Droplet>>): seq<Node> -> Result<seq<int>> {
    nodes => DropletIDs(nodes, droplets)
  }

  /** buildLoadBalancerRequest on a node list, given the droplets already admitted. */
  ghost function BuildRequest(cfg: Config, service: Service, nodes: seq<Node>, admitted: set<int>, look: Lookups): Result<Build> {
    var network :- GetNetwork(service);
    var lbType :- GetType(service, cfg.defaultType);
    BuildFor(nodes, admitted, lbType, network, Configurer(cfg, service, look.certs), Resolver(look.droplets))
  }

  method BuildLoadBalancerRequest(cfg: Config, service: Service, nodes: seq<Node>, admitted: set<int>, look: Lookups)
    returns (r: Result<Build>)
    ensures r == BuildRequest(cfg, service, nodes, admitted, look)
  {
    var network := GetNetwork(service);
    if network.Err? {
      return Err(network.error);
    }
    var lbType := GetType(service, cfg.defaultType);
    if lbType.Err? {
      return Err(lbType.error);
    }
    var state := FilterAndClassifyNodes(nodes, lbType.value, network.value);
    if state.lbReady == [] && state.publicNetUnreadyCount > 0 && lbType.value == RegionalNetwork && network.value == External {
      return Err(NoEligibleBackends);
    }
    var admit, pending := FilterByReadiness(state.lbReady, admitted);
    if admit == [] && pending != [] {
      return Err(RetryAfter(NOT_YET_READY_RETRY));
    }
    var admitState := FilterAndClassifyNodes(admit, lbType.value, network.value);
    var request := Configure(cfg, service, look.certs, Some(admitState));
    if request.Err? {
      return Err(request.error);
    }
    var ids := NodesToDropletIDs(admit, look.droplets);
    if ids.Err? {
      return Err(ids.error);
    }
    return Ok(Build(request.value.(dropletIDs := ids.value, tags := cfg.tags, region := cfg.region, vpc := cfg.vpc), pending));
  }

  // ----- what a successful build is -----

  /** The type and network a service asks for. */
  ghost predicate Asks(cfg: Config, service: Service, lbType: LBType, network: Network) {
    GetType(service, cfg.defaultType) == Ok(lbType) && GetNetwork(service) == Ok(network)
  }

  lemma BuildForMeaning(nodes: seq<Node>, admitted: set<int>, lbType: LBType, network: Network,
                        configure: NodeState -> Result<Request>, resolve: seq<Node> -> Result<seq<int>>)
    requires BuildFor(nodes, admitted, lbType, network, configure, resolve).Ok?
    ensures var b := BuildFor(nodes, admitted, lbType, network, configure, resolve).value;
            var admit := Admitted(nodes, lbType, network, admitted);
      && StateOf(admit, lbType, network).lbReady == admit
      && configure(StateOf(admit, lbType, network)).Ok? && resolve(admit).Ok?
      && b == Build(configure(StateOf(admit, lbType, network)).value.(dropletIDs := resolve(admit).value),
                    HeldBack(nodes, lbType, network, admitted))
  {
    AdmittedStable(nodes, lbType, network, admitted);
  }

  /** Building succeeds once some node is admitted and both steps succeed on the admitted. */
  lemma BuildForSucceeds(nodes: seq<Node>, admitted: set<int>, lbType: LBType, network: Network,
                         configure: NodeState -> Result<Request>, resolve: seq<Node> -> Result<seq<int>>)
    requires var admit := Admitted(nodes, lbType, network, admitted);
             admit != [] && configure(StateOf(admit, lbType, network)).Ok? && resolve(admit).Ok?
    ensures var b := BuildFor(nodes, admitted, lbType, network, configure, resolve);
            b.Ok? && b.value.pendingNotReady == HeldBack(nodes, lbType, network, admitted)
  {
  }

  lemma ConfigureMeaning(cfg: Config, service: Service, certs: Certificates, state: Option<NodeState>, lbType: LBType, network: Network)
    requires Configure(cfg, service, certs, state).Ok? && Asks(cfg, service, lbType, network)
    ensures var r := Configure(cfg, service, certs, state).value;
      && (state.Some? ==> state.value.lbReady != [])
      && GetNetworkStack(service, lbType, network, state) == Ok(r.stack)
      && RulesFor(service, certs, lbType) == Ok(r.rules) && cfg.settingsOf(service) == Ok(r.settings)
      && r == Request(Name(service), lbType, network, r.stack, r.rules, r.settings, [], [], "", "")
  {
  }

  /** A successful build writes at least one admitted node, resolves exactly the admitted
      nodes and reports exactly the held-back ones. */
  lemma BuildMeaning(cfg: Config, service: Service, nodes: seq<Node>, admitted: set<int>, look: Lookups, lbType: LBType, network: Network)
    requires BuildRequest(cfg, service, nodes, admitted, look).Ok? && Asks(cfg, service, lbType, network)
    ensures var b := BuildRequest(cfg, service, nodes, admitted, look).value;
            var admit := Admitted(nodes, lbType, network, admitted);
      && admit != []
      && DropletIDs(admit, look.droplets) == Ok(b.request.dropletIDs)
      && b.pendingNotReady == HeldBack(nodes, lbType, network, admitted)
      && RulesFor(service, look.certs, lbType) == Ok(b.request.rules) && cfg.settingsOf(service) == Ok(b.request.settings)
      && GetNetworkStack(service, lbType, network, Some(StateOf(admit, lbType, network))) == Ok(b.request.stack)
      && b.request == Request(Name(service), lbType, network, b.request.stack, b.request.rules, b.request.settings,
                              b.request.dropletIDs, cfg.tags, cfg.region, cfg.vpc)
  {
    BuildForMeaning(nodes, admitted, lbType, network, Configurer(cfg, service, look.certs), Resolver(look.droplets));
    ConfigureMeaning(cfg, service, look.certs, Some(StateOf(Admitted(nodes, lbType, network, admitted), lbType, network)), lbType, network);
  }

  /** Every written ID has a listed usable node that stands for it and was admitted. */
  lemma WrittenStandsFor(cfg: Config, service: Service, nodes: seq<Node>, admitted: set<int>, look: Lookups, lbType: LBType, network: Network, d: int)
    returns (n: Node)
    requires BuildRequest(cfg, service, nodes, admitted, look).Ok? && Asks(cfg, service, lbType, network)
    requires d in BuildRequest(cfg, service, nodes, admitted, look).value.request.dropletIDs
    ensures n in nodes && LbReady(lbType, network, n) && StandsFor(n, d, look.droplets) && (AlreadyAdmitted(n, admitted) || Serving(n))
  {
    BuildMeaning(cfg, service, nodes, admitted, look, lbType, network);
    var admit := Admitted(nodes, lbType, network, admitted);
    DropletIDsMeaning(admit, look.droplets);
    n :| n in admit && StandsFor(n, d, look.droplets);
    AdmittedMember(nodes, lbType, network, admitted, n);
  }

  /** Exactly when a successful build writes an empty backend set: no admitted node has a
      ProviderID, and no listed droplet carries the name of one as name or address. */
  lemma NoBackendsIff(cfg: Config, service: Service, nodes: seq<Node>, admitted: set<int>, look: Lookups, lbType: LBType, network: Network)
    requires BuildRequest(cfg, service, nodes, admitted, look).Ok? && Asks(cfg, service, lbType, network)
    ensures BuildRequest(cfg, service, nodes, admitted, look).value.request.dropletIDs == [] <==>
            forall n :: n in Admitted(nodes, lbType, network, admitted) ==> !Findable(n, look.droplets)
  {
    BuildMeaning(cfg, service, nodes, admitted, look, lbType, network);
    NoIdsIff(Admitted(nodes, lbType, network, admitted), look.droplets);
  }

  /** When all admitted nodes have ProviderIDs, every one of them is written, one ID each. */
  lemma OneIdPerNode(cfg: Config, service: Service, nodes: seq<Node>, admitted: set<int>, look: Lookups, lbType: LBType, network: Network)
    requires BuildRequest(cfg, service, nodes, admitted, look).Ok? && Asks(cfg, service, lbType, network)
    requires forall n :: n in Admitted(nodes, lbType, network, admitted) ==> n.providerID != ""
    ensures var ids := BuildRequest(cfg, service, nodes, admitted, look).value.request.dropletIDs;
            ids != [] && |ids| == |Admitted(nodes, lbType, network, admitted)|
  {
    BuildMeaning(cfg, service, nodes, admitted, look, lbType, network);
    DropletIDsMeaning(Admitted(nodes, lbType, network, admitted), look.droplets);
  }

  /** Held-back nodes cannot shape the configuration: building from the admitted nodes
      alone gives the same request and holds nothing back. */
  lemma HeldBackCannotShape(cfg: Config, service: Service, nodes: seq<Node>, admitted: set<int>, look: Lookups, lbType: LBType, network: Network)
    requires BuildRequest(cfg, service, nodes, admitted, look).Ok? && Asks(cfg, service, lbType, network)
    ensures BuildRequest(cfg, service, Admitted(nodes, lbType, network, admitted), admitted, look)
         == Ok(Build(BuildRequest(cfg, service, nodes, admitted, look).value.request, []))
  {
    BuildForShape(nodes, admitted, lbType, network, Configurer(cfg, service, look.certs), Resolver(look.droplets));
    BuildMeaning(cfg, service, nodes, admitted, look, lbType, network);
  }

  lemma BuildForShape(nodes: seq<Node>, admitted: set<int>, lbType: LBType, network: Network,
                      configure: NodeState -> Result<Request>, resolve: seq<Node> -> Result<seq<int>>)
    requires BuildFor(nodes, admitted, lbType, network, configure, resolve).Ok?
    requires Admitted(nodes, lbType, network, admitted) != []
    ensures BuildFor(Admitted(nodes, lbType, network, admitted), admitted, lbType, network, configure, resolve)
         == Ok(Build(BuildFor(nodes, admitted, lbType, network, configure, resolve).value.request, []))
  {
    AdmittedStable(nodes, lbType, network, admitted);
  }

  /** Nothing but the admitted nodes reaches the request. */
  lemma SameAdmittedSameRequest(cfg: Config, service: Service, nodes: seq<Node>, others: seq<Node>, admitted: set<int>, look: Lookups,
                                lbType: LBType, network: Network)
    requires Asks(cfg, service, lbType, network)
    requires BuildRequest(cfg, service, nodes, admitted, look).Ok? && BuildRequest(cfg, service, others, admitted, look).Ok?
    requires Admitted(nodes, lbType, network, admitted) == Admitted(others, lbType, network, admitted)
    ensures BuildRequest(cfg, service, nodes, admitted, look).value.request == BuildRequest(cfg, service, others, admitted, look).value.request
  {
    HeldBackCannotShape(cfg, service, nodes, admitted, look, lbType, network);
    HeldBackCannotShape(cfg, service, others, admitted, look, lbType, network);
  }

  /** The forwarding rules of a REGIONAL_NETWORK request. */
  lemma BuiltRegionalRules(cfg: Config, service: Service, nodes: seq<Node>, admitted: set<int>, look: Lookups, network: Network)
    requires BuildRequest(cfg, service, nodes, admitted, look).Ok? && Asks(cfg, service, RegionalNetwork, network)
    ensures var rules := BuildRequest(cfg, service, nodes, admitted, look).value.request.rules;
      && |rules| == |service.ports|
      && forall i :: 0 <= i < |rules| ==>
           && rules[i].entryPort == service.ports[i].port && rules[i].targetPort == service.ports[i].port
           && rules[i].targetProtocol == rules[i].entryProtocol == (if service.ports[i].protocol == TCP then Tcp else Udp)
           && (service.ports[i].protocol == TCP || service.ports[i].protocol == UDP)
           && rules[i].certificateID == "" && !rules[i].tlsPassthrough
  {
    BuildMeaning(cfg, service, nodes, admitted, look, RegionalNetwork, network);
    RegionalRulesExactly(service);
  }

  /** What is refused, and how: without a usable node an external REGIONAL_NETWORK service
      with nodes short of an address has no eligible backends, any other has no ready nodes;
      with usable nodes of which none is admitted the sync is put off for 15 seconds. */
  lemma BuildRefuses(cfg: Config, service: Service, nodes: seq<Node>, admitted: set<int>, look: Lookups, lbType: LBType, network: Network)
    requires Asks(cfg, service, lbType, network)
    ensures var r := BuildRequest(cfg, service, nodes, admitted, look);
            var usable := exists n :: n in nodes && LbReady(lbType, network, n);
            var short := exists n :: n in nodes && network == External && ClassFor(lbType, network, n) == PublicNetUnready;
      && (r == Err(NoEligibleBackends) <==> !usable && short && lbType == RegionalNetwork)
      && (r == Err(NoReadyNodes) <==> !usable && !(short && lbType == RegionalNetwork))
      && (r == Err(RetryAfter(15)) <==> usable && Admitted(nodes, lbType, network, admitted) == [])
  {
    ByFilter(nodes, admitted, lbType, network);
    AdmittedStable(nodes, lbType, network, admitted);
    RefusedFor(nodes, admitted, lbType, network, Configurer(cfg, service, look.certs), Resolver(look.droplets));
    ConfigureErrors(cfg, service, look.certs, StateOf(Admitted(nodes, lbType, network, admitted), lbType, network), lbType, network);
    ResolveErrors(Admitted(nodes, lbType, network, admitted), look.droplets);
  }

  lemma ByFilter(nodes: seq<Node>, admitted: set<int>, lbType: LBType, network: Network)
    ensures Filter(nodes, ReadyFor(lbType, network)) != [] <==> exists n :: n in nodes && LbReady(lbType, network, n)
    ensures Filter(nodes, InClass(lbType, network, PublicNetUnready)) != []
       <==> exists n :: n in nodes && network == External && ClassFor(lbType, network, n) == PublicNetUnready
    ensures Filter(nodes, ReadyFor(lbType, network)) == []
       <==> Admitted(nodes, lbType, network, admitted) == [] && HeldBack(nodes, lbType, network, admitted) == []
  {
    var ready, unready := Filter(nodes, ReadyFor(lbType, network)), Filter(nodes, InClass(lbType, network, PublicNetUnready));
    FilterMembers(nodes, ReadyFor(lbType, network));
    FilterMembers(nodes, InClass(lbType, network, PublicNetUnready));
    assert ready != [] ==> ready[0] in ready;
    assert unready != [] ==> unready[0] in unready;
    FilterSplit(ready, Admissible(admitted), Inadmissible(admitted));
    SplitEmpty(ready, Filter(ready, Admissible(admitted)), Filter(ready, Inadmissible(admitted)));
  }

  lemma SplitEmpty<T>(s: seq<T>, a: seq<T>, b: seq<T>)
    requires multiset(a) + multiset(b) == multiset(s)
    ensures s == [] <==> a == [] && b == []
  {
    assert |s| == |multiset(s)| == |multiset(a)| + |multiset(b)| == |a| + |b|;
  }

  lemma ResolveErrors(nodes: seq<Node>, droplets: Result<seq<Droplet>>)
    ensures DropletIDs(nodes, droplets).Err? ==> DropletIDs(nodes, droplets).error == Failure
  {
  }

  /** Configuring fails for want of ready nodes exactly on a state without any. */
  lemma ConfigureErrors(cfg: Config, service: Service, certs: Certificates, state: NodeState, lbType: LBType, network: Network)
    requires Asks(cfg, service, lbType, network)
    ensures var r := Configure(cfg, service, certs, Some(state));
      && (r == Err(NoReadyNodes) <==> state.lbReady == [])
      && r != Err(NoEligibleBackends) && r != Err(RetryAfter(15))
  {
    StackExactly(service, lbType, network, Some(state));
  }

  lemma RefusedFor(nodes: seq<Node>, admitted: set<int>, lbType: LBType, network: Network,
                   configure: NodeState -> Result<Request>, resolve: seq<Node> -> Result<seq<int>>)
    ensures var ready, unready := Filter(nodes, ReadyFor(lbType, network)), Filter(nodes, InClass(lbType, network, PublicNetUnready));
            var admit := Admitted(nodes, lbType, network, admitted);
            var r := BuildFor(nodes, admitted, lbType, network, configure, resolve);
      if ready == [] && unready != [] && lbType == RegionalNetwork && network == External then r == Err(NoEligibleBackends)
      else if admit == [] && HeldBack(nodes, lbType, network, admitted) != [] then r == Err(RetryAfter(15))
      else if configure(StateOf(admit, lbType, network)).Err? then r == Err(configure(StateOf(admit, lbType, network)).error)
      else if resolve(admit).Err? then r == Err(resolve(admit).error)
      else r.Ok?
  {
  }

  // ----- dual stack -----

  /** The network stack, and exactly when and how it is refused. */
  lemma StackExactly(service: Service, lbType: LBType, network: Network, state: Option<NodeState>)
    ensures var text, r := Annotation(service, LoadBalancerNetworkStack), GetNetworkStack(service, lbType, network, state);
            var noneReady := state.Some? && state.value.lbReady == [];
            var unfit := network == Internal || (lbType == RegionalNetwork && state.Some? && state.value.singleStackV4 != []);
            var byDefault := network == External && (lbType == Regional || (state.Some? && state.value.dualStack != [] && state.value.singleStackV4 == []));
      && (r == Err(NoReadyNodes) <==> noneReady)
      && (r == Err(Failure) <==> !noneReady && text !in {"", "IPV4", "DUALSTACK"})
      && (r == Err(NetworkStackConfig) <==> !noneReady && text == "DUALSTACK" && unfit)
      && (r == Ok(DualStack) <==> !noneReady && ((text == "DUALSTACK" && !unfit) || (text == "" && byDefault)))
      && (r == Ok(IPv4) <==> !noneReady && (text == "IPV4" || (text == "" && !byDefault)))
  {
  }

  lemma BugUnreachable(service: Service, lbType: LBType, network: Network, state: Option<NodeState>)
    ensures GetNetworkStack(service, lbType, network, state) != Err(BugDetected)
    ensures network == Internal ==> GetNetworkStack(service, lbType, network, state) != Ok(DualStack)
  {
  }

  ghost predicate AllDual(nodes: seq<Node>, lbType: LBType, network: Network) {
    forall n :: n in nodes ==> ClassFor(lbType, network, n) == DualStackNode
  }

  lemma AllDualOfAdmitted(nodes: seq<Node>, lbType: LBType, admitted: set<int>)
    ensures var admit := Admitted(nodes, lbType, External, admitted); var state := StateOf(admit, lbType, External);
      && (state.singleStackV4 == [] <==> AllDual(admit, lbType, External))
      && (admit != [] ==> (IsAllDualStack(state) <==> AllDual(admit, lbType, External)))
  {
    var admit := Admitted(nodes, lbType, External, admitted);
    var state := StateOf(admit, lbType, External);
    forall n | n in admit ensures ClassFor(lbType, External, n) == SingleStackV4 || ClassFor(lbType, External, n) == DualStackNode {
      AdmittedMember(nodes, lbType, External, admitted, n);
    }
    FilterMembers(admit, InClass(lbType, External, SingleStackV4));
    FilterMembers(admit, InClass(lbType, External, DualStackNode));
    assert state.singleStackV4 != [] ==> state.singleStackV4[0] in state.singleStackV4;
    if AllDual(admit, lbType, External) && admit != [] {
      assert admit[0] in state.dualStack;
    }
  }

  /** An external pass-through load balancer is dual-stack only if every admitted node
      is, and by default exactly then; an internal one never is; other external ones are
      by default; and an annotation that can be met is. */
  lemma DualStackSound(cfg: Config, service: Service, nodes: seq<Node>, admitted: set<int>, look: Lookups, lbType: LBType, network: Network)
    requires BuildRequest(cfg, service, nodes, admitted, look).Ok? && Asks(cfg, service, lbType, network)
    ensures var stack := BuildRequest(cfg, service, nodes, admitted, look).value.request.stack;
            var dual := AllDual(Admitted(nodes, lbType, network, admitted), lbType, network);
      && (network == Internal ==> stack == IPv4)
      && (lbType == RegionalNetwork && network == External && stack == DualStack ==> dual)
      && (lbType == RegionalNetwork && network == External && Annotation(service, LoadBalancerNetworkStack) == "" ==> (stack == DualStack <==> dual))
      && (lbType == Regional && network == External && Annotation(service, LoadBalancerNetworkStack) == "" ==> stack == DualStack)
      && (Annotation(service, LoadBalancerNetworkStack) == "IPV4" ==> stack == IPv4)
      && (Annotation(service, LoadBalancerNetworkStack) == "DUALSTACK" ==> stack == DualStack)
  {
    BuildMeaning(cfg, service, nodes, admitted, look, lbType, network);
    if network == External {
      AllDualOfAdmitted(nodes, lbType, admitted);
    }
  }

  // ----- admission -----

  /** The node-less build of the admission webhook is a sound weakening: if the node-aware
      build succeeds so does it, and they differ at most in the network stack, and there
      exactly when an un-annotated external pass-through service has only dual-stack nodes. */
  lemma AdmissionIsWeaker(cfg: Config, service: Service, nodes: seq<Node>, admitted: set<int>, look: Lookups, lbType: LBType, network: Network)
    requires BuildRequest(cfg, service, nodes, admitted, look).Ok? && Asks(cfg, service, lbType, network)
    ensures var full := BuildRequest(cfg, service, nodes, admitted, look).value.request;
            var bare := Configure(cfg, service, look.certs, None);
      && bare.Ok?
      && bare.value == full.(dropletIDs := [], tags := [], region := "", vpc := "", stack := bare.value.stack)
      && (bare.value.stack != full.stack <==>
            && Annotation(service, LoadBalancerNetworkStack) == "" && lbType == RegionalNetwork && network == External
            && AllDual(Admitted(nodes, lbType, network, admitted), lbType, network))
  {
    BuildMeaning(cfg, service, nodes, admitted, look, lbType, network);
    var state := StateOf(Admitted(nodes, lbType, network, admitted), lbType, network);
    if network == External {
      AllDualOfAdmitted(nodes, lbType, admitted);
    }
    BareStack(service, lbType, network, state);
    ConfigureBare(cfg, service, look.certs, lbType, network);
  }

  lemma BareStack(service: Service, lbType: LBType, network: Network, state: NodeState)
    requires GetNetworkStack(service, lbType, network, Some(state)).Ok?
    ensures GetNetworkStack(service, lbType, network, None).Ok?
    ensures GetNetworkStack(service, lbType, network, None) != GetNetworkStack(service, lbType, network, Some(state)) <==>
            Annotation(service, LoadBalancerNetworkStack) == "" && lbType == RegionalNetwork && network == External && IsAllDualStack(state)
  {
  }

  lemma ConfigureBare(cfg: Config, service: Service, certs: Certificates, lbType: LBType, network: Network)
    requires Asks(cfg, service, lbType, network) && GetNetworkStack(service, lbType, network, None).Ok?
    requires RulesFor(service, certs, lbType).Ok? && cfg.settingsOf(service).Ok?
    ensures Configure(cfg, service, certs, None)
         == Ok(Request(Name(service), lbType, network, GetNetworkStack(service, lbType, network, None).value,
                       RulesFor(service, certs, lbType).value, cfg.settingsOf(service).value, [], [], "", ""))
  {
  }
}
