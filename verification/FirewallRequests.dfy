/** The firewall request a set of services calls for (createReconciledFirewallRequest). */
module FirewallRequests {
  import opened Prelude
  import opened Seqs
  import opened Text
  import opened StableSorting
  import opened Cluster
  import opened Firewalls

  // ----- rules -----

  const ANYWHERE: seq<string> := ["0.0.0.0/0", "::/0"]

  function FromAnywhere(protocol: string, port: int): Rule {
    Rule(protocol, Itoa(port), Some(Peers(ANYWHERE, [], [], [], [])), "")
  }

  function FromLoadBalancer(protocol: string, port: int, lbID: string): Rule {
    Rule(protocol, Itoa(port), Some(Peers([], [], [], [lbID], [])), "")
  }

  const ALLOW_ALL_OUTBOUND: seq<Rule> := [
    Rule("tcp", "all", Some(Peers(ANYWHERE, [], [], [], [])), ""),
    Rule("udp", "all", Some(Peers(ANYWHERE, [], [], [], [])), ""),
    Rule("icmp", "", Some(Peers(ANYWHERE, [], [], [], [])), "")]

  function ProtocolName(p: PortProtocol): (name: Option<string>)
    ensures name.Some? ==> name.value == "tcp" || name.value == "udp"
  {
    match p
    case TCP => Some("tcp")
    case UDP => Some("udp")
    case OtherProtocol(_) => None
  }

  /** A key of the loadBalancerPorts map. The sources of a key are a pointer in the
      original, so keys allocated for different services are never equal: `owner` is
      the position of the service the pointer was allocated for. */
  datatype LbPort = LbPort(port: int, protocol: string, sources: Option<Source>)
  datatype Source = Source(owner: nat, lbID: string)

  function RuleOf(p: LbPort): Rule {
    match p.sources
    case None => FromAnywhere(p.protocol, p.port)
    case Some(s) => FromLoadBalancer(p.protocol, p.port, s.lbID)
  }

  // ----- what each service contributes -----

  /** isManaged, with an unreadable flag counting as managed. */
  predicate Managed(service: Service) {
    match BoolAnnotation(service, FirewallManaged)
    case Ok(Some(b)) => b
    case _ => true
  }

  predicate OpensNodePort(service: Service, p: ServicePort) {
    service.kind == NodePort && Managed(service) && p.nodePort != 0 && ProtocolName(p.protocol).Some?
  }

  function NodePortRule(p: ServicePort): Rule
    requires ProtocolName(p.protocol).Some?
  {
    FromAnywhere(ProtocolName(p.protocol).value, p.nodePort)
  }

  predicate Resolvable(service: Service, default: LBType) {
    service.kind == LoadBalancer ==> GetType(service, default).Ok? && GetNetwork(service).Ok?
  }

  predicate PassesThrough(service: Service, default: LBType) {
    service.kind == LoadBalancer && GetType(service, default) == Ok(RegionalNetwork) && GetNetwork(service) == Ok(External)
  }

  predicate AllResolvable(services: seq<Service>, default: LBType) {
    forall i :: 0 <= i < |services| ==> Resolvable(services[i], default)
  }

  ghost function NodePortBagUpTo(service: Service, n: nat): multiset<Rule>
    requires n <= |service.ports|
  {
    if n == 0 then multiset{} else
      NodePortBagUpTo(service, n - 1)
      + if OpensNodePort(service, service.ports[n - 1]) then multiset{NodePortRule(service.ports[n - 1])} else multiset{}
  }

  /** One rule per managed TCP/UDP node port, repeats included. */
  ghost function NodePortBag(service: Service): multiset<Rule> {
    NodePortBagUpTo(service, |service.ports|)
  }

  /** The health port of a pass-through service that already has a load balancer is
      opened for that load balancer alone. */
  ghost function HealthBag(service: Service, default: LBType): multiset<Rule> {
    if PassesThrough(service, default) && Annotation(service, LoadBalancerID) != ""
    then multiset{FromLoadBalancer("tcp", HealthCheckPort(service), Annotation(service, LoadBalancerID))}
    else multiset{}
  }

  ghost function HealthOf(default: LBType): Service -> multiset<Rule> {
    s => HealthBag(s, default)
  }

  /** Ports a pass-through service opens to everyone. */
  ghost predicate OpensToAll(service: Service, default: LBType, protocol: string, port: int) {
    && PassesThrough(service, default)
    && (|| (Annotation(service, LoadBalancerID) == "" && protocol == "tcp" && port == HealthCheckPort(service))
        || exists p :: p in service.ports && ProtocolName(p.protocol) == Some(protocol) && p.port == port)
  }

  ghost function PortKeysUpTo(service: Service, n: nat): set<LbPort>
    requires n <= |service.ports|
  {
    if n == 0 then {} else
      var p := service.ports[n - 1];
      match ProtocolName(p.protocol)
      case None => PortKeysUpTo(service, n - 1)
      case Some(name) => PortKeysUpTo(service, n - 1) + {LbPort(p.port, name, None)}
  }

  /** The ports a pass-through service opens to everyone, as keys without sources. */
  ghost function OpenKeys(service: Service, default: LBType): set<LbPort> {
    if !PassesThrough(service, default) then {} else
      (if Annotation(service, LoadBalancerID) == "" then {LbPort(HealthCheckPort(service), "tcp", None)} else {})
      + PortKeysUpTo(service, |service.ports|)
  }

  ghost function AllOpenKeys(services: seq<Service>, default: LBType): set<LbPort> {
    if services == [] then {} else
      AllOpenKeys(services[..|services| - 1], default) + OpenKeys(services[|services| - 1], default)
  }

  ghost function RulesFor(keys: set<LbPort>): set<Rule> {
    set k | k in keys :: RuleOf(k)
  }

  /** The inbound rules a service list calls for, as a bag: node ports and load
      balancer health ports once per occurrence, open ports once in all. */
  ghost function RuleBag(services: seq<Service>, default: LBType): multiset<Rule> {
    Sum(services, NodePortBag) + Sum(services, HealthOf(default))
    + multiset(RulesFor(AllOpenKeys(services, default)))
  }

  predicate PortOrder(r: Rule, s: Rule) {
    if r.protocol == s.protocol then LexLeq(r.portRange, s.portRange) else LexLeq(r.protocol, s.protocol)
  }

  /** What createReconciledFirewallRequest may return; the order of rules that tie on
      protocol and port is left open. */
  ghost predicate IsRequest(services: seq<Service>, default: LBType, name: string, tags: seq<string>, r: Result<FirewallRequest>) {
    match r
    case Err(_) => !AllResolvable(services, default)
    case Ok(fr) =>
      && AllResolvable(services, default)
      && fr.name == name && fr.tags == tags && fr.outbound == ALLOW_ALL_OUTBOUND
      && Sorted(fr.inbound, PortOrder)
      && multiset(fr.inbound) == RuleBag(services, default)
  }

  // ----- the keys of the loadBalancerPorts map -----

  /** Insertion into the map; the keys are listed in the order they were first seen. */
  function AddKey(keys: seq<LbPort>, k: LbPort): seq<LbPort> {
    if k in keys then keys else keys + [k]
  }

  function AddPorts(keys: seq<LbPort>, service: Service, n: nat): seq<LbPort>
    requires n <= |service.ports|
  {
    if n == 0 then keys else
      var p := service.ports[n - 1];
      match ProtocolName(p.protocol)
      case None => AddPorts(keys, service, n - 1)
      case Some(name) => AddKey(AddPorts(keys, service, n - 1), LbPort(p.port, name, None))
  }

  function HealthKey(service: Service, owner: nat): LbPort {
    var lbID := Annotation(service, LoadBalancerID);
    LbPort(HealthCheckPort(service), "tcp", if lbID != "" then Some(Source(owner, lbID)) else None)
  }

  function AddService(keys: seq<LbPort>, service: Service, owner: nat, default: LBType): seq<LbPort> {
    if PassesThrough(service, default)
    then AddPorts(AddKey(keys, HealthKey(service, owner)), service, |service.ports|)
    else keys
  }

  function KeysOf(services: seq<Service>, default: LBType): seq<LbPort> {
    if services == [] then [] else
      var n := |services| - 1;
      AddService(KeysOf(services[..n], default), services[n], n, default)
  }

  // ----- what the keys stand for -----

  predicate Distinct(keys: seq<LbPort>) {
    forall i, j :: 0 <= i < j < |keys| ==> keys[i] != keys[j]
  }

  ghost function KeyBag(k: LbPort): multiset<Rule> {
    multiset{RuleOf(k)}
  }

  ghost function SourcedBag(k: LbPort): multiset<Rule> {
    if k.sources.Some? then multiset{RuleOf(k)} else multiset{}
  }

  /** The keys without sources. */
  ghost function Unsourced(keys: seq<LbPort>): set<LbPort> {
    set k | k in keys && k.sources.None?
  }

  lemma RulesForAdd(keys: set<LbPort>, k: LbPort)
    requires k !in keys && k.sources.None? && forall j :: j in keys ==> j.sources.None?
    ensures multiset(RulesFor(keys + {k})) == multiset(RulesFor(keys)) + KeyBag(k)
  {
    forall j | j in keys ensures RuleOf(j) != RuleOf(k) {
      if RuleOf(j) == RuleOf(k) {
        ItoaInjective(j.port, k.port);
      }
    }
    assert RulesFor(keys + {k}) == RulesFor(keys) + {RuleOf(k)};
  }

  /** The rules of distinct keys: one per open port and one per sourced key. */
  lemma {:induction false} RulesOfDistinctKeys(keys: seq<LbPort>)
    requires Distinct(keys)
    ensures Sum(keys, KeyBag) == multiset(RulesFor(Unsourced(keys))) + Sum(keys, SourcedBag)
  {
    if keys == [] {
      assert RulesFor(Unsourced(keys)) == {};
    } else {
      var n := |keys| - 1;
      var k := keys[n];
      RulesOfDistinctKeys(keys[..n]);
      if k.sources.None? {
        assert Unsourced(keys) == Unsourced(keys[..n]) + {k};
        RulesForAdd(Unsourced(keys[..n]), k);
      } else {
        assert Unsourced(keys) == Unsourced(keys[..n]);
      }
    }
  }

  /** Keys are distinct, and those with sources belong to earlier services. */
  predicate WellKept(keys: seq<LbPort>, owner: nat) {
    Distinct(keys) && forall k :: k in keys && k.sources.Some? ==> k.sources.value.owner < owner
  }

  lemma AddKeyUnsourced(keys: seq<LbPort>, k: LbPort)
    ensures Unsourced(AddKey(keys, k)) == Unsourced(keys) + if k.sources.None? then {k} else {}
  {
  }

  lemma {:induction false} AddPortsMeaning(keys: seq<LbPort>, service: Service, n: nat, owner: nat)
    requires n <= |service.ports| && WellKept(keys, owner)
    ensures WellKept(AddPorts(keys, service, n), owner)
    ensures Unsourced(AddPorts(keys, service, n)) == Unsourced(keys) + PortKeysUpTo(service, n)
  {
    if n > 0 {
      AddPortsMeaning(keys, service, n - 1, owner);
      var p := service.ports[n - 1];
      if ProtocolName(p.protocol).Some? {
        AddKeyUnsourced(AddPorts(keys, service, n - 1), LbPort(p.port, ProtocolName(p.protocol).value, None));
      }
    }
  }

  lemma AddKeyNothing(keys: seq<LbPort>, k: LbPort, f: LbPort -> multiset<Rule>)
    requires f(k) == multiset{}
    ensures Sum(AddKey(keys, k), f) == Sum(keys, f)
  {
    SumLast(keys, k, f);
  }

  lemma {:induction false} AddPortsSources(keys: seq<LbPort>, service: Service, n: nat, f: LbPort -> multiset<Rule>)
    requires n <= |service.ports| && forall k: LbPort :: k.sources.None? ==> f(k) == multiset{}
    ensures Sum(AddPorts(keys, service, n), f) == Sum(keys, f)
  {
    if n > 0 {
      AddPortsSources(keys, service, n - 1, f);
      var p := service.ports[n - 1];
      if ProtocolName(p.protocol).Some? {
        var k := LbPort(p.port, ProtocolName(p.protocol).value, None);
        assert k.sources.None?;
        AddKeyNothing(AddPorts(keys, service, n - 1), k, f);
      }
    }
  }

  lemma {:induction false} AddServiceMeaning(keys: seq<LbPort>, service: Service, owner: nat, default: LBType)
    requires WellKept(keys, owner)
    ensures WellKept(AddService(keys, service, owner, default), owner + 1)
    ensures Unsourced(AddService(keys, service, owner, default)) == Unsourced(keys) + OpenKeys(service, default)
  {
    if PassesThrough(service, default) {
      var k := HealthKey(service, owner);
      AddKeyUnsourced(keys, k);
      AddPortsMeaning(AddKey(keys, k), service, |service.ports|, owner + 1);
    }
  }

  lemma {:induction false} AddServiceSources(keys: seq<LbPort>, service: Service, owner: nat, default: LBType)
    requires WellKept(keys, owner)
    ensures Sum(AddService(keys, service, owner, default), SourcedBag) == Sum(keys, SourcedBag) + HealthBag(service, default)
  {
    if PassesThrough(service, default) {
      var k := HealthKey(service, owner);
      AddPortsSources(AddKey(keys, k), service, |service.ports|, SourcedBag);
      assert SourcedBag(k) == HealthBag(service, default);
      assert k in keys ==> k.sources.None?;
      SumLast(keys, k, SourcedBag);
    }
  }

  lemma {:induction false} KeysMeaning(services: seq<Service>, default: LBType)
    ensures WellKept(KeysOf(services, default), |services|)
    ensures Unsourced(KeysOf(services, default)) == AllOpenKeys(services, default)
    ensures Sum(KeysOf(services, default), SourcedBag) == Sum(services, HealthOf(default))
  {
    if services != [] {
      var n := |services| - 1;
      KeysMeaning(services[..n], default);
      AddServiceMeaning(KeysOf(services[..n], default), services[n], n, default);
      AddServiceSources(KeysOf(services[..n], default), services[n], n, default);
    }
  }

  lemma {:induction false} KeyRules(services: seq<Service>, default: LBType)
    ensures Sum(services, NodePortBag) + Sum(KeysOf(services, default), KeyBag) == RuleBag(services, default)
  {
    KeysMeaning(services, default);
    RulesOfDistinctKeys(KeysOf(services, default));
  }

  // ----- building the request -----

  lemma {:induction false} NoNodePorts(service: Service, n: nat)
    requires n <= |service.ports| && (service.kind != NodePort || !Managed(service))
    ensures NodePortBagUpTo(service, n) == multiset{}
  {
    if n > 0 {
      NoNodePorts(service, n - 1);
    }
  }

  method CollectNodePorts(service: Service) returns (rules: seq<Rule>)
    requires service.kind == NodePort
    ensures multiset(rules) == NodePortBag(service)
  {
    rules := [];
    if !Managed(service) {
      NoNodePorts(service, |service.ports|);
      return;
    }
    for i := 0 to |service.ports|
      invariant multiset(rules) == NodePortBagUpTo(service, i)
    {
      var p := service.ports[i];
      if p.nodePort != 0 {
        match p.protocol {
          case TCP => rules := rules + [FromAnywhere("tcp", p.nodePort)];
          case UDP => rules := rules + [FromAnywhere("udp", p.nodePort)];
          case OtherProtocol(_) =>
        }
      }
    }
  }

  method CollectLbPorts(before: seq<LbPort>, service: Service, owner: nat, default: LBType)
    returns (keys: seq<LbPort>)
    requires PassesThrough(service, default)
    ensures keys == AddService(before, service, owner, default)
  {
    keys := before;
    var lbID := Annotation(service, LoadBalancerID);
    var health := LbPort(HealthCheckPort(service), "tcp", None);
    if lbID != "" {
      health := health.(sources := Some(Source(owner, lbID)));
    }
    if health !in keys {
      keys := keys + [health];
    }
    ghost var start := keys;
    for i := 0 to |service.ports|
      invariant keys == AddPorts(start, service, i)
    {
      var p := service.ports[i];
      match p.protocol {
        case TCP => keys := AddKey(keys, LbPort(p.port, "tcp", None));
        case UDP => keys := AddKey(keys, LbPort(p.port, "udp", None));
        case OtherProtocol(_) =>
      }
    }
  }

  /** The rules of the collected keys, taken in whatever order the map yields them. */
  method RulesOfKeys(keys: seq<LbPort>) returns (rules: seq<Rule>)
    ensures multiset(rules) == Sum(keys, KeyBag)
  {
    rules := [];
    var left := keys;
    while left != []
      invariant multiset(rules) + Sum(left, KeyBag) == Sum(keys, KeyBag)
      decreases |left|
    {
      var i :| 0 <= i < |left|;
      rules := rules + [RuleOf(left[i])];
      SumWithout(left, i, KeyBag);
      left := Without(left, i);
    }
  }

  lemma PortOrderIsTotal()
    ensures TotalPreorder(PortOrder)
  {
    forall r, s ensures PortOrder(r, s) || PortOrder(s, r) {
      LexTotal(r.protocol, s.protocol);
      LexTotal(r.portRange, s.portRange);
    }
    forall r, s, t | PortOrder(r, s) && PortOrder(s, t) ensures PortOrder(r, t) {
      if r.protocol == s.protocol == t.protocol {
        LexTransitive(r.portRange, s.portRange, t.portRange);
      } else if r.protocol == t.protocol {
        LexAntisymmetric(r.protocol, s.protocol);
      } else if r.protocol != s.protocol && s.protocol != t.protocol {
        LexTransitive(r.protocol, s.protocol, t.protocol);
      }
    }
  }

  method CollectLoadBalancer(keys: seq<LbPort>, service: Service, owner: nat, default: LBType)
    returns (r: Result<seq<LbPort>>)
    requires service.kind == LoadBalancer
    ensures r == if Resolvable(service, default) then Ok(AddService(keys, service, owner, default)) else Err(Failure)
  {
    var lbType := GetType(service, default);
    if lbType.Err? {
      return Err(Failure);
    }
    var network := GetNetwork(service);
    if network.Err? {
      return Err(Failure);
    }
    if lbType.value == RegionalNetwork && network.value == External {
      var more := CollectLbPorts(keys, service, owner, default);
      return Ok(more);
    }
    return Ok(keys);
  }

  method CollectService(rules: seq<Rule>, keys: seq<LbPort>, service: Service, owner: nat, default: LBType)
    returns (ok: bool, rules1: seq<Rule>, keys1: seq<LbPort>)
    ensures ok == Resolvable(service, default)
    ensures ok ==> multiset(rules1) == multiset(rules) + NodePortBag(service)
    ensures ok ==> keys1 == AddService(keys, service, owner, default)
  {
    ok, rules1, keys1 := true, rules, keys;
    if service.kind == NodePort {
      var more := CollectNodePorts(service);
      rules1 := rules + more;
    } else {
      NoNodePorts(service, |service.ports|);
      if service.kind == LoadBalancer {
        var r := CollectLoadBalancer(keys, service, owner, default);
        if r.Err? {
          ok := false;
        } else {
          keys1 := r.value;
        }
      }
    }
  }

  method CollectNext(rules: seq<Rule>, keys: seq<LbPort>, services: seq<Service>, i: nat, default: LBType)
    returns (ok: bool, rules1: seq<Rule>, keys1: seq<LbPort>)
    requires i < |services|
    requires multiset(rules) == Sum(services[..i], NodePortBag) && keys == KeysOf(services[..i], default)
    ensures ok == Resolvable(services[i], default)
    ensures ok ==> multiset(rules1) == Sum(services[..i + 1], NodePortBag)
    ensures ok ==> keys1 == KeysOf(services[..i + 1], default)
  {
    ok, rules1, keys1 := CollectService(rules, keys, services[i], i, default);
    Prefix(services, default, i);
  }

  /** The pass over the services. */
  method CollectAll(services: seq<Service>, default: LBType) returns (ok: bool, rules: seq<Rule>, keys: seq<LbPort>)
    ensures ok == AllResolvable(services, default)
    ensures ok ==> multiset(rules) == Sum(services, NodePortBag) && keys == KeysOf(services, default)
  {
    ok, rules, keys := true, [], [];
    assert services[..0] == [];
    var i := 0;
    while ok && i < |services|
      invariant i <= |services|
      invariant if ok then forall j :: 0 <= j < i ==> Resolvable(services[j], default)
                else exists j :: 0 <= j < i && !Resolvable(services[j], default)
      invariant ok ==> multiset(rules) == Sum(services[..i], NodePortBag)
      invariant ok ==> keys == KeysOf(services[..i], default)
    {
      ok, rules, keys := CollectNext(rules, keys, services, i, default);
      i := i + 1;
    }
    assert ok ==> services[..i] == services;
  }

  lemma {:induction false} Prefix(services: seq<Service>, default: LBType, i: nat)
    requires i < |services|
    ensures Sum(services[..i + 1], NodePortBag) == Sum(services[..i], NodePortBag) + NodePortBag(services[i])
    ensures KeysOf(services[..i + 1], default) == AddService(KeysOf(services[..i], default), services[i], i, default)
  {
    assert services[..i + 1][..i] == services[..i];
  }

  method CreateReconciledFirewallRequest(services: seq<Service>, default: LBType, name: string, tags: seq<string>)
    returns (r: Result<FirewallRequest>)
    ensures IsRequest(services, default, name, tags, r)
  {
    var ok, rules, keys := CollectAll(services, default);
    if !ok {
      return Err(Failure);
    }
    KeyRules(services, default);
    var more := RulesOfKeys(keys);
    rules := SortByPort(rules + more);
    return Ok(FirewallRequest(name, rules, ALLOW_ALL_OUTBOUND, tags));
  }

  method SortByPort(rules: seq<Rule>) returns (sorted: seq<Rule>)
    ensures Sorted(sorted, PortOrder) && multiset(sorted) == multiset(rules)
  {
    PortOrderIsTotal();
    SortSorts(rules, PortOrder);
    SortBag(rules, PortOrder);
    sorted := StableSort(rules, PortOrder);
  }
}
