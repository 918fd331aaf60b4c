/** What the reconciled firewall request means: exactly which traffic it opens, and
    that nothing about it the comparison sees depends on iteration order. */
module FirewallMeaning {
  import opened Prelude
  import opened Seqs
  import opened Text
  import opened StableSorting
  import opened Cluster
  import opened AnnotationMeaning
  import opened Firewalls
  import opened FirewallRequests

  // ----- exact semantics -----

  datatype Origin = Anyone | Balancer(lbID: string)

  /** The inbound rule that lets the origin reach a port, written out. */
  function RuleFor(protocol: string, port: int, origin: Origin): Rule {
    match origin
    case Anyone => Rule(protocol, Itoa(port), Some(Peers(["0.0.0.0/0", "::/0"], [], [], [], [])), "")
    case Balancer(id) => Rule(protocol, Itoa(port), Some(Peers([], [], [], [id], [])), "")
  }

  ghost predicate Opens(fr: FirewallRequest, protocol: string, port: int, origin: Origin) {
    RuleFor(protocol, port, origin) in fr.inbound
  }

  ghost predicate OpensNodePortOf(service: Service, protocol: string, port: int) {
    exists p :: p in service.ports && OpensNodePort(service, p) && ProtocolName(p.protocol) == Some(protocol) && p.nodePort == port
  }

  ghost predicate ServiceOpens(service: Service, default: LBType, protocol: string, port: int, origin: Origin) {
    match origin
    case Anyone =>
      OpensNodePortOf(service, protocol, port) || OpensToAll(service, default, protocol, port)
    case Balancer(id) =>
      && PassesThrough(service, default)
      && id != "" && Annotation(service, LoadBalancerID) == id
      && protocol == "tcp" && port == HealthCheckPort(service)
  }

  // ----- the same by the services' own data -----

  ghost predicate Speaks(p: ServicePort, protocol: string) {
    (p.protocol == TCP && protocol == "tcp") || (p.protocol == UDP && protocol == "udp")
  }

  /** Only a flag that reads as false takes a NodePort service out of management. */
  ghost predicate ManagedNodePorts(service: Service) {
    && service.kind == NodePort
    && !(FirewallManaged in service.annotations && service.annotations[FirewallManaged] in FALSE_TEXTS)
  }

  /** An external REGIONAL_NETWORK load balancer, by annotation or default. */
  ghost predicate ExternalNetworkService(service: Service, default: LBType) {
    && service.kind == LoadBalancer
    && (Annotation(service, LoadBalancerType) == "REGIONAL_NETWORK" || (Annotation(service, LoadBalancerType) == "" && default == RegionalNetwork))
    && Annotation(service, LoadBalancerNetwork) in {"", "EXTERNAL"}
  }

  function HealthPort(service: Service): int {
    if service.onlyLocalTraffic && service.healthCheckNodePort != 0 then service.healthCheckNodePort else 10256
  }

  /** The traffic one service calls for. Anyone may reach the nonzero TCP and UDP node ports
      of a managed NodePort service, and the TCP and UDP ports of an external
      REGIONAL_NETWORK one, with its health port as long as it has no load balancer; once it
      has, only that load balancer may reach the health port. */
  ghost predicate CallsFor(service: Service, default: LBType, protocol: string, port: int, origin: Origin) {
    match origin
    case Anyone =>
      || (ManagedNodePorts(service) && exists p :: p in service.ports && Speaks(p, protocol) && p.nodePort == port && port != 0)
      || (ExternalNetworkService(service, default) && exists p :: p in service.ports && Speaks(p, protocol) && p.port == port)
      || (ExternalNetworkService(service, default) && Annotation(service, LoadBalancerID) == "" && protocol == "tcp" && port == HealthPort(service))
    case Balancer(id) =>
      ExternalNetworkService(service, default) && id != "" && Annotation(service, LoadBalancerID) == id && protocol == "tcp" && port == HealthPort(service)
  }

  /** A load balancer service with a type or network annotation of unknown text. */
  ghost predicate Unreadable(service: Service) {
    && service.kind == LoadBalancer
    && (|| Annotation(service, LoadBalancerType) !in {"", "REGIONAL", "REGIONAL_NETWORK"}
        || Annotation(service, LoadBalancerNetwork) !in {"", "EXTERNAL", "INTERNAL"})
  }

  lemma ServiceData(service: Service, default: LBType)
    ensures PassesThrough(service, default) <==> ExternalNetworkService(service, default)
    ensures service.kind == NodePort && Managed(service) <==> ManagedNodePorts(service)
    ensures service.kind == LoadBalancer ==> HealthCheckPort(service) == HealthPort(service)
    ensures Resolvable(service, default) <==> !Unreadable(service)
  {
    TypeMeaning(service, default);
    NetworkMeaning(service);
    HealthPortMeaning(service);
    BoolMeaning(service, FirewallManaged);
  }

  lemma ServiceOpensIff(service: Service, default: LBType, protocol: string, port: int, origin: Origin)
    ensures ServiceOpens(service, default, protocol, port, origin) <==> CallsFor(service, default, protocol, port, origin)
  {
    ServiceData(service, default);
    forall p | p in service.ports ensures ProtocolName(p.protocol) == Some(protocol) <==> Speaks(p, protocol) {
    }
  }

  lemma RuleForInjective(p: string, m: int, o: Origin, q: string, n: int, u: Origin)
    requires RuleFor(p, m, o) == RuleFor(q, n, u)
    ensures p == q && m == n && o == u
  {
    ItoaInjective(m, n);
    var r := RuleFor(p, m, o);
    assert RuleFor(q, n, u).peers == r.peers;
    assert |["0.0.0.0/0", "::/0"]| == 2;
    if o.Balancer? && u.Balancer? {
      assert [o.lbID][0] == [u.lbID][0];
    }
  }

  lemma {:induction false} NodePortBagMember(service: Service, n: nat, r: Rule)
    requires n <= |service.ports|
    ensures r in NodePortBagUpTo(service, n) <==>
            exists i :: 0 <= i < n && OpensNodePort(service, service.ports[i]) && r == NodePortRule(service.ports[i])
  {
    if n > 0 {
      NodePortBagMember(service, n - 1, r);
    }
  }

  lemma NodePortMember(service: Service, protocol: string, port: int, origin: Origin)
    ensures RuleFor(protocol, port, origin) in NodePortBag(service) <==>
            origin.Anyone? && OpensNodePortOf(service, protocol, port)
  {
    var r := RuleFor(protocol, port, origin);
    NodePortBagMember(service, |service.ports|, r);
    forall i | 0 <= i < |service.ports| && OpensNodePort(service, service.ports[i]) && r == NodePortRule(service.ports[i])
      ensures origin.Anyone? && ProtocolName(service.ports[i].protocol) == Some(protocol) && service.ports[i].nodePort == port
    {
      RuleForInjective(protocol, port, origin, ProtocolName(service.ports[i].protocol).value, service.ports[i].nodePort, Anyone);
    }
  }

  lemma {:induction false} PortKeysMember(service: Service, n: nat, k: LbPort)
    requires n <= |service.ports|
    ensures k in PortKeysUpTo(service, n) <==>
            k.sources.None? && exists i :: 0 <= i < n && ProtocolName(service.ports[i].protocol) == Some(k.protocol) && service.ports[i].port == k.port
  {
    if n > 0 {
      PortKeysMember(service, n - 1, k);
    }
  }

  lemma OpenKeysMember(service: Service, default: LBType, k: LbPort)
    ensures k in OpenKeys(service, default) <==> k.sources.None? && OpensToAll(service, default, k.protocol, k.port)
  {
    PortKeysMember(service, |service.ports|, k);
  }

  lemma {:induction false} AllOpenKeysMember(services: seq<Service>, default: LBType, k: LbPort)
    ensures k in AllOpenKeys(services, default) <==>
            exists s :: s in services && k.sources.None? && OpensToAll(s, default, k.protocol, k.port)
  {
    if services != [] {
      var n := |services| - 1;
      AllOpenKeysMember(services[..n], default, k);
      OpenKeysMember(services[n], default, k);
      assert services == services[..n] + [services[n]];
    }
  }

  lemma OpenRuleMember(services: seq<Service>, default: LBType, protocol: string, port: int, origin: Origin)
    ensures RuleFor(protocol, port, origin) in RulesFor(AllOpenKeys(services, default)) <==>
            origin.Anyone? && exists s :: s in services && OpensToAll(s, default, protocol, port)
  {
    var r, keys := RuleFor(protocol, port, origin), AllOpenKeys(services, default);
    AllOpenKeysMember(services, default, LbPort(port, protocol, None));
    if r in RulesFor(keys) {
      var k :| k in keys && RuleOf(k) == r;
      AllOpenKeysMember(services, default, k);
      RuleForInjective(protocol, port, origin, k.protocol, k.port, Anyone);
    } else if origin.Anyone? {
      assert RuleOf(LbPort(port, protocol, None)) == r;
    }
  }

  lemma HealthMember(service: Service, default: LBType, protocol: string, port: int, origin: Origin)
    ensures RuleFor(protocol, port, origin) in HealthOf(default)(service) <==>
            origin.Balancer? && ServiceOpens(service, default, protocol, port, origin)
  {
    var id := Annotation(service, LoadBalancerID);
    if RuleFor(protocol, port, origin) == FromLoadBalancer("tcp", HealthCheckPort(service), id) {
      RuleForInjective(protocol, port, origin, "tcp", HealthCheckPort(service), Balancer(id));
    }
  }

  lemma OpensBySpec(services: seq<Service>, default: LBType, name: string, tags: seq<string>,
                    fr: FirewallRequest, protocol: string, port: int, origin: Origin)
    requires IsRequest(services, default, name, tags, Ok(fr))
    ensures Opens(fr, protocol, port, origin) <==>
            exists s :: s in services && ServiceOpens(s, default, protocol, port, origin)
  {
    var r := RuleFor(protocol, port, origin);
    assert r in fr.inbound <==> r in multiset(fr.inbound);
    SumMember(services, NodePortBag, r);
    SumMember(services, HealthOf(default), r);
    OpenRuleMember(services, default, protocol, port, origin);
    forall s | s in services
      ensures r in NodePortBag(s) <==> origin.Anyone? && OpensNodePortOf(s, protocol, port)
      ensures r in HealthOf(default)(s) <==> origin.Balancer? && ServiceOpens(s, default, protocol, port, origin)
    {
      NodePortMember(s, protocol, port, origin);
      HealthMember(s, default, protocol, port, origin);
    }
  }

  /** A request opens exactly the traffic some service calls for. */
  lemma OpensExactly(services: seq<Service>, default: LBType, name: string, tags: seq<string>,
                     fr: FirewallRequest, protocol: string, port: int, origin: Origin)
    requires IsRequest(services, default, name, tags, Ok(fr))
    ensures Opens(fr, protocol, port, origin) <==>
            exists s :: s in services && CallsFor(s, default, protocol, port, origin)
  {
    OpensBySpec(services, default, name, tags, fr, protocol, port, origin);
    forall s | s in services ensures ServiceOpens(s, default, protocol, port, origin) <==> CallsFor(s, default, protocol, port, origin) {
      ServiceOpensIff(s, default, protocol, port, origin);
    }
  }

  /** What else a request is: the given name and tags, everything allowed outbound, the
      inbound rules by protocol and then port range; and there is none exactly when the type
      or network annotation of a load balancer service cannot be read. */
  lemma RequestFrame(services: seq<Service>, default: LBType, name: string, tags: seq<string>, r: Result<FirewallRequest>)
    requires IsRequest(services, default, name, tags, r)
    ensures r.Err? <==> exists s :: s in services && Unreadable(s)
    ensures r.Ok? ==>
      && r.value.name == name && r.value.tags == tags
      && r.value.outbound == [Rule("tcp", "all", Some(Peers(["0.0.0.0/0", "::/0"], [], [], [], [])), ""),
                              Rule("udp", "all", Some(Peers(["0.0.0.0/0", "::/0"], [], [], [], [])), ""),
                              Rule("icmp", "", Some(Peers(["0.0.0.0/0", "::/0"], [], [], [], [])), "")]
      && forall i, j :: 0 <= i < j < |r.value.inbound| ==>
           var a, b := r.value.inbound[i], r.value.inbound[j];
           (a.protocol == b.protocol && LexLeq(a.portRange, b.portRange)) || (a.protocol != b.protocol && LexLeq(a.protocol, b.protocol))
  {
    forall s | s in services ensures Resolvable(s, default) <==> !Unreadable(s) {
      ServiceData(s, default);
    }
    assert AllResolvable(services, default) <==> forall s :: s in services ==> Resolvable(s, default);
  }

  // ----- every rule has that shape -----

  /** A rule some request may contain. */
  ghost predicate Generated(r: Rule) {
    exists protocol, port, origin :: (protocol == "tcp" || protocol == "udp") && r == RuleFor(protocol, port, origin)
  }

  lemma RequestRulesAreGenerated(services: seq<Service>, default: LBType, name: string, tags: seq<string>,
                                 fr: FirewallRequest, r: Rule)
    requires IsRequest(services, default, name, tags, Ok(fr)) && r in fr.inbound
    ensures Generated(r)
  {
    assert r in multiset(fr.inbound);
    SumMember(services, NodePortBag, r);
    SumMember(services, HealthOf(default), r);
    if s :| s in services && r in NodePortBag(s) {
      NodePortBagMember(s, |s.ports|, r);
      var i :| 0 <= i < |s.ports| && OpensNodePort(s, s.ports[i]) && r == NodePortRule(s.ports[i]);
      assert r == RuleFor(ProtocolName(s.ports[i].protocol).value, s.ports[i].nodePort, Anyone);
    } else if s :| s in services && r in HealthOf(default)(s) {
      assert r == RuleFor("tcp", HealthCheckPort(s), Balancer(Annotation(s, LoadBalancerID)));
    } else {
      var k :| k in AllOpenKeys(services, default) && RuleOf(k) == r;
      AllOpenKeysMember(services, default, k);
      assert r == RuleFor(k.protocol, k.port, Anyone);
    }
  }

  // ----- the printed key determines generated rules -----

  function Tail(origin: Origin): string {
    match origin
    case Anyone => " AddrSources:" + Bracketed(ANYWHERE) + ">"
    case Balancer(id) => " LoadBalancerUIDsSources:" + ("[" + id + "]") + ">"
  }

  lemma NormalOfGenerated(protocol: string, port: int, origin: Origin)
    ensures Normal(RuleFor(protocol, port, origin)) == RuleFor(protocol, port, origin)
    ensures PrintInbound(RuleFor(protocol, port, origin)) == ("<Proto:" + protocol + " PortRange:") + (Itoa(port) + Tail(origin))
  {
    var r := RuleFor(protocol, port, origin);
    assert Sanitize(Itoa(port)) == Itoa(port) by {
      assert AllDigits(NatText(if port < 0 then -port else port));
      assert "all"[0] == 'a' && (Itoa(port)[0] == '-' || IsDigit(Itoa(port)[0]));
    }
    if origin.Balancer? {
      assert Join([origin.lbID]) == origin.lbID;
    }
  }

  lemma TailInjective(o: Origin, u: Origin)
    requires Tail(o) == Tail(u)
    ensures o == u
  {
    assert Tail(o)[1] == if o.Anyone? then 'A' else 'L';
    assert Tail(u)[1] == if u.Anyone? then 'A' else 'L';
    if o.Balancer? && u.Balancer? {
      var head := " LoadBalancerUIDsSources:[";
      assert Tail(o) == head + o.lbID + "]>" && Tail(u) == head + u.lbID + "]>";
      assert |o.lbID| == |u.lbID|;
      assert Tail(o)[|head|..|head| + |o.lbID|] == o.lbID && Tail(u)[|head|..|head| + |u.lbID|] == u.lbID;
    }
  }

  lemma KeyParts(p: string, x: string, q: string, y: string)
    requires |p| == |q| == 3
    requires ("<Proto:" + p + " PortRange:") + x == ("<Proto:" + q + " PortRange:") + y
    ensures p == q && x == y
  {
    var a, b := "<Proto:" + p + " PortRange:", "<Proto:" + q + " PortRange:";
    var s := a + x;
    assert |a| == |b| == 21;
    assert s[7..10] == p && (b + y)[7..10] == q;
    assert s[21..] == x && (b + y)[21..] == y;
  }

  lemma KeyOfGeneratedInjective(p: string, m: int, o: Origin, q: string, n: int, u: Origin)
    requires |p| == |q| == 3
    requires PrintInbound(RuleFor(p, m, o)) == PrintInbound(RuleFor(q, n, u))
    ensures p == q && m == n && o == u
  {
    NormalOfGenerated(p, m, o);
    NormalOfGenerated(q, n, u);
    KeyParts(p, Itoa(m) + Tail(o), q, Itoa(n) + Tail(u));
    ItoaHasNoSpace(m);
    ItoaHasNoSpace(n);
    FirstSpaceSplit(Itoa(m), Tail(o), Itoa(n), Tail(u));
    ItoaInjective(m, n);
    TailInjective(o, u);
  }

  /** Every request meets the condition under which the comparison ignores rule order. */
  lemma GeneratedKeysDetermine(services: seq<Service>, default: LBType, name: string, tags: seq<string>, fr: FirewallRequest)
    requires IsRequest(services, default, name, tags, Ok(fr))
    ensures KeyDetermines(fr.inbound, InboundOrder)
  {
    var rules := Map(fr.inbound, Normal);
    forall x, y | x in rules && y in rules && Same(InboundOrder, x, y) ensures x == y {
      var i :| 0 <= i < |rules| && rules[i] == x;
      var j :| 0 <= j < |rules| && rules[j] == y;
      RequestRulesAreGenerated(services, default, name, tags, fr, fr.inbound[i]);
      RequestRulesAreGenerated(services, default, name, tags, fr, fr.inbound[j]);
      var p, m, o :| (p == "tcp" || p == "udp") && fr.inbound[i] == RuleFor(p, m, o);
      var q, n, u :| (q == "tcp" || q == "udp") && fr.inbound[j] == RuleFor(q, n, u);
      NormalOfGenerated(p, m, o);
      NormalOfGenerated(q, n, u);
      LexAntisymmetric(PrintInbound(x), PrintInbound(y));
      KeyOfGeneratedInjective(p, m, o, q, n, u);
    }
  }

  // ----- the skip decision -----

  lemma OutboundKey(r: Rule)
    requires r.protocol != ""
    ensures |PrintOutbound(Normal(r))| > 7 && PrintOutbound(Normal(r))[7] == r.protocol[0]
  {
  }

  lemma InitialsDetermine(rules: seq<Rule>)
    requires forall i :: 0 <= i < |rules| ==> rules[i].protocol != ""
    requires forall i, j :: 0 <= i < |rules| && 0 <= j < |rules| && rules[i].protocol[0] == rules[j].protocol[0] ==> i == j
    ensures KeyDetermines(rules, OutboundOrder)
  {
    var normal := Map(rules, Normal);
    forall x, y | x in normal && y in normal && Same(OutboundOrder, x, y) ensures x == y {
      var i :| 0 <= i < |rules| && normal[i] == x;
      var j :| 0 <= j < |rules| && normal[j] == y;
      LexAntisymmetric(PrintOutbound(x), PrintOutbound(y));
      OutboundKey(rules[i]);
      OutboundKey(rules[j]);
    }
  }

  lemma OutboundKeysDetermine(rules: seq<Rule>)
    requires rules == ALLOW_ALL_OUTBOUND
    ensures KeyDetermines(rules, OutboundOrder)
  {
    assert |rules| == 3 && rules[0].protocol[0] == 't' && rules[1].protocol[0] == 'u' && rules[2].protocol[0] == 'i';
    InitialsDetermine(rules);
  }

  /** Exactly when a reconcile is skipped: the firewall exists, has the request's name and
      ordered tags, and its rules are those of the request up to order, "all"/""/"0" and
      the fields that are not compared. */
  lemma SkippedExactly(services: seq<Service>, default: LBType, name: string, tags: seq<string>, fr: FirewallRequest, fw: Option<Firewall>)
    requires IsRequest(services, default, name, tags, Ok(fr))
    ensures FirewallRequestEqual(fw, fr) <==>
      && fw.Some? && fw.value.name == name && fw.value.tags == tags
      && SameBag(fw.value.inbound, fr.inbound) && SameBag(fw.value.outbound, ALLOW_ALL_OUTBOUND)
  {
    Equivalence(OfFirewall(fw), Some(OfRequest(fr)), None);
    Equivalence(Some(OfRequest(fr)), OfFirewall(fw), None);
    GeneratedKeysDetermine(services, default, name, tags, fr);
    OutboundKeysDetermine(fr.outbound);
    if fw.Some? {
      EqualIffSameBags(OfRequest(fr), OfFirewall(fw).value);
    }
  }

  /** What the API gives back of a request, rule by rule the same up to how all ports are
      written and to fields that are not compared, is skipped. */
  lemma EchoSkipped(services: seq<Service>, default: LBType, name: string, tags: seq<string>, fr: FirewallRequest, fw: Firewall)
    requires IsRequest(services, default, name, tags, Ok(fr))
    requires fw.name == name && fw.tags == tags && Pairwise(fw.inbound, fr.inbound) && Pairwise(fw.outbound, fr.outbound)
    ensures FirewallRequestEqual(Some(fw), fr)
  {
    PairwiseSameBag(fw.inbound, fr.inbound);
    PairwiseSameBag(fw.outbound, fr.outbound);
    SkippedExactly(services, default, name, tags, fr, Some(fw));
  }

  /** In particular with "0" for all ports, which is how the API answers. */
  lemma ZeroEchoSkipped(services: seq<Service>, default: LBType, name: string, tags: seq<string>, fr: FirewallRequest, fw: Firewall)
    requires IsRequest(services, default, name, tags, Ok(fr))
    requires fw.name == name && fw.tags == tags && fw.inbound == fr.inbound
    requires fw.outbound == [Rule("tcp", "0", Some(Peers(["0.0.0.0/0", "::/0"], [], [], [], [])), ""),
                             Rule("udp", "0", Some(Peers(["0.0.0.0/0", "::/0"], [], [], [], [])), ""),
                             Rule("icmp", "0", Some(Peers(["0.0.0.0/0", "::/0"], [], [], [], [])), "")]
    ensures FirewallRequestEqual(Some(fw), fr)
  {
    RequestFrame(services, default, name, tags, Ok(fr));
    forall i | 0 <= i < 3 ensures RuleEqual(fw.outbound[i], fr.outbound[i]) {
      RuleEqualIff(fw.outbound[i], fr.outbound[i]);
    }
    PairwiseEquivalence(fr.inbound, fr.inbound, fr.inbound);
    EchoSkipped(services, default, name, tags, fr, fw);
  }

  // ----- order independence -----

  lemma SameMembers<T>(s: seq<T>, t: seq<T>, x: T)
    requires multiset(s) == multiset(t)
    ensures x in s <==> x in t
  {
    assert x in s <==> x in multiset(s);
    assert x in t <==> x in multiset(t);
  }

  lemma {:induction false} OpenKeysPermutation(services: seq<Service>, others: seq<Service>, default: LBType)
    requires multiset(services) == multiset(others)
    ensures AllOpenKeys(services, default) == AllOpenKeys(others, default)
  {
    forall k ensures k in AllOpenKeys(services, default) <==> k in AllOpenKeys(others, default) {
      AllOpenKeysMember(services, default, k);
      AllOpenKeysMember(others, default, k);
      forall s ensures s in services <==> s in others {
        SameMembers(services, others, s);
      }
    }
  }

  lemma {:induction false} ResolvablePermutation(services: seq<Service>, others: seq<Service>, default: LBType)
    requires multiset(services) == multiset(others) && AllResolvable(services, default)
    ensures AllResolvable(others, default)
  {
    forall i | 0 <= i < |others| ensures Resolvable(others[i], default) {
      SameMembers(services, others, others[i]);
      var j :| 0 <= j < |services| && services[j] == others[i];
    }
  }

  lemma {:induction false} RuleBagPermutation(services: seq<Service>, others: seq<Service>, default: LBType)
    requires multiset(services) == multiset(others)
    ensures RuleBag(services, default) == RuleBag(others, default)
  {
    SumPermutation(services, others, NodePortBag);
    SumPermutation(services, others, HealthOf(default));
    OpenKeysPermutation(services, others, default);
  }

  /** Whatever order the services are listed in and the port map is walked in, the
      requests built are equal for the reconcile decision. */
  lemma RequestIgnoresOrder(services: seq<Service>, others: seq<Service>, default: LBType, name: string, tags: seq<string>,
                            r: Result<FirewallRequest>, q: Result<FirewallRequest>)
    requires multiset(services) == multiset(others)
    requires IsRequest(services, default, name, tags, r) && IsRequest(others, default, name, tags, q)
    ensures r.Ok? <==> q.Ok?
    ensures r.Ok? ==> Equal(Some(OfRequest(r.value)), Some(OfRequest(q.value)))
  {
    RuleBagPermutation(services, others, default);
    if AllResolvable(services, default) {
      ResolvablePermutation(services, others, default);
    } else if AllResolvable(others, default) {
      ResolvablePermutation(others, services, default);
    }
    if r.Ok? {
      GeneratedKeysDetermine(services, default, name, tags, r.value);
      OrderHidden(r.value.inbound, q.value.inbound, InboundOrder);
      PairwiseEquivalence(StableSort(q.value.inbound, InboundOrder), StableSort(r.value.inbound, InboundOrder), []);
      PairwiseEquivalence(StableSort(r.value.outbound, OutboundOrder), StableSort(q.value.outbound, OutboundOrder), []);
    }
  }
}
