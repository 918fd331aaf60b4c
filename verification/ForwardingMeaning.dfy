/** What compiled forwarding rules guarantee. */
module ForwardingMeaning {
  import opened Prelude
  import opened Text
  import opened Cluster
  import opened AnnotationMeaning
  import opened ForwardingRules

  // ----- shape and TLS -----

  predicate Secure(protocol: LBProtocol) {
    protocol == Https || protocol == Http2
  }

  /** Exactly one of certificate (terminated, target http) and pass-through (target
      equals entry) on a secure rule, neither on any other. */
  predicate WellSecured(r: ForwardingRule) {
    if Secure(r.entryProtocol) then
      if r.tlsPassthrough then r.certificateID == "" && r.targetProtocol == r.entryProtocol
      else r.certificateID != "" && r.targetProtocol == Http
    else r.certificateID == "" && !r.tlsPassthrough && r.targetProtocol == r.entryProtocol
  }

  /** On success rule i takes service port i to its node port, with sound TLS settings;
      at most one HTTP3 rule follows, terminated with the service's certificate and
      aimed at the node port of a service port. */
  lemma RuleShape(service: Service, certs: Certificates)
    requires Rules(service, certs).Ok?
    ensures var rules, n := Rules(service, certs).value, |service.ports|;
      && n <= |rules| <= n + 1
      && (forall i :: 0 <= i < n ==>
            && rules[i].entryPort == service.ports[i].port && rules[i].targetPort == service.ports[i].nodePort
            && !service.ports[i].protocol.OtherProtocol?
            && (service.ports[i].protocol == UDP ==> rules[i].entryProtocol == Udp)
            && WellSecured(rules[i]))
      && (|rules| == n + 1 ==>
            && rules[n].entryProtocol == Http3 && rules[n].targetProtocol == Http && !rules[n].tlsPassthrough
            && Ok(rules[n].certificateID) == FindCertificateID(service, certs) && rules[n].certificateID != ""
            && Ok(rules[n].entryPort) == GetHTTP3Port(service)
            && exists p :: p in service.ports && p.port == ToInt32(rules[n].entryPort) && rules[n].targetPort == p.nodePort)
  {
    var plan := MakePlan(service, certs).value;
    var rules, n := Rules(service, certs).value, |service.ports|;
    var builder := RuleBuilder(plan.default, PlanOverrides(plan), plan.certificateID, plan.passThrough);
    forall i | 0 <= i < n ensures builder(service.ports[i]) == Ok(rules[i]) {
    }
  }

  lemma RuleOfPort(service: Service, certs: Certificates, plan: Plan, i: nat)
    requires Rules(service, certs).Ok? && MakePlan(service, certs) == Ok(plan) && i < |service.ports|
    ensures i < |Rules(service, certs).value|
    ensures BuildRule(service.ports[i], PortProtocolOf(plan.default, service.ports[i], PlanOverrides(plan)), plan.certificateID, plan.passThrough)
         == Ok(Rules(service, certs).value[i])
  {
    var builder := RuleBuilder(plan.default, PlanOverrides(plan), plan.certificateID, plan.passThrough);
    assert builder(service.ports[i]) == Ok(Rules(service, certs).value[i]);
  }

  /** The rules carry no certificate but the one the service resolves to. */
  lemma RuleCertificates(service: Service, certs: Certificates)
    requires Rules(service, certs).Ok?
    ensures forall r :: r in Rules(service, certs).value ==>
              r.certificateID == "" || FindCertificateID(service, certs) == Ok(r.certificateID)
  {
    var rules := Rules(service, certs).value;
    forall r | r in rules ensures r.certificateID == "" || FindCertificateID(service, certs) == Ok(r.certificateID) {
      var i :| 0 <= i < |rules| && rules[i] == r;
      if i < |service.ports| {
        RuleOfPort(service, certs, MakePlan(service, certs).value, i);
      }
    }
  }

  predicate Lists(ports: seq<int>, port: int) {
    exists i :: 0 <= i < |ports| && ToInt32(ports[i]) == port
  }

  /** The protocol of a TCP port's rule: http2 if that annotation lists the port, else
      https if that one does or 443 is secured implicitly, else http if listed, else the
      default one. */
  lemma EntryProtocols(service: Service, certs: Certificates, plan: Plan, i: nat)
    requires Rules(service, certs).Ok? && MakePlan(service, certs) == Ok(plan) && i < |service.ports| && service.ports[i].protocol == TCP
    ensures PortList(service, HTTPPorts) == Ok(plan.http) && PortList(service, TLSPorts) == Ok(plan.https) && PortList(service, HTTP2Ports) == Ok(plan.http2)
    ensures GetProtocol(service) == Ok(plan.default) && i < |Rules(service, certs).value|
    ensures var port, protocol := service.ports[i].port, Rules(service, certs).value[i].entryProtocol;
            var secure := (plan.certificateID != "" || plan.passThrough) && plan.https == [] && 443 !in plan.http2;
      && (Lists(plan.http2, port) ==> protocol == Http2)
      && (!Lists(plan.http2, port) && (Lists(plan.https, port) || (secure && port == 443)) ==> protocol == Https)
      && (!Lists(plan.http2, port) && !Lists(plan.https, port) && !(secure && port == 443) ==>
            protocol == if Lists(plan.http, port) then Http else plan.default)
  {
    RuleOfPort(service, certs, plan, i);
    var port, os := service.ports[i].port, PlanOverrides(plan);
    ApplyThree(plan.default, port, os);
    NarrowedLists(plan.http, port);
    NarrowedLists(plan.https, port);
    NarrowedLists(plan.https + [DEFAULT_SECURE_PORT], port);
    NarrowedLists(plan.http2, port);
    ListsAppend(plan.https, DEFAULT_SECURE_PORT, port);
  }

  lemma NarrowedLists(ports: seq<int>, port: int)
    ensures port in Narrowed(ports) <==> Lists(ports, port)
  {
    if Lists(ports, port) {
      var i :| 0 <= i < |ports| && ToInt32(ports[i]) == port;
      assert ports[i] in ports;
    }
  }

  lemma ListsAppend(ports: seq<int>, last: int, port: int)
    ensures Lists(ports + [last], port) <==> Lists(ports, port) || ToInt32(last) == port
  {
    var all := ports + [last];
    assert all[|ports|] == last;
    if Lists(ports, port) {
      var i :| 0 <= i < |ports| && ToInt32(ports[i]) == port;
      assert all[i] == ports[i];
    }
  }

  // ----- the settings, by annotation -----

  /** tcp unless annotated; an error exactly for a text that is no protocol. */
  lemma DefaultProtocolMeaning(service: Service)
    ensures var text, r := Annotation(service, DefaultProtocol), GetProtocol(service);
      && (DefaultProtocol !in service.annotations ==> r == Ok(Tcp))
      && (DefaultProtocol in service.annotations ==>
            && (text == "tcp" ==> r == Ok(Tcp)) && (text == "http" ==> r == Ok(Http)) && (text == "https" ==> r == Ok(Https))
            && (text == "http2" ==> r == Ok(Http2)) && (text == "http3" ==> r == Ok(Http3))
            && (text !in {"tcp", "http", "https", "http2", "http3"} ==> r.Err?))
  {
  }

  lemma PassThroughMeaning(service: Service)
    ensures GetTLSPassThrough(service) <==> TLSPassThrough in service.annotations && service.annotations[TLSPassThrough] in TRUE_TEXTS
  {
    BoolMeaning(service, TLSPassThrough);
  }

  /** The annotated certificate ID wins; else the first certificate of the annotated name,
      which has to exist; else none. */
  lemma CertificateMeaning(service: Service, certs: Certificates)
    ensures var id, name, r := Annotation(service, CertificateID), Annotation(service, CertificateName), FindCertificateID(service, certs);
      && (id != "" ==> r == Ok(id))
      && (id == "" && name == "" ==> r == Ok(""))
      && (id == "" && name != "" ==>
            var found := certs.byName(name);
            if found.Ok? && found.value != [] then r == Ok(found.value[0].id) else r.Err?)
  {
  }

  lemma Http3PortMeaning(service: Service)
    ensures HTTP3Port !in service.annotations ==> GetHTTP3Port(service) == Ok(-1)
    ensures HTTP3Port in service.annotations ==>
      (Atoi(service.annotations[HTTP3Port]).Ok? ==> GetHTTP3Port(service) == Atoi(service.annotations[HTTP3Port]))
      && (Atoi(service.annotations[HTTP3Port]).Err? ==> GetHTTP3Port(service).Err?)
  {
  }

  /** The settings can be read exactly if each can and no port is annotated twice. */
  lemma PlanOkIff(service: Service, certs: Certificates)
    ensures MakePlan(service, certs).Ok? <==>
      && GetProtocol(service).Ok? && FindCertificateID(service, certs).Ok?
      && PortList(service, HTTPPorts).Ok? && PortList(service, TLSPorts).Ok? && PortList(service, HTTP2Ports).Ok?
      && forall v :: multiset(PortList(service, HTTPPorts).value + PortList(service, TLSPorts).value + PortList(service, HTTP2Ports).value)[v] <= 1
    ensures MakePlan(service, certs).Ok? ==>
      var plan := MakePlan(service, certs).value;
      && GetProtocol(service) == Ok(plan.default) && FindCertificateID(service, certs) == Ok(plan.certificateID)
      && PortList(service, HTTPPorts) == Ok(plan.http) && PortList(service, TLSPorts) == Ok(plan.https) && PortList(service, HTTP2Ports) == Ok(plan.http2)
      && plan.passThrough == GetTLSPassThrough(service)
  {
    if PortList(service, HTTPPorts).Ok? && PortList(service, TLSPorts).Ok? && PortList(service, HTTP2Ports).Ok? {
      DuplicatesCounted(PortList(service, HTTPPorts).value + PortList(service, TLSPorts).value + PortList(service, HTTP2Ports).value);
    }
  }

  // ----- success -----

  /** The port ends up https or http2. */
  ghost predicate SecurePort(plan: Plan, port: int) {
    || Lists(plan.http2, port) || Lists(plan.https, port)
    || ((plan.certificateID != "" || plan.passThrough) && plan.https == [] && 443 !in plan.http2 && port == 443)
    || (!Lists(plan.http, port) && (plan.default == Https || plan.default == Http2))
  }

  /** UDP, or TCP that if secure has exactly one of certificate and pass-through. */
  ghost predicate PortCompiles(plan: Plan, p: ServicePort) {
    p.protocol == UDP || (p.protocol == TCP && (SecurePort(plan, p.port) ==> (plan.certificateID != "") != plan.passThrough))
  }

  lemma SecurePortIff(plan: Plan, port: int)
    ensures Secure(Apply(plan.default, port, PlanOverrides(plan))) <==> SecurePort(plan, port)
  {
    ApplyThree(plan.default, port, PlanOverrides(plan));
    NarrowedLists(plan.http, port);
    NarrowedLists(plan.https, port);
    NarrowedLists(plan.https + [DEFAULT_SECURE_PORT], port);
    NarrowedLists(plan.http2, port);
    ListsAppend(plan.https, DEFAULT_SECURE_PORT, port);
  }

  lemma PortCompilesIff(plan: Plan, p: ServicePort)
    ensures RuleBuilder(plan.default, PlanOverrides(plan), plan.certificateID, plan.passThrough)(p).Ok? <==> PortCompiles(plan, p)
  {
    SecurePortIff(plan, p.port);
  }

  ghost predicate Http3Compiles(service: Service, plan: Plan) {
    var port := GetHTTP3Port(service);
    port.Ok? && (port.value == -1 || (plan.certificateID != "" && !plan.passThrough))
  }

  lemma Http3RuleIff(service: Service, certs: Certificates, plan: Plan)
    requires MakePlan(service, certs) == Ok(plan)
    ensures BuildHTTP3Rule(service, certs).Ok? <==> Http3Compiles(service, plan)
    ensures BuildHTTP3Rule(service, certs).Ok? ==>
      (BuildHTTP3Rule(service, certs).value.Some? <==>
         GetHTTP3Port(service).value != -1 && exists p :: p in service.ports && p.port == ToInt32(GetHTTP3Port(service).value))
  {
    PlanOkIff(service, certs);
  }

  /** Exactly when compilation succeeds: the settings can be read, every port compiles, and
      so does the HTTP3 port. */
  lemma RulesOkIff(service: Service, certs: Certificates)
    ensures Rules(service, certs).Ok? <==>
      && MakePlan(service, certs).Ok?
      && (forall i :: 0 <= i < |service.ports| ==> PortCompiles(MakePlan(service, certs).value, service.ports[i]))
      && Http3Compiles(service, MakePlan(service, certs).value)
  {
    if MakePlan(service, certs).Ok? {
      var plan := MakePlan(service, certs).value;
      Http3RuleIff(service, certs, plan);
      forall i | 0 <= i < |service.ports|
        ensures RuleBuilder(plan.default, PlanOverrides(plan), plan.certificateID, plan.passThrough)(service.ports[i]).Ok?
                <==> PortCompiles(plan, service.ports[i])
      {
        PortCompilesIff(plan, service.ports[i]);
      }
    }
  }

  /** The HTTP3 rule is there exactly if an HTTP3 port is annotated and is a service port. */
  lemma Http3Present(service: Service, certs: Certificates)
    requires Rules(service, certs).Ok?
    ensures |Rules(service, certs).value| == |service.ports| + 1 <==>
      GetHTTP3Port(service).value != -1 && exists p :: p in service.ports && p.port == ToInt32(GetHTTP3Port(service).value)
  {
    Http3RuleIff(service, certs, MakePlan(service, certs).value);
  }

  // ----- REGIONAL_NETWORK -----

  /** A pass-through load balancer forwards every port to itself on the nodes, with its own
      protocol and no TLS; it fails exactly on ports that are neither TCP nor UDP. */
  lemma RegionalRulesExactly(service: Service)
    ensures RegionalNetworkRules(service).Ok? <==>
            forall i :: 0 <= i < |service.ports| ==> service.ports[i].protocol == TCP || service.ports[i].protocol == UDP
    ensures RegionalNetworkRules(service).Ok? ==>
      var rules := RegionalNetworkRules(service).value;
      && |rules| == |service.ports|
      && forall i :: 0 <= i < |rules| ==>
           && rules[i].entryPort == service.ports[i].port && rules[i].targetPort == service.ports[i].port
           && (rules[i].entryProtocol == Tcp <==> service.ports[i].protocol == TCP) && (rules[i].entryProtocol == Udp <==> service.ports[i].protocol == UDP)
           && rules[i].targetProtocol == rules[i].entryProtocol && rules[i].certificateID == "" && !rules[i].tlsPassthrough
  {
    forall i | 0 <= i < |service.ports|
      ensures RegionalNetworkRule(service.ports[i]).Ok? <==> service.ports[i].protocol == TCP || service.ports[i].protocol == UDP
    {
    }
    if RegionalNetworkRules(service).Ok? {
      var rules := RegionalNetworkRules(service).value;
      assert forall i :: 0 <= i < |rules| ==> RegionalNetworkRule(service.ports[i]) == Ok(rules[i]);
    }
  }

  /** Compilation fails on every port of another protocol than TCP and UDP, and on every
      TCP port that ends up secure without exactly one of certificate and pass-through. */
  lemma RulesFailOn(service: Service, certs: Certificates, plan: Plan, i: nat)
    requires MakePlan(service, certs) == Ok(plan) && i < |service.ports|
    requires var p := service.ports[i];
             || p.protocol.OtherProtocol?
             || (p.protocol == TCP && Secure(Apply(plan.default, p.port, PlanOverrides(plan))) && (plan.certificateID == "") == !plan.passThrough)
    ensures Rules(service, certs).Err?
  {
    assert RuleBuilder(plan.default, PlanOverrides(plan), plan.certificateID, plan.passThrough)(service.ports[i]).Err?;
  }

  // ----- when the order of the overrides matters -----

  ghost predicate OrderIrrelevant(os: seq<Override>) {
    forall default, port, ps :: multiset(ps) == multiset(os) ==> Apply(default, port, ps) == Apply(default, port, os)
  }

  lemma {:induction false} ApplyNone(default: LBProtocol, port: int, os: seq<Override>)
    requires forall o :: o in os ==> port !in o.ports
    ensures Apply(default, port, os) == default
  {
    if os != [] {
      ApplyNone(default, port, os[..|os| - 1]);
    }
  }

  lemma {:induction false} ApplyOnly(default: LBProtocol, port: int, os: seq<Override>, o: Override)
    requires o in os && port in o.ports && forall q :: q in os && port in q.ports ==> q == o
    ensures Apply(default, port, os) == o.protocol
  {
    var n := |os| - 1;
    if port !in os[n].ports {
      ApplyOnly(default, port, os[..n], o);
    }
  }

  predicate Disjoint(os: seq<Override>) {
    forall i, j :: 0 <= i < j < |os| ==> os[i].ports !! os[j].ports
  }

  lemma DisjointAt(os: seq<Override>, port: int)
    requires Disjoint(os)
    ensures forall i, j :: 0 <= i < |os| && 0 <= j < |os| && port in os[i].ports && port in os[j].ports ==> i == j
  {
    forall i, j | 0 <= i < j < |os| ensures !(port in os[i].ports && port in os[j].ports) {
      assert os[i].ports !! os[j].ports;
    }
  }

  lemma DisjointIsIrrelevant(default: LBProtocol, port: int, os: seq<Override>, ps: seq<Override>)
    requires Disjoint(os) && multiset(ps) == multiset(os)
    ensures Apply(default, port, ps) == Apply(default, port, os)
  {
    assert forall o :: o in os <==> o in multiset(os);
    assert forall o :: o in ps <==> o in multiset(ps);
    DisjointAt(os, port);
    if o :| o in os && port in o.ports {
      forall q | q in os && port in q.ports ensures q == o {
        var i :| 0 <= i < |os| && os[i] == q;
        var j :| 0 <= j < |os| && os[j] == o;
        assert i == j;
      }
      ApplyOnly(default, port, os, o);
      ApplyOnly(default, port, ps, o);
    } else {
      ApplyNone(default, port, os);
      ApplyNone(default, port, ps);
    }
  }

  /** Two overrides that share a port can be told apart by swapping them. */
  lemma SharedPortMatters(a: Override, b: Override, c: Override, port: int)
    requires port in a.ports && port in b.ports && a.protocol != b.protocol
    ensures Apply(Tcp, port, [c, a, b]) != Apply(Tcp, port, [c, b, a])
  {
    ApplyThree(Tcp, port, [c, a, b]);
    ApplyThree(Tcp, port, [c, b, a]);
  }

  lemma SwapVisible(os: seq<Override>, a: Override, b: Override, c: Override, port: int)
    requires multiset([c, a, b]) == multiset(os)
    requires port in a.ports && port in b.ports && a.protocol != b.protocol
    ensures !OrderIrrelevant(os)
  {
    SharedPortMatters(a, b, c, port);
    assert multiset([c, b, a]) == multiset([c, a, b]);
  }

  lemma Common<T>(a: set<T>, b: set<T>) returns (x: T)
    requires !(a !! b)
    ensures x in a && x in b
  {
    x :| x in a && x in b;
  }

  lemma ClashVisible(x: Override, y: Override, z: Override)
    requires x.protocol != y.protocol && x.protocol != z.protocol && y.protocol != z.protocol
    requires !Disjoint([x, y, z])
    ensures !OrderIrrelevant([x, y, z])
  {
    var os := [x, y, z];
    if !(x.ports !! y.ports) {
      var port := Common(x.ports, y.ports);
      SwapVisible(os, x, y, z, port);
    } else if !(x.ports !! z.ports) {
      var port := Common(x.ports, z.ports);
      SwapVisible(os, x, z, y, port);
    } else {
      var port := Common(y.ports, z.ports);
      SwapVisible(os, y, z, x, port);
    }
  }

  /** The order in which the http, https and http2 overrides are applied is irrelevant
      exactly when no port is claimed twice. */
  lemma OverrideOrderIff(http: seq<int>, https: seq<int>, http2: seq<int>)
    ensures OrderIrrelevant(Overrides(http, https, http2)) <==> Disjoint(Overrides(http, https, http2))
  {
    var os := Overrides(http, https, http2);
    if Disjoint(os) {
      forall default, port, ps | multiset(ps) == multiset(os) ensures Apply(default, port, ps) == Apply(default, port, os) {
        DisjointIsIrrelevant(default, port, os, ps);
      }
    } else {
      ClashVisible(os[0], os[1], os[2]);
    }
  }

  predicate InRange(ports: seq<int>) {
    forall i :: 0 <= i < |ports| ==> -0x8000_0000 <= ports[i] < 0x8000_0000
  }

  lemma NarrowedInRange(ports: seq<int>)
    requires InRange(ports)
    ensures forall v :: v in Narrowed(ports) <==> v in ports
  {
    forall v | v in ports ensures v in Narrowed(ports) {
      assert ToInt32(v) == v;
    }
  }

  lemma ListsDisjoint(a: seq<int>, b: seq<int>, c: seq<int>, v: int)
    requires NoDuplicates(a + b + c)
    ensures !(v in a && v in b) && !(v in a && v in c) && !(v in b && v in c)
  {
    var s := a + b + c;
    assert forall i :: 0 <= i < |a| ==> s[i] == a[i];
    assert forall i :: 0 <= i < |b| ==> s[|a| + i] == b[i];
    assert forall i :: 0 <= i < |c| ==> s[|a| + |b| + i] == c[i];
  }

  lemma DisjointLists(http: seq<int>, https: seq<int>, http2: seq<int>)
    requires InRange(http) && InRange(https) && InRange(http2)
    ensures Disjoint(Overrides(http, https, http2)) <==>
            forall v :: !(v in http && v in https) && !(v in http && v in http2) && !(v in https && v in http2)
  {
    NarrowedInRange(http);
    NarrowedInRange(https);
    NarrowedInRange(http2);
    var os := Overrides(http, https, http2);
    assert Disjoint(os) <==> os[0].ports !! os[1].ports && os[0].ports !! os[2].ports && os[1].ports !! os[2].ports;
    assert forall v :: (v in os[0].ports <==> v in http) && (v in os[1].ports <==> v in https) && (v in os[2].ports <==> v in http2);
  }

  /** For annotated ports within int32 that pass the duplicate check, the overrides can
      clash only over the implicit 443, and do so exactly when an http annotation
      already names it: the check runs before 443 is added. */
  lemma ClashIffImplicit443(plan: Plan)
    requires InRange(plan.http) && InRange(plan.https) && InRange(plan.http2)
    requires NoDuplicates(plan.http + plan.https + plan.http2)
    ensures OrderIrrelevant(PlanOverrides(plan)) <==>
            !(ImplicitSecurePort(plan.https, plan.http2, plan.certificateID, plan.passThrough) && DEFAULT_SECURE_PORT in plan.http)
  {
    var implicit := ImplicitSecurePort(plan.https, plan.http2, plan.certificateID, plan.passThrough);
    var https := if implicit then plan.https + [DEFAULT_SECURE_PORT] else plan.https;
    OverrideOrderIff(plan.http, https, plan.http2);
    DisjointLists(plan.http, https, plan.http2);
    forall v ensures !(v in plan.http && v in plan.https) && !(v in plan.http && v in plan.http2) && !(v in plan.https && v in plan.http2) {
      ListsDisjoint(plan.http, plan.https, plan.http2, v);
    }
    if implicit {
      assert forall v :: v in https <==> v in plan.https || v == DEFAULT_SECURE_PORT;
    }
  }

  /** Outside int32 the duplicate check is not enough: two different annotated numbers
      can narrow to the same port. */
  lemma NarrowingClash()
    ensures var wrapped := 80 + 0x1_0000_0000;
      && NoDuplicates([80] + [wrapped] + [])
      && !OrderIrrelevant(Overrides([80], [wrapped], []))
  {
    var wrapped := 80 + 0x1_0000_0000;
    var os := Overrides([80], [wrapped], []);
    assert ToInt32(wrapped) == 80 && ToInt32(80) == 80;
    assert 80 in [80] && wrapped in [wrapped];
    assert 80 in os[0].ports && 80 in os[1].ports;
    OverrideOrderIff([80], [wrapped], []);
  }
}
