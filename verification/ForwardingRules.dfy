/** Service ports and annotations compiled to load balancer forwarding rules. */
module ForwardingRules {
  import opened Prelude
  import opened Text
  import opened StableSorting
  import opened Cluster

  // ----- data -----

  datatype LBProtocol = Tcp | Udp | Http | Https | Http2 | Http3

  datatype ForwardingRule = ForwardingRule(entryProtocol: LBProtocol, entryPort: int, targetProtocol: LBProtocol,
                                           targetPort: int, certificateID: string, tlsPassthrough: bool)

  datatype Certificate = Certificate(id: string, name: string, letsEncrypt: bool)

  datatype CertReply = Found(certificate: Certificate) | Missing | Broken

  /** The certificate API while a call runs: any two functions will do. */
  datatype Certificates = Certificates(get: string -> CertReply, byName: string -> Result<seq<Certificate>>)

  // ----- annotations -----

  function GetProtocol(service: Service): Result<LBProtocol> {
    if DefaultProtocol !in service.annotations then Ok(Tcp) else
    var name := service.annotations[DefaultProtocol];
    if name == "tcp" then Ok(Tcp)
    else if name == "http" then Ok(Http)
    else if name == "https" then Ok(Https)
    else if name == "http2" then Ok(Http2)
    else if name == "http3" then Ok(Http3)
    else Err(Failure)
  }

  function PortList(service: Service, key: AnnotationKey): Result<seq<int>> {
    if key !in service.annotations then Ok([]) else AtoiAll(Split(service.annotations[key]))
  }

  method GetPorts(service: Service, key: AnnotationKey) returns (r: Result<seq<int>>)
    ensures r == PortList(service, key)
  {
    if key !in service.annotations {
      return Ok([]);
    }
    var pieces := Split(service.annotations[key]);
    var ports: seq<int> := [];
    for i := 0 to |pieces|
      invariant |ports| == i && forall j :: 0 <= j < i ==> Atoi(pieces[j]) == Ok(ports[j])
    {
      var port := Atoi(pieces[i]);
      if port.Err? {
        AtoiAllFails(pieces, i);
        return Err(Failure);
      }
      ports := ports + [port.value];
    }
    AtoiAllSucceeds(pieces, ports);
    return Ok(ports);
  }

  function GetTLSPassThrough(service: Service): bool {
    BoolAnnotation(service, TLSPassThrough) == Ok(Some(true))
  }

  /** findCertificateID: the annotated ID, else the first certificate of the annotated name. */
  function FindCertificateID(service: Service, certs: Certificates): Result<string> {
    var id, name := Annotation(service, CertificateID), Annotation(service, CertificateName);
    if id != "" then Ok(id)
    else if name == "" then Ok("")
    else match certs.byName(name)
         case Err(e) => Err(Failure)
         case Ok(found) => if found == [] then Err(Failure) else Ok(found[0].id)
  }

  function GetHTTP3Port(service: Service): Result<int> {
    if HTTP3Port !in service.annotations then Ok(-1) else Atoi(service.annotations[HTTP3Port])
  }

  // ----- duplicate ports -----

  /** findDups: the values that occur more than once over all lists, as sorted text. */
  method FindDups(a: seq<int>, b: seq<int>, c: seq<int>) returns (dups: seq<string>)
    ensures forall v :: Itoa(v) in dups <==> multiset(a + b + c)[v] > 1
    ensures dups == [] <==> NoDuplicates(a + b + c)
  {
    var occurrences: map<int, int> := map[];
    var all := a + b + c;
    for i := 0 to |all|
      invariant forall v :: v in occurrences <==> v in all[..i]
      invariant forall v :: v in occurrences ==> occurrences[v] == multiset(all[..i])[v]
    {
      assert all[..i + 1] == all[..i] + [all[i]];
      occurrences := occurrences[all[i] := (if all[i] in occurrences then occurrences[all[i]] else 0) + 1];
    }
    assert all[..|all|] == all;
    dups := DupTexts(occurrences);
    assert forall v :: v in all <==> v in multiset(all);
    DuplicatesCounted(all);
    if dups != [] {
      assert dups[0] in dups;
    }
  }

  method PickOne<T(==)>(s: set<T>) returns (x: T)
    requires s != {}
    ensures x in s
  {
    x :| x in s;
  }

  method DupTexts(occurrences: map<int, int>) returns (dups: seq<string>)
    ensures forall v :: Itoa(v) in dups <==> v in occurrences && occurrences[v] > 1
    ensures forall t :: t in dups ==> exists v :: v in occurrences && occurrences[v] > 1 && t == Itoa(v)
    ensures Sorted(dups, LexLeq)
  {
    var left: set<int> := occurrences.Keys;
    var found: seq<string> := [];
    while left != {}
      invariant left <= occurrences.Keys
      invariant forall v :: v in occurrences.Keys - left && occurrences[v] > 1 ==> Itoa(v) in found
      invariant forall t :: t in found ==> exists v :: v in occurrences && occurrences[v] > 1 && t == Itoa(v)
      decreases |left|
    {
      var v := PickOne(left);
      left := left - {v};
      if occurrences[v] > 1 {
        found := found + [Itoa(v)];
      }
    }
    forall v | Itoa(v) in found ensures v in occurrences && occurrences[v] > 1 {
      var u :| u in occurrences && occurrences[u] > 1 && Itoa(v) == Itoa(u);
      ItoaInjective(u, v);
    }
    LexIsTotal();
    SortSorts(found, LexLeq);
    SortBag(found, LexLeq);
    dups := StableSort(found, LexLeq);
    assert forall t :: t in dups <==> t in multiset(dups);
    assert forall t :: t in found <==> t in multiset(found);
  }

  lemma LexIsTotal()
    ensures TotalPreorder(LexLeq)
  {
    forall x, y ensures LexLeq(x, y) || LexLeq(y, x) {
      LexTotal(x, y);
    }
    forall x, y, z | LexLeq(x, y) && LexLeq(y, z) ensures LexLeq(x, z) {
      LexTransitive(x, y, z);
    }
  }

  predicate NoDuplicates(s: seq<int>) {
    forall i, j :: 0 <= i < j < |s| ==> s[i] != s[j]
  }

  lemma {:induction false} DuplicatesCounted(s: seq<int>)
    ensures NoDuplicates(s) <==> forall v :: multiset(s)[v] <= 1
  {
    if NoDuplicates(s) {
      forall v ensures multiset(s)[v] <= 1 {
        CountAtMostOne(s, v);
      }
    } else {
      var i, j :| 0 <= i < j < |s| && s[i] == s[j];
      assert s == s[..i] + [s[i]] + s[i + 1..j] + [s[j]] + s[j + 1..];
      assert multiset(s)[s[i]] >= 2;
    }
  }

  lemma {:induction false} CountAtMostOne(s: seq<int>, v: int)
    requires NoDuplicates(s)
    ensures multiset(s)[v] <= 1
  {
    if s != [] {
      var n := |s| - 1;
      assert s == s[..n] + [s[n]];
      CountAtMostOne(s[..n], v);
      assert s[n] !in s[..n];
    }
  }

  // ----- protocol overrides -----

  /** Ports that an annotation moves to a protocol. */
  datatype Override = Override(ports: set<int>, protocol: LBProtocol)

  /** Overrides applied in order: a later one wins. */
  function Apply(default: LBProtocol, port: int, overrides: seq<Override>): LBProtocol {
    if overrides == [] then default else
      var last := overrides[|overrides| - 1];
      if port in last.ports then last.protocol else Apply(default, port, overrides[..|overrides| - 1])
  }

  function Narrowed(ports: seq<int>): set<int> {
    set p | p in ports :: ToInt32(p)
  }

  function Overrides(http: seq<int>, https: seq<int>, http2: seq<int>): seq<Override> {
    [Override(Narrowed(http), Http), Override(Narrowed(https), Https), Override(Narrowed(http2), Http2)]
  }

  function PortProtocolOf(default: LBProtocol, p: ServicePort, overrides: seq<Override>): LBProtocol {
    if p.protocol == UDP then Udp else Apply(default, p.port, overrides)
  }

  const DEFAULT_SECURE_PORT := 443

  /** Port 443 becomes an HTTPS port on its own when TLS is asked for and no annotation
      says where. */
  predicate ImplicitSecurePort(https: seq<int>, http2: seq<int>, certificateID: string, passThrough: bool) {
    (certificateID != "" || passThrough) && https == [] && DEFAULT_SECURE_PORT !in http2
  }

  // ----- rules -----

  /** buildForwardingRule and buildTLSForwardingRule */
  function BuildRule(p: ServicePort, protocol: LBProtocol, certificateID: string, passThrough: bool): Result<ForwardingRule> {
    if p.protocol.OtherProtocol? then Err(Failure) else
    var plain := ForwardingRule(protocol, p.port, protocol, p.nodePort, "", false);
    if protocol != Https && protocol != Http2 then Ok(plain)
    else if (certificateID == "") == !passThrough then Err(Failure)
    else if passThrough then Ok(plain.(tlsPassthrough := true))
    else Ok(plain.(certificateID := certificateID, targetProtocol := Http))
  }

  /** `rule` for every port, or failure. */
  function BuildAll(ports: seq<ServicePort>, rule: ServicePort -> Result<ForwardingRule>): (r: Result<seq<ForwardingRule>>)
    ensures r.Err? ==> r.error == Failure
    ensures r.Ok? <==> forall i :: 0 <= i < |ports| ==> rule(ports[i]).Ok?
    ensures r.Ok? ==> |r.value| == |ports| && forall i :: 0 <= i < |ports| ==> rule(ports[i]) == Ok(r.value[i])
  {
    if ports == [] then Ok([]) else
      var n := |ports| - 1;
      match BuildAll(ports[..n], rule)
      case Err(e) => Err(Failure)
      case Ok(rules) =>
        match rule(ports[n])
        case Err(e) => Err(Failure)
        case Ok(r) => Ok(rules + [r])
  }

  function RuleBuilder(default: LBProtocol, overrides: seq<Override>, certificateID: string, passThrough: bool)
    : ServicePort -> Result<ForwardingRule>
  {
    p => BuildRule(p, PortProtocolOf(default, p, overrides), certificateID, passThrough)
  }

  function FindPort(ports: seq<ServicePort>, port: int): (r: Option<ServicePort>)
    ensures r.Some? ==> r.value in ports && r.value.port == port
    ensures r.None? ==> forall p :: p in ports ==> p.port != port
  {
    if ports == [] then None
    else if ports[0].port == port then Some(ports[0])
    else FindPort(ports[1..], port)
  }

  /** buildHTTP3ForwardingRule */
  function BuildHTTP3Rule(service: Service, certs: Certificates): Result<Option<ForwardingRule>> {
    match GetHTTP3Port(service)
    case Err(e) => Err(Failure)
    case Ok(port) =>
      if port == -1 then Ok(None) else
      match FindCertificateID(service, certs)
      case Err(e) => Err(Failure)
      case Ok(certificateID) =>
        if GetTLSPassThrough(service) || certificateID == "" then Err(Failure) else
        match FindPort(service.ports, ToInt32(port))
        case None => Ok(None)
        case Some(p) => Ok(Some(ForwardingRule(Http3, port, Http, p.nodePort, certificateID, false)))
  }

  /** The settings that buildForwardingRules reads before it looks at a port. */
  datatype Plan = Plan(default: LBProtocol, http: seq<int>, https: seq<int>, http2: seq<int>,
                       certificateID: string, passThrough: bool)

  function MakePlan(service: Service, certs: Certificates): Result<Plan> {
    match (GetProtocol(service), PortList(service, HTTPPorts), PortList(service, TLSPorts), PortList(service, HTTP2Ports),
           FindCertificateID(service, certs))
    case (Ok(default), Ok(http), Ok(https), Ok(http2), Ok(certificateID)) =>
      if NoDuplicates(http + https + http2)
      then Ok(Plan(default, http, https, http2, certificateID, GetTLSPassThrough(service)))
      else Err(Failure)
    case _ => Err(Failure)
  }

  function PlanOverrides(plan: Plan): seq<Override> {
    var https := if ImplicitSecurePort(plan.https, plan.http2, plan.certificateID, plan.passThrough)
                 then plan.https + [DEFAULT_SECURE_PORT] else plan.https;
    Overrides(plan.http, https, plan.http2)
  }

  /** buildForwardingRules */
  function Rules(service: Service, certs: Certificates): Result<seq<ForwardingRule>> {
    match MakePlan(service, certs)
    case Err(e) => Err(Failure)
    case Ok(plan) =>
      match (BuildAll(service.ports, RuleBuilder(plan.default, PlanOverrides(plan), plan.certificateID, plan.passThrough)),
             BuildHTTP3Rule(service, certs))
      case (Ok(rules), Ok(None)) => Ok(rules)
      case (Ok(rules), Ok(Some(h3))) => Ok(rules + [h3])
      case _ => Err(Failure)
  }

  /** buildRegionalNetworkForwardingRule: a pass-through rule per port. */
  function RegionalNetworkRule(p: ServicePort): Result<ForwardingRule> {
    match p.protocol
    case TCP => Ok(ForwardingRule(Tcp, p.port, Tcp, p.port, "", false))
    case UDP => Ok(ForwardingRule(Udp, p.port, Udp, p.port, "", false))
    case OtherProtocol(_) => Err(Failure)
  }

  function RegionalNetworkRules(service: Service): Result<seq<ForwardingRule>> {
    BuildAll(service.ports, RegionalNetworkRule)
  }

  // ----- the compiler, step by step -----

  method BuildPortRules(ports: seq<ServicePort>, plan: Plan, overrides: seq<Override>) returns (r: Result<seq<ForwardingRule>>)
    requires |overrides| == 3 && overrides[0].protocol == Http && overrides[1].protocol == Https && overrides[2].protocol == Http2
    ensures r == BuildAll(ports, RuleBuilder(plan.default, overrides, plan.certificateID, plan.passThrough))
  {
    ghost var builder := RuleBuilder(plan.default, overrides, plan.certificateID, plan.passThrough);
    var rules: seq<ForwardingRule> := [];
    for i := 0 to |ports|
      invariant |rules| == i && forall j :: 0 <= j < i ==> builder(ports[j]) == Ok(rules[j])
    {
      var p := ports[i];
      var protocol := plan.default;
      if p.port in overrides[0].ports {
        protocol := Http;
      }
      if p.port in overrides[1].ports {
        protocol := Https;
      }
      if p.port in overrides[2].ports {
        protocol := Http2;
      }
      ApplyThree(plan.default, p.port, overrides);
      if p.protocol == UDP {
        protocol := Udp;
      }
      var rule := BuildRule(p, protocol, plan.certificateID, plan.passThrough);
      assert rule == builder(p);
      if rule.Err? {
        return Err(Failure);
      }
      rules := rules + [rule.value];
    }
    assert BuildAll(ports, builder).Ok?;
    assert rules == BuildAll(ports, builder).value;
    return Ok(rules);
  }

  lemma ApplyThree(default: LBProtocol, port: int, os: seq<Override>)
    requires |os| == 3
    ensures Apply(default, port, os) ==
            if port in os[2].ports then os[2].protocol
            else if port in os[1].ports then os[1].protocol
            else if port in os[0].ports then os[0].protocol
            else default
  {
    assert os[..1][..0] == [];
    assert Apply(default, port, os[..1]) == if port in os[0].ports then os[0].protocol else default;
    assert os[..2][..1] == os[..1];
    assert Apply(default, port, os[..2]) == if port in os[1].ports then os[1].protocol else Apply(default, port, os[..1]);
  }

  method BuildForwardingRules(service: Service, certs: Certificates) returns (r: Result<seq<ForwardingRule>>)
    ensures r == Rules(service, certs)
  {
    var default := GetProtocol(service);
    if default.Err? {
      return Err(Failure);
    }
    var http := GetPorts(service, HTTPPorts);
    if http.Err? {
      return Err(Failure);
    }
    var https := GetPorts(service, TLSPorts);
    if https.Err? {
      return Err(Failure);
    }
    var http2 := GetPorts(service, HTTP2Ports);
    if http2.Err? {
      return Err(Failure);
    }
    var dups := FindDups(http.value, https.value, http2.value);
    if dups != [] {
      return Err(Failure);
    }
    var certificateID := FindCertificateID(service, certs);
    if certificateID.Err? {
      return Err(Failure);
    }
    var plan := Plan(default.value, http.value, https.value, http2.value, certificateID.value, GetTLSPassThrough(service));
    assert MakePlan(service, certs) == Ok(plan);
    var rules := BuildPortRules(service.ports, plan, PlanOverrides(plan));
    if rules.Err? {
      return Err(Failure);
    }
    match BuildHTTP3Rule(service, certs) {
      case Err(_) => return Err(Failure);
      case Ok(None) => return rules;
      case Ok(Some(h3)) => return Ok(rules.value + [h3]);
    }
  }
}
