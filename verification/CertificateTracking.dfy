/** Let's Encrypt renewals on the load balancer are followed, manual changes win, and
    both settle after one update. */
module CertificateTracking {
  import opened Prelude
  import opened Seqs
  import opened Cluster
  import opened ForwardingRules
  import opened ForwardingMeaning
  import opened LoadBalancerRequests
  import opened LoadBalancerSync

  /** The load balancer's certificate is a Let's Encrypt renewal of the annotated one: it
      has the same name, or the annotated one is gone. */
  predicate Renewed(certs: Certificates, lbCert: string, serviceCert: string) {
    && certs.get(lbCert).Found? && certs.get(lbCert).certificate.letsEncrypt
    && (match certs.get(serviceCert)
        case Missing => true
        case Found(annotated) => annotated.name == certs.get(lbCert).certificate.name
        case Broken => false)
  }

  /** A successful recording leaves the service alone or annotates the load balancer's
      certificate, and it does the latter exactly for renewals. */
  lemma RecordedExactly(service: Service, lbCert: string, serviceCert: string, certs: Certificates)
    requires RecordCert(service, lbCert, serviceCert, certs).Ok?
    ensures var renewed := lbCert != "" && serviceCert != "" && lbCert != serviceCert && Renewed(certs, lbCert, serviceCert);
            RecordCert(service, lbCert, serviceCert, certs).value == if renewed then Annotate(service, CertificateID, lbCert) else service
  {
  }

  /** Recording fails exactly if a certificate it has to look at cannot be fetched: that of
      the load balancer, when the two differ, and then, if it is a Let's Encrypt one, the
      annotated one. */
  lemma RecordingFailsIff(service: Service, lbCert: string, serviceCert: string, certs: Certificates)
    ensures RecordCert(service, lbCert, serviceCert, certs).Err? <==>
      && lbCert != "" && serviceCert != "" && lbCert != serviceCert
      && (|| certs.get(lbCert).Broken?
          || (certs.get(lbCert).Found? && certs.get(lbCert).certificate.letsEncrypt && certs.get(serviceCert).Broken?))
  {
  }

  lemma AnnotatedCertificateKeepsAsks(cfg: Config, service: Service, cert: string, lbType: LBType, network: Network)
    ensures Asks(cfg, Annotate(service, CertificateID, cert), lbType, network) <==> Asks(cfg, service, lbType, network)
    ensures Name(Annotate(service, CertificateID, cert)) == Name(service)
    ensures cert != "" ==> forall certs :: FindCertificateID(Annotate(service, CertificateID, cert), certs) == Ok(cert)
  {
  }

  /** What an update knows once it succeeded: the service differs by the certificate
      annotation at most, and the load balancer carries what was built from it. */
  lemma UpdateMeaning(cfg: Config, lb: LB, service: Service, env: Env, lbs: seq<LB>) returns (lbType: LBType, network: Network, b: Build)
    requires UpdateLB(cfg, lb, service, env, lbs).result.Ok?
    ensures var u := UpdateLB(cfg, lb, service, env, lbs);
      && Asks(cfg, service, lbType, network) && Asks(cfg, u.service, lbType, network)
      && BuildRequest(cfg, u.service, env.nodes, Elements(lb.dropletIDs), env.look) == Ok(b)
      && u.result.value == (Applied(lb, b.request, env.status), b.pendingNotReady)
      && u.lbs == Overwrite(lbs, lb.id, u.result.value.0) && ById(lbs, lb.id).Some?
      && FindCertificateID(service, env.look.certs).Ok?
      && RecordCert(service, CertificateOf(lb.rules), FindCertificateID(service, env.look.certs).value, env.look.certs) == Ok(u.service)
  {
    var u := UpdateLB(cfg, lb, service, env, lbs);
    var cert := FindCertificateID(service, env.look.certs).value;
    RecordedExactly(service, CertificateOf(lb.rules), cert, env.look.certs);
    b := BuildRequest(cfg, u.service, env.nodes, Elements(lb.dropletIDs), env.look).value;
    lbType, network := GetType(service, cfg.defaultType).value, GetNetwork(service).value;
    AnnotatedCertificateKeepsAsks(cfg, service, CertificateOf(lb.rules), lbType, network);
  }

  /** After a successful update every rule carries no certificate or the one the service
      now resolves to. */
  lemma CertificateAgrees(cfg: Config, lb: LB, service: Service, env: Env, lbs: seq<LB>)
    requires UpdateLB(cfg, lb, service, env, lbs).result.Ok?
    ensures var u := UpdateLB(cfg, lb, service, env, lbs);
            forall r :: r in u.result.value.0.rules ==>
              r.certificateID == "" || FindCertificateID(u.service, env.look.certs) == Ok(r.certificateID)
  {
    var u := UpdateLB(cfg, lb, service, env, lbs);
    var lbType, network, b := UpdateMeaning(cfg, lb, service, env, lbs);
    BuildMeaning(cfg, u.service, env.nodes, Elements(lb.dropletIDs), env.look, lbType, network);
    assert u.result.value.0.rules == b.request.rules;
    if lbType == RegionalNetwork {
      PlainRules(u.service, b.request.rules);
    } else {
      RuleCertificates(u.service, env.look.certs);
    }
  }

  lemma PlainRules(service: Service, rules: seq<ForwardingRule>)
    requires RegionalNetworkRules(service) == Ok(rules)
    ensures forall r :: r in rules ==> r.certificateID == ""
  {
    forall r | r in rules ensures r.certificateID == "" {
      var i :| 0 <= i < |rules| && rules[i] == r;
      assert RegionalNetworkRule(service.ports[i]) == Ok(rules[i]);
    }
  }

  /** Fixpoint: with the same certificates, a second update, whatever else changed and
      however it ends, leaves the service's annotations as they are. */
  lemma CertificateFixpoint(cfg: Config, lb: LB, service: Service, env: Env, lbs: seq<LB>, later: Env, store: seq<LB>)
    requires UpdateLB(cfg, lb, service, env, lbs).result.Ok?
    requires later.look.certs == env.look.certs
    ensures var u := UpdateLB(cfg, lb, service, env, lbs);
            UpdateLB(cfg, u.result.value.0, u.service, later, store).service == u.service
  {
    var u := UpdateLB(cfg, lb, service, env, lbs);
    CertificateAgrees(cfg, lb, service, env, lbs);
    var lbCert := CertificateOf(u.result.value.0.rules);
    assert lbCert == "" || FindCertificateID(u.service, env.look.certs) == Ok(lbCert);
  }

  /** A renewal is never reverted: the update annotates the renewed certificate and the
      load balancer keeps it on every rule that has one. A certificate changed by hand
      wins instead: annotations stay, and the rules carry the annotated certificate. */
  lemma RenewalKept(cfg: Config, lb: LB, service: Service, env: Env, lbs: seq<LB>, serviceCert: string)
    requires UpdateLB(cfg, lb, service, env, lbs).result.Ok?
    requires FindCertificateID(service, env.look.certs) == Ok(serviceCert)
    ensures var u := UpdateLB(cfg, lb, service, env, lbs);
            var lbCert := CertificateOf(lb.rules);
            var renewed := lbCert != "" && serviceCert != "" && lbCert != serviceCert && Renewed(env.look.certs, lbCert, serviceCert);
      && (renewed ==> Annotation(u.service, CertificateID) == lbCert)
      && (!renewed ==> u.service == service)
      && forall r :: r in u.result.value.0.rules && r.certificateID != "" ==>
           r.certificateID == if renewed then lbCert else serviceCert
  {
    var u := UpdateLB(cfg, lb, service, env, lbs);
    var lbType, network, b := UpdateMeaning(cfg, lb, service, env, lbs);
    var lbCert := CertificateOf(lb.rules);
    RecordedExactly(service, lbCert, serviceCert, env.look.certs);
    CertificateAgrees(cfg, lb, service, env, lbs);
    AnnotatedCertificateKeepsAsks(cfg, service, lbCert, lbType, network);
  }
}
