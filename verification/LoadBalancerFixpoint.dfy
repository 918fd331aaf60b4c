/** Repeated syncs of an unchanged cluster settle. */
module LoadBalancerFixpoint {
  import opened Prelude
  import opened Seqs
  import opened Cluster
  import opened Droplets
  import opened NodeAdmission
  import opened ForwardingRules
  import opened LoadBalancerRequests
  import opened LoadBalancerSync
  import opened CertificateTracking
  import opened LoadBalancerAccounting

  /** A node without a ProviderID is admitted on its readiness alone. */
  lemma UnidentifiedAdmitted(nodes: seq<Node>, lbType: LBType, network: Network, before: set<int>, after: set<int>)
    ensures Unidentified(Admitted(nodes, lbType, network, before)) == Unidentified(Admitted(nodes, lbType, network, after))
  {
    forall n: Node | n.providerID == ""
      ensures n in Admitted(nodes, lbType, network, before) <==> n in Admitted(nodes, lbType, network, after)
    {
      AdmittedMember(nodes, lbType, network, before, n);
      AdmittedMember(nodes, lbType, network, after, n);
    }
  }

  /** Nodes admitted before are admitted again, once their IDs count as admitted; and a
      node with a ProviderID admitted then has an ID that was written before. */
  lemma ReadmittedIds(nodes: seq<Node>, lbType: LBType, network: Network, before: set<int>, droplets: Result<seq<Droplet>>, ids: seq<int>, d: int)
    requires DropletIDs(Admitted(nodes, lbType, network, before), droplets) == Ok(ids)
    requires Collect(Admitted(nodes, lbType, network, Elements(ids)), IdOf).Ok?
    ensures d in Collect(Admitted(nodes, lbType, network, before), IdOf).value ==> d in Collect(Admitted(nodes, lbType, network, Elements(ids)), IdOf).value
    ensures d in Collect(Admitted(nodes, lbType, network, Elements(ids)), IdOf).value ==> d in ids
  {
    var first, second := Admitted(nodes, lbType, network, before), Admitted(nodes, lbType, network, Elements(ids));
    IdParts(first, droplets);
    if d in Collect(first, IdOf).value {
      var n := CollectOrigin(first, IdOf, d);
      AdmittedMember(nodes, lbType, network, before, n);
      AdmittedMember(nodes, lbType, network, Elements(ids), n);
      CollectHas(second, IdOf, n);
    } else if d in Collect(second, IdOf).value {
      var n := CollectOrigin(second, IdOf, d);
      AdmittedMember(nodes, lbType, network, before, n);
      AdmittedMember(nodes, lbType, network, Elements(ids), n);
      if n in first {
        CollectHas(first, IdOf, n);
      }
    }
  }

  lemma SameIds(nodes: seq<Node>, lbType: LBType, network: Network, before: set<int>, droplets: Result<seq<Droplet>>, ids: seq<int>, again: seq<int>)
    requires DropletIDs(Admitted(nodes, lbType, network, before), droplets) == Ok(ids)
    requires DropletIDs(Admitted(nodes, lbType, network, Elements(ids)), droplets) == Ok(again)
    ensures Elements(again) == Elements(ids)
  {
    IdParts(Admitted(nodes, lbType, network, before), droplets);
    IdParts(Admitted(nodes, lbType, network, Elements(ids)), droplets);
    UnidentifiedAdmitted(nodes, lbType, network, before, Elements(ids));
    forall d ensures d in again <==> d in ids {
      ReadmittedIds(nodes, lbType, network, before, droplets, ids, d);
    }
  }

  /** Write idempotence: a second successful update under the same conditions writes the
      same set of droplet IDs. */
  lemma WriteIdempotent(cfg: Config, lb: LB, service: Service, env: Env, lbs: seq<LB>)
    requires var u := UpdateLB(cfg, lb, service, env, lbs);
             u.result.Ok? && UpdateLB(cfg, u.result.value.0, u.service, env, u.lbs).result.Ok?
    ensures var u := UpdateLB(cfg, lb, service, env, lbs);
            Elements(UpdateLB(cfg, u.result.value.0, u.service, env, u.lbs).result.value.0.dropletIDs) == Elements(u.result.value.0.dropletIDs)
  {
    var u := UpdateLB(cfg, lb, service, env, lbs);
    var lb1 := u.result.value.0;
    var v := UpdateLB(cfg, lb1, u.service, env, u.lbs);
    var lbType, network, b := UpdateMeaning(cfg, lb, service, env, lbs);
    var t, w, c := UpdateMeaning(cfg, lb1, u.service, env, u.lbs);
    BuildMeaning(cfg, u.service, env.nodes, Elements(lb.dropletIDs), env.look, lbType, network);
    BuildMeaning(cfg, v.service, env.nodes, Elements(lb1.dropletIDs), env.look, lbType, network);
    SameIds(env.nodes, lbType, network, Elements(lb.dropletIDs), env.look.droplets, b.request.dropletIDs, c.request.dropletIDs);
  }

  lemma RepeatedOverwrite(lbs: seq<LB>, id: string, x: LB)
    requires x.id == id
    ensures Overwrite(Overwrite(lbs, id, x), id, x) == Overwrite(lbs, id, x)
  {
  }

  /** Settled: a third update changes nothing at all, neither the load balancer nor the
      service nor the nodes it reports as held back. */
  lemma ThirdUpdateSettled(cfg: Config, lb: LB, service: Service, env: Env, lbs: seq<LB>)
    requires var u := UpdateLB(cfg, lb, service, env, lbs);
             u.result.Ok? && UpdateLB(cfg, u.result.value.0, u.service, env, u.lbs).result.Ok?
    ensures var u := UpdateLB(cfg, lb, service, env, lbs);
            var v := UpdateLB(cfg, u.result.value.0, u.service, env, u.lbs);
            UpdateLB(cfg, v.result.value.0, v.service, env, v.lbs) == v
  {
    var u := UpdateLB(cfg, lb, service, env, lbs);
    var v := UpdateLB(cfg, u.result.value.0, u.service, env, u.lbs);
    WriteIdempotent(cfg, lb, service, env, lbs);
    CertificateFixpoint(cfg, lb, service, env, lbs, env, u.lbs);
    SettledFrom(cfg, u.result.value.0, v.service, env, u.lbs);
  }

  /** An update that changes neither the service nor the set of droplet IDs is a fixpoint. */
  lemma SettledFrom(cfg: Config, lb: LB, service: Service, env: Env, lbs: seq<LB>)
    requires var v := UpdateLB(cfg, lb, service, env, lbs);
      v.result.Ok? && v.service == service && Elements(v.result.value.0.dropletIDs) == Elements(lb.dropletIDs)
    ensures var v := UpdateLB(cfg, lb, service, env, lbs); UpdateLB(cfg, v.result.value.0, service, env, v.lbs) == v
  {
    var v := UpdateLB(cfg, lb, service, env, lbs);
    var lb1 := v.result.value.0;
    var lbType, network, b := UpdateMeaning(cfg, lb, service, env, lbs);
    CertificateAgrees(cfg, lb, service, env, lbs);
    assert CertificateOf(lb1.rules) == "" || FindCertificateID(service, env.look.certs) == Ok(CertificateOf(lb1.rules));
    OverwrittenById(lbs, lb.id, lb1);
    RepeatedOverwrite(lbs, lb.id, lb1);
    SameBuildSameUpdate(cfg, lb1, service, env, v.lbs, b);
  }

  lemma SameBuildSameUpdate(cfg: Config, lb: LB, service: Service, env: Env, lbs: seq<LB>, b: Build)
    requires BuildRequest(cfg, service, env.nodes, Elements(lb.dropletIDs), env.look) == Ok(b)
    requires FindCertificateID(service, env.look.certs).Ok?
    requires CertificateOf(lb.rules) == "" || FindCertificateID(service, env.look.certs) == Ok(CertificateOf(lb.rules))
    requires env.updateWorks && ById(lbs, lb.id).Some?
    ensures UpdateLB(cfg, lb, service, env, lbs)
         == Updated(Ok((Applied(lb, b.request, env.status), b.pendingNotReady)), service, Overwrite(lbs, lb.id, Applied(lb, b.request, env.status)))
  {
  }

  // ----- nodes that name droplets of their own -----

  /** Whose ID was written was admitted already, and the other way round. */
  lemma SameGate(nodes: seq<Node>, lbType: LBType, network: Network, before: set<int>, droplets: Result<seq<Droplet>>, ids: seq<int>, n: Node)
    requires Separate(nodes) && DropletIDs(Admitted(nodes, lbType, network, before), droplets) == Ok(ids)
    requires n in nodes && LbReady(lbType, network, n)
    ensures AlreadyAdmitted(n, before) || Serving(n) <==> AlreadyAdmitted(n, Elements(ids)) || Serving(n)
  {
    var first := Admitted(nodes, lbType, network, before);
    AdmittedMember(nodes, lbType, network, before, n);
    DropletIDsMeaning(first, droplets);
    if n in first {
      assert n.providerID != "" && DropletID(n.providerID).value in ids;
    } else if AlreadyAdmitted(n, Elements(ids)) {
      var m :| m in first && StandsFor(m, DropletID(n.providerID).value, droplets);
      AdmittedMember(nodes, lbType, network, before, m);
    }
  }

  lemma SameAdmission(nodes: seq<Node>, lbType: LBType, network: Network, before: set<int>, droplets: Result<seq<Droplet>>, ids: seq<int>)
    requires Separate(nodes) && DropletIDs(Admitted(nodes, lbType, network, before), droplets) == Ok(ids)
    ensures var usable := Filter(nodes, ReadyFor(lbType, network));
      && Filter(usable, Admissible(Elements(ids))) == Filter(usable, Admissible(before))
      && Filter(usable, Inadmissible(Elements(ids))) == Filter(usable, Inadmissible(before))
  {
    var usable := Filter(nodes, ReadyFor(lbType, network));
    forall n | n in usable ensures Admissible(before)(n) == Admissible(Elements(ids))(n) {
      FilterMember(nodes, ReadyFor(lbType, network), n);
      SameGate(nodes, lbType, network, before, droplets, ids, n);
    }
    FilterCongruence(usable, Admissible(before), Admissible(Elements(ids)));
    FilterCongruence(usable, Inadmissible(before), Inadmissible(Elements(ids)));
  }

  lemma SameBuildFor(nodes: seq<Node>, before: set<int>, after: set<int>, lbType: LBType, network: Network,
                     configure: NodeState -> Result<Request>, resolve: seq<Node> -> Result<seq<int>>)
    requires var usable := Filter(nodes, ReadyFor(lbType, network));
      Filter(usable, Admissible(after)) == Filter(usable, Admissible(before)) && Filter(usable, Inadmissible(after)) == Filter(usable, Inadmissible(before))
    ensures BuildFor(nodes, after, lbType, network, configure, resolve) == BuildFor(nodes, before, lbType, network, configure, resolve)
  {
  }

  lemma CertificateStillFound(cfg: Config, lb: LB, service: Service, env: Env, lbs: seq<LB>)
    requires UpdateLB(cfg, lb, service, env, lbs).result.Ok?
    ensures FindCertificateID(UpdateLB(cfg, lb, service, env, lbs).service, env.look.certs).Ok?
  {
    var lbType, network, b := UpdateMeaning(cfg, lb, service, env, lbs);
    var lbCert := CertificateOf(lb.rules);
    RecordedExactly(service, lbCert, FindCertificateID(service, env.look.certs).value, env.look.certs);
    AnnotatedCertificateKeepsAsks(cfg, service, lbCert, lbType, network);
  }

  /** Where the nodes name droplets of their own, one update settles: a second one under
      the same conditions succeeds and changes nothing. */
  lemma OneUpdateSettles(cfg: Config, lb: LB, service: Service, env: Env, lbs: seq<LB>)
    requires UpdateLB(cfg, lb, service, env, lbs).result.Ok? && Separate(env.nodes)
    ensures var u := UpdateLB(cfg, lb, service, env, lbs); UpdateLB(cfg, u.result.value.0, u.service, env, u.lbs) == u
  {
    var u := UpdateLB(cfg, lb, service, env, lbs);
    var lb1 := u.result.value.0;
    var lbType, network, b := UpdateMeaning(cfg, lb, service, env, lbs);
    BuildMeaning(cfg, u.service, env.nodes, Elements(lb.dropletIDs), env.look, lbType, network);
    SameAdmission(env.nodes, lbType, network, Elements(lb.dropletIDs), env.look.droplets, b.request.dropletIDs);
    SameBuildFor(env.nodes, Elements(lb.dropletIDs), Elements(lb1.dropletIDs), lbType, network,
                 Configurer(cfg, u.service, env.look.certs), Resolver(env.look.droplets));
    CertificateStillFound(cfg, lb, service, env, lbs);
    CertificateAgrees(cfg, lb, service, env, lbs);
    assert CertificateOf(lb1.rules) == "" || FindCertificateID(u.service, env.look.certs) == Ok(CertificateOf(lb1.rules));
    OverwrittenById(lbs, lb.id, lb1);
    RepeatedOverwrite(lbs, lb.id, lb1);
    SameBuildSameUpdate(cfg, lb1, u.service, env, u.lbs, b);
  }

  // ----- the entry point -----

  /** UpdateLoadBalancer reaches its write, the write succeeds and the patch does. */
  ghost predicate Writes(cfg: Config, service: Service, env: Env, lbs: seq<LB>, lb: LB) {
    && BoolAnnotation(service, DisownLB).Ok? && !Disowned(service) && env.patchWorks && env.getWorks
    && Retrieve(service, lbs, env) == Ok(lb) && lb.id != ""
    && PrepareNodes(cfg, AnnotateWith(service, lb), env.nodes).Ok?
    && UpdateLB(cfg, lb, AnnotateWith(service, lb), env, lbs).result.Ok?
  }

  /** The update edits annotations only, and keeps the ID and type it found. */
  lemma UpdatedService(cfg: Config, lb: LB, service: Service, env: Env, lbs: seq<LB>)
    requires UpdateLB(cfg, lb, service, env, lbs).result.Ok?
    ensures var after := UpdateLB(cfg, lb, service, env, lbs).service;
      && after == service.(annotations := after.annotations)
      && forall key :: key != CertificateID ==>
           Annotation(after, key) == Annotation(service, key) && (key in after.annotations <==> key in service.annotations)
  {
    var lbType, network, b := UpdateMeaning(cfg, lb, service, env, lbs);
    RecordedExactly(service, CertificateOf(lb.rules), FindCertificateID(service, env.look.certs).value, env.look.certs);
  }

  lemma Reannotated(service: Service, lb: LB)
    requires LoadBalancerID in service.annotations && service.annotations[LoadBalancerID] == lb.id
    requires LoadBalancerType in service.annotations && service.annotations[LoadBalancerType] == lb.lbType
    ensures AnnotateWith(service, lb) == service
  {
    assert service.annotations[LoadBalancerID := lb.id] == service.annotations;
    assert service.annotations[LoadBalancerType := lb.lbType] == service.annotations;
  }

  lemma AnnotatedWith(service: Service, lb: LB)
    ensures var after := AnnotateWith(service, lb);
      && LoadBalancerID in after.annotations && after.annotations[LoadBalancerID] == lb.id
      && LoadBalancerType in after.annotations && after.annotations[LoadBalancerType] == lb.lbType
      && after == service.(annotations := after.annotations)
      && BoolAnnotation(after, DisownLB) == BoolAnnotation(service, DisownLB)
  {
  }

  lemma UpdateEnds(cfg: Config, service: Service, env: Env, lbs: seq<LB>, lb: LB)
    requires Writes(cfg, service, env, lbs, lb)
    ensures var s := Update(cfg, service, env, lbs); var u := UpdateLB(cfg, lb, AnnotateWith(service, lb), env, lbs);
            var pending := PrepareNodes(cfg, AnnotateWith(service, lb), env.nodes);
            s == Synced(RetryIfPending(pending.value, u.result.value.1), u.service, u.lbs, 0)
  {
    AnnotatedWith(service, lb);
    UpdatedService(cfg, lb, AnnotateWith(service, lb), env, lbs);
  }

  /** After such an update the next one finds the load balancer it wrote, by ID, and the
      annotations as it would make them. */
  lemma NextFinds(cfg: Config, service: Service, env: Env, lbs: seq<LB>, lb: LB)
    requires Writes(cfg, service, env, lbs, lb)
    ensures var s := Update(cfg, service, env, lbs); var u := UpdateLB(cfg, lb, AnnotateWith(service, lb), env, lbs);
      && Retrieve(s.service, s.lbs, env) == Ok(u.result.value.0)
      && AnnotateWith(s.service, u.result.value.0) == s.service == u.service && s.lbs == u.lbs
  {
    var service1 := AnnotateWith(service, lb);
    var u := UpdateLB(cfg, lb, service1, env, lbs);
    UpdateEnds(cfg, service, env, lbs, lb);
    AnnotatedWith(service, lb);
    UpdatedService(cfg, lb, service1, env, lbs);
    var lbType, network, b := UpdateMeaning(cfg, lb, service1, env, lbs);
    OverwrittenById(lbs, lb.id, u.result.value.0);
    Reannotated(u.service, u.result.value.0);
  }

  /** With unchanged nodes, droplets, certificates and service, the second update writes
      the same set of droplet IDs as the first, and from then on an update changes
      nothing and returns the same error. */
  lemma UpdatesSettle(cfg: Config, service: Service, env: Env, lbs: seq<LB>, lb: LB, lb1: LB)
    requires Writes(cfg, service, env, lbs, lb)
    requires var s := Update(cfg, service, env, lbs); Writes(cfg, s.service, env, s.lbs, lb1)
    ensures var s := Update(cfg, service, env, lbs); var t := Update(cfg, s.service, env, s.lbs);
      && ById(t.lbs, lb1.id).Some? && Elements(ById(t.lbs, lb1.id).value.dropletIDs) == Elements(lb1.dropletIDs)
      && Update(cfg, t.service, env, t.lbs) == t
  {
    var s := Update(cfg, service, env, lbs);
    var t := Update(cfg, s.service, env, s.lbs);
    var service1 := AnnotateWith(service, lb);
    var u := UpdateLB(cfg, lb, service1, env, lbs);
    var v := UpdateLB(cfg, lb1, u.service, env, u.lbs);
    NextFinds(cfg, service, env, lbs, lb);
    NextFinds(cfg, s.service, env, s.lbs, lb1);
    WriteIdempotent(cfg, lb, service1, env, lbs);
    ThirdUpdateSettled(cfg, lb, service1, env, lbs);
    UpdateEnds(cfg, s.service, env, s.lbs, lb1);
    WrittenAt(cfg, lb1, u.service, env, u.lbs);
    CertificateFixpoint(cfg, lb, service1, env, lbs, env, u.lbs);
    UpdateEnds(cfg, t.service, env, t.lbs, v.result.value.0);
  }

  lemma SamePreparation(cfg: Config, lb: LB, service: Service, env: Env, lbs: seq<LB>)
    requires UpdateLB(cfg, lb, service, env, lbs).result.Ok?
    ensures PrepareNodes(cfg, UpdateLB(cfg, lb, service, env, lbs).service, env.nodes) == PrepareNodes(cfg, service, env.nodes)
  {
    var lbType, network, b := UpdateMeaning(cfg, lb, service, env, lbs);
  }

  lemma SameOwnership(service: Service, after: Service)
    requires Annotation(after, DisownLB) == Annotation(service, DisownLB) && (DisownLB in after.annotations <==> DisownLB in service.annotations)
    ensures BoolAnnotation(after, DisownLB) == BoolAnnotation(service, DisownLB)
  {
  }

  /** The same for whole calls: where the nodes name droplets of their own, a second
      UpdateLoadBalancer succeeds like the first, returns the same error and changes nothing. */
  lemma OneCallSettles(cfg: Config, service: Service, env: Env, lbs: seq<LB>, lb: LB)
    requires Writes(cfg, service, env, lbs, lb) && Separate(env.nodes)
    ensures var s := Update(cfg, service, env, lbs); Update(cfg, s.service, env, s.lbs) == s
  {
    var s := Update(cfg, service, env, lbs);
    var service1 := AnnotateWith(service, lb);
    var u := UpdateLB(cfg, lb, service1, env, lbs);
    UpdateEnds(cfg, service, env, lbs, lb);
    NextFinds(cfg, service, env, lbs, lb);
    OneUpdateSettles(cfg, lb, service1, env, lbs);
    SamePreparation(cfg, lb, service1, env, lbs);
    UpdatedService(cfg, lb, service1, env, lbs);
    AnnotatedWith(service, lb);
    SameOwnership(service1, u.service);
    assert Writes(cfg, s.service, env, s.lbs, u.result.value.0);
    UpdateEnds(cfg, s.service, env, s.lbs, u.result.value.0);
  }

  lemma WrittenAt(cfg: Config, lb: LB, service: Service, env: Env, lbs: seq<LB>)
    requires UpdateLB(cfg, lb, service, env, lbs).result.Ok?
    ensures var u := UpdateLB(cfg, lb, service, env, lbs); ById(u.lbs, lb.id) == Some(u.result.value.0)
  {
    var lbType, network, b := UpdateMeaning(cfg, lb, service, env, lbs);
    OverwrittenById(lbs, lb.id, UpdateLB(cfg, lb, service, env, lbs).result.value.0);
  }
}
