/** What a sync returns accounts for every listed node, with exactly two exceptions: a
    usable node that no droplet can be found for, and, from Ensure, a node judged by the
    wrong load balancer type. */
module LoadBalancerAccounting {
  import opened Prelude
  import opened Seqs
  import opened Cluster
  import opened Droplets
  import opened NodeAdmission
  import opened ForwardingRules
  import opened LoadBalancerRequests
  import opened LoadBalancerSync
  import opened CertificateTracking

  // ----- one node -----

  /** Left out for good: private by declaration and without a usable address, or
      IPv6-only, on an external load balancer. */
  predicate LeftOutForGood(lbType: LBType, network: Network, n: Node) {
    && network == External
    && (|| (ClassFor(lbType, network, n) == PublicNetUnready && !IntendsPublic(n))
        || ClassFor(lbType, network, n) == SingleStackV6)
  }

  /** Usable, and a droplet that the node stands for is among the written backends. */
  ghost predicate IsWritten(lbType: LBType, network: Network, n: Node, written: seq<int>, droplets: Result<seq<Droplet>>) {
    LbReady(lbType, network, n) && WrittenFor(n, written, droplets)
  }

  ghost predicate Accounted(lbType: LBType, network: Network, n: Node, written: seq<int>, droplets: Result<seq<Droplet>>) {
    IsWritten(lbType, network, n, written, droplets) || LeftOutForGood(lbType, network, n)
  }

  ghost predicate AllAccounted(lbType: LBType, network: Network, nodes: seq<Node>, written: seq<int>, droplets: Result<seq<Droplet>>) {
    forall n :: n in nodes ==> Accounted(lbType, network, n, written, droplets)
  }

  /** Usable, but there is no droplet to find: the code logs it and goes on. */
  ghost predicate Unfound(lbType: LBType, network: Network, n: Node, droplets: Result<seq<Droplet>>) {
    LbReady(lbType, network, n) && !Findable(n, droplets)
  }

  ghost predicate AllFound(lbType: LBType, network: Network, nodes: seq<Node>, droplets: Result<seq<Droplet>>) {
    forall n :: n in nodes ==> !Unfound(lbType, network, n, droplets)
  }

  predicate AwaitsReadiness(lbType: LBType, network: Network, n: Node, admitted: set<int>) {
    LbReady(lbType, network, n) && !AlreadyAdmitted(n, admitted) && !Serving(n)
  }

  predicate AwaitsAddress(lbType: LBType, network: Network, n: Node) {
    network == External && ClassFor(lbType, network, n) == PublicNetUnready && IntendsPublic(n)
  }

  // ----- one write -----

  /** After a write every node is written, left out for good, awaits something or has no
      droplet to find; and an admitted one is written exactly if it has. */
  lemma WriteAccounts(cfg: Config, service: Service, nodes: seq<Node>, admitted: set<int>, look: Lookups, lbType: LBType, network: Network, n: Node)
    requires BuildRequest(cfg, service, nodes, admitted, look).Ok? && Asks(cfg, service, lbType, network) && n in nodes
    ensures var ids := BuildRequest(cfg, service, nodes, admitted, look).value.request.dropletIDs;
      || IsWritten(lbType, network, n, ids, look.droplets)
      || LeftOutForGood(lbType, network, n)
      || AwaitsReadiness(lbType, network, n, admitted)
      || AwaitsAddress(lbType, network, n)
      || Unfound(lbType, network, n, look.droplets)
    ensures var ids := BuildRequest(cfg, service, nodes, admitted, look).value.request.dropletIDs;
      LbReady(lbType, network, n) && !AwaitsReadiness(lbType, network, n, admitted) ==>
        (IsWritten(lbType, network, n, ids, look.droplets) <==> !Unfound(lbType, network, n, look.droplets))
  {
    BuildMeaning(cfg, service, nodes, admitted, look, lbType, network);
    AdmittedMember(nodes, lbType, network, admitted, n);
    if n in Admitted(nodes, lbType, network, admitted) {
      WrittenIffFindable(Admitted(nodes, lbType, network, admitted), look.droplets, n);
    }
  }

  lemma PendingNodes(nodes: seq<Node>, lbType: LBType, network: Network, admitted: set<int>)
    ensures HeldBack(nodes, lbType, network, admitted) != [] <==> exists n :: n in nodes && AwaitsReadiness(lbType, network, n, admitted)
    ensures Initializing(nodes, lbType, network) != [] <==> exists n :: n in nodes && AwaitsAddress(lbType, network, n)
  {
    var held, init := HeldBack(nodes, lbType, network, admitted), Initializing(nodes, lbType, network);
    forall n ensures n in held <==> n in nodes && AwaitsReadiness(lbType, network, n, admitted)
             ensures n in init <==> n in nodes && AwaitsAddress(lbType, network, n) {
      AdmittedMember(nodes, lbType, network, admitted, n);
    }
    assert held != [] ==> held[0] in held;
    assert init != [] ==> init[0] in init;
  }

  /** The retry that a write calls for: 15 seconds while some node awaits readiness, else 5
      while some node awaits its address, else none. */
  ghost function DueRetry(nodes: seq<Node>, lbType: LBType, network: Network, admitted: set<int>): Option<Error> {
    if exists n :: n in nodes && AwaitsReadiness(lbType, network, n, admitted) then Some(RetryAfter(15))
    else if exists n :: n in nodes && AwaitsAddress(lbType, network, n) then Some(RetryAfter(5))
    else None
  }

  lemma FateOf(lbType: LBType, network: Network, n: Node, ids: seq<int>, droplets: Result<seq<Droplet>>)
    requires LbReady(lbType, network, n) ==> (IsWritten(lbType, network, n, ids, droplets) <==> !Unfound(lbType, network, n, droplets))
    ensures Accounted(lbType, network, n, ids, droplets) <==> !AwaitsAddress(lbType, network, n) && !Unfound(lbType, network, n, droplets)
  {
  }

  /** A write that holds no node back accounts for exactly the nodes that neither await an
      address nor have no droplet to find. */
  lemma AccountedIff(cfg: Config, service: Service, nodes: seq<Node>, admitted: set<int>, look: Lookups, lbType: LBType, network: Network)
    requires BuildRequest(cfg, service, nodes, admitted, look).Ok? && Asks(cfg, service, lbType, network)
    requires HeldBack(nodes, lbType, network, admitted) == []
    ensures var ids := BuildRequest(cfg, service, nodes, admitted, look).value.request.dropletIDs;
      forall n :: n in nodes ==>
        (Accounted(lbType, network, n, ids, look.droplets) <==> !AwaitsAddress(lbType, network, n) && !Unfound(lbType, network, n, look.droplets))
  {
    var ids := BuildRequest(cfg, service, nodes, admitted, look).value.request.dropletIDs;
    PendingNodes(nodes, lbType, network, admitted);
    forall n | n in nodes
      ensures Accounted(lbType, network, n, ids, look.droplets) <==> !AwaitsAddress(lbType, network, n) && !Unfound(lbType, network, n, look.droplets)
    {
      WriteAccounts(cfg, service, nodes, admitted, look, lbType, network, n);
      FateOf(lbType, network, n, ids, look.droplets);
    }
  }

  /** What a successful update wrote and held back, by the store. */
  lemma WrittenBy(cfg: Config, lb: LB, service: Service, env: Env, lbs: seq<LB>, lbType: LBType, network: Network)
    requires UpdateLB(cfg, lb, service, env, lbs).result.Ok? && Asks(cfg, service, lbType, network)
    ensures var u := UpdateLB(cfg, lb, service, env, lbs); var admitted := Elements(lb.dropletIDs);
      && ById(u.lbs, lb.id) == Some(u.result.value.0) && Asks(cfg, u.service, lbType, network)
      && u.result.value.1 == HeldBack(env.nodes, lbType, network, admitted)
      && BuildRequest(cfg, u.service, env.nodes, admitted, env.look).Ok?
      && ById(u.lbs, lb.id).value.dropletIDs == BuildRequest(cfg, u.service, env.nodes, admitted, env.look).value.request.dropletIDs
  {
    var t, w, b := UpdateMeaning(cfg, lb, service, env, lbs);
    var u := UpdateLB(cfg, lb, service, env, lbs);
    OverwrittenById(lbs, lb.id, u.result.value.0);
    BuildMeaning(cfg, u.service, env.nodes, Elements(lb.dropletIDs), env.look, lbType, network);
  }

  /** The load balancer carries, under its old ID and type, what the last build asks for:
      name, rules, stack and droplet IDs; no other load balancer changes. */
  lemma WritesTheRequest(cfg: Config, lb: LB, service: Service, env: Env, lbs: seq<LB>)
    requires UpdateLB(cfg, lb, service, env, lbs).result.Ok?
    ensures var u := UpdateLB(cfg, lb, service, env, lbs); var b := BuildRequest(cfg, u.service, env.nodes, Elements(lb.dropletIDs), env.look);
      && b.Ok? && ById(u.lbs, lb.id).Some?
      && var x, request := ById(u.lbs, lb.id).value, b.value.request;
         && x.id == lb.id && x.lbType == lb.lbType && x.status == env.status
         && x.name == request.name && x.rules == request.rules && x.stack == request.stack && x.dropletIDs == request.dropletIDs
    ensures forall id :: id != lb.id ==> ById(UpdateLB(cfg, lb, service, env, lbs).lbs, id) == ById(lbs, id)
  {
    var t, w, b := UpdateMeaning(cfg, lb, service, env, lbs);
    OverwrittenById(lbs, lb.id, UpdateLB(cfg, lb, service, env, lbs).result.value.0);
  }

  /** And so does a created one. */
  lemma CreatesTheRequest(service: Service, b: Build, pending: seq<Node>, env: Env, lbs: seq<LB>)
    ensures var after := CreateBody(service, b, pending, env, lbs).lbs;
      if env.create.CreateFails? then after == lbs
      else
        && |after| == |lbs| + 1 && after[..|lbs|] == lbs
        && var x := after[|lbs|];
           && x.id == env.create.lb.id && x.lbType == env.create.lb.lbType
           && x.name == b.request.name && x.rules == b.request.rules && x.stack == b.request.stack && x.dropletIDs == b.request.dropletIDs
  {
  }

  lemma {:induction false} OverwrittenById(lbs: seq<LB>, id: string, lb: LB)
    requires lb.id == id
    ensures ById(Overwrite(lbs, id, lb), id) == if ById(lbs, id).Some? then Some(lb) else None
    ensures forall other :: other != id ==> ById(Overwrite(lbs, id, lb), other) == ById(lbs, other)
  {
    if lbs != [] {
      OverwrittenById(lbs[1..], id, lb);
      assert Overwrite(lbs, id, lb)[1..] == Overwrite(lbs[1..], id, lb);
    }
  }

  lemma PreparedNodes(cfg: Config, service: Service, nodes: seq<Node>, lbType: LBType, network: Network)
    requires PrepareNodes(cfg, service, nodes).Ok? && Asks(cfg, service, lbType, network)
    ensures PrepareNodes(cfg, service, nodes) == Ok(Initializing(nodes, lbType, network))
  {
  }

  lemma RetryIsDue(nodes: seq<Node>, lbType: LBType, network: Network, admitted: set<int>)
    ensures RetryIfPending(Initializing(nodes, lbType, network), HeldBack(nodes, lbType, network, admitted)) == DueRetry(nodes, lbType, network, admitted)
  {
    PendingNodes(nodes, lbType, network, admitted);
  }

  /** Before anything else: the nodes that await an address, but a 5 second retry when some
      do and no node is usable. */
  lemma PrepareExactly(cfg: Config, service: Service, nodes: seq<Node>, lbType: LBType, network: Network)
    requires Asks(cfg, service, lbType, network)
    ensures var r := PrepareNodes(cfg, service, nodes);
            var usable := exists n :: n in nodes && LbReady(lbType, network, n);
            var awaiting := exists n :: n in nodes && AwaitsAddress(lbType, network, n);
      && (!usable && awaiting ==> r == Err(RetryAfter(5)))
      && (usable || !awaiting ==> r.Ok? && forall n :: n in r.value <==> n in nodes && AwaitsAddress(lbType, network, n))
  {
    ByFilter(nodes, {}, lbType, network);
    PendingNodes(nodes, lbType, network, {});
    forall n ensures n in Initializing(nodes, lbType, network) <==> n in nodes && AwaitsAddress(lbType, network, n) {
      AdmittedMember(nodes, lbType, network, {}, n);
    }
  }

  // ----- UpdateLoadBalancer -----

  /** When an update writes and its patch succeeds, it returns exactly the retry that the
      nodes left out call for. */
  lemma UpdateReturnsDueRetry(cfg: Config, service: Service, env: Env, lbs: seq<LB>, lb: LB, lbType: LBType, network: Network)
    requires BoolAnnotation(service, DisownLB).Ok? && !Disowned(service) && env.patchWorks
    requires Retrieve(service, lbs, env) == Ok(lb) && Asks(cfg, AnnotateWith(service, lb), lbType, network)
    requires PrepareNodes(cfg, AnnotateWith(service, lb), env.nodes).Ok?
    requires UpdateLB(cfg, lb, AnnotateWith(service, lb), env, lbs).result.Ok?
    ensures Update(cfg, service, env, lbs).err == DueRetry(env.nodes, lbType, network, Elements(lb.dropletIDs))
  {
    var service1 := AnnotateWith(service, lb);
    WrittenBy(cfg, lb, service1, env, lbs, lbType, network);
    PreparedNodes(cfg, service1, env.nodes, lbType, network);
    RetryIsDue(env.nodes, lbType, network, Elements(lb.dropletIDs));
  }

  lemma UpdateNil(cfg: Config, service: Service, env: Env, lbs: seq<LB>) returns (lb: LB)
    requires !Disowned(service) && Update(cfg, service, env, lbs).err.None?
    ensures Retrieve(service, lbs, env) == Ok(lb)
    ensures PrepareNodes(cfg, AnnotateWith(service, lb), env.nodes) == Ok([])
    ensures var u := UpdateLB(cfg, lb, AnnotateWith(service, lb), env, lbs);
            u.result.Ok? && u.result.value.1 == [] && Update(cfg, service, env, lbs).lbs == u.lbs
  {
    assert UpdateBody(cfg, service, env, lbs).err.None?;
    lb := Retrieve(service, lbs, env).value;
  }

  /** When an update of an owned service returns nil, it wrote the load balancer, and a
      listed node is written or left out for good if and only if it is not a usable one
      without a droplet to find. */
  lemma UpdateNilAccounts(cfg: Config, service: Service, env: Env, lbs: seq<LB>) returns (lb: LB, lbType: LBType, network: Network)
    requires !Disowned(service) && Update(cfg, service, env, lbs).err.None?
    ensures Retrieve(service, lbs, env) == Ok(lb) && Asks(cfg, AnnotateWith(service, lb), lbType, network)
    ensures var after := ById(Update(cfg, service, env, lbs).lbs, lb.id);
      && after.Some?
      && forall n :: n in env.nodes ==>
           (Accounted(lbType, network, n, after.value.dropletIDs, env.look.droplets) <==> !Unfound(lbType, network, n, env.look.droplets))
  {
    lb := UpdateNil(cfg, service, env, lbs);
    var service1 := AnnotateWith(service, lb);
    lbType, network := GetType(service1, cfg.defaultType).value, GetNetwork(service1).value;
    PreparedNodes(cfg, service1, env.nodes, lbType, network);
    PendingNodes(env.nodes, lbType, network, Elements(lb.dropletIDs));
    WrittenBy(cfg, lb, service1, env, lbs, lbType, network);
    AccountedIff(cfg, UpdateLB(cfg, lb, service1, env, lbs).service, env.nodes, Elements(lb.dropletIDs), env.look, lbType, network);
  }

  // ----- recording -----

  /** Nil means recorded: the API server holds the ID and type of the load balancer. */
  lemma UpdateNilRecords(cfg: Config, service: Service, env: Env, lbs: seq<LB>) returns (lb: LB)
    requires !Disowned(service) && Update(cfg, service, env, lbs).err.None?
    ensures Retrieve(service, lbs, env) == Ok(lb)
    ensures var stored := Update(cfg, service, env, lbs).service;
            Annotation(stored, LoadBalancerID) == lb.id && Annotation(stored, LoadBalancerType) == lb.lbType
  {
    lb := UpdateNil(cfg, service, env, lbs);
    var service1 := AnnotateWith(service, lb);
    var t, w, b := UpdateMeaning(cfg, lb, service1, env, lbs);
    RecordedExactly(service1, CertificateOf(lb.rules), FindCertificateID(service1, env.look.certs).value, env.look.certs);
    RecordedKeeps(service1, UpdateLB(cfg, lb, service1, env, lbs).service, CertificateOf(lb.rules));
    UpdateNilService(cfg, service, env, lbs, lb);
  }

  lemma NilPersists(base: Service, body: Body, works: bool)
    requires Finish(base, body, works).err.None?
    ensures Finish(base, body, works).service.annotations == body.service.annotations
  {
    PatchOutcome(base, body.service, body.err, works);
  }

  lemma UpdateNilService(cfg: Config, service: Service, env: Env, lbs: seq<LB>, lb: LB)
    requires !Disowned(service) && Update(cfg, service, env, lbs).err.None? && Retrieve(service, lbs, env) == Ok(lb)
    ensures Update(cfg, service, env, lbs).service.annotations == UpdateLB(cfg, lb, AnnotateWith(service, lb), env, lbs).service.annotations
  {
    var body := UpdateBody(cfg, service, env, lbs);
    NilPersists(service, body, env.patchWorks);
    assert body.err.None?;
  }

  lemma RecordedKeeps(service: Service, after: Service, cert: string)
    requires after == service || after == Annotate(service, CertificateID, cert)
    ensures Annotation(after, LoadBalancerID) == Annotation(service, LoadBalancerID)
    ensures Annotation(after, LoadBalancerType) == Annotation(service, LoadBalancerType)
  {
  }

  /** The deferred patch: it is sent exactly if an annotation changed; if it fails nothing is
      stored and the error becomes an aggregate, in which no caller sees a retry. */
  lemma PatchOutcome(base: Service, updated: Service, err: Option<Error>, works: bool)
    ensures base.annotations == updated.annotations ==> Patched(base, updated, works) == base && PatchError(base, updated, err, works) == err
    ensures base.annotations != updated.annotations && works ==> Patched(base, updated, works) == updated && PatchError(base, updated, err, works) == err
    ensures base.annotations != updated.annotations && !works ==>
      && Patched(base, updated, works) == base
      && PatchError(base, updated, err, works).Some? && PatchError(base, updated, err, works).value.Aggregate?
      && (err.Some? ==> err.value in PatchError(base, updated, err, works).value.errors)
  {
  }

  // ----- EnsureLoadBalancer -----

  /** Ensure looks for initializing nodes before it learns the real type. */
  ghost predicate Misjudged(nodes: seq<Node>, before: LBType, after: LBType, network: Network) {
    && before == Regional && after == RegionalNetwork && network == External
    && exists n :: n in nodes && IntendsPublic(n) && !HasAddress(n, ExternalIP, true) && !HasAddress(n, ExternalIP, false)
  }

  lemma MisjudgedIff(nodes: seq<Node>, before: LBType, after: LBType, network: Network)
    requires forall n :: n in nodes ==> !AwaitsAddress(before, network, n)
    ensures Misjudged(nodes, before, after, network) <==> exists n :: n in nodes && AwaitsAddress(after, network, n)
  {
    forall n | n in nodes
      ensures AwaitsAddress(after, network, n) <==>
              before == Regional && after == RegionalNetwork && network == External
              && IntendsPublic(n) && !HasAddress(n, ExternalIP, true) && !HasAddress(n, ExternalIP, false)
    {
    }
  }

  lemma ExistingNil(cfg: Config, lb: LB, service: Service, pending: seq<Node>, env: Env, lbs: seq<LB>)
    requires EnsureExisting(cfg, lb, service, pending, env, lbs).err.None?
    ensures var u := UpdateLB(cfg, lb, service, env, lbs);
      && pending == [] && u.result.Ok? && u.result.value.1 == [] && u.result.value.0.status == Active
      && EnsureExisting(cfg, lb, service, pending, env, lbs).lbs == u.lbs
  {
  }

  lemma EnsureNil(cfg: Config, service: Service, env: Env, lbs: seq<LB>, lb: LB)
    requires !Disowned(service) && Ensure(cfg, service, env, lbs).err.None? && Retrieve(service, lbs, env) == Ok(lb)
    ensures PrepareNodes(cfg, service, env.nodes) == Ok([])
    ensures var u := UpdateLB(cfg, lb, AnnotateWith(service, lb), env, lbs);
            u.result.Ok? && u.result.value.1 == [] && u.result.value.0.status == Active && Ensure(cfg, service, env, lbs).lbs == u.lbs
  {
    var body := EnsureBody(cfg, service, env, lbs);
    assert body.err.None?;
    ExistingNil(cfg, lb, AnnotateWith(service, lb), PrepareNodes(cfg, service, env.nodes).value, env, lbs);
  }

  /** When Ensure on an existing load balancer returns nil it is active, and the same accounting holds if
      and only if every usable node has a droplet to find and no public-intent node was
      misjudged: the type annotated before the call was REGIONAL (or defaulted to it), the
      load balancer is an external REGIONAL_NETWORK one and some public-intent node has no
      external address. */
  lemma EnsureNilAccountsIff(cfg: Config, service: Service, env: Env, lbs: seq<LB>, lb: LB, before: LBType, after: LBType, network: Network)
    requires !Disowned(service) && Ensure(cfg, service, env, lbs).err.None?
    requires Retrieve(service, lbs, env) == Ok(lb)
    requires Asks(cfg, service, before, network) && Asks(cfg, AnnotateWith(service, lb), after, network)
    ensures var written := ById(Ensure(cfg, service, env, lbs).lbs, lb.id);
      && written.Some? && written.value.status == Active
      && (AllAccounted(after, network, env.nodes, written.value.dropletIDs, env.look.droplets)
          <==> AllFound(after, network, env.nodes, env.look.droplets) && !Misjudged(env.nodes, before, after, network))
  {
    var service1 := AnnotateWith(service, lb);
    EnsureNil(cfg, service, env, lbs, lb);
    PreparedNodes(cfg, service, env.nodes, before, network);
    PendingNodes(env.nodes, before, network, Elements(lb.dropletIDs));
    MisjudgedIff(env.nodes, before, after, network);
    WrittenBy(cfg, lb, service1, env, lbs, after, network);
    AccountedIff(cfg, UpdateLB(cfg, lb, service1, env, lbs).service, env.nodes, Elements(lb.dropletIDs), env.look, after, network);
  }

  /** A node that awaits its address, and whose droplet no other listed node stands for, is
      not written in the plainest sense: its ID is not in the list. */
  lemma AwaitingNotWritten(cfg: Config, service: Service, env: Env, lbs: seq<LB>, lb: LB, after: LBType, network: Network, n: Node, d: int)
    requires !Disowned(service) && Ensure(cfg, service, env, lbs).err.None?
    requires Retrieve(service, lbs, env) == Ok(lb) && Asks(cfg, AnnotateWith(service, lb), after, network)
    requires n in env.nodes && AwaitsAddress(after, network, n)
    requires forall m :: m in env.nodes && m != n ==> !StandsFor(m, d, env.look.droplets)
    ensures var written := ById(Ensure(cfg, service, env, lbs).lbs, lb.id); written.Some? && d !in written.value.dropletIDs
  {
    var service1 := AnnotateWith(service, lb);
    EnsureNil(cfg, service, env, lbs, lb);
    WrittenBy(cfg, lb, service1, env, lbs, after, network);
    var written := ById(Ensure(cfg, service, env, lbs).lbs, lb.id).value;
    if d in written.dropletIDs {
      var m := WrittenStandsFor(cfg, UpdateLB(cfg, lb, service1, env, lbs).service, env.nodes, Elements(lb.dropletIDs), env.look, after, network, d);
      assert false;
    }
  }

  /** The nodes name droplets, each its own. */
  ghost predicate Separate(nodes: seq<Node>) {
    && (forall n :: n in nodes ==> DropletID(n.providerID).Ok?)
    && forall n, m :: n in nodes && m in nodes && n != m ==> DropletID(n.providerID) != DropletID(m.providerID)
  }

  lemma SeparateStands(nodes: seq<Node>, n: Node, droplets: Result<seq<Droplet>>)
    requires Separate(nodes) && n in nodes
    ensures forall m :: m in nodes && m != n ==> !StandsFor(m, DropletID(n.providerID).value, droplets)
  {
  }

  /** Some node awaits its address once the real type is known. */
  lemma MisjudgedAwaits(cfg: Config, service: Service, env: Env, lbs: seq<LB>, lb: LB, before: LBType, after: LBType, network: Network) returns (n: Node)
    requires !Disowned(service) && Ensure(cfg, service, env, lbs).err.None? && Retrieve(service, lbs, env) == Ok(lb)
    requires Asks(cfg, service, before, network) && Misjudged(env.nodes, before, after, network)
    ensures n in env.nodes && AwaitsAddress(after, network, n)
  {
    EnsureNil(cfg, service, env, lbs, lb);
    PreparedNodes(cfg, service, env.nodes, before, network);
    PendingNodes(env.nodes, before, network, Elements(lb.dropletIDs));
    MisjudgedIff(env.nodes, before, after, network);
    n :| n in env.nodes && AwaitsAddress(after, network, n);
  }

  lemma SeparateAccounted(nodes: seq<Node>, lbType: LBType, network: Network, written: seq<int>, droplets: Result<seq<Droplet>>)
    requires Separate(nodes)
    ensures AllFound(lbType, network, nodes, droplets)
    ensures AllAccounted(lbType, network, nodes, written, droplets) ==>
      forall n :: n in nodes ==> DropletID(n.providerID).value in written || LeftOutForGood(lbType, network, n)
  {
  }

  /** The same by IDs alone: where the nodes name droplets of their own, nil from Ensure
      means that every droplet ID is in the list, or its node left out for good, if and
      only if no node was misjudged. */
  lemma EnsureNilWritesAllIff(cfg: Config, service: Service, env: Env, lbs: seq<LB>, lb: LB, before: LBType, after: LBType, network: Network)
    requires !Disowned(service) && Ensure(cfg, service, env, lbs).err.None?
    requires Retrieve(service, lbs, env) == Ok(lb) && Separate(env.nodes)
    requires Asks(cfg, service, before, network) && Asks(cfg, AnnotateWith(service, lb), after, network)
    ensures var written := ById(Ensure(cfg, service, env, lbs).lbs, lb.id);
      && written.Some?
      && ((forall n :: n in env.nodes ==> DropletID(n.providerID).value in written.value.dropletIDs || LeftOutForGood(after, network, n))
          <==> !Misjudged(env.nodes, before, after, network))
  {
    EnsureNilAccountsIff(cfg, service, env, lbs, lb, before, after, network);
    var written := ById(Ensure(cfg, service, env, lbs).lbs, lb.id).value.dropletIDs;
    SeparateAccounted(env.nodes, after, network, written, env.look.droplets);
    if Misjudged(env.nodes, before, after, network) {
      var n := MisjudgedAwaits(cfg, service, env, lbs, lb, before, after, network);
      SeparateStands(env.nodes, n, env.look.droplets);
      AwaitingNotWritten(cfg, service, env, lbs, lb, after, network, n, DropletID(n.providerID).value);
    }
  }

  /** If the annotated type already is the real one, the accounting is that of an update. */
  lemma EnsureNilAccounts(cfg: Config, service: Service, env: Env, lbs: seq<LB>, lb: LB, lbType: LBType, network: Network)
    requires !Disowned(service) && Ensure(cfg, service, env, lbs).err.None?
    requires Retrieve(service, lbs, env) == Ok(lb)
    requires Asks(cfg, service, lbType, network) && Asks(cfg, AnnotateWith(service, lb), lbType, network)
    ensures var written := ById(Ensure(cfg, service, env, lbs).lbs, lb.id);
      && written.Some?
      && forall n :: n in env.nodes ==>
           (Accounted(lbType, network, n, written.value.dropletIDs, env.look.droplets) <==> !Unfound(lbType, network, n, env.look.droplets))
  {
    var service1 := AnnotateWith(service, lb);
    EnsureNil(cfg, service, env, lbs, lb);
    PreparedNodes(cfg, service, env.nodes, lbType, network);
    PendingNodes(env.nodes, lbType, network, Elements(lb.dropletIDs));
    WrittenBy(cfg, lb, service1, env, lbs, lbType, network);
    AccountedIff(cfg, UpdateLB(cfg, lb, service1, env, lbs).service, env.nodes, Elements(lb.dropletIDs), env.look, lbType, network);
  }

  /** Ensure that writes an existing, active load balancer of the annotated type and
      patches returns exactly the due retry. */
  lemma EnsureReturnsDueRetry(cfg: Config, service: Service, env: Env, lbs: seq<LB>, lb: LB, lbType: LBType, network: Network)
    requires BoolAnnotation(service, DisownLB).Ok? && !Disowned(service) && env.patchWorks && env.status == Active
    requires Retrieve(service, lbs, env) == Ok(lb)
    requires Asks(cfg, service, lbType, network) && Asks(cfg, AnnotateWith(service, lb), lbType, network)
    requires PrepareNodes(cfg, service, env.nodes).Ok?
    requires UpdateLB(cfg, lb, AnnotateWith(service, lb), env, lbs).result.Ok?
    ensures Ensure(cfg, service, env, lbs).err == DueRetry(env.nodes, lbType, network, Elements(lb.dropletIDs))
  {
    var service1 := AnnotateWith(service, lb);
    var t, w, b := UpdateMeaning(cfg, lb, service1, env, lbs);
    WrittenBy(cfg, lb, service1, env, lbs, lbType, network);
    PreparedNodes(cfg, service, env.nodes, lbType, network);
    RetryIsDue(env.nodes, lbType, network, Elements(lb.dropletIDs));
  }

  /** Nil from Ensure means recorded, too: for the load balancer found, or else created. */
  lemma EnsureNilRecords(cfg: Config, service: Service, env: Env, lbs: seq<LB>)
    requires !Disowned(service) && Ensure(cfg, service, env, lbs).err.None?
    ensures var stored, r := Ensure(cfg, service, env, lbs).service, Retrieve(service, lbs, env);
      && (r.Ok? ==> Annotation(stored, LoadBalancerID) == r.value.id && Annotation(stored, LoadBalancerType) == r.value.lbType)
      && (r.Err? ==> env.create.Created? && Annotation(stored, LoadBalancerID) == env.create.lb.id
                     && Annotation(stored, LoadBalancerType) == env.create.lb.lbType)
  {
    var r := Retrieve(service, lbs, env);
    if r.Ok? {
      var lb := r.value;
      var service1 := AnnotateWith(service, lb);
      EnsureNil(cfg, service, env, lbs, lb);
      EnsureNilService(cfg, service, env, lbs, lb);
      var t, w, b := UpdateMeaning(cfg, lb, service1, env, lbs);
      RecordedExactly(service1, CertificateOf(lb.rules), FindCertificateID(service1, env.look.certs).value, env.look.certs);
      RecordedKeeps(service1, UpdateLB(cfg, lb, service1, env, lbs).service, CertificateOf(lb.rules));
    } else {
      CreatedNil(cfg, service, env, lbs);
      CreateNilService(cfg, service, env, lbs);
    }
  }

  lemma EnsureNilService(cfg: Config, service: Service, env: Env, lbs: seq<LB>, lb: LB)
    requires !Disowned(service) && Ensure(cfg, service, env, lbs).err.None? && Retrieve(service, lbs, env) == Ok(lb)
    requires PrepareNodes(cfg, service, env.nodes) == Ok([]) && UpdateLB(cfg, lb, AnnotateWith(service, lb), env, lbs).result.Ok?
    ensures Ensure(cfg, service, env, lbs).service.annotations == UpdateLB(cfg, lb, AnnotateWith(service, lb), env, lbs).service.annotations
  {
    var body := EnsureBody(cfg, service, env, lbs);
    NilPersists(service, body, env.patchWorks);
    assert body.err.None? && body == EnsureExisting(cfg, lb, AnnotateWith(service, lb), [], env, lbs);
  }

  lemma EnsureCreates(cfg: Config, service: Service, env: Env, lbs: seq<LB>, b: Build, pending: seq<Node>)
    requires PrepareNodes(cfg, service, env.nodes) == Ok(pending) && Retrieve(service, lbs, env) == Err(NotFound)
    requires BuildRequest(cfg, service, env.nodes, {}, env.look) == Ok(b)
    ensures EnsureBody(cfg, service, env, lbs) == CreateBody(service, b, pending, env, lbs)
  {
  }

  lemma CreateNilService(cfg: Config, service: Service, env: Env, lbs: seq<LB>)
    requires !Disowned(service) && Ensure(cfg, service, env, lbs).err.None? && Retrieve(service, lbs, env) == Err(NotFound)
    requires PrepareNodes(cfg, service, env.nodes) == Ok([]) && env.create.Created? && BuildRequest(cfg, service, env.nodes, {}, env.look).Ok?
    ensures Ensure(cfg, service, env, lbs).service.annotations == AnnotateWith(service, env.create.lb).annotations
  {
    NilPersists(service, EnsureBody(cfg, service, env, lbs), env.patchWorks);
    EnsureCreates(cfg, service, env, lbs, BuildRequest(cfg, service, env.nodes, {}, env.look).value, []);
  }

  /** What Ensure returns by the status of the load balancer it wrote: a 15 second retry
      while it is new, a failure in any state but active. */
  lemma EnsureByStatus(cfg: Config, service: Service, env: Env, lbs: seq<LB>, lb: LB)
    requires BoolAnnotation(service, DisownLB).Ok? && !Disowned(service) && env.patchWorks
    requires Retrieve(service, lbs, env) == Ok(lb) && PrepareNodes(cfg, service, env.nodes).Ok?
    requires UpdateLB(cfg, lb, AnnotateWith(service, lb), env, lbs).result.Ok?
    ensures env.status == New ==> Ensure(cfg, service, env, lbs).err == Some(RetryAfter(15))
    ensures env.status != New && env.status != Active ==> Ensure(cfg, service, env, lbs).err == Some(Failure)
    ensures Ensure(cfg, service, env, lbs).err.None? ==> env.status == Active
  {
    var pending := PrepareNodes(cfg, service, env.nodes).value;
    ExistingByStatus(cfg, lb, AnnotateWith(service, lb), pending, env, lbs);
    assert EnsureBody(cfg, service, env, lbs) == EnsureExisting(cfg, lb, AnnotateWith(service, lb), pending, env, lbs);
  }

  lemma ExistingByStatus(cfg: Config, lb: LB, service: Service, pending: seq<Node>, env: Env, lbs: seq<LB>)
    requires UpdateLB(cfg, lb, service, env, lbs).result.Ok?
    ensures var err := EnsureExisting(cfg, lb, service, pending, env, lbs).err;
      && (env.status == New ==> err == Some(RetryAfter(15)))
      && (env.status != New && env.status != Active ==> err == Some(Failure))
  {
    var t, w, b := UpdateMeaning(cfg, lb, service, env, lbs);
  }

  /** The same when it creates one. */
  lemma CreateByStatus(service: Service, b: Build, pending: seq<Node>, env: Env, lbs: seq<LB>)
    ensures var err := CreateBody(service, b, pending, env, lbs).err;
      && (!env.create.Created? ==> err == Some(Failure))
      && (env.create.Created? && env.create.lb.status == New ==> err == Some(RetryAfter(15)))
      && (env.create.Created? && env.create.lb.status != New && env.create.lb.status != Active ==> err == Some(Failure))
  {
  }

  lemma CreateBodyNil(service: Service, b: Build, pending: seq<Node>, env: Env, lbs: seq<LB>)
    requires CreateBody(service, b, pending, env, lbs).err.None?
    ensures pending == [] && b.pendingNotReady == [] && env.create.Created?
    ensures CreateBody(service, b, pending, env, lbs).lbs == lbs + [CreatedFrom(env.create.lb, b.request)]
  {
  }

  lemma CreatedNil(cfg: Config, service: Service, env: Env, lbs: seq<LB>)
    requires !Disowned(service) && Ensure(cfg, service, env, lbs).err.None? && Retrieve(service, lbs, env).Err?
    ensures PrepareNodes(cfg, service, env.nodes) == Ok([]) && Retrieve(service, lbs, env) == Err(NotFound)
    ensures var b := BuildRequest(cfg, service, env.nodes, {}, env.look);
      && b.Ok? && b.value.pendingNotReady == [] && env.create.Created?
      && Ensure(cfg, service, env, lbs).lbs == lbs + [CreatedFrom(env.create.lb, b.value.request)]
  {
    assert EnsureBody(cfg, service, env, lbs).err.None?;
    var b := BuildRequest(cfg, service, env.nodes, {}, env.look);
    assert b.Ok?;
    CreateBodyNil(service, b.value, PrepareNodes(cfg, service, env.nodes).value, env, lbs);
  }

  /** When Ensure creates the load balancer and returns nil, the same holds. */
  lemma CreateNilAccounts(cfg: Config, service: Service, env: Env, lbs: seq<LB>, lbType: LBType, network: Network)
    requires !Disowned(service) && Ensure(cfg, service, env, lbs).err.None? && Retrieve(service, lbs, env).Err?
    requires Asks(cfg, service, lbType, network)
    ensures var after := Ensure(cfg, service, env, lbs).lbs;
      && |after| == |lbs| + 1
      && forall n :: n in env.nodes ==>
           (Accounted(lbType, network, n, after[|lbs|].dropletIDs, env.look.droplets) <==> !Unfound(lbType, network, n, env.look.droplets))
  {
    CreatedNil(cfg, service, env, lbs);
    PreparedNodes(cfg, service, env.nodes, lbType, network);
    PendingNodes(env.nodes, lbType, network, {});
    BuildMeaning(cfg, service, env.nodes, {}, env.look, lbType, network);
    AccountedIff(cfg, service, env.nodes, {}, env.look, lbType, network);
  }
}
