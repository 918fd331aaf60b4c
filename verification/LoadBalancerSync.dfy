/** Looking up, creating and updating the load balancer of a service
    (EnsureLoadBalancer, UpdateLoadBalancer and what they call). */
module LoadBalancerSync {
  import opened Prelude
  import opened Seqs
  import opened Cluster
  import opened NodeAdmission
  import opened ForwardingRules
  import opened LoadBalancerRequests

  // ----- data -----

  datatype Status = New | Active | OtherStatus

  datatype LB = LB(id: string, name: string, lbType: string, status: Status, dropletIDs: seq<int>,
                   rules: seq<ForwardingRule>, stack: Stack)

  /** How a create call ends; it may take effect and still be reported as failed. */
  datatype CreateReply = Created(lb: LB) | CreateFails | CreatedButLost(lb: LB)

  /** The world during one call: the nodes, what lookups return, which API calls fail
      (without effect), the status the API reports back and whether the patch that
      persists annotations succeeds. */
  datatype Env = Env(nodes: seq<Node>, look: Lookups, getWorks: bool, listWorks: bool, updateWorks: bool, status: Status,
                     create: CreateReply, patchWorks: bool)

  // ----- the remote store, in listing order -----

  function ById(lbs: seq<LB>, id: string): (r: Option<LB>)
    ensures r.Some? ==> r.value in lbs && r.value.id == id
    ensures r.None? ==> forall lb :: lb in lbs ==> lb.id != id
  {
    if lbs == [] then None else if lbs[0].id == id then Some(lbs[0]) else ById(lbs[1..], id)
  }

  /** A load balancer the service may have been given: by its name or the legacy one. */
  predicate NamedFor(service: Service, lb: LB) {
    lb.name == Name(service) || lb.name == LegacyName(service)
  }

  /** findLoadBalancerByName: the first in listing order. */
  function ByName(service: Service, lbs: seq<LB>): (r: Option<LB>)
    ensures r.Some? ==> r.value in lbs && NamedFor(service, r.value)
    ensures r.None? ==> forall lb :: lb in lbs ==> !NamedFor(service, lb)
  {
    if lbs == [] then None else if NamedFor(service, lbs[0]) then Some(lbs[0]) else ByName(service, lbs[1..])
  }

  /** The API overwrites what the request configures and keeps ID and type. */
  function Applied(lb: LB, request: Request, status: Status): LB {
    lb.(name := request.name, dropletIDs := request.dropletIDs, rules := request.rules, stack := request.stack, status := status)
  }

  function Overwrite(lbs: seq<LB>, id: string, lb: LB): (r: seq<LB>)
    ensures |r| == |lbs| && forall i :: 0 <= i < |lbs| ==> r[i] == if lbs[i].id == id then lb else lbs[i]
  {
    Map(lbs, (x: LB) => if x.id == id then lb else x)
  }

  function CreatedFrom(lb: LB, request: Request): LB {
    lb.(name := request.name, dropletIDs := request.dropletIDs, rules := request.rules, stack := request.stack)
  }

  // ----- lookup -----

  function Retrieve(service: Service, lbs: seq<LB>, env: Env): Result<LB> {
    var id := Annotation(service, LoadBalancerID);
    if id != "" then
      if !env.getWorks then Err(Failure)
      else match ById(lbs, id) case Some(lb) => Ok(lb) case None => Err(NotFound)
    else if !env.listWorks then Err(Failure)
    else match ByName(service, lbs) case Some(lb) => Ok(lb) case None => Err(NotFound)
  }

  function AnnotateWith(service: Service, lb: LB): Service {
    Annotate(Annotate(service, LoadBalancerID, lb.id), LoadBalancerType, lb.lbType)
  }

  // ----- certificates -----

  function CertificateOf(rules: seq<ForwardingRule>): (id: string)
    ensures id == "" || exists r :: r in rules && r.certificateID == id
    ensures id == "" ==> forall r :: r in rules ==> r.certificateID == ""
  {
    if rules == [] then "" else if rules[0].certificateID != "" then rules[0].certificateID else CertificateOf(rules[1..])
  }

  /** recordUpdatedLetsEncryptCert: the service afterwards. */
  function RecordCert(service: Service, lbCert: string, serviceCert: string, certs: Certificates): Result<Service> {
    if lbCert == "" || serviceCert == "" || lbCert == serviceCert then Ok(service) else
    match certs.get(lbCert)
    case Broken => Err(Failure)
    case Missing => Ok(service)
    case Found(current) =>
      if !current.letsEncrypt then Ok(service) else
      match certs.get(serviceCert)
      case Broken => Err(Failure)
      case Missing => Ok(Annotate(service, CertificateID, lbCert))
      case Found(annotated) =>
        if current.name == annotated.name then Ok(Annotate(service, CertificateID, lbCert)) else Ok(service)
  }

  // ----- updating -----

  datatype Updated = Updated(result: Result<(LB, seq<Node>)>, service: Service, lbs: seq<LB>)

  /** updateLoadBalancer: the load balancer written and the nodes held back. */
  ghost function UpdateLB(cfg: Config, lb: LB, service: Service, env: Env, lbs: seq<LB>): Updated {
    var admitted := Elements(lb.dropletIDs);
    match BuildRequest(cfg, service, env.nodes, admitted, env.look)
    case Err(e) => Updated(Err(e), service, lbs)
    case Ok(_) =>
      match FindCertificateID(service, env.look.certs)
      case Err(e) => Updated(Err(e), service, lbs)
      case Ok(serviceCert) =>
        match RecordCert(service, CertificateOf(lb.rules), serviceCert, env.look.certs)
        case Err(e) => Updated(Err(e), service, lbs)
        case Ok(service1) =>
          match BuildRequest(cfg, service1, env.nodes, admitted, env.look)
          case Err(e) => Updated(Err(e), service1, lbs)
          case Ok(b) =>
            if !env.updateWorks || ById(lbs, lb.id).None? then Updated(Err(Failure), service1, lbs)
            else Updated(Ok((Applied(lb, b.request, env.status), b.pendingNotReady)), service1,
                         Overwrite(lbs, lb.id, Applied(lb, b.request, env.status)))
  }

  /** prepareNodesForLBSync: the public-intent nodes still without a usable address. */
  ghost function PrepareNodes(cfg: Config, service: Service, nodes: seq<Node>): Result<seq<Node>> {
    var network :- GetNetwork(service);
    var lbType :- GetType(service, cfg.defaultType);
    var pending := Initializing(nodes, lbType, network);
    if Filter(nodes, ReadyFor(lbType, network)) == [] && pending != [] then Err(RetryAfter(NOT_YET_LB_READY_RETRY))
    else Ok(pending)
  }

  /** retryIfNodesPendingInit */
  function RetryIfPending(pending: seq<Node>, notReady: seq<Node>): Option<Error> {
    if pending == [] && notReady == [] then None
    else Some(RetryAfter(if notReady != [] then NOT_YET_READY_RETRY else NOT_YET_LB_READY_RETRY))
  }

  // ----- the two entry points -----

  /** What a call leaves behind: the error, the in-memory service, the store and how many
      load balancers were created. */
  datatype Body = Body(err: Option<Error>, service: Service, lbs: seq<LB>, created: nat)

  ghost function UpdateBody(cfg: Config, service: Service, env: Env, lbs: seq<LB>): Body {
    match Retrieve(service, lbs, env)
    case Err(e) => Body(Some(e), service, lbs, 0)
    case Ok(lb) =>
      var service1 := AnnotateWith(service, lb);
      match PrepareNodes(cfg, service1, env.nodes)
      case Err(e) => Body(Some(e), service1, lbs, 0)
      case Ok(pending) =>
        var u := UpdateLB(cfg, lb, service1, env, lbs);
        match u.result
        case Err(e) => Body(Some(e), u.service, u.lbs, 0)
        case Ok((_, notReady)) => Body(RetryIfPending(pending, notReady), u.service, u.lbs, 0)
  }

  /** The end of EnsureLoadBalancer, once the load balancer was written. */
  function AfterWrite(lb: LB, pending: seq<Node>, notReady: seq<Node>): Option<Error> {
    if lb.status == New then Some(RetryAfter(15))
    else if lb.status != Active then Some(Failure)
    else RetryIfPending(pending, notReady)
  }

  ghost function CreateBody(service: Service, b: Build, pending: seq<Node>, env: Env, lbs: seq<LB>): Body {
    match env.create
    case CreateFails => Body(Some(Failure), service, lbs, 0)
    case CreatedButLost(lb) => Body(Some(Failure), service, lbs + [CreatedFrom(lb, b.request)], 1)
    case Created(lb) => Body(AfterWrite(lb, pending, b.pendingNotReady), AnnotateWith(service, lb), lbs + [CreatedFrom(lb, b.request)], 1)
  }

  ghost function EnsureExisting(cfg: Config, lb: LB, service: Service, pending: seq<Node>, env: Env, lbs: seq<LB>): Body {
    match BuildRequest(cfg, service, env.nodes, Elements(lb.dropletIDs), env.look)
    case Err(e) => Body(Some(e), service, lbs, 0)
    case Ok(_) =>
      var u := UpdateLB(cfg, lb, service, env, lbs);
      match u.result
      case Err(e) => Body(Some(e), u.service, u.lbs, 0)
      case Ok((lb1, notReady)) => Body(AfterWrite(lb1, pending, notReady), u.service, u.lbs, 0)
  }

  ghost function EnsureBody(cfg: Config, service: Service, env: Env, lbs: seq<LB>): Body {
    match PrepareNodes(cfg, service, env.nodes)
    case Err(e) => Body(Some(e), service, lbs, 0)
    case Ok(pending) =>
      match Retrieve(service, lbs, env)
      case Err(e) =>
        if e != NotFound then Body(Some(e), service, lbs, 0) else
        (match BuildRequest(cfg, service, env.nodes, {}, env.look)
         case Err(e) => Body(Some(e), service, lbs, 0)
         case Ok(b) => CreateBody(service, b, pending, env, lbs))
      case Ok(lb) =>
        EnsureExisting(cfg, lb, AnnotateWith(service, lb), pending, env, lbs)
  }

  /** The deferred patch: what the API server holds afterwards, and the returned error. A
      failed patch hides the error in an aggregate. */
  function Patched(base: Service, updated: Service, patchWorks: bool): Service {
    if base.annotations == updated.annotations || !patchWorks then base else updated
  }

  function PatchError(base: Service, updated: Service, err: Option<Error>, patchWorks: bool): Option<Error> {
    if base.annotations == updated.annotations || patchWorks then err
    else Some(Aggregate(if err.Some? then [err.value, Failure] else [Failure]))
  }

  /** What one call does to the world: `service` is the copy on the API server. */
  datatype Synced = Synced(err: Option<Error>, service: Service, lbs: seq<LB>, created: nat)

  function Finish(base: Service, body: Body, patchWorks: bool): Synced {
    Synced(PatchError(base, body.service, body.err, patchWorks), Patched(base, body.service, patchWorks), body.lbs, body.created)
  }

  predicate Disowned(service: Service) {
    BoolAnnotation(service, DisownLB) == Ok(Some(true))
  }

  ghost function Update(cfg: Config, service: Service, env: Env, lbs: seq<LB>): Synced {
    if BoolAnnotation(service, DisownLB).Err? then Synced(Some(Failure), service, lbs, 0)
    else if Disowned(service) then Synced(None, service, lbs, 0)
    else Finish(service, UpdateBody(cfg, service, env, lbs), env.patchWorks)
  }

  ghost function Ensure(cfg: Config, service: Service, env: Env, lbs: seq<LB>): Synced {
    if BoolAnnotation(service, DisownLB).Err? then Synced(Some(Failure), service, lbs, 0)
    else if Disowned(service) then Synced(None, service, lbs, 0)
    else Finish(service, EnsureBody(cfg, service, env, lbs), env.patchWorks)
  }

  // ----- the objects -----

  /** A service: `value` is the copy the controller edits, `stored` the API server's. */
  class ServiceObject {
    var value: Service
    var stored: Service

    constructor (service: Service)
      ensures value == service && stored == service
    {
      value, stored := service, service;
    }

    method SetAnnotation(key: AnnotationKey, text: string)
      modifies this`value
      ensures value == Annotate(old(value), key, text)
    {
      value := value.(annotations := value.annotations[key := text]);
    }

    /** Persists the annotations unless they are unchanged. */
    method Patch(err: Option<Error>, works: bool) returns (r: Option<Error>)
      modifies this`stored
      ensures r == PatchError(old(stored), value, err, works)
      ensures stored == Patched(old(stored), value, works)
    {
      if stored.annotations == value.annotations {
        return err;
      }
      if works {
        stored := value;
        return err;
      }
      return Some(Aggregate(if err.Some? then [err.value, Failure] else [Failure]));
    }
  }

  class CloudLoadBalancers {
    var lbs: seq<LB>
    var created: nat

    constructor (lbs: seq<LB>)
      ensures this.lbs == lbs && created == 0
    {
      this.lbs, created := lbs, 0;
    }
  }

  class LoadBalancers {
    const cfg: Config
    const cloud: CloudLoadBalancers

    constructor (cfg: Config, cloud: CloudLoadBalancers)
      ensures this.cfg == cfg && this.cloud == cloud
    {
      this.cfg, this.cloud := cfg, cloud;
    }

    method RetrieveAndAnnotate(service: ServiceObject, env: Env) returns (r: Result<LB>)
      modifies service`value
      ensures r == old(Retrieve(service.value, cloud.lbs, env))
      ensures service.value == if r.Ok? then AnnotateWith(old(service.value), r.value) else old(service.value)
    {
      var id := Annotation(service.value, LoadBalancerID);
      if id != "" {
        if !env.getWorks {
          return Err(Failure);
        }
        match ById(cloud.lbs, id) {
          case None => return Err(NotFound);
          case Some(lb) => r := Ok(lb);
        }
      } else {
        if !env.listWorks {
          return Err(Failure);
        }
        match ByName(service.value, cloud.lbs) {
          case None => return Err(NotFound);
          case Some(lb) => r := Ok(lb);
        }
      }
      service.SetAnnotation(LoadBalancerID, r.value.id);
      service.SetAnnotation(LoadBalancerType, r.value.lbType);
    }

    method Prepare(service: ServiceObject, nodes: seq<Node>) returns (r: Result<seq<Node>>)
      ensures r == PrepareNodes(cfg, service.value, nodes)
    {
      var network := GetNetwork(service.value);
      if network.Err? {
        return Err(network.error);
      }
      var lbType := GetType(service.value, cfg.defaultType);
      if lbType.Err? {
        return Err(lbType.error);
      }
      var state := FilterAndClassifyNodes(nodes, lbType.value, network.value);
      var pending, privateOnly := PendingInitNodes(state.publicNetUnready);
      if state.lbReady == [] && pending != [] {
        return Err(RetryAfter(NOT_YET_LB_READY_RETRY));
      }
      return Ok(pending);
    }

    method RecordUpdatedLetsEncryptCert(service: ServiceObject, lbCert: string, serviceCert: string, certs: Certificates)
      returns (err: Option<Error>)
      modifies service`value
      ensures var r := RecordCert(old(service.value), lbCert, serviceCert, certs);
              if r.Err? then err == Some(r.error) && service.value == old(service.value) else err.None? && service.value == r.value
    {
      if lbCert != "" && serviceCert != "" && lbCert != serviceCert {
        var current := certs.get(lbCert);
        if current.Broken? {
          return Some(Failure);
        }
        if current.Missing? || !current.certificate.letsEncrypt {
          return None;
        }
        var annotated := certs.get(serviceCert);
        if annotated.Broken? {
          return Some(Failure);
        }
        if annotated.Missing? || current.certificate.name == annotated.certificate.name {
          service.SetAnnotation(CertificateID, lbCert);
        }
      }
      return None;
    }

    method UpdateExisting(lb: LB, service: ServiceObject, env: Env) returns (r: Result<(LB, seq<Node>)>)
      modifies service`value, cloud`lbs
      ensures Updated(r, service.value, cloud.lbs) == old(UpdateLB(cfg, lb, service.value, env, cloud.lbs))
    {
      var admitted := Elements(lb.dropletIDs);
      var check := BuildLoadBalancerRequest(cfg, service.value, env.nodes, admitted, env.look);
      if check.Err? {
        return Err(check.error);
      }
      var serviceCert := FindCertificateID(service.value, env.look.certs);
      if serviceCert.Err? {
        return Err(serviceCert.error);
      }
      var err := RecordUpdatedLetsEncryptCert(service, CertificateOf(lb.rules), serviceCert.value, env.look.certs);
      if err.Some? {
        return Err(err.value);
      }
      var b := BuildLoadBalancerRequest(cfg, service.value, env.nodes, admitted, env.look);
      if b.Err? {
        return Err(b.error);
      }
      if !env.updateWorks || ById(cloud.lbs, lb.id).None? {
        return Err(Failure);
      }
      var updated := Applied(lb, b.value.request, env.status);
      cloud.lbs := Overwrite(cloud.lbs, lb.id, updated);
      return Ok((updated, b.value.pendingNotReady));
    }

    method UpdateOwned(service: ServiceObject, env: Env) returns (err: Option<Error>)
      modifies service`value, cloud`lbs
      ensures Body(err, service.value, cloud.lbs, 0) == old(UpdateBody(cfg, service.value, env, cloud.lbs))
    {
      var lb := RetrieveAndAnnotate(service, env);
      if lb.Err? {
        return Some(lb.error);
      }
      var pending := Prepare(service, env.nodes);
      if pending.Err? {
        return Some(pending.error);
      }
      var r := UpdateExisting(lb.value, service, env);
      if r.Err? {
        return Some(r.error);
      }
      return RetryIfPending(pending.value, r.value.1);
    }

    method UpdateLoadBalancer(service: ServiceObject, env: Env) returns (err: Option<Error>)
      requires service.stored == service.value
      modifies service, cloud`lbs
      ensures Synced(err, service.stored, cloud.lbs, 0) == old(Update(cfg, service.value, env, cloud.lbs))
    {
      var disown := BoolAnnotation(service.value, DisownLB);
      if disown.Err? {
        return Some(Failure);
      }
      if disown.value == Some(true) {
        return None;
      }
      err := UpdateOwned(service, env);
      err := service.Patch(err, env.patchWorks);
    }

    method CreateNew(service: ServiceObject, b: Build, pending: seq<Node>, env: Env) returns (err: Option<Error>)
      modifies service`value, cloud
      ensures Body(err, service.value, cloud.lbs, cloud.created) ==
              old(var body := CreateBody(service.value, b, pending, env, cloud.lbs); body.(created := cloud.created + body.created))
    {
      match env.create {
        case CreateFails =>
          return Some(Failure);
        case CreatedButLost(lb) =>
          cloud.lbs, cloud.created := cloud.lbs + [CreatedFrom(lb, b.request)], cloud.created + 1;
          return Some(Failure);
        case Created(lb) =>
          cloud.lbs, cloud.created := cloud.lbs + [CreatedFrom(lb, b.request)], cloud.created + 1;
          service.SetAnnotation(LoadBalancerID, lb.id);
          service.SetAnnotation(LoadBalancerType, lb.lbType);
          return AfterWrite(lb, pending, b.pendingNotReady);
      }
    }

    method EnsureFound(lb: LB, service: ServiceObject, pending: seq<Node>, env: Env) returns (err: Option<Error>)
      modifies service`value, cloud`lbs
      ensures Body(err, service.value, cloud.lbs, 0) == old(EnsureExisting(cfg, lb, service.value, pending, env, cloud.lbs))
    {
      var b := BuildLoadBalancerRequest(cfg, service.value, env.nodes, Elements(lb.dropletIDs), env.look);
      if b.Err? {
        return Some(b.error);
      }
      var r := UpdateExisting(lb, service, env);
      if r.Err? {
        return Some(r.error);
      }
      return AfterWrite(r.value.0, pending, r.value.1);
    }

    method EnsureOwned(service: ServiceObject, env: Env) returns (err: Option<Error>)
      modifies service`value, cloud
      ensures Body(err, service.value, cloud.lbs, cloud.created) ==
              old(var body := EnsureBody(cfg, service.value, env, cloud.lbs); body.(created := cloud.created + body.created))
    {
      var pending := Prepare(service, env.nodes);
      if pending.Err? {
        return Some(pending.error);
      }
      var lb := RetrieveAndAnnotate(service, env);
      if lb.Ok? {
        err := EnsureFound(lb.value, service, pending.value, env);
        return;
      }
      if lb.error != NotFound {
        return Some(lb.error);
      }
      var b := BuildLoadBalancerRequest(cfg, service.value, env.nodes, {}, env.look);
      if b.Err? {
        return Some(b.error);
      }
      err := CreateNew(service, b.value, pending.value, env);
    }

    method EnsureLoadBalancer(service: ServiceObject, env: Env) returns (err: Option<Error>)
      requires service.stored == service.value
      modifies service, cloud
      ensures Synced(err, service.stored, cloud.lbs, cloud.created) ==
              old(var s := Ensure(cfg, service.value, env, cloud.lbs); s.(created := cloud.created + s.created))
    {
      var disown := BoolAnnotation(service.value, DisownLB);
      if disown.Err? {
        return Some(Failure);
      }
      if disown.value == Some(true) {
        return None;
      }
      err := EnsureOwned(service, env);
      err := service.Patch(err, env.patchWorks);
    }
  }
}
