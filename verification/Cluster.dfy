/** Kubernetes objects as the controllers see them, and the annotations they read. */
module Cluster {
  import opened Prelude
  import opened Text

  // ----- services -----

  /** The annotation keys the modelled code reads or writes. */
  datatype AnnotationKey =
    | LoadBalancerID | LoadBalancerName | LoadBalancerType | LoadBalancerNetwork | LoadBalancerNetworkStack
    | DisownLB | DefaultProtocol | HTTPPorts | TLSPorts | HTTP2Ports | HTTP3Port
    | TLSPassThrough | CertificateID | CertificateName | FirewallManaged
    | OtherKey(name: string)

  datatype PortProtocol = TCP | UDP | OtherProtocol(name: string)

  datatype ServicePort = ServicePort(protocol: PortProtocol, port: int, nodePort: int)

  datatype ServiceKind = ClusterIP | NodePort | LoadBalancer | ExternalName

  datatype Service = Service(uid: string, kind: ServiceKind, annotations: map<AnnotationKey, string>,
                             ports: seq<ServicePort>, onlyLocalTraffic: bool, healthCheckNodePort: int)

  datatype LBType = Regional | RegionalNetwork
  datatype Network = External | Internal
  datatype Stack = IPv4 | DualStack

  /** Reading a key that is absent gives the empty string. */
  function Annotation(service: Service, key: AnnotationKey): string {
    if key in service.annotations then service.annotations[key] else ""
  }

  /** updateServiceAnnotation */
  function Annotate(service: Service, key: AnnotationKey, value: string): (r: Service)
    ensures Annotation(r, key) == value
    ensures forall k :: k != key ==> Annotation(r, k) == Annotation(service, k) && (k in r.annotations <==> k in service.annotations)
    ensures r == service.(annotations := r.annotations)
  {
    service.(annotations := service.annotations[key := value])
  }

  /** getBool: None when the annotation is absent. */
  function BoolAnnotation(service: Service, key: AnnotationKey): Result<Option<bool>> {
    if key !in service.annotations then Ok(None)
    else match ParseBool(service.annotations[key])
         case Ok(b) => Ok(Some(b))
         case Err(e) => Err(e)
  }

  function TypeName(t: LBType): string {
    match t case Regional => "REGIONAL" case RegionalNetwork => "REGIONAL_NETWORK"
  }

  function GetType(service: Service, default: LBType): Result<LBType> {
    var name := Annotation(service, LoadBalancerType);
    if name == "" then Ok(default)
    else if name == TypeName(Regional) then Ok(Regional)
    else if name == TypeName(RegionalNetwork) then Ok(RegionalNetwork)
    else Err(Failure)
  }

  function GetNetwork(service: Service): Result<Network> {
    var name := Annotation(service, LoadBalancerNetwork);
    if name == "" || name == "EXTERNAL" then Ok(External)
    else if name == "INTERNAL" then Ok(Internal)
    else Err(Failure)
  }

  const KUBE_PROXY_HEALTH_PORT := 10256

  /** healthCheckPathAndPort: the allocated health check node port, else kube-proxy's. */
  function HealthCheckPort(service: Service): (port: int)
    ensures port != 0
  {
    if service.kind == LoadBalancer && service.onlyLocalTraffic && service.healthCheckNodePort != 0
    then service.healthCheckNodePort
    else KUBE_PROXY_HEALTH_PORT
  }

  function WithoutDashes(s: string): string {
    if s == [] then [] else (if s[0] == '-' then [] else [s[0]]) + WithoutDashes(s[1..])
  }

  /** getLoadBalancerLegacyName */
  function LegacyName(service: Service): string {
    var name := WithoutDashes("a" + service.uid);
    if |name| > 32 then name[..32] else name
  }

  /** getLoadBalancerName */
  function Name(service: Service): string {
    var name := Annotation(service, LoadBalancerName);
    if name != "" then name else LegacyName(service)
  }

  // ----- nodes -----

  datatype AddressKind = ExternalIP | InternalIP | Hostname | OtherAddress

  /** `v6` is what netip.ParseAddr says of the address text. */
  datatype NodeAddress = NodeAddress(kind: AddressKind, v6: bool)

  datatype ConditionKind = ReadyCondition | OtherCondition(name: string)

  datatype Condition = Condition(kind: ConditionKind, isTrue: bool)

  datatype Node = Node(name: string, providerID: string, addresses: seq<NodeAddress>,
                       conditions: seq<Condition>, taints: seq<string>, networkType: string)
}
