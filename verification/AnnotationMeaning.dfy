/** What the annotation readers make of the texts they find. */
module AnnotationMeaning {
  import opened Prelude
  import opened Seqs
  import opened Cluster

  const TRUE_TEXTS: set<string> := {"1", "t", "T", "true", "TRUE", "True"}
  const FALSE_TEXTS: set<string> := {"0", "f", "F", "false", "FALSE", "False"}

  lemma BoolMeaning(service: Service, key: AnnotationKey)
    ensures BoolAnnotation(service, key) == Ok(Some(true)) <==> key in service.annotations && service.annotations[key] in TRUE_TEXTS
    ensures BoolAnnotation(service, key) == Ok(Some(false)) <==> key in service.annotations && service.annotations[key] in FALSE_TEXTS
    ensures BoolAnnotation(service, key) == Ok(None) <==> key !in service.annotations
  {
  }

  /** The type asked for: the one annotated, the default if there is none, and an error
      exactly for any other text. */
  lemma TypeMeaning(service: Service, default: LBType)
    ensures var text, r := Annotation(service, LoadBalancerType), GetType(service, default);
      && (r == Ok(Regional) <==> text == "REGIONAL" || (text == "" && default == Regional))
      && (r == Ok(RegionalNetwork) <==> text == "REGIONAL_NETWORK" || (text == "" && default == RegionalNetwork))
      && (r.Err? <==> text !in {"", "REGIONAL", "REGIONAL_NETWORK"})
  {
  }

  lemma NetworkMeaning(service: Service)
    ensures var text, r := Annotation(service, LoadBalancerNetwork), GetNetwork(service);
      && (r == Ok(External) <==> text in {"", "EXTERNAL"})
      && (r == Ok(Internal) <==> text == "INTERNAL")
      && (r.Err? <==> text !in {"", "EXTERNAL", "INTERNAL"})
  {
  }

  /** The node port allocated for health checks if the service is a load balancer for local
      traffic only, else the port of kube-proxy. */
  lemma HealthPortMeaning(service: Service)
    ensures service.kind == LoadBalancer && service.onlyLocalTraffic && service.healthCheckNodePort != 0 ==>
              HealthCheckPort(service) == service.healthCheckNodePort
    ensures !(service.kind == LoadBalancer && service.onlyLocalTraffic && service.healthCheckNodePort != 0) ==>
              HealthCheckPort(service) == 10256
  {
  }

  function NotDash(c: char): bool {
    c != '-'
  }

  lemma {:induction false} DashesFiltered(s: string)
    ensures WithoutDashes(s) == Filter(s, NotDash)
  {
    if s != [] {
      DashesFiltered(s[1..]);
      FilterFront(s, NotDash);
    }
  }

  lemma {:induction false} FilterFront(s: string, p: char -> bool)
    requires s != []
    ensures Filter(s, p) == (if p(s[0]) then [s[0]] else []) + Filter(s[1..], p)
  {
    var n := |s| - 1;
    if n == 0 {
      assert s[..0] == [] && s[1..] == [];
    } else {
      FilterFront(s[..n], p);
      assert s[..n][1..] == s[1..][..n - 1] && s[1..][n - 1] == s[n];
    }
  }

  /** The legacy name: an "a" and the UID without its dashes, cut to 32 characters; the
      name is the annotated one, else that. */
  lemma NameMeaning(service: Service)
    ensures var all := Filter("a" + service.uid, NotDash);
      && LegacyName(service) == all[..if |all| < 32 then |all| else 32]
      && (Annotation(service, LoadBalancerName) != "" ==> Name(service) == Annotation(service, LoadBalancerName))
      && (Annotation(service, LoadBalancerName) == "" ==> Name(service) == LegacyName(service))
  {
    DashesFiltered("a" + service.uid);
  }
}
