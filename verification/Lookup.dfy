/** The by-name lookups of the two reconcilers are the first matches of the paged listings. */
module Lookup {
  import opened Cluster
  import Paging
  import Firewalls
  import FirewallControl
  import ForwardingRules
  import LoadBalancerSync

  lemma {:induction false} FirewallByName(store: seq<Firewalls.Firewall>, name: string)
    ensures FirewallControl.ByName(store, name) == Paging.FirstMatch(store, (f: Firewalls.Firewall) => f.name == name)
  {
    if store != [] {
      FirewallByName(store[1..], name);
    }
  }

  lemma {:induction false} LoadBalancerByName(service: Service, lbs: seq<LoadBalancerSync.LB>)
    ensures LoadBalancerSync.ByName(service, lbs) == Paging.FirstMatch(lbs, (lb: LoadBalancerSync.LB) => lb.name == Name(service) || lb.name == LegacyName(service))
  {
    if lbs != [] {
      LoadBalancerByName(service, lbs[1..]);
    }
  }

  /** The certificate of a load balancer is that of its first rule that has one. */
  lemma {:induction false} CertificateIsFirst(rules: seq<ForwardingRules.ForwardingRule>)
    ensures LoadBalancerSync.CertificateOf(rules)
         == match Paging.FirstMatch(rules, (r: ForwardingRules.ForwardingRule) => r.certificateID != "")
            case Some(r) => r.certificateID
            case None => ""
  {
    if rules != [] {
      CertificateIsFirst(rules[1..]);
    }
  }
}
