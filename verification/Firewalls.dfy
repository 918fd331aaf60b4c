/** Firewalls as the DO API returns them, their printed form and the comparison
    that decides whether a reconcile may be skipped. */
module Firewalls {
  import opened Prelude
  import opened Seqs
  import opened Text
  import opened StableSorting

  // ----- data -----

  /** godo.Sources and godo.Destinations: the two structs have the same fields. */
  datatype Peers = Peers(addresses: seq<string>, tags: seq<string>, dropletIDs: seq<int>,
                         loadBalancerUIDs: seq<string>, kubernetesIDs: seq<string>)

  /** An inbound rule (peers = Sources) or an outbound rule (peers = Destinations). */
  datatype Rule = Rule(protocol: string, portRange: string, peers: Option<Peers>, action: string)

  datatype Firewall = Firewall(id: string, name: string, inbound: seq<Rule>, outbound: seq<Rule>, tags: seq<string>)

  datatype FirewallRequest = FirewallRequest(name: string, inbound: seq<Rule>, outbound: seq<Rule>, tags: seq<string>)

  datatype Comparable = Comparable(name: string, inbound: seq<Rule>, outbound: seq<Rule>, tags: seq<string>)

  function OfFirewall(fw: Option<Firewall>): Option<Comparable> {
    match fw
    case None => None
    case Some(f) => Some(Comparable(f.name, f.inbound, f.outbound, f.tags))
  }

  function OfRequest(fr: FirewallRequest): Comparable {
    Comparable(fr.name, fr.inbound, fr.outbound, fr.tags)
  }

  // ----- printing -----

  function Sanitize(portRange: string): string {
    if portRange == "" || portRange == "all" then "0" else portRange
  }

  function Join(parts: seq<string>): string {
    if parts == [] then "" else if |parts| == 1 then parts[0] else parts[0] + " " + Join(parts[1..])
  }

  /** A slice of strings under the verb %s. */
  function Bracketed(parts: seq<string>): string {
    "[" + Join(parts) + "]"
  }

  function PrintHead(r: Rule): string {
    "<Proto:" + r.protocol + " PortRange:" + Sanitize(r.portRange)
  }

  function PrintInbound(r: Rule): string {
    PrintHead(r)
    + (if r.peers.Some? && r.peers.value.addresses != []
       then " AddrSources:" + Bracketed(r.peers.value.addresses) else "")
    + (if r.peers.Some? && r.peers.value.loadBalancerUIDs != []
       then " LoadBalancerUIDsSources:" + Bracketed(r.peers.value.loadBalancerUIDs) else "")
    + ">"
  }

  function PrintOutbound(r: Rule): string {
    PrintHead(r)
    + (if r.peers.Some? then " AddrDestinations:" + Bracketed(r.peers.value.addresses) else "")
    + ">"
  }

  predicate InboundOrder(r: Rule, s: Rule) {
    LexLeq(PrintInbound(r), PrintInbound(s))
  }

  predicate OutboundOrder(r: Rule, s: Rule) {
    LexLeq(PrintOutbound(r), PrintOutbound(s))
  }

  // ----- comparison -----

  /** One rule against another: "", "all" and "0" are the same port range, and of
      the peers only addresses and load balancer IDs are looked at. */
  predicate RuleEqual(r: Rule, s: Rule) {
    && r.protocol == s.protocol
    && Sanitize(r.portRange) == Sanitize(s.portRange)
    && r.action == s.action
    && (match (r.peers, s.peers)
        case (None, None) => true
        case (Some(p), Some(q)) => p.addresses == q.addresses && p.loadBalancerUIDs == q.loadBalancerUIDs
        case _ => false)
  }

  predicate Pairwise(a: seq<Rule>, b: seq<Rule>) {
    |a| == |b| && forall i :: 0 <= i < |a| ==> RuleEqual(a[i], b[i])
  }

  predicate RulesEqual(a: seq<Rule>, b: seq<Rule>, le: (Rule, Rule) -> bool) {
    Pairwise(StableSort(a, le), StableSort(b, le))
  }

  predicate Equal(a: Option<Comparable>, b: Option<Comparable>) {
    match (a, b)
    case (None, None) => true
    case (Some(x), Some(y)) =>
      && x.name == y.name
      && RulesEqual(x.inbound, y.inbound, InboundOrder)
      && RulesEqual(x.outbound, y.outbound, OutboundOrder)
      && x.tags == y.tags
    case _ => false
  }

  predicate FirewallsEqual(f: Option<Firewall>, g: Option<Firewall>) {
    Equal(OfFirewall(f), OfFirewall(g))
  }

  predicate FirewallRequestEqual(f: Option<Firewall>, r: FirewallRequest) {
    Equal(OfFirewall(f), Some(OfRequest(r)))
  }

  // ----- the comparison is an equivalence -----

  lemma PairwiseEquivalence(a: seq<Rule>, b: seq<Rule>, c: seq<Rule>)
    ensures Pairwise(a, a)
    ensures Pairwise(a, b) ==> Pairwise(b, a)
    ensures Pairwise(a, b) && Pairwise(b, c) ==> Pairwise(a, c)
  {
    if Pairwise(a, b) && Pairwise(b, c) {
      forall i | 0 <= i < |a| ensures RuleEqual(a[i], c[i]) {
        assert RuleEqual(a[i], b[i]) && RuleEqual(b[i], c[i]);
      }
    }
  }

  /** The skip decision compares by an equivalence relation. */
  lemma Equivalence(a: Option<Comparable>, b: Option<Comparable>, c: Option<Comparable>)
    ensures Equal(a, a)
    ensures Equal(a, b) ==> Equal(b, a)
    ensures Equal(a, b) && Equal(b, c) ==> Equal(a, c)
  {
    var x := if a.Some? then a.value else Comparable("", [], [], []);
    var y := if b.Some? then b.value else x;
    var z := if c.Some? then c.value else x;
    PairwiseEquivalence(StableSort(x.inbound, InboundOrder), StableSort(y.inbound, InboundOrder),
                        StableSort(z.inbound, InboundOrder));
    PairwiseEquivalence(StableSort(x.outbound, OutboundOrder), StableSort(y.outbound, OutboundOrder),
                        StableSort(z.outbound, OutboundOrder));
  }

  // ----- what exactly is compared -----

  /** What is left of a rule once everything the comparison ignores is erased. */
  function Normal(r: Rule): Rule {
    Rule(r.protocol, Sanitize(r.portRange),
         if r.peers.None? then None
         else Some(Peers(r.peers.value.addresses, [], [], r.peers.value.loadBalancerUIDs, [])),
         r.action)
  }

  lemma NormalDecides(r: Rule, s: Rule)
    ensures RuleEqual(r, s) <==> Normal(r) == Normal(s)
    ensures PrintInbound(Normal(r)) == PrintInbound(r) && PrintOutbound(Normal(r)) == PrintOutbound(r)
  {
  }

  /** Two port ranges that mean the same: equal, or both of those that mean all ports. */
  ghost predicate SameRange(a: string, b: string) {
    a == b || (a in {"", "all", "0"} && b in {"", "all", "0"})
  }

  /** Field by field: protocols and actions agree, the port ranges mean the same, and the
      peers are both absent or agree in addresses and load balancer IDs. */
  lemma RuleEqualIff(r: Rule, s: Rule)
    ensures RuleEqual(r, s) <==>
      && r.protocol == s.protocol && r.action == s.action && SameRange(r.portRange, s.portRange)
      && (r.peers.None? <==> s.peers.None?)
      && (r.peers.Some? && s.peers.Some? ==>
            r.peers.value.addresses == s.peers.value.addresses && r.peers.value.loadBalancerUIDs == s.peers.value.loadBalancerUIDs)
  {
  }

  lemma PrintedOrders()
    ensures TotalPreorder(InboundOrder) && TotalPreorder(OutboundOrder)
  {
    forall r, s ensures InboundOrder(r, s) || InboundOrder(s, r) {
      LexTotal(PrintInbound(r), PrintInbound(s));
    }
    forall r, s ensures OutboundOrder(r, s) || OutboundOrder(s, r) {
      LexTotal(PrintOutbound(r), PrintOutbound(s));
    }
    forall r, s, t | InboundOrder(r, s) && InboundOrder(s, t) ensures InboundOrder(r, t) {
      LexTransitive(PrintInbound(r), PrintInbound(s), PrintInbound(t));
    }
    forall r, s, t | OutboundOrder(r, s) && OutboundOrder(s, t) ensures OutboundOrder(r, t) {
      LexTransitive(PrintOutbound(r), PrintOutbound(s), PrintOutbound(t));
    }
  }

  ghost predicate Prints(le: (Rule, Rule) -> bool) {
    le == InboundOrder || le == OutboundOrder
  }

  lemma SortNormal(a: seq<Rule>, le: (Rule, Rule) -> bool)
    requires Prints(le)
    ensures StableSort(Map(a, Normal), le) == Map(StableSort(a, le), Normal)
  {
    forall x, y | x in a && y in a ensures le(Normal(x), Normal(y)) == le(x, y) {
      NormalDecides(x, y);
      NormalDecides(y, x);
    }
    SortMap(a, Normal, le);
  }

  /** Comparing the sorted lists rule by rule is comparing the sorted normal forms. */
  lemma RulesEqualIffSameSort(a: seq<Rule>, b: seq<Rule>, le: (Rule, Rule) -> bool)
    requires Prints(le)
    ensures RulesEqual(a, b, le) <==> StableSort(Map(a, Normal), le) == StableSort(Map(b, Normal), le)
  {
    SortNormal(a, le);
    SortNormal(b, le);
    var s, t := StableSort(a, le), StableSort(b, le);
    if |s| == |t| {
      forall i | 0 <= i < |s| ensures RuleEqual(s[i], t[i]) <==> Map(s, Normal)[i] == Map(t, Normal)[i] {
        NormalDecides(s[i], t[i]);
      }
    } else {
      assert |Map(s, Normal)| != |Map(t, Normal)|;
    }
  }

  /** Unconditionally: two rule lists compare equal exactly when, for every printed
      key, the normal forms with that key read the same in both, in order. */
  lemma RulesEqualIffSameTies(a: seq<Rule>, b: seq<Rule>, le: (Rule, Rule) -> bool)
    requires Prints(le)
    ensures RulesEqual(a, b, le) <==> forall c :: SameTies(Map(a, Normal), Map(b, Normal), le, c)
  {
    PrintedOrders();
    RulesEqualIffSameSort(a, b, le);
    SameSortIffSameTies(Map(a, Normal), Map(b, Normal), le);
  }

  /** The printed key tells the normal forms in `a` apart. */
  ghost predicate KeyDetermines(a: seq<Rule>, le: (Rule, Rule) -> bool) {
    TiesEqual(Map(a, Normal), le)
  }

  /** Where the key determines the compared fields, the comparison is equality of
      the bags of normal forms. */
  lemma RulesEqualIffSameBag(a: seq<Rule>, b: seq<Rule>, le: (Rule, Rule) -> bool)
    requires Prints(le) && KeyDetermines(a, le)
    ensures RulesEqual(a, b, le) <==> multiset(Map(a, Normal)) == multiset(Map(b, Normal))
  {
    PrintedOrders();
    RulesEqualIffSameSort(a, b, le);
    SortBag(Map(a, Normal), le);
    SortBag(Map(b, Normal), le);
    if multiset(Map(a, Normal)) == multiset(Map(b, Normal)) {
      PermutationKeepsTies(Map(a, Normal), Map(b, Normal), le);
    }
  }

  ghost predicate SameBag(a: seq<Rule>, b: seq<Rule>) {
    multiset(Map(a, Normal)) == multiset(Map(b, Normal))
  }

  /** Whole firewalls: where the keys determine the compared fields, they compare equal
      exactly when the names and the ordered tags agree and so do the bags of normal forms
      of both rule lists. */
  lemma EqualIffSameBags(a: Comparable, b: Comparable)
    requires KeyDetermines(a.inbound, InboundOrder) && KeyDetermines(a.outbound, OutboundOrder)
    ensures Equal(Some(a), Some(b)) <==>
            a.name == b.name && a.tags == b.tags && SameBag(a.inbound, b.inbound) && SameBag(a.outbound, b.outbound)
  {
    RulesEqualIffSameBag(a.inbound, b.inbound, InboundOrder);
    RulesEqualIffSameBag(a.outbound, b.outbound, OutboundOrder);
  }

  lemma PairwiseSameBag(a: seq<Rule>, b: seq<Rule>)
    requires Pairwise(a, b)
    ensures SameBag(a, b)
  {
    forall i | 0 <= i < |a| ensures Normal(a[i]) == Normal(b[i]) {
      NormalDecides(a[i], b[i]);
    }
    assert Map(a, Normal) == Map(b, Normal);
  }

  lemma {:induction false} MapBag(a: seq<Rule>, b: seq<Rule>)
    requires multiset(a) == multiset(b)
    ensures multiset(Map(a, Normal)) == multiset(Map(b, Normal))
  {
    MapSum(a);
    MapSum(b);
    SumPermutation(a, b, NormalBag);
  }

  function NormalBag(r: Rule): multiset<Rule> {
    multiset{Normal(r)}
  }

  lemma {:induction false} MapSum(a: seq<Rule>)
    ensures multiset(Map(a, Normal)) == Sum(a, NormalBag)
  {
    if a != [] {
      var n := |a| - 1;
      MapSum(a[..n]);
      assert Map(a, Normal) == Map(a[..n], Normal) + [Normal(a[n])];
    }
  }

  lemma OrderHidden(a: seq<Rule>, b: seq<Rule>, le: (Rule, Rule) -> bool)
    requires Prints(le) && KeyDetermines(a, le) && multiset(b) == multiset(a)
    ensures RulesEqual(b, a, le)
  {
    MapBag(b, a);
    RulesEqualIffSameBag(a, b, le);
    PairwiseEquivalence(StableSort(a, le), StableSort(b, le), []);
  }

  lemma OrderVisible(a: seq<Rule>, le: (Rule, Rule) -> bool) returns (b: seq<Rule>)
    requires Prints(le) && !KeyDetermines(a, le)
    ensures multiset(b) == multiset(a) && !RulesEqual(b, a, le)
  {
    var na := Map(a, Normal);
    var x, y :| x in na && y in na && Same(le, x, y) && x != y;
    var i :| 0 <= i < |na| && na[i] == x;
    var j :| 0 <= j < |na| && na[j] == y;
    FrontsDiffer(a, i, j, le);
    var u, v := ToFront(a, i), ToFront(a, j);
    PairwiseEquivalence(StableSort(v, le), StableSort(a, le), []);
    PairwiseEquivalence(StableSort(u, le), StableSort(a, le), StableSort(v, le));
    b := if RulesEqual(u, a, le) then v else u;
  }

  /** The rule order is hidden from the comparison exactly for the lists whose
      printed key determines the compared fields. */
  lemma OrderInsensitiveIff(a: seq<Rule>, le: (Rule, Rule) -> bool)
    requires Prints(le)
    ensures KeyDetermines(a, le) <==> forall b :: multiset(b) == multiset(a) ==> RulesEqual(b, a, le)
  {
    if KeyDetermines(a, le) {
      forall b | multiset(b) == multiset(a) ensures RulesEqual(b, a, le) {
        OrderHidden(a, b, le);
      }
    } else {
      var b := OrderVisible(a, le);
    }
  }

  lemma FrontsDiffer(a: seq<Rule>, i: nat, j: nat, le: (Rule, Rule) -> bool)
    requires Prints(le) && i < |a| && j < |a|
    requires Same(le, Normal(a[i]), Normal(a[j])) && Normal(a[i]) != Normal(a[j])
    ensures !RulesEqual(ToFront(a, i), ToFront(a, j), le)
  {
    PrintedOrders();
    var u, v := Map(ToFront(a, i), Normal), Map(ToFront(a, j), Normal);
    var x, y := Normal(a[i]), Normal(a[j]);
    FrontTie(a, i, le);
    FrontTie(a, j, le);
    SameTiesOfTied(v, le, x, y);
    assert !SameTies(u, v, le, x);
    RulesEqualIffSameTies(ToFront(a, i), ToFront(a, j), le);
  }

  lemma SameTiesOfTied(s: seq<Rule>, le: (Rule, Rule) -> bool, x: Rule, y: Rule)
    requires TotalPreorder(le) && Same(le, x, y)
    ensures Ties(s, le, x) == Ties(s, le, y)
  {
    FilterCongruence(s, z => Same(le, z, x), z => Same(le, z, y));
  }

  lemma FrontTie(a: seq<Rule>, i: nat, le: (Rule, Rule) -> bool)
    requires i < |a| && TotalPreorder(le)
    ensures var ties := Ties(Map(ToFront(a, i), Normal), le, Normal(a[i])); ties != [] && ties[0] == Normal(a[i])
  {
    var rest := a[..i] + a[i + 1..];
    assert Map(ToFront(a, i), Normal) == [Normal(a[i])] + Map(rest, Normal);
    FirstTie(Normal(a[i]), Map(rest, Normal), le);
  }

  /** Outbound rules can differ in load balancer IDs alone, which are compared but
      not printed: reversing two such rules makes a firewall unequal to itself. */
  lemma OutboundOrderMatters()
    ensures exists a, b: seq<Rule> :: multiset(a) == multiset(b) && !RulesEqual(a, b, OutboundOrder)
  {
    var r := Rule("tcp", "0", Some(Peers([], [], [], [], [])), "");
    var s := Rule("tcp", "0", Some(Peers([], [], [], ["lb"], [])), "");
    assert Normal(r) == r && Normal(s) == s;
    assert PrintOutbound(r) == PrintOutbound(s);
    PrintedOrders();
    var a := [r, s];
    assert Map(a, Normal)[0] == r && Map(a, Normal)[1] == s;
    assert Same(OutboundOrder, r, s) && r != s;
    assert !KeyDetermines(a, OutboundOrder);
    var b := OrderVisible(a, OutboundOrder);
  }
}
