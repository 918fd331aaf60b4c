/** Which nodes may back a load balancer: classification by IP stack, declared
    network intent and the readiness gate on first admission. */
module NodeAdmission {
  import opened Seqs
  import opened Cluster
  import opened Droplets

  // ----- classification -----

  datatype NodeClass = SingleStackV4 | SingleStackV6 | DualStackNode | PublicNetUnready

  predicate HasAddress(node: Node, kind: AddressKind, v6: bool) {
    exists i :: 0 <= i < |node.addresses| && node.addresses[i] == NodeAddress(kind, v6)
  }

  /** The stack a node offers: its external addresses, or failing any a private IPv4
      address where that is good enough. */
  function Classify(node: Node, internalFallback: bool): NodeClass {
    var v6 := HasAddress(node, ExternalIP, true);
    var v4 := HasAddress(node, ExternalIP, false) || (!v6 && internalFallback && HasAddress(node, InternalIP, false));
    if v4 && v6 then DualStackNode
    else if v4 then SingleStackV4
    else if v6 then SingleStackV6
    else PublicNetUnready
  }

  /** The class by the addresses that exist, case by case: a private address counts only
      without any external one. */
  lemma ClassifyCases(node: Node, fallback: bool)
    ensures var v4, v6, private := HasAddress(node, ExternalIP, false), HasAddress(node, ExternalIP, true), HasAddress(node, InternalIP, false);
      && (Classify(node, fallback) == DualStackNode <==> v4 && v6)
      && (Classify(node, fallback) == SingleStackV6 <==> v6 && !v4)
      && (Classify(node, fallback) == SingleStackV4 <==> !v6 && (v4 || (fallback && private)))
      && (Classify(node, fallback) == PublicNetUnready <==> !v4 && !v6 && !(fallback && private))
  {
  }

  method ClassifyNode(node: Node, allowInternalFallback: bool) returns (c: NodeClass)
    ensures c == Classify(node, allowInternalFallback)
  {
    var hasIPv4, hasIPv6 := false, false;
    for i := 0 to |node.addresses|
      invariant hasIPv4 == exists j :: 0 <= j < i && node.addresses[j] == NodeAddress(ExternalIP, false)
      invariant hasIPv6 == exists j :: 0 <= j < i && node.addresses[j] == NodeAddress(ExternalIP, true)
    {
      if node.addresses[i].kind == ExternalIP {
        if node.addresses[i].v6 {
          hasIPv6 := true;
        } else {
          hasIPv4 := true;
        }
      }
    }
    if !hasIPv4 && !hasIPv6 && allowInternalFallback {
      for i := 0 to |node.addresses|
        invariant !hasIPv4 && forall j :: 0 <= j < i ==> node.addresses[j] != NodeAddress(InternalIP, false)
      {
        if node.addresses[i].kind == InternalIP && !node.addresses[i].v6 {
          hasIPv4 := true;
          break;
        }
      }
    }
    c := if hasIPv4 && hasIPv6 then DualStackNode
         else if hasIPv4 then SingleStackV4
         else if hasIPv6 then SingleStackV6
         else PublicNetUnready;
  }

  predicate AllowsPrivateOnly(lbType: LBType, network: Network) {
    network == Internal || (network == External && lbType == Regional)
  }

  function ClassFor(lbType: LBType, network: Network, node: Node): NodeClass {
    Classify(node, AllowsPrivateOnly(lbType, network))
  }

  /** The nodes of an external load balancer with class `c`; an internal one does not
      look at the class. */
  function InClass(lbType: LBType, network: Network, c: NodeClass): Node -> bool {
    node => network == External && ClassFor(lbType, network, node) == c
  }

  predicate LbReady(lbType: LBType, network: Network, node: Node) {
    network == Internal || ClassFor(lbType, network, node) in {SingleStackV4, DualStackNode}
  }

  function ReadyFor(lbType: LBType, network: Network): Node -> bool {
    node => LbReady(lbType, network, node)
  }

  /** Usable by addresses: any node on an internal load balancer, one with an external IPv4
      address, or on an external REGIONAL one also one with a private IPv4 address and no
      external address at all. */
  lemma LbReadyIff(lbType: LBType, network: Network, node: Node)
    ensures LbReady(lbType, network, node) <==>
      || network == Internal
      || HasAddress(node, ExternalIP, false)
      || (lbType == Regional && !HasAddress(node, ExternalIP, true) && HasAddress(node, InternalIP, false))
  {
  }

  datatype NodeState = NodeState(lbReady: seq<Node>, filteredCount: nat, publicNetUnreadyCount: nat,
                                 publicNetUnready: seq<Node>, singleStackV4: seq<Node>, singleStackV6: seq<Node>,
                                 dualStack: seq<Node>)

  /** Every list of a node state as a filter of the node list. */
  function StateOf(nodes: seq<Node>, lbType: LBType, network: Network): NodeState {
    var unready := Filter(nodes, InClass(lbType, network, PublicNetUnready));
    var v6 := Filter(nodes, InClass(lbType, network, SingleStackV6));
    NodeState(Filter(nodes, ReadyFor(lbType, network)), |unready| + |v6|, |unready|, unready,
              Filter(nodes, InClass(lbType, network, SingleStackV4)), v6,
              Filter(nodes, InClass(lbType, network, DualStackNode)))
  }

  function AddNode(state: NodeState, lbType: LBType, network: Network, node: Node): NodeState {
    if network == Internal then state.(lbReady := state.lbReady + [node])
    else match ClassFor(lbType, network, node)
         case PublicNetUnready =>
           state.(filteredCount := state.filteredCount + 1, publicNetUnreadyCount := state.publicNetUnreadyCount + 1,
                  publicNetUnready := state.publicNetUnready + [node])
         case SingleStackV6 =>
           state.(filteredCount := state.filteredCount + 1, singleStackV6 := state.singleStackV6 + [node])
         case SingleStackV4 =>
           state.(lbReady := state.lbReady + [node], singleStackV4 := state.singleStackV4 + [node])
         case DualStackNode =>
           state.(lbReady := state.lbReady + [node], dualStack := state.dualStack + [node])
  }

  lemma StateOfAppend(nodes: seq<Node>, node: Node, lbType: LBType, network: Network)
    ensures StateOf(nodes + [node], lbType, network) == AddNode(StateOf(nodes, lbType, network), lbType, network, node)
  {
    FilterAppend(nodes, node, InClass(lbType, network, PublicNetUnready));
    FilterAppend(nodes, node, InClass(lbType, network, SingleStackV6));
    FilterAppend(nodes, node, InClass(lbType, network, SingleStackV4));
    FilterAppend(nodes, node, InClass(lbType, network, DualStackNode));
    FilterAppend(nodes, node, ReadyFor(lbType, network));
  }

  lemma StateOfNext(nodes: seq<Node>, i: nat, lbType: LBType, network: Network)
    requires i < |nodes|
    ensures StateOf(nodes[..i + 1], lbType, network) == AddNode(StateOf(nodes[..i], lbType, network), lbType, network, nodes[i])
  {
    StateOfAppend(nodes[..i], nodes[i], lbType, network);
    assert nodes[..i + 1] == nodes[..i] + [nodes[i]];
  }

  lemma PartitionSizes(nodes: seq<Node>, a: seq<Node>, b: seq<Node>, c: seq<Node>)
    requires multiset(a) + multiset(b) + multiset(c) == multiset(nodes)
    ensures |a| + |b| + |c| == |nodes|
  {
    assert |nodes| == |multiset(nodes)| == |multiset(a)| + |multiset(b)| + |multiset(c)|;
  }

  /** The counts add up: every node is usable or counted as filtered. */
  lemma NothingUncounted(nodes: seq<Node>, lbType: LBType, network: Network)
    ensures var state := StateOf(nodes, lbType, network);
      |state.lbReady| + state.filteredCount == |nodes| && state.publicNetUnreadyCount == |state.publicNetUnready|
  {
    var ready, unready, v6 := ReadyFor(lbType, network), InClass(lbType, network, PublicNetUnready), InClass(lbType, network, SingleStackV6);
    FilterPartition(nodes, ready, unready, v6);
    PartitionSizes(nodes, Filter(nodes, ready), Filter(nodes, unready), Filter(nodes, v6));
  }

  method FilterAndClassifyNodes(nodes: seq<Node>, lbType: LBType, network: Network) returns (state: NodeState)
    ensures state == StateOf(nodes, lbType, network)
  {
    state := NodeState([], 0, 0, [], [], [], []);
    assert nodes[..0] == [];
    for i := 0 to |nodes|
      invariant state == StateOf(nodes[..i], lbType, network)
    {
      var node := nodes[i];
      StateOfNext(nodes, i, lbType, network);
      if network == Internal {
        state := state.(lbReady := state.lbReady + [node]);
        continue;
      }
      var c := ClassifyNode(node, AllowsPrivateOnly(lbType, network));
      if c == PublicNetUnready {
        state := state.(filteredCount := state.filteredCount + 1, publicNetUnreadyCount := state.publicNetUnreadyCount + 1,
                        publicNetUnready := state.publicNetUnready + [node]);
        continue;
      }
      if c == SingleStackV6 {
        state := state.(filteredCount := state.filteredCount + 1, singleStackV6 := state.singleStackV6 + [node]);
        continue;
      }
      state := state.(lbReady := state.lbReady + [node]);
      if c == SingleStackV4 {
        state := state.(singleStackV4 := state.singleStackV4 + [node]);
      } else {
        state := state.(dualStack := state.dualStack + [node]);
      }
    }
    assert nodes[..|nodes|] == nodes;
  }

  // ----- readiness -----

  const CRITICAL_COMPONENTS_TAINT := "readiness.k8s.io/DOKSCriticalComponentsReady"

  /** The first NodeReady condition decides. */
  predicate ConditionsReady(conditions: seq<Condition>) {
    conditions != [] &&
    if conditions[0].kind == ReadyCondition then conditions[0].isTrue else ConditionsReady(conditions[1..])
  }

  /** NodeReady and free of the critical-components taint. */
  predicate Serving(node: Node) {
    ConditionsReady(node.conditions) && CRITICAL_COMPONENTS_TAINT !in node.taints
  }

  /** The first condition of that kind, and it is true. */
  ghost predicate FirstReadyAt(conditions: seq<Condition>, i: int) {
    && 0 <= i < |conditions| && conditions[i] == Condition(ReadyCondition, true)
    && forall j :: 0 <= j < i ==> conditions[j].kind != ReadyCondition
  }

  /** The readiness gate by the node's own data: the first NodeReady condition is true and
      the critical-components taint is absent. */
  ghost predicate ReadyUntainted(node: Node) {
    && (exists i :: FirstReadyAt(node.conditions, i))
    && forall t :: t in node.taints ==> t != "readiness.k8s.io/DOKSCriticalComponentsReady"
  }

  lemma {:induction false} ConditionsReadyIff(conditions: seq<Condition>)
    ensures ConditionsReady(conditions) <==> exists i :: FirstReadyAt(conditions, i)
  {
    if conditions != [] {
      ConditionsReadyIff(conditions[1..]);
      if conditions[0].kind == ReadyCondition {
        assert conditions[0].isTrue ==> FirstReadyAt(conditions, 0);
      } else {
        if i :| FirstReadyAt(conditions[1..], i) {
          FirstReadyShift(conditions, i);
        }
        if i :| FirstReadyAt(conditions, i) {
          FirstReadyShift(conditions, i - 1);
        }
      }
    }
  }

  lemma FirstReadyShift(conditions: seq<Condition>, i: int)
    requires conditions != [] && conditions[0].kind != ReadyCondition
    ensures FirstReadyAt(conditions, i + 1) <==> FirstReadyAt(conditions[1..], i)
  {
    var rest := conditions[1..];
    assert 0 <= i < |rest| ==> rest[i] == conditions[i + 1];
    if FirstReadyAt(rest, i) {
      forall j | 0 <= j < i + 1 ensures conditions[j].kind != ReadyCondition {
        assert j > 0 ==> conditions[j] == rest[j - 1];
      }
    }
  }

  lemma ServingIff(node: Node)
    ensures Serving(node) <==> ReadyUntainted(node)
  {
    ConditionsReadyIff(node.conditions);
  }

  predicate AlreadyAdmitted(node: Node, admitted: set<int>) {
    DropletID(node.providerID).Ok? && DropletID(node.providerID).value in admitted
  }

  function Admissible(admitted: set<int>): Node -> bool {
    node => AlreadyAdmitted(node, admitted) || Serving(node)
  }

  function Inadmissible(admitted: set<int>): Node -> bool {
    node => !Admissible(admitted)(node)
  }

  method IsServing(node: Node) returns (serving: bool)
    ensures serving == Serving(node)
    ensures serving <==> ReadyUntainted(node)
  {
    ServingIff(node);
    var ready := false;
    for i := 0 to |node.conditions|
      invariant !ready && ConditionsReady(node.conditions) == ConditionsReady(node.conditions[i..])
    {
      if node.conditions[i].kind == ReadyCondition {
        ready := node.conditions[i].isTrue;
        break;
      }
      assert node.conditions[i..][1..] == node.conditions[i + 1..];
    }
    var tainted := false;
    for i := 0 to |node.taints|
      invariant !tainted && forall j :: 0 <= j < i ==> node.taints[j] != CRITICAL_COMPONENTS_TAINT
    {
      if node.taints[i] == CRITICAL_COMPONENTS_TAINT {
        tainted := true;
        break;
      }
    }
    return ready && !tainted;
  }

  /** Splits lb-ready nodes into those to write and those held back. */
  method FilterByReadiness(nodes: seq<Node>, admitted: set<int>) returns (admit: seq<Node>, pending: seq<Node>)
    ensures admit == Filter(nodes, Admissible(admitted))
    ensures pending == Filter(nodes, Inadmissible(admitted))
  {
    admit, pending := [], [];
    assert nodes[..0] == [];
    for i := 0 to |nodes|
      invariant admit == Filter(nodes[..i], Admissible(admitted))
      invariant pending == Filter(nodes[..i], Inadmissible(admitted))
    {
      var node := nodes[i];
      assert nodes[..i + 1] == nodes[..i] + [node];
      FilterAppend(nodes[..i], node, Admissible(admitted));
      FilterAppend(nodes[..i], node, Inadmissible(admitted));
      var id := DropletID(node.providerID);
      if id.Ok? && id.value in admitted {
        admit := admit + [node];
        continue;
      }
      var serving := IsServing(node);
      if serving {
        admit := admit + [node];
        continue;
      }
      pending := pending + [node];
    }
    assert nodes[..|nodes|] == nodes;
  }

  // ----- declared network intent -----

  function Lower(s: string): string {
    Map(s, c => if 'A' <= c <= 'Z' then (c as int + 32) as char else c)
  }

  /** Only an explicit "private" label, in any letter case, rules a public address out. */
  predicate IntendsPublic(node: Node) {
    Lower(node.networkType) != "private"
  }

  predicate IntendsPrivate(node: Node) {
    !IntendsPublic(node)
  }

  /** Private exactly if the label is "private" in any letter case. */
  lemma IntendsPublicIff(node: Node)
    ensures !IntendsPublic(node) <==>
      |node.networkType| == 7 && forall i :: 0 <= i < 7 ==> node.networkType[i] in {"private"[i], "PRIVATE"[i]}
  {
    var text, small, big := node.networkType, "private", "PRIVATE";
    assert forall i :: 0 <= i < 7 ==> big[i] as int + 32 == small[i] as int;
    if |text| == 7 {
      forall i | 0 <= i < 7 ensures Lower(text)[i] == small[i] <==> text[i] in {small[i], big[i]} {
        assert 'a' <= small[i] <= 'z' && 'A' <= big[i] <= 'Z';
      }
      assert Lower(text) == small <==> forall i :: 0 <= i < 7 ==> Lower(text)[i] == small[i];
    }
  }

  method PendingInitNodes(unready: seq<Node>) returns (pending: seq<Node>, privateOnly: seq<Node>)
    ensures pending == Filter(unready, IntendsPublic)
    ensures privateOnly == Filter(unready, IntendsPrivate)
  {
    pending, privateOnly := [], [];
    assert unready[..0] == [];
    for i := 0 to |unready|
      invariant pending == Filter(unready[..i], IntendsPublic)
      invariant privateOnly == Filter(unready[..i], IntendsPrivate)
    {
      assert unready[..i + 1] == unready[..i] + [unready[i]];
      FilterAppend(unready[..i], unready[i], IntendsPublic);
      FilterAppend(unready[..i], unready[i], IntendsPrivate);
      if IntendsPublic(unready[i]) {
        pending := pending + [unready[i]];
      } else {
        privateOnly := privateOnly + [unready[i]];
      }
    }
    assert unready[..|unready|] == unready;
  }

  // ----- the five fates of a node -----

  ghost function Admitted(nodes: seq<Node>, lbType: LBType, network: Network, admitted: set<int>): seq<Node> {
    Filter(Filter(nodes, ReadyFor(lbType, network)), Admissible(admitted))
  }

  ghost function HeldBack(nodes: seq<Node>, lbType: LBType, network: Network, admitted: set<int>): seq<Node> {
    Filter(Filter(nodes, ReadyFor(lbType, network)), Inadmissible(admitted))
  }

  ghost function Initializing(nodes: seq<Node>, lbType: LBType, network: Network): seq<Node> {
    Filter(Filter(nodes, InClass(lbType, network, PublicNetUnready)), IntendsPublic)
  }

  ghost function PrivateOnly(nodes: seq<Node>, lbType: LBType, network: Network): seq<Node> {
    Filter(Filter(nodes, InClass(lbType, network, PublicNetUnready)), IntendsPrivate)
  }

  ghost function V6Only(nodes: seq<Node>, lbType: LBType, network: Network): seq<Node> {
    Filter(nodes, InClass(lbType, network, SingleStackV6))
  }

  /** Conservation: every listed node is admitted, held back, initializing, private for
      good or IPv6-only, exactly once. */
  lemma {:induction false} EveryNodeOnce(nodes: seq<Node>, lbType: LBType, network: Network, admitted: set<int>)
    ensures multiset(nodes)
         == multiset(Admitted(nodes, lbType, network, admitted)) + multiset(HeldBack(nodes, lbType, network, admitted))
          + multiset(Initializing(nodes, lbType, network)) + multiset(PrivateOnly(nodes, lbType, network))
          + multiset(V6Only(nodes, lbType, network))
  {
    var ready, unready := ReadyFor(lbType, network), InClass(lbType, network, PublicNetUnready);
    FilterPartition(nodes, ready, unready, InClass(lbType, network, SingleStackV6));
    var usable, unusable := Filter(nodes, ready), Filter(nodes, unready);
    FilterSplit(usable, Admissible(admitted), Inadmissible(admitted));
    FilterSplit(unusable, IntendsPublic, IntendsPrivate);
  }

  lemma AdmittedMember(nodes: seq<Node>, lbType: LBType, network: Network, admitted: set<int>, n: Node)
    ensures n in Admitted(nodes, lbType, network, admitted) <==>
            n in nodes && LbReady(lbType, network, n) && (AlreadyAdmitted(n, admitted) || Serving(n))
    ensures n in HeldBack(nodes, lbType, network, admitted) <==>
            n in nodes && LbReady(lbType, network, n) && !AlreadyAdmitted(n, admitted) && !Serving(n)
    ensures n in Initializing(nodes, lbType, network) <==>
            n in nodes && network == External && ClassFor(lbType, network, n) == PublicNetUnready && IntendsPublic(n)
  {
    FilterMember(nodes, ReadyFor(lbType, network), n);
    FilterMember(nodes, InClass(lbType, network, PublicNetUnready), n);
    FilterMember(Filter(nodes, ReadyFor(lbType, network)), Admissible(admitted), n);
    FilterMember(Filter(nodes, ReadyFor(lbType, network)), Inadmissible(admitted), n);
    FilterMember(Filter(nodes, InClass(lbType, network, PublicNetUnready)), IntendsPublic, n);
  }

  /** The same by the node's own data: admitted is who is listed, usable by addresses, and
      has its droplet written already or is ready and untainted. */
  lemma AdmittedExactly(nodes: seq<Node>, lbType: LBType, network: Network, admitted: set<int>, n: Node)
    ensures n in Admitted(nodes, lbType, network, admitted) <==>
      && n in nodes
      && (|| network == Internal
          || HasAddress(n, ExternalIP, false)
          || (lbType == Regional && !HasAddress(n, ExternalIP, true) && HasAddress(n, InternalIP, false)))
      && ((DropletID(n.providerID).Ok? && DropletID(n.providerID).value in admitted) || ReadyUntainted(n))
  {
    AdmittedMember(nodes, lbType, network, admitted, n);
    LbReadyIff(lbType, network, n);
    ServingIff(n);
  }

  lemma UsableState(nodes: seq<Node>, lbType: LBType, network: Network)
    requires forall n :: n in nodes ==> LbReady(lbType, network, n)
    ensures StateOf(nodes, lbType, network).lbReady == nodes && StateOf(nodes, lbType, network).filteredCount == 0
  {
    FilterAll(nodes, ReadyFor(lbType, network));
    FilterNone(nodes, InClass(lbType, network, PublicNetUnready));
    FilterNone(nodes, InClass(lbType, network, SingleStackV6));
  }

  lemma AdmissibleState(nodes: seq<Node>, admitted: set<int>)
    requires forall n :: n in nodes ==> AlreadyAdmitted(n, admitted) || Serving(n)
    ensures Filter(nodes, Admissible(admitted)) == nodes && Filter(nodes, Inadmissible(admitted)) == []
  {
    FilterAll(nodes, Admissible(admitted));
    FilterNone(nodes, Inadmissible(admitted));
  }

  /** Re-classifying the admitted nodes filters nothing out, and admits them all again. */
  lemma AdmittedStable(nodes: seq<Node>, lbType: LBType, network: Network, admitted: set<int>)
    ensures var admit := Admitted(nodes, lbType, network, admitted);
            var state := StateOf(admit, lbType, network);
            && state.lbReady == admit && state.filteredCount == 0
            && Filter(admit, Admissible(admitted)) == admit && Filter(admit, Inadmissible(admitted)) == []
  {
    var admit := Admitted(nodes, lbType, network, admitted);
    forall n | n in admit ensures LbReady(lbType, network, n) && (AlreadyAdmitted(n, admitted) || Serving(n)) {
      AdmittedMember(nodes, lbType, network, admitted, n);
    }
    UsableState(admit, lbType, network);
    AdmissibleState(admit, admitted);
  }
}
