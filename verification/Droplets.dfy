/** Droplets and how a node names one: by ProviderID, or by its own name. */
module Droplets {
  import opened Prelude
  import opened Text
  import opened Cluster

  // ----- provider IDs -----

  const PROVIDER_ID_PREFIX := "digitalocean://"

  /** dropletIDFromProviderID */
  function DropletID(providerID: string): Result<int> {
    var n := |PROVIDER_ID_PREFIX|;
    if |providerID| <= n || providerID[..n] != PROVIDER_ID_PREFIX then Err(Failure)
    else Atoi(providerID[n..])
  }

  /** The ProviderID that InstanceMetadata reports. */
  function ProviderID(dropletID: int): string {
    PROVIDER_ID_PREFIX + Itoa(dropletID)
  }

  /** A reported ProviderID reads back as the droplet it was printed for. */
  lemma ProviderIDRoundTrip(dropletID: int)
    ensures DropletID(ProviderID(dropletID)) == if InInt64(dropletID) then Ok(dropletID) else Err(Failure)
  {
    AtoiOfItoa(dropletID);
    var n := |PROVIDER_ID_PREFIX|;
    assert ProviderID(dropletID)[..n] == PROVIDER_ID_PREFIX && ProviderID(dropletID)[n..] == Itoa(dropletID);
  }

  /** Exactly the texts "digitalocean://" and a number name a droplet. */
  lemma DropletIDIff(providerID: string, id: int)
    ensures ProviderID(id) == "digitalocean://" + Itoa(id)
    ensures DropletID(providerID) == Ok(id) <==>
            |providerID| > 15 && providerID[..15] == "digitalocean://" && Atoi(providerID[15..]) == Ok(id)
  {
    assert |"digitalocean://"| == 15;
  }

  // ----- addresses -----

  datatype Networks = Networks(privateIPv4: string, publicIPv4: string, publicIPv6: string)

  /** `networks` is None when the API reports no networks at all. */
  datatype Droplet = Droplet(id: int, name: string, networks: Option<Networks>)

  /** nodeAddresses, as texts: the name, then the private and any public addresses.
      Without a private address there are none. */
  function Addresses(d: Droplet): Option<seq<string>> {
    if d.networks.None? || d.networks.value.privateIPv4 == "" then None
    else
      var n := d.networks.value;
      Some([d.name, n.privateIPv4]
           + (if n.publicIPv4 != "" then [n.publicIPv4] else [])
           + (if n.publicIPv6 != "" then [n.publicIPv6] else []))
  }

  // ----- resolving nodes -----

  /** The droplet ID a node's ProviderID gives, if it has a ProviderID. */
  function IdOf(node: Node): Result<Option<int>> {
    if node.providerID == "" then Ok(None) else
    match DropletID(node.providerID)
    case Err(e) => Err(e)
    case Ok(id) => Ok(Some(id))
  }

  /** The IDs `f` gives, in order; the first failure fails all. */
  ghost function Collect(nodes: seq<Node>, f: Node -> Result<Option<int>>): Result<seq<int>> {
    if nodes == [] then Ok([]) else
      var n := |nodes| - 1;
      match Collect(nodes[..n], f)
      case Err(e) => Err(e)
      case Ok(ids) =>
        match f(nodes[n])
        case Err(e) => Err(e)
        case Ok(None) => Ok(ids)
        case Ok(Some(id)) => Ok(ids + [id])
  }

  ghost function Unidentified(nodes: seq<Node>): set<string> {
    set n | n in nodes && n.providerID == "" :: n.name
  }

  predicate Matches(d: Droplet, missing: set<string>) {
    d.name in missing || (Addresses(d).Some? && exists i :: 0 <= i < |Addresses(d).value| && Addresses(d).value[i] in missing)
  }

  /** The texts a droplet is found by: its name, and if it has a private IPv4 address, that
      one and any public ones. */
  lemma MatchesIff(d: Droplet, name: string)
    ensures Matches(d, {name}) <==>
      || d.name == name
      || (d.networks.Some? && d.networks.value.privateIPv4 != "" && name != ""
          && name in {d.networks.value.privateIPv4, d.networks.value.publicIPv4, d.networks.value.publicIPv6})
  {
    if Addresses(d).Some? {
      var texts, n := Addresses(d).value, d.networks.value;
      assert texts[0] == d.name && texts[1] == n.privateIPv4;
      assert name in texts <==> exists i :: 0 <= i < |texts| && texts[i] in {name};
    }
  }

  /** The scan over all droplets: a droplet found by name uses the name up, one found
      by address does not. */
  ghost function Discover(droplets: seq<Droplet>, missing: set<string>): seq<int> {
    if droplets == [] then [] else
      var d := droplets[0];
      (if Matches(d, missing) then [d.id] else []) + Discover(droplets[1..], missing - {d.name})
  }

  /** nodesToDropletIDs; `droplets` is what listing all droplets returns. */
  ghost function DropletIDs(nodes: seq<Node>, droplets: Result<seq<Droplet>>): Result<seq<int>> {
    match Collect(nodes, IdOf)
    case Err(e) => Err(Failure)
    case Ok(ids) =>
      var missing := Unidentified(nodes);
      if missing == {} then Ok(ids)
      else match droplets
           case Err(e) => Err(Failure)
           case Ok(ds) => Ok(ids + Discover(ds, missing))
  }

  lemma {:induction false} CollectFails(nodes: seq<Node>, f: Node -> Result<Option<int>>, i: nat)
    requires i <= |nodes| && Collect(nodes[..i], f).Err?
    ensures Collect(nodes, f).Err?
    decreases |nodes| - i
  {
    if i < |nodes| {
      assert nodes[..i + 1][..i] == nodes[..i];
      CollectFails(nodes, f, i + 1);
    } else {
      assert nodes[..i] == nodes;
    }
  }

  lemma {:induction false} CollectNext(nodes: seq<Node>, f: Node -> Result<Option<int>>, i: nat)
    requires i < |nodes| && Collect(nodes[..i], f).Ok?
    ensures Collect(nodes[..i + 1], f) ==
            match f(nodes[i])
            case Err(e) => Err(e)
            case Ok(None) => Collect(nodes[..i], f)
            case Ok(Some(id)) => Ok(Collect(nodes[..i], f).value + [id])
  {
    assert nodes[..i + 1][..i] == nodes[..i];
  }

  lemma {:induction false} NextUnidentified(nodes: seq<Node>, i: nat)
    requires i < |nodes|
    ensures Unidentified(nodes[..i + 1]) == Unidentified(nodes[..i]) + if nodes[i].providerID == "" then {nodes[i].name} else {}
  {
    assert nodes[..i + 1] == nodes[..i] + [nodes[i]];
  }

  method IdentifyNodes(nodes: seq<Node>) returns (ok: bool, ids: seq<int>, missing: set<string>)
    ensures ok == Collect(nodes, IdOf).Ok?
    ensures ok ==> ids == Collect(nodes, IdOf).value && missing == Unidentified(nodes)
  {
    ok, ids, missing := true, [], {};
    assert nodes[..0] == [];
    var i := 0;
    while ok && i < |nodes|
      invariant i <= |nodes|
      invariant ok == Collect(nodes[..i], IdOf).Ok?
      invariant ok ==> ids == Collect(nodes[..i], IdOf).value && missing == Unidentified(nodes[..i])
    {
      CollectNext(nodes, IdOf, i);
      NextUnidentified(nodes, i);
      var node := nodes[i];
      if node.providerID != "" {
        var id := DropletID(node.providerID);
        if id.Err? {
          ok := false;
        } else {
          ids := ids + [id.value];
        }
      } else {
        missing := missing + {node.name};
      }
      i := i + 1;
    }
    if ok {
      assert nodes[..i] == nodes;
    } else {
      CollectFails(nodes, IdOf, i);
    }
  }

  method NodesToDropletIDs(nodes: seq<Node>, droplets: Result<seq<Droplet>>) returns (r: Result<seq<int>>)
    ensures r == DropletIDs(nodes, droplets)
  {
    var ok, ids, missing := IdentifyNodes(nodes);
    if !ok {
      return Err(Failure);
    }
    if missing != {} {
      if droplets.Err? {
        return Err(Failure);
      }
      ids := DiscoverDroplets(ids, droplets.value, missing);
    }
    return Ok(ids);
  }

  method DiscoverDroplets(known: seq<int>, droplets: seq<Droplet>, names: set<string>) returns (ids: seq<int>)
    ensures ids == known + Discover(droplets, names)
  {
    ids := known;
    var missing := names;
    for i := 0 to |droplets|
      invariant ids + Discover(droplets[i..], missing) == known + Discover(droplets, names)
    {
      var d := droplets[i];
      assert droplets[i..][1..] == droplets[i + 1..];
      if d.name in missing {
        ids := ids + [d.id];
        missing := missing - {d.name};
      } else {
        assert missing - {d.name} == missing;
        var addresses := Addresses(d);
        if addresses.Some? {
          var hit := AnyMissing(addresses.value, missing);
          if hit {
            ids := ids + [d.id];
          }
        }
      }
    }
  }

  method AnyMissing(addresses: seq<string>, missing: set<string>) returns (hit: bool)
    ensures hit == exists i :: 0 <= i < |addresses| && addresses[i] in missing
  {
    for i := 0 to |addresses|
      invariant forall j :: 0 <= j < i ==> addresses[j] !in missing
    {
      if addresses[i] in missing {
        return true;
      }
    }
    return false;
  }

  // ----- what resolution guarantees -----

  /** `node` may stand for the droplet with that ID: its ProviderID says so, or it has
      none and a listed droplet carries its name as name or address. */
  ghost predicate StandsFor(node: Node, id: int, droplets: Result<seq<Droplet>>) {
    if node.providerID != "" then DropletID(node.providerID) == Ok(id)
    else droplets.Ok? && exists d :: d in droplets.value && d.id == id && Matches(d, {node.name})
  }

  /** The first droplet of that name. */
  ghost function Named(droplets: seq<Droplet>, name: string): Option<Droplet> {
    if droplets == [] then None else if droplets[0].name == name then Some(droplets[0]) else Named(droplets[1..], name)
  }

  /** The node is resolved among `ids`: by its ProviderID, else by the first droplet of
      its name, and if none has that name by every droplet with that address. */
  ghost predicate Resolved(node: Node, ids: seq<int>, droplets: Result<seq<Droplet>>) {
    if node.providerID != "" then DropletID(node.providerID).Ok? && DropletID(node.providerID).value in ids
    else
      && droplets.Ok?
      && (match Named(droplets.value, node.name)
          case Some(d) => d.id in ids
          case None => forall d :: d in droplets.value && Matches(d, {node.name}) ==> d.id in ids)
  }

  lemma {:induction false} DiscoverNamed(droplets: seq<Droplet>, missing: set<string>, name: string)
    requires name in missing && Named(droplets, name).Some?
    ensures Named(droplets, name).value.id in Discover(droplets, missing)
  {
    if droplets[0].name != name {
      DiscoverNamed(droplets[1..], missing - {droplets[0].name}, name);
    }
  }

  lemma {:induction false} DiscoverAddressed(droplets: seq<Droplet>, missing: set<string>, name: string, d: Droplet)
    requires name in missing && Named(droplets, name).None? && d in droplets && Matches(d, {name})
    ensures d.id in Discover(droplets, missing)
  {
    if d != droplets[0] {
      DiscoverAddressed(droplets[1..], missing - {droplets[0].name}, name, d);
    }
  }

  lemma {:induction false} CollectHas(nodes: seq<Node>, f: Node -> Result<Option<int>>, n: Node)
    requires Collect(nodes, f).Ok? && n in nodes
    ensures f(n).Ok? && (f(n).value.Some? ==> f(n).value.value in Collect(nodes, f).value)
  {
    var k := |nodes| - 1;
    if n != nodes[k] {
      CollectHas(nodes[..k], f, n);
    }
  }

  lemma {:induction false} CollectOrigin(nodes: seq<Node>, f: Node -> Result<Option<int>>, id: int) returns (n: Node)
    requires Collect(nodes, f).Ok? && id in Collect(nodes, f).value
    ensures n in nodes && f(n) == Ok(Some(id))
  {
    var k := |nodes| - 1;
    if f(nodes[k]) == Ok(Some(id)) {
      n := nodes[k];
    } else {
      n := CollectOrigin(nodes[..k], f, id);
    }
  }

  lemma {:induction false} CollectCount(nodes: seq<Node>, f: Node -> Result<Option<int>>)
    requires Collect(nodes, f).Ok? && forall n :: n in nodes ==> f(n) != Ok(None)
    ensures |Collect(nodes, f).value| == |nodes|
  {
    if nodes != [] {
      CollectCount(nodes[..|nodes| - 1], f);
    }
  }

  lemma {:induction false} DiscoverMeaning(droplets: seq<Droplet>, missing: set<string>, id: int)
    requires id in Discover(droplets, missing)
    ensures exists d, name :: d in droplets && name in missing && d.id == id && Matches(d, {name})
  {
    var d := droplets[0];
    if Matches(d, missing) && d.id == id {
      var name := if d.name in missing then d.name
                  else var i :| 0 <= i < |Addresses(d).value| && Addresses(d).value[i] in missing; Addresses(d).value[i];
      assert Matches(d, {name});
    } else {
      DiscoverMeaning(droplets[1..], missing - {d.name}, id);
    }
  }

  /** Every node is resolved. */
  lemma NodesResolved(nodes: seq<Node>, droplets: Result<seq<Droplet>>, n: Node)
    requires DropletIDs(nodes, droplets).Ok? && n in nodes
    ensures Resolved(n, DropletIDs(nodes, droplets).value, droplets)
  {
    CollectHas(nodes, IdOf, n);
    if n.providerID == "" {
      assert n.name in Unidentified(nodes);
      var ds := droplets.value;
      if Named(ds, n.name).Some? {
        DiscoverNamed(ds, Unidentified(nodes), n.name);
      } else {
        forall d | d in ds && Matches(d, {n.name}) ensures d.id in Discover(ds, Unidentified(nodes)) {
          DiscoverAddressed(ds, Unidentified(nodes), n.name, d);
        }
      }
    }
  }

  /** The IDs that the droplet scan adds for these names. */
  ghost function Scanned(names: set<string>, droplets: Result<seq<Droplet>>): seq<int> {
    if names == {} || droplets.Err? then [] else Discover(droplets.value, names)
  }

  lemma IdParts(nodes: seq<Node>, droplets: Result<seq<Droplet>>)
    requires DropletIDs(nodes, droplets).Ok?
    ensures Collect(nodes, IdOf).Ok?
    ensures DropletIDs(nodes, droplets).value == Collect(nodes, IdOf).value + Scanned(Unidentified(nodes), droplets)
  {
  }

  /** Some droplet can stand for the node: it has a ProviderID, or a listed droplet
      carries its name as name or address. */
  ghost predicate Findable(node: Node, droplets: Result<seq<Droplet>>) {
    node.providerID != "" || (droplets.Ok? && exists d :: d in droplets.value && Matches(d, {node.name}))
  }

  /** One of the IDs is that of a droplet the node may stand for. */
  ghost predicate WrittenFor(node: Node, ids: seq<int>, droplets: Result<seq<Droplet>>) {
    exists id :: id in ids && StandsFor(node, id, droplets)
  }

  lemma {:induction false} NamedListed(droplets: seq<Droplet>, name: string)
    ensures Named(droplets, name).Some? ==> Named(droplets, name).value in droplets && Named(droplets, name).value.name == name
  {
    if droplets != [] {
      NamedListed(droplets[1..], name);
    }
  }

  /** Resolution finds a droplet for exactly the nodes that have one to find. */
  lemma WrittenIffFindable(nodes: seq<Node>, droplets: Result<seq<Droplet>>, n: Node)
    requires DropletIDs(nodes, droplets).Ok? && n in nodes
    ensures WrittenFor(n, DropletIDs(nodes, droplets).value, droplets) <==> Findable(n, droplets)
  {
    var ids := DropletIDs(nodes, droplets).value;
    NodesResolved(nodes, droplets, n);
    if n.providerID != "" {
      assert StandsFor(n, DropletID(n.providerID).value, droplets);
    } else {
      NamedListed(droplets.value, n.name);
      if d :| d in droplets.value && Matches(d, {n.name}) {
        var found := if Named(droplets.value, n.name).Some? then Named(droplets.value, n.name).value else d;
        assert StandsFor(n, found.id, droplets);
      }
    }
  }

  /** No ID at all is resolved exactly when no node has a droplet to find. */
  lemma NoIdsIff(nodes: seq<Node>, droplets: Result<seq<Droplet>>)
    requires DropletIDs(nodes, droplets).Ok?
    ensures DropletIDs(nodes, droplets).value == [] <==> forall n :: n in nodes ==> !Findable(n, droplets)
  {
    var ids := DropletIDs(nodes, droplets).value;
    DropletIDsMeaning(nodes, droplets);
    if ids != [] {
      assert ids[0] in ids;
      var n :| n in nodes && StandsFor(n, ids[0], droplets);
      assert Findable(n, droplets);
    } else {
      forall n | n in nodes ensures !Findable(n, droplets) {
        WrittenIffFindable(nodes, droplets, n);
      }
    }
  }

  /** Every resolved ID belongs to one of the nodes, every node with a ProviderID is
      resolved, and resolution is one to one when all nodes have one. */
  lemma DropletIDsMeaning(nodes: seq<Node>, droplets: Result<seq<Droplet>>)
    requires DropletIDs(nodes, droplets).Ok?
    ensures forall n :: n in nodes && n.providerID != "" ==>
              DropletID(n.providerID).Ok? && DropletID(n.providerID).value in DropletIDs(nodes, droplets).value
    ensures forall id :: id in DropletIDs(nodes, droplets).value ==> exists n :: n in nodes && StandsFor(n, id, droplets)
    ensures (forall n :: n in nodes ==> n.providerID != "") ==> |DropletIDs(nodes, droplets).value| == |nodes|
  {
    var ids := Collect(nodes, IdOf).value;
    forall n | n in nodes && n.providerID != "" ensures DropletID(n.providerID).Ok? && DropletID(n.providerID).value in ids {
      CollectHas(nodes, IdOf, n);
    }
    if forall n :: n in nodes ==> n.providerID != "" {
      CollectCount(nodes, IdOf);
      assert Unidentified(nodes) == {};
    }
    forall id | id in DropletIDs(nodes, droplets).value ensures exists n :: n in nodes && StandsFor(n, id, droplets) {
      if id in ids {
        var n := CollectOrigin(nodes, IdOf, id);
        assert StandsFor(n, id, droplets);
      } else {
        DiscoverMeaning(droplets.value, Unidentified(nodes), id);
        var d, name :| d in droplets.value && name in Unidentified(nodes) && d.id == id && Matches(d, {name});
        var n :| n in nodes && n.providerID == "" && n.name == name;
        assert StandsFor(n, id, droplets);
      }
    }
  }
}
