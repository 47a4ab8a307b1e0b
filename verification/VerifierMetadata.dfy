/** How the verifier gets from the network's specification to what it knows of its nodes and links. */
module VerifierMetadata {
  import opened Types
  import opened Route
  import opened Network
  import opened StableSort
  import opened Replay
  import opened Agreement
  import opened Verifier

  // The specification lists nodes and links; nothing keeps it from listing an id twice.
  datatype NodeEntry = NodeEntry(id: NodeId, spec: NodeSpec)
  datatype LinkEntry = LinkEntry(id: LinkId, spec: LinkSpec)

  datatype SpecError =
    | AddressOfTwoNodes(address: IpAddr, node: NodeId, existing: NodeId)
    | AddressOfNoNode(link: LinkId, address: IpAddr)

  datatype Result<+T> = Ok(value: T) | Err(error: SpecError)

  // ----- What the specification says -----

  predicate Uses(nodes: seq<NodeEntry>, a: IpAddr, n: NodeId) {
    exists i :: 0 <= i < |nodes| && nodes[i].id == n && a in Addresses(nodes[i].spec)
  }

  ghost predicate Unambiguous(nodes: seq<NodeEntry>) {
    forall a, m, n :: Uses(nodes, a, m) && Uses(nodes, a, n) ==> m == n
  }

  ghost predicate Used(nodes: seq<NodeEntry>, a: IpAddr) {
    exists n :: Uses(nodes, a, n)
  }

  ghost predicate Connected(nodes: seq<NodeEntry>, links: seq<LinkEntry>) {
    forall j :: 0 <= j < |links| ==> Used(nodes, links[j].spec.source) && Used(nodes, links[j].spec.target)
  }

  /** Of the entries with one id, the last one counts. */
  predicate LastNode(nodes: seq<NodeEntry>, i: nat) {
    i < |nodes| && forall j :: i < j < |nodes| ==> nodes[j].id != nodes[i].id
  }

  predicate LastLink(links: seq<LinkEntry>, i: nat) {
    i < |links| && forall j :: i < j < |links| ==> links[j].id != links[i].id
  }

  ghost predicate NodesDescribed(nodes: seq<NodeEntry>, hosts: set<NodeId>, bufferSizes: map<NodeId, nat>) {
    && (forall n :: n in hosts <==> exists i :: 0 <= i < |nodes| && nodes[i].id == n && nodes[i].spec.kind.Host?)
    && (forall n :: n in bufferSizes <==> exists i :: 0 <= i < |nodes| && nodes[i].id == n)
    && (forall i: nat :: LastNode(nodes, i) ==> bufferSizes[nodes[i].id] == nodes[i].spec.bufferSize)
  }

  ghost predicate LinksDescribed(nodes: seq<NodeEntry>, links: seq<LinkEntry>, metadata: map<LinkId, LinkMeta>) {
    && (forall l :: l in metadata <==> exists j :: 0 <= j < |links| && links[j].id == l)
    && (forall j: nat :: LastLink(links, j) ==>
          var m := metadata[links[j].id];
          && Uses(nodes, links[j].spec.source, m.source) && Uses(nodes, links[j].spec.target, m.target)
          && m.delay == links[j].spec.delay && m.bandwidthBps == links[j].spec.bandwidthBps)
  }

  ghost predicate Described(nodes: seq<NodeEntry>, links: seq<LinkEntry>, meta: Meta) {
    NodesDescribed(nodes, meta.hosts, meta.bufferSizes) && LinksDescribed(nodes, links, meta.links)
  }

  /** The error names something that is really wrong with the specification. */
  ghost predicate IsAtFault(nodes: seq<NodeEntry>, links: seq<LinkEntry>, e: SpecError) {
    match e
    case AddressOfTwoNodes(a, n, existing) => n != existing && Uses(nodes, a, n) && Uses(nodes, a, existing)
    case AddressOfNoNode(l, a) =>
      && !Used(nodes, a)
      && exists j :: 0 <= j < |links| && links[j].id == l && a in {links[j].spec.source, links[j].spec.target}
  }

  // ----- Reading it -----

  /** The table of addresses so far: the entries in `nodes`, and the first `k` addresses of one entry more. */
  ghost predicate TableOf(table: map<IpAddr, NodeId>, nodes: seq<NodeEntry>) {
    && (forall a :: a in table ==> Uses(nodes, a, table[a]))
    && (forall a, n :: Uses(nodes, a, n) ==> a in table && table[a] == n)
  }

  ghost predicate PartTableOf(table: map<IpAddr, NodeId>, nodes: seq<NodeEntry>, entry: NodeEntry, k: nat) {
    && k <= |Addresses(entry.spec)|
    && (forall a :: a in table ==> Uses(nodes, a, table[a]) || (a in Addresses(entry.spec)[..k] && table[a] == entry.id))
    && (forall a, n :: Uses(nodes, a, n) ==> a in table && table[a] == n)
    && (forall a :: a in Addresses(entry.spec)[..k] ==> a in table && table[a] == entry.id)
  }

  lemma UsesSnoc(nodes: seq<NodeEntry>, entry: NodeEntry, a: IpAddr, n: NodeId)
    ensures Uses(nodes + [entry], a, n) <==> Uses(nodes, a, n) || (entry.id == n && a in Addresses(entry.spec))
  {
    var all := nodes + [entry];
    assert all[|nodes|] == entry;
    assert forall i :: 0 <= i < |nodes| ==> all[i] == nodes[i];
    hide Addresses;
  }

  lemma UsesPrefix(nodes: seq<NodeEntry>, i: nat, a: IpAddr, n: NodeId)
    requires i <= |nodes| && Uses(nodes[..i], a, n)
    ensures Uses(nodes, a, n)
  {
    hide Addresses;
    var k :| 0 <= k < i && nodes[..i][k].id == n && a in Addresses(nodes[..i][k].spec);
    assert nodes[k] == nodes[..i][k];
  }

  lemma PartIsWhole(table: map<IpAddr, NodeId>, nodes: seq<NodeEntry>, entry: NodeEntry)
    requires PartTableOf(table, nodes, entry, |Addresses(entry.spec)|)
    ensures TableOf(table, nodes + [entry])
  {
    hide Addresses, Uses;
    assert Addresses(entry.spec)[..|Addresses(entry.spec)|] == Addresses(entry.spec);
    forall a, n
      ensures Uses(nodes + [entry], a, n) <==> Uses(nodes, a, n) || (entry.id == n && a in Addresses(entry.spec))
    {
      UsesSnoc(nodes, entry, a, n);
    }
  }

  /** Enters the addresses of one node, unless one of them is another node's already. */
  method AddAddresses(table: map<IpAddr, NodeId>, ghost nodes: seq<NodeEntry>, entry: NodeEntry)
    returns (r: Result<map<IpAddr, NodeId>>)
    requires TableOf(table, nodes)
    ensures r.Ok? ==> TableOf(r.value, nodes + [entry])
    ensures r.Err? ==> IsAtFault(nodes + [entry], [], r.error) && r.error.AddressOfTwoNodes?
  {
    hide Addresses, Uses;
    var addresses := Addresses(entry.spec);
    var t: map<IpAddr, NodeId> := table;
    for k := 0 to |addresses|
      invariant PartTableOf(t, nodes, entry, k)
    {
      var a := addresses[k];
      assert addresses[..k + 1] == addresses[..k] + [a];
      if a in t && t[a] != entry.id {
        UsesSnoc(nodes, entry, a, t[a]);
        UsesSnoc(nodes, entry, a, entry.id);
        return Err(AddressOfTwoNodes(a, entry.id, t[a]));
      }
      t := t[a := entry.id];
    }
    PartIsWhole(t, nodes, entry);
    r := Ok(t);
  }

  lemma NodesDescribedSnoc(nodes: seq<NodeEntry>, entry: NodeEntry, hosts: set<NodeId>, bufferSizes: map<NodeId, nat>)
    requires NodesDescribed(nodes, hosts, bufferSizes)
    ensures NodesDescribed(nodes + [entry], if entry.spec.kind.Host? then hosts + {entry.id} else hosts,
                           bufferSizes[entry.id := entry.spec.bufferSize])
  {
    var all := nodes + [entry];
    var hosts1 := if entry.spec.kind.Host? then hosts + {entry.id} else hosts;
    assert all[|nodes|] == entry;
    assert forall i :: 0 <= i < |nodes| ==> all[i] == nodes[i];
    forall i: nat | LastNode(all, i) && i < |nodes|
      ensures LastNode(nodes, i) && nodes[i].id != entry.id
    {
      assert forall j :: i < j < |nodes| ==> all[j] == nodes[j];
    }
  }

  lemma LinksDescribedSnoc(nodes: seq<NodeEntry>, links: seq<LinkEntry>, entry: LinkEntry,
                           metadata: map<LinkId, LinkMeta>, m: LinkMeta)
    requires LinksDescribed(nodes, links, metadata)
    requires Uses(nodes, entry.spec.source, m.source) && Uses(nodes, entry.spec.target, m.target)
    requires m.delay == entry.spec.delay && m.bandwidthBps == entry.spec.bandwidthBps
    ensures LinksDescribed(nodes, links + [entry], metadata[entry.id := m])
  {
    hide Uses;
    var all := links + [entry];
    assert all[|links|] == entry;
    assert forall i :: 0 <= i < |links| ==> all[i] == links[i];
    forall i: nat | LastLink(all, i) && i < |links|
      ensures LastLink(links, i) && links[i].id != entry.id
    {
      assert forall j :: i < j < |links| ==> all[j] == links[j];
    }
  }

  lemma FaultInPart(nodes: seq<NodeEntry>, i: nat, links: seq<LinkEntry>, e: SpecError)
    requires i <= |nodes| && e.AddressOfTwoNodes? && IsAtFault(nodes[..i], [], e)
    ensures IsAtFault(nodes, links, e)
  {
    hide Uses;
    UsesPrefix(nodes, i, e.address, e.node);
    UsesPrefix(nodes, i, e.address, e.existing);
  }

  lemma TableDecides(table: map<IpAddr, NodeId>, nodes: seq<NodeEntry>)
    requires TableOf(table, nodes)
    ensures Unambiguous(nodes) && forall a :: a in table <==> Used(nodes, a)
  {
    hide Uses;
  }

  lemma FaultsForbid(nodes: seq<NodeEntry>, links: seq<LinkEntry>, e: SpecError)
    requires IsAtFault(nodes, links, e)
    ensures !(Unambiguous(nodes) && Connected(nodes, links))
  {
    hide Uses;
  }

  method ReadNodes(nodes: seq<NodeEntry>)
    returns (r: Result<(set<NodeId>, map<NodeId, nat>, map<IpAddr, NodeId>)>)
    ensures r.Ok? ==> NodesDescribed(nodes, r.value.0, r.value.1) && TableOf(r.value.2, nodes)
    ensures r.Err? ==> IsAtFault(nodes, [], r.error) && r.error.AddressOfTwoNodes?
  {
    hide Uses, Addresses, NodesDescribed, TableOf, IsAtFault;
    var hosts: set<NodeId>, bufferSizes: map<NodeId, nat>, table: map<IpAddr, NodeId> := {}, map[], map[];
    NothingRead(nodes);
    for i := 0 to |nodes|
      invariant NodesDescribed(nodes[..i], hosts, bufferSizes) && TableOf(table, nodes[..i])
    {
      var entry := nodes[i];
      assert nodes[..i + 1] == nodes[..i] + [entry];
      NodesDescribedSnoc(nodes[..i], entry, hosts, bufferSizes);
      if entry.spec.kind.Host? {
        hosts := hosts + {entry.id};
      }
      bufferSizes := bufferSizes[entry.id := entry.spec.bufferSize];
      var added := AddAddresses(table, nodes[..i], entry);
      if added.Err? {
        FaultInPart(nodes, i + 1, [], added.error);
        return Err(added.error);
      }
      table := added.value;
    }
    assert nodes[..|nodes|] == nodes;
    r := Ok((hosts, bufferSizes, table));
  }

  lemma NothingRead(nodes: seq<NodeEntry>)
    ensures NodesDescribed(nodes[..0], {}, map[])
    ensures TableOf(map[], nodes[..0])
  {
    hide Addresses;
  }

  method ReadLinks(nodes: seq<NodeEntry>, links: seq<LinkEntry>, table: map<IpAddr, NodeId>)
    returns (r: Result<map<LinkId, LinkMeta>>)
    requires TableOf(table, nodes)
    ensures r.Ok? ==> LinksDescribed(nodes, links, r.value) && Connected(nodes, links)
    ensures r.Err? ==> IsAtFault(nodes, links, r.error)
  {
    hide Uses;
    TableDecides(table, nodes);
    hide LinksDescribed;
    var metadata: map<LinkId, LinkMeta> := map[];
    NoLinksRead(nodes, links);
    for j := 0 to |links|
      invariant LinksDescribed(nodes, links[..j], metadata)
      invariant Connected(nodes, links[..j])
    {
      var entry := links[j];
      assert links[..j + 1] == links[..j] + [entry];
      if entry.spec.source !in table {
        return Err(AddressOfNoNode(entry.id, entry.spec.source));
      }
      if entry.spec.target !in table {
        return Err(AddressOfNoNode(entry.id, entry.spec.target));
      }
      var m := LinkMeta(table[entry.spec.source], table[entry.spec.target], entry.spec.delay, entry.spec.bandwidthBps);
      LinksDescribedSnoc(nodes, links[..j], entry, metadata, m);
      metadata := metadata[entry.id := m];
    }
    assert links[..|links|] == links;
    r := Ok(metadata);
  }

  lemma NoLinksRead(nodes: seq<NodeEntry>, links: seq<LinkEntry>)
    ensures LinksDescribed(nodes, links[..0], map[])
  {
    hide Uses;
  }

  /** Reads the specification; it is accepted exactly if no two nodes share an address and no link hangs loose. */
  method ReadSpec(nodes: seq<NodeEntry>, links: seq<LinkEntry>) returns (r: Result<Meta>)
    ensures r.Ok? <==> Unambiguous(nodes) && Connected(nodes, links)
    ensures r.Ok? ==> Described(nodes, links, r.value)
    ensures r.Err? ==> IsAtFault(nodes, links, r.error)
  {
    hide Uses, NodesDescribed, LinksDescribed, TableOf;
    var read := ReadNodes(nodes);
    if read.Err? {
      FaultsForbid(nodes, [], read.error);
      return Err(read.error);
    }
    TableDecides(read.value.2, nodes);
    var metadata := ReadLinks(nodes, links, read.value.2);
    if metadata.Err? {
      FaultsForbid(nodes, links, metadata.error);
      return Err(metadata.error);
    }
    r := Ok(Meta(read.value.0, read.value.1, metadata.value));
  }

  /** The order in which a hash map of the nodes is visited: each id once. */
  ghost predicate ListsNodes(nodes: seq<NodeEntry>, order: seq<NodeId>) {
    && (forall n :: n in order <==> exists i :: 0 <= i < |nodes| && nodes[i].id == n)
    && (forall i, j :: 0 <= i < j < |order| ==> order[i] != order[j])
  }

  /** A verifier of these steps, ready to replay them, or what is wrong with the specification. */
  method NewVerifier(steps: seq<Step>, nodes: seq<NodeEntry>, links: seq<LinkEntry>, order: seq<NodeId>)
    returns (r: Result<SimulationVerifier>)
    requires ListsNodes(nodes, order)
    ensures r.Ok? <==> Unambiguous(nodes) && Connected(nodes, links)
    ensures r.Err? ==> IsAtFault(nodes, links, r.error)
    ensures r.Ok? ==>
      && fresh(r.value) && Described(nodes, links, r.value.Metadata()) && r.value.order == order
      && r.value.steps == SortBy(steps, StepTime) && TimeSorted(r.value.steps)
      && r.value.Laid() && r.value.View(Locals(map[], 0, None)) == InitialState(r.value.Metadata())
  {
    hide Unambiguous, Connected, LinksDescribed, Uses;
    var meta := ReadSpec(nodes, links);
    if meta.Err? {
      return Err(meta.error);
    }
    assert ValidOrder(meta.value, order);
    hide NodesDescribed, ListsNodes, ValidOrder;
    var verifier := new SimulationVerifier(steps, meta.value, order);
    r := Ok(verifier);
  }

  // ----- The simulator's topology, read by the verifier -----

  /** The lists have the nodes and links of the topology, each once. */
  ghost predicate Lists(c: Config, nodes: seq<NodeEntry>, links: seq<LinkEntry>) {
    && (forall n :: n in c.nodes <==> exists i :: 0 <= i < |nodes| && nodes[i].id == n)
    && (forall i :: 0 <= i < |nodes| ==>
          LastNode(nodes, i) && nodes[i].id in c.nodes && nodes[i].spec == c.nodes[nodes[i].id])
    && (forall l :: l in c.links <==> exists j :: 0 <= j < |links| && links[j].id == l)
    && (forall j :: 0 <= j < |links| ==>
          LastLink(links, j) && links[j].id in c.links && links[j].spec == c.links[links[j].id])
  }

  lemma UsesIsOwns(c: Config, nodes: seq<NodeEntry>, links: seq<LinkEntry>, a: IpAddr, n: NodeId)
    requires Lists(c, nodes, links)
    ensures Uses(nodes, a, n) <==> Owns(c, n, a)
  {
    hide Addresses, LastNode, LastLink;
    if Owns(c, n, a) {
      var i :| 0 <= i < |nodes| && nodes[i].id == n;
      assert a in Addresses(nodes[i].spec);
    }
  }

  lemma OwnersAreUnique(c: Config, n: NodeId, m: NodeId, a: IpAddr)
    requires ValidConfig(c) && Owns(c, n, a) && Owns(c, m, a)
    ensures n == m
  {
    hide Addresses;
  }

  /** The specification of a topology that the simulator accepts is accepted. */
  lemma TopologyIsAccepted(c: Config, nodes: seq<NodeEntry>, links: seq<LinkEntry>)
    requires ValidConfig(c) && Lists(c, nodes, links)
    ensures Unambiguous(nodes) && Connected(nodes, links)
  {
    forall a, m, n | Uses(nodes, a, m) && Uses(nodes, a, n)
      ensures m == n
    {
      UsesIsOwns(c, nodes, links, a, m);
      UsesIsOwns(c, nodes, links, a, n);
      OwnersAreUnique(c, m, n, a);
    }
    forall j | 0 <= j < |links|
      ensures Used(nodes, links[j].spec.source) && Used(nodes, links[j].spec.target)
    {
      var l := links[j].id;
      UsesIsOwns(c, nodes, links, c.links[l].source, SourceNode(c, l));
      UsesIsOwns(c, nodes, links, c.links[l].target, TargetNode(c, l));
    }
    hide ValidConfig, Addresses, Uses, LastNode, LastLink, SourceNode, TargetNode;
  }

  lemma SameNodes(c: Config, nodes: seq<NodeEntry>, links: seq<LinkEntry>, hosts: set<NodeId>,
                  bufferSizes: map<NodeId, nat>)
    requires ValidConfig(c) && Lists(c, nodes, links) && NodesDescribed(nodes, hosts, bufferSizes)
    ensures hosts == MetaOf(c).hosts && bufferSizes == MetaOf(c).bufferSizes
  {
    hide ValidConfig;
    forall n | n in c.nodes
      ensures n in bufferSizes && bufferSizes[n] == c.nodes[n].bufferSize && (n in hosts <==> c.nodes[n].kind.Host?)
    {
      var i: nat :| i < |nodes| && nodes[i].id == n;
      assert LastNode(nodes, i);
      assert forall j :: 0 <= j < |nodes| && nodes[j].id == n ==> nodes[j].spec == c.nodes[n];
    }
    assert forall n :: n in hosts ==> n in c.nodes;
  }

  lemma SameLinks(c: Config, nodes: seq<NodeEntry>, links: seq<LinkEntry>, metadata: map<LinkId, LinkMeta>)
    requires ValidConfig(c) && Lists(c, nodes, links) && LinksDescribed(nodes, links, metadata)
    ensures metadata == MetaOf(c).links
  {
    hide ValidConfig, Uses, SourceNode, TargetNode, LastNode;
    forall l | l in c.links
      ensures l in metadata && metadata[l] == MetaOf(c).links[l]
    {
      var j: nat :| j < |links| && links[j].id == l;
      assert LastLink(links, j);
      var m := metadata[l];
      UsesIsOwns(c, nodes, links, c.links[l].source, m.source);
      UsesIsOwns(c, nodes, links, c.links[l].target, m.target);
      OwnersAreUnique(c, m.source, SourceNode(c, l), c.links[l].source);
      OwnersAreUnique(c, m.target, TargetNode(c, l), c.links[l].target);
    }
  }

  /** What the verifier reads off the specification is what the simulator's topology calls for. */
  lemma TopologyIsReadBack(c: Config, nodes: seq<NodeEntry>, links: seq<LinkEntry>, meta: Meta)
    requires ValidConfig(c) && Lists(c, nodes, links) && Described(nodes, links, meta)
    ensures meta == MetaOf(c)
  {
    SameNodes(c, nodes, links, meta.hosts, meta.bufferSizes);
    SameLinks(c, nodes, links, meta.links);
    hide ValidConfig, Lists, NodesDescribed, LinksDescribed;
  }
}
