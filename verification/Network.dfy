/** The configured topology, and the search for links that lead towards a destination. */
module Network {
  import opened Types
  import opened Route
  import opened StableSort

  datatype Interface = Interface(addresses: seq<IpAddr>, routes: seq<Route>)

  datatype NodeSpec = NodeSpec(kind: NodeKind, bufferSize: nat, interfaces: seq<Interface>)

  datatype LinkSpec = LinkSpec(source: IpAddr, target: IpAddr, delay: Time, bandwidthBps: nat, extraDelay: Time)

  datatype SocketAddr = SocketAddr(ip: IpAddr, port: nat)

  const HOST_PORT: nat := 8080

  /**
   * The topology together with the lookup tables that initialisation derives from it. Only a
   * host's first address is a key of `nodesByAddr`.
   */
  datatype Config = Config(
    nodes: map<NodeId, NodeSpec>,
    links: map<LinkId, LinkSpec>,
    nodesByAddr: map<IpAddr, NodeId>,
    routesByAddr: map<IpAddr, seq<Route>>,
    linksByAddr: map<(IpAddr, IpAddr), LinkId>)

  function InterfaceAddresses(interfaces: seq<Interface>): seq<IpAddr> {
    if interfaces == [] then [] else interfaces[0].addresses + InterfaceAddresses(interfaces[1..])
  }

  function Addresses(n: NodeSpec): seq<IpAddr> {
    InterfaceAddresses(n.interfaces)
  }

  function Cost(r: Route): nat {
    r.cost
  }

  predicate Owns(c: Config, n: NodeId, a: IpAddr) {
    n in c.nodes && a in Addresses(c.nodes[n])
  }

  /** What initialisation checks or establishes before any packet moves. */
  ghost predicate ValidConfig(c: Config) {
    // no address belongs to two nodes
    && (forall n, m, a :: Owns(c, n, a) && Owns(c, m, a) ==> n == m)
    && (forall n :: n in c.nodes ==> Addresses(c.nodes[n]) != [])
    && (forall a :: a in c.nodesByAddr ==>
          c.nodesByAddr[a] in c.nodes && a in Addresses(c.nodes[c.nodesByAddr[a]]))
    // links join known addresses, and can send
    && (forall l :: l in c.links ==>
          && (exists n :: n in c.nodes && c.links[l].source in Addresses(c.nodes[n]))
          && c.links[l].target in c.nodesByAddr
          && c.links[l].bandwidthBps > 0)
    && (forall p :: p in c.linksByAddr ==>
          c.linksByAddr[p] in c.links && (c.links[c.linksByAddr[p]].source, c.links[c.linksByAddr[p]].target) == p)
    // every address has its routes, cheapest first
    && (forall n, a :: n in c.nodes && a in Addresses(c.nodes[n]) ==> a in c.routesByAddr)
    && (forall a :: a in c.routesByAddr ==> SortedBy(c.routesByAddr[a], Cost))
  }

  ghost function SourceNode(c: Config, l: LinkId): (n: NodeId)
    requires ValidConfig(c) && l in c.links
    ensures Owns(c, n, c.links[l].source)
  {
    var n :| n in c.nodes && c.links[l].source in Addresses(c.nodes[n]); n
  }

  function TargetNode(c: Config, l: LinkId): (n: NodeId)
    requires ValidConfig(c) && l in c.links
    ensures Owns(c, n, c.links[l].target)
  {
    c.nodesByAddr[c.links[l].target]
  }

  // ----- Walking the candidate links -----

  datatype ControlFlow<+T> = Continue | Break(value: T)

  function Lookup(c: Config, from: IpAddr, to: IpAddr): Option<LinkId> {
    if (from, to) in c.linksByAddr then Some(c.linksByAddr[(from, to)]) else None
  }

  /** First pass: links straight to the destination, one address of the node at a time. */
  function WalkDirect<T>(c: Config, addrs: seq<IpAddr>, dest: IpAddr, visit: LinkId -> ControlFlow<T>): Option<T> {
    if addrs == [] then None
    else
      var link := Lookup(c, addrs[0], dest);
      if link.Some? && visit(link.value).Break? then Some(visit(link.value).value)
      else WalkDirect(c, addrs[1..], dest, visit)
  }

  /** The links out of `addr` picked by the routes that match the destination. */
  function RoutedLinks(c: Config, addr: IpAddr, routes: seq<Route>, dest: IpAddr): seq<LinkId> {
    if routes == [] then []
    else
      var hop := NextHopTowards(routes[0], dest);
      var link := if hop.Some? then Lookup(c, addr, hop.value) else None;
      (if link.Some? then [link.value] else []) + RoutedLinks(c, addr, routes[1..], dest)
  }

  function VisitAll<T>(links: seq<LinkId>, visit: LinkId -> ControlFlow<T>): Option<T> {
    if links == [] then None
    else if visit(links[0]).Break? then Some(visit(links[0]).value)
    else VisitAll(links[1..], visit)
  }

  /** Second pass: links picked by routes, one address of the node at a time. */
  function WalkRouted<T>(c: Config, addrs: seq<IpAddr>, dest: IpAddr, visit: LinkId -> ControlFlow<T>): Option<T>
    requires forall a :: a in addrs ==> a in c.routesByAddr
  {
    if addrs == [] then None
    else
      var r := VisitAll(RoutedLinks(c, addrs[0], c.routesByAddr[addrs[0]], dest), visit);
      if r.Some? then r else WalkRouted(c, addrs[1..], dest, visit)
  }

  /** Visits candidate links until a visit breaks off with a value. */
  function WalkLinks<T>(c: Config, n: NodeId, dest: IpAddr, visit: LinkId -> ControlFlow<T>): Option<T>
    requires ValidConfig(c) && n in c.nodes
  {
    var addrs := Addresses(c.nodes[n]);
    var direct := WalkDirect(c, addrs, dest, visit);
    if direct.Some? then direct else WalkRouted(c, addrs, dest, visit)
  }

  predicate HasRouteTo(c: Config, n: NodeId, dest: IpAddr)
    requires ValidConfig(c) && n in c.nodes
  {
    WalkLinks(c, n, dest, l => Break(true)) == Some(true)
  }

  // ----- The list a walk that never breaks off goes through -----

  function DirectLinks(c: Config, addrs: seq<IpAddr>, dest: IpAddr): seq<LinkId> {
    if addrs == [] then []
    else
      var link := Lookup(c, addrs[0], dest);
      (if link.Some? then [link.value] else []) + DirectLinks(c, addrs[1..], dest)
  }

  function AllRoutedLinks(c: Config, addrs: seq<IpAddr>, dest: IpAddr): seq<LinkId>
    requires forall a :: a in addrs ==> a in c.routesByAddr
  {
    if addrs == [] then []
    else RoutedLinks(c, addrs[0], c.routesByAddr[addrs[0]], dest) + AllRoutedLinks(c, addrs[1..], dest)
  }

  /** The candidate links of a node towards a destination, preferred ones first. */
  function Candidates(c: Config, n: NodeId, dest: IpAddr): seq<LinkId>
    requires ValidConfig(c) && n in c.nodes
  {
    var addrs := Addresses(c.nodes[n]);
    DirectLinks(c, addrs, dest) + AllRoutedLinks(c, addrs, dest)
  }

  lemma {:induction false} VisitAllAppend<T>(a: seq<LinkId>, b: seq<LinkId>, visit: LinkId -> ControlFlow<T>)
    ensures VisitAll(a + b, visit) == (if VisitAll(a, visit).Some? then VisitAll(a, visit) else VisitAll(b, visit))
  {
    if a == [] {
      assert a + b == b;
    } else {
      assert (a + b)[1..] == a[1..] + b;
      VisitAllAppend(a[1..], b, visit);
    }
  }

  lemma {:induction false} WalkDirectVisitsList<T>(c: Config, addrs: seq<IpAddr>, dest: IpAddr,
                                                   visit: LinkId -> ControlFlow<T>)
    ensures WalkDirect(c, addrs, dest, visit) == VisitAll(DirectLinks(c, addrs, dest), visit)
  {
    if addrs != [] {
      WalkDirectVisitsList(c, addrs[1..], dest, visit);
      var link := Lookup(c, addrs[0], dest);
      VisitAllAppend(if link.Some? then [link.value] else [], DirectLinks(c, addrs[1..], dest), visit);
    }
  }

  lemma {:induction false} WalkRoutedVisitsList<T>(c: Config, addrs: seq<IpAddr>, dest: IpAddr,
                                                   visit: LinkId -> ControlFlow<T>)
    requires forall a :: a in addrs ==> a in c.routesByAddr
    ensures WalkRouted(c, addrs, dest, visit) == VisitAll(AllRoutedLinks(c, addrs, dest), visit)
  {
    if addrs != [] {
      WalkRoutedVisitsList(c, addrs[1..], dest, visit);
      VisitAllAppend(RoutedLinks(c, addrs[0], c.routesByAddr[addrs[0]], dest),
                     AllRoutedLinks(c, addrs[1..], dest), visit);
    }
  }

  /** Links are visited in turn until one breaks off. */
  lemma {:induction false} FirstBreakEnds<T>(links: seq<LinkId>, visit: LinkId -> ControlFlow<T>)
    ensures VisitAll(links, visit).None? <==> forall i :: 0 <= i < |links| ==> visit(links[i]).Continue?
    ensures VisitAll(links, visit).Some? ==> BreaksAt(links, visit, VisitAll(links, visit).value)
  {
    if links != [] {
      FirstBreakEnds(links[1..], visit);
      if visit(links[0]).Continue? && VisitAll(links, visit).Some? {
        var k :| 0 <= k < |links[1..]| && IsFirstBreak(links[1..], visit, k, VisitAll(links, visit).value);
        assert IsFirstBreak(links, visit, k + 1, VisitAll(links, visit).value);
      } else if visit(links[0]).Break? {
        assert IsFirstBreak(links, visit, 0, visit(links[0]).value);
      }
    }
  }

  predicate IsFirstBreak<T(==)>(links: seq<LinkId>, visit: LinkId -> ControlFlow<T>, k: nat, v: T) {
    && k < |links| && visit(links[k]) == Break(v)
    && forall i :: 0 <= i < k ==> visit(links[i]).Continue?
  }

  ghost predicate BreaksAt<T>(links: seq<LinkId>, visit: LinkId -> ControlFlow<T>, v: T) {
    exists k :: 0 <= k < |links| && IsFirstBreak(links, visit, k, v)
  }

  lemma WalkVisitsAll<T>(c: Config, n: NodeId, dest: IpAddr, visit: LinkId -> ControlFlow<T>)
    requires ValidConfig(c) && n in c.nodes
    ensures WalkLinks(c, n, dest, visit) == VisitAll(Candidates(c, n, dest), visit)
  {
    var addrs := Addresses(c.nodes[n]);
    WalkDirectVisitsList(c, addrs, dest, visit);
    WalkRoutedVisitsList(c, addrs, dest, visit);
    VisitAllAppend(DirectLinks(c, addrs, dest), AllRoutedLinks(c, addrs, dest), visit);
  }

  /** A walk ends with the value of the first candidate link whose visit breaks off, if there is one, whatever the visit does. */
  lemma WalkVisitsCandidates<T>(c: Config, n: NodeId, dest: IpAddr, visit: LinkId -> ControlFlow<T>)
    requires ValidConfig(c) && n in c.nodes
    ensures WalkLinks(c, n, dest, visit).None? <==> forall l :: l in Candidates(c, n, dest) ==> visit(l).Continue?
    ensures WalkLinks(c, n, dest, visit).Some? ==>
      BreaksAt(Candidates(c, n, dest), visit, WalkLinks(c, n, dest, visit).value)
  {
    hide ValidConfig, Candidates, WalkLinks;
    WalkVisitsAll(c, n, dest, visit);
    FirstBreakEnds(Candidates(c, n, dest), visit);
  }

  /** There is a route exactly when the full walk finds some link. */
  lemma HasRouteIffCandidates(c: Config, n: NodeId, dest: IpAddr)
    requires ValidConfig(c) && n in c.nodes
    ensures HasRouteTo(c, n, dest) <==> Candidates(c, n, dest) != []
  {
    WalkVisitsAll(c, n, dest, l => Break(true));
  }

  // ----- What the candidate list contains, and in which order -----

  lemma {:induction false} DirectLinksLead(c: Config, addrs: seq<IpAddr>, dest: IpAddr)
    requires ValidConfig(c)
    ensures forall l :: l in DirectLinks(c, addrs, dest) <==>
      exists a :: a in addrs && (a, dest) in c.linksByAddr && c.linksByAddr[(a, dest)] == l
  {
    if addrs != [] {
      DirectLinksLead(c, addrs[1..], dest);
      forall a | a in addrs
        ensures a == addrs[0] || a in addrs[1..]
      {
      }
    }
  }

  /** A route that matches the destination and whose next hop is behind link `l`. */
  predicate Routes(c: Config, addr: IpAddr, r: Route, dest: IpAddr, l: LinkId) {
    Contains(r.destination, dest) && (addr, r.next) in c.linksByAddr && c.linksByAddr[(addr, r.next)] == l
  }

  /** The routes of a list that match and lead somewhere, in order. */
  function MatchingRoutes(c: Config, addr: IpAddr, routes: seq<Route>, dest: IpAddr): seq<Route> {
    if routes == [] then []
    else
      var rest := MatchingRoutes(c, addr, routes[1..], dest);
      if Contains(routes[0].destination, dest) && (addr, routes[0].next) in c.linksByAddr then [routes[0]] + rest
      else rest
  }

  lemma {:induction false} MatchingRoutesAre(c: Config, addr: IpAddr, routes: seq<Route>, dest: IpAddr)
    ensures forall r :: r in MatchingRoutes(c, addr, routes, dest) <==>
      r in routes && Contains(r.destination, dest) && (addr, r.next) in c.linksByAddr
  {
    hide Contains;
    if routes != [] {
      MatchingRoutesAre(c, addr, routes[1..], dest);
    }
  }

  lemma CheapestFirst(first: Route, rest: seq<Route>, some: seq<Route>)
    requires SortedBy([first] + rest, Cost) && SortedBy(some, Cost) && forall r :: r in some ==> r in rest
    ensures SortedBy([first] + some, Cost)
  {
    var all := [first] + rest;
    forall i | 0 <= i < |some|
      ensures Cost(first) <= Cost(some[i])
    {
      assert some[i] in rest;
      var j :| 0 <= j < |rest| && rest[j] == some[i];
      assert all[j + 1] == some[i] && all[0] == first;
    }
  }

  lemma {:induction false} MatchingRoutesSorted(c: Config, addr: IpAddr, routes: seq<Route>, dest: IpAddr)
    requires SortedBy(routes, Cost)
    ensures SortedBy(MatchingRoutes(c, addr, routes, dest), Cost)
  {
    hide Contains;
    if routes != [] {
      MatchingRoutesSorted(c, addr, routes[1..], dest);
      MatchingRoutesAre(c, addr, routes[1..], dest);
      assert [routes[0]] + routes[1..] == routes;
      CheapestFirst(routes[0], routes[1..], MatchingRoutes(c, addr, routes[1..], dest));
    }
  }

  /** Route by route, the links that these routes lead over. */
  ghost predicate LeadOver(c: Config, addr: IpAddr, picked: seq<Route>, dest: IpAddr, links: seq<LinkId>) {
    |picked| == |links| && forall i :: 0 <= i < |picked| ==> Routes(c, addr, picked[i], dest, links[i])
  }

  lemma OneMoreLeads(c: Config, addr: IpAddr, picked: seq<Route>, dest: IpAddr, links: seq<LinkId>, r: Route, l: LinkId)
    requires LeadOver(c, addr, picked, dest, links) && Routes(c, addr, r, dest, l)
    ensures LeadOver(c, addr, [r] + picked, dest, [l] + links)
  {
    hide Routes;
  }

  lemma {:induction false} LinksOfMatchingRoutes(c: Config, addr: IpAddr, routes: seq<Route>, dest: IpAddr)
    ensures LeadOver(c, addr, MatchingRoutes(c, addr, routes, dest), dest, RoutedLinks(c, addr, routes, dest))
  {
    hide Contains;
    if routes == [] {
      hide Routes;
    } else {
      hide LeadOver;
      LinksOfMatchingRoutes(c, addr, routes[1..], dest);
      var picked, links := MatchingRoutes(c, addr, routes[1..], dest), RoutedLinks(c, addr, routes[1..], dest);
      var r := routes[0];
      assert [] + links == links;
      if Contains(r.destination, dest) && (addr, r.next) in c.linksByAddr {
        OneMoreLeads(c, addr, picked, dest, links, r, c.linksByAddr[(addr, r.next)]);
      }
    }
  }

  /**
   * Each link picked by the routes of an address comes from a matching route, every matching route
   * with a link contributes its link, and the links come in nondecreasing cost of their routes.
   */
  lemma RoutedLinksByCost(c: Config, addr: IpAddr, routes: seq<Route>, dest: IpAddr)
    returns (picked: seq<Route>)
    requires SortedBy(routes, Cost)
    ensures |picked| == |RoutedLinks(c, addr, routes, dest)| && SortedBy(picked, Cost)
    ensures forall i :: 0 <= i < |picked| ==>
      picked[i] in routes && Routes(c, addr, picked[i], dest, RoutedLinks(c, addr, routes, dest)[i])
    ensures forall r, l :: r in routes && Routes(c, addr, r, dest, l) ==> r in picked
  {
    hide Contains, MatchingRoutes, RoutedLinks;
    picked := MatchingRoutes(c, addr, routes, dest);
    MatchingRoutesAre(c, addr, routes, dest);
    MatchingRoutesSorted(c, addr, routes, dest);
    LinksOfMatchingRoutes(c, addr, routes, dest);
  }

  lemma {:induction false} AllRoutedLinksLead(c: Config, addrs: seq<IpAddr>, dest: IpAddr)
    requires ValidConfig(c)
    requires forall a :: a in addrs ==> a in c.routesByAddr
    ensures forall l :: l in AllRoutedLinks(c, addrs, dest) ==> l in c.links && c.links[l].source in addrs
  {
    if addrs != [] {
      AllRoutedLinksLead(c, addrs[1..], dest);
      var picked := RoutedLinksByCost(c, addrs[0], c.routesByAddr[addrs[0]], dest);
    }
  }

  /** Every candidate link starts at one of the node's own addresses, so the node is its sender. */
  lemma CandidatesStartHere(c: Config, n: NodeId, dest: IpAddr)
    requires ValidConfig(c) && n in c.nodes
    ensures forall l :: l in Candidates(c, n, dest) ==>
      l in c.links && c.links[l].source in Addresses(c.nodes[n]) && SourceNode(c, l) == n
  {
    var addrs := Addresses(c.nodes[n]);
    DirectLinksLead(c, addrs, dest);
    AllRoutedLinksLead(c, addrs, dest);
    forall l | l in Candidates(c, n, dest)
      ensures l in c.links && c.links[l].source in addrs && SourceNode(c, l) == n
    {
      assert Owns(c, n, c.links[l].source);
    }
  }

  // ----- All candidates, in order -----

  /** A way to a destination: straight from one of the node's addresses, or by a route of one. */
  datatype Way = Straight(address: nat) | ByRoute(address: nat, route: nat)

  /** The way exists and begins with link `l`. */
  predicate Leads(c: Config, addrs: seq<IpAddr>, dest: IpAddr, w: Way, l: LinkId) {
    && w.address < |addrs|
    && match w
       case Straight(i) => (addrs[i], dest) in c.linksByAddr && c.linksByAddr[(addrs[i], dest)] == l
       case ByRoute(i, j) =>
         && addrs[i] in c.routesByAddr && j < |c.routesByAddr[addrs[i]]|
         && Routes(c, addrs[i], c.routesByAddr[addrs[i]][j], dest, l)
  }

  /** Straight ways first, each kind by address, and the ways from an address by the place of their routes. */
  predicate Sooner(v: Way, w: Way) {
    match (v, w)
    case (Straight(i), Straight(k)) => i < k
    case (Straight(_), ByRoute(_, _)) => true
    case (ByRoute(_, _), Straight(_)) => false
    case (ByRoute(i, j), ByRoute(k, m)) => i < k || (i == k && j < m)
  }

  ghost predicate InTurn(ways: seq<Way>) {
    forall k, m :: 0 <= k < m < |ways| ==> Sooner(ways[k], ways[m])
  }

  /** Way by way, the links that they begin with. */
  ghost predicate AllLead(c: Config, addrs: seq<IpAddr>, dest: IpAddr, ways: seq<Way>, links: seq<LinkId>) {
    |ways| == |links| && forall k :: 0 <= k < |ways| ==> Leads(c, addrs, dest, ways[k], links[k])
  }

  lemma AllLeadAppend(c: Config, addrs: seq<IpAddr>, dest: IpAddr, v: seq<Way>, w: seq<Way>, a: seq<LinkId>, b: seq<LinkId>)
    requires AllLead(c, addrs, dest, v, a) && AllLead(c, addrs, dest, w, b) && InTurn(v) && InTurn(w)
    requires forall x, y :: x in v && y in w ==> Sooner(x, y)
    ensures AllLead(c, addrs, dest, v + w, a + b) && InTurn(v + w)
  {
    hide Leads, Sooner;
  }

  /** The straight ways from address `from` on. */
  lemma {:induction false} StraightWays(c: Config, addrs: seq<IpAddr>, from: nat, dest: IpAddr) returns (ways: seq<Way>)
    requires from <= |addrs|
    ensures AllLead(c, addrs, dest, ways, DirectLinks(c, addrs[from..], dest)) && InTurn(ways)
    ensures forall w :: w in ways <==> w.Straight? && from <= w.address && exists l :: Leads(c, addrs, dest, w, l)
    decreases |addrs| - from
  {
    ways := [];
    if from < |addrs| {
      var rest := StraightWays(c, addrs, from + 1, dest);
      assert addrs[from..][1..] == addrs[from + 1..];
      var here := if (addrs[from], dest) in c.linksByAddr then [Straight(from)] else [];
      var l := if (addrs[from], dest) in c.linksByAddr then [c.linksByAddr[(addrs[from], dest)]] else [];
      ways := here + rest;
      AllLeadAppend(c, addrs, dest, here, rest, l, DirectLinks(c, addrs[from + 1..], dest));
    }
  }

  /** The ways by the routes of address `at`, from its route `from` on. */
  lemma {:induction false} WaysByRoutes(c: Config, addrs: seq<IpAddr>, at: nat, from: nat, dest: IpAddr)
    returns (ways: seq<Way>)
    requires at < |addrs| && addrs[at] in c.routesByAddr && from <= |c.routesByAddr[addrs[at]]|
    ensures AllLead(c, addrs, dest, ways, RoutedLinks(c, addrs[at], c.routesByAddr[addrs[at]][from..], dest)) && InTurn(ways)
    ensures forall w :: w in ways <==>
      w.ByRoute? && w.address == at && from <= w.route && exists l :: Leads(c, addrs, dest, w, l)
    decreases |c.routesByAddr[addrs[at]]| - from
  {
    ways := [];
    var routes := c.routesByAddr[addrs[at]];
    if from < |routes| {
      var rest := WaysByRoutes(c, addrs, at, from + 1, dest);
      assert routes[from..][1..] == routes[from + 1..];
      var r := routes[from];
      var leads := Contains(r.destination, dest) && (addrs[at], r.next) in c.linksByAddr;
      var here := if leads then [ByRoute(at, from)] else [];
      var l := if leads then [c.linksByAddr[(addrs[at], r.next)]] else [];
      hide Contains;
      ways := here + rest;
      AllLeadAppend(c, addrs, dest, here, rest, l, RoutedLinks(c, addrs[at], routes[from + 1..], dest));
    }
  }

  /** The ways by the routes of all addresses from `from` on. */
  lemma {:induction false} RoutedWays(c: Config, addrs: seq<IpAddr>, from: nat, dest: IpAddr) returns (ways: seq<Way>)
    requires from <= |addrs| && forall a :: a in addrs ==> a in c.routesByAddr
    ensures AllLead(c, addrs, dest, ways, AllRoutedLinks(c, addrs[from..], dest)) && InTurn(ways)
    ensures forall w :: w in ways <==> w.ByRoute? && from <= w.address && exists l :: Leads(c, addrs, dest, w, l)
    decreases |addrs| - from
  {
    ways := [];
    if from < |addrs| {
      var rest := RoutedWays(c, addrs, from + 1, dest);
      var here := WaysByRoutes(c, addrs, from, 0, dest);
      var routes := c.routesByAddr[addrs[from]];
      assert addrs[from..][1..] == addrs[from + 1..] && routes[0..] == routes;
      ways := here + rest;
      hide Leads;
      AllLeadAppend(c, addrs, dest, here, rest, RoutedLinks(c, addrs[from], routes, dest),
                    AllRoutedLinks(c, addrs[from + 1..], dest));
    }
  }

  /**
   * The candidate links of a node towards a destination are the first links of all ways there are
   * from any of its addresses, each way once: the straight ones by address, then those by routes,
   * by address and for each address in the order of its routes, which is that of their cost.
   */
  lemma CandidatesInOrder(c: Config, n: NodeId, dest: IpAddr) returns (ways: seq<Way>)
    requires ValidConfig(c) && n in c.nodes
    ensures var addrs := Addresses(c.nodes[n]);
      && AllLead(c, addrs, dest, ways, Candidates(c, n, dest)) && InTurn(ways)
      && (forall w, l :: Leads(c, addrs, dest, w, l) ==> w in ways)
      && (forall a :: a in addrs ==> a in c.routesByAddr && SortedBy(c.routesByAddr[a], Cost))
  {
    var addrs := Addresses(c.nodes[n]);
    var straight := StraightWays(c, addrs, 0, dest);
    var routed := RoutedWays(c, addrs, 0, dest);
    assert addrs[0..] == addrs;
    ways := straight + routed;
    hide Leads;
    AllLeadAppend(c, addrs, dest, straight, routed, DirectLinks(c, addrs, dest), AllRoutedLinks(c, addrs, dest));
  }

  /** A link is a candidate exactly if it is first on some way from some address of the node. */
  lemma CandidatesAre(c: Config, n: NodeId, dest: IpAddr, l: LinkId)
    requires ValidConfig(c) && n in c.nodes
    ensures l in Candidates(c, n, dest) <==> exists a :: a in Addresses(c.nodes[n]) && LeadsFrom(c, a, dest, l)
  {
    hide ValidConfig, Candidates, Addresses, Routes, InTurn;
    var addrs := Addresses(c.nodes[n]);
    var ways := CandidatesInOrder(c, n, dest);
    if l in Candidates(c, n, dest) {
      var k :| 0 <= k < |ways| && Candidates(c, n, dest)[k] == l;
      assert Leads(c, addrs, dest, ways[k], l);
      assert LeadsFrom(c, addrs[ways[k].address], dest, l);
    }
    if exists a :: a in addrs && LeadsFrom(c, a, dest, l) {
      var a :| a in addrs && LeadsFrom(c, a, dest, l);
      var w := WayFrom(c, addrs, a, dest, l);
      var k :| 0 <= k < |ways| && ways[k] == w;
      LeadsOnce(c, addrs, dest, w, l, Candidates(c, n, dest)[k]);
    }
  }

  /** The link goes from the address straight to the destination, or to the next hop of a route of the address that matches. */
  predicate LeadsFrom(c: Config, a: IpAddr, dest: IpAddr, l: LinkId) {
    || ((a, dest) in c.linksByAddr && c.linksByAddr[(a, dest)] == l)
    || (a in c.routesByAddr && exists r :: r in c.routesByAddr[a] && Routes(c, a, r, dest, l))
  }

  lemma LeadsOnce(c: Config, addrs: seq<IpAddr>, dest: IpAddr, w: Way, l: LinkId, m: LinkId)
    requires Leads(c, addrs, dest, w, l) && Leads(c, addrs, dest, w, m)
    ensures l == m
  {
    hide Contains;
  }

  lemma WayFrom(c: Config, addrs: seq<IpAddr>, a: IpAddr, dest: IpAddr, l: LinkId) returns (w: Way)
    requires a in addrs && LeadsFrom(c, a, dest, l)
    ensures Leads(c, addrs, dest, w, l)
  {
    hide Routes;
    var i :| 0 <= i < |addrs| && addrs[i] == a;
    if (a, dest) in c.linksByAddr && c.linksByAddr[(a, dest)] == l {
      w := Straight(i);
    } else {
      var r :| r in c.routesByAddr[a] && Routes(c, a, r, dest, l);
      var j :| 0 <= j < |c.routesByAddr[a]| && c.routesByAddr[a][j] == r;
      w := ByRoute(i, j);
    }
  }

  /** There is a route exactly if some link leads from some address of the node. */
  lemma HasRouteIff(c: Config, n: NodeId, dest: IpAddr)
    requires ValidConfig(c) && n in c.nodes
    ensures HasRouteTo(c, n, dest) <==> exists a, l :: a in Addresses(c.nodes[n]) && LeadsFrom(c, a, dest, l)
  {
    hide ValidConfig, Candidates, Addresses, LeadsFrom;
    HasRouteIffCandidates(c, n, dest);
    var links := Candidates(c, n, dest);
    if links != [] {
      CandidatesAre(c, n, dest, links[0]);
    }
    if exists a, l :: a in Addresses(c.nodes[n]) && LeadsFrom(c, a, dest, l) {
      var a, l :| a in Addresses(c.nodes[n]) && LeadsFrom(c, a, dest, l);
      CandidatesAre(c, n, dest, l);
    }
  }

  // ----- The addresses of a node -----

  /** Where an address stands: at which interface, and which of its addresses it is. */
  datatype Spot = Spot(interface: nat, address: nat)

  predicate IsSpot(interfaces: seq<Interface>, p: Spot) {
    p.interface < |interfaces| && p.address < |interfaces[p.interface].addresses|
  }

  predicate SoonerSpot(p: Spot, q: Spot) {
    p.interface < q.interface || (p.interface == q.interface && p.address < q.address)
  }

  /** Spot by spot, the addresses that stand there. */
  ghost predicate StandAt(interfaces: seq<Interface>, spots: seq<Spot>, addrs: seq<IpAddr>) {
    && |spots| == |addrs|
    && (forall k :: 0 <= k < |spots| ==>
          && IsSpot(interfaces, spots[k])
          && addrs[k] == interfaces[spots[k].interface].addresses[spots[k].address])
    && (forall k, m :: 0 <= k < m < |spots| ==> SoonerSpot(spots[k], spots[m]))
  }

  function FirstSpots(count: nat): seq<Spot> {
    seq(count, j requires 0 <= j < count => Spot(0, j))
  }

  function PushedBack(spots: seq<Spot>): seq<Spot> {
    seq(|spots|, k requires 0 <= k < |spots| => Spot(spots[k].interface + 1, spots[k].address))
  }

  lemma FirstStand(interfaces: seq<Interface>)
    requires interfaces != []
    ensures StandAt(interfaces, FirstSpots(|interfaces[0].addresses|), interfaces[0].addresses)
  {
  }

  lemma PushedStand(interfaces: seq<Interface>, spots: seq<Spot>, addrs: seq<IpAddr>)
    requires interfaces != [] && StandAt(interfaces[1..], spots, addrs)
    ensures StandAt(interfaces, PushedBack(spots), addrs)
  {
  }

  lemma StandAppend(interfaces: seq<Interface>, p: seq<Spot>, q: seq<Spot>, a: seq<IpAddr>, b: seq<IpAddr>)
    requires StandAt(interfaces, p, a) && StandAt(interfaces, q, b)
    requires forall x, y :: x in p && y in q ==> SoonerSpot(x, y)
    ensures StandAt(interfaces, p + q, a + b)
  {
    hide IsSpot, SoonerSpot;
  }

  /** With one more interface before the others. */
  lemma OneMoreInterface(interfaces: seq<Interface>, rest: seq<Spot>) returns (spots: seq<Spot>)
    requires interfaces != [] && StandAt(interfaces[1..], rest, InterfaceAddresses(interfaces[1..]))
    ensures StandAt(interfaces, spots, InterfaceAddresses(interfaces))
    ensures forall j :: 0 <= j < |interfaces[0].addresses| ==> Spot(0, j) in spots
    ensures forall p :: p in rest ==> Spot(p.interface + 1, p.address) in spots
  {
    hide StandAt;
    var first := interfaces[0].addresses;
    var here, later := FirstSpots(|first|), PushedBack(rest);
    FirstStand(interfaces);
    PushedStand(interfaces, rest, InterfaceAddresses(interfaces[1..]));
    StandAppend(interfaces, here, later, first, InterfaceAddresses(interfaces[1..]));
    spots := here + later;
    assert forall j :: 0 <= j < |first| ==> here[j] == Spot(0, j);
    assert forall k :: 0 <= k < |rest| ==> later[k] == Spot(rest[k].interface + 1, rest[k].address);
  }

  /** A node's addresses are those of all its interfaces, by interface and then as the interface lists them. */
  lemma {:induction false} AddressesInOrder(interfaces: seq<Interface>) returns (spots: seq<Spot>)
    ensures StandAt(interfaces, spots, InterfaceAddresses(interfaces))
    ensures forall p :: IsSpot(interfaces, p) ==> p in spots
  {
    spots := [];
    if interfaces != [] {
      hide StandAt, InterfaceAddresses;
      var rest := AddressesInOrder(interfaces[1..]);
      spots := OneMoreInterface(interfaces, rest);
      forall p | IsSpot(interfaces, p)
        ensures p in spots
      {
        if p.interface > 0 {
          assert IsSpot(interfaces[1..], Spot(p.interface - 1, p.address));
        }
      }
    }
  }
}
