/**
 * The network simulator as a state machine. Its tasks run on one thread, so whatever a task does
 * between two await points is one step, and steps of different tasks interleave in any order.
 */
module Simulator {
  import opened Types
  import opened Route
  import opened Network
  import opened Status
  import Pacing

  /** The UDP and the shortest IP header: no packet is smaller. */
  const HEADER_BYTES: nat := 8 + 20

  datatype Packet = Packet(id: PacketId, number: nat, size: nat, destination: SocketAddr)

  /** What became of a packet in the node that a record describes. */
  datatype Fate =
    | Arriving                                               // being placed by `Forward`
    | AtApp                                                  // in a host's inbound queue
    | Read                                                   // handed to the application
    | Buffered                                               // reserved space, not yet handled by any link
    | Cleared                                                // found to predate a buffer clear; never released
    | Stranded                                               // claimed by a link task that then failed an assertion
    | InTransit(link: LinkId, sent: Time, arrival: Time)
    | Arrived                                                // at the far end of its link
    | LostInTransit
    | Dropped                                                // at random, or for lack of space
    | DroppedOnArrival                                       // came off a link while the node was down
    | Phantom                                                // created by a host that was down

  /** One stay of a packet in a node; the simulator's queues refer to records by their index. */
  datatype Record = Record(node: NodeId, packet: Packet, since: Time, fate: Fate)

  /** A buffered packet as one of its candidate links has it queued. */
  datatype Offer = Offer(record: nat, preferred: seq<LinkId>, extraDelay: Time)

  /** Where the task of a link awaits. */
  datatype Task =
    | Idle
    | Sleeping(offer: Offer, deadline: Time)
    | AwaitingLink(offer: Offer, notifier: nat)
    | AwaitingNode(offer: Offer, notifier: nat)
    | Yielded(offer: Offer)

  datatype SimNode = SimNode(status: StatusCell, lastBufferClear: Option<Time>, available: nat, outbound: seq<nat>)

  datatype SimLink = SimLink(
    status: StatusCell,
    lastDown: Option<Time>,
    sendDone: Option<Time>,
    queue: seq<Offer>,
    task: Task)

  datatype State = State(
    now: Time,
    nodes: map<NodeId, SimNode>,
    links: map<LinkId, SimLink>,
    log: seq<Record>,
    used: set<PacketId>,
    nextNumber: nat,
    trace: seq<Step>,
    crashed: bool)

  function Start(c: Config): State {
    State(0,
          map n | n in c.nodes :: SimNode(INITIALLY_UP, None, c.nodes[n].bufferSize, []),
          map l | l in c.links :: SimLink(INITIALLY_UP, None, None, [], Idle),
          [], {}, 0, [], false)
  }

  // ----- Helpers -----

  function Emit(s: State, kind: StepKind): State {
    s.(trace := s.trace + [Step(s.now, kind)])
  }

  function SetFate(s: State, i: nat, fate: Fate): State
    requires i < |s.log|
  {
    s.(log := s.log[i := s.log[i].(fate := fate)])
  }

  function SetTask(s: State, l: LinkId, task: Task): State
    requires l in s.links
  {
    s.(links := s.links[l := s.links[l].(task := task)])
  }

  predicate NodeUp(s: State, n: NodeId)
    requires n in s.nodes
  {
    s.nodes[n].status.status.Up?
  }

  predicate LinkUp(s: State, l: LinkId)
    requires l in s.links
  {
    s.links[l].status.status.Up?
  }

  // ----- Forwarding a packet into a node -----

  /** The outcome of the random roll; a duplicate comes with the fresh id it gets. */
  datatype Roll = Keep | Lose | Duplicate(id: PacketId)

  predicate IsEndpoint(c: Config, n: NodeId, destination: SocketAddr)
    requires ValidConfig(c) && n in c.nodes
  {
    c.nodes[n].kind.Host? && destination == SocketAddr(Addresses(c.nodes[n])[0], HOST_PORT)
  }

  /** A packet shows up in a node that is up, off a link (then `origin` is its record there) or newly made. */
  function Arrive(s: State, n: NodeId, p: Packet, origin: Option<nat>): State
    requires origin.Some? ==> origin.value < |s.log|
  {
    var s1 := if origin.Some? then SetFate(s, origin.value, Arrived) else s;
    Emit(s1.(log := s1.log + [Record(n, p, s.now, Arriving)]), PacketInNode(p.id, p.number, p.size, n, false))
  }

  function ArriveWhileDown(s: State, n: NodeId, p: Packet, origin: Option<nat>): State
    requires origin.Some? ==> origin.value < |s.log|
  {
    var s1 := if origin.Some? then SetFate(s, origin.value, Arrived) else s;
    var fate := if origin.Some? then DroppedOnArrival else Phantom;
    Emit(s1.(log := s1.log + [Record(n, p, s.now, fate)]), PacketInNode(p.id, p.number, p.size, n, true))
  }

  function ArriveDuplicate(s: State, n: NodeId, p: Packet): State {
    Emit(s.(log := s.log + [Record(n, p, s.now, Arriving)]), PacketDuplicated(p.id, p.number, p.size, n))
  }

  function Drop(s: State, i: nat, reason: DropReason): State
    requires i < |s.log|
  {
    Emit(SetFate(s, i, if reason.BufferCleared? then Cleared else Dropped),
         PacketDropped(s.log[i].packet.id, s.log[i].node, reason))
  }

  /** Takes the space in the node's outbound buffer and queues the packet for the node's task. */
  function Reserve(s: State, i: nat): State
    requires i < |s.log| && s.log[i].node in s.nodes
    requires s.log[i].packet.size <= s.nodes[s.log[i].node].available
  {
    var n := s.log[i].node;
    var node := s.nodes[n];
    SetFate(s, i, Buffered).(nodes := s.nodes[n :=
      node.(available := node.available - s.log[i].packet.size, outbound := node.outbound + [i])])
  }

  function EnqueueOutbound(s: State, i: nat): State
    requires i < |s.log| && s.log[i].node in s.nodes
  {
    if s.log[i].packet.size <= s.nodes[s.log[i].node].available then Reserve(s, i) else Drop(s, i, BufferFull)
  }

  function Place(c: Config, s: State, i: nat, roll: Roll): State
    requires ValidConfig(c) && i < |s.log| && s.log[i].node in s.nodes && s.log[i].node in c.nodes
  {
    var n := s.log[i].node;
    var p := s.log[i].packet;
    if IsEndpoint(c, n, p.destination) then SetFate(s, i, AtApp)
    else
      match roll
      case Lose => Drop(s, i, Random)
      case Keep => EnqueueOutbound(s, i)
      case Duplicate(id) =>
        var s1 := EnqueueOutbound(s, i);
        EnqueueOutbound(ArriveDuplicate(s1, n, p.(id := id)), |s.log|)
  }

  function Forward(c: Config, s: State, n: NodeId, p: Packet, roll: Roll, origin: Option<nat>): State
    requires ValidConfig(c) && n in s.nodes && n in c.nodes
    requires origin.Some? ==> origin.value < |s.log|
  {
    if !NodeUp(s, n) then ArriveWhileDown(s, n, p, origin)
    else Place(c, Arrive(s, n, p, origin), |s.log|, roll)
  }

  // ----- The task of a node: offer each buffered packet to every candidate link -----

  function OfferTo(s: State, l: LinkId, o: Offer): State
    requires l in s.links
  {
    s.(links := s.links[l := s.links[l].(queue := s.links[l].queue + [o])])
  }

  /** `slow` says for each link whether the packet is rolled an extra delay there. */
  function OfferAll(c: Config, s: State, i: nat, all: seq<LinkId>, links: seq<LinkId>, slow: seq<bool>): State
    requires |slow| == |links| && forall l :: l in links ==> l in s.links && l in c.links
    decreases |links|
  {
    if links == [] then s
    else
      var o := Offer(i, all, if slow[0] then c.links[links[0]].extraDelay else 0);
      OfferAll(c, OfferTo(s, links[0], o), i, all, links[1..], slow[1..])
  }

  function TakeOutbound(s: State, n: NodeId): State
    requires n in s.nodes && s.nodes[n].outbound != []
  {
    s.(nodes := s.nodes[n := s.nodes[n].(outbound := s.nodes[n].outbound[1..])])
  }

  // ----- The task of a link -----

  predicate PermitHeld(t: Task) {
    t.Sleeping? || t.AwaitingLink? || t.AwaitingNode?
  }

  predicate HasBandwidthAvailable(link: SimLink, now: Time) {
    !PermitHeld(link.task) && link.status.status.Up? && Pacing.CanSend(link.sendDone, now)
  }

  predicate Handled(s: State, o: Offer)
    requires o.record < |s.log|
  {
    !s.log[o.record].fate.Buffered?
  }

  predicate ClearedFromBuffer(s: State, r: Record)
    requires r.node in s.nodes
  {
    var clear := s.nodes[r.node].lastBufferClear;
    clear.Some? && r.since < clear.value
  }

  /** Puts the packet on the link: the pacer is set, the buffer space released. */
  function Transmit(c: Config, s: State, l: LinkId, o: Offer): State
    requires l in s.links && l in c.links && c.links[l].bandwidthBps > 0
    requires o.record < |s.log| && s.log[o.record].node in s.nodes
  {
    var r := s.log[o.record];
    var s1 := Emit(SetFate(s, o.record, InTransit(l, s.now, s.now + c.links[l].delay + o.extraDelay)),
                   PacketInTransit(r.packet.id, r.node, l));
    var done := Pacing.TrackSend(s.now, r.packet.size, c.links[l].bandwidthBps);
    s1.(links := s.links[l := s.links[l].(sendDone := done, task := Idle)],
        nodes := s.nodes[r.node := s.nodes[r.node].(available := s.nodes[r.node].available + r.packet.size)])
  }

  /** Claims the packet unless another link has it, then drops or sends it; `send` asserts that it can. */
  function Claim(c: Config, s: State, l: LinkId, o: Offer): State
    requires l in s.links && l in c.links && c.links[l].bandwidthBps > 0
    requires o.record < |s.log| && s.log[o.record].node in s.nodes
  {
    if Handled(s, o) then SetTask(s, l, Idle)
    else if ClearedFromBuffer(s, s.log[o.record]) then SetTask(Drop(s, o.record, BufferCleared), l, Idle)
    else if LinkUp(s, l) && Pacing.CanSend(s.links[l].sendDone, s.now) then Transmit(c, s, l, o)
    else SetTask(SetFate(s, o.record, Stranded), l, Idle).(crashed := true)
  }

  /** Lets each link that is preferred to this one have a go first. */
  function Prefer(c: Config, s: State, l: LinkId, o: Offer): State
    requires l in s.links && l in c.links && c.links[l].bandwidthBps > 0
    requires o.record < |s.log| && s.log[o.record].node in s.nodes
  {
    if o.preferred != [] && o.preferred[0] != l && !Handled(s, o)
    then SetTask(s, l, Yielded(o.(preferred := o.preferred[1..])))
    else Claim(c, s, l, o)
  }

  function TakeOffer(c: Config, s: State, l: LinkId): State
    requires l in s.links && l in c.links && c.links[l].bandwidthBps > 0 && s.links[l].queue != []
    requires s.links[l].queue[0].record < |s.log| && s.log[s.links[l].queue[0].record].node in s.nodes
  {
    var link := s.links[l];
    var o := link.queue[0];
    var s1 := s.(links := s.links[l := link.(queue := link.queue[1..])]);
    if HasBandwidthAvailable(link, s.now) then Prefer(c, s1, l, o)
    else SetTask(s1, l, Sleeping(o, s.now + Pacing.DurationUntilCanSend(link.sendDone, s.now)))
  }

  function AwaitNode(c: Config, s: State, l: LinkId, o: Offer): State
    requires l in s.links && l in c.links && c.links[l].bandwidthBps > 0
    requires o.record < |s.log| && s.log[o.record].node in s.nodes
  {
    var node := s.nodes[s.log[o.record].node];
    if node.status.status.Down? then SetTask(s, l, AwaitingNode(o, node.status.status.notifier))
    else if s.links[l].status.status.Down? then SetTask(s, l, AwaitingLink(o, s.links[l].status.status.notifier))
    else Prefer(c, s, l, o)
  }

  function AwaitLink(c: Config, s: State, l: LinkId, o: Offer): State
    requires l in s.links && l in c.links && c.links[l].bandwidthBps > 0
    requires o.record < |s.log| && s.log[o.record].node in s.nodes
  {
    if s.links[l].status.status.Down? then SetTask(s, l, AwaitingLink(o, s.links[l].status.status.notifier))
    else AwaitNode(c, s, l, o)
  }

  /** Whether what the task awaits has happened. Being handled elsewhere ends every wait but a yield. */
  predicate Ready(s: State, l: LinkId)
    requires l in s.links
    requires var t := s.links[l].task; !t.Idle? ==> t.offer.record < |s.log| && s.log[t.offer.record].node in s.nodes
  {
    var link := s.links[l];
    match link.task
    case Idle => false
    case Sleeping(o, deadline) => Handled(s, o) || deadline <= s.now
    case AwaitingLink(o, notifier) => Handled(s, o) || Fired(link.status, notifier)
    case AwaitingNode(o, notifier) => Handled(s, o) || Fired(s.nodes[s.log[o.record].node].status, notifier)
    case Yielded(o) => true
  }

  function Resume(c: Config, s: State, l: LinkId): State
    requires l in s.links && l in c.links && c.links[l].bandwidthBps > 0
    requires var t := s.links[l].task; !t.Idle? && t.offer.record < |s.log| && s.log[t.offer.record].node in s.nodes
  {
    var t := s.links[l].task;
    var o := t.offer;
    if t.Yielded? || Handled(s, o) then Prefer(c, s, l, o)
    else
      match t
      case Sleeping(_, _) => AwaitLink(c, s, l, o)
      case AwaitingLink(_, _) => AwaitNode(c, s, l, o)
      case AwaitingNode(_, _) => if LinkUp(s, l) then Prefer(c, s, l, o) else AwaitLink(c, s, l, o)
  }

  // ----- The far end of a link, the applications, and the configured events -----

  /** The packets on a link leave it in order of arrival time, then of packet number. */
  predicate FirstOff(s: State, l: LinkId, i: nat) {
    && i < |s.log| && s.log[i].fate.InTransit? && s.log[i].fate.link == l
    && (forall j :: 0 <= j < |s.log| && s.log[j].fate.InTransit? && s.log[j].fate.link == l ==>
          || s.log[i].fate.arrival < s.log[j].fate.arrival
          || (s.log[i].fate.arrival == s.log[j].fate.arrival && s.log[i].packet.number <= s.log[j].packet.number))
  }

  function Lost(s: State, l: LinkId, i: nat): State
    requires i < |s.log|
  {
    Emit(SetFate(s, i, LostInTransit), PacketLostInTransit(s.log[i].packet.id, l))
  }

  function Deliver(c: Config, s: State, l: LinkId, i: nat, roll: Roll): State
    requires ValidConfig(c) && l in c.links && l in s.links && TargetNode(c, l) in s.nodes
    requires i < |s.log| && s.log[i].fate.InTransit?
  {
    if After(s.links[l].lastDown, s.log[i].fate.sent) then Lost(s, l, i)
    else Forward(c, s, TargetNode(c, l), s.log[i].packet, roll, Some(i))
  }

  function ReadByHost(s: State, i: nat): State
    requires i < |s.log|
  {
    var r := s.log[i];
    Emit(SetFate(s, i, Read), PacketDeliveredToApplication(r.packet.id, r.packet.number, r.packet.size, r.node))
  }

  function ProcessLinkEvent(s: State, e: LinkEvent): State
    requires e.link in s.links
  {
    var link := s.links[e.link];
    var updated :=
      if e.status.None? then link
      else link.(status := UpdateStatus(link.status, e.status.value),
                 lastDown := EdgeTime(link.status, link.lastDown, e.status.value, s.now));
    Emit(s.(links := s.links[e.link := updated]), NetworkEvent(Some(e), None))
  }

  function ProcessNodeEvent(s: State, e: NodeEvent): State
    requires e.node in s.nodes
  {
    var node := s.nodes[e.node];
    var updated := node.(
      status := if e.status.None? then node.status else UpdateStatus(node.status, e.status.value),
      lastBufferClear := if e.clearBuffer then Some(s.now) else node.lastBufferClear);
    Emit(s.(nodes := s.nodes[e.node := updated]), NetworkEvent(None, Some(e)))
  }

  // ----- Runs -----

  datatype Action =
    | Tick(time: Time)
    | Create(node: NodeId, size: nat, id: PacketId, destination: SocketAddr, roll: Roll)
    | RunNodeTask(node: NodeId, slow: seq<bool>)
    | StartLinkTask(link: LinkId)
    | ResumeLinkTask(link: LinkId)
    | RunForwarder(link: LinkId, record: nat, roll: Roll)
    | AppRead(record: nat)
    | LinkChange(linkEvent: LinkEvent)
    | NodeChange(nodeEvent: NodeEvent)

  /** The queues refer to records of the right node, over links of the topology. */
  ghost predicate Sane(c: Config, s: State) {
    && s.nodes.Keys == c.nodes.Keys
    && s.links.Keys == c.links.Keys
    && (forall i :: 0 <= i < |s.log| ==> s.log[i].node in c.nodes)
    && (forall n, k :: n in s.nodes && 0 <= k < |s.nodes[n].outbound| ==>
          s.nodes[n].outbound[k] < |s.log| && s.log[s.nodes[n].outbound[k]].node == n)
    && (forall l, k :: l in s.links && 0 <= k < |s.links[l].queue| ==> SaneOffer(c, s.log, l, s.links[l].queue[k]))
    && (forall l :: l in s.links && !s.links[l].task.Idle? ==> SaneOffer(c, s.log, l, s.links[l].task.offer))
  }

  ghost predicate SaneOffer(c: Config, log: seq<Record>, l: LinkId, o: Offer) {
    && o.record < |log| && log[o.record].node in c.nodes
    && l in c.links && c.links[l].source in Addresses(c.nodes[log[o.record].node])
  }

  predicate FreshRoll(s: State, roll: Roll) {
    roll.Duplicate? ==> roll.id !in s.used
  }

  function RollIds(roll: Roll): set<PacketId> {
    if roll.Duplicate? then {roll.id} else {}
  }

  ghost predicate Enabled(c: Config, s: State, a: Action)
    requires ValidConfig(c) && Sane(c, s)
  {
    !s.crashed &&
    match a
    case Tick(t) => s.now <= t
    case Create(n, size, id, _, roll) =>
      && HEADER_BYTES <= size
      && n in c.nodes && c.nodes[n].kind.Host? && id !in s.used && FreshRoll(s, roll) && id !in RollIds(roll)
    case RunNodeTask(n, slow) =>
      && n in s.nodes && s.nodes[n].outbound != []
      && var links := Candidates(c, n, s.log[s.nodes[n].outbound[0]].packet.destination.ip);
         links != [] && |slow| == |links|
    case StartLinkTask(l) => l in s.links && s.links[l].task.Idle? && s.links[l].queue != []
    case ResumeLinkTask(l) => l in s.links && Ready(s, l)
    case RunForwarder(l, i, roll) =>
      l in s.links && FirstOff(s, l, i) && s.log[i].fate.arrival <= s.now && FreshRoll(s, roll)
    case AppRead(i) => i < |s.log| && s.log[i].fate.AtApp?
    case LinkChange(e) => e.link in s.links
    case NodeChange(e) => e.node in s.nodes
  }

  function CreatePacket(c: Config, s: State, n: NodeId, p: Packet, roll: Roll): State
    requires ValidConfig(c) && n in s.nodes && n in c.nodes
  {
    Forward(c, s.(used := s.used + {p.id} + RollIds(roll), nextNumber := s.nextNumber + 1), n, p, roll, None)
  }

  function OfferNext(c: Config, s: State, n: NodeId, slow: seq<bool>): State
    requires ValidConfig(c) && n in s.nodes && n in c.nodes && s.links.Keys == c.links.Keys
    requires s.nodes[n].outbound != [] && s.nodes[n].outbound[0] < |s.log|
    requires |slow| == |Candidates(c, n, s.log[s.nodes[n].outbound[0]].packet.destination.ip)|
  {
    var i := s.nodes[n].outbound[0];
    var links := Candidates(c, n, s.log[i].packet.destination.ip);
    CandidatesStartHere(c, n, s.log[i].packet.destination.ip);
    OfferAll(c, TakeOutbound(s, n), i, links, links, slow)
  }

  lemma QueuedOfferIsSane(c: Config, s: State, l: LinkId)
    requires Sane(c, s) && l in s.links && s.links[l].queue != []
    ensures SaneOffer(c, s.log, l, s.links[l].queue[0])
  {
  }

  lemma TaskOfferIsSane(c: Config, s: State, l: LinkId)
    requires Sane(c, s) && l in s.links && !s.links[l].task.Idle?
    ensures SaneOffer(c, s.log, l, s.links[l].task.offer)
  {
  }

  ghost function PerformOnLink(c: Config, s: State, a: Action): State
    requires ValidConfig(c) && Sane(c, s) && Enabled(c, s, a)
    requires a.StartLinkTask? || a.ResumeLinkTask? || a.RunForwarder?
  {
    assert c.links[a.link].bandwidthBps > 0;
    match a
    case StartLinkTask(l) =>
      QueuedOfferIsSane(c, s, l);
      TakeOffer(c, s, l)
    case ResumeLinkTask(l) =>
      TaskOfferIsSane(c, s, l);
      Resume(c, s, l)
    case RunForwarder(l, i, roll) => Deliver(c, s.(used := s.used + RollIds(roll)), l, i, roll)
  }

  ghost function Perform(c: Config, s: State, a: Action): State
    requires ValidConfig(c) && Sane(c, s) && Enabled(c, s, a)
  {
    match a
    case Tick(t) => s.(now := t)
    case Create(n, size, id, destination, roll) =>
      CreatePacket(c, s, n, Packet(id, s.nextNumber, size, destination), roll)
    case RunNodeTask(n, slow) => OfferNext(c, s, n, slow)
    case StartLinkTask(_) => PerformOnLink(c, s, a)
    case ResumeLinkTask(_) => PerformOnLink(c, s, a)
    case RunForwarder(_, _, _) => PerformOnLink(c, s, a)
    case AppRead(i) => ReadByHost(s, i)
    case LinkChange(e) => ProcessLinkEvent(s, e)
    case NodeChange(e) => ProcessNodeEvent(s, e)
  }
}
