/** Nodes and links as the objects they are, each tied to the values that the state machine works on. */
module Devices {
  import opened Types
  import opened Network
  import opened Status
  import Statuses = Status
  import opened InboundQueues
  import opened QueueContents
  import Simulator
  import Pacing

  type Packet = Simulator.Packet
  type Roll = Simulator.Roll

  class SimulationStepTracer {
    var recordedSteps: seq<Step>

    constructor ()
      ensures recordedSteps == []
    {
      recordedSteps := [];
    }

    method Record(kind: StepKind, now: Time)
      modifies this
      ensures recordedSteps == old(recordedSteps) + [Step(now, kind)]
    {
      recordedSteps := recordedSteps + [Step(now, kind)];
    }
  }

  // ----- Status and notifiers -----

  class OneShot {
    var fired: bool

    constructor ()
      ensures !fired
    {
      fired := false;
    }

    method Send()
      modifies this
      ensures fired
    {
      fired := true;
    }
  }

  datatype LiveStatus = LiveUp | LiveDown(upTx: OneShot)

  /** The status of a link or a node. Whoever waits for it to come up holds one of the notifiers made so far. */
  class NotifyingStatus {
    var status: LiveStatus
    ghost var made: seq<OneShot>

    ghost predicate Valid()
      reads this, made
    {
      && (forall i, j :: 0 <= i < j < |made| ==> made[i] != made[j])
      && (status.LiveDown? ==> made != [] && status.upTx == made[|made| - 1])
      // every notifier ever made has fired, but for the one that the next Up will fire
      && (forall i :: 0 <= i < |made| ==> (made[i].fired <==> Fired(Cell(), i)))
    }

    ghost function Cell(): StatusCell
      reads this
    {
      StatusCell(if status.LiveDown? && made != [] then Down(|made| - 1) else Up, |made|)
    }

    constructor ()
      ensures Valid() && Cell() == INITIALLY_UP
    {
      status, made := LiveUp, [];
    }

    method Update(update: UpDown)
      requires Valid()
      modifies this, made
      ensures Valid() && Cell() == UpdateStatus(old(Cell()), update)
      ensures old(made) <= made && fresh(set i | |old(made)| <= i < |made| :: made[i])
    {
      match (status, update)
      case (LiveDown(_), GoDown) =>
      case (LiveUp, GoUp) =>
      case (LiveUp, GoDown) =>
        var notifier := new OneShot();
        status := LiveDown(notifier);
        made := made + [notifier];
      case (LiveDown(upTx), GoUp) =>
        status := LiveUp;
        upTx.Send();
    }

    method NotifierForUp() returns (notifier: Option<OneShot>)
      requires Valid()
      ensures notifier.Some? <==> Cell().status.Down?
      ensures notifier.Some? ==>
        0 <= Cell().status.notifier < |made| && notifier.value == made[Cell().status.notifier] && !notifier.value.fired
    {
      match status
      case LiveUp => notifier := None;
      case LiveDown(upTx) => notifier := Some(upTx);
    }
  }

  // ----- Buffer and pacer -----

  class OutboundBuffer {
    var availableCapacityBytes: nat

    constructor (capacityBytes: nat)
      ensures availableCapacityBytes == capacityBytes
    {
      availableCapacityBytes := capacityBytes;
    }

    method Reserve(dataSize: nat) returns (ok: bool)
      modifies this
      ensures ok <==> dataSize <= old(availableCapacityBytes)
      ensures old(availableCapacityBytes) == availableCapacityBytes + if ok then dataSize else 0
    {
      if availableCapacityBytes < dataSize {
        return false;
      }
      availableCapacityBytes := availableCapacityBytes - dataSize;
      return true;
    }

    method Release(dataSize: nat)
      modifies this
      ensures availableCapacityBytes == old(availableCapacityBytes) + dataSize
    {
      availableCapacityBytes := availableCapacityBytes + dataSize;
    }
  }

  class PacketPacer {
    const bandwidthBps: nat
    var sendDone: Option<Time>

    ghost predicate Valid() {
      bandwidthBps > 0
    }

    constructor (bandwidthBps: nat)
      requires bandwidthBps > 0
      ensures Valid() && this.bandwidthBps == bandwidthBps && sendDone.None?
    {
      this.bandwidthBps, sendDone := bandwidthBps, None;
    }

    predicate CanSend(now: Time)
      reads this
    {
      Pacing.CanSend(sendDone, now)
    }

    /** Waiting this long, and no less, makes the pacer permit a send. */
    method DurationUntilCanSend(now: Time) returns (d: Time)
      ensures Pacing.CanSend(sendDone, now + d)
      ensures forall t :: now <= t < now + d ==> !Pacing.CanSend(sendDone, t)
      ensures d == Pacing.DurationUntilCanSend(sendDone, now)
    {
      if sendDone.None? || sendDone.value <= now {
        return 0;
      }
      return sendDone.value - now;
    }

    /** The pacer becomes free at the first millisecond, counted from now, that leaves time for all the bits. */
    method TrackSend(now: Time, sizeBytes: nat)
      requires Valid()
      modifies this
      ensures sendDone == Pacing.TrackSend(now, sizeBytes, bandwidthBps)
      ensures Pacing.TimeEnough(now, sendDone.value, sizeBytes * 8, bandwidthBps)
      ensures sendDone.value < now + NS_PER_MS
           || !Pacing.TimeEnough(now, sendDone.value - NS_PER_MS, sizeBytes * 8, bandwidthBps)
    {
      var sendDurationMs := (sizeBytes * 8 * 1000 + bandwidthBps - 1) / bandwidthBps;
      sendDone := Some(now + sendDurationMs * NS_PER_MS);
      Pacing.SendDurationIsEnough(now, sizeBytes, bandwidthBps);
      if sendDurationMs > 0 {
        MillisecondLessIsTooShort(sizeBytes, bandwidthBps, sendDurationMs);
      }
    }
  }

  lemma MillisecondLessIsTooShort(sizeBytes: nat, bandwidthBps: nat, ms: nat)
    requires bandwidthBps > 0 && ms == Pacing.CeilDiv(sizeBytes * 8 * 1000, bandwidthBps) && ms > 0
    ensures (ms * NS_PER_MS - NS_PER_MS) * bandwidthBps < sizeBytes * 8 * NS_PER_SECOND
  {
    assert ms * bandwidthBps < sizeBytes * 8 * 1000 + bandwidthBps;
    assert (ms - 1) * bandwidthBps == ms * bandwidthBps - bandwidthBps;
    assert (ms * NS_PER_MS - NS_PER_MS) * bandwidthBps == (ms - 1) * bandwidthBps * NS_PER_MS;
  }

  // ----- Nodes -----

  datatype BufferedPacket = BufferedPacket(inNodeSince: Time, data: Packet)

  /** What one packet does to a node: the steps traced, what joins the outbound queue, what goes to the application. */
  datatype Effect = Effect(kinds: seq<StepKind>, queued: seq<Packet>, forApp: seq<Packet>)

  function SumSizes(packets: seq<Packet>): nat {
    if packets == [] then 0 else SumSizes(packets[..|packets| - 1]) + packets[|packets| - 1].size
  }

  function Buffered(packets: seq<Packet>, now: Time): seq<BufferedPacket> {
    seq(|packets|, i requires 0 <= i < |packets| => BufferedPacket(now, packets[i]))
  }

  function ItemsFor(packets: seq<Packet>, now: Time): seq<Item> {
    seq(|packets|, i requires 0 <= i < |packets| => Item(packets[i].id, packets[i].number, now, 0))
  }

  function StepsAt(kinds: seq<StepKind>, now: Time): seq<Step> {
    seq(|kinds|, i requires 0 <= i < |kinds| => Step(now, kinds[i]))
  }

  function EnqueueEffect(n: NodeId, available: nat, p: Packet): Effect {
    if p.size <= available then Effect([], [p], []) else Effect([PacketDropped(p.id, n, BufferFull)], [], [])
  }

  function PlaceEffect(n: NodeId, available: nat, p: Packet, roll: Roll): Effect {
    match roll
    case Lose => Effect([PacketDropped(p.id, n, Random)], [], [])
    case Keep => EnqueueEffect(n, available, p)
    case Duplicate(id) =>
      var first := EnqueueEffect(n, available, p);
      var left := if first.queued == [] then available else available - p.size;
      var second := EnqueueEffect(n, left, p.(id := id));
      Effect(first.kinds + [PacketDuplicated(id, p.number, p.size, n)] + second.kinds,
             first.queued + second.queued, [])
  }

  function ForwardEffect(n: NodeId, up: bool, endpoint: bool, available: nat, p: Packet, roll: Roll): Effect {
    var shown := PacketInNode(p.id, p.number, p.size, n, !up);
    if !up then Effect([shown], [], [])
    else if endpoint then Effect([shown], [], [p])
    else
      var placed := PlaceEffect(n, available, p, roll);
      placed.(kinds := [shown] + placed.kinds)
  }

  class Node {
    const id: NodeId
    const endpoint: Option<SocketAddr>
    const inbound: InboundQueue
    const status: NotifyingStatus
    const outboundBuffer: OutboundBuffer
    var outbound: seq<BufferedPacket>
    var lastBufferClear: Option<Time>

    ghost predicate Valid()
      reads this, status, status.made
    {
      status.Valid()
    }

    constructor (id: NodeId, endpoint: Option<SocketAddr>, bufferSizeBytes: nat)
      ensures Valid() && this.id == id && this.endpoint == endpoint
      ensures status.Cell() == INITIALLY_UP && lastBufferClear.None? && outbound == []
      ensures outboundBuffer.availableCapacityBytes == bufferSizeBytes && inbound.queue == multiset{}
      ensures fresh(status) && fresh(outboundBuffer) && fresh(inbound)
    {
      this.id, this.endpoint := id, endpoint;
      inbound := new InboundQueue();
      status := new NotifyingStatus();
      outboundBuffer := new OutboundBuffer(bufferSizeBytes);
      outbound, lastBufferClear := [], None;
    }

    method EnqueueOutbound(tracer: SimulationStepTracer, packet: BufferedPacket, now: Time)
      modifies this`outbound, outboundBuffer, tracer
      ensures var e := EnqueueEffect(id, old(outboundBuffer.availableCapacityBytes), packet.data);
        && tracer.recordedSteps == old(tracer.recordedSteps) + StepsAt(e.kinds, now)
        && outbound == old(outbound) + (if e.queued == [] then [] else [packet])
        && outboundBuffer.availableCapacityBytes + SumSizes(e.queued) == old(outboundBuffer.availableCapacityBytes)
    {
      var reserved := outboundBuffer.Reserve(packet.data.size);
      if reserved {
        outbound := outbound + [packet];
      } else {
        tracer.Record(PacketDropped(packet.data.id, id, BufferFull), now);
      }
    }

    method IsDown() returns (down: bool)
      requires Valid()
      ensures down <==> status.Cell().status.Down?
    {
      down := status.status.LiveDown?;
    }

    method UpdateStatus(update: UpDown)
      requires Valid()
      modifies status, status.made
      ensures Valid() && status.Cell() == Statuses.UpdateStatus(old(status.Cell()), update)
    {
      status.Update(update);
    }

    method ClearBuffer(now: Time)
      modifies this`lastBufferClear
      ensures lastBufferClear == Some(now)
    {
      lastBufferClear := Some(now);
    }
  }

  /** Puts a packet that is to go on into the outbound buffer, unless the roll says that it is lost. */
  method Place(tracer: SimulationStepTracer, node: Node, data: Packet, roll: Roll, now: Time)
    modifies tracer, node`outbound, node.outboundBuffer
    ensures var e := PlaceEffect(node.id, old(node.outboundBuffer.availableCapacityBytes), data, roll);
      && tracer.recordedSteps == old(tracer.recordedSteps) + StepsAt(e.kinds, now)
      && node.outbound == old(node.outbound) + Buffered(e.queued, now)
      && node.outboundBuffer.availableCapacityBytes + SumSizes(e.queued)
         == old(node.outboundBuffer.availableCapacityBytes)
  {
    if roll.Lose? {
      tracer.Record(PacketDropped(data.id, node.id, Random), now);
      return;
    }
    ghost var available := node.outboundBuffer.availableCapacityBytes;
    node.EnqueueOutbound(tracer, BufferedPacket(now, data), now);
    ghost var left := node.outboundBuffer.availableCapacityBytes;
    QueuedAre(node.id, available, data, now);
    if roll.Duplicate? {
      var duplicate := data.(id := roll.id);
      tracer.Record(PacketDuplicated(duplicate.id, duplicate.number, duplicate.size, node.id), now);
      node.EnqueueOutbound(tracer, BufferedPacket(now, duplicate), now);
      QueuedAre(node.id, left, duplicate, now);
      SumSizesAppend(EnqueueEffect(node.id, available, data).queued, EnqueueEffect(node.id, left, duplicate).queued);
    }
  }

  lemma QueuedAre(n: NodeId, available: nat, p: Packet, now: Time)
    ensures var e := EnqueueEffect(n, available, p);
      && SumSizes(e.queued) == (if e.queued == [] then 0 else p.size)
      && Buffered(e.queued, now) == (if e.queued == [] then [] else [BufferedPacket(now, p)])
      && (e.queued == [] || (e.queued == [p] && p.size <= available))
  {
    assert SumSizes([p][..0]) == 0;
  }

  /** Forwards a packet into a node. */
  method Forward(tracer: SimulationStepTracer, node: Node, data: Packet, roll: Roll, now: Time)
    requires node.Valid()
    modifies tracer, node`outbound, node.outboundBuffer, node.inbound
    ensures node.Valid()
    ensures var e := ForwardEffect(node.id, node.status.Cell().status.Up?, node.endpoint == Some(data.destination),
                                   old(node.outboundBuffer.availableCapacityBytes), data, roll);
      && tracer.recordedSteps == old(tracer.recordedSteps) + StepsAt(e.kinds, now)
      && node.outbound == old(node.outbound) + Buffered(e.queued, now)
      && node.outboundBuffer.availableCapacityBytes + SumSizes(e.queued)
         == old(node.outboundBuffer.availableCapacityBytes)
      && node.inbound.queue == old(node.inbound.queue)
         + multiset(ItemsFor(e.forApp, now))
  {
    hide PlaceEffect;
    var down := node.IsDown();
    if down {
      tracer.Record(PacketInNode(data.id, data.number, data.size, node.id, true), now);
      return;
    }
    tracer.Record(PacketInNode(data.id, data.number, data.size, node.id, false), now);
    if node.endpoint == Some(data.destination) {
      var woken := node.inbound.Send(data.id, data.number, 0, now);
      assert ItemsFor([data], now) == [Item(data.id, data.number, now, 0)];
      return;
    }
    NothingForApp(node.id, node.outboundBuffer.availableCapacityBytes, data, roll);
    Place(tracer, node, data, roll, now);
  }

  lemma NothingForApp(n: NodeId, available: nat, p: Packet, roll: Roll)
    ensures PlaceEffect(n, available, p, roll).forApp == []
  {
  }

  // ----- Links -----

  /** What a send does: the step traced, the link's next free instant, the space given back, and what flies. */
  datatype Sending = Sending(kind: StepKind, sendDone: Option<Time>, released: nat, item: Item)

  function SendEffect(l: LinkId, n: NodeId, p: Packet, delay: Time, bandwidthBps: nat, now: Time): Sending
    requires bandwidthBps > 0
  {
    Sending(PacketInTransit(p.id, n, l), Pacing.TrackSend(now, p.size, bandwidthBps), p.size,
            Item(p.id, p.number, now, delay))
  }

  class NetworkLink {
    const id: LinkId
    const delay: Time
    const tracer: SimulationStepTracer
    const status: NotifyingStatus
    const pacer: PacketPacer
    const inTransit: InboundQueue
    var lastDown: Option<Time>
    /** Whether the one permit to sleep until ready is taken. */
    var permitTaken: bool

    ghost predicate Valid()
      reads status, status.made
    {
      status.Valid() && pacer.Valid()
    }

    constructor (id: LinkId, delay: Time, bandwidthBps: nat, tracer: SimulationStepTracer)
      requires bandwidthBps > 0
      ensures Valid() && this.id == id && this.delay == delay && this.tracer == tracer
      ensures pacer.bandwidthBps == bandwidthBps && pacer.sendDone.None?
      ensures status.Cell() == INITIALLY_UP && lastDown.None? && !permitTaken && inTransit.queue == multiset{}
      ensures fresh(status) && fresh(pacer) && fresh(inTransit)
    {
      this.id, this.delay, this.tracer := id, delay, tracer;
      status := new NotifyingStatus();
      pacer := new PacketPacer(bandwidthBps);
      inTransit := new InboundQueue();
      lastDown, permitTaken := None, false;
    }

    /** The link as the state machine has it, with the task that runs it. */
    ghost function View(queue: seq<Simulator.Offer>, task: Simulator.Task): Simulator.SimLink
      reads this, status, pacer
    {
      Simulator.SimLink(status.Cell(), lastDown, pacer.sendDone, queue, task)
    }

    method WasDownAfter(instant: Time) returns (lost: bool)
      ensures lost <==> After(lastDown, instant)
    {
      lost := lastDown.Some? && instant < lastDown.value;
    }

    method UpdateStatus(update: UpDown, now: Time)
      requires Valid()
      modifies this`lastDown, status, status.made
      ensures Valid()
      ensures status.Cell() == Statuses.UpdateStatus(old(status.Cell()), update)
      ensures lastDown == EdgeTime(old(status.Cell()), old(lastDown), update, now)
    {
      if status.status.LiveUp? && update.GoDown? {
        lastDown := Some(now);
      }
      status.Update(update);
    }

    /** Only the link's own task, its pacer and its status count; the state of the sending node does not. */
    method HasBandwidthAvailable(now: Time, ghost queue: seq<Simulator.Offer>, ghost task: Simulator.Task)
      returns (available: bool)
      requires Valid() && (permitTaken <==> Simulator.PermitHeld(task))
      ensures available <==> Simulator.HasBandwidthAvailable(View(queue, task), now)
    {
      if permitTaken || status.status.LiveDown? {
        return false;
      }
      available := pacer.CanSend(now);
    }

    /** Puts a packet on the link; its callers must see to it that the pacer and the status permit that. */
    method Send(srcNode: Node, data: Packet, extraDelay: Time, now: Time) returns (woken: seq<Waker>)
      requires Valid() && Pacing.CanSend(pacer.sendDone, now) && status.Cell().status.Up?
      modifies tracer, pacer, srcNode.outboundBuffer, inTransit
      ensures Valid()
      ensures var e := SendEffect(id, srcNode.id, data, delay + extraDelay, pacer.bandwidthBps, now);
        && tracer.recordedSteps == old(tracer.recordedSteps) + [Step(now, e.kind)]
        && pacer.sendDone == e.sendDone
        && srcNode.outboundBuffer.availableCapacityBytes
           == old(srcNode.outboundBuffer.availableCapacityBytes) + e.released
        && inTransit.queue == old(inTransit.queue) + multiset{e.item}
      ensures woken == old(inTransit.notifyNewTransmits) && inTransit.notifyNewTransmits == []
    {
      tracer.Record(PacketInTransit(data.id, srcNode.id, id), now);
      pacer.TrackSend(now, data.size);
      srcNode.outboundBuffer.Release(data.size);
      woken := inTransit.Send(data.id, data.number, delay + extraDelay, now);
    }
  }

  // ----- The state machine does the same -----

  /** Entry `k` of an outbound queue stands for this packet. */
  ghost predicate StandsFor(s: Simulator.State, k: nat, n: NodeId, p: Packet, since: Time) {
    k < |s.log| && s.log[k] == Simulator.Record(n, p, since, Simulator.Buffered)
  }

  /** The packets that joined a node's outbound queue between two states. */
  ghost predicate Joined(s: Simulator.State, s1: Simulator.State, n: NodeId, queued: seq<Packet>)
    requires n in s.nodes && n in s1.nodes
  {
    var before, after := s.nodes[n].outbound, s1.nodes[n].outbound;
    && before <= after && |after| == |before| + |queued|
    && forall i :: 0 <= i < |queued| ==> StandsFor(s1, after[|before| + i], n, queued[i], s.now)
  }

  /** The packets that came to be held for the application of a node, and for no other node's. */
  ghost predicate HandedOver(s: Simulator.State, s1: Simulator.State, n: NodeId, forApp: seq<Packet>) {
    forall m :: ContentsOf(s1.log, AppQueue(m))
      == ContentsOf(s.log, AppQueue(m)) + if m == n then multiset(ItemsFor(forApp, s.now)) else multiset{}
  }

  /** The step from `s` to `s1` had this effect on node `n`, and none on any other node or any link. */
  ghost predicate HadEffect(s: Simulator.State, s1: Simulator.State, n: NodeId, e: Effect)
    requires n in s.nodes
  {
    && s1.now == s.now && s1.links == s.links && s1.nodes.Keys == s.nodes.Keys
    && s1.trace == s.trace + StepsAt(e.kinds, s.now)
    && (forall m :: m in s.nodes && m != n ==> s1.nodes[m] == s.nodes[m])
    && s1.nodes[n].available + SumSizes(e.queued) == s.nodes[n].available
    && s1.nodes[n].status == s.nodes[n].status && s1.nodes[n].lastBufferClear == s.nodes[n].lastBufferClear
    && Joined(s, s1, n, e.queued)
    && HandedOver(s, s1, n, e.forApp)
  }

  lemma NothingHandedOver(s: Simulator.State, s1: Simulator.State, n: NodeId)
    requires SameForApps(s.log, s1.log)
    ensures HandedOver(s, s1, n, [])
  {
    hide ContentsOf;
    assert ItemsFor([], s.now) == [];
  }

  lemma EnqueueHasEffect(s: Simulator.State, i: nat)
    requires i < |s.log| && s.log[i].node in s.nodes && s.log[i].since == s.now
    requires s.log[i].fate.Arriving?
    ensures var n := s.log[i].node;
      HadEffect(s, Simulator.EnqueueOutbound(s, i), n, EnqueueEffect(n, s.nodes[n].available, s.log[i].packet))
  {
    FateElsewhere(s.log, i, Simulator.Buffered);
    FateElsewhere(s.log, i, Simulator.Dropped);
    hide SameForApps, HandedOver;
    var n, s1 := s.log[i].node, Simulator.EnqueueOutbound(s, i);
    var e := EnqueueEffect(n, s.nodes[n].available, s.log[i].packet);
    NothingHandedOver(s, s1, n);
    assert s1.nodes[n].available + SumSizes(e.queued) == s.nodes[n].available;
    assert Joined(s, s1, n, e.queued);
  }

  function Then(a: Effect, b: Effect): Effect {
    Effect(a.kinds + b.kinds, a.queued + b.queued, a.forApp + b.forApp)
  }

  lemma {:induction false} SumSizesAppend(a: seq<Packet>, b: seq<Packet>)
    ensures SumSizes(a + b) == SumSizes(a) + SumSizes(b)
  {
    if b == [] {
      assert a + b == a;
    } else {
      SumSizesAppend(a, b[..|b| - 1]);
      assert (a + b)[..|a + b| - 1] == a + b[..|b| - 1];
    }
  }

  lemma JoinedCompose(s: Simulator.State, s1: Simulator.State, s2: Simulator.State, n: NodeId, a: seq<Packet>,
                      b: seq<Packet>)
    requires n in s.nodes && n in s1.nodes && n in s2.nodes && s1.now == s.now
    requires Joined(s, s1, n, a) && Joined(s1, s2, n, b)
    requires forall k :: 0 <= k < |s1.log| && s1.log[k].fate.Buffered? ==> k < |s2.log| && s2.log[k] == s1.log[k]
    ensures Joined(s, s2, n, a + b)
  {
    var first, mid, last := s.nodes[n].outbound, s1.nodes[n].outbound, s2.nodes[n].outbound;
    forall i | 0 <= i < |a + b|
      ensures StandsFor(s2, last[|first| + i], n, (a + b)[i], s.now)
    {
      if i < |a| {
        assert last[|first| + i] == mid[|first| + i] && (a + b)[i] == a[i];
        assert StandsFor(s1, mid[|first| + i], n, a[i], s.now);
      } else {
        assert last[|first| + i] == last[|mid| + (i - |a|)] && (a + b)[i] == b[i - |a|];
        assert StandsFor(s2, last[|mid| + (i - |a|)], n, b[i - |a|], s.now);
      }
    }
  }

  lemma HandedOverCompose(s: Simulator.State, s1: Simulator.State, s2: Simulator.State, n: NodeId, a: seq<Packet>,
                          b: seq<Packet>)
    requires HandedOver(s, s1, n, a) && HandedOver(s1, s2, n, b) && s1.now == s.now
    ensures HandedOver(s, s2, n, a + b)
  {
    hide ContentsOf;
    assert ItemsFor(a + b, s.now) == ItemsFor(a, s.now) + ItemsFor(b, s.now);
  }

  lemma EffectsCompose(s: Simulator.State, s1: Simulator.State, s2: Simulator.State, n: NodeId, a: Effect, b: Effect)
    requires n in s.nodes && HadEffect(s, s1, n, a) && HadEffect(s1, s2, n, b)
    requires forall k :: 0 <= k < |s1.log| && s1.log[k].fate.Buffered? ==> k < |s2.log| && s2.log[k] == s1.log[k]
    ensures HadEffect(s, s2, n, Then(a, b))
  {
    hide Joined, HandedOver;
    HandedOverCompose(s, s1, s2, n, a.forApp, b.forApp);
    JoinedCompose(s, s1, s2, n, a.queued, b.queued);
    SumSizesAppend(a.queued, b.queued);
  }

  lemma EnqueueKeepsRecords(s: Simulator.State, i: nat)
    requires i < |s.log| && s.log[i].node in s.nodes
    ensures |Simulator.EnqueueOutbound(s, i).log| == |s.log|
    ensures forall k :: 0 <= k < |s.log| && k != i ==> Simulator.EnqueueOutbound(s, i).log[k] == s.log[k]
  {
  }

  lemma ShownHasEffect(s: Simulator.State, s1: Simulator.State, n: NodeId, k: StepKind)
    requires n in s.nodes && s1.now == s.now && s1.links == s.links && s1.nodes == s.nodes
    requires s1.trace == s.trace + [Step(s.now, k)] && SameForApps(s.log, s1.log)
    ensures HadEffect(s, s1, n, Effect([k], [], []))
  {
    hide SameForApps, HandedOver;
    NothingHandedOver(s, s1, n);
  }

  lemma DuplicateHasEffect(c: Config, s: Simulator.State, i: nat, roll: Roll)
    requires ValidConfig(c) && i < |s.log| && s.log[i].node in s.nodes && s.log[i].node in c.nodes
    requires s.log[i].since == s.now && s.log[i].fate.Arriving? && roll.Duplicate?
    requires !Simulator.IsEndpoint(c, s.log[i].node, s.log[i].packet.destination)
    ensures var n, p := s.log[i].node, s.log[i].packet;
      HadEffect(s, Simulator.Place(c, s, i, roll), n, PlaceEffect(n, s.nodes[n].available, p, roll))
  {
    hide ValidConfig, Simulator.IsEndpoint, HadEffect, Simulator.EnqueueOutbound, EnqueueEffect, PlaceEffect;
    var n, p := s.log[i].node, s.log[i].packet;
    var duplicate := p.(id := roll.id);
    var s1 := Simulator.EnqueueOutbound(s, i);
    var s2 := Simulator.ArriveDuplicate(s1, n, duplicate);
    var first := EnqueueEffect(n, s.nodes[n].available, p);
    var k := PacketDuplicated(roll.id, p.number, p.size, n);
    var shown := Effect([k], [], []);
    EnqueueKeepsRecords(s, i);
    EnqueueHasEffect(s, i);
    EffectKeeps(s, s1, n, first);
    var second := EnqueueEffect(n, s2.nodes[n].available, duplicate);
    RecordElsewhere(s1.log, Simulator.Record(n, duplicate, s.now, Simulator.Arriving));
    ShownHasEffect(s1, s2, n, k);
    EnqueueHasEffect(s2, |s.log|);
    EnqueueKeepsRecords(s2, |s.log|);
    EffectsCompose(s, s1, s2, n, first, shown);
    EffectsCompose(s, s2, Simulator.EnqueueOutbound(s2, |s.log|), n, Then(first, shown), second);
    DuplicateEffectIs(s, s1, n, p, roll);
  }

  lemma EffectKeeps(s: Simulator.State, s1: Simulator.State, n: NodeId, e: Effect)
    requires n in s.nodes && HadEffect(s, s1, n, e)
    ensures s1.nodes.Keys == s.nodes.Keys && s1.now == s.now
  {
  }

  lemma DuplicateEffectIs(s: Simulator.State, s1: Simulator.State, n: NodeId, p: Packet, roll: Roll)
    requires n in s.nodes && n in s1.nodes && roll.Duplicate?
    requires HadEffect(s, s1, n, EnqueueEffect(n, s.nodes[n].available, p))
    ensures var first := EnqueueEffect(n, s.nodes[n].available, p);
      var shown := Effect([PacketDuplicated(roll.id, p.number, p.size, n)], [], []);
      var second := EnqueueEffect(n, s1.nodes[n].available, p.(id := roll.id));
      Then(Then(first, shown), second) == PlaceEffect(n, s.nodes[n].available, p, roll)
  {
    var first := EnqueueEffect(n, s.nodes[n].available, p);
    LeftAfter(s, s1, n, first, p);
    assert first.queued + [] == first.queued;
  }

  lemma LeftAfter(s: Simulator.State, s1: Simulator.State, n: NodeId, e: Effect, p: Packet)
    requires n in s.nodes && HadEffect(s, s1, n, e) && (e.queued == [] || e.queued == [p])
    ensures s1.nodes[n].available == if e.queued == [] then s.nodes[n].available else s.nodes[n].available - p.size
  {
    if e.queued != [] {
      assert e.queued[..0] == [];
      assert SumSizes([p]) == p.size;
    }
  }

  lemma DeliveryIsHandedOver(s: Simulator.State, i: nat)
    requires i < |s.log| && s.log[i].since == s.now && s.log[i].fate.Arriving?
    ensures HandedOver(s, Simulator.SetFate(s, i, Simulator.AtApp), s.log[i].node, [s.log[i].packet])
  {
    var s1 := Simulator.SetFate(s, i, Simulator.AtApp);
    var p := s.log[i].packet;
    assert ItemsFor([p], s.now) == [Item(p.id, p.number, s.now, 0)];
    forall m
      ensures ContentsOf(s1.log, AppQueue(m))
        == ContentsOf(s.log, AppQueue(m)) + Share(AppQueue(m), s1.log[i])
    {
      FateMoves(s.log, i, Simulator.AtApp, AppQueue(m));
    }
    hide ContentsOf;
  }

  lemma PlaceHasEffect(c: Config, s: Simulator.State, i: nat, roll: Roll)
    requires ValidConfig(c) && i < |s.log| && s.log[i].node in s.nodes && s.log[i].node in c.nodes
    requires s.log[i].since == s.now && s.log[i].fate.Arriving?
    ensures HadEffect(s, Simulator.Place(c, s, i, roll), s.log[i].node, PlacedEffect(c, s, i, roll))
  {
    hide ValidConfig, Simulator.IsEndpoint, HandedOver, SameForApps;
    if Simulator.IsEndpoint(c, s.log[i].node, s.log[i].packet.destination) {
      DeliveryIsHandedOver(s, i);
    } else if roll.Duplicate? {
      DuplicateHasEffect(c, s, i, roll);
    } else if roll.Keep? {
      EnqueueHasEffect(s, i);
    } else {
      FateElsewhere(s.log, i, Simulator.Dropped);
      ShownHasEffect(s, Simulator.Drop(s, i, Random), s.log[i].node,
                     PacketDropped(s.log[i].packet.id, s.log[i].node, Random));
    }
  }

  function PlacedEffect(c: Config, s: Simulator.State, i: nat, roll: Roll): Effect
    requires ValidConfig(c) && i < |s.log| && s.log[i].node in s.nodes && s.log[i].node in c.nodes
  {
    var n, p := s.log[i].node, s.log[i].packet;
    if Simulator.IsEndpoint(c, n, p.destination) then Effect([], [], [p])
    else PlaceEffect(n, s.nodes[n].available, p, roll)
  }

  lemma ArrivalsAreNotForApps(s: Simulator.State, n: NodeId, p: Packet, origin: Option<nat>)
    requires origin.Some? ==> origin.value < |s.log| && s.log[origin.value].fate.InTransit?
    ensures SameForApps(s.log, Simulator.Arrive(s, n, p, origin).log)
    ensures SameForApps(s.log, Simulator.ArriveWhileDown(s, n, p, origin).log)
  {
    var log := if origin.Some? then Simulator.SetFate(s, origin.value, Simulator.Arrived).log else s.log;
    if origin.Some? {
      FateElsewhere(s.log, origin.value, Simulator.Arrived);
    }
    RecordElsewhere(log, Simulator.Record(n, p, s.now, Simulator.Arriving));
    RecordElsewhere(log, Simulator.Record(n, p, s.now, Simulator.DroppedOnArrival));
    RecordElsewhere(log, Simulator.Record(n, p, s.now, Simulator.Phantom));
  }

  /**
   * Forwarding a packet in the state machine does to the node exactly what the method does to the
   * node object: the same steps traced, the same packets queued, the same space taken, the same
   * packets held for the application; and it does nothing to any other node, or to any link.
   */
  lemma ForwardHasEffect(c: Config, s: Simulator.State, n: NodeId, p: Packet, roll: Roll, origin: Option<nat>)
    requires ValidConfig(c) && n in s.nodes && n in c.nodes
    requires origin.Some? ==> origin.value < |s.log| && s.log[origin.value].fate.InTransit?
    ensures var e := ForwardEffect(n, Simulator.NodeUp(s, n), Simulator.IsEndpoint(c, n, p.destination),
                                   s.nodes[n].available, p, roll);
      HadEffect(s, Simulator.Forward(c, s, n, p, roll, origin), n, e)
  {
    hide ValidConfig, Simulator.IsEndpoint, Simulator.Place, HadEffect, PlaceEffect;
    var k := PacketInNode(p.id, p.number, p.size, n, !Simulator.NodeUp(s, n));
    if Simulator.NodeUp(s, n) {
      var s1 := Simulator.Arrive(s, n, p, origin);
      var shown := Effect([k], [], []);
      ArrivalsAreNotForApps(s, n, p, origin);
      ShownHasEffect(s, s1, n, k);
      PlaceHasEffect(c, s1, |s.log|, roll);
      PlaceKeepsRecords(c, s1, |s.log|, roll);
      var placed := PlacedEffect(c, s1, |s.log|, roll);
      EffectsCompose(s, s1, Simulator.Place(c, s1, |s.log|, roll), n, shown, placed);
      assert [] + placed.queued == placed.queued && [] + placed.forApp == placed.forApp && [k] + [] == [k];
    } else {
      ArrivalsAreNotForApps(s, n, p, origin);
      ShownHasEffect(s, Simulator.ArriveWhileDown(s, n, p, origin), n, k);
    }
  }

  lemma PlaceKeepsRecords(c: Config, s: Simulator.State, i: nat, roll: Roll)
    requires ValidConfig(c) && i < |s.log| && s.log[i].node in s.nodes && s.log[i].node in c.nodes
    ensures |s.log| <= |Simulator.Place(c, s, i, roll).log|
    ensures forall k :: 0 <= k < |s.log| && k != i ==> Simulator.Place(c, s, i, roll).log[k] == s.log[k]
  {
    hide ValidConfig, Simulator.IsEndpoint;
    EnqueueKeepsRecords(s, i);
    if roll.Duplicate? {
      var s1 := Simulator.EnqueueOutbound(s, i);
      EnqueueKeepsRecords(Simulator.ArriveDuplicate(s1, s.log[i].node, s.log[i].packet.(id := roll.id)), |s.log|);
    }
  }

  /** The step from `s` to `s1` had this effect on link `l` and node `n`, and none on any other, or on any application. */
  ghost predicate HadSendEffect(s: Simulator.State, s1: Simulator.State, l: LinkId, n: NodeId, e: Sending)
    requires l in s.links && n in s.nodes
  {
    && s1.now == s.now && s1.trace == s.trace + [Step(s.now, e.kind)]
    && s1.links == s.links[l := s.links[l].(sendDone := e.sendDone, task := Simulator.Idle)]
    && s1.nodes == s.nodes[n := s.nodes[n].(available := s.nodes[n].available + e.released)]
    && (forall q :: ContentsOf(s1.log, q)
          == ContentsOf(s.log, q) + if q == LinkQueue(l) then multiset{e.item} else multiset{})
  }

  /**
   * Sending in the state machine does exactly what the link's method does: the same step traced, the
   * pacer and the node's buffer left the same, and the same packet, due at the same time, added to
   * what the link's queue holds. No other queue, link or node is touched.
   */
  lemma TransmitHasEffect(c: Config, s: Simulator.State, l: LinkId, o: Simulator.Offer)
    requires l in s.links && l in c.links && c.links[l].bandwidthBps > 0
    requires o.record < |s.log| && s.log[o.record].node in s.nodes && s.log[o.record].fate.Buffered?
    ensures var r := s.log[o.record];
      HadSendEffect(s, Simulator.Transmit(c, s, l, o), l, r.node,
        SendEffect(l, r.node, r.packet, c.links[l].delay + o.extraDelay, c.links[l].bandwidthBps, s.now))
  {
    hide ContentsOf, Pacing.TrackSend;
    var fate := Simulator.InTransit(l, s.now, s.now + c.links[l].delay + o.extraDelay);
    forall q
      ensures ContentsOf(Simulator.Transmit(c, s, l, o).log, q)
        == ContentsOf(s.log, q) + Share(q, s.log[o.record].(fate := fate))
    {
      FateMoves(s.log, o.record, fate, q);
    }
  }
}
