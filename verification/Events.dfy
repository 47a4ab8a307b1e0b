/** Scheduled network events, and the statuses that links and nodes start with because of them. */
module Events {
  import opened Types
  import opened StableSort
  import opened Status

  datatype EventKind = OnLink(linkEvent: LinkEvent) | OnNode(nodeEvent: NodeEvent)

  datatype ScheduledEvent = ScheduledEvent(time: Time, kind: EventKind)

  datatype NetworkEvents = NetworkEvents(
    sorted: seq<ScheduledEvent>,
    initialLinkEvents: seq<LinkEvent>,
    initialNodeEvents: seq<NodeEvent>)

  function EventTime(e: ScheduledEvent): nat {
    e.time
  }

  /** A change of status, for the link or node with that identifier. */
  datatype Update = Update(id: nat, status: UpDown)

  function LinkUpdate(e: LinkEvent): Option<Update> {
    if e.status.Some? then Some(Update(e.link, e.status.value)) else None
  }

  function NodeUpdate(e: NodeEvent): Option<Update> {
    if e.status.Some? then Some(Update(e.node, e.status.value)) else None
  }

  function ScheduledLinkUpdate(e: ScheduledEvent): Option<Update> {
    if e.kind.OnLink? then LinkUpdate(e.kind.linkEvent) else None
  }

  function ScheduledNodeUpdate(e: ScheduledEvent): Option<Update> {
    if e.kind.OnNode? then NodeUpdate(e.kind.nodeEvent) else None
  }

  function Opposite(u: UpDown): UpDown {
    if u.GoUp? then GoDown else GoUp
  }

  predicate Updates(e: ScheduledEvent, of: ScheduledEvent -> Option<Update>, id: nat) {
    of(e).Some? && of(e).value.id == id
  }

  /** The first event of the list that updates `id`. */
  function FirstUpdate(events: seq<ScheduledEvent>, of: ScheduledEvent -> Option<Update>, id: nat):
    (r: Option<ScheduledEvent>)
    ensures r.Some? ==> Updates(r.value, of, id)
  {
    if events == [] then None
    else
      var before := FirstUpdate(events[..|events| - 1], of, id);
      if before.Some? then before
      else if Updates(events[|events| - 1], of, id) then Some(events[|events| - 1])
      else None
  }

  /** The opposite of the first update, or up if there is none. */
  function InitialStatus(events: seq<ScheduledEvent>, of: ScheduledEvent -> Option<Update>, id: nat): UpDown {
    var first := FirstUpdate(events, of, id);
    if first.Some? then Opposite(of(first.value).value.status) else GoUp
  }

  /** One initial event for each link or node that has updates or is in the spec, with the right status. */
  ghost predicate Initialised<E(!new)>(events: seq<ScheduledEvent>, of: ScheduledEvent -> Option<Update>,
                                       known: seq<nat>, initial: seq<E>, update: E -> Option<Update>)
  {
    && (forall i :: 0 <= i < |initial| ==>
          update(initial[i]).Some?
          && update(initial[i]).value.status == InitialStatus(events, of, update(initial[i]).value.id))
    && (forall id :: (exists i :: 0 <= i < |initial| && update(initial[i]).value.id == id) <==>
          id in known || FirstUpdate(events, of, id).Some?)
    && (Distinct(known) ==> forall i, j :: 0 <= i < j < |initial| ==>
          update(initial[i]).value.id != update(initial[j]).value.id)
  }

  predicate Distinct(ids: seq<nat>) {
    forall i, j :: 0 <= i < j < |ids| ==> ids[i] != ids[j]
  }

  /** What holds after going through the events, or through the events and some of the spec. */
  ghost predicate Seen<E(!new)>(events: seq<ScheduledEvent>, of: ScheduledEvent -> Option<Update>, seen: set<nat>,
                                known: seq<nat>, initial: seq<E>, update: E -> Option<Update>)
  {
    && (forall id :: id in seen <==> FirstUpdate(events, of, id).Some?)
    && Initialised(events, of, known, initial, update)
  }

  lemma SeesEvent<E(!new)>(events: seq<ScheduledEvent>, next: ScheduledEvent, of: ScheduledEvent -> Option<Update>,
                           seen: set<nat>, initial: seq<E>, update: E -> Option<Update>, event: E)
    requires Seen(events, of, seen, [], initial, update)
    requires of(next).Some? && of(next).value.id !in seen ==>
      update(event) == Some(Update(of(next).value.id, Opposite(of(next).value.status)))
    ensures of(next).None? || of(next).value.id in seen ==>
      Seen(events + [next], of, seen, [], initial, update)
    ensures of(next).Some? && of(next).value.id !in seen ==>
      Seen(events + [next], of, seen + {of(next).value.id}, [], initial + [event], update)
  {
    assert (events + [next])[..|events + [next]| - 1] == events;
    forall id
      ensures FirstUpdate(events + [next], of, id)
           == if FirstUpdate(events, of, id).Some? then FirstUpdate(events, of, id)
              else if Updates(next, of, id) then Some(next) else None
    {
    }
    if of(next).Some? && of(next).value.id !in seen {
      var initial1 := initial + [event];
      assert initial1[|initial|] == event;
      forall i | 0 <= i < |initial|
        ensures initial1[i] == initial[i] && update(initial[i]).value.id in seen
      {
      }
    }
  }

  lemma SeesKnown<E(!new)>(events: seq<ScheduledEvent>, of: ScheduledEvent -> Option<Update>, seen: set<nat>,
                           known: seq<nat>, id: nat, initial: seq<E>, update: E -> Option<Update>, event: E)
    requires Seen(events, of, seen, known, initial, update)
    requires update(event) == Some(Update(id, GoUp))
    ensures id in seen ==> Seen(events, of, seen, known + [id], initial, update)
    ensures id !in seen ==> Seen(events, of, seen, known + [id], initial + [event], update)
  {
    var known1 := known + [id];
    assert known1[|known|] == id;
    assert Distinct(known1) ==> Distinct(known) && id !in known by {
      if Distinct(known1) {
        forall i | 0 <= i < |known|
          ensures known1[i] == known[i] && known[i] != id
        {
        }
      }
    }
    if id !in seen {
      var initial1 := initial + [event];
      assert initial1[|initial|] == event;
      forall i | 0 <= i < |initial|
        ensures initial1[i] == initial[i]
      {
      }
    }
  }

  method InitialLinkEvents(sorted: seq<ScheduledEvent>, links: seq<LinkId>) returns (initial: seq<LinkEvent>)
    ensures Initialised(sorted, ScheduledLinkUpdate, links, initial, LinkUpdate)
  {
    hide Initialised, ScheduledLinkUpdate, FirstUpdate;
    initial := [];
    var seen: set<LinkId> := {};
    NothingSeen(ScheduledLinkUpdate, LinkUpdate);
    for k := 0 to |sorted|
      invariant Seen(sorted[..k], ScheduledLinkUpdate, seen, [], initial, LinkUpdate)
    {
      assert sorted[..k + 1] == sorted[..k] + [sorted[k]];
      var u := ScheduledLinkUpdate(sorted[k]);
      var e := if u.Some? then LinkEvent(u.value.id, Some(Opposite(u.value.status))) else LinkEvent(0, None);
      SeesEvent(sorted[..k], sorted[k], ScheduledLinkUpdate, seen, initial, LinkUpdate, e);
      if u.Some? && u.value.id !in seen {
        seen := seen + {u.value.id};
        initial := initial + [e];
      }
    }
    assert sorted[..|sorted|] == sorted && links[..0] == [];
    for k := 0 to |links|
      invariant Seen(sorted, ScheduledLinkUpdate, seen, links[..k], initial, LinkUpdate)
    {
      assert links[..k + 1] == links[..k] + [links[k]];
      var e := LinkEvent(links[k], Some(GoUp));
      SeesKnown(sorted, ScheduledLinkUpdate, seen, links[..k], links[k], initial, LinkUpdate, e);
      if links[k] !in seen {
        initial := initial + [e];
      }
    }
    assert links[..|links|] == links;
  }

  lemma NothingSeen<E(!new)>(of: ScheduledEvent -> Option<Update>, update: E -> Option<Update>)
    ensures Seen([], of, {}, [], [], update)
  {
  }

  method InitialNodeEvents(sorted: seq<ScheduledEvent>, nodes: seq<NodeId>) returns (initial: seq<NodeEvent>)
    ensures Initialised(sorted, ScheduledNodeUpdate, nodes, initial, NodeUpdate)
    ensures forall e :: e in initial ==> !e.clearBuffer
  {
    hide Initialised, ScheduledNodeUpdate, FirstUpdate;
    initial := [];
    var seen: set<NodeId> := {};
    NothingSeen(ScheduledNodeUpdate, NodeUpdate);
    for k := 0 to |sorted|
      invariant Seen(sorted[..k], ScheduledNodeUpdate, seen, [], initial, NodeUpdate)
      invariant forall e :: e in initial ==> !e.clearBuffer
    {
      assert sorted[..k + 1] == sorted[..k] + [sorted[k]];
      var u := ScheduledNodeUpdate(sorted[k]);
      var e := if u.Some? then NodeEvent(u.value.id, Some(Opposite(u.value.status)), false)
               else NodeEvent(0, None, false);
      SeesEvent(sorted[..k], sorted[k], ScheduledNodeUpdate, seen, initial, NodeUpdate, e);
      if u.Some? && u.value.id !in seen {
        seen := seen + {u.value.id};
        initial := initial + [e];
      }
    }
    assert sorted[..|sorted|] == sorted && nodes[..0] == [];
    for k := 0 to |nodes|
      invariant Seen(sorted, ScheduledNodeUpdate, seen, nodes[..k], initial, NodeUpdate)
      invariant forall e :: e in initial ==> !e.clearBuffer
    {
      assert nodes[..k + 1] == nodes[..k] + [nodes[k]];
      var e := NodeEvent(nodes[k], Some(GoUp), false);
      SeesKnown(sorted, ScheduledNodeUpdate, seen, nodes[..k], nodes[k], initial, NodeUpdate, e);
      if nodes[k] !in seen {
        initial := initial + [e];
      }
    }
    assert nodes[..|nodes|] == nodes;
  }

  predicate LinkHasEvent(initial: seq<LinkEvent>, id: LinkId) {
    exists i :: 0 <= i < |initial| && initial[i].link == id
  }

  /** One event for each link that is known or has its status set, with the status that it starts with. */
  ghost predicate LinksStart(events: seq<ScheduledEvent>, links: seq<LinkId>, initial: seq<LinkEvent>) {
    && (forall i :: 0 <= i < |initial| ==>
          initial[i].status.Some? && LinkStarts(events, initial[i].link, initial[i].status.value))
    && (forall id :: LinkHasEvent(initial, id) <==> id in links || LinkIsSet(events, id))
    && (Distinct(links) ==> forall i, j :: 0 <= i < j < |initial| ==> initial[i].link != initial[j].link)
  }

  predicate NodeHasEvent(initial: seq<NodeEvent>, id: NodeId) {
    exists i :: 0 <= i < |initial| && initial[i].node == id
  }

  ghost predicate NodesStart(events: seq<ScheduledEvent>, nodes: seq<NodeId>, initial: seq<NodeEvent>) {
    && (forall i :: 0 <= i < |initial| ==>
          initial[i].status.Some? && !initial[i].clearBuffer
          && NodeStarts(events, initial[i].node, initial[i].status.value))
    && (forall id :: NodeHasEvent(initial, id) <==> id in nodes || NodeIsSet(events, id))
    && (Distinct(nodes) ==> forall i, j :: 0 <= i < j < |initial| ==> initial[i].node != initial[j].node)
  }

  lemma LinksStartSo(events: seq<ScheduledEvent>, links: seq<LinkId>, initial: seq<LinkEvent>)
    requires Initialised(SortBy(events, EventTime), ScheduledLinkUpdate, links, initial, LinkUpdate)
    ensures LinksStart(events, links, initial)
  {
    hide SortBy, FirstUpdate, InitialStatus, LinkStarts, SetsLinkTo;
    var sorted := SortBy(events, EventTime);
    forall i | 0 <= i < |initial|
      ensures LinkUpdate(initial[i]).Some? && LinkUpdate(initial[i]).value == Update(initial[i].link, initial[i].status.value)
      ensures LinkStarts(events, initial[i].link, initial[i].status.value)
    {
      LinkStartsSo(events, initial[i].link);
    }
    forall id
      ensures LinkHasEvent(initial, id) <==> id in links || LinkIsSet(events, id)
    {
      LinkStartsSo(events, id);
      if id in links || FirstUpdate(sorted, ScheduledLinkUpdate, id).Some? {
        var i :| 0 <= i < |initial| && LinkUpdate(initial[i]).value.id == id;
        assert initial[i].link == id;
      }
      if LinkHasEvent(initial, id) {
        var i :| 0 <= i < |initial| && initial[i].link == id;
        assert LinkUpdate(initial[i]).value.id == id;
      }
    }
    if Distinct(links) {
      forall i, j | 0 <= i < j < |initial|
        ensures initial[i].link != initial[j].link
      {
        assert LinkUpdate(initial[i]).value.id != LinkUpdate(initial[j]).value.id;
      }
    }
  }

  lemma NodesStartSo(events: seq<ScheduledEvent>, nodes: seq<NodeId>, initial: seq<NodeEvent>)
    requires Initialised(SortBy(events, EventTime), ScheduledNodeUpdate, nodes, initial, NodeUpdate)
    requires forall e :: e in initial ==> !e.clearBuffer
    ensures NodesStart(events, nodes, initial)
  {
    hide SortBy, FirstUpdate, InitialStatus, NodeStarts, SetsNodeTo;
    var sorted := SortBy(events, EventTime);
    forall i | 0 <= i < |initial|
      ensures NodeUpdate(initial[i]).Some? && NodeUpdate(initial[i]).value == Update(initial[i].node, initial[i].status.value)
      ensures NodeStarts(events, initial[i].node, initial[i].status.value)
    {
      NodeStartsSo(events, initial[i].node);
    }
    forall id
      ensures NodeHasEvent(initial, id) <==> id in nodes || NodeIsSet(events, id)
    {
      NodeStartsSo(events, id);
      if id in nodes || FirstUpdate(sorted, ScheduledNodeUpdate, id).Some? {
        var i :| 0 <= i < |initial| && NodeUpdate(initial[i]).value.id == id;
        assert initial[i].node == id;
      }
      if NodeHasEvent(initial, id) {
        var i :| 0 <= i < |initial| && initial[i].node == id;
        assert NodeUpdate(initial[i]).value.id == id;
      }
    }
    if Distinct(nodes) {
      forall i, j | 0 <= i < j < |initial|
        ensures initial[i].node != initial[j].node
      {
        assert NodeUpdate(initial[i]).value.id != NodeUpdate(initial[j]).value.id;
      }
    }
  }

  /** The events in stable order of time, and the initial events that the list as it was given calls for. */
  method NewNetworkEvents(events: seq<ScheduledEvent>, nodes: seq<NodeId>, links: seq<LinkId>)
    returns (r: NetworkEvents)
    ensures r.sorted == SortBy(events, EventTime)
    ensures LinksStart(events, links, r.initialLinkEvents) && NodesStart(events, nodes, r.initialNodeEvents)
  {
    hide Initialised, LinksStart, NodesStart;
    var sorted := SortBy(events, EventTime);
    var linkEvents := InitialLinkEvents(sorted, links);
    var nodeEvents := InitialNodeEvents(sorted, nodes);
    LinksStartSo(events, links, linkEvents);
    NodesStartSo(events, nodes, nodeEvents);
    r := NetworkEvents(sorted, linkEvents, nodeEvents);
  }

  // ----- The first update, in terms of the list as it was before sorting -----

  /** The earliest update of `id`; of those at the same time, the one that is listed first. */
  ghost predicate IsEarliest(events: seq<ScheduledEvent>, of: ScheduledEvent -> Option<Update>, id: nat, k: nat) {
    && k < |events| && Updates(events[k], of, id)
    && (forall j :: 0 <= j < |events| && Updates(events[j], of, id) ==>
          events[k].time < events[j].time || (events[k].time == events[j].time && k <= j))
  }

  lemma {:induction false} InsertedUpdate(s: seq<ScheduledEvent>, x: ScheduledEvent,
                                          of: ScheduledEvent -> Option<Update>, id: nat)
    requires SortedBy(s, EventTime)
    ensures var before := FirstUpdate(s, of, id);
      FirstUpdate(Insert(s, x, EventTime), of, id)
      == if Updates(x, of, id) && (before.None? || x.time < before.value.time) then Some(x) else before
  {
    if s == [] || s[|s| - 1].time <= x.time {
      assert (s + [x])[..|s + [x]| - 1] == s;
      UpdateInList(s, of, id);
    } else {
      var init, last := s[..|s| - 1], s[|s| - 1];
      InsertedUpdate(init, x, of, id);
      var r := Insert(init, x, EventTime) + [last];
      assert r[..|r| - 1] == Insert(init, x, EventTime);
    }
  }

  lemma {:induction false} UpdateInList(s: seq<ScheduledEvent>, of: ScheduledEvent -> Option<Update>, id: nat)
    ensures FirstUpdate(s, of, id).Some? ==> FirstUpdate(s, of, id).value in s
  {
    if s != [] {
      UpdateInList(s[..|s| - 1], of, id);
    }
  }

  lemma LaterUpdate(events: seq<ScheduledEvent>, of: ScheduledEvent -> Option<Update>, id: nat, k0: nat)
    requires events != [] && IsEarliest(events[..|events| - 1], of, id, k0)
    ensures var last := events[|events| - 1];
      if Updates(last, of, id) && last.time < events[k0].time then IsEarliest(events, of, id, |events| - 1)
      else IsEarliest(events, of, id, k0)
  {
  }

  /**
   * The initial status of a link or node is decided by its earliest status update, and by the
   * first of these in the list as it was given if several share the time.
   */
  lemma {:induction false} FirstUpdateIsEarliest(events: seq<ScheduledEvent>, of: ScheduledEvent -> Option<Update>,
                                                 id: nat)
    ensures var first := FirstUpdate(SortBy(events, EventTime), of, id);
      && (first.None? <==> forall j :: 0 <= j < |events| ==> !Updates(events[j], of, id))
      && (first.Some? ==> exists k: nat :: IsEarliest(events, of, id, k) && events[k] == first.value)
  {
    hide Insert, SortedBy, FirstUpdate;
    if events == [] {
      NoUpdates(of, id);
    } else {
      var init, last := events[..|events| - 1], events[|events| - 1];
      FirstUpdateIsEarliest(init, of, id);
      SortByIsStableSort(init, EventTime, 0);
      InsertedUpdate(SortBy(init, EventTime), last, of, id);
      var before := FirstUpdate(SortBy(init, EventTime), of, id);
      hide SortBy;
      if before.Some? {
        var k0: nat :| IsEarliest(init, of, id, k0) && init[k0] == before.value;
        LaterUpdate(events, of, id, k0);
      } else if Updates(last, of, id) {
        assert IsEarliest(events, of, id, |events| - 1);
      }
    }
  }

  lemma NoUpdates(of: ScheduledEvent -> Option<Update>, id: nat)
    ensures FirstUpdate(SortBy([], EventTime), of, id).None?
  {
  }

  // ----- The initial events, in terms of the list that was given -----

  predicate SetsLinkTo(e: ScheduledEvent, id: LinkId, status: UpDown) {
    e.kind.OnLink? && e.kind.linkEvent.link == id && e.kind.linkEvent.status == Some(status)
  }

  predicate SetsNodeTo(e: ScheduledEvent, id: NodeId, status: UpDown) {
    e.kind.OnNode? && e.kind.nodeEvent.node == id && e.kind.nodeEvent.status == Some(status)
  }

  /** Event `k` is no later than event `j`, and listed no later if they are at the same time. */
  predicate NoLater(events: seq<ScheduledEvent>, k: nat, j: nat)
    requires k < |events| && j < |events|
  {
    events[k].time < events[j].time || (events[k].time == events[j].time && k <= j)
  }

  /** A link starts down exactly if the first of all events that set its status takes it up. */
  ghost predicate LinkStarts(events: seq<ScheduledEvent>, id: LinkId, status: UpDown) {
    status.GoDown? <==> exists k: nat :: k < |events| && SetsLinkTo(events[k], id, GoUp) && forall j: nat ::
      j < |events| && (SetsLinkTo(events[j], id, GoUp) || SetsLinkTo(events[j], id, GoDown)) ==> NoLater(events, k, j)
  }

  ghost predicate NodeStarts(events: seq<ScheduledEvent>, id: NodeId, status: UpDown) {
    status.GoDown? <==> exists k: nat :: k < |events| && SetsNodeTo(events[k], id, GoUp) && forall j: nat ::
      j < |events| && (SetsNodeTo(events[j], id, GoUp) || SetsNodeTo(events[j], id, GoDown)) ==> NoLater(events, k, j)
  }

  predicate LinkIsSet(events: seq<ScheduledEvent>, id: LinkId) {
    exists j :: 0 <= j < |events| && (SetsLinkTo(events[j], id, GoUp) || SetsLinkTo(events[j], id, GoDown))
  }

  lemma LinkUpdateIs(e: ScheduledEvent, id: LinkId)
    ensures Updates(e, ScheduledLinkUpdate, id) <==> SetsLinkTo(e, id, GoUp) || SetsLinkTo(e, id, GoDown)
    ensures Updates(e, ScheduledLinkUpdate, id) ==>
      SetsLinkTo(e, id, ScheduledLinkUpdate(e).value.status)
  {
    if e.kind.OnLink? && e.kind.linkEvent.status.Some? {
      assert e.kind.linkEvent.status.value.GoUp? || e.kind.linkEvent.status.value.GoDown?;
    }
  }

  lemma LinkStartsSo(events: seq<ScheduledEvent>, id: LinkId)
    ensures LinkStarts(events, id, InitialStatus(SortBy(events, EventTime), ScheduledLinkUpdate, id))
    ensures FirstUpdate(SortBy(events, EventTime), ScheduledLinkUpdate, id).Some? <==> LinkIsSet(events, id)
  {
    hide SortBy, FirstUpdate;
    FirstUpdateIsEarliest(events, ScheduledLinkUpdate, id);
    forall e
      ensures Updates(e, ScheduledLinkUpdate, id) <==> SetsLinkTo(e, id, GoUp) || SetsLinkTo(e, id, GoDown)
    {
      LinkUpdateIs(e, id);
    }
  }

  predicate NodeIsSet(events: seq<ScheduledEvent>, id: NodeId) {
    exists j :: 0 <= j < |events| && (SetsNodeTo(events[j], id, GoUp) || SetsNodeTo(events[j], id, GoDown))
  }

  lemma NodeUpdateIs(e: ScheduledEvent, id: NodeId)
    ensures Updates(e, ScheduledNodeUpdate, id) <==> SetsNodeTo(e, id, GoUp) || SetsNodeTo(e, id, GoDown)
    ensures Updates(e, ScheduledNodeUpdate, id) ==>
      SetsNodeTo(e, id, ScheduledNodeUpdate(e).value.status)
  {
    if e.kind.OnNode? && e.kind.nodeEvent.status.Some? {
      assert e.kind.nodeEvent.status.value.GoUp? || e.kind.nodeEvent.status.value.GoDown?;
    }
  }

  lemma NodeStartsSo(events: seq<ScheduledEvent>, id: NodeId)
    ensures NodeStarts(events, id, InitialStatus(SortBy(events, EventTime), ScheduledNodeUpdate, id))
    ensures FirstUpdate(SortBy(events, EventTime), ScheduledNodeUpdate, id).Some? <==> NodeIsSet(events, id)
  {
    hide SortBy, FirstUpdate;
    FirstUpdateIsEarliest(events, ScheduledNodeUpdate, id);
    forall e
      ensures Updates(e, ScheduledNodeUpdate, id) <==> SetsNodeTo(e, id, GoUp) || SetsNodeTo(e, id, GoDown)
    {
      NodeUpdateIs(e, id);
    }
  }

  // ----- The statuses that follow -----

  /** A status after the events that update it. */
  function StatusAfter(c: StatusCell, events: seq<ScheduledEvent>, of: ScheduledEvent -> Option<Update>,
                       id: nat): StatusCell {
    if events == [] then c
    else
      var before := StatusAfter(c, events[..|events| - 1], of, id);
      var last := events[|events| - 1];
      if Updates(last, of, id) then UpdateStatus(before, of(last).value.status) else before
  }

  lemma {:induction false} FirstUpdateAt(events: seq<ScheduledEvent>, of: ScheduledEvent -> Option<Update>, id: nat,
                                         c: StatusCell)
    returns (k: nat)
    ensures FirstUpdate(events, of, id).None? ==> StatusAfter(c, events, of, id) == c
    ensures FirstUpdate(events, of, id).Some? ==>
      k < |events| && events[k] == FirstUpdate(events, of, id).value && StatusAfter(c, events[..k], of, id) == c
  {
    k := 0;
    if events != [] {
      var init := events[..|events| - 1];
      k := FirstUpdateAt(init, of, id, c);
      if FirstUpdate(init, of, id).Some? {
        assert init[..k] == events[..k];
      } else {
        k := |events| - 1;
      }
    }
  }

  /**
   * A link or node that starts with its initial status keeps it until its first scheduled status
   * update, which is a change: it is never an update to the status it already has.
   */
  lemma FirstUpdateChangesStatus(events: seq<ScheduledEvent>, of: ScheduledEvent -> Option<Update>, id: nat)
    returns (k: nat)
    ensures var sorted := SortBy(events, EventTime);
      var started := UpdateStatus(INITIALLY_UP, InitialStatus(sorted, of, id));
      if FirstUpdate(sorted, of, id).None? then StatusAfter(started, sorted, of, id) == INITIALLY_UP
      else
        && k < |sorted| && Updates(sorted[k], of, id)
        && StatusAfter(started, sorted[..k], of, id) == started
        && StatusAfter(started, sorted[..k + 1], of, id).status.Up? != started.status.Up?
  {
    var sorted := SortBy(events, EventTime);
    k := FirstUpdateAt(sorted, of, id, UpdateStatus(INITIALLY_UP, InitialStatus(sorted, of, id)));
    if FirstUpdate(sorted, of, id).Some? {
      assert sorted[..k + 1][..k] == sorted[..k];
    }
  }
}
