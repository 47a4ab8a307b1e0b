/** The end-of-instant buffer check, over whole traces: what it reports and what maxima it keeps. */
module BufferCheck {
  import opened Types
  import opened BandwidthWindow
  import opened NodeReplay
  import opened Replay

  function MaxAfter(nodes: map<NodeId, NodeView>, n: NodeId): nat
    requires n in nodes
  {
    UpdateMaxUsage(nodes[n]).maxBufferUsage
  }

  predicate Blames(meta: Meta, nodes: map<NodeId, NodeView>, n: NodeId, e: NonFatalError) {
    && n in nodes && n in meta.bufferSizes && meta.bufferSizes[n] < MaxAfter(nodes, n)
    && e == NodeExceedsBufferSize(n, meta.bufferSizes[n], MaxAfter(nodes, n))
  }

  predicate Fits(meta: Meta, nodes: map<NodeId, NodeView>, n: NodeId)
    requires n in nodes && n in meta.bufferSizes
  {
    MaxAfter(nodes, n) <= meta.bufferSizes[n]
  }

  lemma {:induction false} CheckVisitsOnly(meta: Meta, order: seq<NodeId>, nodes: map<NodeId, NodeView>, n: NodeId)
    requires forall m :: m in order ==> m in nodes && m in meta.bufferSizes
    requires n in nodes && n !in order
    ensures UpdateMaxBufferUsage(meta, order, nodes).nodes[n] == nodes[n]
  {
    if order != [] {
      CheckVisitsOnly(meta, order[1..], nodes[order[0] := UpdateMaxUsage(nodes[order[0]])], n);
    }
  }

  /**
   * One check, in whatever order it visits the nodes. It passes exactly if no node ever held more
   * than its buffer, and then every node's maximum is up to date.
   */
  lemma {:induction false} CheckPasses(meta: Meta, order: seq<NodeId>, nodes: map<NodeId, NodeView>)
    requires forall n :: n in order ==> n in nodes && n in meta.bufferSizes
    requires forall i, j :: 0 <= i < j < |order| ==> order[i] != order[j]
    ensures var r := UpdateMaxBufferUsage(meta, order, nodes);
      && (r.error.None? <==> forall n :: n in order ==> Fits(meta, nodes, n))
      && (r.error.None? ==> forall n :: n in order ==> r.nodes[n] == UpdateMaxUsage(nodes[n]))
  {
    hide UpdateMaxUsage;
    if order != [] {
      var n := order[0];
      var rest := order[1..];
      var nodes1 := nodes[n := UpdateMaxUsage(nodes[n])];
      if Fits(meta, nodes, n) {
        CheckPasses(meta, rest, nodes1);
        CheckVisitsOnly(meta, rest, nodes1, n);
        assert forall m :: m in order <==> m == n || m in rest;
        assert forall m :: m in rest ==> (Fits(meta, nodes1, m) <==> Fits(meta, nodes, m));
      }
    }
  }

  /** If it does not pass, it names a node that did. */
  lemma {:induction false} CheckBlames(meta: Meta, order: seq<NodeId>, nodes: map<NodeId, NodeView>)
    requires forall n :: n in order ==> n in nodes && n in meta.bufferSizes
    requires forall i, j :: 0 <= i < j < |order| ==> order[i] != order[j]
    ensures var r := UpdateMaxBufferUsage(meta, order, nodes);
      r.error.Some? ==> exists n :: n in order && Blames(meta, nodes, n, r.error.value)
  {
    hide UpdateMaxUsage;
    var r := UpdateMaxBufferUsage(meta, order, nodes);
    if order != [] && r.error.Some? {
      var n := order[0];
      var nodes1 := nodes[n := UpdateMaxUsage(nodes[n])];
      if Fits(meta, nodes, n) {
        CheckBlames(meta, order[1..], nodes1);
        var m :| m in order[1..] && Blames(meta, nodes1, m, r.error.value);
        assert m in order && Blames(meta, nodes, m, r.error.value);
      } else {
        assert Blames(meta, nodes, n, r.error.value);
      }
    }
  }

  predicate Exceeds(e: NonFatalError) {
    e.NodeExceedsBufferSize?
  }

  predicate Reported(errors: seq<NonFatalError>) {
    exists e :: e in errors && Exceeds(e)
  }

  lemma ReportedAppend(a: seq<NonFatalError>, b: seq<NonFatalError>)
    ensures Reported(a + b) <==> Reported(a) || Reported(b)
  {
    if Reported(a) || Reported(b) {
      var e :| (e in a || e in b) && Exceeds(e);
      assert e in a + b;
    }
  }

  /** The maxima are as before, and no buffer errors are new. */
  ghost predicate KeepsMaxima(st: ReplayState, o: Outcome) {
    o.Running? ==>
      && o.st.nodes.Keys == st.nodes.Keys
      && (forall n :: n in st.nodes ==> o.st.nodes[n].maxBufferUsage == st.nodes[n].maxBufferUsage)
      && (Reported(o.st.errors) <==> Reported(st.errors))
  }

  lemma WithNodeKeepsMaxima(st: ReplayState, n: NodeId, r: NodeResult)
    requires n in st.nodes
    requires r.NodeOk? ==> r.node.maxBufferUsage == st.nodes[n].maxBufferUsage && !Reported(r.errors)
    ensures KeepsMaxima(st, WithNode(st, n, r))
  {
    if r.NodeOk? {
      ReportedAppend(st.errors, r.errors);
    }
  }

  lemma InNodeKeepsMaxima(meta: Meta, st: ReplayState, t: Time, k: StepKind)
    requires WellFormed(meta, st) && st.lastStepTime == t && k.PacketInNode?
    ensures KeepsMaxima(st, StepInNode(meta, st, t, k))
  {
    if k.node in st.nodes {
      var view := st.nodes[k.node];
      if k.packet in st.inFlight {
        var f := st.inFlight[k.packet];
        var errors := ArrivalErrors(meta, st, f, k.node, t);
        hide WellFormed;
        ReportedAppend(st.errors, errors);
        WithNodeKeepsMaxima(st.(inFlight := st.inFlight - {k.packet}, errors := st.errors + errors), k.node,
          Received(view, k.node, k.packet, k.number, k.size, k.droppedOnArrival, t));
      } else {
        hide WellFormed;
        var errors := if k.node in meta.hosts then [] else [PacketCreatedByRouterNode(k.node, k.packet)];
        ReportedAppend(st.errors, errors);
        WithNodeKeepsMaxima(st.(errors := st.errors + errors), k.node,
          Created(view, k.node, k.packet, k.size, t));
      }
    }
  }

  lemma SendKeepsMaxima(meta: Meta, st: ReplayState, t: Time, k: StepKind, p: HeldPacket)
    requires WellFormed(meta, st) && k.PacketInTransit? && k.link in meta.links
    ensures KeepsMaxima(st, Running(SendOnLink(meta, st, t, k, p)))
  {
    var m := meta.links[k.link];
    var used := UsedBps(PacketSent(st.links[k.link], t, p.size, m.bandwidthBps), m.bandwidthBps);
    hide WellFormed, PacketSent, UsedBps;
    var a := if k.node != m.source then [DisconnectedPacketSend(k.node, k.link)] else [];
    var b := if !st.links[k.link].up then [OfflinePacketSend(k.node, k.link)] else [];
    var d := if m.bandwidthBps < used
      then [LinkBandwidthExceeded(k.node, k.link, k.packet, m.bandwidthBps, used)] else [];
    ReportedAppend(st.errors, a);
    ReportedAppend(st.errors + a, b);
    ReportedAppend(st.errors + a + b, d);
  }

  lemma InTransitKeepsMaxima(meta: Meta, st: ReplayState, t: Time, k: StepKind)
    requires WellFormed(meta, st) && st.lastStepTime == t && k.PacketInTransit?
    ensures KeepsMaxima(st, StepInTransit(meta, st, t, k))
  {
    hide SendOnLink;
    if k.node in st.nodes {
      var r := Sent(st.nodes[k.node], k.node, k.packet);
      WithNodeKeepsMaxima(st, k.node, r);
      if r.NodeOk? && k.link in meta.links {
        StepsKeepTally(st.nodes[k.node], k.node, k.packet, 0, 0, false, Random, 0, t);
        WithNodePreserves(meta, st, k.node, r);
        SendKeepsMaxima(meta, WithNode(st, k.node, r).st, t, k, st.nodes[k.node].packets[k.packet]);
      }
    }
  }

  lemma NodeStepKeepsMaximum(view: NodeView, t: Time, k: StepKind)
    requires IsNodeStep(k) && Tallied(view)
    ensures var r := NodeStep(view, t, k);
      r.NodeOk? ==> r.node.maxBufferUsage == view.maxBufferUsage && !Reported(r.errors)
  {
  }

  /** Steps leave the maxima alone, and track no buffer errors themselves. */
  lemma StepKeepsMaxima(meta: Meta, st: ReplayState, t: Time, k: StepKind)
    requires WellFormed(meta, st) && st.lastStepTime == t
    ensures KeepsMaxima(st, ApplyStep(meta, st, t, k))
  {
    hide StepInNode, StepInTransit;
    if k.PacketInNode? {
      InNodeKeepsMaxima(meta, st, t, k);
    } else if k.PacketInTransit? {
      InTransitKeepsMaxima(meta, st, t, k);
    } else if k.PacketLostInTransit? {
      hide WellFormed;
      ReportedAppend(st.errors, [MissingLostPacket(k.packet)]);
    } else if IsNodeStep(k) && k.node in st.nodes {
      NodeStepKeepsMaximum(st.nodes[k.node], t, k);
      hide NodeStep, WithNode;
      WithNodeKeepsMaxima(st, k.node, NodeStep(st.nodes[k.node], t, k));
    }
  }

  // ----- Whole traces -----

  /** A new instant begins with step `i`: the steps before it are the trace up to the end of an instant. */
  predicate Boundary(trace: seq<Step>, i: nat) {
    i < |trace| && trace[i].time != LastTime(trace[..i])
  }

  /** The steps before `i` end an instant: a new one begins, or the trace is over. */
  predicate EndsInstant(trace: seq<Step>, i: nat) {
    Boundary(trace, i) || i == |trace|
  }

  ghost function UsageAfter(meta: Meta, order: seq<NodeId>, trace: seq<Step>, i: nat, n: NodeId): nat
    requires ValidOrder(meta, order) && TimeSorted(trace) && i <= |trace|
  {
    var o := ReplayTrace(meta, order, trace[..i]);
    if o.Running? && n in o.st.nodes then o.st.nodes[n].bufferUsage else 0
  }

  ghost predicate OverfullAt(meta: Meta, order: seq<NodeId>, trace: seq<Step>, i: nat, n: NodeId)
    requires ValidOrder(meta, order) && TimeSorted(trace) && i <= |trace|
  {
    n in meta.bufferSizes && meta.bufferSizes[n] < UsageAfter(meta, order, trace, i, n)
  }

  /** Errors and maxima are right for the instants that end after the prefixes in `ends`. */
  ghost predicate Covers(meta: Meta, order: seq<NodeId>, trace: seq<Step>, ends: set<nat>,
                         errors: seq<NonFatalError>, nodes: map<NodeId, NodeView>)
    requires ValidOrder(meta, order) && TimeSorted(trace) && forall i :: i in ends ==> i <= |trace|
  {
    && nodes.Keys == meta.bufferSizes.Keys
    && (Reported(errors) <==> exists i, n :: i in ends && OverfullAt(meta, order, trace, i, n))
    && (!Reported(errors) ==> forall n :: n in nodes ==>
          IsMaximum(meta, order, trace, ends, n, nodes[n].maxBufferUsage)
          && nodes[n].maxBufferUsage <= meta.bufferSizes[n])
  }

  ghost predicate IsMaximum(meta: Meta, order: seq<NodeId>, trace: seq<Step>, ends: set<nat>, n: NodeId, most: nat)
    requires ValidOrder(meta, order) && TimeSorted(trace) && forall i :: i in ends ==> i <= |trace|
  {
    && (forall i :: i in ends ==> UsageAfter(meta, order, trace, i, n) <= most)
    && (most == 0 || exists i :: i in ends && UsageAfter(meta, order, trace, i, n) == most)
  }

  function Boundaries(trace: seq<Step>): set<nat> {
    set i: nat | i < |trace| && Boundary(trace, i)
  }

  lemma CoversLonger(meta: Meta, order: seq<NodeId>, trace: seq<Step>, step: Step, ends: set<nat>,
                     errors: seq<NonFatalError>, nodes: map<NodeId, NodeView>)
    requires ValidOrder(meta, order) && TimeSorted(trace + [step]) && forall i :: i in ends ==> i <= |trace|
    requires TimeSorted(trace) && Covers(meta, order, trace, ends, errors, nodes)
    ensures Covers(meta, order, trace + [step], ends, errors, nodes)
  {
    forall i, n | i in ends
      ensures UsageAfter(meta, order, trace + [step], i, n) == UsageAfter(meta, order, trace, i, n)
    {
      assert (trace + [step])[..i] == trace[..i];
    }
    forall n | n in nodes && !Reported(errors)
      ensures IsMaximum(meta, order, trace + [step], ends, n, nodes[n].maxBufferUsage)
    {
      var most := nodes[n].maxBufferUsage;
      assert IsMaximum(meta, order, trace, ends, n, most);
      if most != 0 {
        var i :| i in ends && UsageAfter(meta, order, trace, i, n) == most;
        assert UsageAfter(meta, order, trace + [step], i, n) == most;
      }
    }
    if exists i, n :: i in ends && OverfullAt(meta, order, trace, i, n) {
      var i, n :| i in ends && OverfullAt(meta, order, trace, i, n);
      assert OverfullAt(meta, order, trace + [step], i, n);
    }
    if exists i, n :: i in ends && OverfullAt(meta, order, trace + [step], i, n) {
      var i, n :| i in ends && OverfullAt(meta, order, trace + [step], i, n);
      assert OverfullAt(meta, order, trace, i, n);
    }
  }

  lemma WiderMaximum(meta: Meta, order: seq<NodeId>, trace: seq<Step>, ends: set<nat>, n: NodeId, most: nat)
    requires ValidOrder(meta, order) && TimeSorted(trace) && forall i :: i in ends ==> i <= |trace|
    requires IsMaximum(meta, order, trace, ends, n, most)
    ensures IsMaximum(meta, order, trace, ends + {|trace|}, n, Max(UsageAfter(meta, order, trace, |trace|, n), most))
  {
    hide UsageAfter;
    var ends1 := ends + {|trace|};
    var usage := UsageAfter(meta, order, trace, |trace|, n);
    if usage < most {
      var i :| i in ends && UsageAfter(meta, order, trace, i, n) == most;
      assert i in ends1;
    } else {
      assert |trace| in ends1;
    }
  }

  lemma UsageNow(meta: Meta, order: seq<NodeId>, trace: seq<Step>, n: NodeId)
    requires ValidOrder(meta, order) && TimeSorted(trace) && ReplayTrace(meta, order, trace).Running?
    requires n in ReplayTrace(meta, order, trace).st.nodes
    ensures UsageAfter(meta, order, trace, |trace|, n) == ReplayTrace(meta, order, trace).st.nodes[n].bufferUsage
  {
    assert trace[..|trace|] == trace;
  }

  ghost predicate OverfullIn(meta: Meta, order: seq<NodeId>, trace: seq<Step>, ends: set<nat>)
    requires ValidOrder(meta, order) && TimeSorted(trace) && forall i :: i in ends ==> i <= |trace|
  {
    exists i, n :: i in ends && OverfullAt(meta, order, trace, i, n)
  }

  lemma StaysOverfull(meta: Meta, order: seq<NodeId>, trace: seq<Step>, ends: set<nat>, ends1: set<nat>)
    requires ValidOrder(meta, order) && TimeSorted(trace) && forall i :: i in ends1 ==> i <= |trace|
    requires ends <= ends1 && |trace| in ends1
    requires OverfullIn(meta, order, trace, ends)
    ensures OverfullIn(meta, order, trace, ends1)
  {
    hide OverfullAt;
    var i, n :| i in ends && OverfullAt(meta, order, trace, i, n);
    assert i in ends1;
  }

  lemma BlamedIsOverfull(meta: Meta, order: seq<NodeId>, trace: seq<Step>, ends: set<nat>, st: ReplayState,
                         n: NodeId, e: NonFatalError)
    requires ValidOrder(meta, order) && TimeSorted(trace) && forall i :: i in ends ==> i <= |trace|
    requires |trace| in ends
    requires ReplayTrace(meta, order, trace) == Running(st) && st.nodes.Keys == meta.bufferSizes.Keys
    requires Blames(meta, st.nodes, n, e) && st.nodes[n].maxBufferUsage <= meta.bufferSizes[n]
    ensures OverfullIn(meta, order, trace, ends)
  {
    hide ReplayTrace;
    UsageNow(meta, order, trace, n);
    assert |trace| in ends && OverfullAt(meta, order, trace, |trace|, n);
  }

  lemma CheckReports(meta: Meta, order: seq<NodeId>, st: ReplayState)
    requires ValidOrder(meta, order) && st.nodes.Keys == meta.bufferSizes.Keys
    ensures Reported(st.errors) ==> Reported(CheckUsage(meta, order, st).errors)
    ensures UpdateMaxBufferUsage(meta, order, st.nodes).error.Some? ==>
      Reported(CheckUsage(meta, order, st).errors)
      && exists n :: n in order && Blames(meta, st.nodes, n, UpdateMaxBufferUsage(meta, order, st.nodes).error.value)
  {
    hide UpdateMaxBufferUsage;
    OrderCovers(meta, order);
    var r := UpdateMaxBufferUsage(meta, order, st.nodes);
    ReportedAppend(st.errors, if r.error.Some? then [r.error.value] else []);
    if r.error.Some? {
      CheckBlames(meta, order, st.nodes);
      assert r.error.value in [r.error.value] && Exceeds(r.error.value);
    }
  }

  predicate MaximaFit(meta: Meta, nodes: map<NodeId, NodeView>) {
    forall n :: n in nodes && n in meta.bufferSizes ==> nodes[n].maxBufferUsage <= meta.bufferSizes[n]
  }

  lemma CoversMeans(meta: Meta, order: seq<NodeId>, trace: seq<Step>, ends: set<nat>, st: ReplayState)
    requires ValidOrder(meta, order) && TimeSorted(trace) && forall i :: i in ends ==> i <= |trace|
    requires Covers(meta, order, trace, ends, st.errors, st.nodes)
    ensures Reported(st.errors) <==> OverfullIn(meta, order, trace, ends)
    ensures !Reported(st.errors) ==> MaximaFit(meta, st.nodes)
  {
    hide OverfullAt, IsMaximum, Reported;
  }

  lemma FailedCheckCovers(meta: Meta, order: seq<NodeId>, trace: seq<Step>, ends: set<nat>, ends1: set<nat>,
                          st: ReplayState)
    requires ValidOrder(meta, order) && TimeSorted(trace) && forall i :: i in ends1 ==> i <= |trace|
    requires ends <= ends1 && |trace| in ends1
    requires ReplayTrace(meta, order, trace) == Running(st) && st.nodes.Keys == meta.bufferSizes.Keys
    requires Reported(st.errors) ==> OverfullIn(meta, order, trace, ends)
    requires !Reported(st.errors) ==> MaximaFit(meta, st.nodes)
    requires Reported(st.errors) || UpdateMaxBufferUsage(meta, order, st.nodes).error.Some?
    ensures Reported(CheckUsage(meta, order, st).errors)
    ensures OverfullIn(meta, order, trace, ends1)
  {
    hide ReplayTrace, UpdateMaxBufferUsage, OverfullAt, IsMaximum, Blames, CheckUsage, Reported, ValidOrder;
    OrderCovers(meta, order);
    CheckReports(meta, order, st);
    if Reported(st.errors) {
      StaysOverfull(meta, order, trace, ends, ends1);
    } else {
      var e := UpdateMaxBufferUsage(meta, order, st.nodes).error.value;
      var n :| n in order && Blames(meta, st.nodes, n, e);
      BlamedIsOverfull(meta, order, trace, ends1, st, n, e);
    }
  }

  lemma PassedCheckCovers(meta: Meta, order: seq<NodeId>, trace: seq<Step>, ends: set<nat>, st: ReplayState)
    requires ValidOrder(meta, order) && TimeSorted(trace) && forall i :: i in ends ==> i <= |trace|
    requires ReplayTrace(meta, order, trace) == Running(st) && st.nodes.Keys == meta.bufferSizes.Keys
    requires Covers(meta, order, trace, ends, st.errors, st.nodes)
    requires !Reported(st.errors) && UpdateMaxBufferUsage(meta, order, st.nodes).error.None?
    ensures var st1 := CheckUsage(meta, order, st);
      Covers(meta, order, trace, ends + {|trace|}, st1.errors, st1.nodes)
  {
    hide ReplayTrace, UsageAfter, UpdateMaxBufferUsage, IsMaximum, OverfullAt, Reported, ValidOrder, Fits;
    var ends1 := ends + {|trace|};
    var st1 := CheckUsage(meta, order, st);
    OrderCovers(meta, order);
    CheckPasses(meta, order, st.nodes);
    assert st1.errors == st.errors;
    forall n | n in st1.nodes
      ensures IsMaximum(meta, order, trace, ends1, n, st1.nodes[n].maxBufferUsage)
      ensures st1.nodes[n].maxBufferUsage <= meta.bufferSizes[n]
    {
      UsageNow(meta, order, trace, n);
      WiderMaximum(meta, order, trace, ends, n, st.nodes[n].maxBufferUsage);
      FitsMeans(meta, st.nodes, n);
    }
    forall i, n | i in ends1
      ensures !OverfullAt(meta, order, trace, i, n)
    {
      if n in st1.nodes {
        NotOverfull(meta, order, trace, ends1, n, st1.nodes[n].maxBufferUsage, i);
      } else {
        UnknownNotOverfull(meta, order, trace, n, i);
      }
    }
  }

  lemma OrderCovers(meta: Meta, order: seq<NodeId>)
    requires ValidOrder(meta, order)
    ensures forall n :: n in order <==> n in meta.bufferSizes
    ensures forall i, j :: 0 <= i < j < |order| ==> order[i] != order[j]
  {
  }

  lemma FitsMeans(meta: Meta, nodes: map<NodeId, NodeView>, n: NodeId)
    requires n in nodes && n in meta.bufferSizes && Fits(meta, nodes, n)
    ensures UpdateMaxUsage(nodes[n]).maxBufferUsage == Max(nodes[n].bufferUsage, nodes[n].maxBufferUsage)
    ensures UpdateMaxUsage(nodes[n]).maxBufferUsage <= meta.bufferSizes[n]
  {
  }

  lemma NotOverfull(meta: Meta, order: seq<NodeId>, trace: seq<Step>, ends: set<nat>, n: NodeId, most: nat, i: nat)
    requires ValidOrder(meta, order) && TimeSorted(trace) && forall i :: i in ends ==> i <= |trace|
    requires IsMaximum(meta, order, trace, ends, n, most) && i in ends
    requires n in meta.bufferSizes && most <= meta.bufferSizes[n]
    ensures !OverfullAt(meta, order, trace, i, n)
  {
  }

  lemma UnknownNotOverfull(meta: Meta, order: seq<NodeId>, trace: seq<Step>, n: NodeId, i: nat)
    requires ValidOrder(meta, order) && TimeSorted(trace) && i <= |trace| && n !in meta.bufferSizes
    ensures !OverfullAt(meta, order, trace, i, n)
  {
  }

  /** A check at the end of the trace so far covers that instant as well. */
  lemma CheckCovers(meta: Meta, order: seq<NodeId>, trace: seq<Step>, ends: set<nat>, st: ReplayState)
    requires ValidOrder(meta, order) && TimeSorted(trace) && forall i :: i in ends ==> i <= |trace|
    requires ReplayTrace(meta, order, trace) == Running(st) && st.nodes.Keys == meta.bufferSizes.Keys
    requires Covers(meta, order, trace, ends, st.errors, st.nodes)
    ensures var st1 := CheckUsage(meta, order, st);
      Covers(meta, order, trace, ends + {|trace|}, st1.errors, st1.nodes)
  {
    hide ReplayTrace, OverfullAt, UpdateMaxBufferUsage, IsMaximum, Reported;
    if Reported(st.errors) || UpdateMaxBufferUsage(meta, order, st.nodes).error.Some? {
      CoversMeans(meta, order, trace, ends, st);
      FailedCheckCovers(meta, order, trace, ends, ends + {|trace|}, st);
    } else {
      PassedCheckCovers(meta, order, trace, ends, st);
    }
  }

  lemma BoundariesSnoc(trace: seq<Step>, step: Step)
    ensures Boundaries(trace + [step])
         == Boundaries(trace) + if step.time != LastTime(trace) then {|trace|} else {}
  {
    var trace1 := trace + [step];
    assert trace1[..|trace|] == trace;
    forall i: nat | i < |trace|
      ensures Boundary(trace1, i) <==> Boundary(trace, i)
    {
      assert trace1[..i] == trace[..i];
    }
  }

  lemma CoversKept(meta: Meta, order: seq<NodeId>, trace: seq<Step>, ends: set<nat>, st: ReplayState, o: Outcome)
    requires ValidOrder(meta, order) && TimeSorted(trace) && forall i :: i in ends ==> i <= |trace|
    requires Covers(meta, order, trace, ends, st.errors, st.nodes) && KeepsMaxima(st, o) && o.Running?
    ensures Covers(meta, order, trace, ends, o.st.errors, o.st.nodes)
  {
    hide OverfullAt, IsMaximum, Reported;
  }

  lemma {:induction false} InstantsCovered(meta: Meta, order: seq<NodeId>, trace: seq<Step>)
    requires ValidOrder(meta, order) && TimeSorted(trace)
    requires ReplayTrace(meta, order, trace).Running?
    ensures var st := ReplayTrace(meta, order, trace).st;
      Covers(meta, order, trace, Boundaries(trace), st.errors, st.nodes)
    decreases |trace|
  {
    hide WellFormed, ApplyStep, CheckUsage, KeepsMaxima, Boundary;
    if trace == [] {
      assert Boundaries(trace) == {};
    } else {
      hide Covers, Boundaries;
      var init, step := trace[..|trace| - 1], trace[|trace| - 1];
      assert trace == init + [step];
      InstantsCovered(meta, order, init);
      BoundariesSnoc(init, step);
      var st := ReplayTrace(meta, order, init).st;
      var st1 := AdvanceTo(meta, order, st, step.time);
      BoundariesInside(init);
      NodesKnown(meta, st);
      if step.time != st.lastStepTime {
        CheckCovers(meta, order, init, Boundaries(init), st);
      }
      CoversLonger(meta, order, init, step, Boundaries(trace), st1.errors, st1.nodes);
      StepKeepsMaxima(meta, st1, step.time, step.kind);
      BoundariesInside(trace);
      CoversKept(meta, order, trace, Boundaries(trace), st1, ApplyStep(meta, st1, step.time, step.kind));
    }
  }

  lemma BoundariesInside(trace: seq<Step>)
    ensures forall i :: i in Boundaries(trace) ==> i < |trace|
  {
  }

  lemma NodesKnown(meta: Meta, st: ReplayState)
    requires WellFormed(meta, st)
    ensures st.nodes.Keys == meta.bufferSizes.Keys
  {
  }

  lemma {:induction false} UpdatedBeforeLast(meta: Meta, order: seq<NodeId>, trace: seq<Step>)
    requires ValidOrder(meta, order) && TimeSorted(trace) && ReplayTrace(meta, order, trace).Running?
    ensures var st := ReplayTrace(meta, order, trace).st;
      st.lastUsageUpdate.Some? ==> st.lastUsageUpdate.value < st.lastStepTime
    decreases |trace|
  {
    hide WellFormed, ApplyStep, UpdateMaxBufferUsage;
    if trace != [] {
      var init, step := trace[..|trace| - 1], trace[|trace| - 1];
      UpdatedBeforeLast(meta, order, init);
      var st := ReplayTrace(meta, order, init).st;
      ApplyStepPreserves(meta, AdvanceTo(meta, order, st, step.time), step.time, step.kind);
    }
  }

  /** The final verdict always checks the last instant. */
  lemma VerdictChecks(meta: Meta, order: seq<NodeId>, trace: seq<Step>)
    requires ValidOrder(meta, order) && TimeSorted(trace) && ReplayTrace(meta, order, trace).Running?
    ensures Verdict(meta, order, trace) == Running(CheckUsage(meta, order, ReplayTrace(meta, order, trace).st))
  {
    hide CheckUsage;
    UpdatedBeforeLast(meta, order, trace);
  }

  ghost predicate OverfullAtSomeEnd(meta: Meta, order: seq<NodeId>, trace: seq<Step>)
    requires ValidOrder(meta, order) && TimeSorted(trace)
  {
    exists i: nat, n :: i <= |trace| && EndsInstant(trace, i) && OverfullAt(meta, order, trace, i, n)
  }

  /** `most` is the largest usage of the node at the end of any instant. */
  ghost predicate LargestAtEnds(meta: Meta, order: seq<NodeId>, trace: seq<Step>, n: NodeId, most: nat)
    requires ValidOrder(meta, order) && TimeSorted(trace)
  {
    && (forall i: nat :: i <= |trace| && EndsInstant(trace, i) ==> UsageAfter(meta, order, trace, i, n) <= most)
    && (exists i: nat :: i <= |trace| && EndsInstant(trace, i) && UsageAfter(meta, order, trace, i, n) == most)
  }

  lemma EndsAre(trace: seq<Step>)
    ensures forall i: nat :: i in Boundaries(trace) + {|trace|} <==> i <= |trace| && EndsInstant(trace, i)
  {
    hide Boundary;
  }

  lemma MaximumAtEnds(meta: Meta, order: seq<NodeId>, trace: seq<Step>, n: NodeId, most: nat)
    requires ValidOrder(meta, order) && TimeSorted(trace)
    requires forall i :: i in Boundaries(trace) ==> i <= |trace|
    requires IsMaximum(meta, order, trace, Boundaries(trace) + {|trace|}, n, most)
    ensures LargestAtEnds(meta, order, trace, n, most)
  {
    hide UsageAfter, EndsInstant, Boundaries;
    EndsAre(trace);
    var ends := Boundaries(trace) + {|trace|};
    if most == 0 {
      assert |trace| in ends && UsageAfter(meta, order, trace, |trace|, n) <= most;
    } else {
      var i :| i in ends && UsageAfter(meta, order, trace, i, n) == most;
    }
  }

  /**
   * In a replay without a fatal error, a buffer error is reported exactly if some node holds more
   * than its buffer at the end of some instant; and if none is, every node's reported maximum is
   * the largest usage it had at the end of any instant. The order of visits does not matter.
   */
  lemma BufferErrorsExact(meta: Meta, order: seq<NodeId>, trace: seq<Step>)
    requires ValidOrder(meta, order) && TimeSorted(trace) && Verdict(meta, order, trace).Running?
    ensures Reported(Verdict(meta, order, trace).st.errors) <==> OverfullAtSomeEnd(meta, order, trace)
    ensures !Reported(Verdict(meta, order, trace).st.errors) ==>
      forall n :: n in Verdict(meta, order, trace).st.nodes ==>
        LargestAtEnds(meta, order, trace, n, Verdict(meta, order, trace).st.nodes[n].maxBufferUsage)
  {
    hide WellFormed, CheckUsage, ReplayTrace, OverfullAt, IsMaximum, LargestAtEnds, Boundaries, EndsInstant, Reported;
    var st := ReplayTrace(meta, order, trace).st;
    BoundariesInside(trace);
    NodesKnown(meta, st);
    InstantsCovered(meta, order, trace);
    VerdictChecks(meta, order, trace);
    CheckCovers(meta, order, trace, Boundaries(trace), st);
    EndsAre(trace);
    var st1 := Verdict(meta, order, trace).st;
    if !Reported(st1.errors) {
      forall n | n in st1.nodes
        ensures LargestAtEnds(meta, order, trace, n, st1.nodes[n].maxBufferUsage)
      {
        MaximumAtEnds(meta, order, trace, n, st1.nodes[n].maxBufferUsage);
      }
    }
  }
}
