/** What the end-of-instant checks track, exactly, in the order in which they visit the nodes. */
module BufferOrder {
  import opened Types
  import opened NodeReplay
  import opened BandwidthWindow
  import opened Replay
  import opened BufferCheck
  import opened ReplayTotals
  import opened TraceHoldings
  import opened ErrorCauses
  import opened TraceJudgement

  // ----- One check -----

  function NewMaximum(view: NodeView): nat {
    if view.bufferUsage < view.maxBufferUsage then view.maxBufferUsage else view.bufferUsage
  }

  /** Every node visited before number `p` has never held too much. */
  predicate GetsTo(meta: Meta, order: seq<NodeId>, nodes: map<NodeId, NodeView>, p: nat)
    requires p <= |order| && forall n :: n in order ==> n in nodes && n in meta.bufferSizes
  {
    forall q :: 0 <= q < p ==> NewMaximum(nodes[order[q]]) <= meta.bufferSizes[order[q]]
  }

  predicate StopsAt(meta: Meta, order: seq<NodeId>, nodes: map<NodeId, NodeView>, p: nat)
    requires p < |order| && forall n :: n in order ==> n in nodes && n in meta.bufferSizes
  {
    GetsTo(meta, order, nodes, p) && meta.bufferSizes[order[p]] < NewMaximum(nodes[order[p]])
  }

  /** A check updates the maxima of the nodes that it gets to, and names the first that ever held too much. */
  lemma {:induction false} CheckStops(meta: Meta, order: seq<NodeId>, nodes: map<NodeId, NodeView>, p: nat)
    requires forall n :: n in order ==> n in nodes && n in meta.bufferSizes
    requires (forall i, j :: 0 <= i < j < |order| ==> order[i] != order[j]) && p < |order|
    ensures var r := UpdateMaxBufferUsage(meta, order, nodes);
      && r.nodes[order[p]].maxBufferUsage == (if GetsTo(meta, order, nodes, p) then NewMaximum(nodes[order[p]])
                                              else nodes[order[p]].maxBufferUsage)
      && (StopsAt(meta, order, nodes, p) <==>
            r.error == Some(NodeExceedsBufferSize(order[p], meta.bufferSizes[order[p]], NewMaximum(nodes[order[p]])))
            && GetsTo(meta, order, nodes, p))
  {
    var n, rest := order[0], order[1..];
    var nodes1 := nodes[n := UpdateMaxUsage(nodes[n])];
    if NewMaximum(nodes[n]) <= meta.bufferSizes[n] {
      if p == 0 {
        CheckVisitsOnly(meta, rest, nodes1, n);
        NamesOther(meta, rest, nodes1, n);
      } else {
        CheckStops(meta, rest, nodes1, p - 1);
        GetsToRest(meta, order, nodes, p);
      }
    }
  }

  lemma GetsToRest(meta: Meta, order: seq<NodeId>, nodes: map<NodeId, NodeView>, p: nat)
    requires forall n :: n in order ==> n in nodes && n in meta.bufferSizes
    requires (forall i, j :: 0 <= i < j < |order| ==> order[i] != order[j]) && 0 < p < |order|
    requires NewMaximum(nodes[order[0]]) <= meta.bufferSizes[order[0]]
    ensures GetsTo(meta, order, nodes, p) <==>
      GetsTo(meta, order[1..], nodes[order[0] := UpdateMaxUsage(nodes[order[0]])], p - 1)
  {
    var rest, nodes1 := order[1..], nodes[order[0] := UpdateMaxUsage(nodes[order[0]])];
    assert forall q :: 0 < q < |order| ==> rest[q - 1] == order[q] && nodes1[order[q]] == nodes[order[q]];
    if GetsTo(meta, rest, nodes1, p - 1) {
      forall q | 0 <= q < p
        ensures NewMaximum(nodes[order[q]]) <= meta.bufferSizes[order[q]]
      {
        if q > 0 {
          assert NewMaximum(nodes1[rest[q - 1]]) <= meta.bufferSizes[rest[q - 1]];
        }
      }
    }
  }

  /** The error names one of the nodes visited. */
  lemma NamesOther(meta: Meta, order: seq<NodeId>, nodes: map<NodeId, NodeView>, n: NodeId)
    requires forall m :: m in order ==> m in nodes && m in meta.bufferSizes
    requires (forall i, j :: 0 <= i < j < |order| ==> order[i] != order[j]) && n !in order
    ensures var r := UpdateMaxBufferUsage(meta, order, nodes);
      r.error.Some? ==> r.error.value.NodeExceedsBufferSize? && r.error.value.node != n && r.error.value.node in order
  {
    CheckBlames(meta, order, nodes);
  }

  /** Some node is the first, if there is an error. */
  lemma {:induction false} CheckNames(meta: Meta, order: seq<NodeId>, nodes: map<NodeId, NodeView>) returns (p: nat)
    requires forall n :: n in order ==> n in nodes && n in meta.bufferSizes
    requires forall i, j :: 0 <= i < j < |order| ==> order[i] != order[j]
    requires UpdateMaxBufferUsage(meta, order, nodes).error.Some?
    ensures p < |order| && StopsAt(meta, order, nodes, p)
    ensures UpdateMaxBufferUsage(meta, order, nodes).error.value
         == NodeExceedsBufferSize(order[p], meta.bufferSizes[order[p]], NewMaximum(nodes[order[p]]))
  {
    p := 0;
    var n, rest := order[0], order[1..];
    if NewMaximum(nodes[n]) <= meta.bufferSizes[n] {
      var nodes1 := nodes[n := UpdateMaxUsage(nodes[n])];
      var q := CheckNames(meta, rest, nodes1);
      p := q + 1;
      GetsToRest(meta, order, nodes, p);
    }
  }

  // ----- Whole traces -----

  /** The bytes that a node holds after the first `i` steps. */
  ghost function HeldAfter(trace: seq<Step>, i: nat, n: NodeId): nat {
    if i <= |trace| then BytesHeld(trace[..i], n) else 0
  }

  /** No node before number `p` held too much at the end of an instant until step `i`. */
  ghost predicate FineUntil(meta: Meta, order: seq<NodeId>, trace: seq<Step>, ends: set<nat>, p: nat, i: nat) {
    forall q, j :: 0 <= q < p && q < |order| && order[q] in meta.bufferSizes && j in ends && j <= i ==>
      HeldAfter(trace, j, order[q]) <= meta.bufferSizes[order[q]]
  }

  /** The most that node number `p` held at the end of an instant while all nodes before it were fine. */
  ghost predicate MostWhileFine(meta: Meta, order: seq<NodeId>, trace: seq<Step>, ends: set<nat>, p: nat, most: nat)
    requires p < |order|
  {
    && (forall i :: i in ends && FineUntil(meta, order, trace, ends, p, i) ==> HeldAfter(trace, i, order[p]) <= most)
    && (most == 0 || exists i ::
          i in ends && FineUntil(meta, order, trace, ends, p, i) && HeldAfter(trace, i, order[p]) == most)
  }

  /** At the end of an instant, node number `p` is the first that has ever held too much, and `most` is the most it held. */
  ghost predicate IsFirstOver(meta: Meta, order: seq<NodeId>, trace: seq<Step>, ends: set<nat>, i: nat, p: nat, most: nat)
    requires p < |order| && order[p] in meta.bufferSizes
  {
    && i in ends && FineUntil(meta, order, trace, ends, p, i) && meta.bufferSizes[order[p]] < most
    && (forall j :: j in ends && j <= i ==> HeldAfter(trace, j, order[p]) <= most)
    && (exists j :: j in ends && j <= i && HeldAfter(trace, j, order[p]) == most)
  }

  ghost predicate IsBufferFault(meta: Meta, order: seq<NodeId>, trace: seq<Step>, ends: set<nat>, e: NonFatalError, i: nat,
                                p: nat)
  {
    && e.NodeExceedsBufferSize? && p < |order| && order[p] in meta.bufferSizes
    && e.node == order[p] && e.bufferSize == meta.bufferSizes[order[p]]
    && IsFirstOver(meta, order, trace, ends, i, p, e.maxUsage)
  }

  ghost predicate MaximaKnown(meta: Meta, order: seq<NodeId>, trace: seq<Step>, ends: set<nat>, nodes: map<NodeId, NodeView>)
  {
    forall p :: 0 <= p < |order| ==>
      order[p] in nodes && MostWhileFine(meta, order, trace, ends, p, nodes[order[p]].maxBufferUsage)
  }

  ghost predicate FaultsKnown(meta: Meta, order: seq<NodeId>, trace: seq<Step>, ends: set<nat>, errors: seq<NonFatalError>) {
    forall e: NonFatalError :: e.NodeExceedsBufferSize? ==>
      (e in errors <==> exists i, p :: IsBufferFault(meta, order, trace, ends, e, i, p))
  }

  /** The nodes hold what they do after `k` steps. */
  ghost predicate HoldsNow(order: seq<NodeId>, trace: seq<Step>, k: nat, nodes: map<NodeId, NodeView>) {
    forall p :: 0 <= p < |order| ==> order[p] in nodes && nodes[order[p]].bufferUsage == HeldAfter(trace, k, order[p])
  }

  lemma StillFine(meta: Meta, order: seq<NodeId>, trace: seq<Step>, ends: set<nat>, k: nat, p: nat, i: nat)
    requires forall j :: j in ends ==> j < k
    requires i < k
    ensures FineUntil(meta, order, trace, ends + {k}, p, i) <==> FineUntil(meta, order, trace, ends, p, i)
  {
    hide HeldAfter;
  }

  /** While all nodes before it are fine, the check gets to the node, and what it then knows of it is right. */
  lemma NewMaximumIs(meta: Meta, order: seq<NodeId>, trace: seq<Step>, ends: set<nat>, nodes: map<NodeId, NodeView>,
                     k: nat, p: nat)
    requires (forall j :: j in ends ==> j < k) && p < |order|
    requires MaximaKnown(meta, order, trace, ends, nodes) && HoldsNow(order, trace, k, nodes)
    requires FineUntil(meta, order, trace, ends + {k}, p, k)
    ensures var most := NewMaximum(nodes[order[p]]);
      && (forall j :: j in ends + {k} ==> HeldAfter(trace, j, order[p]) <= most)
      && (exists j :: j in ends + {k} && HeldAfter(trace, j, order[p]) == most)
  {
    hide HeldAfter;
    var most := nodes[order[p]].maxBufferUsage;
    assert MostWhileFine(meta, order, trace, ends, p, most);
    forall j | j in ends
      ensures HeldAfter(trace, j, order[p]) <= most
    {
      assert FineUntil(meta, order, trace, ends, p, j);
    }
    assert k in ends + {k} && HeldAfter(trace, k, order[p]) == nodes[order[p]].bufferUsage;
    if nodes[order[p]].bufferUsage < most {
      var i :| i in ends && FineUntil(meta, order, trace, ends, p, i) && HeldAfter(trace, i, order[p]) == most;
      assert i in ends + {k};
    }
  }

  lemma {:induction false} GetsToIffFine(meta: Meta, order: seq<NodeId>, trace: seq<Step>, ends: set<nat>,
                                         nodes: map<NodeId, NodeView>, k: nat, p: nat)
    requires (forall j :: j in ends ==> j < k) && p <= |order|
    requires forall n :: n in order ==> n in nodes && n in meta.bufferSizes
    requires MaximaKnown(meta, order, trace, ends, nodes) && HoldsNow(order, trace, k, nodes)
    ensures GetsTo(meta, order, nodes, p) <==> FineUntil(meta, order, trace, ends + {k}, p, k)
  {
    hide HeldAfter, MaximaKnown, HoldsNow, NewMaximum;
    if p > 0 {
      GetsToIffFine(meta, order, trace, ends, nodes, k, p - 1);
      OneMoreFine(meta, order, trace, ends + {k}, p - 1, k);
      OneMorePassed(meta, order, nodes, p - 1);
      if FineUntil(meta, order, trace, ends + {k}, p - 1, k) {
        NewMaximumIs(meta, order, trace, ends, nodes, k, p - 1);
        InsideEnds(ends, k);
      }
    }
  }

  lemma InsideEnds(ends: set<nat>, k: nat)
    requires forall j :: j in ends ==> j < k
    ensures forall j :: j in ends + {k} ==> j <= k
  {
  }

  lemma OneMoreFine(meta: Meta, order: seq<NodeId>, trace: seq<Step>, ends: set<nat>, p: nat, i: nat)
    requires p < |order| && order[p] in meta.bufferSizes
    ensures FineUntil(meta, order, trace, ends, p + 1, i) <==>
      FineUntil(meta, order, trace, ends, p, i)
      && forall j :: j in ends && j <= i ==> HeldAfter(trace, j, order[p]) <= meta.bufferSizes[order[p]]
  {
    hide HeldAfter;
  }

  lemma OneMorePassed(meta: Meta, order: seq<NodeId>, nodes: map<NodeId, NodeView>, p: nat)
    requires p < |order| && forall n :: n in order ==> n in nodes && n in meta.bufferSizes
    ensures GetsTo(meta, order, nodes, p + 1) <==>
      GetsTo(meta, order, nodes, p) && NewMaximum(nodes[order[p]]) <= meta.bufferSizes[order[p]]
  {
    hide NewMaximum;
  }

  lemma FineSooner(meta: Meta, order: seq<NodeId>, trace: seq<Step>, ends: set<nat>, p: nat, i: nat, j: nat)
    requires FineUntil(meta, order, trace, ends, p, i) && j <= i
    ensures FineUntil(meta, order, trace, ends, p, j)
  {
    hide HeldAfter;
  }

  lemma CheckedMaximum(meta: Meta, order: seq<NodeId>, trace: seq<Step>, ends: set<nat>, nodes: map<NodeId, NodeView>,
                       k: nat, p: nat)
    requires (forall j :: j in ends ==> j < k) && p < |order| && ValidOrder(meta, order)
    requires nodes.Keys == meta.bufferSizes.Keys
    requires MaximaKnown(meta, order, trace, ends, nodes) && HoldsNow(order, trace, k, nodes)
    ensures var r := UpdateMaxBufferUsage(meta, order, nodes);
      MostWhileFine(meta, order, trace, ends + {k}, p, r.nodes[order[p]].maxBufferUsage)
  {
    hide HeldAfter, HoldsNow, UpdateMaxBufferUsage, GetsTo, FineUntil, NewMaximum, MaximaKnown;
    CheckStops(meta, order, nodes, p);
    GetsToIffFine(meta, order, trace, ends, nodes, k, p);
    InsideEnds(ends, k);
    if FineUntil(meta, order, trace, ends + {k}, p, k) {
      NewMaximumIs(meta, order, trace, ends, nodes, k, p);
      var most := NewMaximum(nodes[order[p]]);
      var j :| j in ends + {k} && HeldAfter(trace, j, order[p]) == most;
      FineSooner(meta, order, trace, ends + {k}, p, k, j);
    } else {
      assert MostWhileFine(meta, order, trace, ends, p, nodes[order[p]].maxBufferUsage) by {
        MaximumKnown(meta, order, trace, ends, nodes, p);
      }
      forall i | i in ends
        ensures FineUntil(meta, order, trace, ends + {k}, p, i) <==> FineUntil(meta, order, trace, ends, p, i)
      {
        StillFine(meta, order, trace, ends, k, p, i);
      }
    }
  }

  lemma MaximumKnown(meta: Meta, order: seq<NodeId>, trace: seq<Step>, ends: set<nat>, nodes: map<NodeId, NodeView>, p: nat)
    requires MaximaKnown(meta, order, trace, ends, nodes) && p < |order|
    ensures order[p] in nodes && MostWhileFine(meta, order, trace, ends, p, nodes[order[p]].maxBufferUsage)
  {
    hide MostWhileFine;
  }

  lemma StillFault(meta: Meta, order: seq<NodeId>, trace: seq<Step>, ends: set<nat>, k: nat, e: NonFatalError, i: nat, p: nat)
    requires (forall j :: j in ends ==> j < k) && i < k
    ensures IsBufferFault(meta, order, trace, ends + {k}, e, i, p) <==> IsBufferFault(meta, order, trace, ends, e, i, p)
  {
    hide HeldAfter, FineUntil;
    StillFine(meta, order, trace, ends, k, p, i);
    assert forall j :: j <= i ==> (j in ends + {k} <==> j in ends);
  }

  /** The check's error, if any, is the fault of the instant that ends with it. */
  lemma NewFault(meta: Meta, order: seq<NodeId>, trace: seq<Step>, ends: set<nat>, nodes: map<NodeId, NodeView>,
                 k: nat, p: nat, e: NonFatalError)
    requires (forall j :: j in ends ==> j < k) && p < |order| && ValidOrder(meta, order)
    requires nodes.Keys == meta.bufferSizes.Keys
    requires MaximaKnown(meta, order, trace, ends, nodes) && HoldsNow(order, trace, k, nodes)
    ensures IsBufferFault(meta, order, trace, ends + {k}, e, k, p) <==>
      StopsAt(meta, order, nodes, p)
      && e == NodeExceedsBufferSize(order[p], meta.bufferSizes[order[p]], NewMaximum(nodes[order[p]]))
  {
    hide HeldAfter, HoldsNow, UpdateMaxBufferUsage, GetsTo, FineUntil, NewMaximum, MaximaKnown;
    GetsToIffFine(meta, order, trace, ends, nodes, k, p);
    InsideEnds(ends, k);
    if FineUntil(meta, order, trace, ends + {k}, p, k) {
      NewMaximumIs(meta, order, trace, ends, nodes, k, p);
    }
  }

  lemma NewFaults(meta: Meta, order: seq<NodeId>, trace: seq<Step>, ends: set<nat>, nodes: map<NodeId, NodeView>,
                  k: nat, e: NonFatalError)
    requires (forall j :: j in ends ==> j < k) && ValidOrder(meta, order) && nodes.Keys == meta.bufferSizes.Keys
    requires MaximaKnown(meta, order, trace, ends, nodes) && HoldsNow(order, trace, k, nodes)
    ensures (exists p :: IsBufferFault(meta, order, trace, ends + {k}, e, k, p)) <==>
      UpdateMaxBufferUsage(meta, order, nodes).error == Some(e)
  {
    hide UpdateMaxBufferUsage, NewMaximum, MaximaKnown, HoldsNow, IsFirstOver;
    if exists p :: IsBufferFault(meta, order, trace, ends + {k}, e, k, p) {
      var p: nat :| IsBufferFault(meta, order, trace, ends + {k}, e, k, p);
      NewFault(meta, order, trace, ends, nodes, k, p, e);
      CheckStops(meta, order, nodes, p);
    }
    if UpdateMaxBufferUsage(meta, order, nodes).error == Some(e) {
      var p := CheckNames(meta, order, nodes);
      NewFault(meta, order, trace, ends, nodes, k, p, e);
    }
  }

  lemma CheckedFaults(meta: Meta, order: seq<NodeId>, trace: seq<Step>, ends: set<nat>, st: ReplayState, k: nat)
    requires (forall j :: j in ends ==> j < k) && ValidOrder(meta, order) && st.nodes.Keys == meta.bufferSizes.Keys
    requires MaximaKnown(meta, order, trace, ends, st.nodes) && HoldsNow(order, trace, k, st.nodes)
    requires FaultsKnown(meta, order, trace, ends, st.errors)
    ensures var st1 := CheckUsage(meta, order, st);
      && FaultsKnown(meta, order, trace, ends + {k}, st1.errors) && MaximaKnown(meta, order, trace, ends + {k}, st1.nodes)
  {
    hide UpdateMaxBufferUsage, HoldsNow, IsBufferFault, MostWhileFine;
    var st1, r := CheckUsage(meta, order, st), UpdateMaxBufferUsage(meta, order, st.nodes);
    forall p | 0 <= p < |order|
      ensures order[p] in st1.nodes && MostWhileFine(meta, order, trace, ends + {k}, p, st1.nodes[order[p]].maxBufferUsage)
    {
      CheckedMaximum(meta, order, trace, ends, st.nodes, k, p);
    }
    hide MaximaKnown;
    forall e: NonFatalError | e.NodeExceedsBufferSize?
      ensures e in st1.errors <==> exists i, p :: IsBufferFault(meta, order, trace, ends + {k}, e, i, p)
    {
      NewFaults(meta, order, trace, ends, st.nodes, k, e);
      AllFaults(meta, order, trace, ends, k, e);
    }
  }

  lemma AllFaults(meta: Meta, order: seq<NodeId>, trace: seq<Step>, ends: set<nat>, k: nat, e: NonFatalError)
    requires forall j :: j in ends ==> j < k
    ensures (exists i, p :: IsBufferFault(meta, order, trace, ends + {k}, e, i, p)) <==>
      (exists i, p :: IsBufferFault(meta, order, trace, ends, e, i, p))
      || (exists p :: IsBufferFault(meta, order, trace, ends + {k}, e, k, p))
  {
    hide IsBufferFault;
    forall i: nat, p: nat | i < k
      ensures IsBufferFault(meta, order, trace, ends + {k}, e, i, p) <==> IsBufferFault(meta, order, trace, ends, e, i, p)
    {
      StillFault(meta, order, trace, ends, k, e, i, p);
    }
    FaultsInside(meta, order, trace, ends, e);
    FaultsInside(meta, order, trace, ends + {k}, e);
    InsideEnds(ends, k);
  }

  lemma FaultsInside(meta: Meta, order: seq<NodeId>, trace: seq<Step>, ends: set<nat>, e: NonFatalError)
    ensures forall i: nat, p: nat :: IsBufferFault(meta, order, trace, ends, e, i, p) ==> i in ends
  {
    hide HeldAfter, FineUntil;
  }

  // ----- Along a trace -----

  /** The instants that end before step `k`, each by the step that begins the next. */
  function EndsBefore(trace: seq<Step>, k: nat): set<nat>
    requires k <= |trace|
  {
    set i: nat | i < k && InstantEnds(trace, i)
  }

  lemma OneMoreEnd(trace: seq<Step>, k: nat)
    requires k < |trace|
    ensures EndsBefore(trace, k + 1) == EndsBefore(trace, k) + if InstantEnds(trace, k) then {k} else {}
    ensures InstantEnds(trace, k) <==> trace[k].time != LastTime(trace[..k])
    ensures forall j :: j in EndsBefore(trace, k) ==> j < k
  {
  }

  lemma NodesHold(meta: Meta, order: seq<NodeId>, trace: seq<Step>, k: nat)
    requires ValidOrder(meta, order) && TimeSorted(trace) && k <= |trace|
    requires ReplayTrace(meta, order, trace[..k]).Running?
    ensures HoldsNow(order, trace, k, ReplayTrace(meta, order, trace[..k]).st.nodes)
  {
    hide ReplayTrace, HeldIn, SumSizes;
    var st := ReplayTrace(meta, order, trace[..k]).st;
    forall p | 0 <= p < |order|
      ensures order[p] in st.nodes && st.nodes[order[p]].bufferUsage == HeldAfter(trace, k, order[p])
    {
      HoldingsFollowTrace(meta, order, trace[..k], order[p]);
      HoldsNode(meta, st, order[p]);
    }
  }

  ghost predicate Known(meta: Meta, order: seq<NodeId>, trace: seq<Step>, ends: set<nat>, st: ReplayState) {
    MaximaKnown(meta, order, trace, ends, st.nodes) && FaultsKnown(meta, order, trace, ends, st.errors)
  }

  lemma StepKeepsKnown(meta: Meta, order: seq<NodeId>, trace: seq<Step>, ends: set<nat>, st: ReplayState, t: Time, k: StepKind)
    requires WellFormed(meta, st) && st.lastStepTime == t && ApplyStep(meta, st, t, k).Running?
    requires Known(meta, order, trace, ends, st)
    ensures Known(meta, order, trace, ends, ApplyStep(meta, st, t, k).st)
  {
    hide ApplyStep, WellFormed, MostWhileFine, IsBufferFault, Reported, Draws;
    StepKeepsMaxima(meta, st, t, k);
    forall e: NonFatalError | e.NodeExceedsBufferSize?
      ensures e in ApplyStep(meta, st, t, k).st.errors <==> e in st.errors
    {
      StepTracks(meta, st, t, k, e);
      NotByStep(meta, st, t, k, e);
    }
  }

  lemma NotByStep(meta: Meta, st: ReplayState, t: Time, k: StepKind, e: NonFatalError)
    requires e.NodeExceedsBufferSize?
    ensures !Draws(meta, st, t, k, e)
  {
  }

  lemma NothingKnown(meta: Meta, order: seq<NodeId>, trace: seq<Step>)
    requires ValidOrder(meta, order)
    ensures Known(meta, order, trace, {}, InitialState(meta))
  {
    hide HeldAfter;
  }

  lemma AdvanceKeepsKnown(meta: Meta, order: seq<NodeId>, trace: seq<Step>, k: nat)
    requires ValidOrder(meta, order) && TimeSorted(trace) && k < |trace| && ReplayTrace(meta, order, trace[..k]).Running?
    requires ReplayTrace(meta, order, trace[..k]).st.lastStepTime <= trace[k].time
    requires Known(meta, order, trace, EndsBefore(trace, k), ReplayTrace(meta, order, trace[..k]).st)
    ensures var st1 := AdvanceTo(meta, order, ReplayTrace(meta, order, trace[..k]).st, trace[k].time);
      Known(meta, order, trace, EndsBefore(trace, k + 1), st1)
  {
    hide ReplayTrace, CheckUsage, WellFormed, MaximaKnown, FaultsKnown, HoldsNow, EndsBefore, InstantEnds;
    var st := ReplayTrace(meta, order, trace[..k]).st;
    NodesHold(meta, order, trace, k);
    NodesKnown(meta, st);
    OneMoreEnd(trace, k);
    assert EndsBefore(trace, k) + {} == EndsBefore(trace, k);
    if trace[k].time != st.lastStepTime {
      CheckedFaults(meta, order, trace, EndsBefore(trace, k), st, k);
    }
  }

  lemma PrefixStep(meta: Meta, order: seq<NodeId>, trace: seq<Step>, k: nat)
    requires ValidOrder(meta, order) && TimeSorted(trace) && k < |trace|
    requires ReplayTrace(meta, order, trace[..k + 1]).Running?
    ensures ReplayTrace(meta, order, trace[..k]).Running?
    ensures ReplayTrace(meta, order, trace[..k]).st.lastStepTime <= trace[k].time
    ensures var st1 := AdvanceTo(meta, order, ReplayTrace(meta, order, trace[..k]).st, trace[k].time);
      && ApplyStep(meta, st1, trace[k].time, trace[k].kind).Running?
      && ReplayTrace(meta, order, trace[..k + 1]) == ApplyStep(meta, st1, trace[k].time, trace[k].kind)
  {
    hide ApplyStep, AdvanceTo, WellFormed, ValidOrder;
    assert trace[..k + 1][..k] == trace[..k];
    LastStep(meta, order, trace[..k + 1]);
  }

  lemma {:induction false} InstantsKnown(meta: Meta, order: seq<NodeId>, trace: seq<Step>, k: nat)
    requires ValidOrder(meta, order) && TimeSorted(trace) && k <= |trace| && ReplayTrace(meta, order, trace[..k]).Running?
    ensures Known(meta, order, trace, EndsBefore(trace, k), ReplayTrace(meta, order, trace[..k]).st)
  {
    hide ApplyStep, AdvanceTo, Known, WellFormed, ValidOrder;
    if k == 0 {
      NothingKnown(meta, order, trace);
      assert EndsBefore(trace, 0) == {};
    } else {
      hide ReplayTrace, EndsBefore;
      PrefixStep(meta, order, trace, k - 1);
      InstantsKnown(meta, order, trace, k - 1);
      AdvanceKeepsKnown(meta, order, trace, k - 1);
      var st1 := AdvanceTo(meta, order, ReplayTrace(meta, order, trace[..k - 1]).st, trace[k - 1].time);
      StepKeepsKnown(meta, order, trace, EndsBefore(trace, k), st1, trace[k - 1].time, trace[k - 1].kind);
    }
  }

  function AllEnds(trace: seq<Step>): set<nat> {
    set i: nat | i <= |trace| && InstantEnds(trace, i)
  }

  lemma AllEndsAre(trace: seq<Step>)
    ensures AllEnds(trace) == EndsBefore(trace, |trace|) + {|trace|}
    ensures forall j :: j in EndsBefore(trace, |trace|) ==> j < |trace|
  {
  }

  /**
   * On every trace without a fatal error, which buffer errors are tracked, and which maxima are
   * reported. The nodes are visited in one and the same order at the end of every instant. An error
   * gives the first node there that has ever held too much by then, and the most that it has; a
   * node's maximum is the most that it held at the end of an instant until some node before it held
   * too much.
   */
  lemma BuffersAreJudgedInOrder(meta: Meta, order: seq<NodeId>, trace: seq<Step>)
    requires ValidOrder(meta, order) && TimeSorted(trace) && Verdict(meta, order, trace).Running?
    ensures forall e: NonFatalError :: e.NodeExceedsBufferSize? ==>
      (e in Verdict(meta, order, trace).st.errors
       <==> exists i, p :: IsBufferFault(meta, order, trace, AllEnds(trace), e, i, p))
    ensures forall p :: 0 <= p < |order| ==>
      && order[p] in Verdict(meta, order, trace).st.nodes
      && MostWhileFine(meta, order, trace, AllEnds(trace), p, Verdict(meta, order, trace).st.nodes[order[p]].maxBufferUsage)
  {
    hide ReplayTrace, CheckUsage, ValidOrder, WellFormed, IsBufferFault, MostWhileFine, HoldsNow, EndsBefore, AllEnds;
    var k := |trace|;
    var st := ReplayTrace(meta, order, trace).st;
    assert trace[..k] == trace;
    VerdictChecks(meta, order, trace);
    InstantsKnown(meta, order, trace, k);
    NodesHold(meta, order, trace, k);
    NodesKnown(meta, st);
    AllEndsAre(trace);
    CheckedFaults(meta, order, trace, EndsBefore(trace, k), st, k);
  }
}
