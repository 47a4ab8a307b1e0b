/** Runs of the simulator, from the start, in any interleaving: what holds in every reachable state. */
module RunStates {
  import opened Types
  import opened Network
  import opened Status
  import opened Simulator
  import opened BandwidthWindow
  import opened NodeReplay
  import opened Replay
  import opened BufferCheck
  import opened Ledger
  import opened Agreement
  import opened AgreementRuns
  import opened LinkTasks
  import opened LinkMoves
  import opened Sanity
  import opened Runs
  import Pacing

  /** The state after a sequence of actions, if each was enabled when it was its turn. */
  ghost function StateAfter(c: Config, run: seq<Action>): Option<State>
    requires ValidConfig(c)
  {
    if run == [] then Some(Start(c))
    else
      var before := StateAfter(c, run[..|run| - 1]);
      var a := run[|run| - 1];
      if before.Some? && Sane(c, before.value) && Enabled(c, before.value, a)
      then Some(Perform(c, before.value, a)) else None
  }

  ghost predicate IsRun(c: Config, run: seq<Action>)
    requires ValidConfig(c)
  {
    StateAfter(c, run).Some?
  }

  lemma FreshReplay(meta: Meta)
    ensures var r := InitialState(meta); WellFormed(meta, r) && Mirrored([], r.nodes, r.inFlight)
  {
    assert SumSizes(map[]) == 0;
    hide Expire;
  }

  lemma FreshParts(c: Config, meta: Meta)
    requires meta.bufferSizes.Keys == c.nodes.Keys && meta.links.Keys == c.links.Keys
    ensures var r := InitialState(meta);
      && LinksMirrored(c, Start(c).links, r.links, [], 0)
      && FlightsKnown(c, [], Start(c).links, r.links, [], 0)
      && StatusMirrored(Start(c).nodes, r.nodes)
  {
    hide Pacing.SendDuration, Expire;
  }

  lemma FreshBuffers(c: Config)
    ensures Accounted(c, Start(c).nodes, [])
  {
  }

  lemma StartAgrees(c: Config)
    requires ValidConfig(c)
    ensures Agrees(c, Start(c), InitialState(MetaOf(c)))
  {
    FreshBuffers(c);
    hide ValidConfig, WellFormed, Mirrored, LinksMirrored, FlightsKnown, StatusMirrored, Accounted;
    FreshReplay(MetaOf(c));
    FreshParts(c, MetaOf(c));
  }

  lemma StartIsGood(c: Config, order: seq<NodeId>)
    requires ValidConfig(c) && ValidOrder(MetaOf(c), order)
    ensures Good(c, order, Start(c))
  {
    hide ValidConfig, Agrees, ValidOrder, Sane, TasksWait;
    StartIsSane(c);
    StartAgrees(c);
  }

  lemma StartIsSane(c: Config)
    requires ValidConfig(c)
    ensures Sane(c, Start(c)) && TasksWait(c, Start(c))
  {
    hide ValidConfig;
  }

  lemma {:induction false} RunsAreGood(c: Config, order: seq<NodeId>, run: seq<Action>)
    requires ValidConfig(c) && ValidOrder(MetaOf(c), order) && IsRun(c, run)
    ensures Good(c, order, StateAfter(c, run).value)
  {
    hide ValidConfig, Good, Sane, Enabled, Perform, ValidOrder;
    if run == [] {
      StartIsGood(c, order);
    } else {
      RunsAreGood(c, order, run[..|run| - 1]);
      PerformGood(c, order, StateAfter(c, run[..|run| - 1]).value, run[|run| - 1]);
    }
  }

  // ----- The simulator alone -----

  /** The order in which the verifier visits nodes is its own affair: there is always one. */
  lemma {:induction false} SomeListing(nodes: set<NodeId>) returns (order: seq<NodeId>)
    ensures forall n :: n in order <==> n in nodes
    ensures forall i, j :: 0 <= i < j < |order| ==> order[i] != order[j]
    decreases |nodes|
  {
    if nodes == {} {
      order := [];
    } else {
      var n :| n in nodes;
      var rest := SomeListing(nodes - {n});
      order := [n] + rest;
    }
  }

  lemma SomeOrder(c: Config) returns (order: seq<NodeId>)
    requires ValidConfig(c)
    ensures ValidOrder(MetaOf(c), order)
  {
    order := SomeListing(MetaOf(c).bufferSizes.Keys);
  }

  /** In every reachable state the queues are sane, the tasks wait as they should, and no packet is half-way placed. */
  lemma RunsAreSane(c: Config, run: seq<Action>)
    requires ValidConfig(c) && IsRun(c, run)
    ensures var s := StateAfter(c, run).value; Sane(c, s) && TasksWait(c, s) && AtRest(s.log)
  {
    hide ValidConfig, ValidOrder, Sane, TasksWait, Tracked, StateAfter, AtRest;
    var order := SomeOrder(c);
    RunsAreGood(c, order, run);
    GoodIsSane(c, order, StateAfter(c, run).value);
  }

  lemma RunSnoc(c: Config, run: seq<Action>)
    requires ValidConfig(c) && IsRun(c, run) && run != []
    ensures var init := run[..|run| - 1];
      && IsRun(c, init)
      && var s := StateAfter(c, init).value;
         Sane(c, s) && Enabled(c, s, run[|run| - 1]) && StateAfter(c, run) == Some(Perform(c, s, run[|run| - 1]))
  {
    hide ValidConfig, Sane, Enabled, Perform;
  }

  /** Which action of a run sends, and that it does: see `SendsExactly`. */
  lemma SendsExactlyInRuns(c: Config, run: seq<Action>, a: Action, id: PacketId, n: NodeId, l: LinkId)
    requires ValidConfig(c) && IsRun(c, run)
    requires Sane(c, StateAfter(c, run).value) && Enabled(c, StateAfter(c, run).value, a)
    ensures var s := StateAfter(c, run).value;
      RecordsSend(s, Perform(c, s, a), id, n, l) <==>
      && OfLinkTask(a) && a.link == l && WillSend(c, s, a)
      && FirstRecord(c, s, a).packet.id == id && FirstRecord(c, s, a).node == n
  {
    hide ValidConfig, Sane, TasksWait, StateAfter, Enabled, Perform, RecordsSend, WillSend, FirstRecord, AtRest;
    RunsAreSane(c, run);
    SendsExactly(c, StateAfter(c, run).value, a, id, n, l);
  }

  /**
   * What a task still waits for, its packet being still to be handled: until the time at which its
   * pacer is free, or for the next Up of its link, or of its node.
   */
  predicate StillWaits(s: State, l: LinkId)
    requires l in s.links
    requires var t := s.links[l].task; !t.Idle? ==> t.offer.record < |s.log| && s.log[t.offer.record].node in s.nodes
  {
    var link := s.links[l];
    && !link.task.Idle? && s.log[link.task.offer.record].fate.Buffered?
    && match link.task
       case Sleeping(_, deadline) => s.now < deadline && link.sendDone == Some(deadline)
       case AwaitingLink(_, notifier) => link.status.status == Down(notifier)
       case AwaitingNode(o, notifier) => s.nodes[s.log[o.record].node].status.status == Down(notifier)
       case _ => false
  }

  /** The Up that the task waits for, if it waits for one, fires the notifier that it holds. */
  predicate NextUpWakes(s: State, l: LinkId)
    requires l in s.links
    requires var t := s.links[l].task; !t.Idle? ==> t.offer.record < |s.log| && s.log[t.offer.record].node in s.nodes
  {
    match s.links[l].task
    case AwaitingLink(_, notifier) => Fired(UpdateStatus(s.links[l].status, GoUp), notifier)
    case AwaitingNode(o, notifier) => Fired(UpdateStatus(s.nodes[s.log[o.record].node].status, GoUp), notifier)
    case _ => true
  }

  /**
   * No task is stuck, nor kept longer than it need be: in every reachable state of a run that did not
   * fail, the task of a link that is not idle can resume exactly if it does not still wait in this
   * sense. So it can as soon as its packet is handled elsewhere, after every yield, and if it sleeps
   * as soon as its pacer permits a send; and what it awaits otherwise is sure to wake it.
   */
  lemma NoTaskIsStuck(c: Config, run: seq<Action>, l: LinkId)
    requires ValidConfig(c) && IsRun(c, run)
    requires var s := StateAfter(c, run).value; l in s.links && !s.links[l].task.Idle? && !s.crashed
    ensures var s := StateAfter(c, run).value;
      && Sane(c, s) && s.links[l].task.offer.record < |s.log| && s.log[s.links[l].task.offer.record].node in s.nodes
      && (Enabled(c, s, ResumeLinkTask(l)) <==> !StillWaits(s, l))
      && NextUpWakes(s, l)
    ensures var s, link := StateAfter(c, run).value, StateAfter(c, run).value.links[l];
      link.task.Sleeping? && (link.sendDone.None? || link.sendDone.value <= s.now) ==> Enabled(c, s, ResumeLinkTask(l))
  {
    hide ValidConfig, StateAfter, AtRest;
    RunsAreSane(c, run);
    WaitsForNextUp(c, StateAfter(c, run).value, l);
    hide Sane, TasksWait, Ready;
  }

  lemma WaitsForNextUp(c: Config, s: State, l: LinkId)
    requires Sane(c, s) && TasksWait(c, s) && l in s.links && !s.links[l].task.Idle?
    ensures s.links[l].task.offer.record < |s.log| && s.log[s.links[l].task.offer.record].node in s.nodes
    ensures (Ready(s, l) <==> !StillWaits(s, l)) && NextUpWakes(s, l)
  {
    TaskOfferIsSane(c, s, l);
    assert NotifiersMade(s, s.links[l]);
    assert PacerWaits(s.links[l], s.now);
  }

  // ----- The steps that one action adds to the trace -----

  lemma OutcomeAdds(c: Config, s: State, a: Action, s1: State, goes: bool) returns (kinds: seq<StepKind>)
    requires ValidConfig(c) && Sane(c, s) && Enabled(c, s, a) && OfLinkTask(a)
    requires LinkActionOutcome(c, s, a, s1, goes)
    ensures Adds(s, s1, kinds) && s1.now == s.now && |kinds| <= 1
  {
    hide ValidConfig, Sane, Enabled, Tickets;
    kinds := if s1.trace == s.trace then [] else [s1.trace[|s.trace|].kind];
    assert s.trace + [] == s.trace;
    if kinds != [] {
      OneStep(s, kinds[0]);
    }
  }

  lemma ActionAdds(c: Config, s: State, a: Action) returns (kinds: seq<StepKind>)
    requires ValidConfig(c) && Sane(c, s) && TasksWait(c, s) && Enabled(c, s, a)
    ensures Adds(s, Perform(c, s, a), kinds)
    ensures a.Tick? ==> kinds == []
  {
    hide ValidConfig, Sane, TasksWait, Enabled, Perform, Shows, LinkActionOutcome, Adds;
    if a.Tick? {
      kinds := [];
      TickAdds(c, s, a);
    } else if OfLinkTask(a) {
      LinkTaskOutcome(c, s, a);
      kinds := OutcomeAdds(c, s, a, Perform(c, s, a), WillSend(c, s, a));
    } else if a.Create? {
      kinds := CreateAdds(c, s, a);
    } else if a.RunForwarder? {
      kinds := ArrivalAdds(c, s, a);
    } else {
      kinds := QuietAdds(c, s, a);
    }
  }

  lemma TickAdds(c: Config, s: State, a: Action)
    requires ValidConfig(c) && Sane(c, s) && Enabled(c, s, a) && a.Tick?
    ensures Adds(s, Perform(c, s, a), [])
  {
    hide ValidConfig, Sane;
    assert s.trace + [] == s.trace;
  }

  lemma InsideInstant(s: State, s1: State, kinds: seq<StepKind>, i: nat)
    requires Adds(s, s1, kinds) && |s.trace| < i < |s1.trace|
    ensures !EndsInstant(s1.trace, i)
  {
    assert s1.trace[i].time == s.now && s1.trace[i - 1].time == s.now;
    assert s1.trace[..i][i - 1] == s1.trace[i - 1];
  }

  lemma EndsBefore(s: State, s1: State, kinds: seq<StepKind>, i: nat)
    requires Adds(s, s1, kinds) && i <= |s1.trace|
    ensures EndsInstant(s1.trace, i) && i < |s.trace| ==> EndsInstant(s.trace, i) && s1.trace[..i] == s.trace[..i]
    ensures i == |s.trace| ==> s1.trace[..i] == s.trace
    ensures EndsInstant(s1.trace, i) && |s.trace| < i ==> i == |s1.trace|
  {
    if i < |s.trace| {
      assert s1.trace[..i] == s.trace[..i] && s1.trace[i] == s.trace[i];
    } else if |s.trace| < i < |s1.trace| {
      InsideInstant(s, s1, kinds, i);
    }
  }

  /** Whatever part of a run's trace ends an instant is itself the trace of a part of the run. */
  lemma {:induction false} InstantsAreStates(c: Config, run: seq<Action>, i: nat) returns (m: nat)
    requires ValidConfig(c) && IsRun(c, run)
    requires i <= |StateAfter(c, run).value.trace| && EndsInstant(StateAfter(c, run).value.trace, i)
    ensures m <= |run| && IsRun(c, run[..m])
    ensures StateAfter(c, run[..m]).value.trace == StateAfter(c, run).value.trace[..i]
    decreases |run|
  {
    var s1 := StateAfter(c, run).value;
    m := |run|;
    assert run[..m] == run && s1.trace[..|s1.trace|] == s1.trace;
    if run == [] {
      assert s1.trace == [];
    } else {
      hide ValidConfig, Sane, TasksWait, Enabled, Perform, StateAfter, Adds, EndsInstant, AtRest;
      RunSnoc(c, run);
      var init := run[..|run| - 1];
      var s := StateAfter(c, init).value;
      RunsAreSane(c, init);
      var kinds := ActionAdds(c, s, run[|run| - 1]);
      EndsBefore(s, s1, kinds, i);
      if i < |s.trace| {
        m := InstantsAreStates(c, init, i);
        assert init[..m] == run[..m];
      } else if i == |s.trace| {
        m := |init|;
        assert run[..m] == init;
      }
    }
  }
}
