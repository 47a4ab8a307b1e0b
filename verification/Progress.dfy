/** What can go on in any reachable state: no part of the simulator is kept waiting without a cause. */
module Progress {
  import opened Types
  import opened Network
  import opened Simulator
  import opened AgreementRuns
  import opened LinkTasks
  import opened Sanity
  import opened RunStates

  predicate OnLink(r: Record, l: LinkId) {
    r.fate.InTransit? && r.fate.link == l
  }

  /** Of the first `k` records, number `i` is the first to come off the link. */
  predicate FirstAmong(log: seq<Record>, l: LinkId, k: nat, i: nat)
    requires k <= |log|
  {
    && i < k && OnLink(log[i], l)
    && forall j :: 0 <= j < k && OnLink(log[j], l) ==>
         log[i].fate.arrival < log[j].fate.arrival
         || (log[i].fate.arrival == log[j].fate.arrival && log[i].packet.number <= log[j].packet.number)
  }

  lemma {:induction false} SomeFirst(log: seq<Record>, l: LinkId, k: nat, some: nat) returns (i: nat)
    requires some < k <= |log| && OnLink(log[some], l)
    ensures FirstAmong(log, l, k, i)
  {
    if !(exists j :: 0 <= j < k - 1 && OnLink(log[j], l)) {
      i := some;
    } else {
      var j :| 0 <= j < k - 1 && OnLink(log[j], l);
      i := SomeFirst(log, l, k - 1, j);
      var last := log[k - 1];
      if OnLink(last, l) && !(log[i].fate.arrival < last.fate.arrival
        || (log[i].fate.arrival == last.fate.arrival && log[i].packet.number <= last.packet.number)) {
        i := k - 1;
      }
    }
  }

  /** Something that is due can come off the link. */
  ghost predicate CanLand(c: Config, s: State, l: LinkId, i: nat)
    requires ValidConfig(c) && Sane(c, s) && i < |s.log| && OnLink(s.log[i], l)
  {
    exists j: nat :: j < |s.log| && OnLink(s.log[j], l) && s.log[j].fate.arrival <= s.log[i].fate.arrival
                     && Enabled(c, s, RunForwarder(l, j, Keep))
  }

  lemma DueCanLand(c: Config, s: State, l: LinkId, i: nat)
    requires ValidConfig(c) && Sane(c, s) && !s.crashed && l in s.links
    requires i < |s.log| && OnLink(s.log[i], l) && s.log[i].fate.arrival <= s.now
    ensures CanLand(c, s, l, i)
  {
    hide ValidConfig, Sane;
    var j := SomeFirst(s.log, l, |s.log|, i);
    assert FirstOff(s, l, j);
    assert Enabled(c, s, RunForwarder(l, j, Keep));
  }

  /** The node has a packet in line that some link leads on, and `slow` has a roll for each candidate. */
  ghost predicate HasWayOut(c: Config, s: State, n: NodeId, slow: seq<bool>)
    requires ValidConfig(c)
  {
    && n in s.nodes && n in c.nodes && s.nodes[n].outbound != [] && s.nodes[n].outbound[0] < |s.log|
    && var dest := s.log[s.nodes[n].outbound[0]].packet.destination.ip;
       && |slow| == |Candidates(c, n, dest)|
       && exists a, l :: a in Addresses(c.nodes[n]) && LeadsFrom(c, a, dest, l)
  }

  lemma RoutedCanBeOffered(c: Config, s: State, n: NodeId, slow: seq<bool>)
    requires ValidConfig(c) && Sane(c, s) && !s.crashed && HasWayOut(c, s, n, slow)
    ensures Enabled(c, s, RunNodeTask(n, slow))
  {
    hide ValidConfig, Sane, Candidates, Addresses, LeadsFrom;
    var dest := s.log[s.nodes[n].outbound[0]].packet.destination.ip;
    HasRouteIff(c, n, dest);
    HasRouteIffCandidates(c, n, dest);
  }

  /** The actions that are open whatever else is going on. */
  ghost predicate OpenToOthers(c: Config, s: State)
    requires ValidConfig(c) && Sane(c, s)
  {
    && (forall t :: s.now <= t ==> Enabled(c, s, Tick(t)))
    && (forall i :: 0 <= i < |s.log| && s.log[i].fate.AtApp? ==> Enabled(c, s, AppRead(i)))
    && (forall e: LinkEvent :: e.link in c.links ==> Enabled(c, s, LinkChange(e)))
    && (forall e: NodeEvent :: e.node in c.nodes ==> Enabled(c, s, NodeChange(e)))
    && (forall n, size, id, to ::
          n in c.nodes && c.nodes[n].kind.Host? && 28 <= size && id !in s.used ==> Enabled(c, s, Create(n, size, id, to, Keep)))
  }

  lemma AlwaysOpen(c: Config, s: State)
    requires ValidConfig(c) && Sane(c, s) && !s.crashed
    ensures OpenToOthers(c, s)
    ensures forall l :: l in s.links && s.links[l].task.Idle? && s.links[l].queue != [] ==> Enabled(c, s, StartLinkTask(l))
  {
    hide ValidConfig, Candidates, FirstOff, Ready;
  }

  /**
   * In every reachable state of a run that did not fail: time can pass, applications can read,
   * events can happen, and hosts can create packets; an idle link with an offer can start on it; a
   * link with a packet whose time of arrival has come can let one off that is due no later; and a
   * node can offer the first packet in line if any link leads towards its destination.
   */
  lemma NothingHoldsUp(c: Config, run: seq<Action>)
    requires ValidConfig(c) && IsRun(c, run) && !StateAfter(c, run).value.crashed
    ensures var s := StateAfter(c, run).value;
      && Sane(c, s) && OpenToOthers(c, s)
      && (forall l :: l in s.links && s.links[l].task.Idle? && s.links[l].queue != [] ==> Enabled(c, s, StartLinkTask(l)))
      && (forall l, i: nat ::
            l in s.links && i < |s.log| && OnLink(s.log[i], l) && s.log[i].fate.arrival <= s.now ==> CanLand(c, s, l, i))
      && (forall n, slow :: HasWayOut(c, s, n, slow) ==> Enabled(c, s, RunNodeTask(n, slow)))
  {
    hide ValidConfig, StateAfter, Sane, TasksWait, AtRest, Enabled, HasWayOut, OpenToOthers, CanLand;
    RunsAreSane(c, run);
    var s := StateAfter(c, run).value;
    AlwaysOpen(c, s);
    forall l, i: nat | l in s.links && i < |s.log| && OnLink(s.log[i], l) && s.log[i].fate.arrival <= s.now
      ensures CanLand(c, s, l, i)
    {
      DueCanLand(c, s, l, i);
    }
    forall n, slow | HasWayOut(c, s, n, slow)
      ensures Enabled(c, s, RunNodeTask(n, slow))
    {
      RoutedCanBeOffered(c, s, n, slow);
    }
  }
}
