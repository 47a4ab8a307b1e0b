/** The turns that the candidate links of a packet take, in every run: each lets those before it go first, once. */
module Turns {
  import opened Types
  import opened Network
  import opened Simulator
  import opened LinkTasks
  import opened LinkMoves
  import opened LinkDecisions
  import opened LinkOrder
  import opened AgreementRuns
  import opened Sanity
  import opened RunStates

  /** The candidate links of the packet that the record is about. */
  function LinksFor(c: Config, r: Record): seq<LinkId>
    requires ValidConfig(c) && r.node in c.nodes
  {
    Candidates(c, r.node, r.packet.destination.ip)
  }

  /** The link is a candidate; it let the first `j` candidates go first, none of which is the link itself. */
  ghost predicate LetGo(c: Config, log: seq<Record>, l: LinkId, o: Offer, j: nat)
    requires ValidConfig(c)
  {
    && o.record < |log| && log[o.record].node in c.nodes
    && var all := LinksFor(c, log[o.record]);
       && l in all && j <= |all| && o.preferred == all[j..] && forall i :: 0 <= i < j ==> all[i] != l
  }

  /** No queued offer has let any go yet; the one that the task holds has let some go. */
  ghost predicate InTurns(c: Config, s: State, l: LinkId)
    requires ValidConfig(c)
  {
    && l in s.links
    && (forall k :: 0 <= k < |s.links[l].queue| ==> LetGo(c, s.log, l, s.links[l].queue[k], 0))
    && (!s.links[l].task.Idle? ==> exists j: nat :: LetGo(c, s.log, l, s.links[l].task.offer, j))
  }

  lemma LetGoKept(c: Config, log: seq<Record>, log1: seq<Record>, l: LinkId, o: Offer, j: nat)
    requires ValidConfig(c) && PacketsKept(log, log1) && LetGo(c, log, l, o, j)
    ensures LetGo(c, log1, l, o, j)
  {
    hide ValidConfig, Candidates;
  }

  lemma TurnsKept(c: Config, s: State, s1: State, l: LinkId)
    requires ValidConfig(c) && InTurns(c, s, l) && LinkKept(s, s1, l) && PacketsKept(s.log, s1.log)
    ensures InTurns(c, s1, l)
  {
    hide ValidConfig, LetGo, PacketsKept;
    forall k | 0 <= k < |s1.links[l].queue|
      ensures LetGo(c, s1.log, l, s1.links[l].queue[k], 0)
    {
      LetGoKept(c, s.log, s1.log, l, s.links[l].queue[k], 0);
    }
    if !s.links[l].task.Idle? {
      var j: nat :| LetGo(c, s.log, l, s.links[l].task.offer, j);
      LetGoKept(c, s.log, s1.log, l, s.links[l].task.offer, j);
    }
  }

  // ----- New offers -----

  lemma OfferedIsFresh(c: Config, s: State, a: Action, l: LinkId)
    requires ValidConfig(c) && Sane(c, s) && Enabled(c, s, a) && a.RunNodeTask? && l in s.links && l in c.links
    ensures var q, s1 := s.links[l].queue, Perform(c, s, a);
      && l in s1.links && s1.log == s.log && s1.links[l] == s.links[l].(queue := s1.links[l].queue)
      && q <= s1.links[l].queue
      && forall k :: |q| <= k < |s1.links[l].queue| ==> LetGo(c, s.log, l, s1.links[l].queue[k], 0)
  {
    KnownToBoth(c, s);
    OutboundIs(c, s, a.node);
    hide ValidConfig, Sane, OfferNext, Candidates, Offered, PlacesOf;
    var i := s.nodes[a.node].outbound[0];
    var all := Candidates(c, a.node, s.log[i].packet.destination.ip);
    var at := EveryCandidateIsOffered(c, s, a.node, a.slow, l);
    AllFresh(c, s.log, s.links[l].queue, Perform(c, s, a).links[l].queue, l, i, all, a.slow, at);
  }

  lemma OutboundIs(c: Config, s: State, n: NodeId)
    requires Sane(c, s) && n in s.nodes && s.nodes[n].outbound != []
    ensures s.nodes[n].outbound[0] < |s.log| && s.log[s.nodes[n].outbound[0]].node == n && n in c.nodes
  {
  }

  lemma AllFresh(c: Config, log: seq<Record>, q: seq<Offer>, q1: seq<Offer>, l: LinkId, i: nat, all: seq<LinkId>,
                 slow: seq<bool>, at: seq<nat>)
    requires ValidConfig(c) && l in c.links && i < |log| && log[i].node in c.nodes && all == LinksFor(c, log[i])
    requires |slow| == |all| && PlacesOf(l, all, at) && Offered(c, q, q1, l, i, all, slow, at)
    ensures q <= q1 && forall k :: |q| <= k < |q1| ==> LetGo(c, log, l, q1[k], 0)
  {
    hide ValidConfig, Candidates;
    forall k | |q| <= k < |q1|
      ensures LetGo(c, log, l, q1[k], 0)
    {
      var m := k - |q|;
      assert q1[|q| + m] == Offer(i, all, if slow[at[m]] then c.links[l].extraDelay else 0);
      assert all[at[m]] == l && all[0..] == all;
    }
  }

  lemma OffersTurn(c: Config, s: State, a: Action, l: LinkId)
    requires ValidConfig(c) && Sane(c, s) && Enabled(c, s, a) && a.RunNodeTask? && InTurns(c, s, l)
    ensures InTurns(c, Perform(c, s, a), l)
  {
    KnownToBoth(c, s);
    hide ValidConfig, Sane, Enabled, Perform, LetGo, InTurns;
    assert l in s.links by { Turner(c, s, l); }
    OfferedIsFresh(c, s, a, l);
    MoreInTurn(c, s, Perform(c, s, a), l);
  }

  lemma Turner(c: Config, s: State, l: LinkId)
    requires ValidConfig(c) && InTurns(c, s, l)
    ensures l in s.links
  {
    hide ValidConfig, LetGo;
  }

  lemma MoreInTurn(c: Config, s: State, s1: State, l: LinkId)
    requires ValidConfig(c) && InTurns(c, s, l) && l in s.links && l in s1.links && s1.log == s.log
    requires s1.links[l] == s.links[l].(queue := s1.links[l].queue) && s.links[l].queue <= s1.links[l].queue
    requires forall k :: |s.links[l].queue| <= k < |s1.links[l].queue| ==> LetGo(c, s.log, l, s1.links[l].queue[k], 0)
    ensures InTurns(c, s1, l)
  {
    hide ValidConfig, LetGo;
    forall k | 0 <= k < |s.links[l].queue|
      ensures LetGo(c, s.log, l, s1.links[l].queue[k], 0)
    {
      assert s1.links[l].queue[k] == s.links[l].queue[k];
    }
  }

  // ----- The link's own steps -----

  lemma YieldsToOther(s: State, a: Action, o: Offer, d: Decision)
    requires OfLinkTask(a) && a.link in s.links && o.record < |s.log| && s.log[o.record].node in s.nodes
    requires Decides(s, a, o, d) && d.Yields?
    ensures o.preferred != [] && o.preferred[0] != a.link
  {
  }

  lemma OneMoreLetGo(c: Config, log: seq<Record>, l: LinkId, o: Offer, j: nat)
    requires ValidConfig(c) && LetGo(c, log, l, o, j) && o.preferred != [] && o.preferred[0] != l
    ensures LetGo(c, log, l, o.(preferred := o.preferred[1..]), j + 1)
  {
    hide ValidConfig, Candidates;
  }

  lemma WorkIsInTurn(c: Config, s: State, a: Action, o: Offer, rest: seq<Offer>) returns (j: nat)
    requires ValidConfig(c) && OfLinkTask(a) && InTurns(c, s, a.link) && Works(s, a, o, rest)
    ensures LetGo(c, s.log, a.link, o, j)
    ensures forall k :: 0 <= k < |rest| ==> LetGo(c, s.log, a.link, rest[k], 0)
  {
    hide ValidConfig, LetGo;
    if a.StartLinkTask? {
      j := 0;
      var q := s.links[a.link].queue;
      assert q[0] == o && forall k :: 0 <= k < |rest| ==> rest[k] == q[k + 1];
    } else {
      j :| LetGo(c, s.log, a.link, o, j);
    }
  }

  lemma DecisionKeepsPackets(c: Config, s: State, s1: State, l: LinkId, o: Offer, d: Decision)
    requires l in c.links && o.record < |s.log| && Done(c, s, s1, l, o, d)
    ensures PacketsKept(s.log, s1.log)
  {
  }

  lemma OwnTaskTurns(c: Config, s: State, a: Action)
    requires ValidConfig(c) && Sane(c, s) && TasksWait(c, s) && Enabled(c, s, a) && OfLinkTask(a) && InTurns(c, s, a.link)
    ensures InTurns(c, Perform(c, s, a), a.link)
  {
    hide ValidConfig, Sane, TasksWait, Enabled, Perform, Works, Decides, Done, SpaceAfter, LetGo, PacketsKept;
    var o, rest, d := TasksDecide(c, s, a);
    var l, s1 := a.link, Perform(c, s, a);
    var j := WorkIsInTurn(c, s, a, o, rest);
    DecisionKeepsPackets(c, s, s1, l, o, d);
    if d.Yields? {
      YieldsToOther(s, a, o, d);
      OneMoreLetGo(c, s.log, l, o, j);
      LetGoKept(c, s.log, s1.log, l, o.(preferred := o.preferred[1..]), j + 1);
    }
    LetGoKept(c, s.log, s1.log, l, o, j);
    forall k | 0 <= k < |rest|
      ensures LetGo(c, s1.log, l, rest[k], 0)
    {
      LetGoKept(c, s.log, s1.log, l, rest[k], 0);
    }
  }

  // ----- Runs -----

  lemma ActionTurns(c: Config, s: State, a: Action, l: LinkId)
    requires ValidConfig(c) && Sane(c, s) && TasksWait(c, s) && Enabled(c, s, a) && InTurns(c, s, l)
    ensures InTurns(c, Perform(c, s, a), l)
  {
    hide ValidConfig, Sane, TasksWait, Enabled, Perform, LetGo, LinkActionOutcome, WillSend, LinkKept, PacketsKept;
    if a.RunNodeTask? {
      OffersTurn(c, s, a, l);
    } else if OfLinkTask(a) && a.link == l {
      OwnTaskTurns(c, s, a);
    } else {
      if OfLinkTask(a) {
        LinkTaskOutcome(c, s, a);
        OtherLinkKept(c, s, a, Perform(c, s, a), WillSend(c, s, a), l);
      } else {
        OtherActionKeeps(c, s, a, l);
      }
      TurnsKept(c, s, Perform(c, s, a), l);
    }
  }

  lemma StartTurns(c: Config, l: LinkId)
    requires ValidConfig(c) && l in c.links
    ensures InTurns(c, Start(c), l)
  {
    hide ValidConfig;
  }

  lemma {:induction false} RunsTakeTurns(c: Config, run: seq<Action>, l: LinkId)
    requires ValidConfig(c) && IsRun(c, run) && l in c.links
    ensures InTurns(c, StateAfter(c, run).value, l)
  {
    hide ValidConfig, Sane, TasksWait, Enabled, Perform, InTurns, AtRest;
    if run == [] {
      StartTurns(c, l);
    } else {
      RunSnoc(c, run);
      hide StateAfter;
      var init := run[..|run| - 1];
      RunsTakeTurns(c, init, l);
      RunsAreSane(c, init);
      ActionTurns(c, StateAfter(c, init).value, run[|run| - 1], l);
    }
  }

  /**
   * Whose turn it is, in every run: the link whose task takes a step is among the candidates of its
   * packet, and the task has its turn exactly when it has let all the candidates before the link's
   * first place among them go first, one at a time.
   */
  lemma TurnsInRuns(c: Config, run: seq<Action>, a: Action) returns (o: Offer, j: nat)
    requires ValidConfig(c) && IsRun(c, run) && OfLinkTask(a)
    requires Sane(c, StateAfter(c, run).value) && Enabled(c, StateAfter(c, run).value, a)
    ensures var s := StateAfter(c, run).value;
      && a.link in s.links && o.record < |s.log| && s.log[o.record].node in c.nodes
      && (if a.StartLinkTask? then s.links[a.link].queue != [] && o == s.links[a.link].queue[0]
          else !s.links[a.link].task.Idle? && o == s.links[a.link].task.offer)
      && var all := Candidates(c, s.log[o.record].node, s.log[o.record].packet.destination.ip);
         && j < |all| && (forall i :: 0 <= i < j ==> all[i] != a.link) && o.preferred == all[j..]
         && (HasTurn(a.link, o) <==> all[j] == a.link)
         && (a.StartLinkTask? ==> j == 0)
  {
    hide ValidConfig, StateAfter, Sane, Enabled, AtRest, Perform, Decided, Decides, Candidates;
    var s := StateAfter(c, run).value;
    RunsAreSane(c, run);
    var rest, d;
    o, rest, d := TasksDecide(c, s, a);
    hide TasksWait;
    LinksStay(c, s, a.link);
    RunsTakeTurns(c, run, a.link);
    if a.StartLinkTask? {
      j := 0;
      assert s.links[a.link].queue[0] == o;
    } else {
      j := WorkIsInTurn(c, s, a, o, rest);
    }
  }

  lemma LinksStay(c: Config, s: State, l: LinkId)
    requires Sane(c, s) && l in s.links
    ensures l in c.links
  {
  }
}
