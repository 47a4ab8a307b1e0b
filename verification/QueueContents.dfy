/** What the queues of packets hold, according to the state machine's records. */
module QueueContents {
  import opened Types
  import opened InboundQueues
  import opened Simulator

  /** Every host has a queue of packets for its application, and every link one of packets in flight. */
  datatype Queue = AppQueue(node: NodeId) | LinkQueue(link: LinkId)

  predicate Holds(q: Queue, r: Record) {
    match q
    case AppQueue(n) => r.fate.AtApp? && r.node == n
    case LinkQueue(l) => r.fate.InTransit? && r.fate.link == l
  }

  function ItemOf(r: Record): Item {
    if r.fate.InTransit? && r.fate.sent <= r.fate.arrival
    then Item(r.packet.id, r.packet.number, r.fate.sent, r.fate.arrival - r.fate.sent)
    else Item(r.packet.id, r.packet.number, r.since, 0)
  }

  function Share(q: Queue, r: Record): multiset<Item> {
    if Holds(q, r) then multiset{ItemOf(r)} else multiset{}
  }

  function ContentsOf(log: seq<Record>, q: Queue): multiset<Item> {
    if log == [] then multiset{} else ContentsOf(log[..|log| - 1], q) + Share(q, log[|log| - 1])
  }

  lemma ContentsSnoc(log: seq<Record>, r: Record, q: Queue)
    ensures ContentsOf(log + [r], q) == ContentsOf(log, q) + Share(q, r)
  {
    assert (log + [r])[..|log|] == log;
  }

  lemma {:induction false} ContentsUpdate(log: seq<Record>, i: nat, r: Record, q: Queue)
    requires i < |log|
    ensures ContentsOf(log[i := r], q) + Share(q, log[i]) == ContentsOf(log, q) + Share(q, r)
  {
    hide Share;
    var init, last := log[..|log| - 1], log[|log| - 1];
    assert log == init + [last];
    ContentsSnoc(init, last, q);
    if i == |log| - 1 {
      assert log[i := r] == init + [r];
      ContentsSnoc(init, r, q);
    } else {
      ContentsUpdate(init, i, r, q);
      assert log[i := r] == init[i := r] + [last];
      ContentsSnoc(init[i := r], last, q);
      var before, after := ContentsOf(init, q), ContentsOf(init[i := r], q);
      assert after + Share(q, last) + Share(q, log[i]) == (after + Share(q, init[i])) + Share(q, last);
      assert before + Share(q, last) + Share(q, r) == (before + Share(q, r)) + Share(q, last);
    }
  }

  /** A packet that changes its fate leaves the queue it was in, and joins the one it goes to. */
  lemma FateMoves(log: seq<Record>, i: nat, fate: Fate, q: Queue)
    requires i < |log|
    ensures var r := log[i].(fate := fate);
      ContentsOf(log[i := r], q) + Share(q, log[i]) == ContentsOf(log, q) + Share(q, r)
  {
    ContentsUpdate(log, i, log[i].(fate := fate), q);
  }

  /** No application's queue holds anything else in the second log. */
  ghost predicate SameForApps(log: seq<Record>, log1: seq<Record>) {
    forall m :: ContentsOf(log1, AppQueue(m)) == ContentsOf(log, AppQueue(m))
  }

  lemma FateElsewhere(log: seq<Record>, i: nat, fate: Fate)
    requires i < |log| && !log[i].fate.AtApp? && !fate.AtApp?
    ensures SameForApps(log, log[i := log[i].(fate := fate)])
  {
    hide ContentsOf;
    forall m
      ensures ContentsOf(log[i := log[i].(fate := fate)], AppQueue(m)) == ContentsOf(log, AppQueue(m))
    {
      var log1 := log[i := log[i].(fate := fate)];
      FateMoves(log, i, fate, AppQueue(m));
      assert ContentsOf(log, AppQueue(m)) + multiset{} == ContentsOf(log, AppQueue(m));
      assert ContentsOf(log1, AppQueue(m)) + multiset{} == ContentsOf(log1, AppQueue(m));
    }
  }

  lemma RecordElsewhere(log: seq<Record>, r: Record)
    requires !r.fate.AtApp?
    ensures SameForApps(log, log + [r])
  {
    forall m
      ensures ContentsOf(log + [r], AppQueue(m)) == ContentsOf(log, AppQueue(m))
    {
      ContentsSnoc(log, r, AppQueue(m));
    }
  }

  lemma {:induction false} NothingJoins(log: seq<Record>, more: seq<Record>, q: Queue)
    requires forall i :: 0 <= i < |more| ==> !Holds(q, more[i])
    ensures ContentsOf(log + more, q) == ContentsOf(log, q)
  {
    hide ContentsOf, Holds, ItemOf;
    if more == [] {
      assert log + more == log;
    } else {
      var init, last := more[..|more| - 1], more[|more| - 1];
      NothingJoins(log, init, q);
      ContentsSnoc(log + init, last, q);
      assert log + more == log + init + [last];
    }
  }

  /** A queue holds just the items of the records it holds. */
  lemma {:induction false} ItemsAreOfRecords(log: seq<Record>, q: Queue, x: Item)
    ensures x in ContentsOf(log, q) <==> exists i :: 0 <= i < |log| && Holds(q, log[i]) && ItemOf(log[i]) == x
  {
    if log != [] {
      var init, last := log[..|log| - 1], log[|log| - 1];
      ItemsAreOfRecords(init, q, x);
      assert forall i :: 0 <= i < |init| ==> log[i] == init[i];
    }
  }

  /** No packet on the link gets to its end before it was sent. */
  predicate ForwardInTime(log: seq<Record>, l: LinkId) {
    forall i :: 0 <= i < |log| && Holds(LinkQueue(l), log[i]) ==> log[i].fate.sent <= log[i].fate.arrival
  }

  /** The packets that may come off a link next are those that its queue's heap puts first. */
  lemma FirstOffIsFirst(s: State, l: LinkId, i: nat)
    requires i < |s.log| && Holds(LinkQueue(l), s.log[i]) && ForwardInTime(s.log, l)
    ensures FirstOff(s, l, i) <==> IsFirst(ContentsOf(s.log, LinkQueue(l)), ItemOf(s.log[i]))
  {
    var q := LinkQueue(l);
    var x := ItemOf(s.log[i]);
    hide ContentsOf;
    ItemsAreOfRecords(s.log, q, x);
    if FirstOff(s, l, i) {
      forall y | y in ContentsOf(s.log, q)
        ensures NotAfter(x, y)
      {
        ItemsAreOfRecords(s.log, q, y);
      }
    }
    if IsFirst(ContentsOf(s.log, q), x) {
      forall j | 0 <= j < |s.log| && Holds(q, s.log[j])
        ensures NotAfter(x, ItemOf(s.log[j]))
      {
        ItemsAreOfRecords(s.log, q, ItemOf(s.log[j]));
      }
    }
  }
}
