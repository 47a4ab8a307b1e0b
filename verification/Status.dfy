/** Up/down status with one-shot notifiers, as links and nodes keep it. */
module Status {
  import opened Types

  /** While down, the status owns the notifier that its waiters listen to. */
  datatype Status = Up | Down(notifier: nat)

  /** A status, and how many notifiers it has made so far (so that each is made once). */
  datatype StatusCell = StatusCell(status: Status, made: nat)

  const INITIALLY_UP := StatusCell(Up, 0)

  ghost predicate ValidCell(c: StatusCell) {
    c.status.Down? ==> c.status.notifier < c.made
  }

  function UpdateStatus(c: StatusCell, update: UpDown): (r: StatusCell)
    ensures ValidCell(c) ==> ValidCell(r)
    ensures r.status.Up? <==> update.GoUp?
  {
    match (c.status, update)
    case (Down(_), GoDown) => c
    case (Up, GoUp) => c
    case (Up, GoDown) => StatusCell(Down(c.made), c.made + 1)
    case (Down(_), GoUp) => c.(status := Up)
  }

  /** A notifier fires when its status goes up, and stays fired. */
  predicate Fired(c: StatusCell, notifier: nat) {
    notifier < c.made && c.status != Down(notifier)
  }

  function UpdateAll(c: StatusCell, updates: seq<UpDown>): StatusCell
    decreases |updates|
  {
    if updates == [] then c else UpdateAll(UpdateStatus(c, updates[0]), updates[1..])
  }

  lemma {:induction false} FiredStaysFired(c: StatusCell, notifier: nat, updates: seq<UpDown>)
    requires ValidCell(c) && Fired(c, notifier)
    ensures ValidCell(UpdateAll(c, updates)) && Fired(UpdateAll(c, updates), notifier)
    decreases |updates|
  {
    if updates != [] {
      FiredStaysFired(UpdateStatus(c, updates[0]), notifier, updates[1..]);
    }
  }

  /**
   * No lost wakeup. A notifier handed out while down has fired after any further updates exactly if
   * one of them was an Up; until then it is still the notifier that the next Up will fire,
   * however many redundant Down updates came in between.
   */
  lemma {:induction false} NotifierFiresAtNextUp(c: StatusCell, updates: seq<UpDown>)
    requires ValidCell(c) && c.status.Down?
    ensures Fired(UpdateAll(c, updates), c.status.notifier) <==> GoUp in updates
    ensures GoUp !in updates ==> UpdateAll(c, updates).status == c.status
    decreases |updates|
  {
    if updates != [] {
      var c1 := UpdateStatus(c, updates[0]);
      if updates[0].GoUp? {
        FiredStaysFired(c1, c.status.notifier, updates[1..]);
      } else {
        NotifierFiresAtNextUp(c1, updates[1..]);
      }
    }
  }

  // ----- When a link was last down: the link's own record against the verifier's -----

  datatype TimedUpdate = TimedUpdate(time: Time, update: UpDown)

  /** The link remembers the last change from up to down; the verifier, the last Down update. */
  datatype DownRecord = DownRecord(cell: StatusCell, lastEdge: Option<Time>, lastUpdate: Option<Time>)

  function EdgeTime(c: StatusCell, lastDown: Option<Time>, update: UpDown, now: Time): Option<Time> {
    if c.status.Up? && update.GoDown? then Some(now) else lastDown
  }

  function Record(d: DownRecord, u: TimedUpdate): DownRecord {
    DownRecord(UpdateStatus(d.cell, u.update), EdgeTime(d.cell, d.lastEdge, u.update, u.time),
               if u.update.GoDown? then Some(u.time) else d.lastUpdate)
  }

  function RecordAll(d: DownRecord, updates: seq<TimedUpdate>): DownRecord {
    if updates == [] then d
    else Record(RecordAll(d, updates[..|updates| - 1]), updates[|updates| - 1])
  }

  predicate Since(lastDown: Option<Time>, t: Time) {
    lastDown.Some? && t <= lastDown.value
  }

  predicate After(lastDown: Option<Time>, t: Time) {
    lastDown.Some? && t < lastDown.value
  }

  predicate DownUpdateAt(updates: seq<TimedUpdate>, t: Time) {
    TimedUpdate(t, GoDown) in updates
  }

  predicate InOrderFrom(updates: seq<TimedUpdate>, t: Time) {
    && (forall i :: 0 <= i < |updates| ==> t <= updates[i].time)
    && (forall i, j :: 0 <= i < j < |updates| ==> updates[i].time <= updates[j].time)
  }

  /**
   * What a packet sent at `sent`, while the link is up, finds on arrival after any later updates.
   * The simulator loses it if the link went down strictly later; the verifier objects to its
   * arrival if any Down update came at `sent` or later. A loss always has the verifier's
   * agreement, and the two tests agree on every packet unless a Down update shares its instant.
   */
  lemma {:induction false} LossTestsAgree(d: DownRecord, sent: Time, updates: seq<TimedUpdate>)
    requires d.cell.status.Up? && InOrderFrom(updates, sent)
    requires !After(d.lastEdge, sent) && !After(d.lastUpdate, sent)
    ensures var r := RecordAll(d, updates);
      && (After(r.lastEdge, sent) ==> Since(r.lastUpdate, sent))
      && (Since(r.lastUpdate, sent) && !After(r.lastEdge, sent) ==>
            d.lastUpdate == Some(sent) || DownUpdateAt(updates, sent))
      && (d.lastUpdate == Some(sent) || DownUpdateAt(updates, sent) ==> Since(r.lastUpdate, sent))
  {
    DownRecordInvariant(d, sent, updates);
  }

  lemma {:induction false} DownRecordInvariant(d: DownRecord, sent: Time, updates: seq<TimedUpdate>)
    requires d.cell.status.Up? && InOrderFrom(updates, sent)
    requires !After(d.lastEdge, sent) && !After(d.lastUpdate, sent)
    ensures var r := RecordAll(d, updates);
      && (Since(r.lastEdge, sent) && !After(r.lastEdge, sent) ==>
            d.lastEdge == r.lastEdge || DownUpdateAt(updates, sent))
      && (After(r.lastEdge, sent) ==> After(r.lastUpdate, sent))
      && (After(r.lastUpdate, sent) ==> After(r.lastEdge, sent) || DownUpdateAt(updates, sent))
      && (r.lastUpdate == Some(sent) ==> d.lastUpdate == Some(sent) || DownUpdateAt(updates, sent))
      && (d.lastUpdate == Some(sent) || DownUpdateAt(updates, sent) ==> Since(r.lastUpdate, sent))
      && (r.cell.status.Down? ==> After(r.lastEdge, sent) || DownUpdateAt(updates, sent))
  {
    if updates != [] {
      var init, last := updates[..|updates| - 1], updates[|updates| - 1];
      DownUpdateLast(init, last, sent);
      assert updates == init + [last];
      hide DownUpdateAt, InOrderFrom;
      DownRecordInvariant(d, sent, init);
    }
  }

  lemma DownUpdateLast(init: seq<TimedUpdate>, last: TimedUpdate, sent: Time)
    ensures DownUpdateAt(init + [last], sent) <==> DownUpdateAt(init, sent) || last == TimedUpdate(sent, GoDown)
    ensures InOrderFrom(init + [last], sent) ==> InOrderFrom(init, sent) && sent <= last.time
  {
    var all := init + [last];
    assert all[|init|] == last;
    assert forall i :: 0 <= i < |init| ==> all[i] == init[i];
  }
}
