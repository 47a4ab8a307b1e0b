/** The verifier's record of one link: its replayed status and its sliding bandwidth window. */
module BandwidthWindow {
  import opened Types

  datatype Send = Send(time: Time, bits: nat)

  datatype LinkView = LinkView(
    up: bool,
    lastDown: Option<Time>,
    usageBits: nat,
    window: seq<Send>,
    maxBps: nat)

  const FRESH_LINK := LinkView(true, None, 0, [], 0)

  function SetStatus(l: LinkView, status: UpDown, now: Time): LinkView {
    l.(up := status.GoUp?, lastDown := if status.GoDown? then Some(now) else l.lastDown)
  }

  function WindowSeconds(bandwidthBps: nat): (w: nat)
    ensures w > 0
  {
    if bandwidthBps < 9984 then 10 else 1
  }

  function WindowNs(bandwidthBps: nat): nat {
    WindowSeconds(bandwidthBps) * NS_PER_SECOND
  }

  function SumBits(sends: seq<Send>): nat {
    if sends == [] then 0 else sends[0].bits + SumBits(sends[1..])
  }

  /** Pops sends off the front for as long as they are too old to count at `now`. */
  function Expire(sends: seq<Send>, span: nat, now: Time): (r: seq<Send>)
    ensures |r| <= |sends| && r == sends[|sends| - |r|..]
    ensures SumBits(r) <= SumBits(sends)
    ensures r != [] ==> now <= r[0].time + span
  {
    if sends != [] && sends[0].time + span < now then Expire(sends[1..], span, now) else sends
  }

  /** The link's view after one more send. */
  function RecordSend(l: LinkView, send: Send, bandwidthBps: nat): LinkView {
    var window := Expire(l.window, WindowNs(bandwidthBps), send.time) + [send];
    l.(window := window, usageBits := SumBits(window), maxBps := Max(l.maxBps, WindowBps(window, bandwidthBps)))
  }

  function PacketSent(l: LinkView, now: Time, sizeBytes: nat, bandwidthBps: nat): LinkView {
    RecordSend(l, Send(now, sizeBytes * 8), bandwidthBps)
  }

  function WindowBps(window: seq<Send>, bandwidthBps: nat): nat {
    SumBits(window) / WindowSeconds(bandwidthBps)
  }

  function UsedBps(l: LinkView, bandwidthBps: nat): nat {
    l.usageBits / WindowSeconds(bandwidthBps)
  }

  // ----- The window against the whole history of sends -----

  predicate SendsSorted(sends: seq<Send>) {
    forall i, j :: 0 <= i < j < |sends| ==> sends[i].time <= sends[j].time
  }

  /** The view after replaying every send of a history. */
  function AfterSends(sends: seq<Send>, bandwidthBps: nat): LinkView
  {
    if sends == [] then FRESH_LINK
    else RecordSend(AfterSends(sends[..|sends| - 1], bandwidthBps), sends[|sends| - 1], bandwidthBps)
  }

  /** The sends that still count at `now`, chosen one by one with no regard to order. */
  function Recent(sends: seq<Send>, span: nat, now: Time): seq<Send> {
    if sends == [] then []
    else
      var rest := Recent(sends[..|sends| - 1], span, now);
      var last := sends[|sends| - 1];
      if now <= last.time + span then rest + [last] else rest
  }

  /** The bits per second seen at the last send of a history, by summing over the whole history. */
  function BruteForceBps(sends: seq<Send>, bandwidthBps: nat): nat
    requires sends != []
  {
    WindowBps(Recent(sends, WindowNs(bandwidthBps), sends[|sends| - 1].time), bandwidthBps)
  }

  lemma {:induction false} SumBitsAppend(a: seq<Send>, b: seq<Send>)
    ensures SumBits(a + b) == SumBits(a) + SumBits(b)
  {
    if a == [] {
      assert a + b == b;
    } else {
      assert (a + b)[1..] == a[1..] + b;
      SumBitsAppend(a[1..], b);
    }
  }

  lemma {:induction false} RecentSplit(a: seq<Send>, b: seq<Send>, span: nat, now: Time)
    ensures Recent(a + b, span, now) == Recent(a, span, now) + Recent(b, span, now)
  {
    if b == [] {
      assert a + b == a;
      assert Recent(a, span, now) + [] == Recent(a, span, now);
    } else {
      assert (a + b)[..|a + b| - 1] == a + b[..|b| - 1];
      RecentSplit(a, b[..|b| - 1], span, now);
    }
  }

  lemma {:induction false} RecentKeepsAll(sends: seq<Send>, span: nat, now: Time)
    requires forall i :: 0 <= i < |sends| ==> now <= sends[i].time + span
    ensures Recent(sends, span, now) == sends
  {
    if sends != [] {
      RecentKeepsAll(sends[..|sends| - 1], span, now);
    }
  }

  /** On a sorted history, dropping from the front keeps exactly the sends that still count. */
  lemma {:induction false} ExpireIsRecent(sends: seq<Send>, span: nat, now: Time)
    requires SendsSorted(sends)
    ensures Expire(sends, span, now) == Recent(sends, span, now)
  {
    if sends != [] {
      if sends[0].time + span < now {
        assert sends == [sends[0]] + sends[1..];
        RecentSplit([sends[0]], sends[1..], span, now);
        assert Recent([sends[0]], span, now) == [];
        ExpireIsRecent(sends[1..], span, now);
      } else {
        RecentKeepsAll(sends, span, now);
      }
    }
  }

  /** A send that no longer counted earlier does not count later. */
  lemma {:induction false} RecentOfRecent(sends: seq<Send>, span: nat, earlier: Time, now: Time)
    requires earlier <= now
    ensures Recent(Recent(sends, span, earlier), span, now) == Recent(sends, span, now)
  {
    if sends != [] {
      var init, last := sends[..|sends| - 1], sends[|sends| - 1];
      RecentOfRecent(init, span, earlier, now);
      if earlier <= last.time + span {
        RecentSplit(Recent(init, span, earlier), [last], span, now);
        RecentSplit(init, [last], span, now);
        assert sends == init + [last];
      }
    }
  }

  lemma {:induction false} RecentSorted(sends: seq<Send>, span: nat, now: Time)
    requires SendsSorted(sends)
    ensures SendsSorted(Recent(sends, span, now))
    ensures forall s :: s in Recent(sends, span, now) ==> s in sends
  {
    if sends != [] {
      var init, last := sends[..|sends| - 1], sends[|sends| - 1];
      RecentSorted(init, span, now);
      var rest := Recent(init, span, now);
      forall i | 0 <= i < |rest|
        ensures rest[i].time <= last.time
      {
        assert rest[i] in init;
      }
    }
  }

  lemma {:induction false} WindowIsRecent(sends: seq<Send>, bandwidthBps: nat)
    requires SendsSorted(sends) && sends != []
    ensures AfterSends(sends, bandwidthBps).window
         == Recent(sends, WindowNs(bandwidthBps), sends[|sends| - 1].time)
  {
    var span := WindowNs(bandwidthBps);
    var init, last := sends[..|sends| - 1], sends[|sends| - 1];
    var before := AfterSends(init, bandwidthBps);
    if init != [] {
      WindowIsRecent(init, bandwidthBps);
      var earlier := init[|init| - 1].time;
      RecentSorted(init, span, earlier);
      ExpireIsRecent(before.window, span, last.time);
      RecentOfRecent(init, span, earlier, last.time);
    }
    assert Expire(before.window, span, last.time) == Recent(init, span, last.time);
  }

  /** For time-sorted sends, the incrementally kept usage is the brute-force sum over the whole history. */
  lemma {:induction false} WindowIsBruteForce(sends: seq<Send>, bandwidthBps: nat)
    requires SendsSorted(sends) && sends != []
    ensures UsedBps(AfterSends(sends, bandwidthBps), bandwidthBps) == BruteForceBps(sends, bandwidthBps)
    ensures AfterSends(sends, bandwidthBps).maxBps
         == Max(AfterSends(sends[..|sends| - 1], bandwidthBps).maxBps, BruteForceBps(sends, bandwidthBps))
  {
    WindowIsRecent(sends, bandwidthBps);
  }

  // ----- The window in seconds -----

  /** The bits of all sends that are at most `span` nanoseconds older than `now`. */
  function BitsWithin(sends: seq<Send>, span: nat, now: Time): nat {
    if sends == [] then 0
    else
      var last := sends[|sends| - 1];
      BitsWithin(sends[..|sends| - 1], span, now) + if now <= last.time + span then last.bits else 0
  }

  lemma {:induction false} RecentBits(sends: seq<Send>, span: nat, now: Time)
    ensures SumBits(Recent(sends, span, now)) == BitsWithin(sends, span, now)
  {
    if sends != [] {
      var init, last := sends[..|sends| - 1], sends[|sends| - 1];
      RecentBits(init, span, now);
      SumBitsAppend(Recent(init, span, now), [last]);
      OneSend(last);
    }
  }

  lemma OneSend(send: Send)
    ensures SumBits([send]) == send.bits
  {
    assert SumBits([send][1..]) == 0;
  }

  /**
   * What a link's usage is at its newest send. From 9984 bits per second on, it is the bits of the
   * sends of the last second; for slower links, a tenth of those of the last ten seconds.
   */
  predicate IsUsage(sends: seq<Send>, bandwidthBps: nat, used: nat) {
    && sends != []
    && var now := sends[|sends| - 1].time;
       && (9984 <= bandwidthBps ==> used == BitsWithin(sends, 1_000_000_000, now))
       && (bandwidthBps < 9984 ==> used == BitsWithin(sends, 10_000_000_000, now) / 10)
  }

  lemma UsageIsBruteForce(sends: seq<Send>, bandwidthBps: nat)
    requires sends != []
    ensures forall used :: IsUsage(sends, bandwidthBps, used) <==> used == BruteForceBps(sends, bandwidthBps)
  {
    RecentBits(sends, 1_000_000_000, sends[|sends| - 1].time);
    RecentBits(sends, 10_000_000_000, sends[|sends| - 1].time);
    hide BitsWithin, Recent, SumBits;
  }

  /** That usage is more than the bandwidth. */
  predicate IsTooMuch(sends: seq<Send>, bandwidthBps: nat) {
    && sends != []
    && var now := sends[|sends| - 1].time;
       && (9984 <= bandwidthBps ==> bandwidthBps < BitsWithin(sends, 1_000_000_000, now))
       && (bandwidthBps < 9984 ==> (bandwidthBps + 1) * 10 <= BitsWithin(sends, 10_000_000_000, now))
  }

  lemma TooMuchIsOver(sends: seq<Send>, bandwidthBps: nat, used: nat)
    requires IsUsage(sends, bandwidthBps, used)
    ensures bandwidthBps < used <==> IsTooMuch(sends, bandwidthBps)
  {
    hide BitsWithin;
  }

  /** `most` bounds the usage at every send of the history, and is reached at one of them. */
  ghost predicate IsMaxUsage(sends: seq<Send>, bandwidthBps: nat, most: nat) {
    && (forall i, used: nat :: 1 <= i <= |sends| && IsUsage(sends[..i], bandwidthBps, used) ==> used <= most)
    && (exists i :: 1 <= i <= |sends| && IsUsage(sends[..i], bandwidthBps, most))
  }

  lemma FirstIsMax(send: Send, bandwidthBps: nat)
    ensures IsMaxUsage([send], bandwidthBps, BruteForceBps([send], bandwidthBps))
  {
    hide BruteForceBps, IsUsage;
    UsageIsBruteForce([send], bandwidthBps);
    assert [send][..1] == [send];
  }

  lemma MaxWithLast(init: seq<Send>, last: Send, bandwidthBps: nat, before: nat)
    requires IsMaxUsage(init, bandwidthBps, before)
    ensures IsMaxUsage(init + [last], bandwidthBps, Max(before, BruteForceBps(init + [last], bandwidthBps)))
  {
    hide BruteForceBps, IsUsage;
    var sends := init + [last];
    UsageIsBruteForce(sends, bandwidthBps);
    assert sends[..|sends|] == sends;
    assert forall i :: 1 <= i <= |init| ==> sends[..i] == init[..i];
    var k :| 1 <= k <= |init| && IsUsage(init[..k], bandwidthBps, before);
    assert IsUsage(sends[..k], bandwidthBps, before);
  }

  /** The reported maximum bounds the usage at every send of the history, and is reached at one of them. */
  lemma {:induction false} MaxUsageIsMaximum(sends: seq<Send>, bandwidthBps: nat)
    requires SendsSorted(sends) && sends != []
    ensures IsMaxUsage(sends, bandwidthBps, AfterSends(sends, bandwidthBps).maxBps)
  {
    var init, last := sends[..|sends| - 1], sends[|sends| - 1];
    WindowIsBruteForce(sends, bandwidthBps);
    assert sends == init + [last];
    if init == [] {
      assert AfterSends(init, bandwidthBps).maxBps == 0;
      FirstIsMax(last, bandwidthBps);
    } else {
      hide AfterSends, BruteForceBps, IsMaxUsage;
      MaxUsageIsMaximum(init, bandwidthBps);
      MaxWithLast(init, last, bandwidthBps, AfterSends(init, bandwidthBps).maxBps);
    }
  }

  /** The usage that the popping window gives is that, for every bandwidth. */
  lemma WindowIsInSeconds(sends: seq<Send>, bandwidthBps: nat)
    requires SendsSorted(sends) && sends != []
    ensures IsUsage(sends, bandwidthBps, UsedBps(AfterSends(sends, bandwidthBps), bandwidthBps))
  {
    hide IsUsage, BruteForceBps, AfterSends, UsedBps;
    WindowIsBruteForce(sends, bandwidthBps);
    UsageIsBruteForce(sends, bandwidthBps);
  }

  /** A first packet of 1500 bytes is too much for 10000 bits per second: it counts for a single second. */
  lemma FastLinkWindow()
    ensures UsedBps(AfterSends([Send(0, 1500 * 8)], 10000), 10000) == 12000
    ensures AfterSends([Send(0, 1500 * 8)], 10000).maxBps == 12000
  {
    var sends := [Send(0, 1500 * 8)];
    WindowIsInSeconds(sends, 10000);
    WindowIsBruteForce(sends, 10000);
    assert sends[..0] == [];
    assert BitsWithin(sends[..0], 1_000_000_000, 0) == 0;
  }
}
