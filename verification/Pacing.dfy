/** The pacer that spaces out a link's sends, and why it keeps the replayed bandwidth in bounds. */
module Pacing {
  import opened Types
  import opened BandwidthWindow

  function CeilDiv(x: nat, d: nat): (q: nat)
    requires d > 0
    ensures x <= q * d < x + d
  {
    (x + d - 1) / d
  }

  /** Sending takes the bits over the bandwidth, rounded up to a millisecond. */
  function SendDuration(sizeBytes: nat, bandwidthBps: nat): Time
    requires bandwidthBps > 0
  {
    CeilDiv(sizeBytes * 8 * 1000, bandwidthBps) * NS_PER_MS
  }

  predicate CanSend(sendDone: Option<Time>, now: Time) {
    sendDone.None? || sendDone.value <= now
  }

  function DurationUntilCanSend(sendDone: Option<Time>, now: Time): Time {
    if sendDone.None? || sendDone.value <= now then 0 else sendDone.value - now
  }

  function TrackSend(now: Time, sizeBytes: nat, bandwidthBps: nat): Option<Time>
    requires bandwidthBps > 0
  {
    Some(now + SendDuration(sizeBytes, bandwidthBps))
  }

  /** From `from` until `until` there is time enough for `bits`. */
  predicate TimeEnough(from: Time, until: Time, bits: nat, bandwidthBps: nat) {
    from <= until && bits * NS_PER_SECOND <= (until - from) * bandwidthBps
  }

  predicate Paced(sends: seq<Send>, bandwidthBps: nat) {
    forall i :: 0 <= i < |sends| - 1 ==>
      TimeEnough(sends[i].time, sends[i + 1].time, sends[i].bits, bandwidthBps)
  }

  /** The pacer is busy at least until the newest send is through. */
  predicate PacerCovers(sends: seq<Send>, sendDone: Option<Time>, bandwidthBps: nat) {
    sends != [] ==>
      var last := sends[|sends| - 1];
      sendDone.Some? && TimeEnough(last.time, sendDone.value, last.bits, bandwidthBps)
  }

  lemma SendDurationIsEnough(now: Time, sizeBytes: nat, bandwidthBps: nat)
    requires bandwidthBps > 0
    ensures TimeEnough(now, TrackSend(now, sizeBytes, bandwidthBps).value, sizeBytes * 8, bandwidthBps)
  {
    var ms := CeilDiv(sizeBytes * 8 * 1000, bandwidthBps);
    assert ms * NS_PER_MS * bandwidthBps == ms * bandwidthBps * NS_PER_MS;
  }

  /**
   * From `from` until `until` is what a send takes: a whole number of milliseconds, as many as its
   * bits need at the bandwidth, and not one more.
   */
  predicate TakesMilliseconds(from: Time, until: Time, sizeBytes: nat, bandwidthBps: nat) {
    && from <= until
    && var ms := (until - from) / 1_000_000;
       && until == from + ms * 1_000_000
       && sizeBytes * 8 * 1000 <= ms * bandwidthBps
       && (ms > 0 ==> (ms - 1) * bandwidthBps < sizeBytes * 8 * 1000)
  }

  lemma SendTakesMilliseconds(now: Time, sizeBytes: nat, bandwidthBps: nat)
    requires bandwidthBps > 0
    ensures TakesMilliseconds(now, TrackSend(now, sizeBytes, bandwidthBps).value, sizeBytes, bandwidthBps)
  {
    var ms := CeilDiv(sizeBytes * 8 * 1000, bandwidthBps);
    assert SendDuration(sizeBytes, bandwidthBps) / 1_000_000 == ms;
    if ms > 0 {
      MulDistributes(ms - 1, 1, bandwidthBps);
    }
  }

  lemma MulDistributes(a: nat, b: nat, c: nat)
    ensures (a + b) * c == a * c + b * c
  {
  }

  lemma MulGrows(a: nat, b: nat, c: nat)
    requires a <= b
    ensures a * c <= b * c
  {
  }

  /** A paced series of sends takes at least as long as its bits take, the newest send apart. */
  lemma {:induction false} PacedTakesTime(sends: seq<Send>, bandwidthBps: nat)
    requires sends != [] && Paced(sends, bandwidthBps)
    ensures TimeEnough(sends[0].time, sends[|sends| - 1].time, SumBits(sends[..|sends| - 1]), bandwidthBps)
  {
    if |sends| > 1 {
      var rest := sends[1..];
      PacedTakesTime(rest, bandwidthBps);
      assert sends[..|sends| - 1] == [sends[0]] + rest[..|rest| - 1];
      SumBitsAppend([sends[0]], rest[..|rest| - 1]);
      MulDistributes(sends[1].time - sends[0].time, rest[|rest| - 1].time - rest[0].time, bandwidthBps);
    }
  }

  lemma TimeEnoughLater(from: Time, until: Time, later: Time, bits: nat, bandwidthBps: nat)
    requires TimeEnough(from, until, bits, bandwidthBps) && until <= later
    ensures TimeEnough(from, later, bits, bandwidthBps)
  {
    MulGrows(until - from, later - from, bandwidthBps);
  }

  lemma PacedAppend(window: seq<Send>, sendDone: Option<Time>, send: Send, bandwidthBps: nat)
    requires Paced(window, bandwidthBps) && PacerCovers(window, sendDone, bandwidthBps)
    requires CanSend(sendDone, send.time)
    ensures Paced(window + [send], bandwidthBps)
  {
    if window != [] {
      var last := window[|window| - 1];
      TimeEnoughLater(last.time, sendDone.value, send.time, last.bits, bandwidthBps);
    }
  }

  lemma PacedSuffix(window: seq<Send>, kept: seq<Send>, sendDone: Option<Time>, bandwidthBps: nat)
    requires Paced(window, bandwidthBps) && PacerCovers(window, sendDone, bandwidthBps)
    requires |kept| <= |window| && kept == window[|window| - |kept|..]
    ensures Paced(kept, bandwidthBps) && PacerCovers(kept, sendDone, bandwidthBps)
  {
    forall i | 0 <= i < |kept| - 1
      ensures TimeEnough(kept[i].time, kept[i + 1].time, kept[i].bits, bandwidthBps)
    {
      var j := i + |window| - |kept|;
      assert kept[i] == window[j] && kept[i + 1] == window[j + 1];
    }
  }

  /** One more paced send, and the pacer set again, keep the window paced and covered. */
  lemma SendStaysPaced(window: seq<Send>, sendDone: Option<Time>, now: Time, sizeBytes: nat, bandwidthBps: nat)
    requires bandwidthBps > 0
    requires Paced(window, bandwidthBps) && PacerCovers(window, sendDone, bandwidthBps) && CanSend(sendDone, now)
    ensures var window1 := Expire(window, WindowNs(bandwidthBps), now) + [Send(now, sizeBytes * 8)];
      Paced(window1, bandwidthBps) && PacerCovers(window1, TrackSend(now, sizeBytes, bandwidthBps), bandwidthBps)
  {
    var kept := Expire(window, WindowNs(bandwidthBps), now);
    PacedSuffix(window, kept, sendDone, bandwidthBps);
    PacedAppend(kept, sendDone, Send(now, sizeBytes * 8), bandwidthBps);
    SendDurationIsEnough(now, sizeBytes, bandwidthBps);
  }

  lemma DivAddsWhole(x: nat, whole: nat, w: nat, y: nat)
    requires w > 0 && x <= whole * w + y
    ensures x / w <= whole + y / w
  {
    var q := x / w;
    if whole + y / w < q {
      MulGrows(whole + y / w + 1, q, w);
      MulDistributes(whole, y / w + 1, w);
      MulDistributes(y / w, 1, w);
    }
  }

  /**
   * What the verifier computes for a link whose window is paced: at most the bandwidth, plus what
   * the newest send alone contributes.
   */
  lemma PacedWindowIsBounded(window: seq<Send>, bandwidthBps: nat)
    requires window != [] && Paced(window, bandwidthBps)
    requires window[|window| - 1].time <= window[0].time + WindowNs(bandwidthBps)
    ensures WindowBps(window, bandwidthBps)
         <= bandwidthBps + window[|window| - 1].bits / WindowSeconds(bandwidthBps)
  {
    var last := window[|window| - 1];
    var older := window[..|window| - 1];
    var w := WindowSeconds(bandwidthBps);
    PacedTakesTime(window, bandwidthBps);
    MulGrows(last.time - window[0].time, w * NS_PER_SECOND, bandwidthBps);
    assert SumBits(older) * NS_PER_SECOND <= w * NS_PER_SECOND * bandwidthBps;
    assert w * NS_PER_SECOND * bandwidthBps == bandwidthBps * w * NS_PER_SECOND;
    assert SumBits(older) <= bandwidthBps * w;
    assert window == older + [last];
    SumBitsAppend(older, [last]);
    DivAddsWhole(SumBits(window), bandwidthBps, w, last.bits);
  }

  // ----- The pacer and the verifier, run side by side over any sends -----

  datatype Packet = Packet(time: Time, sizeBytes: nat)

  /** When the pacer is next free after these sends; none if it did not allow one of them. */
  function PacerAfter(sends: seq<Packet>, bandwidthBps: nat): Option<Option<Time>>
    requires bandwidthBps > 0
  {
    if sends == [] then Some(None)
    else
      var before := PacerAfter(sends[..|sends| - 1], bandwidthBps);
      var last := sends[|sends| - 1];
      if before.Some? && CanSend(before.value, last.time)
      then Some(TrackSend(last.time, last.sizeBytes, bandwidthBps))
      else None
  }

  function VerifierAfter(sends: seq<Packet>, bandwidthBps: nat): LinkView {
    if sends == [] then FRESH_LINK
    else
      var last := sends[|sends| - 1];
      PacketSent(VerifierAfter(sends[..|sends| - 1], bandwidthBps), last.time, last.sizeBytes, bandwidthBps)
  }

  lemma {:induction false} PacerKeepsWindowPaced(sends: seq<Packet>, bandwidthBps: nat)
    requires bandwidthBps > 0 && PacerAfter(sends, bandwidthBps).Some?
    ensures Paced(VerifierAfter(sends, bandwidthBps).window, bandwidthBps)
    ensures PacerCovers(VerifierAfter(sends, bandwidthBps).window, PacerAfter(sends, bandwidthBps).value, bandwidthBps)
  {
    if sends != [] {
      var init, last := sends[..|sends| - 1], sends[|sends| - 1];
      PacerKeepsWindowPaced(init, bandwidthBps);
      SendStaysPaced(VerifierAfter(init, bandwidthBps).window, PacerAfter(init, bandwidthBps).value,
                     last.time, last.sizeBytes, bandwidthBps);
    }
  }

  lemma NewWindowSpan(l: LinkView, now: Time, sizeBytes: nat, bandwidthBps: nat)
    ensures var window := PacketSent(l, now, sizeBytes, bandwidthBps).window;
      && window != [] && window[|window| - 1] == Send(now, sizeBytes * 8)
      && now <= window[0].time + WindowNs(bandwidthBps)
  {
  }

  /**
   * For any sends that the pacer allows, the usage that the verifier computes at the newest one is
   * at most the link's bandwidth plus that one packet's bits over the window.
   */
  lemma PacingBoundsBandwidth(sends: seq<Packet>, bandwidthBps: nat)
    requires bandwidthBps > 0 && sends != [] && PacerAfter(sends, bandwidthBps).Some?
    ensures UsedBps(VerifierAfter(sends, bandwidthBps), bandwidthBps)
         <= bandwidthBps + sends[|sends| - 1].sizeBytes * 8 / if bandwidthBps < 9984 then 10 else 1
  {
    var init, last := sends[..|sends| - 1], sends[|sends| - 1];
    PacerKeepsWindowPaced(sends, bandwidthBps);
    NewWindowSpan(VerifierAfter(init, bandwidthBps), last.time, last.sizeBytes, bandwidthBps);
    PacedWindowIsBounded(VerifierAfter(sends, bandwidthBps).window, bandwidthBps);
  }

  lemma DivReaches(x: nat, w: nat, q: nat)
    requires w > 0
    ensures q <= x / w <==> q * w <= x
  {
    if q <= x / w {
      MulGrows(q, x / w, w);
    } else {
      MulGrows(x / w + 1, q, w);
      MulDistributes(x / w, 1, w);
    }
  }

  // ----- When paced sends go over the bandwidth -----

  function SendOf(p: Packet): Send {
    Send(p.time, p.sizeBytes * 8)
  }

  function SendsOf(sends: seq<Packet>): seq<Send> {
    seq(|sends|, i requires 0 <= i < |sends| => SendOf(sends[i]))
  }

  lemma {:induction false} VerifierSeesSends(sends: seq<Packet>, bandwidthBps: nat)
    ensures VerifierAfter(sends, bandwidthBps) == AfterSends(SendsOf(sends), bandwidthBps)
  {
    if sends != [] {
      VerifierSeesSends(sends[..|sends| - 1], bandwidthBps);
      assert SendsOf(sends)[..|sends| - 1] == SendsOf(sends[..|sends| - 1]);
    }
  }

  lemma {:induction false} PacedSendsAreSorted(sends: seq<Packet>, bandwidthBps: nat)
    requires bandwidthBps > 0 && PacerAfter(sends, bandwidthBps).Some?
    ensures SendsSorted(SendsOf(sends))
    ensures sends != [] ==>
      PacerAfter(sends, bandwidthBps).value.Some?
      && sends[|sends| - 1].time <= PacerAfter(sends, bandwidthBps).value.value
  {
    if sends != [] {
      var init := sends[..|sends| - 1];
      PacedSendsAreSorted(init, bandwidthBps);
      assert SendsOf(sends)[..|sends| - 1] == SendsOf(init);
      if init != [] {
        LastIsLatest(SendsOf(sends));
      }
    }
  }

  lemma LastIsLatest(sends: seq<Send>)
    requires |sends| >= 2 && SendsSorted(sends[..|sends| - 1]) && sends[|sends| - 2].time <= sends[|sends| - 1].time
    ensures SendsSorted(sends)
  {
    var init := sends[..|sends| - 1];
    forall i, j | 0 <= i < j < |sends|
      ensures sends[i].time <= sends[j].time
    {
      if j == |sends| - 1 {
        assert init[i].time <= init[|init| - 1].time;
      } else {
        assert init[i].time <= init[j].time;
      }
    }
  }

  /** For paced sends, the verifier's usage at the newest one is what all of them, added up anew, come to. */
  lemma UsageOfPaced(sends: seq<Packet>, bandwidthBps: nat)
    requires bandwidthBps > 0 && sends != [] && PacerAfter(sends, bandwidthBps).Some?
    ensures UsedBps(VerifierAfter(sends, bandwidthBps), bandwidthBps) == BruteForceBps(SendsOf(sends), bandwidthBps)
    ensures IsUsage(SendsOf(sends), bandwidthBps, UsedBps(VerifierAfter(sends, bandwidthBps), bandwidthBps))
  {
    hide PacerAfter, VerifierAfter, AfterSends, BruteForceBps, IsUsage;
    VerifierSeesSends(sends, bandwidthBps);
    PacedSendsAreSorted(sends, bandwidthBps);
    WindowIsBruteForce(SendsOf(sends), bandwidthBps);
    UsageIsBruteForce(SendsOf(sends), bandwidthBps);
  }

  /**
   * When a link goes over its bandwidth though it is paced: exactly if the bits of the sends of the
   * last second, for slower links of the last ten seconds, both ends included, come to more than
   * the bandwidth allows for that time.
   */
  lemma PacedSendExceedsIff(sends: seq<Packet>, bandwidthBps: nat)
    requires bandwidthBps > 0 && sends != [] && PacerAfter(sends, bandwidthBps).Some?
    ensures bandwidthBps < UsedBps(VerifierAfter(sends, bandwidthBps), bandwidthBps)
       <==> IsTooMuch(SendsOf(sends), bandwidthBps)
  {
    hide PacerAfter, VerifierAfter, IsUsage, IsTooMuch;
    UsageOfPaced(sends, bandwidthBps);
    TooMuchIsOver(SendsOf(sends), bandwidthBps, UsedBps(VerifierAfter(sends, bandwidthBps), bandwidthBps));
  }

  /** The bits of the sends still in the window, against the bandwidth over its length. */
  lemma OverByBits(sends: seq<Packet>, bandwidthBps: nat)
    requires bandwidthBps > 0 && sends != [] && PacerAfter(sends, bandwidthBps).Some?
    ensures bandwidthBps < UsedBps(VerifierAfter(sends, bandwidthBps), bandwidthBps)
       <==> (bandwidthBps + 1) * WindowSeconds(bandwidthBps)
            <= SumBits(Recent(SendsOf(sends), WindowNs(bandwidthBps), sends[|sends| - 1].time))
  {
    hide PacerAfter, VerifierAfter, Recent, UsedBps, IsUsage;
    UsageOfPaced(sends, bandwidthBps);
    DivReaches(SumBits(Recent(SendsOf(sends), WindowNs(bandwidthBps), sends[|sends| - 1].time)),
               WindowSeconds(bandwidthBps), bandwidthBps + 1);
  }

  lemma {:induction false} PacerAllowedPrefix(sends: seq<Packet>, bandwidthBps: nat, k: nat)
    requires bandwidthBps > 0 && PacerAfter(sends, bandwidthBps).Some? && k <= |sends|
    ensures PacerAfter(sends[..k], bandwidthBps).Some?
    decreases |sends|
  {
    if k == |sends| {
      assert sends[..k] == sends;
    } else {
      PacerAllowedPrefix(sends[..|sends| - 1], bandwidthBps, k);
      assert sends[..|sends| - 1][..k] == sends[..k];
    }
  }

  // ----- A link in full use -----

  /** `n` packets of one size, each sent as soon as the pacer allows. */
  function FullUse(n: nat, sizeBytes: nat, bandwidthBps: nat): seq<Packet>
    requires bandwidthBps > 0
  {
    seq(n, i requires 0 <= i < n => Packet(i * SendDuration(sizeBytes, bandwidthBps), sizeBytes))
  }

  lemma FullUseSnoc(n: nat, sizeBytes: nat, bandwidthBps: nat)
    requires bandwidthBps > 0
    ensures FullUse(n + 1, sizeBytes, bandwidthBps)[..n] == FullUse(n, sizeBytes, bandwidthBps)
    ensures SendsOf(FullUse(n + 1, sizeBytes, bandwidthBps))
         == SendsOf(FullUse(n, sizeBytes, bandwidthBps)) + [Send(n * SendDuration(sizeBytes, bandwidthBps), sizeBytes * 8)]
  {
    hide SendDuration;
  }

  lemma {:induction false} FullUseIsPaced(n: nat, sizeBytes: nat, bandwidthBps: nat)
    requires bandwidthBps > 0 && n > 0
    ensures PacerAfter(FullUse(n, sizeBytes, bandwidthBps), bandwidthBps)
         == Some(Some(n * SendDuration(sizeBytes, bandwidthBps)))
  {
    var d := SendDuration(sizeBytes, bandwidthBps);
    hide SendDuration;
    FullUseSnoc(n - 1, sizeBytes, bandwidthBps);
    if n > 1 {
      FullUseIsPaced(n - 1, sizeBytes, bandwidthBps);
    }
    assert n * d == (n - 1) * d + d;
  }

  /** The first of `n` sends in full use that counts at send `n`, if the window has room for `fit` others. */
  function FirstToCount(n: nat, fit: nat): nat {
    if n <= fit then 0 else n - fit
  }

  /** The bits of the first `j` sends, less those before the first that counts. */
  function BitsFrom(j: nat, first: nat, bits: nat): nat {
    if j <= first then 0 else (j - first) * bits
  }

  /** Sends of so many bits each, at a steady pace. */
  function AtPace(j: nat, d: nat, bits: nat): seq<Send> {
    if j == 0 then [] else AtPace(j - 1, d, bits) + [Send((j - 1) * d, bits)]
  }

  lemma {:induction false} FullUseIsAtPace(n: nat, sizeBytes: nat, bandwidthBps: nat)
    requires bandwidthBps > 0
    ensures SendsOf(FullUse(n, sizeBytes, bandwidthBps)) == AtPace(n, SendDuration(sizeBytes, bandwidthBps), sizeBytes * 8)
  {
    hide SendDuration;
    if n > 0 {
      FullUseIsAtPace(n - 1, sizeBytes, bandwidthBps);
      FullUseSnoc(n - 1, sizeBytes, bandwidthBps);
    }
  }

  lemma RecentSnoc(sends: seq<Send>, send: Send, span: nat, now: Time)
    ensures SumBits(Recent(sends + [send], span, now))
         == SumBits(Recent(sends, span, now)) + if now <= send.time + span then send.bits else 0
  {
    RecentSplit(sends, [send], span, now);
    OneRecent(send, span, now);
    SumBitsAppend(Recent(sends, span, now), Recent([send], span, now));
  }

  lemma {:induction false} RecentAtPace(n: nat, j: nat, d: nat, span: nat, bits: nat)
    requires d > 0 && j <= n + 1
    ensures SumBits(Recent(AtPace(j, d, bits), span, n * d)) == BitsFrom(j, FirstToCount(n, span / d), bits)
    decreases j
  {
    AddOne(j, n, d, span, bits);
    hide BitsFrom, FirstToCount, Recent, SumBits;
    if j == 0 {
      NothingRecent(span, n * d);
    } else {
      AtPaceSnoc(j - 1, d, bits);
      hide AtPace;
      RecentAtPace(n, j - 1, d, span, bits);
      RecentSnoc(AtPace(j - 1, d, bits), Send((j - 1) * d, bits), span, n * d);
    }
  }

  lemma AtPaceSnoc(j: nat, d: nat, bits: nat)
    ensures AtPace(j + 1, d, bits) == AtPace(j, d, bits) + [Send(j * d, bits)]
  {
  }

  lemma NothingRecent(span: nat, now: Time)
    ensures SumBits(Recent([], span, now)) == 0
  {
  }

  lemma OneRecent(send: Send, span: nat, now: Time)
    ensures SumBits(Recent([send], span, now)) == if now <= send.time + span then send.bits else 0
  {
    assert [send][..0] == [] && SumBits([send][1..]) == 0;
    assert Recent([], span, now) + [send] == [send];
  }

  lemma StillCounts(n: nat, i: nat, d: nat, span: nat)
    requires d > 0 && i <= n
    ensures n * d <= i * d + span <==> n - i <= span / d
  {
    DivReaches(span, d, n - i);
    assert n * d - i * d == (n - i) * d;
  }

  lemma AddOne(j: nat, n: nat, d: nat, span: nat, bits: nat)
    requires d > 0 && j <= n + 1
    ensures var first := FirstToCount(n, span / d);
      && (j == 0 ==> BitsFrom(j, first, bits) == 0)
      && (j > 0 ==>
            BitsFrom(j, first, bits)
            == BitsFrom(j - 1, first, bits) + if n * d <= (j - 1) * d + span then bits else 0)
  {
    var first := FirstToCount(n, span / d);
    if j > 0 {
      StillCounts(n, j - 1, d, span);
      if first < j {
        assert (j - first) * bits == (j - 1 - first) * bits + bits;
      }
    }
  }

  /**
   * A link in full use: its send number `n`, counted from zero, goes over the bandwidth exactly if
   * the sends in its window do, and these are that one and as many before it as fit the window.
   */
  lemma FullUseExceedsIff(n: nat, sizeBytes: nat, bandwidthBps: nat)
    requires bandwidthBps > 0 && SendDuration(sizeBytes, bandwidthBps) > 0
    ensures var sends := FullUse(n + 1, sizeBytes, bandwidthBps);
      var seconds := if bandwidthBps < 9984 then 10 else 1;
      var fit := seconds * 1_000_000_000 / SendDuration(sizeBytes, bandwidthBps);
      && PacerAfter(sends, bandwidthBps).Some?
      && (bandwidthBps < UsedBps(VerifierAfter(sends, bandwidthBps), bandwidthBps)
          <==> (bandwidthBps + 1) * seconds <= ((if n <= fit then n else fit) + 1) * (sizeBytes * 8))
  {
    hide SendDuration, PacerAfter, VerifierAfter, AfterSends, Recent;
    var sends := FullUse(n + 1, sizeBytes, bandwidthBps);
    FullUseIsPaced(n + 1, sizeBytes, bandwidthBps);
    FullUseIsAtPace(n + 1, sizeBytes, bandwidthBps);
    RecentAtPace(n, n + 1, SendDuration(sizeBytes, bandwidthBps), WindowNs(bandwidthBps), sizeBytes * 8);
    OverByBits(sends, bandwidthBps);
  }

  /** So a saturated link does exceed its bandwidth: eleven packets of 1000 bytes, sent without a pause at 8000 bps. */
  lemma SaturatedLinkExceeds()
    ensures PacerAfter(FullUse(11, 1000, 8000), 8000).Some?
    ensures 8000 < UsedBps(VerifierAfter(FullUse(11, 1000, 8000), 8000), 8000)
  {
    assert SendDuration(1000, 8000) == NS_PER_SECOND;
    hide SendDuration;
    FullUseExceedsIff(10, 1000, 8000);
  }

  /** And so does a link's first packet, exactly if it alone is larger than what the link sends in a window. */
  lemma FirstSendExceedsIff(now: Time, sizeBytes: nat, bandwidthBps: nat)
    requires bandwidthBps > 0
    ensures PacerAfter([Packet(now, sizeBytes)], bandwidthBps).Some?
    ensures bandwidthBps < UsedBps(VerifierAfter([Packet(now, sizeBytes)], bandwidthBps), bandwidthBps)
       <==> (bandwidthBps + 1) * (if bandwidthBps < 9984 then 10 else 1) <= sizeBytes * 8
  {
    var sends := [Packet(now, sizeBytes)];
    assert SendsOf(sends) == [Send(now, sizeBytes * 8)];
    assert PacerAfter([], bandwidthBps) == Some(None) && sends[..0] == [];
    OneRecent(Send(now, sizeBytes * 8), WindowNs(bandwidthBps), now);
    OverByBits(sends, bandwidthBps);
  }
}
