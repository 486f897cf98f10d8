/**
 * The degradation detector of one QUIC connection: a sliding window over
 * cumulative counters, a UDP-blackhole watch and a verdict that latches.
 */
module Detector {
  import opened Clock
  import opened Options

  const SAMPLE_INTERVAL := 2 * SECOND
  const WINDOW := 12 * SECOND
  const WARMUP := 15 * SECOND
  const MIN_PACKETS := 256
  const MIN_BYTES := 524288
  const SINGLE_WRITE_BLOCK := 8 * SECOND
  const STALL_TIMEOUT := 8 * SECOND
  const CONFIRMATIONS := 2
  const MAX_GAP := 3 * SAMPLE_INTERVAL
  const RECENT_READ_BYTES := 65536
  const REQUIRED_SIGNALS := 2
  const REQUIRED_WINDOWS := 3

  const MAX_U64 := 0xFFFF_FFFF_FFFF_FFFF
  type u64 = x: int | 0 <= x <= MAX_U64

  function SaturatingAdd(left: u64, right: u64): u64
  {
    if MAX_U64 - left < right then MAX_U64 else left + right
  }

  /** The cumulative counters of a connection, or how far they moved. */
  datatype Counters = Counters(
    bytesSent: u64, packetsSent: u64, bytesReceived: u64, packetsReceived: u64,
    bytesLost: u64, packetsLost: u64, payload: u64, payloadRead: u64)

  const ZERO := Counters(0, 0, 0, 0, 0, 0, 0, 0)

  predicate NoLess(a: Counters, b: Counters)
  {
    && a.bytesSent <= b.bytesSent && a.packetsSent <= b.packetsSent
    && a.bytesReceived <= b.bytesReceived && a.packetsReceived <= b.packetsReceived
    && a.bytesLost <= b.bytesLost && a.packetsLost <= b.packetsLost
    && a.payload <= b.payload && a.payloadRead <= b.payloadRead
  }

  function Minus(b: Counters, a: Counters): Counters
    requires NoLess(a, b)
  {
    Counters(b.bytesSent - a.bytesSent, b.packetsSent - a.packetsSent, b.bytesReceived - a.bytesReceived,
             b.packetsReceived - a.packetsReceived, b.bytesLost - a.bytesLost, b.packetsLost - a.packetsLost,
             b.payload - a.payload, b.payloadRead - a.payloadRead)
  }

  function PlusSaturating(a: Counters, b: Counters): Counters
  {
    Counters(
      SaturatingAdd(a.bytesSent, b.bytesSent), SaturatingAdd(a.packetsSent, b.packetsSent),
      SaturatingAdd(a.bytesReceived, b.bytesReceived), SaturatingAdd(a.packetsReceived, b.packetsReceived),
      SaturatingAdd(a.bytesLost, b.bytesLost), SaturatingAdd(a.packetsLost, b.packetsLost),
      SaturatingAdd(a.payload, b.payload), SaturatingAdd(a.payloadRead, b.payloadRead))
  }

  /**
   * One observation. The last five fields are the verdicts of comparisons on
   * round-trip times and on rates, which are not modelled further.
   */
  datatype Sample = Sample(
    at: Time, counters: Counters, blockedWrites: int, longBlockedWrites: int, oldestBlockedFor: int,
    lastProgressAt: Time, blockedReads: int, recentReadDemand: bool, connectionErr: bool,
    rttBad: bool, lossBad: bool, severeLoss: bool, throughputLow: bool, wireWaste: bool)

  datatype Delta = Delta(at: Time, moved: Counters)

  datatype Reason = ConnectionError | SevereLossAndWrite | SustainedSignals | UdpBlackhole

  /** `blackhole` is the signal of this very sample; a rotate verdict carries a reason. */
  datatype Decision = Decision(verdict: Option<Reason>, blackhole: bool)

  datatype State = State(
    establishedAt: Time, initialized: bool, lastAt: Time, last: Counters,
    window: seq<Delta>, badWindows: nat, latched: Option<Reason>,
    bidirectional: bool, since: Time, sentBytes: u64, sentPackets: u64, sends: nat, confirmations: nat, readDemand: bool)

  function New(establishedAt: Time): State
  {
    State(establishedAt, false, 0, ZERO, [], 0, None, false, 0, 0, 0, 0, 0, false)
  }

  // --------------------------------------------------------------- the window

  function Trim(window: seq<Delta>, now: Time): seq<Delta>
  {
    if window != [] && window[0].at <= now - WINDOW then Trim(window[1..], now) else window
  }

  function Sum(window: seq<Delta>): Counters
  {
    if window == [] then ZERO else PlusSaturating(Sum(window[..|window| - 1]), window[|window| - 1].moved)
  }

  // ------------------------------------------------------------ the blackhole

  function ResetBlackhole(d: State): State
  {
    d.(since := 0, sentBytes := 0, sentPackets := 0, sends := 0, confirmations := 0, readDemand := false)
  }

  predicate Silent(moved: Counters)
  {
    moved.bytesReceived == 0 && moved.packetsReceived == 0 && moved.payload == 0
  }

  predicate Sends(moved: Counters)
  {
    moved.bytesSent > 0 || moved.packetsSent > 0
  }

  function ProgressAge(s: Sample): int
  {
    if s.lastProgressAt != 0 && s.lastProgressAt <= s.at then s.at - s.lastProgressAt else 0
  }

  predicate Warm(d: State, s: Sample)
  {
    s.at < d.establishedAt + WARMUP
  }

  function ReadDemand(d: State, s: Sample, recent: bool): bool
  {
    s.blockedReads > 0 && (recent || d.readDemand)
  }

  /** The stall has lasted long enough, on both clocks, with demand and repeated sends behind it. */
  predicate Eligible(d: State, s: Sample)
  {
    && !Warm(d, s)
    && d.sends >= 2 && (d.sentBytes > 0 || d.sentPackets > 0)
    && ((s.blockedWrites > 0 && s.oldestBlockedFor >= STALL_TIMEOUT)
        || (d.readDemand && s.blockedReads > 0 && s.at - d.since >= STALL_TIMEOUT))
    && ProgressAge(s) >= STALL_TIMEOUT
    && s.at - d.since >= STALL_TIMEOUT
  }

  /** The no-receive clock and the send counters after one more silent interval with demand. */
  function Watched(d: State, s: Sample, moved: Counters, gap: nat, recent: bool): State
    requires gap <= s.at
  {
    var timed := d.(readDemand := ReadDemand(d, s, recent), since := if d.since == 0 then s.at - gap else d.since);
    if Sends(moved) then
      timed.(sentBytes := SaturatingAdd(d.sentBytes, moved.bytesSent),
             sentPackets := SaturatingAdd(d.sentPackets, moved.packetsSent), sends := d.sends + 1)
    else timed
  }

  function ObserveBlackhole(d: State, s: Sample, moved: Counters, gap: nat, recent: bool): (State, bool)
    requires gap <= s.at
  {
    if gap > MAX_GAP || !Silent(moved) || !d.bidirectional then (ResetBlackhole(d), false)
    else if s.blockedWrites <= 0 && !ReadDemand(d, s, recent) then (ResetBlackhole(d), false)
    else
      var w := Watched(d, s, moved, gap, recent);
      if w.since == 0 then (ResetBlackhole(d), false)
      else if !Eligible(w, s) then (w.(confirmations := 0), false)
      else (w.(confirmations := w.confirmations + 1), w.confirmations + 1 >= CONFIRMATIONS)
  }

  // ------------------------------------------------------------- the verdict

  predicate ClearWriteBlock(s: Sample)
  {
    || s.longBlockedWrites >= 2
    || (s.blockedWrites >= 1 && s.oldestBlockedFor >= SINGLE_WRITE_BLOCK)
    || (s.blockedWrites >= 1 && ProgressAge(s) >= SINGLE_WRITE_BLOCK)
  }

  predicate EnoughTraffic(total: Counters)
  {
    total.packetsSent >= MIN_PACKETS || total.bytesSent >= MIN_BYTES
  }

  function BadSignals(s: Sample, total: Counters): nat
  {
    var stalled := s.blockedWrites > 0 && (ClearWriteBlock(s) || s.throughputLow || s.wireWaste);
    (if s.rttBad then 1 else 0) + (if EnoughTraffic(total) && s.lossBad then 1 else 0) + (if stalled then 1 else 0)
  }

  function Live(d: State): Decision
  {
    Decision(d.latched, false)
  }

  function Conclude(d: State, s: Sample, total: Counters, blackhole: bool): (State, Decision)
  {
    if Warm(d, s) then (d.(badWindows := 0), Live(d))
    else if blackhole then (d.(latched := Some(UdpBlackhole)), Decision(Some(UdpBlackhole), true))
    else if d.latched.Some? then (d, Live(d))
    else if EnoughTraffic(total) && s.severeLoss && ClearWriteBlock(s) then
      (d.(latched := Some(SevereLossAndWrite)), Decision(Some(SevereLossAndWrite), false))
    else
      var next := d.(badWindows := if BadSignals(s, total) >= REQUIRED_SIGNALS then d.badWindows + 1 else 0);
      if next.badWindows >= REQUIRED_WINDOWS then
        (next.(latched := Some(SustainedSignals)), Decision(Some(SustainedSignals), false))
      else (next, Decision(None, false))
  }

  function Initialized(d: State, s: Sample): State
  {
    d.(initialized := true, lastAt := s.at, last := s.counters,
       establishedAt := if d.establishedAt == 0 then s.at else d.establishedAt,
       bidirectional := s.counters.packetsSent > 0 && s.counters.packetsReceived > 0)
  }

  function Restarted(d: State, s: Sample): State
  {
    ResetBlackhole(d.(window := [], badWindows := 0, lastAt := s.at, last := s.counters))
  }

  function Advanced(d: State, s: Sample): State
    requires NoLess(d.last, s.counters)
  {
    d.(lastAt := s.at, last := s.counters,
       window := Trim(d.window + [Delta(s.at, Minus(s.counters, d.last))], s.at),
       bidirectional := d.bidirectional || (s.counters.packetsSent > 0 && s.counters.packetsReceived > 0))
  }

  function Recent(s: Sample, total: Counters): bool
  {
    s.recentReadDemand || (s.blockedReads > 0 && total.payloadRead >= RECENT_READ_BYTES)
  }

  /** Is this sample taken into the counters, or ignored? */
  predicate Accepts(d: State, s: Sample)
  {
    !s.connectionErr && s.at != 0 && (d.initialized ==> s.at > d.lastAt && s.at - d.lastAt >= SAMPLE_INTERVAL)
  }

  function Aged(d: State, gap: nat): State
  {
    if gap > MAX_GAP then ResetBlackhole(d) else d
  }

  function Observe(d: State, s: Sample): (State, Decision)
  {
    if s.connectionErr then
      var next := if d.latched.None? then d.(latched := Some(ConnectionError)) else d;
      (next, Live(next))
    else if !Accepts(d, s) then (d, Live(d))
    else if !d.initialized then (Initialized(d, s), Live(d))
    else Processed(Aged(d, s.at - d.lastAt), s, s.at - d.lastAt)
  }

  /** A counter that moved backwards starts over; otherwise the interval is added and judged. */
  function Processed(d: State, s: Sample, gap: nat): (State, Decision)
    requires gap <= s.at
  {
    if !NoLess(d.last, s.counters) then (Restarted(d, s), Live(d))
    else
      var next := Advanced(d, s);
      var total := Sum(next.window);
      var (watched, blackhole) := ObserveBlackhole(next, s, Minus(s.counters, d.last), gap, Recent(s, total));
      Conclude(watched, s, total, blackhole)
  }

  // -------------------------------------------------------------- the object

  method SumWindow(window: seq<Delta>) returns (sum: Counters)
    ensures sum == Sum(window)
  {
    hide PlusSaturating;
    sum := ZERO;
    for n := 0 to |window|
      invariant sum == Sum(window[..n])
    {
      assert window[..n + 1][..n] == window[..n];
      sum := PlusSaturating(sum, window[n].moved);
    }
    assert window[..|window|] == window;
  }

  class DegradationDetector {
    var establishedAt: Time
    var initialized: bool
    var lastAt: Time
    var last: Counters
    var window: seq<Delta>
    var badWindows: nat
    var latched: Option<Reason>
    var bidirectional: bool
    var since: Time
    var sentBytes: u64
    var sentPackets: u64
    var sends: nat
    var confirmations: nat
    var readDemand: bool

    ghost function View(): State
      reads this
    {
      State(establishedAt, initialized, lastAt, last, window, badWindows, latched,
            bidirectional, since, sentBytes, sentPackets, sends, confirmations, readDemand)
    }

    constructor (establishedAt: Time)
      ensures View() == New(establishedAt)
    {
      this.establishedAt := establishedAt;
      initialized, lastAt, last, window, badWindows, latched := false, 0, ZERO, [], 0, None;
      bidirectional, since, sentBytes, sentPackets := false, 0, 0, 0;
      sends, confirmations, readDemand := 0, 0, false;
    }

    method ResetUdpBlackhole()
      modifies this`since, this`sentBytes, this`sentPackets, this`sends, this`confirmations, this`readDemand
      ensures View() == ResetBlackhole(old(View()))
    {
      since, sentBytes, sentPackets, sends, confirmations, readDemand := 0, 0, 0, 0, 0, false;
    }

    /** Drops the deltas that left the window. */
    method TrimWindow(now: Time)
      modifies this`window
      ensures window == Trim(old(window), now)
    {
      var first := 0;
      while first < |window| && window[first].at <= now - WINDOW
        invariant 0 <= first <= |window| && Trim(window[first..], now) == Trim(window, now)
      {
        assert window[first..][1..] == window[first + 1..];
        first := first + 1;
      }
      window := window[first..];
    }

    method ResetWindow(sample: Sample)
      modifies this
      ensures View() == Restarted(old(View()), sample)
    {
      window := [];
      badWindows := 0;
      lastAt := sample.at;
      last := sample.counters;
      ResetUdpBlackhole();
    }

    method ObserveUdpBlackhole(sample: Sample, moved: Counters, gap: nat, recent: bool) returns (blackhole: bool)
      requires gap <= sample.at
      modifies this`since, this`sentBytes, this`sentPackets, this`sends, this`confirmations, this`readDemand
      ensures (View(), blackhole) == ObserveBlackhole(old(View()), sample, moved, gap, recent)
    {
      hide Eligible, ReadDemand, Watched, SaturatingAdd;
      blackhole := false;
      ghost var was := View();
      if gap > MAX_GAP || moved.bytesReceived > 0 || moved.packetsReceived > 0 || moved.payload > 0 || !bidirectional {
        ResetUdpBlackhole();
        return;
      }
      UpdateReadDemand(sample, recent);
      if sample.blockedWrites <= 0 && !readDemand {
        ResetUdpBlackhole();
        return;
      }
      WatchInterval(sample, moved, gap, recent, was);
      if since == 0 {
        ResetUdpBlackhole();
        WatchedFrame(was, sample, moved, gap, recent);
        return;
      }
      var now := State(establishedAt, initialized, lastAt, last, window, badWindows, latched,
                       bidirectional, since, sentBytes, sentPackets, sends, confirmations, readDemand);
      if !Eligible(now, sample) {
        confirmations := 0;
        return;
      }
      confirmations := confirmations + 1;
      blackhole := confirmations >= CONFIRMATIONS;
    }

    method UpdateReadDemand(sample: Sample, recent: bool)
      modifies this`readDemand
      ensures readDemand == ReadDemand(old(View()), sample, recent)
    {
      if sample.blockedReads <= 0 {
        readDemand := false;
      } else if recent {
        readDemand := true;
      }
    }

    method WatchInterval(sample: Sample, moved: Counters, gap: nat, recent: bool, ghost was: State)
      requires gap <= sample.at
      requires View() == was.(readDemand := ReadDemand(was, sample, recent))
      modifies this`since, this`sentBytes, this`sentPackets, this`sends
      ensures View() == Watched(was, sample, moved, gap, recent)
    {
      hide ReadDemand, SaturatingAdd;
      if since == 0 {
        since := sample.at - gap;
      }
      if moved.bytesSent > 0 || moved.packetsSent > 0 {
        sentBytes := SaturatingAdd(sentBytes, moved.bytesSent);
        sentPackets := SaturatingAdd(sentPackets, moved.packetsSent);
        sends := sends + 1;
      }
    }

    method ConcludeSample(sample: Sample, total: Counters, blackhole: bool) returns (decision: Decision)
      modifies this`badWindows, this`latched
      ensures (View(), decision) == Conclude(old(View()), sample, total, blackhole)
    {
      hide BadSignals, ClearWriteBlock, EnoughTraffic;
      if sample.at < establishedAt + WARMUP {
        badWindows := 0;
        return Decision(latched, false);
      }
      if blackhole {
        latched := Some(UdpBlackhole);
        return Decision(latched, true);
      }
      if latched.Some? {
        return Decision(latched, false);
      }
      if EnoughTraffic(total) && sample.severeLoss && ClearWriteBlock(sample) {
        latched := Some(SevereLossAndWrite);
        return Decision(latched, false);
      }
      if BadSignals(sample, total) >= REQUIRED_SIGNALS {
        badWindows := badWindows + 1;
      } else {
        badWindows := 0;
      }
      if badWindows >= REQUIRED_WINDOWS {
        latched := Some(SustainedSignals);
      }
      decision := Decision(latched, false);
    }

    method ObserveSample(sample: Sample) returns (decision: Decision)
      modifies this
      ensures (View(), decision) == Observe(old(View()), sample)
    {
      hide Processed;
      if sample.connectionErr {
        if latched.None? {
          latched := Some(ConnectionError);
        }
        return Decision(latched, false);
      }
      if sample.at == 0 {
        return Decision(latched, false);
      }
      if !initialized {
        initialized, lastAt, last := true, sample.at, sample.counters;
        if establishedAt == 0 {
          establishedAt := sample.at;
        }
        bidirectional := sample.counters.packetsSent > 0 && sample.counters.packetsReceived > 0;
        return Decision(latched, false);
      }
      if sample.at <= lastAt || sample.at - lastAt < SAMPLE_INTERVAL {
        return Decision(latched, false);
      }
      var gap := sample.at - lastAt;
      if gap > MAX_GAP {
        ResetUdpBlackhole();
      }
      decision := ProcessSample(sample, gap);
    }

    method AdvanceWindow(sample: Sample, moved: Counters)
      requires NoLess(last, sample.counters) && moved == Minus(sample.counters, last)
      modifies this`lastAt, this`last, this`window, this`bidirectional
      ensures View() == Advanced(old(View()), sample)
    {
      hide Minus, NoLess, Trim;
      lastAt, last := sample.at, sample.counters;
      window := window + [Delta(sample.at, moved)];
      TrimWindow(sample.at);
      if sample.counters.packetsSent > 0 && sample.counters.packetsReceived > 0 {
        bidirectional := true;
      }
    }

    method ProcessSample(sample: Sample, gap: nat) returns (decision: Decision)
      requires gap <= sample.at
      modifies this
      ensures (View(), decision) == Processed(old(View()), sample, gap)
    {
      hide Conclude, ObserveBlackhole, Trim, Sum, Recent, Minus, Advanced;
      if !NoLess(last, sample.counters) {
        ResetWindow(sample);
        return Decision(latched, false);
      }
      var moved := Minus(sample.counters, last);
      AdvanceWindow(sample, moved);
      var total := SumWindow(window);
      var blackhole := ObserveUdpBlackhole(sample, moved, gap, Recent(sample, total));
      decision := ConcludeSample(sample, total, blackhole);
    }
  }

  /** Watching touches nothing but the blackhole fields. */
  lemma WatchedFrame(d: State, s: Sample, moved: Counters, gap: nat, recent: bool)
    requires gap <= s.at
    ensures ResetBlackhole(Watched(d, s, moved, gap, recent)) == ResetBlackhole(d)
  {
  }
}
