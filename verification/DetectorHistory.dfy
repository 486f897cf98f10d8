/**
 * Every verdict of the detector, exactly: a function of the accepted samples,
 * in numbers, without a window of deltas and without saturating sums.
 */
module DetectorHistory {
  import opened Clock
  import opened Options
  import opened Detector
  import opened DetectorRuns

  /**
   * What the accepted samples amount to: the sample the current sums start from,
   * whether traffic ever went both ways, the sample a silence began with, whether
   * a reader waits for more, sends and confirmations since then, and the bad
   * samples in a row.
   */
  datatype Story = Story(
    base: nat, both: bool, silence: Option<nat>, waiting: bool, sends: nat, stalls: nat, bad: nat)

  predicate BothWays(s: Sample)
  {
    s.counters.packetsSent > 0 && s.counters.packetsReceived > 0
  }

  /** The first sample from b on whose successor is less than 12 s old. */
  function FirstSince(all: seq<Sample>, b: nat, now: Time): (r: nat)
    ensures b <= r
    decreases |all| - b
  {
    if b + 1 < |all| && all[b + 1].at <= now - 12_000_000_000 then FirstSince(all, b + 1, now) else b
  }

  /** Since the last payload moved; 0 if unknown. */
  function Age(s: Sample): int
  {
    if s.lastProgressAt == 0 || s.lastProgressAt > s.at then 0 else s.at - s.lastProgressAt
  }

  predicate Blocked(s: Sample)
  {
    || s.longBlockedWrites >= 2
    || (s.blockedWrites >= 1 && (s.oldestBlockedFor >= 8_000_000_000 || Age(s) >= 8_000_000_000))
  }

  predicate Busy(moved: Counters)
  {
    moved.packetsSent >= 256 || moved.bytesSent >= 524288
  }

  /** Signals that are bad: round-trip time, loss on enough traffic, a stalled payload. */
  function Bad(s: Sample, moved: Counters): nat
  {
    (if s.rttBad then 1 else 0) + (if Busy(moved) && s.lossBad then 1 else 0)
    + (if s.blockedWrites > 0 && (Blocked(s) || s.throughputLow || s.wireWaste) then 1 else 0)
  }

  predicate Severe(s: Sample, moved: Counters)
  {
    Busy(moved) && s.severeLoss && Blocked(s)
  }

  predicate Young(established: Time, s: Sample)
  {
    s.at < established + 15_000_000_000
  }

  /** One more interval of the silence, from a to s, with the reader's demand. */
  function Silence(established: Time, st: Story, n: nat, since: Time, a: Sample, s: Sample, waiting: bool): Story
  {
    var sends := st.sends + (if SentBetween(a, s) then 1 else 0);
    var confirmed :=
      && !Young(established, s) && sends >= 2 && Age(s) >= 8_000_000_000 && s.at - since >= 8_000_000_000
      && ((s.blockedWrites > 0 && s.oldestBlockedFor >= 8_000_000_000) || (waiting && s.blockedReads > 0));
    st.(silence := Some(if st.silence.Some? then st.silence.value else n), waiting := waiting, sends := sends,
        stalls := if confirmed then st.stalls + 1 else 0)
  }

  function Unwatched(st: Story): Story
  {
    st.(silence := None, waiting := false, sends := 0, stalls := 0)
  }

  /** The silence after sample s, which follows sample n of all and whose sums start at the story's base. */
  function Watch(established: Time, st: Story, all: seq<Sample>, s: Sample, moved: Counters): Story
    requires all != [] && (st.silence.Some? ==> st.silence.value < |all|)
  {
    var n, a := |all| - 1, all[|all| - 1];
    var q := if s.at - a.at > 6_000_000_000 then Unwatched(st) else st;
    var recent := s.recentReadDemand || (s.blockedReads > 0 && moved.payloadRead >= 65536);
    var waiting := s.blockedReads > 0 && (recent || q.waiting);
    if s.at <= a.at + 6_000_000_000 && Quiet(a, s) && q.both && (s.blockedWrites > 0 || waiting) then
      Silence(established, q, n, all[if q.silence.Some? then q.silence.value else n].at, a, s, waiting)
    else Unwatched(q)
  }

  /** How many bad samples in a row, as long as there was no verdict. */
  function BadRow(established: Time, st: Story, s: Sample, moved: Counters): nat
  {
    if Young(established, s) then 0
    else if st.stalls >= 2 || Severe(s, moved) then st.bad
    else if Bad(s, moved) >= 2 then st.bad + 1
    else 0
  }

  function Zero(): Counters
  {
    Counters(0, 0, 0, 0, 0, 0, 0, 0)
  }

  /** How far the counters moved over the last 12 s. */
  function MovedSince(all: seq<Sample>, base: nat, s: Sample): Counters
  {
    if base < |all| && NoLess(all[base].counters, s.counters) then Minus(s.counters, all[base].counters) else Zero()
  }

  /** Some counter of the eight went down. */
  predicate Backwards(a: Counters, b: Counters)
  {
    || b.bytesSent < a.bytesSent || b.packetsSent < a.packetsSent
    || b.bytesReceived < a.bytesReceived || b.packetsReceived < a.packetsReceived
    || b.bytesLost < a.bytesLost || b.packetsLost < a.packetsLost
    || b.payload < a.payload || b.payloadRead < a.payloadRead
  }

  lemma BackwardsExactly(a: Counters, b: Counters)
    ensures Backwards(a, b) <==> !NoLess(a, b)
  {
  }

  function Told(established: Time, all: seq<Sample>): (st: Story)
    ensures st.silence.Some? ==> st.silence.value < |all|
    decreases |all|
  {
    if all == [] then Story(0, false, None, false, 0, 0, 0)
    else
      var front, s := all[..|all| - 1], all[|all| - 1];
      if front == [] then Story(0, BothWays(s), None, false, 0, 0, 0)
      else Extended(established, Told(established, front), front, s)
  }

  function Extended(established: Time, st: Story, front: seq<Sample>, s: Sample): (r: Story)
    requires front != [] && (st.silence.Some? ==> st.silence.value < |front|)
    ensures r.silence.Some? ==> r.silence.value < |front|
  {
    if Backwards(front[|front| - 1].counters, s.counters) then Story(|front|, st.both, None, false, 0, 0, 0)
    else
      var base := FirstSince(front + [s], st.base, s.at);
      var moved := MovedSince(front, base, s);
      var watched := Watch(established, st.(base := base, both := st.both || BothWays(s)), front, s, moved);
      watched.(bad := BadRow(established, watched, s, moved))
  }

  // ---------------------------------------------- the detector, told again

  lemma {:induction false} TrimmedFrom(window: seq<Delta>, all: seq<Sample>, b: nat, now: Time)
    requires b < |all| && |window| == |all| - 1 - b
    requires forall k :: 0 <= k < |window| ==> window[k].at == all[b + 1 + k].at
    ensures FirstSince(all, b, now) < |all| && |Trim(window, now)| == |all| - 1 - FirstSince(all, b, now)
    decreases |window|
  {
    if window != [] && window[0].at <= now - WINDOW {
      assert all[b + 1].at <= now - 12_000_000_000;
      TrimmedFrom(window[1..], all, b + 1, now);
    }
  }

  lemma {:induction false} RecentStays(all: seq<Sample>, b: nat, now: Time)
    requires b + 1 < |all| && all[|all| - 1].at > now - 12_000_000_000
    ensures FirstSince(all, b, now) + 1 < |all|
    decreases |all| - b
  {
    if all[b + 1].at <= now - 12_000_000_000 {
      RecentStays(all, b + 1, now);
    }
  }

  lemma WindowMatches(d: State, front: seq<Sample>, st: Story, s: Sample)
    requires front != [] && st.base < |front| && |d.window| == |front| - 1 - st.base && Windowed(d.window, front)
    requires d.last == front[|front| - 1].counters && NoLess(d.last, s.counters)
    ensures
      var base := FirstSince(front + [s], st.base, s.at);
      && base < |front|
      && |Advanced(d, s).window| == |front| - base
      && Sum(Advanced(d, s).window) == MovedSince(front, base, s)
  {
    var all, window := front + [s], d.window + [Delta(s.at, Minus(s.counters, d.last))];
    ExtendWindowed(d.window, front, s);
    forall k | 0 <= k < |window| ensures window[k].at == all[st.base + 1 + k].at {
      assert Follows(all[|all| - |window| + k - 1], all[|all| - |window| + k], window[k]);
    }
    hide NoLess, Minus, Sum, Windowed;
    TrimmedFrom(window, all, st.base, s.at);
    RecentStays(all, st.base, s.at);
    AdvancedWindowed(d, front, s);
    var next := Advanced(d, s).window;
    assert next == Trim(window, s.at);
    SumTelescopes(next, all);
    assert all[|all| - |next| - 1] == front[FirstSince(all, st.base, s.at)];
  }

  /** The watch of the detector, told by the story. */
  ghost predicate WatchMatches(d: State, all: seq<Sample>, st: Story)
  {
    && d.bidirectional == st.both && d.readDemand == st.waiting && d.sends == st.sends && d.confirmations == st.stalls
    && (st.silence.Some? ==> st.silence.value < |all| && all[st.silence.value].at == d.since > 0)
    && (st.silence.None? ==> d.since == 0 && d.sends == 0 && d.confirmations == 0)
    && (d.sends > 0 ==> d.sentBytes > 0 || d.sentPackets > 0)
  }

  lemma SilentExactly(a: Sample, s: Sample)
    requires NoLess(a.counters, s.counters)
    ensures Silent(Minus(s.counters, a.counters)) && s.at <= a.at + MAX_GAP <==> Quiet(a, s)
    ensures Sends(Minus(s.counters, a.counters)) <==> SentBetween(a, s)
  {
  }

  lemma EligibleExactly(w: State, s: Sample, st: Story, since: Time)
    requires w.since == since && w.sends == st.sends && w.readDemand == st.waiting && (w.sends > 0 ==> w.sentBytes > 0 || w.sentPackets > 0)
    ensures Eligible(w, s) <==>
      && !Young(w.establishedAt, s) && st.sends >= 2 && Age(s) >= 8_000_000_000 && s.at - since >= 8_000_000_000
      && ((s.blockedWrites > 0 && s.oldestBlockedFor >= 8_000_000_000) || (st.waiting && s.blockedReads > 0))
  {
  }

  /** What watching one more interval does to each field. */
  lemma WatchedFields(d: State, a: Sample, s: Sample, gap: nat, recent: bool)
    requires NoLess(a.counters, s.counters) && s.at == a.at + gap && a.at > 0
    requires d.sends > 0 ==> d.sentBytes > 0 || d.sentPackets > 0
    ensures
      var w := Watched(d, s, Minus(s.counters, a.counters), gap, recent);
      && w.since == (if d.since == 0 then a.at else d.since)
      && w.sends == d.sends + (if SentBetween(a, s) then 1 else 0)
      && w.readDemand == (s.blockedReads > 0 && (recent || d.readDemand))
      && w.bidirectional == d.bidirectional && w.establishedAt == d.establishedAt && w.confirmations == d.confirmations
      && (w.sends > 0 ==> w.sentBytes > 0 || w.sentPackets > 0)
  {
    hide NoLess;
    SilentExactly(a, s);
  }

  lemma BlackholeMatches(d: State, all: seq<Sample>, st: Story, s: Sample, moved: Counters, gap: nat)
    requires all != [] && WatchMatches(d, all, st) && gap <= MAX_GAP
    requires
      var a := all[|all| - 1];
      NoLess(a.counters, s.counters) && s.at == a.at + gap && a.at > 0
    ensures
      var a := all[|all| - 1];
      var (r, blackhole) := ObserveBlackhole(d, s, Minus(s.counters, a.counters), gap, Recent(s, moved));
      var next := Watch(d.establishedAt, st, all, s, moved);
      WatchMatches(r, all + [s], next) && (blackhole <==> next.stalls >= 2)
  {
    hide Watched, Eligible, NoLess, Quiet, SentBetween, Silent, Age;
    var a := all[|all| - 1];
    var delta, recent := Minus(s.counters, a.counters), Recent(s, moved);
    SilentExactly(a, s);
    WatchedFields(d, a, s, gap, recent);
    var w := Watched(d, s, delta, gap, recent);
    var since := if st.silence.Some? then all[st.silence.value].at else a.at;
    var sends := st.sends + (if SentBetween(a, s) then 1 else 0);
    var waiting := s.blockedReads > 0 && (recent || st.waiting);
    EligibleExactly(w, s, st.(sends := sends, waiting := waiting), since);
    hide Minus;
  }

  lemma LongGapMatches(d: State, all: seq<Sample>, st: Story, s: Sample, moved: Counters, gap: nat, delta: Counters, recent: bool)
    requires all != [] && (st.silence.Some? ==> st.silence.value < |all|) && gap > MAX_GAP && s.at == all[|all| - 1].at + gap
    requires d.bidirectional == st.both
    ensures
      var (r, blackhole) := ObserveBlackhole(d, s, delta, gap, recent);
      var next := Watch(d.establishedAt, st, all, s, moved);
      WatchMatches(r, all + [s], next) && !blackhole && next.stalls < 2
  {
  }

  lemma SignalsExactly(d: State, s: Sample, total: Counters)
    ensures BadSignals(s, total) == Bad(s, total) && EnoughTraffic(total) == Busy(total)
    ensures ClearWriteBlock(s) == Blocked(s) && Warm(d, s) == Young(d.establishedAt, s)
  {
  }

  /** The verdict after a judged sample. */
  ghost function VerdictOf(established: Time, latched: Option<Reason>, st: Story, s: Sample, moved: Counters): Option<Reason>
  {
    if Young(established, s) then latched
    else if st.stalls >= 2 then Some(UdpBlackhole)
    else if latched.Some? then latched
    else if Severe(s, moved) then Some(SevereLossAndWrite)
    else if st.bad >= 3 then Some(SustainedSignals)
    else None
  }

  lemma ConcludeMatches(d: State, s: Sample, total: Counters, blackhole: bool, st: Story)
    requires (d.latched.None? ==> d.badWindows == st.bad) && (blackhole <==> st.stalls >= 2)
    ensures
      var (r, decision) := Conclude(d, s, total, blackhole);
      var next := st.(bad := BadRow(d.establishedAt, st, s, total));
      && (r.latched.None? ==> r.badWindows == next.bad)
      && decision.verdict == r.latched
      && (st.bad < 3 || d.latched.Some? ==> decision.verdict == VerdictOf(d.establishedAt, d.latched, next, s, total))
      && decision.blackhole == (blackhole && !Young(d.establishedAt, s))
  {
    hide BadSignals, Bad, ClearWriteBlock, Blocked, EnoughTraffic, Busy, Warm, Young;
    SignalsExactly(d, s, total);
  }

  ghost predicate AllMatches(d: State, all: seq<Sample>)
  {
    var st := Told(d.establishedAt, all);
    && (all != [] ==> st.base < |all| && |d.window| == |all| - 1 - st.base)
    && WatchMatches(d, all, st)
    && (d.latched.None? ==> d.badWindows == st.bad)
  }

  lemma ToldNext(established: Time, front: seq<Sample>, s: Sample)
    requires front != []
    ensures Told(established, front + [s]) == Extended(established, Told(established, front), front, s)
  {
    assert (front + [s])[..|front|] == front;
  }

  /** A judged sample: its verdict, and the story that goes on. */
  lemma JudgedMatches(w: World, s: Sample)
    requires Inv(w) && AllMatches(w.d, w.accepted) && Accepts(w.d, s) && w.d.initialized && NoLess(w.d.last, s.counters)
    ensures
      var (d, decision) := Observe(w.d, s);
      var st := Told(w.d.establishedAt, w.accepted + [s]);
      var moved := MovedSince(w.accepted, st.base, s);
      && AllMatches(d, w.accepted + [s]) && d.establishedAt == w.d.establishedAt
      && decision.verdict == VerdictOf(w.d.establishedAt, w.d.latched, st, s, moved)
      && decision.blackhole == (st.stalls >= 2 && !Young(w.d.establishedAt, s))
  {
    hide Windowed, Watching, Sustained, Advanced, ObserveBlackhole, Conclude, Sum, NoLess, Aged, WatchOf, Recent, Told, Watch,
      WatchMatches, VerdictOf, Young, MovedSince, BadRow, FirstSince, Minus, Backwards;
    var front, gap, est := w.accepted, s.at - w.d.lastAt, w.d.establishedAt;
    var st := Told(est, front);
    ToldNext(est, front, s);
    BackwardsExactly(w.d.last, s.counters);
    var d := Aged(w.d, gap);
    AgedFrame(w.d, gap);
    var next := Advanced(d, s);
    AdvancedFrame(d, s);
    WindowMatches(d, front, st, s);
    var base := FirstSince(front + [s], st.base, s.at);
    var moved := MovedSince(front, base, s);
    var based := st.(base := base, both := st.both || BothWays(s));
    var delta := Minus(s.counters, d.last);
    if gap > MAX_GAP {
      AdvancedBoth(w.d, st, gap, s, front);
      LongGapMatches(next, front, based, s, moved, gap, delta, Recent(s, moved));
    } else {
      AdvancedWatch(w.d, st, gap, s, front, base);
      BlackholeMatches(next, front, based, s, moved, gap);
    }
    BlackholeFrame(next, s, delta, gap, Recent(s, moved));
    var (watched, blackhole) := ObserveBlackhole(next, s, delta, gap, Recent(s, moved));
    var seen := Watch(est, based, front, s, moved);
    WatchKeeps(est, based, front, s, moved);
    ConcludeMatches(watched, s, moved, blackhole, seen);
    ConcludeFrame(watched, s, moved, blackhole);
    SinceOf(watched, Conclude(watched, s, moved, blackhole).0);
    ConcludeWatch(watched, s, moved, blackhole, front + [s], seen);
    BelowThree(w);
    assert Observe(w.d, s) == Conclude(watched, s, moved, blackhole);
  }

  lemma BelowThree(w: World)
    requires Inv(w)
    ensures w.d.latched.None? ==> w.d.badWindows < 3
  {
  }

  lemma AdvancedBoth(d: State, st: Story, gap: nat, s: Sample, all: seq<Sample>)
    requires WatchMatches(d, all, st) && NoLess(d.last, s.counters)
    ensures NoLess(Aged(d, gap).last, s.counters)
    ensures Advanced(Aged(d, gap), s).bidirectional == (st.both || BothWays(s))
    ensures st.silence.Some? ==> st.silence.value < |all|
  {
    hide NoLess;
  }

  lemma AdvancedWatch(d: State, st: Story, gap: nat, s: Sample, all: seq<Sample>, base: nat)
    requires WatchMatches(d, all, st) && NoLess(d.last, s.counters) && gap <= MAX_GAP
    ensures Aged(d, gap) == d
    ensures WatchMatches(Advanced(d, s), all, st.(base := base, both := st.both || BothWays(s)))
  {
    hide NoLess;
  }

  lemma WatchKeeps(established: Time, st: Story, all: seq<Sample>, s: Sample, moved: Counters)
    requires all != [] && (st.silence.Some? ==> st.silence.value < |all|)
    ensures
      var r := Watch(established, st, all, s, moved);
      r.base == st.base && r.bad == st.bad && r.both == st.both
  {
    hide Quiet, SentBetween;
  }

  lemma ConcludeWatch(d: State, s: Sample, total: Counters, blackhole: bool, all: seq<Sample>, st: Story)
    requires WatchMatches(d, all, st)
    ensures WatchMatches(Conclude(d, s, total, blackhole).0, all, st.(bad := BadRow(d.establishedAt, st, s, total)))
  {
    hide BadSignals, ClearWriteBlock, EnoughTraffic, BadRow;
  }

  // -------------------------------------------------------------- over runs

  lemma RestartedMatches(w: World, s: Sample)
    requires Inv(w) && AllMatches(w.d, w.accepted) && Accepts(w.d, s) && w.d.initialized && !NoLess(w.d.last, s.counters)
    ensures
      var (d, decision) := Observe(w.d, s);
      AllMatches(d, w.accepted + [s]) && d.establishedAt == w.d.establishedAt && decision == Decision(w.d.latched, false)
  {
    hide Windowed, Watching, Sustained, NoLess, Told, Backwards;
    BackwardsExactly(w.d.last, s.counters);
    ToldNext(w.d.establishedAt, w.accepted, s);
  }

  lemma FirstMatches(w: World, s: Sample)
    requires Inv(w) && AllMatches(w.d, w.accepted) && Accepts(w.d, s) && !w.d.initialized
    ensures
      var (d, decision) := Observe(w.d, s);
      && AllMatches(d, w.accepted + [s]) && decision == Decision(w.d.latched, false)
      && d.establishedAt == (if w.d.establishedAt == 0 then s.at else w.d.establishedAt)
  {
    InitializedIsAccepted(w);
    StartsBlank(w.d);
    StartsWindowless(w);
    hide Inv, Processed, Told, WatchMatches;
    assert [] + [s] == [s];
    FirstTold(if w.d.establishedAt == 0 then s.at else w.d.establishedAt, s);
    FirstWatch(w.d, s);
  }

  lemma StartsBlank(d: State)
    requires AllMatches(d, [])
    ensures d.since == 0 && d.sends == 0 && d.confirmations == 0 && !d.readDemand
    ensures d.latched.None? ==> d.badWindows == 0
  {
  }

  lemma StartsWindowless(w: World)
    requires Inv(w)
    ensures w.accepted == [] ==> w.d.window == []
  {
  }

  lemma FirstTold(established: Time, s: Sample)
    ensures Told(established, [s]) == Story(0, BothWays(s), None, false, 0, 0, 0)
  {
    assert [s][..0] == [];
  }

  lemma FirstWatch(d: State, s: Sample)
    requires d.since == 0 && d.sends == 0 && d.confirmations == 0 && !d.readDemand
    ensures WatchMatches(Initialized(d, s), [s], Story(0, BothWays(s), None, false, 0, 0, 0))
  {
  }

  lemma IgnoredMatches(w: World, s: Sample)
    requires AllMatches(w.d, w.accepted) && !Accepts(w.d, s)
    ensures
      var (d, decision) := Observe(w.d, s);
      && AllMatches(d, w.accepted) && d.establishedAt == w.d.establishedAt
      && decision == Decision(if s.connectionErr && w.d.latched.None? then Some(ConnectionError) else w.d.latched, false)
  {
    hide Told, Processed;
  }

  lemma StepMatches(w: World, s: Sample)
    requires Inv(w) && AllMatches(w.d, w.accepted)
    ensures AllMatches(Next(w, s).d, Next(w, s).accepted)
  {
    hide AllMatches, Observe, NoLess, Inv;
    StepObserves(w, s);
    AcceptedNext(w, s);
    if !Accepts(w.d, s) {
      IgnoredMatches(w, s);
    } else if !w.d.initialized {
      FirstMatches(w, s);
    } else if NoLess(w.d.last, s.counters) {
      JudgedMatches(w, s);
    } else {
      RestartedMatches(w, s);
    }
  }

  lemma AcceptedNext(w: World, s: Sample)
    ensures Next(w, s).accepted == if Accepts(w.d, s) then w.accepted + [s] else w.accepted
  {
    hide Observe, Accepts, Sum, Aged;
  }

  lemma {:induction false} RunMatches(establishedAt: Time, run: seq<Sample>)
    ensures
      var w := After(Fresh(establishedAt), run);
      Inv(w) && AllMatches(w.d, w.accepted)
  {
    hide Inv, Next, AllMatches;
    RunKeepsInv(establishedAt, run);
    if run == [] {
      NothingMatches(establishedAt);
    } else {
      RunMatches(establishedAt, run[..|run| - 1]);
      StepMatches(After(Fresh(establishedAt), run[..|run| - 1]), run[|run| - 1]);
    }
  }

  lemma NothingMatches(establishedAt: Time)
    ensures AllMatches(New(establishedAt), [])
  {
  }

  /**
   * Every verdict, in every run, from the accepted samples alone. An error
   * latches; an ignored sample, the first one and one whose counters moved
   * backwards change no verdict; any other is judged: nothing in the first 15 s;
   * a blackhole exactly on the second confirmation of a silence; then what was
   * latched; then severe loss with a blocked write; then three bad samples in a
   * row.
   */
  lemma VerdictExactly(establishedAt: Time, run: seq<Sample>, s: Sample)
    ensures
      var w := After(Fresh(establishedAt), run);
      var decision := Observe(w.d, s).1;
      if !Accepts(w.d, s) then
        decision == Decision(if s.connectionErr && w.d.latched.None? then Some(ConnectionError) else w.d.latched, false)
      else if w.accepted == [] || Backwards(w.accepted[|w.accepted| - 1].counters, s.counters) then
        decision == Decision(w.d.latched, false)
      else
        var st := Told(w.d.establishedAt, w.accepted + [s]);
        var moved := MovedSince(w.accepted, st.base, s);
        && decision.verdict == VerdictOf(w.d.establishedAt, w.d.latched, st, s, moved)
        && decision.blackhole == (st.stalls >= 2 && !Young(w.d.establishedAt, s))
  {
    var w := After(Fresh(establishedAt), run);
    RunMatches(establishedAt, run);
    InitializedIsAccepted(w);
    BackwardsExactly(w.d.last, s.counters);
    hide After, AllMatches, Observe, NoLess, Backwards, Inv, Told, VerdictOf, Young, MovedSince, Accepts;
    if !Accepts(w.d, s) {
      IgnoredMatches(w, s);
    } else if !w.d.initialized {
      FirstMatches(w, s);
    } else if NoLess(w.d.last, s.counters) {
      JudgedMatches(w, s);
    } else {
      RestartedMatches(w, s);
    }
  }

  lemma InitializedIsAccepted(w: World)
    requires Inv(w)
    ensures w.d.initialized <==> w.accepted != []
    ensures w.accepted != [] ==> w.d.last == w.accepted[|w.accepted| - 1].counters
  {
  }

  /** Which samples are accepted: those with a time, no error, and at least 2 s after the last. */
  lemma AcceptsExactly(establishedAt: Time, run: seq<Sample>, s: Sample)
    ensures
      var w := After(Fresh(establishedAt), run);
      Accepts(w.d, s) <==>
        && !s.connectionErr && s.at != 0
        && (w.accepted != [] ==> s.at >= w.accepted[|w.accepted| - 1].at + 2_000_000_000)
  {
    RunKeepsInv(establishedAt, run);
    var w := After(Fresh(establishedAt), run);
    InitializedIsAccepted(w);
    LastAccepted(w);
    hide After, Inv;
  }

  lemma LastAccepted(w: World)
    requires Inv(w)
    ensures w.accepted != [] ==> w.d.lastAt == w.accepted[|w.accepted| - 1].at
  {
  }
}
