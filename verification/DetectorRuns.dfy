/** What holds of the detector's verdicts over every sequence of samples. */
module DetectorRuns {
  import opened Clock
  import opened Options
  import opened Detector

  /**
   * The detector with its history: the samples it accepted, the number of bad
   * signals each showed, and the accepted sample its no-receive clock started at.
   */
  datatype World = World(d: State, accepted: seq<Sample>, bad: seq<nat>, start: nat)

  ghost function Fresh(establishedAt: Time): World
  {
    World(New(establishedAt), [], [], 0)
  }

  function Next(w: World, s: Sample): World
  {
    var d := Observe(w.d, s).0;
    if !Accepts(w.d, s) then w.(d := d)
    else World(
      d, w.accepted + [s], w.bad + [BadSignals(s, Sum(d.window))],
      if Aged(w.d, if w.d.initialized then s.at - w.d.lastAt else 0).since == 0 && w.accepted != [] then |w.accepted| - 1
      else w.start)
  }

  function After(w: World, run: seq<Sample>): World
  {
    if run == [] then w else Next(After(w, run[..|run| - 1]), run[|run| - 1])
  }

  // ------------------------------------------------------------ the history

  ghost predicate Anchored(w: World)
  {
    && |w.bad| == |w.accepted|
    && (w.d.initialized <==> w.accepted != [])
    && (w.accepted != [] ==>
        w.d.lastAt == w.accepted[|w.accepted| - 1].at && w.d.last == w.accepted[|w.accepted| - 1].counters)
    && (forall i :: 0 <= i < |w.accepted| ==> w.accepted[i].at > 0)
    && (forall i :: 1 <= i < |w.accepted| ==> w.accepted[i].at >= w.accepted[i - 1].at + SAMPLE_INTERVAL)
  }

  /** The window's deltas are the differences of the last accepted samples, whose counters only grow. */
  ghost predicate Windowed(window: seq<Delta>, accepted: seq<Sample>)
  {
    && (window != [] ==> |window| < |accepted|)
    && forall k {:trigger window[k]} :: 0 <= k < |window| ==>
         Follows(accepted[|accepted| - |window| + k - 1], accepted[|accepted| - |window| + k], window[k])
  }

  predicate Follows(a: Sample, b: Sample, delta: Delta)
  {
    NoLess(a.counters, b.counters) && delta == Delta(b.at, Minus(b.counters, a.counters))
  }

  // ------------------------------------------------- sums are differences

  lemma PlusMinus(a: Counters, b: Counters, c: Counters)
    requires NoLess(a, b) && NoLess(b, c)
    ensures NoLess(a, c) && PlusSaturating(Minus(b, a), Minus(c, b)) == Minus(c, a)
  {
  }

  /**
   * The saturating sum of a window is the plain difference between its last
   * and its first counters: no addition in it ever saturates.
   */
  lemma {:induction false} SumTelescopes(window: seq<Delta>, accepted: seq<Sample>)
    requires Windowed(window, accepted) && window != []
    ensures var first, last := accepted[|accepted| - |window| - 1].counters, accepted[|accepted| - 1].counters;
      NoLess(first, last) && Sum(window) == Minus(last, first)
    decreases |window|
  {
    hide NoLess, Minus, PlusSaturating;
    var shorter, prior := window[..|window| - 1], accepted[..|accepted| - 1];
    var last := window[|window| - 1];
    assert Follows(accepted[|accepted| - 2], accepted[|accepted| - 1], last);
    if shorter == [] {
      ZeroPlus(last.moved);
    } else {
      forall k | 0 <= k < |shorter|
        ensures Follows(prior[|prior| - |shorter| + k - 1], prior[|prior| - |shorter| + k], shorter[k])
      {
        assert shorter[k] == window[k];
      }
      SumTelescopes(shorter, prior);
      PlusMinus(accepted[|accepted| - |window| - 1].counters, accepted[|accepted| - 2].counters, accepted[|accepted| - 1].counters);
    }
  }

  lemma ZeroPlus(c: Counters)
    ensures PlusSaturating(ZERO, c) == c
  {
  }

  lemma TrimKeepsSuffix(window: seq<Delta>, now: Time)
    ensures exists k :: 0 <= k <= |window| && Trim(window, now) == window[k..]
    ensures Trim(window, now) != [] ==> Trim(window, now)[0].at > now - WINDOW
  {
    if window != [] && window[0].at <= now - WINDOW {
      TrimKeepsSuffix(window[1..], now);
      var k :| 0 <= k <= |window[1..]| && Trim(window[1..], now) == window[1..][k..];
      assert window[1..][k..] == window[k + 1..];
    } else {
      assert window[0..] == window;
    }
  }

  lemma SuffixWindowed(window: seq<Delta>, accepted: seq<Sample>, k: nat)
    requires Windowed(window, accepted) && k <= |window|
    ensures Windowed(window[k..], accepted)
  {
    hide Follows;
    var rest := window[k..];
    forall j | 0 <= j < |rest|
      ensures Follows(accepted[|accepted| - |rest| + j - 1], accepted[|accepted| - |rest| + j], rest[j])
    {
      assert rest[j] == window[k + j];
    }
  }

  lemma ExtendWindowed(window: seq<Delta>, accepted: seq<Sample>, s: Sample)
    requires Windowed(window, accepted) && accepted != [] && NoLess(accepted[|accepted| - 1].counters, s.counters)
    ensures Windowed(window + [Delta(s.at, Minus(s.counters, accepted[|accepted| - 1].counters))], accepted + [s])
  {
    hide NoLess, Minus;
    var more := window + [Delta(s.at, Minus(s.counters, accepted[|accepted| - 1].counters))];
    var all := accepted + [s];
    forall k | 0 <= k < |more| ensures Follows(all[|all| - |more| + k - 1], all[|all| - |more| + k], more[k]) {
      if k < |window| {
        assert more[k] == window[k];
      }
    }
  }

  // ------------------------------------------------------ the blackhole watch

  /** The part of the detector that watches for a blackhole. */
  datatype Watch = Watch(
    established: Time, since: Time, sends: nat, sentBytes: nat, sentPackets: nat, confirmations: nat)

  function WatchOf(d: State): Watch
  {
    Watch(d.establishedAt, d.since, d.sends, d.sentBytes, d.sentPackets, d.confirmations)
  }

  /** From one accepted sample to the next nothing was received and no payload moved, and the gap was short. */
  predicate Quiet(a: Sample, b: Sample)
  {
    && NoLess(a.counters, b.counters) && b.at <= a.at + MAX_GAP
    && a.counters.bytesReceived == b.counters.bytesReceived
    && a.counters.packetsReceived == b.counters.packetsReceived
    && a.counters.payload == b.counters.payload
  }

  predicate SentBetween(a: Sample, b: Sample)
  {
    a.counters.bytesSent < b.counters.bytesSent || a.counters.packetsSent < b.counters.packetsSent
  }

  /** How many of the intervals after `start` saw something sent. */
  ghost function SendCount(accepted: seq<Sample>, start: nat): nat
  {
    if |accepted| <= start + 1 then 0
    else
      SendCount(accepted[..|accepted| - 1], start)
      + (if SentBetween(accepted[|accepted| - 2], accepted[|accepted| - 1]) then 1 else 0)
  }

  /** A sample that counts as a confirmation. */
  predicate Stalled(established: Time, since: Time, s: Sample)
  {
    && s.at >= established + WARMUP
    && ProgressAge(s) >= STALL_TIMEOUT
    && s.at - since >= STALL_TIMEOUT
    && ((s.blockedWrites > 0 && s.oldestBlockedFor >= STALL_TIMEOUT) || s.blockedReads > 0)
  }

  ghost predicate QuietFrom(accepted: seq<Sample>, start: nat)
  {
    forall i :: start < i < |accepted| ==> Quiet(accepted[i - 1], accepted[i])
  }

  ghost predicate StalledLast(established: Time, since: Time, accepted: seq<Sample>, n: nat)
  {
    n <= |accepted| && forall i :: |accepted| - n <= i < |accepted| ==> Stalled(established, since, accepted[i])
  }

  ghost predicate Counted(v: Watch, accepted: seq<Sample>, start: nat)
    requires start < |accepted|
  {
    var first, last := accepted[start].counters, accepted[|accepted| - 1].counters;
    && v.sends == SendCount(accepted, start)
    && v.sentBytes == last.bytesSent - first.bytesSent
    && v.sentPackets == last.packetsSent - first.packetsSent
  }

  ghost predicate Watching(v: Watch, accepted: seq<Sample>, start: nat)
  {
    if v.since == 0 then v.sends == 0 && v.sentBytes == 0 && v.sentPackets == 0 && v.confirmations == 0
    else
      && start + 1 < |accepted| && accepted[start].at == v.since
      && QuietFrom(accepted, start)
      && Counted(v, accepted, start)
      && v.confirmations < |accepted| - start && StalledLast(v.established, v.since, accepted, v.confirmations)
  }

  /** What one more silent interval does to the watch. */
  function Extended(v: Watch, prior: Sample, s: Sample): Watch
    requires NoLess(prior.counters, s.counters)
  {
    var sent := SentBetween(prior, s);
    v.(since := if v.since == 0 then prior.at else v.since,
       sends := if sent then v.sends + 1 else v.sends,
       sentBytes := v.sentBytes + s.counters.bytesSent - prior.counters.bytesSent,
       sentPackets := v.sentPackets + s.counters.packetsSent - prior.counters.packetsSent)
  }

  lemma ExtendedCounts(v: Watch, accepted: seq<Sample>, start: nat, s: Sample)
    requires Watching(v, accepted, start) && accepted != [] && Quiet(accepted[|accepted| - 1], s)
    ensures var start' := if v.since == 0 then |accepted| - 1 else start;
      start' < |accepted| && Counted(Extended(v, accepted[|accepted| - 1], s), accepted + [s], start')
  {
    hide NoLess, StalledLast, QuietFrom;
    var all := accepted + [s];
    var start' := if v.since == 0 then |accepted| - 1 else start;
    assert all[..|all| - 1] == accepted;
    assert all[|all| - 2] == accepted[|accepted| - 1] && all[|all| - 1] == s && all[start'] == accepted[start'];
    assert v.since == 0 ==> SendCount(accepted, start') == 0;
    assert SendCount(all, start') == SendCount(accepted, start') + (if SentBetween(accepted[|accepted| - 1], s) then 1 else 0);
  }

  lemma QuietGrows(a: Sample, b: Sample)
    requires Quiet(a, b)
    ensures NoLess(a.counters, b.counters)
  {
  }

  lemma ExtendedQuiet(v: Watch, accepted: seq<Sample>, start: nat, s: Sample)
    requires Watching(v, accepted, start) && accepted != [] && Quiet(accepted[|accepted| - 1], s)
    ensures var start' := if v.since == 0 then |accepted| - 1 else start; QuietFrom(accepted + [s], start')
  {
    hide Quiet, StalledLast, Counted;
  }

  lemma ExtendedWatching(v: Watch, accepted: seq<Sample>, start: nat, s: Sample, confirmed: bool)
    requires Watching(v, accepted, start) && accepted != [] && accepted[|accepted| - 1].at > 0
    requires Quiet(accepted[|accepted| - 1], s)
    requires var next := Extended(v, accepted[|accepted| - 1], s);
      confirmed ==> Stalled(v.established, next.since, s)
    ensures var next := Extended(v, accepted[|accepted| - 1], s);
      Watching(next.(confirmations := if confirmed then v.confirmations + 1 else 0), accepted + [s],
               if v.since == 0 then |accepted| - 1 else start)
  {
    hide Quiet, Stalled, QuietFrom, Counted;
    QuietGrows(accepted[|accepted| - 1], s);
    ExtendedCounts(v, accepted, start, s);
    ExtendedQuiet(v, accepted, start, s);
    var next := Extended(v, accepted[|accepted| - 1], s);
    var all := accepted + [s];
    var start' := if v.since == 0 then |accepted| - 1 else start;
    assert all[start'] == accepted[start'];
    var n := if confirmed then v.confirmations + 1 else 0;
    CountedIgnores(next, all, start', n);
    assert StalledLast(v.established, next.since, all, n);
  }

  lemma CountedIgnores(v: Watch, accepted: seq<Sample>, start: nat, n: nat)
    requires start < |accepted| && Counted(v, accepted, start)
    ensures Counted(v.(confirmations := n), accepted, start)
  {
  }

  lemma WatchedIsExtended(d: State, accepted: seq<Sample>, start: nat, s: Sample, gap: nat, recent: bool)
    requires Watching(WatchOf(d), accepted, start) && accepted != []
    requires var prior := accepted[|accepted| - 1];
      NoLess(prior.counters, s.counters) && prior.at > 0 && s.at == prior.at + gap
    ensures var prior := accepted[|accepted| - 1];
      var watched := Watched(d, s, Minus(s.counters, prior.counters), gap, recent);
      WatchOf(watched) == Extended(WatchOf(d), prior, s)
  {
    hide StalledLast, QuietFrom, SendCount, ReadDemand;
  }

  lemma EligibleIsStalled(d: State, s: Sample)
    requires Eligible(d, s)
    ensures Stalled(d.establishedAt, d.since, s) && d.sends >= 2
  {
  }

  lemma BlackholeStep(d: State, accepted: seq<Sample>, start: nat, s: Sample, gap: nat, recent: bool)
    requires Watching(WatchOf(d), accepted, start) && accepted != []
    requires var prior := accepted[|accepted| - 1];
      NoLess(prior.counters, s.counters) && prior.at > 0 && s.at == prior.at + gap
    ensures var (r, blackhole) := ObserveBlackhole(d, s, Minus(s.counters, accepted[|accepted| - 1].counters), gap, recent);
      && Watching(WatchOf(r), accepted + [s], if d.since == 0 then |accepted| - 1 else start)
      && r.establishedAt == d.establishedAt
      && (blackhole ==> r.since != 0 && r.confirmations >= CONFIRMATIONS && r.sends >= 2 && !Warm(d, s))
  {
    hide Watched, Eligible, Warm, ObserveBlackhole, Watching, Quiet, NoLess, Stalled, ResetBlackhole;
    var prior := accepted[|accepted| - 1];
    var moved := Minus(s.counters, prior.counters);
    BlackholeCases(d, s, moved, gap, recent);
    ResetWatching(d, accepted + [s], if d.since == 0 then |accepted| - 1 else start);
    if ObserveBlackhole(d, s, moved, gap, recent) != (ResetBlackhole(d), false) {
      var w := Watched(d, s, moved, gap, recent);
      WatchedIsExtended(d, accepted, start, s, gap, recent);
      SilentIsQuiet(prior, s, gap);
      if Eligible(w, s) {
        EligibleIsStalled(w, s);
        StalledIsWarm(d, w, s);
      }
      ExtendedWatching(WatchOf(d), accepted, start, s, Eligible(w, s));
    }
  }

  lemma SilentIsQuiet(a: Sample, b: Sample, gap: nat)
    requires NoLess(a.counters, b.counters) && Silent(Minus(b.counters, a.counters)) && b.at == a.at + gap && gap <= MAX_GAP
    ensures Quiet(a, b)
  {
  }

  /** The watch is either given up or extended by a silent interval. */
  lemma BlackholeCases(d: State, s: Sample, moved: Counters, gap: nat, recent: bool)
    requires gap < s.at
    ensures var (r, blackhole) := ObserveBlackhole(d, s, moved, gap, recent);
      var w := Watched(d, s, moved, gap, recent);
      || (r == ResetBlackhole(d) && !blackhole)
      || (&& gap <= MAX_GAP && Silent(moved) && w.since != 0
          && r == w.(confirmations := if Eligible(w, s) then w.confirmations + 1 else 0)
          && blackhole == (Eligible(w, s) && w.confirmations + 1 >= CONFIRMATIONS))
  {
    hide Watched, Eligible, ReadDemand, Silent;
    WatchedClock(d, s, moved, gap, recent);
  }

  lemma WatchedClock(d: State, s: Sample, moved: Counters, gap: nat, recent: bool)
    requires gap < s.at
    ensures Watched(d, s, moved, gap, recent).since != 0
  {
  }

  lemma ResetWatching(d: State, accepted: seq<Sample>, start: nat)
    ensures Watching(WatchOf(ResetBlackhole(d)), accepted, start)
    ensures ResetBlackhole(d).establishedAt == d.establishedAt
  {
  }

  lemma StalledIsWarm(d: State, w: State, s: Sample)
    requires Stalled(w.establishedAt, w.since, s) && w.establishedAt == d.establishedAt
    ensures !Warm(d, s)
  {
  }

  // ------------------------------------------------------------ the invariant

  /** Before any verdict, the running count of bad windows is about the last accepted samples, none of them in warm-up. */
  ghost predicate Sustained(d: State, accepted: seq<Sample>, bad: seq<nat>)
  {
    d.latched.None? ==>
      && d.badWindows < REQUIRED_WINDOWS && d.badWindows <= |accepted| == |bad|
      && forall i :: |accepted| - d.badWindows <= i < |accepted| ==>
           bad[i] >= REQUIRED_SIGNALS && accepted[i].at >= d.establishedAt + WARMUP
  }

  ghost predicate Inv(w: World)
  {
    && Anchored(w)
    && Windowed(w.d.window, w.accepted)
    && Watching(WatchOf(w.d), w.accepted, w.start)
    && Sustained(w.d, w.accepted, w.bad)
  }

  /** What judging an interval leaves alone. */
  lemma ConcludeFrame(d: State, s: Sample, total: Counters, blackhole: bool)
    ensures var r := Conclude(d, s, total, blackhole).0;
      && WatchOf(r) == WatchOf(d) && r.window == d.window && r.initialized == d.initialized
      && r.lastAt == d.lastAt && r.last == d.last
  {
    hide BadSignals, ClearWriteBlock, EnoughTraffic;
  }

  lemma BlackholeFrame(d: State, s: Sample, moved: Counters, gap: nat, recent: bool)
    requires gap <= s.at
    ensures var r := ObserveBlackhole(d, s, moved, gap, recent).0;
      && r.window == d.window && r.initialized == d.initialized && r.lastAt == d.lastAt && r.last == d.last
      && r.latched == d.latched && r.badWindows == d.badWindows && r.establishedAt == d.establishedAt
  {
    hide Eligible, Silent, ReadDemand, SaturatingAdd;
  }

  lemma AgedWatching(d: State, accepted: seq<Sample>, start: nat, gap: nat)
    requires Watching(WatchOf(d), accepted, start)
    ensures Watching(WatchOf(Aged(d, gap)), accepted, start)
  {
    ResetWatching(d, accepted, start);
  }

  lemma AgedFrame(d: State, gap: nat)
    ensures var r := Aged(d, gap);
      && r.window == d.window && r.initialized == d.initialized && r.lastAt == d.lastAt && r.last == d.last
      && r.latched == d.latched && r.badWindows == d.badWindows && r.establishedAt == d.establishedAt
  {
  }

  lemma AdvancedWindowed(d: State, accepted: seq<Sample>, s: Sample)
    requires Windowed(d.window, accepted) && accepted != [] && d.last == accepted[|accepted| - 1].counters
    requires NoLess(d.last, s.counters)
    ensures Windowed(Advanced(d, s).window, accepted + [s])
  {
    hide NoLess, Minus, Windowed;
    var more := d.window + [Delta(s.at, Minus(s.counters, d.last))];
    ExtendWindowed(d.window, accepted, s);
    TrimKeepsSuffix(more, s.at);
    var k :| 0 <= k <= |more| && Trim(more, s.at) == more[k..];
    SuffixWindowed(more, accepted + [s], k);
  }

  lemma ConcludeSustains(d: State, s: Sample, total: Counters, blackhole: bool, accepted: seq<Sample>, bad: seq<nat>)
    requires Sustained(d, accepted, bad) && |accepted| == |bad|
    ensures var (r, decision) := Conclude(d, s, total, blackhole);
      Sustained(r, accepted + [s], bad + [BadSignals(s, total)])
    ensures var (r, decision) := Conclude(d, s, total, blackhole);
      d.latched.None? && r.latched == Some(SustainedSignals) ==>
        && |accepted| >= 2 && BadSignals(s, total) >= REQUIRED_SIGNALS && s.at >= d.establishedAt + WARMUP
        && (forall i :: |accepted| - 2 <= i < |accepted| ==>
              bad[i] >= REQUIRED_SIGNALS && accepted[i].at >= d.establishedAt + WARMUP)
  {
    hide BadSignals, ClearWriteBlock, EnoughTraffic;
  }

  /** An accepted sample that does not start the detector over. */
  lemma ProcessedKeepsInv(w: World, s: Sample)
    requires Inv(w) && Accepts(w.d, s) && w.d.initialized
    ensures Inv(Next(w, s))
  {
    hide Windowed, Watching, Sustained, Advanced, ObserveBlackhole, Conclude, Sum, NoLess, BadSignals, Restarted, Aged, WatchOf, Recent;
    var gap := s.at - w.d.lastAt;
    var d := Aged(w.d, gap);
    AgedFrame(w.d, gap);
    AgedWatching(w.d, w.accepted, w.start, gap);
    SameSustained(w.d, d, w.accepted, w.bad);
    if NoLess(d.last, s.counters) {
      var next := Advanced(d, s);
      AdvancedFrame(d, s);
      AdvancedWindowed(d, w.accepted, s);
      var total := Sum(next.window);
      var moved := Minus(s.counters, d.last);
      BlackholeStep(next, w.accepted, w.start, s, gap, Recent(s, total));
      BlackholeFrame(next, s, moved, gap, Recent(s, total));
      var (watched, blackhole) := ObserveBlackhole(next, s, moved, gap, Recent(s, total));
      ConcludeFrame(watched, s, total, blackhole);
      SameSustained(d, watched, w.accepted, w.bad);
      ConcludeSustains(watched, s, total, blackhole, w.accepted, w.bad);
      assert Observe(w.d, s) == Conclude(watched, s, total, blackhole);
      assert Next(w, s).accepted == w.accepted + [s] && Next(w, s).bad == w.bad + [BadSignals(s, total)];
      SinceOf(d, next);
    } else {
      RestartedKeeps(d, s, w.accepted + [s], w.bad + [BadSignals(s, Sum(Restarted(d, s).window))],
                     Next(w, s).start);
    }
  }

  lemma SinceOf(d: State, next: State)
    requires WatchOf(d) == WatchOf(next)
    ensures d.since == next.since && d.establishedAt == next.establishedAt
  {
  }

  lemma AdvancedFrame(d: State, s: Sample)
    requires NoLess(d.last, s.counters)
    ensures var r := Advanced(d, s);
      && WatchOf(r) == WatchOf(d) && r.initialized == d.initialized && r.lastAt == s.at && r.last == s.counters
      && r.latched == d.latched && r.badWindows == d.badWindows && r.establishedAt == d.establishedAt
  {
    hide NoLess, Minus, Trim;
  }

  lemma SameSustained(a: State, b: State, accepted: seq<Sample>, bad: seq<nat>)
    requires Sustained(a, accepted, bad)
    requires a.latched == b.latched && a.badWindows == b.badWindows && a.establishedAt == b.establishedAt
    ensures Sustained(b, accepted, bad)
  {
  }

  lemma RestartedKeeps(d: State, s: Sample, accepted: seq<Sample>, bad: seq<nat>, start: nat)
    requires |accepted| == |bad|
    ensures var r := Restarted(d, s);
      && r.initialized == d.initialized && r.lastAt == s.at && r.last == s.counters
      && Windowed(r.window, accepted) && Watching(WatchOf(r), accepted, start) && Sustained(r, accepted, bad)
  {
  }

  lemma StepKeepsInv(w: World, s: Sample)
    requires Inv(w)
    ensures Inv(Next(w, s))
  {
    if !Accepts(w.d, s) {
      IgnoredKeepsInv(w, s);
    } else if w.d.initialized {
      ProcessedKeepsInv(w, s);
    } else {
      InitializedKeepsInv(w, s);
    }
  }

  lemma IgnoredKeepsInv(w: World, s: Sample)
    requires Inv(w) && !Accepts(w.d, s)
    ensures Inv(Next(w, s))
  {
    hide Windowed, Processed, Watching;
    assert WatchOf(Observe(w.d, s).0) == WatchOf(w.d);
  }

  lemma InitializedKeepsInv(w: World, s: Sample)
    requires Inv(w) && Accepts(w.d, s) && !w.d.initialized
    ensures Inv(Next(w, s))
  {
    hide Processed;
    assert w.accepted == [] && w.d.window == [];
    assert w.d.since == 0;
  }

  lemma {:induction false} RunKeepsInv(establishedAt: Time, run: seq<Sample>)
    ensures Inv(After(Fresh(establishedAt), run))
  {
    if run != [] {
      RunKeepsInv(establishedAt, run[..|run| - 1]);
      StepKeepsInv(After(Fresh(establishedAt), run[..|run| - 1]), run[|run| - 1]);
    }
  }

  // ----------------------------------------------------------------- theorems

  lemma BlackholeSignal(w: World, s: Sample)
    requires Inv(w) && Observe(w.d, s).1.blackhole
    ensures Accepts(w.d, s)
    ensures var d := Next(w, s).d; d.since != 0 && d.confirmations >= CONFIRMATIONS && d.sends >= 2
  {
    hide Windowed, Watching, Sustained, Advanced, ObserveBlackhole, Sum, NoLess, BadSignals, Restarted, Aged, WatchOf, Recent;
    assert Accepts(w.d, s) && w.d.initialized;
    var gap := s.at - w.d.lastAt;
    var d := Aged(w.d, gap);
    AgedFrame(w.d, gap);
    AgedWatching(w.d, w.accepted, w.start, gap);
    assert NoLess(d.last, s.counters);
    var next := Advanced(d, s);
    AdvancedFrame(d, s);
    BlackholeStep(next, w.accepted, w.start, s, gap, Recent(s, Sum(next.window)));
  }

  /** The accepted samples, ending with s, have a suffix that shows the blackhole. */
  ghost predicate Shown(w: World, s: Sample)
  {
    var all := w.accepted;
    && |all| > 0 && all[|all| - 1] == s
    && exists m: nat :: m + 2 < |all| && QuietFrom(all, m) && SendCount(all, m) >= 2
         && s.at - all[m].at >= STALL_TIMEOUT + SAMPLE_INTERVAL
         && StalledLast(w.d.establishedAt, all[m].at, all, CONFIRMATIONS)
  }

  /**
   * A blackhole verdict, in any sequence of samples, means: since some accepted
   * sample at least 10 s ago nothing was received and no payload moved, with
   * accepted samples at most 6 s apart; at least two of the intervals sent
   * something; and the last two accepted samples, this one included, were both
   * past warm-up and stalled for 8 s on every clock.
   */
  lemma BlackholeVerdict(establishedAt: Time, run: seq<Sample>, s: Sample)
    requires Observe(After(Fresh(establishedAt), run).d, s).1.blackhole
    ensures Shown(Next(After(Fresh(establishedAt), run), s), s)
  {
    hide Observe, Windowed, Sustained, Quiet, SendCount;
    var before := After(Fresh(establishedAt), run);
    RunKeepsInv(establishedAt, run);
    BlackholeSignal(before, s);
    StepKeepsInv(before, s);
    var w := Next(before, s);
    var all, m := w.accepted, w.start;
    assert Watching(WatchOf(w.d), all, m) && Counted(WatchOf(w.d), all, m);
    assert Stalled(w.d.establishedAt, w.d.since, all[|all| - 2]);
    assert all[|all| - 1].at >= all[|all| - 2].at + SAMPLE_INTERVAL;
  }

  lemma LatchNeedsSignal(d: State, s: Sample)
    ensures Observe(d, s).0.latched == Some(UdpBlackhole) ==> d.latched == Some(UdpBlackhole) || Observe(d, s).1.blackhole
  {
    hide NoLess, Sum, Advanced, BadSignals, EnoughTraffic, Recent, ObserveBlackhole, Minus, Aged;
    if Accepts(d, s) && d.initialized {
      var gap := s.at - d.lastAt;
      var aged := Aged(d, gap);
      AgedFrame(d, gap);
      if NoLess(aged.last, s.counters) {
        AdvancedFrame(aged, s);
        var next := Advanced(aged, s);
        BlackholeFrame(next, s, Minus(s.counters, aged.last), gap, Recent(s, Sum(next.window)));
      }
    }
  }

  /**
   * A latched blackhole verdict, however much later it is read, was produced by
   * a sample of the run that showed the blackhole itself, with everything that
   * implies at that moment.
   */
  lemma {:induction false} LatchedBlackholeWasShown(establishedAt: Time, run: seq<Sample>) returns (n: nat)
    requires After(Fresh(establishedAt), run).d.latched == Some(UdpBlackhole)
    ensures n < |run| && Observe(After(Fresh(establishedAt), run[..n]).d, run[n]).1.blackhole
    ensures Shown(Next(After(Fresh(establishedAt), run[..n]), run[n]), run[n])
  {
    hide Observe, Shown;
    var front, s := run[..|run| - 1], run[|run| - 1];
    var d := After(Fresh(establishedAt), front).d;
    LatchNeedsSignal(d, s);
    StepObserves(After(Fresh(establishedAt), front), s);
    if d.latched == Some(UdpBlackhole) {
      n := LatchedBlackholeWasShown(establishedAt, front);
      assert front[..n] == run[..n];
    } else {
      n := |run| - 1;
      BlackholeVerdict(establishedAt, front, s);
    }
  }

  lemma StepObserves(w: World, s: Sample)
    ensures Next(w, s).d == Observe(w.d, s).0
  {
    hide Observe, Sum, Aged, Accepts;
  }

  /** During a quiet stretch the received and payload counters stand still. */
  lemma {:induction false} QuietMeansNothingArrived(accepted: seq<Sample>, m: nat, i: nat)
    requires QuietFrom(accepted, m) && m <= i < |accepted|
    ensures accepted[i].counters.packetsReceived == accepted[m].counters.packetsReceived
    ensures accepted[i].counters.bytesReceived == accepted[m].counters.bytesReceived
    ensures accepted[i].counters.payload == accepted[m].counters.payload
  {
    if m < i {
      QuietMeansNothingArrived(accepted, m, i - 1);
      assert Quiet(accepted[i - 1], accepted[i]);
    }
  }

  /** In every reachable state the window's saturating sums are plain counter differences. */
  lemma WindowSumsNeverSaturate(establishedAt: Time, run: seq<Sample>)
    ensures var w := After(Fresh(establishedAt), run);
      w.d.window != [] ==>
        && |w.d.window| < |w.accepted|
        && NoLess(w.accepted[|w.accepted| - |w.d.window| - 1].counters, w.d.last)
        && Sum(w.d.window) == Minus(w.d.last, w.accepted[|w.accepted| - |w.d.window| - 1].counters)
  {
    hide Sum, NoLess, Minus, Watching, Sustained, Follows;
    RunKeepsInv(establishedAt, run);
    var w := After(Fresh(establishedAt), run);
    if w.d.window != [] {
      SumTelescopes(w.d.window, w.accepted);
    }
  }

  /** Three accepted samples in a row, all past warm-up and each with two bad signals, are behind a sustained verdict. */
  lemma SustainedVerdict(establishedAt: Time, run: seq<Sample>, s: Sample)
    requires var d := After(Fresh(establishedAt), run).d;
      d.latched.None? && Observe(d, s).0.latched == Some(SustainedSignals)
    ensures var w := Next(After(Fresh(establishedAt), run), s);
      && |w.accepted| >= REQUIRED_WINDOWS && |w.bad| == |w.accepted| && w.accepted[|w.accepted| - 1] == s
      && forall i :: |w.accepted| - REQUIRED_WINDOWS <= i < |w.accepted| ==>
           w.bad[i] >= REQUIRED_SIGNALS && w.accepted[i].at >= w.d.establishedAt + WARMUP
  {
    hide Windowed, Watching, Sustained, Advanced, ObserveBlackhole, Conclude, Sum, NoLess, BadSignals, Aged, WatchOf, Recent;
    RunKeepsInv(establishedAt, run);
    var w := After(Fresh(establishedAt), run);
    assert Accepts(w.d, s) && w.d.initialized;
    var gap := s.at - w.d.lastAt;
    var d := Aged(w.d, gap);
    AgedFrame(w.d, gap);
    assert NoLess(d.last, s.counters);
    var next := Advanced(d, s);
    AdvancedFrame(d, s);
    var total := Sum(next.window);
    var moved := Minus(s.counters, d.last);
    BlackholeFrame(next, s, moved, gap, Recent(s, total));
    var (watched, blackhole) := ObserveBlackhole(next, s, moved, gap, Recent(s, total));
    SameSustained(w.d, watched, w.accepted, w.bad);
    ConcludeFrame(watched, s, total, blackhole);
    SinceOf(watched, Conclude(watched, s, total, blackhole).0);
    ConcludeSustains(watched, s, total, blackhole, w.accepted, w.bad);
    assert Next(w, s).bad == w.bad + [BadSignals(s, total)];
  }

  lemma DecisionIsTheLatch(d: State, s: Sample)
    ensures Observe(d, s).1.verdict == Observe(d, s).0.latched
    ensures d.latched.Some? ==> Observe(d, s).0.latched == d.latched || Observe(d, s).0.latched == Some(UdpBlackhole)
  {
    hide NoLess, Sum, Advanced, BadSignals, EnoughTraffic, Recent, ObserveBlackhole, Minus, Aged;
    if Accepts(d, s) && d.initialized {
      var gap := s.at - d.lastAt;
      var aged := Aged(d, gap);
      AgedFrame(d, gap);
      if NoLess(aged.last, s.counters) {
        AdvancedFrame(aged, s);
        var next := Advanced(aged, s);
        BlackholeFrame(next, s, Minus(s.counters, aged.last), gap, Recent(s, Sum(next.window)));
      }
    }
  }

  /** A rotate verdict never clears, and only a blackhole replaces its reason. */
  lemma {:induction false} RotateNeverClears(establishedAt: Time, run: seq<Sample>, n: nat, s: Sample)
    requires n < |run|
    requires Observe(After(Fresh(establishedAt), run[..n]).d, run[n]).1.verdict.Some?
    ensures var first := Observe(After(Fresh(establishedAt), run[..n]).d, run[n]).1.verdict;
      var later := Observe(After(Fresh(establishedAt), run).d, s).1.verdict;
      later == first || later == Some(UdpBlackhole)
    decreases |run|
  {
    hide Observe;
    var d := After(Fresh(establishedAt), run).d;
    DecisionIsTheLatch(d, s);
    var prior := run[..|run| - 1];
    DecisionIsTheLatch(After(Fresh(establishedAt), run[..n]).d, run[n]);
    if n < |run| - 1 {
      assert prior[..n] == run[..n];
      RotateNeverClears(establishedAt, prior, n, run[|run| - 1]);
      DecisionIsTheLatch(After(Fresh(establishedAt), prior).d, run[|run| - 1]);
    } else {
      assert prior == run[..n];
    }
  }
}
