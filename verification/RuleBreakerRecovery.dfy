/** Exactly when a probation gives H3 back, over every run, from the observations alone. */
module RuleBreakerRecovery {
  import opened Clock
  import opened Endpoints
  import opened RuleBreaker
  import opened RuleBreakerRuns
  import opened RuleBreakerHistory

  /** Nothing wrong with a sampled observation. */
  predicate Calm(s: Sample)
  {
    !s.warmup && !s.rttBad && !s.lossBad && !s.stalled && s.blockedWrites == 0
  }

  /** The times of the healthy observations that count: at least 2 s after the last that did, none before an unhealthy one. */
  function Counted(samples: seq<Sample>): seq<Time>
  {
    if samples == [] then []
    else
      var front, s := Counted(samples[..|samples| - 1]), samples[|samples| - 1];
      if !s.sampled then front
      else if !Calm(s) then []
      else if front == [] || s.at - front[|front| - 1] >= 2_000_000_000 then front + [s.at]
      else front
  }

  lemma CountedNext(samples: seq<Sample>, s: Sample)
    ensures Counted(samples + [s]) ==
      var front := Counted(samples);
      if !s.sampled then front
      else if !Calm(s) then []
      else if front == [] || s.at - front[|front| - 1] >= 2_000_000_000 then front + [s.at]
      else front
  {
    assert (samples + [s])[..|samples|] == samples;
  }

  /** Enough was carried: 512 KiB of payload or 256 packets beyond the counters at binding. */
  ghost predicate CarriedEnough(t: Trial, samples: seq<Sample>)
    requires t.Trial?
  {
    exists i :: 0 <= i < |samples| &&
      (samples[i].payloadBytes - t.initialPayload >= 524288 || samples[i].packetsSent - t.initialPackets >= 256)
  }

  /** H3 is earned back: 30 s on the bound generation, enough carried, three healthy observations in a row. */
  ghost predicate Earned(t: Trial, samples: seq<Sample>, at: Time)
    requires t.Trial?
  {
    at - t.establishedAt >= 30_000_000_000 && CarriedEnough(t, samples) && |Counted(samples)| >= 3
  }

  ghost predicate Highest(best: nat, initial: nat, values: seq<nat>)
  {
    && (forall i :: 0 <= i < |values| ==> values[i] - initial <= best)
    && (best > 0 ==> exists i :: 0 <= i < |values| && values[i] - initial == best)
  }

  function Payloads(samples: seq<Sample>): (r: seq<nat>)
    ensures |r| == |samples| && forall i :: 0 <= i < |r| ==> r[i] == samples[i].payloadBytes
  {
    seq(|samples|, i requires 0 <= i < |samples| => samples[i].payloadBytes)
  }

  function Packets(samples: seq<Sample>): (r: seq<nat>)
    ensures |r| == |samples| && forall i :: 0 <= i < |r| ==> r[i] == samples[i].packetsSent
  {
    seq(|samples|, i requires 0 <= i < |samples| => samples[i].packetsSent)
  }

  /** The trial's counters are what the observations say. */
  ghost predicate Matched(t: Trial, samples: seq<Sample>)
    requires t.Trial?
  {
    && Highest(t.payload, t.initialPayload, Payloads(samples))
    && Highest(t.packets, t.initialPackets, Packets(samples))
    && var counted := Counted(samples);
       && t.healthySamples == |counted|
       && t.lastHealthyAt == (if counted == [] then 0 else counted[|counted| - 1])
       && (forall i :: 0 <= i < |counted| ==> counted[i] > 0)
  }

  lemma HighestNext(best: nat, initial: nat, values: seq<nat>, v: nat)
    requires Highest(best, initial, values)
    ensures Highest(if v - initial > best then v - initial else best, initial, values + [v])
  {
    var all := values + [v];
    if v - initial > best {
      assert all[|values|] - initial == v - initial;
    } else if best > 0 {
      var i :| 0 <= i < |values| && values[i] - initial == best;
      assert all[i] - initial == best;
    }
  }

  lemma MatchedNext(t: Trial, samples: seq<Sample>, s: Sample)
    requires t.Trial? && Matched(t, samples) && s.at > 0
    ensures
      var seen := UpdateEvidence(t, s);
      Matched(if s.sampled then CountHealthy(seen, s) else seen, samples + [s])
  {
    hide Counted, Highest;
    HighestNext(t.payload, t.initialPayload, Payloads(samples), s.payloadBytes);
    HighestNext(t.packets, t.initialPackets, Packets(samples), s.packetsSent);
    assert Payloads(samples + [s]) == Payloads(samples) + [s.payloadBytes];
    assert Packets(samples + [s]) == Packets(samples) + [s.packetsSent];
    CountedNext(samples, s);
  }

  lemma MatchedStart(t: Trial)
    requires t.Trial? && t.payload == t.packets == 0 && t.healthySamples == 0 && t.lastHealthyAt == 0
    ensures Matched(t, [])
  {
  }

  ghost predicate Matches(w: World)
  {
    w.r.trial.Trial? ==>
      && Matched(w.r.trial, w.b.samples)
      && (!w.r.trial.established ==> w.b.samples == [])
  }

  lemma SampleKeepsMatch(w: World, ev: Event)
    requires Matches(w) && Shape(w.r) && Enabled(w, ev) && ev.action.Sampled?
    ensures Matches(Next(w, ev))
  {
    hide Matched, Validators, Arming, Proves, Extended, Recovered, UpdateEvidence, CountHealthy, CooldownStep;
    var s := ev.action.sample;
    if Observes(w.r, s) && !s.broken {
      MatchedNext(w.r.trial, w.b.samples, s);
      EvidenceKeepsBinding(w.r.trial, s);
    }
  }

  lemma EvidenceKeepsBinding(t: Trial, s: Sample)
    requires t.Trial?
    ensures
      var seen := UpdateEvidence(t, s);
      var t' := CountHealthy(seen, s);
      && seen.Trial? && t'.Trial? && seen.established == t.established == t'.established
      && seen.establishedAt == t.establishedAt == t'.establishedAt
      && seen.initialPayload == t.initialPayload == t'.initialPayload
      && seen.initialPackets == t.initialPackets == t'.initialPackets
  {
  }

  lemma StartKeepsMatch(w: World, ev: Event)
    requires Matches(w) && Shape(w.r) && Enabled(w, ev) && (ev.action.Begin? || ev.action.Bind?)
    ensures Matches(Next(w, ev))
  {
    hide Matched, Validators, Arming, Proves, Extended;
    var r' := RuleStep(w.r, ev);
    if r'.trial.Trial? && r'.trial != w.r.trial {
      if ev.action.Bind? {
        FreshCounters(w.r.trial);
      }
      MatchedStart(r'.trial);
    }
  }

  lemma FreshCounters(t: Trial)
    requires t.Trial? && Matched(t, [])
    ensures t.payload == t.packets == 0 && t.healthySamples == 0 && t.lastHealthyAt == 0
  {
  }

  lemma OthersKeepMatch(w: World, ev: Event)
    requires Matches(w) && Shape(w.r) && Enabled(w, ev)
    requires !ev.action.Sampled? && !ev.action.Begin? && !ev.action.Bind?
    ensures Matches(Next(w, ev))
  {
    hide Validators, Arming, Proves, Matched, RuleStep;
    TrialOnlyEnds(w.r, ev);
  }

  lemma {:induction false} RunMatches(run: seq<Event>)
    requires Legal(START, run)
    ensures Inv(After(START, run)) && Matches(After(START, run))
  {
    hide Inv, Next, Enabled, Matches;
    StartKeepsInv();
    RunKeepsInv(START, run);
    if run == [] {
      assert Matches(START) by { NothingToMatch(); }
    } else {
      var front, ev := run[..|run| - 1], run[|run| - 1];
      LastStep(run);
      RunMatches(front);
      var w := After(START, front);
      DrawnTokens(w);
      if ev.action.Sampled? {
        SampleKeepsMatch(w, ev);
      } else if ev.action.Begin? || ev.action.Bind? {
        StartKeepsMatch(w, ev);
      } else {
        OthersKeepMatch(w, ev);
      }
    }
  }

  lemma NothingToMatch()
    ensures Matches(START)
  {
  }

  lemma CarriedIsRecovered(t: Trial, samples: seq<Sample>)
    requires t.Trial? && Matched(t, samples)
    ensures CarriedEnough(t, samples) <==> t.payload >= 524288 || t.packets >= 256
  {
    hide Counted;
    if t.payload >= 524288 {
      var i :| 0 <= i < |Payloads(samples)| && Payloads(samples)[i] - t.initialPayload == t.payload;
      assert samples[i].payloadBytes - t.initialPayload >= 524288;
    }
    if t.packets >= 256 {
      var i :| 0 <= i < |Packets(samples)| && Packets(samples)[i] - t.initialPackets == t.packets;
      assert samples[i].packetsSent - t.initialPackets >= 256;
    }
    if CarriedEnough(t, samples) {
      var i :| 0 <= i < |samples| &&
        (samples[i].payloadBytes - t.initialPayload >= 524288 || samples[i].packetsSent - t.initialPackets >= 256);
      assert Payloads(samples)[i] - t.initialPayload <= t.payload && Packets(samples)[i] - t.initialPackets <= t.packets;
    }
  }

  /** What a sampled, unbroken observation of the bound generation does. */
  ghost predicate SampleDecides(r: Rule, r': Rule, samples: seq<Sample>, s: Sample, now: Time)
    requires r.trial.Trial?
  {
    var n := if r.failures < 4 then r.failures + 1 else r.failures;
    && (r'.phase == Closed <==> Earned(r.trial, samples, s.at))
    && (r'.phase != Closed && s.at - r.trial.establishedAt >= 90_000_000_000 ==>
          r'.phase == CoolingDown && r'.failures == n && r'.retryAt == now + Minutes(n))
    && (r'.phase != Closed && s.at - r.trial.establishedAt < 90_000_000_000 ==>
          r'.phase == OnProbation && r'.failures == r.failures)
  }

  lemma SampleStepDecides(w: World, ev: Event)
    requires Shape(w.r) && Matches(w) && Enabled(w, ev) && ev.action.Sampled?
    requires Observes(w.r, ev.action.sample) && ev.action.sample.sampled && !ev.action.sample.broken
    ensures
      && Next(w, ev).b.samples == w.b.samples + [ev.action.sample]
      && SampleDecides(w.r, Next(w, ev).r, w.b.samples + [ev.action.sample], ev.action.sample, ev.now)
  {
    hide Matched, Validators, Arming, Proves, Extended, UpdateEvidence, CountHealthy, CarriedEnough, Counted;
    var s, t := ev.action.sample, w.r.trial;
    var samples := w.b.samples + [s];
    MatchedNext(t, w.b.samples, s);
    EvidenceKeepsBinding(t, s);
    var t' := CountHealthy(UpdateEvidence(t, s), s);
    CarriedIsRecovered(t', samples);
    HealthyIsCounted(t', samples);
    SameBinding(t, t', samples);
  }

  lemma HealthyIsCounted(t: Trial, samples: seq<Sample>)
    requires t.Trial? && Matched(t, samples)
    ensures t.healthySamples == |Counted(samples)|
  {
  }

  lemma SameBinding(t: Trial, t': Trial, samples: seq<Sample>)
    requires t.Trial? && t'.Trial? && t.initialPayload == t'.initialPayload && t.initialPackets == t'.initialPackets
    ensures CarriedEnough(t, samples) <==> CarriedEnough(t', samples)
  {
  }

  /**
   * Over every run, a sampled, unbroken observation of the bound generation
   * returns the rule to Closed if and only if H3 has been earned back by then;
   * otherwise, from 90 s on, it fails the probation: one more failure, of at
   * most four, and 5, 10, 20 or 30 minutes of cooldown; before that it goes on.
   */
  lemma RecoveryExactly(run: seq<Event>, s: Sample, now: Time, next: nat)
    requires Legal(START, run + [Event(Sampled(s), now, next)])
    requires
      var r := After(START, run).r;
      && r.phase == OnProbation && r.trial.Trial? && r.trial.established && r.trial.key == s.key
      && r.trial.generation == s.generation && s.generation != 0 && s.sampled && !s.broken
    ensures
      var w, w' := After(START, run), After(START, run + [Event(Sampled(s), now, next)]);
      w'.b.samples == w.b.samples + [s] && SampleDecides(w.r, w'.r, w'.b.samples, s, now)
  {
    hide Inv, Next, Enabled, Matches, SampleDecides;
    var ev := Event(Sampled(s), now, next);
    RunSplits(START, run, ev);
    RunMatches(run);
    DrawnTokens(After(START, run));
    hide Shape;
    SampleStepDecides(After(START, run), ev);
  }

  // --------------------------------------- three in a row, without the count

  /** Healthy observations i, j, k, each 2 s after the one before, and nothing unhealthy sampled since i. */
  ghost predicate ThreeCalm(samples: seq<Sample>, i: nat, j: nat, k: nat)
  {
    CalmPair(samples, i, j) && CalmPair(samples, j, k) && CalmSince(samples, i)
  }

  ghost predicate CalmPair(samples: seq<Sample>, i: nat, j: nat)
  {
    && i < j < |samples| && samples[i].sampled && samples[j].sampled
    && samples[j].at - samples[i].at >= 2_000_000_000
  }

  ghost predicate CalmSince(samples: seq<Sample>, i: nat)
  {
    forall n :: i <= n < |samples| && samples[n].sampled ==> Calm(samples[n])
  }

  ghost predicate InOrder(samples: seq<Sample>)
  {
    forall i, j :: 0 <= i < j < |samples| ==> samples[i].at <= samples[j].at
  }

  /** Counting greedily never falls behind: its n-th time is no later than the n-th of any other choice. */
  ghost predicate Ahead(samples: seq<Sample>, c: seq<Time>)
  {
    && (forall i: nat :: i < |samples| && samples[i].sampled && CalmSince(samples, i) ==> |c| >= 1 && c[0] <= samples[i].at)
    && (forall i: nat, j: nat :: CalmPair(samples, i, j) && CalmSince(samples, i) ==> |c| >= 2 && c[1] <= samples[j].at)
    && (forall i: nat, j: nat, k: nat :: ThreeCalm(samples, i, j, k) ==> |c| >= 3)
    && (samples == [] ==> c == [])
    && (samples != [] ==> forall m :: 0 <= m < |c| ==> c[m] <= samples[|samples| - 1].at)
  }

  lemma CalmBefore(samples: seq<Sample>, s: Sample, i: nat)
    requires i < |samples|
    ensures CalmSince(samples + [s], i) <==> CalmSince(samples, i) && (s.sampled ==> Calm(s))
  {
    hide Calm;
    var all := samples + [s];
    if CalmSince(all, i) {
      assert all[|samples|] == s;
      assert forall n :: i <= n < |samples| ==> all[n] == samples[n];
    }
  }

  lemma StaysAhead(samples: seq<Sample>, s: Sample, c: seq<Time>)
    requires Ahead(samples, c) && InOrder(samples + [s])
    ensures
      Ahead(samples + [s],
        if !s.sampled then c
        else if !Calm(s) then []
        else if c == [] || s.at - c[|c| - 1] >= 2_000_000_000 then c + [s.at]
        else c)
  {
    hide Calm, CalmSince;
    var all, last := samples + [s], |samples|;
    var c' := if !s.sampled then c
      else if !Calm(s) then []
      else if c == [] || s.at - c[|c| - 1] >= 2_000_000_000 then c + [s.at]
      else c;
    assert samples != [] ==> all[last - 1].at <= all[last].at;
    forall i: nat | i < |all| && all[i].sampled && CalmSince(all, i) ensures |c'| >= 1 && c'[0] <= all[i].at {
      EarlierCalm(samples, s, i);
    }
    forall i: nat, j: nat | CalmPair(all, i, j) && CalmSince(all, i) ensures |c'| >= 2 && c'[1] <= all[j].at {
      EarlierCalm(samples, s, i);
      if j < last {
        assert CalmPair(samples, i, j);
      }
    }
    forall i: nat, j: nat, k: nat | ThreeCalm(all, i, j, k) ensures |c'| >= 3 {
      EarlierCalm(samples, s, i);
      assert CalmPair(samples, i, j);
      if k < last {
        assert CalmPair(samples, j, k);
        assert ThreeCalm(samples, i, j, k);
      }
    }
  }

  lemma EarlierCalm(samples: seq<Sample>, s: Sample, i: nat)
    requires i <= |samples| && CalmSince(samples + [s], i)
    ensures i < |samples| ==> CalmSince(samples, i)
    ensures s.sampled ==> Calm(s)
  {
    hide Calm;
    var all := samples + [s];
    assert all[|samples|] == s;
    assert forall n :: 0 <= n < |samples| ==> all[n] == samples[n];
  }

  lemma LastIsCalm(samples: seq<Sample>, s: Sample)
    requires s.sampled
    ensures CalmSince(samples + [s], |samples|) <==> Calm(s)
  {
    assert (samples + [s])[|samples|] == s;
  }

  lemma NothingAhead()
    ensures Ahead([], [])
  {
  }

  lemma {:induction false} CountedIsAhead(samples: seq<Sample>)
    requires InOrder(samples)
    ensures Ahead(samples, Counted(samples))
  {
    if samples == [] {
      NothingAhead();
    } else {
      hide Ahead, Calm;
      var front, s := samples[..|samples| - 1], samples[|samples| - 1];
      assert samples == front + [s];
      CountedIsAhead(front);
      StaysAhead(front, s, Counted(front));
    }
  }

  /** Where the counted times come from: healthy observations, spaced, with nothing unhealthy since the first. */
  ghost predicate ComesFrom(samples: seq<Sample>, c: seq<Time>, at: seq<nat>)
  {
    && |at| == |c|
    && (forall m :: 0 <= m < |c| ==> at[m] < |samples| && samples[at[m]].sampled && samples[at[m]].at == c[m])
    && (forall m :: 0 < m < |c| ==> at[m - 1] < at[m] && c[m] >= c[m - 1] + 2_000_000_000)
    && (c != [] ==> CalmSince(samples, at[0]))
  }

  lemma ComesFromNext(samples: seq<Sample>, s: Sample, c: seq<Time>, at: seq<nat>)
    requires ComesFrom(samples, c, at)
    ensures !s.sampled || Calm(s) ==> ComesFrom(samples + [s], c, at)
    ensures s.sampled && Calm(s) && (c == [] || s.at - c[|c| - 1] >= 2_000_000_000) ==>
      ComesFrom(samples + [s], c + [s.at], at + [|samples|])
  {
    hide Calm, CalmSince;
    var all := samples + [s];
    assert forall m :: 0 <= m < |c| ==> all[at[m]] == samples[at[m]];
    if c != [] {
      CalmBefore(samples, s, at[0]);
    }
    if s.sampled {
      LastIsCalm(samples, s);
    }
  }

  lemma {:induction false} CountedComesFrom(samples: seq<Sample>) returns (at: seq<nat>)
    ensures ComesFrom(samples, Counted(samples), at)
  {
    if samples == [] {
      return [];
    }
    var front, s := samples[..|samples| - 1], samples[|samples| - 1];
    assert samples == front + [s];
    at := CountedComesFrom(front);
    var c := Counted(front);
    ComesFromNext(front, s, c, at);
    if s.sampled && !Calm(s) {
      at := [];
    } else if s.sampled && (c == [] || s.at - c[|c| - 1] >= 2_000_000_000) {
      at := at + [|front|];
    }
  }

  /**
   * Observations in order of time hold three that count if and only if some
   * three are healthy, 2 s apart, with nothing unhealthy sampled since the first.
   */
  lemma ThreeCountedExactly(samples: seq<Sample>)
    requires InOrder(samples)
    ensures |Counted(samples)| >= 3 <==> exists i: nat, j: nat, k: nat :: ThreeCalm(samples, i, j, k)
  {
    hide Counted, Calm, CalmSince;
    CountedIsAhead(samples);
    var c := Counted(samples);
    var at := CountedComesFrom(samples);
    if |c| >= 3 {
      assert ThreeCalm(samples, at[0], at[1], at[2]);
    }
  }

  /** An observation that is broken fails the probation of its own generation; an unsampled one decides nothing, nor does a foreign one. */
  lemma OtherObservations(r: Rule, s: Sample, now: Time)
    requires r.phase == OnProbation && r.trial.Trial?
    ensures
      var own := r.trial.established && r.trial.key == s.key && r.trial.generation == s.generation && s.generation != 0;
      var r' := NoteSample(r, s, now);
      && (!own ==> r' == r)
      && (own && s.broken ==> Fails(r, r', now))
      && (own && !s.broken && !s.sampled ==> r'.phase == OnProbation && r' == r.(trial := r'.trial))
  {
  }
}
