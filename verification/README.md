# Moto controller: verified protocols

Moto is a TCP and CONNECT gateway. Its controller keeps several protocols whose
comments promise something about every interleaving: the H3 to H2 fallback
window of an endpoint, the rule-level H3 breaker with its UDP-blackhole
validation, the Boost winner cache and race, the dial bulkhead, the route
circuit and target selector, the degradation detector, two byte-level readers,
and generation leases across reloads. This project models them in Dafny and
proves those promises.

Each protocol has the same three layers. Specification functions say what one
operation does to a value. A class (or, for code that works on local variables,
a set of methods) does the same step by step, as the source does, and is proved
to refine them. A runs module then takes arbitrary sequences of operations,
with ghost ledgers of who is outstanding, and proves invariants and theorems
over all of them. A history module goes further: it retells the run in plain
facts (when something last happened, how often in a row) and proves, in literal
seconds, bytes and counts, exactly what each operation answers. A method that
holds a mutex throughout is one step; where the source unlocks in between
(acquireBinding, retire, ReloadRules) the steps are separate and interleave
freely.

| files | protocol |
|---|---|
| FallbackWindow, FallbackManager, FallbackHistory | endpoint fallback window |
| RuleBreaker, RuleBreakerRuns, RuleBreakerHistory, RuleBreakerRecovery, RuleBreakerObject | rule breaker and UDP-blackhole validation |
| WinnerCache, WinnerCacheRuns | Boost winner cache |
| BoostRace | fresh Boost race |
| DialBulkhead | foreground dial bulkhead |
| RouteCircuit, RouteCircuitRuns, RouteCircuitHistory | passive route circuit |
| TargetSelector | target selection |
| Bytes, Streams, ServerName, ClientHello, ClientHelloReader, ClientHelloObject | TLS ClientHello probe |
| Splitting, ProxyProtocol, ProxyProtocolLaws, ProxyProtocolWire, ProxyProtocolObject | PROXY protocol v1 and v2 |
| Detector, DetectorRuns, DetectorHistory | degradation detector |
| Generations | generation leases and reload |

Time is a non-decreasing natural number of nanoseconds passed in by the caller,
with 0 for the zero time. Token, epoch and generation counters are unbounded
naturals. Dial results, health answers, penalties, probe claims, map iteration
order, cancellation and scheduling are arbitrary inputs or nondeterministic
choices, so every theorem holds for all of them.

Three places where the code says something other than a reader might expect:

- An endpoint's half-open probe that is given up ends its epoch without a
  cooldown even if a fallback of that epoch was reachable. `CooldownExactly`
  gives the condition and `ReachableFallbackWithoutCooldown` the input.
- A closed route circuit may carry three or more relay failures, because a
  successful half-open dial does not clear them. `RelayStreakAfterRecovery`
  gives the condition and `ClosedWithFullRelayStreak` the run.
- A UDP-blackhole verdict needs 10 s of silence, not 8: both of its two
  confirming samples, at least 2 s apart, must already see 8 s.

Check everything with `dafny verify dfyconfig.toml`.

## Model

| member | source | states |
|---|---|---|
| FallbackWindow.OutcomeIgnoresOrder | controller/connect_proxy.go:531-683 | For a fixed cohort of one epoch, every complete order of H3 and H2 settlements, at any clock, leaves the endpoint as one order-free verdict says: reset if some H3 attempt succeeds; nothing if a half-open probe is given up; cooldown if some fallback is reachable with a live parent; fail-open expiry otherwise |
| FallbackWindow.CooldownExactly | controller/connect_proxy.go:557-683 | The epoch ends in a cooldown if and only if some fallback was reachable with a live parent, no H3 attempt succeeded and no half-open probe was given up |
| FallbackManager.ReachableFallbackWithoutCooldown | controller/connect_proxy.go:557-583 | Concrete run from the start, for every policy and in either order of the last two settlements: a half-open probe is given up while a fallback of its epoch is reachable with a live parent, and the epoch ends without a cooldown |
| FallbackHistory.CooldownKeepsH3Away | controller/connect_proxy.go:418-486 | In every run a dial on a failed endpoint with no window pending and no probe out gets H3 if and only if the delay of its cause and failure count (5 s doubling to 60 s, 60 s doubling to 300 s after a degradation, unless configured) has passed since the count last rose; before that the token is 0 and the manager unchanged |
| FallbackHistory.DialExactly | controller/connect_proxy.go:418-501 | What every dial gets in every reachable state, from the history of the endpoint alone: protocol, token and place in the epoch, and for a bypassing dial the token it joins |
| FallbackHistory.DegradationWindowExactly | controller/connect_proxy.go:725-777 | In every run a degradation report starts a window exactly when it is fresh, at least the second strike within the memory of strikes, and no window, probe or unfinished cooldown is under way |
| FallbackHistory.DefaultDelays | controller/connect_proxy.go:957-1005 | The unconfigured delays in seconds: 5, 10, 20, 40, then 60; after a degradation 60, 120, 240, then 300 |
| FallbackWindow.LateSettlementsIgnored | controller/connect_proxy.go:531-629 | Once the epoch has moved on, the rest of its cohort changes nothing, in any order |
| FallbackWindow.OnlyReadinessCommits | controller/connect_proxy.go:631-683 | No operation raises the failure count unless the window is ready or becomes ready with this very result |
| FallbackWindow.BeginAdmits | controller/connect_proxy.go:418-486 | An admission adds exactly the participant its token stands for, under the current or the next epoch, or changes nothing; when each happens is `FallbackHistory.DialExactly` |
| FallbackWindow.DoublingDelay | controller/connect_proxy.go:957-1005 | The overflow-safe doubling loop returns min(base * 2^(failures-1), maximum) for every base, cap and failure count |
| FallbackManager.LedgerOverEveryRun | controller/connect_proxy.go:418-723 | Over every run the two counters equal the unsettled H3 and H2 participants of the current epoch; a half-open probe is alone in flight with failures > 0 and no pending window; a failed endpoint that is not probing has no current H3 attempt |
| FallbackManager.CooldownNeedsEvidence | controller/connect_proxy.go:585-683 | In every run the step that raises a failure count ends an epoch under which a fallback with a live parent reached H2 |
| FallbackManager.CooldownExactlyOverRuns | controller/connect_proxy.go:531-683 | In every run, a failed or given-up attempt or a fallback result that ends an epoch raises the failure count if and only if some fallback of that epoch with a live parent reached H2 and it is not the giving up of a half-open probe |
| FallbackManager.StaleResultsChangeNothing | controller/connect_proxy.go:531-629 | A report under an epoch that has ended leaves the whole manager unchanged |
| FallbackManager.SettledDialsLeaveNoWindow | controller/connect_proxy.go:418-683 | When every dial of an endpoint has settled, nothing is half-open, no counter is left and no transport window waits |
| FallbackManager.RunKeepsInv | controller/connect_proxy.go:418-793 | The ledger invariant holds after every legal sequence of operations |
| FallbackManager.ConnectProxyManager.BeginHTTP3Attempt | controller/connect_proxy.go:418-486 | In-place admission refines the specified step: pending, due degradation retry, closed, probing, cooling or half-open; `FallbackHistory.CooldownKeepsH3Away` and `DialExactly` say which, by the history |
| FallbackManager.ConnectProxyManager.JoinHTTP3PendingFallback | controller/connect_proxy.go:488-501 | A bypassing dial joins the pending or probing epoch, or gets no token |
| FallbackManager.ConnectProxyManager.MarkHTTP3FailurePending | controller/connect_proxy.go:531-555 | A failed H3 attempt becomes a pending fallback of the same epoch, or is ignored when stale |
| FallbackManager.ConnectProxyManager.AbandonHTTP3Attempt | controller/connect_proxy.go:557-583 | A given-up attempt leaves its epoch; a given-up probe ends it |
| FallbackManager.ConnectProxyManager.ObserveHTTP3Attempt | controller/connect_proxy.go:585-629 | A usable attempt resets; a fallback result settles its participant and may resolve the window |
| FallbackManager.ConnectProxyManager.ResolveFailureWindow | controller/connect_proxy.go:631-659 | A window with nobody in flight commits when ready, waits for fallbacks, or expires open |
| FallbackManager.ConnectProxyManager.CommitCooldown | controller/connect_proxy.go:661-683 | The committed cooldown: cause, failure count, retry time and new epoch |
| FallbackManager.ConnectProxyManager.CooldownForCause | controller/connect_proxy.go:979-1005 | The delay of a cause is the closed-form backoff over its configured or default bounds |
| FallbackManager.ConnectProxyManager.NoteHTTP3Degradation | controller/connect_proxy.go:725-777 | A degradation report ages and adds strikes, and from the second on starts a fallback window |
| RuleBreakerRuns.NoLockoutWithoutProof | controller/connect_proxy_h3_rule_breaker.go:476-632 | In every reachable state a rule cooling down or on probation has, since it left Closed, had an H2 validation of that evaluation report reachable strictly before its deadline, and its failure count is 1 to 4 |
| RuleBreakerRuns.H3AdmissionIsExclusive | controller/connect_proxy_h3_rule_breaker.go:191-247 | While a rule is not Closed the only H3 admission makes its caller the single probation owner, from a due cooldown and under a new token; a held route lease is consumable only by its token and endpoint, and implies cooldown |
| RuleBreakerRuns.StaleTokensChangeNothing | controller/connect_proxy_h3_rule_breaker.go:295-445 | Every operation under a token the rule no longer holds leaves the rule exactly as it was |
| RuleBreakerRuns.EvaluationCountsItsReporters | controller/connect_proxy_h3_blackhole.go:249-375 | During an evaluation the in-flight count equals the validations that still owe a report under its token |
| RuleBreakerRuns.RecoveryNeedsEvidence | controller/connect_proxy_h3_rule_breaker.go:804-892 | Probation returns to Closed only at least 30 s after binding, with everything observed on the bound QUIC generation, the payload or packet minimum met, and three healthy samples 2 s apart with nothing unhealthy sampled since the first |
| RuleBreakerRuns.LateSampleEndsProbation | controller/connect_proxy_h3_rule_breaker.go:804-892 | Any sampled observation of the bound generation at 90 s or later ends the probation |
| RuleBreakerRecovery.RecoveryExactly | controller/connect_proxy_h3_rule_breaker.go:804-892 | Over every run a sampled, unbroken observation of the bound generation closes the rule if and only if H3 has been earned back: 30 s since binding, 512 KiB of payload or 256 packets, and three healthy samples 2 s apart; otherwise from 90 s on it fails the probation with min(4, failures + 1) and 5, 10, 20 or 30 minutes of cooldown, and before that it goes on |
| RuleBreakerRecovery.ThreeCountedExactly | controller/connect_proxy_h3_rule_breaker.go:833-892 | Counting samples greedily finds three if and only if some three healthy ones are 2 s apart with nothing unhealthy sampled since the first |
| RuleBreakerRecovery.OtherObservations | controller/connect_proxy_h3_rule_breaker.go:804-845 | A broken observation of the bound generation fails the probation; an unsampled or foreign one decides nothing |
| RuleBreakerHistory.AdmissionExactly | controller/connect_proxy_h3_rule_breaker.go:191-247 | What every dial gets in every reachable state, from the history of the rule: H3, an H2 validation, nothing, or H3 on probation exactly when the cooldown is over and the held route lease, if any, is the caller's |
| RuleBreakerHistory.LeaseExactly | controller/connect_proxy_h3_rule_breaker.go:295-314 | In every reachable state a route lease is granted exactly by a cooldown that is over and has no holder |
| RuleBreakerHistory.DegradationOpensExactly | controller/connect_proxy_h3_rule_breaker.go:657-795 | In every run a degradation opens an evaluation of a closed rule exactly when no remembered report is of the same connection and some remembered report is independent of it |
| RuleBreakerHistory.ReportExactly | controller/connect_proxy_h3_rule_breaker.go:476-554 | What every validation report does in every run: nothing off its evaluation, closing when overdue, committing a 5 minute cooldown when reachable in time, leaving or closing when not |
| RuleBreakerHistory.BindExactly | controller/connect_proxy_h3_rule_breaker.go:384-404 | Who may bind a probation, and to what; everybody else changes nothing |
| RuleBreakerHistory.ProbationEndsExactly | controller/connect_proxy_h3_rule_breaker.go:420-610 | Abort costs 30 s and no failure, a failure or a degradation of its own connection one more failure; other reports leave the probation alone |
| RuleBreakerHistory.BlackholeExactly | controller/connect_proxy_h3_blackhole.go:249-313 | What every blackhole report gets in every run, by phase and clock |
| RuleBreakerHistory.ProbeLeavesExactly | controller/connect_proxy_h3_blackhole.go:423-485 | In every run a probe that is given up or left without scopes closes an evaluation a blackhole report had opened, and only leaves the cohort of one that degradations had opened; a pruning keeps the probe exactly if some scope is not both evaluated and inactive |
| RuleBreakerHistory.ArmingExactly | controller/connect_proxy_h3_blackhole.go:508-533 | What every arming report answers in every run: the cooldown is kept exactly while others of its commit still arm or once one has armed; otherwise the rule closes; a report under another commit changes nothing |
| RuleBreakerHistory.CommittedScopesWaitInCooldown | controller/connect_proxy_h3_blackhole.go:392-405 | In every run scopes to be drained wait only while the rule cools down: the committing evaluation hands over all of its scopes, they are taken together, and whatever ends the cooldown forgets them |
| RuleBreakerRuns.LastArmingReportDecides | controller/connect_proxy_h3_blackhole.go:508-533 | When the last arming participant of a commit token reports, the cooldown is kept if and only if some participant armed a drain |
| RuleBreakerRuns.ScopesAreTheUnprunedReports | controller/connect_proxy_h3_blackhole.go:377-467 | Over every run, the scopes of the running evaluation are exactly those some blackhole report put into it and no later pruning of it both evaluated and found inactive |
| RuleBreakerRuns.PrunedReturnsOnlyByReport | controller/connect_proxy_h3_blackhole.go:377-467 | In every run a scope pruned from an evaluation is listed in it again only after a newer report |
| RuleBreakerRuns.ReportedSinceSnapshotStays | controller/connect_proxy_h3_blackhole.go:176-193 | In every run a scope reported after a snapshot stays, whatever prunings work from snapshots without it |
| RuleBreakerRuns.PruningIsExact | controller/connect_proxy_h3_blackhole.go:423-467 | One pruning removes exactly the scopes that were in its snapshot and were found inactive |
| RuleBreakerRuns.WithoutStaleIsExact | controller/connect_proxy_h3_blackhole.go:423-467 | The scope filter keeps a scope if and only if it was listed and is not both evaluated and inactive |
| RuleBreakerRuns.RunKeepsInv | controller/connect_proxy_h3_rule_breaker.go:191-892 | Phase shape, token discipline, validator and arming ledgers hold after every legal run |
| RuleBreakerObject.FilterRecent | controller/connect_proxy_h3_rule_breaker.go:657-750 | The in-place filter of recent degradations keeps exactly those in the window and reports duplicates |
| RuleBreakerObject.CorroboratedBy | controller/connect_proxy_h3_rule_breaker.go:774-795 | The scan decides whether a second, independent event corroborates the current one |
| RuleBreakerObject.PruneStale | controller/connect_proxy_h3_blackhole.go:423-467 | The in-place scope loop computes the specified filter |
| RuleBreakerObject.HTTP3RuleBreaker.Register | controller/connect_proxy_h3_rule_breaker.go:164-177 | A rule starts Closed and keeps its state when registered for further endpoints |
| RuleBreakerObject.HTTP3RuleBreaker.BeginLeased | controller/connect_proxy_h3_rule_breaker.go:191-247 | Admission refines the specified step, in place |
| RuleBreakerObject.HTTP3RuleBreaker.ClaimRecoveryRouteProbe | controller/connect_proxy_h3_rule_breaker.go:295-314 | A route lease is claimed only in a due cooldown without a holder |
| RuleBreakerObject.HTTP3RuleBreaker.ReleaseRecoveryRouteProbe | controller/connect_proxy_h3_rule_breaker.go:316-339 | Only the holder gives a route lease back, and the retry is deferred; the result says whether the token was a route-probe token of a named rule at all |
| RuleBreakerObject.HTTP3RuleBreaker.EstablishProbation | controller/connect_proxy_h3_rule_breaker.go:384-404 | The owner binds its probation to one QUIC generation and its initial counters |
| RuleBreakerObject.HTTP3RuleBreaker.AbortProbation | controller/connect_proxy_h3_rule_breaker.go:420-445 | An aborted probation goes back to a cooldown without another failure |
| RuleBreakerObject.HTTP3RuleBreaker.FailProbation | controller/connect_proxy_h3_rule_breaker.go:580-610 | A failed probation re-enters cooldown with one more failure |
| RuleBreakerObject.HTTP3RuleBreaker.ReenterCooldown | controller/connect_proxy_h3_rule_breaker.go:612-632 | The next cooldown: failure count capped at four, its delay and deadline |
| RuleBreakerObject.HTTP3RuleBreaker.ObserveH2Validation | controller/connect_proxy_h3_rule_breaker.go:476-554 | A validation report counts only under the current token and before the deadline; reachable commits |
| RuleBreakerObject.HTTP3RuleBreaker.NoteRuleDegradation | controller/connect_proxy_h3_rule_breaker.go:657-750 | Every rule of the endpoint takes the degradation step and no other rule changes; one token is drawn for each rule that starts an evaluation, all of them different; the result lists each rule whose probation it ended, once |
| RuleBreakerObject.HTTP3RuleBreaker.NoteRuleSample | controller/connect_proxy_h3_rule_breaker.go:804-892 | Every rule of the endpoint takes the sample step, which `RuleBreakerRecovery.RecoveryExactly` decides both ways; no other rule changes |
| RuleBreakerObject.HTTP3RuleBreaker.BeginUDPBlackholeValidation | controller/connect_proxy_h3_blackhole.go:249-313 | A blackhole report opens or joins an evaluation, joins the arming of a committed cooldown, or renews a due cooldown or a probation as a failure; a token is drawn exactly when it opens an evaluation |
| RuleBreakerObject.HTTP3RuleBreaker.CompleteUDPBlackholeValidation | controller/connect_proxy_h3_blackhole.go:315-375 | A validation result commits, waits, expires or is stale |
| RuleBreakerObject.HTTP3RuleBreaker.RetainUDPBlackholeScopes | controller/connect_proxy_h3_blackhole.go:423-467 | The evaluated-and-stale scopes go; left without scopes, the probe leaves its cohort and closes an evaluation that blackhole reports alone had opened |
| RuleBreakerObject.HTTP3RuleBreaker.AbandonUDPBlackholeProbe | controller/connect_proxy_h3_blackhole.go:469-485 | A given-up probe leaves its cohort and closes an evaluation that blackhole reports alone had opened |
| RuleBreakerObject.HTTP3RuleBreaker.TakeCommittedUDPBlackholes | controller/connect_proxy_h3_blackhole.go:392-405 | Committed scopes are handed out once |
| RuleBreakerObject.HTTP3RuleBreaker.FinishUDPBlackholeArming | controller/connect_proxy_h3_blackhole.go:508-533 | An arming report is counted under its commit token only |
| WinnerCacheRuns.PublishesIffUntouched | controller/boost.go:221-284 | A decision publishes if and only if it is of this cache and unreleased, its captured expiry has not passed, and no store, delete, eviction or expiry touched its key since it began |
| WinnerCacheRuns.OneWinnerPerView | controller/boost.go:221-284 | Once one decision of a shared view has published, no run lets another of that view publish |
| WinnerCacheRuns.TokenNamesOneStore | controller/boost.go:286-326 | Whatever the run, a token deletes if and only if its key is untouched since the store it names, even if the same address was stored again, and replaces only if that entry is also live |
| WinnerCacheRuns.ReconcilingSparesNewerWinners | controller/boost.go:332-353 | Reconciling a request that began from a cached winner leaves every newer winner alone, and a neutral failure changes nothing |
| WinnerCacheRuns.ReferencesAreUnreleasedDecisions | controller/boost.go:221-262 | Each decision state counts exactly its unreleased decisions; with all released the registry is empty |
| WinnerCacheRuns.CacheIsBounded | controller/boost.go:197-219 | The cache never exceeds 256 entries, from an empty or an inherited start |
| WinnerCacheRuns.StoredWinnerLives | controller/boost.go:121-219 | In every run a load within 30 s of an untouched store finds that address, and from 30 s on it finds none |
| WinnerCacheRuns.PublishesIffCurrentEntryLives | controller/boost.go:221-284 | A decision publishes if and only if it is unreleased, of this cache, its key untouched since it began, and the winner it saw, if any, still alive |
| WinnerCacheRuns.ReconcileExactly | controller/boost.go:332-353 | Which of the four endings deletes, replaces or leaves the winner, for every answer |
| WinnerCacheRuns.InheritWinners | controller/runtime_state.go:136-150 | The inheritance loop takes over exactly the live winners of unchanged rules, keeps the bound and raises the generation counter above all of them |
| WinnerCache.WinnerCacheRegistry.Load | controller/boost.go:121-134 | A live entry is returned; an expired one is deleted |
| WinnerCache.WinnerCacheRegistry.StoreLocked | controller/boost.go:197-219 | Stores under a new generation, evicting one entry only when full |
| WinnerCache.WinnerCacheRegistry.BeginDecision | controller/boost.go:221-238 | A decision joins or opens the identity of its key and captures the expiry it saw |
| WinnerCache.WinnerCacheRegistry.ReleaseDecision | controller/boost.go:240-262 | A decision gives up its reference once; the last one removes the identity |
| WinnerCache.WinnerCacheRegistry.PublishDecision | controller/boost.go:264-284 | Publishes only a current decision, and releases it either way |
| WinnerCache.WinnerCacheRegistry.ReplaceWinnerIfCurrent | controller/boost.go:286-297 | Replaces only the exact live entry of the token |
| WinnerCache.WinnerCacheRegistry.DeleteWinnerIfCurrent | controller/boost.go:314-326 | Deletes only the exact entry of the token |
| WinnerCache.WinnerCacheRegistry.ReconcileCachedWinner | controller/boost.go:332-353 | The four endings of a request that began from a cached winner |
| BoostRace.RaceBoostTargets | controller/boost.go:832-1104 | Whatever the candidates report and whenever the caller gives up: the trace is orderly at every moment, nobody is in flight at the end, no connection is open but the one returned; CONNECT rules dial at most two targets (connect_proxy_policy.go:15-23), others each target once; a failure means nothing connected and, unless capacity ran out, that the attempts (min(2, targets) for CONNECT, all targets otherwise), the targets or the selector's offers are exhausted; the reason reported is the one the trace tells |
| BoostRace.OrderlyThroughout | controller/boost.go:867-1003 | At every prefix of an orderly race at most two candidates are in flight, launches not known to have stopped before dialing stay within the attempt limit, each address is launched once and reports once |
| BoostRace.LaunchAvailable | controller/boost.go:867-994 | The refill loop launches within free slots and attempts, an awaited recovery candidate first and alone, and launches nothing with slots, attempts and targets left only if the selector offered nothing |
| BoostRace.LaunchPass | controller/boost.go:880-990 | One pass takes the recovery candidate or the selector's answer: a reserved probe at its head goes alone, only an explorer or an unhealthy target is passed over, and an empty answer changes nothing |
| BoostRace.LaunchBatch | controller/boost.go:902-990 | One pass over the candidates in their order: skips the attempted, stops when full or out of attempts, a canary goes alone and recovery first, and at least one new address is tried |
| BoostRace.Continue | controller/boost.go:1027-1075 | A result that does not win is closed, refunded exactly when it never dialed, and its slot refilled unless capacity is limited |
| BoostRace.Decide | controller/boost.go:1010-1026 | A winner waits for all losers and closes them; cancellation closes the winner too |
| BoostRace.Drain | controller/boost.go:995-1002 | Every outstanding result is received and its connection closed |
| BoostRace.ReceiptKeepsInv | controller/boost.go:1008-1060 | Receiving a result keeps the ledger, and a refund gives back exactly one attempt |
| BoostRace.LaunchKeepsInv | controller/boost.go:924-926 | A launch keeps both bounds |
| DialBulkhead.RunKeepsInv | controller/dial_bulkhead.go:135-324 | Over every run: active equals unreleased permits plus unclaimed grants, per target too, within both limits; no queued waiter is admissible; the queue is in arrival order and no later caller for a target holds a slot while an earlier one waits |
| DialBulkhead.EveryReleaseServesFirst | controller/dial_bulkhead.go:259-324 | In every reachable state a release, or the cancellation of a granted waiter, grants the first admissible waiter in queue order and nobody else |
| DialBulkhead.ReleaseGrantsFirstAdmissible | controller/dial_bulkhead.go:277-324 | The granting scan after one vacated slot equals granting the first admissible waiter, and keeps the invariant |
| DialBulkhead.NewcomerNeverOvertakes | controller/dial_bulkhead.go:159-257 | Whoever is admitted on arrival finds nobody queued for that target |
| DialBulkhead.LevelsAgree | controller/dial_bulkhead.go:135-155 | In every reachable state the per-target counters add up to the global one |
| DialBulkhead.EntriesAreInUse | controller/dial_bulkhead.go:302-311 | In every run no target keeps a counter without a slot in use |
| DialBulkhead.IdleBulkheadHasNoWaiters | controller/dial_bulkhead.go:277-324 | With every slot back the queue is empty |
| DialBulkhead.AdmissionExactly | controller/dial_bulkhead.go:135-257 | In every run an arrival gets a slot exactly when the slots held, counting unclaimed grants, are below the global and the target limit; otherwise it is refused with the scope that is full, or queued last |
| DialBulkhead.LeavingExactly | controller/dial_bulkhead.go:259-324 | In every run a cancelled waiter alone leaves the queue, a claim turns exactly its grant into a permit, and unknown waiters and released permits change nothing |
| DialBulkhead.Bulkhead.TryAcquirePermit | controller/dial_bulkhead.go:227-255 | Immediate admission or the saturated scope, never a waiter |
| DialBulkhead.Bulkhead.EnterAcquire | controller/dial_bulkhead.go:170-183 | A slot at once or a place at the end of the queue |
| DialBulkhead.Bulkhead.ClaimGrant | controller/dial_bulkhead.go:204-210 | A waiter picks up its grant as a permit; no counter moves |
| DialBulkhead.Bulkhead.GrantWaitersLocked | controller/dial_bulkhead.go:277-300 | The list walk that removes granted waiters as it goes refines the specified scan |
| DialBulkhead.Bulkhead.CancelWaiter | controller/dial_bulkhead.go:259-275 | A queued waiter leaves; a granted one hands its slot on; the scope is the one before |
| DialBulkhead.Bulkhead.ReleasePermit | controller/dial_bulkhead.go:313-324 | A permit gives its slot back once |
| DialBulkhead.Bulkhead.ReleaseLocked | controller/dial_bulkhead.go:302-311 | Both counters go down and an empty target entry is removed |
| RouteCircuitRuns.AtMostOneProbe | controller/route_health.go:460-485 | In every reachable state a route has at most one unfinished half-open attempt |
| RouteCircuitRuns.OpenRouteAdmission | controller/route_health.go:460-485 | An open route admits an attempt if and only if its scheduled cooldown of at least 5 s has passed since it last opened and no half-open attempt of it is unfinished |
| RouteCircuitRuns.OnlyTheProbeMovesAnOpenCircuit | controller/route_health.go:492-656 | Nothing but the end of its own half-open attempt moves an open circuit |
| RouteCircuitRuns.RecoveryIsFinal | controller/route_health.go:548-590 | Once a half-open attempt recovers a route, no report of an earlier attempt of that route ever changes anything again |
| RouteCircuitRuns.SharedFailureCountsOnce | controller/route_health.go:104-116 | A physical failure shared by many attempts moves a route at most once in every run |
| RouteCircuitRuns.RunKeepsInv | controller/route_health.go:460-656 | Cooldown is always 0, 5, 10, 20, 40 or 60 s and nonzero while open; closed implies fewer than three consecutive dial failures; open implies observed |
| RouteCircuitRuns.RelayStreakAfterRecovery | controller/route_health.go:532-581 | Closing a circuit leaves the relay streak below three if and only if it already was or the answer was "reachable" |
| RouteCircuitRuns.ClosedWithFullRelayStreak | controller/route_health.go:565-581 | Concrete run: a closed circuit with three relay failures |
| RouteCircuitRuns.OnlyRecoveryLeavesAFullStreak | controller/route_health.go:606-645 | No other step leaves a closed route with a full relay streak |
| RouteCircuitHistory.RouteIsItsHistory | controller/route_health.go:460-656 | In every reachable state a route is what its history says: open or closed, both streaks, a wait of 5, 10, 20, 40 or 60 s by the number of openings in a row, its latency average, its last attempt, next probe and last recovery |
| RouteCircuitHistory.OpensExactlyAtThree | controller/route_health.go:492-624 | In every run a closed route opens exactly at the third counted dial failure in a row or the third relay failure since traffic was last proved |
| RouteCircuitHistory.ClosedRouteAdmits | controller/route_health.go:460-485 | A closed route admits every attempt and numbers it; a nameless target is let through without one |
| RouteCircuitRuns.InheritRoutes | controller/runtime_state.go:115-132 | The inheritance loop copies every known route without attempts or probe ownership |
| RouteCircuitRuns.InheritedRunsKeepInv | controller/runtime_state.go:115-132 | A registry that inherits from a reachable one starts with, and keeps, every circuit invariant |
| RouteCircuit.RouteHealthRegistry.BeginAttempt | controller/route_health.go:460-485 | Admission or refusal, and the half-open claim, in place |
| RouteCircuit.RouteHealthRegistry.RouteObserve | controller/route_health.go:492-602 | Cancelled, stale, duplicate, reachable, successful and failed results, in place |
| RouteCircuit.RouteHealthRegistry.ClaimFailure | controller/route_health.go:104-116 | The first claim of a physical failure for a route succeeds, later ones do not |
| RouteCircuit.RouteHealthRegistry.RouteReportFailure | controller/route_health.go:606-624 | A relay failure counts on a closed circuit of the current recovery and may open it |
| RouteCircuit.RouteHealthRegistry.RouteReportSuccess | controller/route_health.go:626-645 | Relayed traffic clears both streaks and the cooldown |
| TargetSelector.SelectTargetSelections | controller/route_health.go:760-999 | Any limit: distinct addresses, exactly min(limit, offered) of the offered targets, all of them when the limit allows. Order by the routes alone: the reserved probe with its token; with unknown and measured routes present the cheapest measured one; unknown routes by penalty, last attempt and position; known ones by latency (1 s without a sample) + 1 s per failure of the longer streak + penalty, then position; with no probe and nothing unknown the stalest route not tried for 30 s moves to the second place and is marked |
| TargetSelector.RankedExactly | controller/route_health.go:786-891 | A target is ranked if and only if it is named, not excluded, first with its address, not known open, not the probe, and unpenalised whenever some such target is; and when penalties are asked again |
| TargetSelector.ProbeExactly | controller/route_health.go:838-863 | The reserved probe is the claimable target of least cost, ties by position; none exactly if none is wanted or claimable |
| TargetSelector.RankingIsRankOrder | controller/route_health.go:897-950 | The assembled ranking is in the order of the routes' costs |
| TargetSelector.RankingIsUnique | controller/route_health.go:897-915 | The sorted lists behind a selection are determined by the input, so its order is no matter of choice |
| TargetSelector.OpenCircuitsAreNotOffered | controller/route_health.go:801-817 | In every reachable state of the circuits no target with an open circuit is offered |
| TargetSelector.Classify | controller/route_health.go:788-831 | The loop over targets lists exactly the admissible unknown and known routes, each address once |
| TargetSelector.ReserveProbe | controller/route_health.go:840-863 | A probe is reserved exactly when some penalised target can be claimed, and it is the cheapest such |
| TargetSelector.Refresh | controller/route_health.go:864-882 | Penalties asked again adjust every score in place |
| TargetSelector.SortCandidates | controller/route_health.go:852-915 | A sorted permutation under the stated order |
| TargetSelector.Assemble | controller/route_health.go:916-950 | The append loops produce exactly a prefix of the full ranking |
| TargetSelector.FindExplorer | controller/route_health.go:959-979 | The stalest due route besides the best, by last attempt and then position |
| TargetSelector.PlaceExplorer | controller/route_health.go:951-998 | When some route besides the best is due, the stalest such holds the second place: it had it, is swapped into it, or replaces the entry there; otherwise nothing moves |
| TargetSelector.ExploredPermutes | controller/route_health.go:980-997 | On a complete list the explorer step only permutes |
| ClientHelloReader.FragmentationIsInvisible | controller/tls_clienthello.go:45-105 | Any cut of a ClientHello message into records, empty ones included, reads as the parse of its body and consumes exactly those records if they fit the limit, and is too large otherwise |
| ClientHelloReader.FragmentationsAgree | controller/tls_clienthello.go:45-105 | Two ways to cut the same message give the same answer |
| ClientHelloReader.HelloRoundTrip | controller/tls_clienthello.go:45-225 | Any record split of any well-formed hello yields its server name and protocols |
| ClientHelloReader.AcceptsExactlyStreams | controller/tls_clienthello.go:45-299 | A probe succeeds if and only if the stream starts with handshake records, within maxBytes, that carry a well-formed hello ending in the last of them; it then reads what that hello carries |
| ClientHelloReader.RecordRefused | controller/tls_clienthello.go:54-81 | In numbers, at every record: type not 22, version not 3 or length over 16384 is malformed, one that does not fit the limit too large, one that does not arrive truncated, and what was read is kept |
| ClientHelloReader.MessageRefused | controller/tls_clienthello.go:82-95 | A handshake type other than 1 is malformed, a declared length over the limit too large, and fewer bytes than declared wait for more records |
| ClientHelloReader.ReadIsLossless | controller/tls_clienthello.go:45-117 | On success and on every error the bytes consumed are a prefix of the input no longer than maxBytes |
| ClientHello.AcceptsExactlyHellos | controller/tls_clienthello.go:119-299 | The body parser accepts exactly the encodings of well-formed hellos and reads from each what it carries |
| ClientHello.AlpnOnTheWire | controller/tls_clienthello.go:181-225 | An extension block [0, 16] with any fitting protocol list, in wire bytes, reads as that list |
| ClientHello.ServerNameOnTheWire | controller/tls_clienthello.go:181-268 | An extension block [0, 0] with one entry of type byte 0, in wire bytes, reads as its host name |
| ClientHello.OtherKindsAddNothing | controller/tls_clienthello.go:198-225 | Every other extension kind adds nothing |
| ClientHello.Http2OnTheWire | controller/tls_clienthello.go:216-225 | The nine bytes 0 16 0 5 0 3 2 h 2 read as the one protocol "h2" |
| ClientHelloReader.RecordOnTheWire | controller/tls_clienthello.go:45-105 | A record of type byte 22 and version byte 3 holding handshake type 1, with big-endian lengths, in wire bytes, reads as the parse of its body |
| ClientHello.BodyRoundTrip | controller/tls_clienthello.go:119-225 | Parsing an encoded hello returns the encoded server name and protocol list |
| ClientHello.NamesRoundTrip | controller/tls_clienthello.go:227-268 | Server name lists: the one host name comes back, other name types are skipped |
| ClientHello.ProtocolsRoundTrip | controller/tls_clienthello.go:270-299 | Protocol lists come back in order |
| ClientHelloObject.ReadClientHello | controller/tls_clienthello.go:45-105 | The reading loop refines the record protocol; Raw followed by the unread stream is the original stream, with Raw within maxBytes |
| ClientHelloObject.ReadBytes | controller/tls_clienthello.go:107-117 | Reads are refused beyond the limit, and whatever arrives is retained |
| ClientHelloObject.ParseClientHelloBody | controller/tls_clienthello.go:119-179 | The cursor-driven parser refines the specified one |
| ClientHelloObject.ParseExtensionList | controller/tls_clienthello.go:181-225 | The extension loop refines the specified one, with duplicates, limits and errors |
| ClientHelloObject.ParseServerNameExtension | controller/tls_clienthello.go:227-268 | The server name loop refines the specified one |
| ClientHelloObject.ParseAlpnExtension | controller/tls_clienthello.go:270-299 | The protocol loop refines the specified one |
| ClientHelloObject.Cursor.Take | controller/tls_clienthello.go:341-349 | Advances exactly over what it returns, or not at all |
| ServerName.ValidateServerName | controller/tls_clienthello.go:301-330 | The byte loop accepts exactly names of 1 to 253 bytes all of whose dot-separated labels are valid |
| ServerName.ValidNameIsJoinedLabels | controller/tls_clienthello.go:301-330 | A name is valid if and only if it has 1 to 253 bytes and is some sequence of valid labels joined by dots |
| ProxyProtocolLaws.HeaderRoundTrip | controller/proxy_protocol.go:66-440 | Whatever canonical header can be written, v1 or v2, is read back from the written bytes, leaving exactly the trailing bytes |
| ProxyProtocolWire.AcceptsExactlyHeaders | controller/proxy_protocol.go:66-335 | The reader returns a header and leaves the rest if and only if the stream is a sentence of the byte grammar for that header followed by the rest: "PROXY " lines of at most 108 bytes with the first CR LF at their end, UNKNOWN or five fields of one family; binary headers with command, family, big-endian length of at most 4096, addresses, ports and TLVs |
| ProxyProtocolWire.RefusesExactly | controller/proxy_protocol.go:112-257 | After a signature, what is not accepted is refused as malformed, too large or cut off, and exactly when each |
| ProxyProtocolWire.EndsInSignature | controller/proxy_protocol.go:74-87 | A stream that ends inside a signature is cut off; an empty one has ended |
| ProxyProtocolWire.WritesExactly | controller/proxy_protocol.go:340-440 | The written bytes of every header, literally, and exactly which headers are refused |
| ProxyProtocolLaws.DetectionKeepsForeignStreams | controller/proxy_protocol.go:66-110 | Bytes are replayed if and only if the stream neither starts with a signature nor ends inside one; then at most 12 bytes, the shortest prefix that starts no signature, and replay followed by the rest is the stream |
| ProxyProtocolLaws.V2RoundTrip | controller/proxy_protocol.go:203-321 | A v2 header followed by any valid TLVs within the payload limit reads as the same header |
| ProxyProtocolLaws.V1RoundTrip | controller/proxy_protocol.go:112-173 | A written v1 line, UNKNOWN or TCP, reads back, with the address text as an inverse pair |
| ProxyProtocolLaws.TlvValidationIsExact | controller/proxy_protocol.go:323-335 | TLV validation accepts exactly the concatenations of type-length-value items |
| ProxyProtocol.PortSpellingIsUnique | controller/proxy_protocol.go:192-201 | Every port has exactly one accepted spelling |
| ProxyProtocol.PortRoundTrip | controller/proxy_protocol.go:192-201 | Every port is read back from its decimal text |
| ProxyProtocolObject.ReadProxyProtocolHeader | controller/proxy_protocol.go:66-110 | The byte-by-byte detection loop refines the specified reader, and a replay loses nothing of the stream |
| ProxyProtocolObject.ReadProxyProtocolV1 | controller/proxy_protocol.go:112-128 | The line loop refines the specified reader, including the 108-byte limit |
| ProxyProtocolObject.ReadProxyProtocolV2 | controller/proxy_protocol.go:203-257 | The fixed part and payload are consumed as specified, with every error |
| ProxyProtocolObject.ValidateTlvs | controller/proxy_protocol.go:323-335 | The TLV loop refines the specified validation |
| ProxyProtocolObject.WriteProxyProtocolHeader | controller/proxy_protocol.go:340-412 | The buffer-appending writer produces the canonical encoding or refuses |
| DetectorRuns.BlackholeVerdict | controller/connect_proxy_h3_degradation.go:374-452 | In any sequence of samples a blackhole verdict implies a suffix of accepted samples with gaps of at most 6 s, spanning at least 10 s, with nothing received and no payload, sends in at least two intervals, and two consecutive samples past warm-up and stalled for 8 s |
| DetectorRuns.LatchedBlackholeWasShown | controller/connect_proxy_h3_degradation.go:303-348 | A latched blackhole verdict, however much later it is read, was produced by a sample of the run that showed all of this itself |
| DetectorRuns.QuietMeansNothingArrived | controller/connect_proxy_h3_degradation.go:384-394 | Over such a suffix the received and payload counters stand still |
| DetectorRuns.WindowSumsNeverSaturate | controller/connect_proxy_h3_degradation.go:490-517 | In every reachable state the saturating window sums are plain counter differences |
| DetectorRuns.SumTelescopes | controller/connect_proxy_h3_degradation.go:504-517 | The saturating sum of consecutive deltas telescopes |
| DetectorRuns.RotateNeverClears | controller/connect_proxy_h3_degradation.go:171-348 | A rotate verdict never clears, and only a blackhole replaces its reason |
| DetectorRuns.SustainedVerdict | controller/connect_proxy_h3_degradation.go:326-340 | A sustained verdict has three consecutive accepted samples behind it, all past warm-up, each with two bad signals |
| DetectorHistory.VerdictExactly | controller/connect_proxy_h3_degradation.go:171-464 | Every verdict of every run from the accepted samples alone: nothing in the first 15 s; a blackhole exactly on the second confirmation of 8 s of silence; then what was latched; then severe; then three bad samples in a row |
| DetectorHistory.AcceptsExactly | controller/connect_proxy_h3_degradation.go:171-225 | A sample is accepted exactly if it has a time, no error, and comes at least 2 s after the last |
| DetectorRuns.RunKeepsInv | controller/connect_proxy_h3_degradation.go:171-464 | The window, the watch and the bad-window count describe the accepted samples after every sequence |
| Detector.DegradationDetector.ObserveSample | controller/connect_proxy_h3_degradation.go:171-341 | One observation, in place: errors, ignored samples, initialisation and judged intervals |
| Detector.DegradationDetector.ObserveUdpBlackhole | controller/connect_proxy_h3_degradation.go:374-452 | The blackhole watch, in place |
| Detector.DegradationDetector.TrimWindow | controller/connect_proxy_h3_degradation.go:490-502 | Deltas that left the 12 s window are dropped |
| Detector.DegradationDetector.ConcludeSample | controller/connect_proxy_h3_degradation.go:297-341 | Warm-up, blackhole, latched, severe and sustained verdicts |
| Detector.SumWindow | controller/connect_proxy_h3_degradation.go:504-517 | The summing loop computes the saturating sum |
| Generations.CleanupExactlyOnce | controller/generation.go:122-197 | In every reachable state refs equals live leases, and cleanup has been triggered exactly once if the generation is retired, its background stopped and no lease left, and not at all otherwise |
| Generations.LeasedGenerationsStayUp | controller/generation.go:122-197 | Whoever holds a lease holds a generation whose cleanup has not even been triggered |
| Generations.BindingIsPublishedAtRecheck | controller/server.go:448-469 | A thread comes to hold a binding only when its generation is still published at the recheck and its lease counted |
| Generations.RetiredAreBounded | controller/server_reload.go:58-170 | At most eight retired generations are tracked, each published earlier under its own id |
| Generations.ReloadBoundExactly | controller/server_reload.go:58-170 | In every run each replaced generation is tracked until its cleanup has finished, and a reload is turned away exactly when eight are unfinished |
| Generations.GatesExactly | controller/server.go:448-469 | In every reachable state a lease is given unless the generation is retired, kept exactly if it is still published at the recheck, and a commit publishes the prepared generation |
| Generations.StepsExactly | controller/server_reload.go:36-170 | What may happen next in every reachable state, by where each thread, the reload and each generation stand: a held lease can always be dropped, a staged reload commits unless the server has closed, and cleanup runs exactly once it is triggered |
| Generations.FirstReload | controller/server_reload.go:36-170 | Concrete run: the first reload publishes generation 2 and tracks generation 1 |
| Generations.PublishedIdsGrow | controller/server_reload.go:36-147 | Published ids only grow: a replaced generation is never published again |
| Generations.RunKeepsInv | controller/server_reload.go:17-170 | Lease counts, the gate, the reload and the tracking invariants hold after every interleaving |
| Generations.PruneCompletedRetired | controller/server.go:853-861 | Pruning forgets exactly the generations whose cleanup has finished |
| Generations.RoutingGeneration.TryAcquireLease | controller/generation.go:122-133 | A lease only on a generation that is not retired |
| Generations.RoutingGeneration.ReleaseLease | controller/generation.go:135-149 | A release triggers cleanup exactly when it is the last after retirement |
| Generations.RoutingGeneration.BeginRetire | controller/generation.go:165-176 | Only the first retire call goes on |
| Generations.RoutingGeneration.FinishRetire | controller/generation.go:178-187 | The end of retirement triggers cleanup when no lease is left |

## Left out

- Network I/O and transports (H2, H3, uTLS, rotation, drains, direct dials): their results are arbitrary inputs here.
- The cached-winner hedge race (raceCachedBoostTargetWithDial): its timers add noise to the scheduling properties the fresh race already carries.
- Prewarmed sockets: the pooled path begins a route attempt without observing it, so no claim is made that half-open is always released.
- Metrics, gauges, logging, error texts, and the recovery-result classification that only feeds them.
- Configuration loading and validation, SOCKS5 and HTTP/1.1 front ends, relay copying and mode handlers.
- Exploration and recovery leases of a rule (claimExploration, claimRecoveryProbe): single-slot leases with a token and an expiry; their outcome is an arbitrary input of the race.
- Boost probe tokens of an endpoint (claimHTTP3BoostProbe) and the route penalties derived from endpoint state: arbitrary inputs of the selector.
- registry.clear and active-health inheritance: they only drop or copy entries.
- Nil receivers, nil readers and nil contexts; 64-bit wrap-around of tokens, epochs, attempt ids and generation ids.
- Pointer identity: route, endpoint and rule states are map entries replaced as values, and decision, permit, waiter and generation identities are numbers; no two holders alias one state except through those numbers.
- FallbackManager.RunKeepsInv: dials follow the settlement discipline of dialForRule (each admitted participant settles once per stage); a caller that settles twice is not modelled.
- RuleBreakerRuns.RunKeepsInv: a probation is established at most once, and route-probe tokens live in their own number space, as the mask bit in the source keeps them apart; every such token is nonzero here, where the source tests the bit.
- BoostRace.RaceBoostTargets: dial and prepare never return the sentinel errors for an unhealthy target, an open circuit or saturated capacity, which only admission returns in the source; the try-only flag is recorded but its effect on admission is part of the arbitrary outcome.
- DialBulkhead.RunKeepsInv: a waiter cancels at most once, as acquire does; the wait timer is the arbitrary moment of the cancellation.
- TargetSelector.SelectTargetSelections: the two library sorts are an insertion sort under the same total orders; penalties and claims are one answer per target and call.
- Detector.DegradationDetector.ObserveSample: of the returned record only the verdict and the blackhole flag are modelled; the other signals feed metrics and logs.
- Detector.DegradationDetector.ConcludeSample: round-trip, loss and throughput signals arrive as booleans of the sample, since they are comparisons of rates; how they combine into a verdict is exact.
- DetectorRuns.BlackholeVerdict: round-trip thresholds, loss and throughput rates are opaque booleans of the sample; the integer counters, window and watch are exact.
- ProxyProtocolLaws.V1RoundTrip: address text is a pair of functions assumed inverse on addresses without a zone and free of space, CR and LF; everything else of the line is modelled byte by byte.
- Generations.BindingIsPublishedAtRecheck: acquireBinding is modelled as its atomic steps, and a thread may retry for ever; listener staging and socket closing are not part of the state.
