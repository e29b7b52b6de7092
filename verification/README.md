# dotvault: a verified model of its concurrent cores

dotvault's daemon keeps one Vault token alive, rotates one client certificate,
serves an SSH agent from several sources, and lets its clients follow and edit
secrets. This project models the parts of it whose correctness depends on whole
runs or interleavings, and proves what those parts promise.

| file | models |
|---|---|
| `RejectLimiter.dfy` | the lock-free rate limiter in `NotifyRejected`, any number of callers |
| `EventQueue.dfy` | the client's event subscription: coalescing queue and wake-up channel |
| `TokenDenylist.dfy` | the bounded cache of rejected tokens |
| `Lifecycle.dfy`, `LifecycleManager.dfy` | the token lifecycle manager, as functions and as the class that updates its fields |
| `LifecycleChecks.dfy` | what one step of the manager does, from the token, the denylist and the answers of the outside alone |
| `LifecycleGate.dfy`, `LifecycleSchedule.dfy`, `LifecycleRecovery.dfy`, `LifecycleStorm.dfy` | what the manager promises over runs: the gate, the schedule, the recovery backoff, the lookups it sends |
| `CertRotation.dfy`, `CertRevocation.dfy`, `CertManager.dfy` | certificate rotation, re-seeding and revocation, with a failure possible at every step |
| `UpstreamAgent.dfy`, `UpstreamRouting.dfy` | the relay to the user's own SSH agents and its routing table |
| `AgentBackend.dfy`, `AgentCache.dfy` | the SSH agent backend and its listing cache |
| `KvPatch.dfy`, `KvRace.dfy` | `kv patch` against other writers, and many patches racing |
| `HeaderDigest.dfy` | the digest of the observability headers |

State that the source updates in place is a class whose methods are proved equal
to functions on its abstract state; the promises are lemmas about those functions
over every run. Protocols are step machines: one step is one critical section, one
atomic operation or one external call. What Vault, the CA, a key store, another
agent or another writer answers is an input, so a statement over all inputs covers
every combination of failures.

## Where the code and its comments differ

The model follows the code. Each case below has a concrete run as a lemma and an
exact condition.

- `internal/auth/lifecycle.go:304-308` says only a call that queues a nudge
  consumes the window. A release overtaken by another caller leaves a window that
  paid for nothing (`OrphanedWindow`; exactly then, `WindowPaidUnlessOrphaned`).
- `internal/auth/lifecycle.go:850-851` says tryReload returns true if and only if a
  candidate produced a working token. It asks only that the lookup returned no error,
  so an expired candidate that lookup still answers is adopted, the flag falls, and
  the next check raises it again (`ExpiredFileFlaps`; exactly then,
  `FallsAreEarnedExactly`).
- `internal/auth/mtls.go:152-154` says a re-seeding preserves the backlog of
  serials awaiting revocation. The lists are made equal before they are compared,
  so nothing is written (`PendingSerialIsLost`; it survives only if empty,
  `ReseedKeepsBacklogOnlyIfEmpty`).
- `internal/agent/upstream.go:223-224` says the table is dropped after a mutation.
  `Lock` and `Unlock` keep it, so a key listed away while locked stays hidden from
  `Sign` after unlocking (`UnlockedKeyStaysHidden`, `RoutedAgreesExactly`).
- `internal/agent/backend.go:537-539` says an invalidation makes a mutation visible
  to the very next List. A refresh already in flight can install the older listing
  after it (`OvertakenRefresh`, `HitsAreComplete`).
- `internal/vault/client.go:238-242` promises no concurrent change is clobbered.
  `kv delete` destroys the version counter, so a secret deleted and put back
  between a patch's read and its write can be overwritten
  (`RecreatedSecretIsOverwritten`, `CheckedExactly`).

## Model

| member | source | states |
|---|---|---|
| `RejectLimiter.QueuedReportsAreSpaced` | internal/auth/lifecycle.go:316-358 | over every interleaving of load, swap, send and release by any number of callers, any two reports that were queued carry stamps at least the window apart, and so never the same one |
| `RejectLimiter.QueuedReportsPerSpan` | internal/auth/lifecycle.go:316-358 | the reports queued with stamps in a span of time, each counted, number at most one more than the windows it holds |
| `RejectLimiter.ChecksPerSpan` | internal/auth/lifecycle.go:571-598 | the out-of-cycle checks the loop takes up within T number at most 2 + (T + d)/window, d the longest any caller took from reading the clock to queueing its report |
| `RejectLimiter.StalledCallersBurst` | internal/auth/lifecycle.go:316-358 | callers that stall in between can have three checks taken up in one instant, so the d is needed |
| `RejectLimiter.StepKeepsInv` | internal/auth/lifecycle.go:328-357 | every atomic step keeps each held stamp clear of all spent and held ones, also when a full channel makes a caller release and another has overtaken it |
| `RejectLimiter.RunKeepsInv` | internal/auth/lifecycle.go:316-358 | the same over whole runs |
| `RejectLimiter.WindowPaidUnlessOrphaned` | internal/auth/lifecycle.go:304-358 | at rest the standing window belongs to a queued report if and only if it was not left behind by an overtaken release |
| `RejectLimiter.ReleaseRestores` | internal/auth/lifecycle.go:335-356 | if no swap of anyone succeeds between a caller's swap and its release, the release leaves the stamp standing that the caller had loaded |
| `RejectLimiter.WindowIsThatOfTheLast` | internal/auth/lifecycle.go:316-358 | in a run whose calls do not overlap the stamp standing at rest is that of the last report queued, or 0 |
| `RejectLimiter.CallQueuesExactly` | internal/auth/lifecycle.go:316-358 | after such a run a call queues its report if and only if the channel is empty and a window has passed since the last report queued, and otherwise leaves no trace |
| `RejectLimiter.OrphanedWindow` | internal/auth/lifecycle.go:304-358 | a run after which a window stands that no report was queued for |
| `EventQueue.Subscription.constructor` | client/events.go:58-85 | a new subscription is empty, unsignalled and open |
| `EventQueue.Subscription.Signal` | client/events.go:130-136 | afterwards the channel holds its one token |
| `EventQueue.Subscription.Push` | client/events.go:105-121 | coalesces per key by higher version, drops the oldest key at the bound, keeps map and order list in step, and signals |
| `EventQueue.Subscription.Next` | client/events.go:140-172 | one pass returns and removes the oldest key's event, or reports closed, or waits; it re-signals exactly when events remain |
| `EventQueue.Subscription.Close` | client/events.go:176-185 | closes and empties the queue |
| `EventQueue.NoWakeUpIsLost` | client/events.go:105-172 | in every reachable interleaving of pushers and readers a pending event has a token in the channel or a thread about to signal or look again |
| `EventQueue.InternalRunsAreShort` | client/events.go:105-172 | threads inside a call come to rest after at most Rank steps, however scheduled |
| `EventQueue.RestingReadersMissNothing` | client/events.go:140-172 | once all threads rest, no reader waits while an event is pending |
| `EventQueue.NoReaderSleepsBesideAnEvent` | client/events.go:105-172 | from every reachable state both of the above: a bounded number of steps leads to a state where no reader sleeps beside an event |
| `EventQueue.QueueStaysCoherent` | client/events.go:85-156 | the order list is duplicate-free, names the map's keys and holds at most 1024; each push is delivered, pending, dropped or coalesced exactly once; keys leave in the order they became pending, and what was delivered and what was dropped together are what left, each in that order |
| `EventQueue.CoalescingKeepsTheHighest` | client/events.go:105-156 | a version is the highest pushed for a key if and only if it is the highest delivered, pending or dropped |
| `EventQueue.NothingCurrentIsLost` | client/events.go:105-156 | without overflow or Close the highest version pushed for a key was delivered or is pending |
| `EventQueue.DeliversAndDropsExactly` | client/events.go:105-185 | Next delivers the oldest pending event, a push of a new key drops the oldest when 1024 are pending, Close drops all, and nothing else delivers or drops |
| `EventQueue.NothingCurrentIsLostUnlessFull` | client/events.go:105-156 | if no push of a new key finds 1024 pending and nobody closes, the highest version pushed for a key was delivered or is pending |
| `EventQueue.PushLeaves` | client/events.go:105-121 | a push keeps the higher version for its key, the earlier event on a tie, and every other key's event but an overflow's oldest |
| `EventQueue.NextSleepsExactly` | client/events.go:140-172 | Next waits if and only if nothing is pending and the subscription is open |
| `EventQueue.StepKeepsInv` | client/events.go:105-185 | every step of every thread keeps the queue's ledger and the wake-up invariant |
| `TokenDenylist.Denylist.constructor` | internal/auth/denylist.go:87-95 | an empty cache that refines the empty record |
| `TokenDenylist.Denylist.Denied` | internal/auth/denylist.go:110-130 | answers whether the token's suppression is unlapsed, drops a lapsed entry, keeps the refinement of the unbounded record |
| `TokenDenylist.Denylist.Deny` | internal/auth/denylist.go:135-155 | records the denial, evicting an oldest entry only when a new token finds the cache full; reports whether the suppression is new |
| `TokenDenylist.Denylist.EvictOldest` | internal/auth/denylist.go:238-249 | removes an entry no other lapses before |
| `TokenDenylist.Denylist.Clear` | internal/auth/denylist.go:178-194 | empties the cache and returns how many entries it held |
| `TokenDenylist.RecentIsSuppressed` | internal/auth/denylist.go:110-155 | a denied token fewer than 16 others followed or tied with is suppressed until its window lapses |
| `TokenDenylist.SuppressedIsRecent` | internal/auth/denylist.go:110-155 | a suppressed token was denied within the window with fewer than 16 denied after it |
| `TokenDenylist.ProbeKeepsRefinement` | internal/auth/denylist.go:110-130 | lazy deletion at a probe loses nothing the record still counts |
| `TokenDenylist.DenyKeepsRefinement` | internal/auth/denylist.go:135-155 | a denial with any argmin victim keeps the refinement |
| `TokenDenylist.VictimIsOutlived` | internal/auth/denylist.go:238-249 | an evicted token has at least 16 others denied after it or with it |
| `TokenDenylist.RunKeepsInv` | internal/auth/denylist.go:110-249 | the refinement holds after any sequence of Deny, Denied and Clear |
| `TokenDenylist.CacheIsLru` | internal/auth/denylist.go:110-249 | with strictly increasing denial times the suppressed tokens are exactly the unlapsed ones among the 16 most recently denied since the last Clear, and the map never exceeds 16 |
| `TokenDenylist.CacheIsLruUpToTies` | internal/auth/denylist.go:110-249 | with simultaneous denials only the order among those is open |
| `Lifecycle.NewConfig` | internal/auth/lifecycle.go:223-241 | the recovery interval is the smaller of ten seconds and the check interval |
| `LifecycleManagement.LifecycleManager.constructor` | internal/auth/lifecycle.go:223-241 | the manager's first state, its timer armed one check interval out, its denylist the one start-up handed over |
| `LifecycleManagement.LifecycleManager.TryReloadToken` | internal/auth/lifecycle.go:861-922 | equals the functional tryReload on the manager's state, views and lookups included |
| `LifecycleManagement.LifecycleManager.PresentCandidate` | internal/auth/lifecycle.go:905-919 | presents one candidate and denies it on a 403 |
| `LifecycleManagement.LifecycleManager.GatherCandidates` | internal/auth/lifecycle.go:861-903 | collects distinct, non-denied candidates in order file, environment, peer |
| `LifecycleManagement.LifecycleManager.NoteRejection` | internal/auth/denylist.go:135-171 | records the denial the rejected token earns |
| `LifecycleManagement.LifecycleManager.TryRecoverToken` | internal/auth/lifecycle.go:398-449 | equals the functional tryRecover: waits out its backoff, calls the hook, backs off on failure |
| `LifecycleManagement.LifecycleManager.Signal` | internal/auth/lifecycle.go:811-826 | raises the flag once and calls OnReauth only on that rise |
| `LifecycleManagement.LifecycleManager.ClearSignal` | internal/auth/lifecycle.go:828-846 | lowers the flag and resets the recovery backoff |
| `LifecycleManagement.LifecycleManager.Check` | internal/auth/lifecycle.go:924-960 | equals the functional check of the held token: no token, suppressed, looked up |
| `LifecycleManagement.LifecycleManager.ReactTo` | internal/auth/lifecycle.go:626-733 | equals the functional reaction to each verdict |
| `LifecycleManagement.LifecycleManager.ArmAfterCycle` | internal/auth/lifecycle.go:792-804 | arms the timer as the functional schedule says |
| `LifecycleManagement.LifecycleManager.RunCycle` | internal/auth/lifecycle.go:626-733 | equals the functional check cycle |
| `LifecycleManagement.LifecycleManager.OnTick` | internal/auth/lifecycle.go:569-570 | the scheduled branch is the Tick step |
| `LifecycleManagement.LifecycleManager.OnReject` | internal/auth/lifecycle.go:571-598 | the reported-rejection branch is the Reject step |
| `LifecycleManagement.LifecycleManager.OnReload` | internal/auth/lifecycle.go:541-568 | the reload branch is the Reload step |
| `LifecycleChecks.FlagIsUpExactly` | internal/auth/lifecycle.go:626-733 | after a check the flag is up if and only if the token was empty, suppressed, refused, expired or refused at renewal, or the flag was up and the token not in order, and neither a source nor the hook gave another |
| `LifecycleChecks.PassingFailureIsHarmless` | internal/auth/lifecycle.go:693-722 | with a token held, not suppressed and the flag down, a faulty lookup or renewal leaves the flag down, calls no hook and fires no callback |
| `LifecycleChecks.CallbackPerRise` | internal/auth/lifecycle.go:811-826 | OnReauth fires in a check exactly when the flag goes up in it |
| `LifecycleChecks.TokenComesFrom` | internal/auth/lifecycle.go:626-733 | kept if in order, else a source's if one offers, else the hook's; otherwise what was held, unless OnReauth or the hook left none |
| `LifecycleChecks.HookIsCalledExactly` | internal/auth/lifecycle.go:398-430 | once, if and only if the check searches, no source has a token, a hook is configured and its backoff is over |
| `LifecycleChecks.RejectionReachesTheHook` | internal/auth/lifecycle.go:398-430 | in every reachable state a condemned token with no other at a source has a configured hook called if and only if the failures standing in the log allow it; a token it returns is the client's, with the flag down and no callback |
| `LifecycleChecks.SuccessEndsTheEpisode` | internal/auth/lifecycle.go:828-846 | a check that ends with a token forgets the hook's failures and drops a waiting report |
| `LifecycleChecks.TimerIsSetExactly` | internal/auth/lifecycle.go:771-804 | the timer fires after the delay earned; out of cycle without a token at the earlier of that and the tracked tick, and not before now |
| `LifecycleChecks.NudgeIs` | internal/auth/lifecycle.go:541-568 | a nudge forgets the denials, adopts what a source offers and returns to the normal interval, or else leaves token, flag, timer and failures as they were; it never calls the hook |
| `LifecycleChecks.OtherStepsAre` | internal/auth/lifecycle.go:344-346 | a report queued is there to be taken up, a login elsewhere replaces the token, time passes |
| `LifecycleChecks.DenialsAreEarned` | internal/auth/denylist.go:162-171 | over any run the tokens denied are exactly those Vault answered with a 403, and the held ones it found expired, since the last Clear, and before it those denied at the start |
| `LifecycleGate.GateIsSound` | internal/auth/lifecycle.go:478-516 | in every state a concurrent reader can observe over any run, NeedsReauth false means the client holds no reload candidate whose lookup is still open |
| `LifecycleGate.StepIsGated` | internal/auth/lifecycle.go:510-516 | every step publishes only gated views |
| `LifecycleGate.ReloadAdoptsTheBest` | internal/auth/lifecycle.go:861-922 | tryReload returns true exactly when some source offers a distinct, non-denied token whose lookup Vault answers, and leaves the first such in order file, environment, peer; otherwise the token held on entry is back |
| `LifecycleGate.CycleSignals` | internal/auth/lifecycle.go:626-733 | a cycle that confirms or replaces the token never fires OnReauth; one that does not fires it exactly when it raises the flag |
| `LifecycleGate.StepKeepsSignals` | internal/auth/lifecycle.go:626-846 | every step keeps the history well formed: the flag rises only when down, each rise has its one callback, and it falls only when up, after a working token exactly when no expired candidate was adopted |
| `LifecycleGate.SignalsAreCounted` | internal/auth/lifecycle.go:811-838 | in a well-formed history rises, falls and callbacks alternate and match in number |
| `LifecycleGate.OneSignalPerEpisode` | internal/auth/lifecycle.go:626-838 | over any run the flag rises and falls in turn and OnReauth fires exactly once per rise |
| `LifecycleGate.FallsAreEarnedExactly` | internal/auth/lifecycle.go:626-922 | over any run a fall of the flag comes in a piece of work in which a lookup or the hook yielded a working token if and only if its reload did not adopt an expired candidate |
| `LifecycleGate.TryReloadIsQuiet` | internal/auth/lifecycle.go:904-920 | the token a reload adopts is an expired one exactly if that is what its lookup answered; a reload that adopts none has found none |
| `LifecycleGate.ExpiredFileFlaps` | internal/auth/lifecycle.go:904-912 | from any reachable state with the flag up, a nudge that finds an expired token in the file lowers it with no working token found, and the next scheduled check raises it and fires OnReauth again |
| `LifecycleGate.FlagGoesUp` | internal/auth/lifecycle.go:626-733 | such a state is reachable: a daemon that starts without a token and finds none |
| `LifecycleSchedule.StepIsPunctual` | internal/auth/lifecycle.go:526-601 | the tracked tick time is never later than the timer's real due time |
| `LifecycleSchedule.CycleDelay` | internal/auth/lifecycle.go:626-780 | the delay a cycle leaves: check interval, recovery interval or backoff, by what happened |
| `LifecycleSchedule.OutOfCycleNeverPostpones` | internal/auth/lifecycle.go:571-598 | one out-of-cycle check that restores nothing leaves the due time at most max(previous, now) |
| `LifecycleSchedule.RunNeverPostpones` | internal/auth/lifecycle.go:526-601 | the same over any sequence of them |
| `LifecycleSchedule.ReportsCannotStarve` | internal/auth/lifecycle.go:526-804 | in every reachable state, reports cannot push the scheduled check out |
| `LifecycleSchedule.OnlyTicksDouble` | internal/auth/lifecycle.go:771-780 | over any mix of passing failures the delay is the first one doubled once per scheduled tick, up to the cap |
| `LifecycleRecovery.ShiftIsExact` | internal/auth/lifecycle.go:451-466 | the 64-bit shift does not overflow for any interval the constructor sets |
| `LifecycleRecovery.BackoffIsCappedDoubling` | internal/auth/lifecycle.go:451-466 | the backoff equals its closed form and never exceeds maxDelay |
| `LifecycleRecovery.BackoffIsMonotone` | internal/auth/lifecycle.go:451-466 | more failures never mean a shorter wait |
| `LifecycleRecovery.BackoffDoublesUpToTheCap` | internal/auth/lifecycle.go:451-466 | from the second failure on it is min(recoveryInterval * 2^(n-1), maxDelay) when sixteen doublings reach the cap |
| `LifecycleRecovery.DefaultsReachTheCap` | internal/auth/lifecycle.go:223-241 | the daemon's own settings meet that condition |
| `LifecycleRecovery.StepKeepsPace` | internal/auth/lifecycle.go:398-449 | every step keeps the failures counted, the next attempt time tied to the last failure, and every hook call of the log after its backoff |
| `LifecycleRecovery.HookCallsArePaced` | internal/auth/lifecycle.go:398-466 | in any run every hook call after n failed ones of its episode, the one that works included, directly follows the n-th and comes no sooner than recoverBackoff(n) after it failed; a call opens an episode only if since the last failure a token worked or an expired candidate was adopted |
| `LifecycleRecovery.HookCallsPerSpan` | internal/auth/lifecycle.go:398-466 | an episode's calls after its first, the one that ends it included, number at most one more than the shortest gaps a span holds |
| `LifecycleRecovery.HookCallsPerMaxDelay` | internal/auth/lifecycle.go:398-466 | where the backoff reaches its cap with the m-th failure, an episode's calls within T number at most m + T/maxDelay |
| `LifecycleRecovery.HookCallsByDefault` | internal/auth/lifecycle.go:223-241 | with the daemon's settings, at most six calls of an episode and one more per five minutes |
| `LifecycleStorm.NotDeniedIsReady` | internal/auth/denylist.go:110-171 | with at most 16 tokens ever rejected, a token not suppressed was not denied within the window |
| `LifecycleStorm.StepKeepsInv` | internal/auth/lifecycle.go:861-960 | every step keeps lookups of the dead token spaced and the denylist refining its record |
| `LifecycleStorm.RunKeepsInv` | internal/auth/lifecycle.go:861-960 | the same over runs |
| `LifecycleStorm.DeadTokenLookupsAreSpaced` | internal/auth/lifecycle.go:861-960 | two lookups of a token Vault always answers 403 are a window apart or separated by a Clear |
| `LifecycleStorm.LookupBudget` | internal/auth/lifecycle.go:861-960 | a spaced history of lookups stays within its time budget |
| `LifecycleStorm.DeadTokenLookupsAreFew` | internal/auth/lifecycle.go:861-960 | a run of length T with k Clears sends at most 1 + k + T/window lookups of it |
| `CertRotation.MintPrepares` | internal/auth/mtls.go:325-372 | a minted credential is in the store and new; a failed mint handed what it made to rollback once |
| `CertRotation.ImportPrepares` | internal/auth/mtls.go:559-626 | the same for an imported certificate |
| `CertRotation.AbandonUndoes` | internal/auth/mtls.go:658-666 | rolling back a prepared handle leaves the store as before when the removals work |
| `CertRotation.StepIsAllOrNothing` | internal/auth/mtls.go:109-155 | for every combination of failures: the envelope names a handle in the store; on failure it is the old one and the new handle was rolled back exactly once; on success the new handle was never rolled back |
| `CertRotation.StepSucceedsExactly` | internal/auth/mtls.go:325-384 | a rotation of an enrolled host, or a re-seeding, succeeds if and only if every step of the minting or import, the login and the first save worked |
| `CertRotation.StoreAfterSuccess` | internal/auth/mtls.go:641-656 | after a rotation or a re-seeding the store holds what it held and the new credential, less exactly what the sweep removed of the superseded one |
| `CertRotation.StoreAfterFailure` | internal/auth/mtls.go:658-666 | after a failure it holds what it held and whatever of the new credential the rollback could not remove |
| `CertRotation.SweepRemovesTheOld` | internal/auth/mtls.go:641-656 | a rotation whose sweep worked leaves nothing of the old credential in the store |
| `CertRotation.EnvelopeIsAlwaysUsable` | internal/auth/mtls.go:63-162 | over any run of rotations and re-seedings the envelope names a handle that is in the store and was never rolled back |
| `CertRotation.RunKeepsStoreInv` | internal/auth/mtls.go:325-384 | the store invariant over runs |
| `CertRevocation.OnlySweptIsRevoked` | internal/auth/mtls.go:450-506 | over any run every serial in the backlog or sent to the CA was superseded and swept, and after a rotation no serial ever sent is the one the new envelope names |
| `CertRevocation.RotationRevokesExactly` | internal/auth/mtls.go:450-519 | of the backlog and the serial just swept all but the newest sixteen are dropped; the rest are sent, those taken are revoked and the others pending, or all are pending with revocation off |
| `CertRevocation.RevocationIsSafe` | internal/auth/mtls.go:376-506 | over any run, imports of whatever certificate included, every serial sent was superseded and swept, and none is one whose sweep failed |
| `CertRevocation.NamedIsBroughtBack` | internal/auth/mtls.go:559-585 | over any run the envelope names a serial that was sent for revocation if and only if the last step to commit imported the operator's certificate after its serial had been sent |
| `CertRevocation.RevokedSerialReimported` | internal/auth/mtls.go:559-585 | on a file store: import, rotate, import the same certificate again, and the envelope names a revoked serial |
| `CertRevocation.SettleConserves` | internal/auth/mtls.go:450-519 | one rotation's settlement keeps the books balanced |
| `CertRevocation.SettleKeepsOrder` | internal/auth/mtls.go:450-519 | one rotation's settlement keeps the backlog in sweep order |
| `CertRevocation.StepKeepsLedger` | internal/auth/mtls.go:398-519 | every step keeps balance and order |
| `CertRevocation.BacklogIsConserved` | internal/auth/mtls.go:398-519 | over any run that imports no certificate twice, each superseded and swept serial is exactly one of revoked, listed on disk, dropped by the cap, or lost with a list never written; the list keeps order, holds at most 16, and only older serials were dropped |
| `CertRevocation.SweptIsAccounted` | internal/auth/mtls.go:398-519 | with certificates imported more than once too, each time a serial was swept is one of revoked, listed, dropped or lost |
| `CertRevocation.RotationsLoseNothing` | internal/auth/mtls.go:376-411 | rotations lose nothing while the second envelope write succeeds |
| `CertRevocation.ReseedKeepsBacklogOnlyIfEmpty` | internal/auth/mtls.go:152-160 | the backlog on disk survives a successful re-seeding if and only if it was empty |
| `CertRevocation.PendingSerialIsLost` | internal/auth/mtls.go:152-160 | a rotation leaves a refused serial pending on disk, and a successful re-seeding loses it |
| `CertManagement.Manager.constructor` | internal/auth/mtls.go:63-105 | starts from a given world |
| `CertManagement.Manager.CommitRotation` | internal/auth/mtls.go:641-656 | sweeps the superseded artefacts, as the function on the store says |
| `CertManagement.Manager.RollbackRotation` | internal/auth/mtls.go:658-666 | removes the abandoned handle and records that it was rolled back |
| `CertManagement.Manager.Remove` | internal/securestore/osstore.go:196-204 | removes what a sweep or rollback names, each removal able to fail |
| `CertManagement.Manager.MintCredential` | internal/auth/mtls.go:325-372 | equals the functional mint, rollback on failure included |
| `CertManagement.Manager.ImportOwn` | internal/auth/mtls.go:559-626 | equals the functional import |
| `CertManagement.Manager.RetireSuperseded` | internal/auth/mtls.go:450-506 | computes the serials still pending and sends the rest |
| `CertManagement.Manager.RevokeEach` | internal/auth/mtls.go:492-505 | splits the batch, in order, into revoked and failed |
| `CertManagement.Manager.PersistPending` | internal/auth/mtls.go:398-411 | writes the envelope again only if the list changed |
| `CertManagement.Manager.ReissueCertificate` | internal/auth/mtls.go:325-384 | equals the functional rotation of the whole world |
| `CertManagement.Manager.Authenticate` | internal/auth/mtls.go:109-162 | equals the functional re-seeding of the whole world |
| `CertManagement.SameSerials` | internal/auth/mtls.go:523-533 | true exactly when the lists are equal |
| `UpstreamAgent.UpstreamSource.constructor` | internal/agent/upstream.go:128-134 | a source that knows nothing yet |
| `UpstreamAgent.UpstreamSource.Remember` | internal/agent/upstream.go:193-203 | replaces table and completeness together |
| `UpstreamAgent.UpstreamSource.Forget` | internal/agent/upstream.go:225-230 | back to knowing nothing |
| `UpstreamAgent.UpstreamSource.CurrentEndpoints` | internal/agent/upstream.go:154-160 | the one configured endpoint, or what discovery finds, recorded for status |
| `UpstreamAgent.ListedExactly` | internal/agent/upstream.go:154-306 | a listing names a key if and only if any endpoint discovered, or the configured one alone, answers with it |
| `UpstreamAgent.SignedExactly` | internal/agent/upstream.go:334-395 | with nothing known Sign finds a key if and only if any endpoint discovered, or the configured one alone, serves it |
| `UpstreamAgent.ToldExactly` | internal/agent/upstream.go:517-542 | a broadcast changes exactly the accepting agents among all endpoints discovered, or the configured one |
| `UpstreamAgent.UpstreamSource.MightOwn` | internal/agent/upstream.go:211-221 | denies a key exactly when a complete table lacks it; names the endpoint the table has |
| `UpstreamAgent.UpstreamSource.TargetsFor` | internal/agent/upstream.go:390-395 | the known endpoint alone, else all |
| `UpstreamAgent.Scan` | internal/agent/upstream.go:253-272 | the nested loops: first offers in order, failing endpoints in order, each key filed under the first endpoint that answered with it |
| `UpstreamAgent.UpstreamSource.Identities` | internal/agent/upstream.go:247-306 | listing, table, completeness and error exactly as the scan of the endpoints determines |
| `UpstreamAgent.SeekAmong` | internal/agent/upstream.go:340-361 | the loop finds the first target that serves the key, else reports the failures, else "not ours" |
| `UpstreamAgent.UpstreamSource.Sign` | internal/agent/upstream.go:334-385 | equals the search over the table's targets |
| `UpstreamAgent.UpstreamSource.Remove` | internal/agent/upstream.go:444-486 | removes the key at the endpoint the search finds and then forgets the table |
| `UpstreamAgent.UpstreamSource.Add` | internal/agent/upstream.go:419-439 | asks the first endpoint only; on success it alone changes and the table is forgotten |
| `UpstreamAgent.TellEach` | internal/agent/upstream.go:517-542 | the broadcast loop: who refused, and the world it leaves |
| `UpstreamAgent.UpstreamSource.Announce` | internal/agent/upstream.go:492-542 | RemoveAll forgets the table even on failure; Lock and Unlock keep it |
| `UpstreamRouting.FirstsAreExact` | internal/agent/upstream.go:262-269 | the listing holds each key once and every key offered |
| `UpstreamRouting.FirstsKeepOrder` | internal/agent/upstream.go:262-269 | its entries are the first offers of their keys, in the order offered |
| `UpstreamRouting.ListingMatchesTable` | internal/agent/upstream.go:232-272 | a key is listed if and only if the table has it, and the table names the first endpoint that answered with it |
| `UpstreamRouting.ListingFailsExactly` | internal/agent/upstream.go:273-305 | a listing fails if and only if the one configured endpoint did not answer; never with discovered endpoints, and never when anything answered |
| `UpstreamRouting.SearchIsExact` | internal/agent/upstream.go:334-385 | found if and only if some target serves the key, the first one; "not ours" if and only if all answered and none advertises it |
| `UpstreamRouting.FailuresNamedExactly` | internal/agent/upstream.go:340-361 | the failures a search reports are those of the endpoints that failed |
| `UpstreamRouting.RefusalsNamedExactly` | internal/agent/upstream.go:517-542 | a broadcast names each endpoint each time it asked it in vain |
| `UpstreamRouting.RoutedAgrees` | internal/agent/upstream.go:193-221 | with the advertised keys as at the last scan and none failing now, routing finds a key exactly when trying every endpoint would, also after an incomplete scan; the answers are equal after a complete one, and otherwise exactly when no silent endpoint was skipped |
| `UpstreamRouting.SkippedEndpoint` | internal/agent/upstream.go:193-221 | an incomplete scan that routes to a later endpoint than the search |
| `UpstreamRouting.TableIsTheLastScan` | internal/agent/upstream.go:193-230 | after any history the table is that of the last scan not followed by a successful Add, Remove or RemoveAll |
| `UpstreamRouting.RoutedAgreesExactly` | internal/agent/upstream.go:334-395 | over every history of the relay's own operations, locks included, and with none failing now, Sign disagrees with the full search about a key if and only if an agent with it is open and either the endpoint the scan filed it under is locked, or the scan was complete with every agent that has it locked |
| `UpstreamRouting.SameAnswerExactly` | internal/agent/upstream.go:334-395 | over the same histories, Sign and the full search give the very same answer unless, for a key an open agent has, the locks mislead as above or an agent listed before the one the scan filed it under has it and is open now |
| `UpstreamRouting.OwnChangesNeverMislead` | internal/agent/upstream.go:419-499 | over any history of the relay's own listings and mutations without Lock or Unlock, endpoints failing and recovering freely, Sign agrees with the full search whenever none fails |
| `UpstreamRouting.UnlockedKeyStaysHidden` | internal/agent/upstream.go:501-508 | Lock, List, Unlock leaves a table that denies a key the full search finds |
| `UpstreamAgent.BroadcastReachesEach` | internal/agent/upstream.go:517-542 | a broadcast changes exactly the listed agents that accept it |
| `UpstreamRouting.RemoveUndoesAdd` | internal/agent/upstream.go:419-466 | removing a key just added restores every agent, and Add touched only the first |
| `AgentBackend.Backend.constructor` | internal/agent/backend.go:206-218 | a backend with nothing cached |
| `AgentBackend.Backend.UsableSources` | internal/agent/backend.go:307-317 | all sources with a token, else those that need none, in order |
| `AgentBackend.Backend.CachedIdentities` | internal/agent/backend.go:330-337 | serves a non-empty listing younger than the TTL |
| `AgentBackend.Gather` | internal/agent/backend.go:269-283 | the loop's identities and failures, in order |
| `AgentBackend.Backend.Identities` | internal/agent/backend.go:243-303 | a fresh cache unchanged, else the refresh; cached only with a token and no failure; every failure is reported |
| `AgentBackend.Backend.List` | internal/agent/backend.go:378-399 | a cache hit never waits; otherwise the gate, then the refresh |
| `AgentBackend.TrySign` | internal/agent/backend.go:436-452 | the first source that matches, and the failures before it |
| `AgentBackend.Backend.SignWithFlags` | internal/agent/backend.go:416-464 | the answer by what the usable sources say; failures reported |
| `AgentBackend.Backend.Invalidate` | internal/agent/backend.go:540-545 | nothing is cached afterwards |
| `AgentBackend.Backend.MutatingSources` | internal/agent/backend.go:521-529 | the sources that accept mutations, in order |
| `AgentBackend.Backend.Add` | internal/agent/backend.go:549-566 | only the first mutating source is asked: read-only without one, its failure otherwise; success alone invalidates |
| `AgentBackend.Backend.Remove` | internal/agent/backend.go:572-595 | removed, failed or read-only by what the mutating sources say; removal alone invalidates |
| `AgentBackend.Backend.Broadcast` | internal/agent/backend.go:625-646 | read-only without a mutating source; otherwise every one is asked, failures joined in order, and the cache is dropped even on failure |
| `AgentCache.MutationMeans` | internal/agent/backend.go:549-646 | a removal is read-only if and only if no mutating source has the key or fails, and succeeds if and only if one removed it; a broadcast fails if and only if a mutating source refused |
| `AgentCache.GatheredIsJoined` | internal/agent/backend.go:269-283 | with a token the refresh is every configured source's answer, joined in order |
| `AgentCache.ListFailsExactly` | internal/agent/backend.go:284-289 | a refresh is an error exactly when a usable source failed and the others had nothing |
| `AgentCache.RefreshListsAll` | internal/agent/backend.go:269-292 | a refresh that is not an error lists all that the sources asked answered, in configured order, past those that failed |
| `AgentCache.ErrorsNameTheFailures` | internal/agent/backend.go:269-289 | every error names exactly the sources that failed, in configured order, for listings, signatures and mutations |
| `AgentCache.SignFailuresNamed` | internal/agent/backend.go:436-452 | the failures reported ahead of a signature are exactly those of the sources before the first match |
| `AgentCache.SelectionsAscend` | internal/agent/backend.go:307-317 | sources are asked in configured order, and Add goes to the first that mutates |
| `AgentCache.SigningMeans` | internal/agent/backend.go:416-464 | "no matching key" if and only if a token was held, every configured source was asked, none failed and none matched; signed and no-token likewise exactly |
| `AgentCache.SignedByTheFirst` | internal/agent/backend.go:436-452 | the first usable source that matches signs, whatever failed before it |
| `AgentCache.StepKeepsInv` | internal/agent/backend.go:243-337 | every step of refreshes, hits and invalidations keeps the cache complete |
| `AgentCache.HitsAreComplete` | internal/agent/backend.go:243-337 | under every interleaving a cache hit is the in-order join of every configured source's answer, token held, none failing, younger than the TTL; it predates an invalidation if and only if one landed while it was gathered |
| `AgentCache.CompleteIsServed` | internal/agent/backend.go:293-337 | a complete refresh with something to list is what a List gets from the cache within the TTL until a mutation |
| `AgentCache.NothingStaleIsServed` | internal/agent/backend.go:540-646 | if no invalidation lands while a refresh is in flight, however long that takes, no hit predates a mutation that reached invalidate |
| `AgentCache.OvertakenRefresh` | internal/agent/backend.go:243-303 | an interleaving in which one does |
| `KvPatch.Vault.Interfere` | internal/vault/client.go:207-226 | other writers' puts and deletes, one after the other |
| `KvPatch.Vault.WriteCAS` | internal/vault/client.go:243-255 | lands only at the expected version; a mismatch is its own answer; a lost reply reads as a failure |
| `KvPatch.Validate` | cmd/dotvault/kv.go:525-542 | accepts exactly the well-formed requests and names the first offence otherwise |
| `KvPatch.Merge` | cmd/dotvault/kv.go:551-563 | the merged fields, or the first field to remove that the secret lacks |
| `KvPatch.Try` | cmd/dotvault/kv.go:543-581 | one pass of the loop: its answer, the store it leaves, whether it wrote |
| `KvPatch.Patch` | cmd/dotvault/kv.go:525-582 | against arbitrary writers: ends at the first attempt without conflict, or after three; the store is what that attempt left; at most three writes |
| `KvPatch.PatchedExactly` | cmd/dotvault/kv.go:551-577 | success replaced version v by v + 1: set fields set, removed fields gone, every other field as in version v |
| `KvPatch.RefusedExactly` | cmd/dotvault/kv.go:548-568 | no secret, the first missing field to remove, and an emptied secret are reported exactly when the secret read is such |
| `KvPatch.AnswersExactly` | cmd/dotvault/kv.go:543-581 | an attempt succeeds if and only if its write is taken and heard of, is retried if and only if the version had moved, and each other answer exactly |
| `KvPatch.QuietAttemptSucceeds` | cmd/dotvault/kv.go:543-581 | an attempt nobody interferes with, whose calls work, succeeds |
| `KvPatch.OnlySuccessChanges` | cmd/dotvault/kv.go:543-581 | the run leaves the secret to the other writers alone if and only if it neither succeeded nor had an accepted write's reply lost; so a dry run changes nothing |
| `KvPatch.CheckedExactly` | internal/vault/client.go:234-255 | at a passed version check the secret is exactly the one read, its life included, if and only if no deletion landed in between |
| `KvPatch.RecreatedSecretIsOverwritten` | internal/vault/client.go:276-289 | a delete and a put between read and write are overwritten by the patch of the old secret |
| `KvPatch.ConflictMeansRivals` | cmd/dotvault/kv.go:573-580 | an attempt conflicts only if another writer moved the version between its read and its write |
| `KvRace.EveryCommitCounts` | cmd/dotvault/kv.go:543-581 | however patches, puts and deletions interleave and whatever writes are refused or lose their reply, the secret is its first contents with every accepted write applied in order; each client has at most one accepted in at most three sent, and reports success only for an accepted one; each accepted patch is its request applied to the version it replaced |
| `KvRace.PatchedInPlaceExactly` | cmd/dotvault/kv.go:543-581 | an accepted patch replaced exactly the secret it read, its life included, if and only if no deletion was accepted in between |
| `KvRace.CommittedPatchSurvives` | cmd/dotvault/kv.go:543-581 | what an accepted patch set or removed holds until a later accepted write names the field, replaces the whole, or is a patch with a deletion between its read and its write |
| `KvRace.StepIsReplayed` | cmd/dotvault/kv.go:543-581 | every step keeps the secret and every held snapshot a replay of the accepted writes, and every accepted patch entitled to its write |
| `HeaderDigest.BigEndianRoundTrips` | cmd/dotvault/main.go:516-521 | the length prefix reads back as the length |
| `HeaderDigest.PrefixedSplits` | cmd/dotvault/main.go:516-521 | where a prefixed string ends can be read off the stream |
| `HeaderDigest.SortSorts` | cmd/dotvault/main.go:507-511 | sorting distinct keys gives them in strictly ascending order |
| `HeaderDigest.AscendingIsUnique` | cmd/dotvault/main.go:507-511 | the order the map was walked in leaves no trace |
| `HeaderDigest.EncodingIsCanonical` | cmd/dotvault/main.go:498-525 | any ascending listing of the keys gives the same stream |
| `HeaderDigest.EncodingIsInjective` | cmd/dotvault/main.go:498-525 | two header maps have the same stream if and only if they are equal |
| `HeaderDigest.KeyList` | cmd/dotvault/main.go:507-510 | every key once, in whatever order |
| `HeaderDigest.Feed` | cmd/dotvault/main.go:512-524 | the bytes written to the hash |
| `HeaderDigest.DigestHeaders` | cmd/dotvault/main.go:503-527 | the hash of the salted canonical stream; zero for the empty map |
| `HeaderDigest.DigestObservabilityHeaders` | cmd/dotvault/main.go:473-496 | the hash of the three labelled digests |
| `HeaderDigest.LabelledDetermines` | cmd/dotvault/main.go:481-492 | equal labelled streams carry equal digests part by part |
| `HeaderDigest.DigestIsFaithful` | cmd/dotvault/main.go:467-527 | unless the hash collides, or gives zero, on the streams it is fed, two configurations have equal digests if and only if all three maps are equal |
| `HeaderDigest.SaltMatters` | cmd/dotvault/main.go:457-467 | under two salts of the same length a header map that is not empty has different digests |
| `HeaderDigest.LabelsDiffer` | cmd/dotvault/main.go:481-489 | the labels separate the parts |
| `HeaderDigest.MovedHeaderChangesDigest` | cmd/dotvault/main.go:467-496 | moving a header between any two of the maps changes the digest |

## Assumptions

- Clocks are monotone; a timer Reset and the clock reading beside it are one instant.
- Token keys, standing for SHA-256 digests, are distinct for distinct tokens.
- The CA never issues a serial twice (section 4.1.2.2 of RFC 5280); a certificate
  brought by the operator may be imported more than once, but only into a store that
  has nothing to sweep (internal/config/config.go:1200-1202).
- The envelope is replaced atomically; the key store is a set of handles; a host keeps
  its kind of store during a run.
- The hash in `HeaderDigest` is any function; a collision on the streams at hand is
  the only case excluded, so nothing rests on an impossible injective hash.
- In `LifecycleRecovery` the recovery interval is at most ten seconds, which the only
  constructor guarantees (`Lifecycle.NewConfig`).

## Left out

- Vault's HTTP calls, TLS, PKI signing, TPM and operating-system key stores: their outcomes are inputs.
- OIDC and LDAP logins, browser and terminal prompts, the daemon's start-up wiring and status output.
- Listeners, peer credentials, discovery of agents and its three-second memo, clipboard writers, configuration validators: single-branch facts around the cores.
- The renewal threshold and TTL parsing in `checkAndRenew`: the model takes "nothing to renew", "renewed" and the kinds of failure as inputs.
- Contexts and their timeouts: an operation that times out is one that fails.
- A token installed by a web login in the middle of a check cycle: adoption is a step between cycles.
- A nil denylist receiver, metrics, logging and the error channel.
- `LifecycleManagement.LifecycleManager.NoteRejection`: which of several equally old entries an overflow evicts is fixed by the configuration's `pick`, any choice allowed.
- 64-bit wrap-around outside the recovery backoff's shift: times and counters are unbounded integers.
- `UpstreamAgent.UpstreamSource.Sign`: an endpoint listed twice answers alike within one operation, and signature bytes are represented by the endpoint that made them.
- `UpstreamAgent.UpstreamSource.Add`: an agent that reports failure made no change; changes it made nevertheless are an outside change in `UpstreamRouting`.
- `CertRotation.MintPrepares`: a key generation that fails leaves nothing. The OS store can leave a container if its exportability test fails (internal/securestore/osstore_windows.go:139-146); no handle of it reaches rollback.
- `CertRotation.StepIsAllOrNothing`: a failed StoreCert leaves no leaf. The OS store removes a half-installed leaf itself, and if that removal fails the leaf stays (internal/securestore/osstore_windows.go:259-265).
- Operations of one upstream source overlapping each other: its histories are sequential.
- `AgentBackend.Backend.List`: the conversion of identities to wire keys is not modelled.
- `KvPatch.Validate`: path cleaning and the enrolment guard enter as their outcomes.
- `KvPatch.Patch`: a secret whose response carries no version metadata, and undeleting a version, are not modelled.
- The Vault client library's own retries.
