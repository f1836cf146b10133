# Admission, outbox, retention and the small state machines, verified

A Dafny model of the parts of the system whose correctness depends on whole runs rather than on one
call, with proofs of what they promise.

- **Admission to a paid provider.** `WaiterQueue`, `Semaphore` and `RateLimiter` order and admit
  waiters; `Breaker` and `ProbeLease` stop traffic to a failing provider, across processes;
  `SpendGuard` caps an invocation; `Retry`, `PackSplitting` and `Normalize` decide retries, split
  question sets and check answers; `Router` composes them around every wire attempt.
- **The durable outbox.** `Outbox` is the table and its SQL statements, `OutboxRelay` one relay
  pass, `WakeUp` the protocol of writers, relays, the broker and its jobs.
- **Backups.** `Calendar` and `Retention` decide what stays, `BackupStore` deletes the rest one
  object at a time.
- **Smaller machines.** `ModelProbe`, `CpuPool`, `SettingsCache` and `ModelWatch`.
- `Prelude` and `TopK` are shared: a top-k selection absorbs an earlier one.

Where the source keeps state, a class has the same fields and its methods follow the source's steps;
each method's contract ties the new state to a specification function (`Step`, `Served`, `Keep` and
so on), and the results about all runs are lemmas over those functions. Time is a value carried by
each event and never decreases; money, tokens and probabilities are reals. Promises, timers and abort
signals are events. What a provider, a store, a credential resolver or another process answers is an
arbitrary input, and what follows from it is stated for every answer: the router keeps on record what
each attempt was told. `dafny verify dfyconfig.toml` checks everything.

Where the code does not meet a property, a lemma gives a concrete run or input, and another says
exactly when the property holds.

- A tenant insert does not re-arm a leased outbox row, so its wake-up can be lost
  (`WakeUp.TenantWakeUpCanBeLost`). It is safe in every continuation exactly when no relay that has
  already sent the pending row can still complete it in time, or the job still waits
  (`WakeUp.TenantInsertIsSafeExactly`); a row without a live lease is enough (`WakeUp.TenantOwes`).
- Completion checks only the token, so a relay that completes at or after the end of its own lease can
  lose a worker's wake-up (`WakeUp.LateCompletionLosesAWakeUp`). Such a completion of that very row is
  the only thing that can (`WakeUp.OnlyALateCompletionTakes`, `WakeUp.LostExactlyByALateCompletion`).
- A breaker reset while a probe is in flight lets a second probe start under the first
  (`ProbeLease.ResetLetsProbesOverlap`, `ProbeLease.DefaultsAllowIt`). A reset is safe exactly while no
  lease is live, or when it changes nothing (`ProbeLease.ResetIsSafeExactly`).
- A probe stamped further in the future than the tolerated skew makes the stored probes depend on the
  order of recording (`ModelProbe.FutureStampsDependOnOrder`). For two probes of one model it does
  exactly then (`ModelProbe.PairOrderMattersExactly`), and over a run the newest are kept exactly when
  no newer stored probe of the model is passed over (`ModelProbe.StoreIsNewestExactly`).
- The router's comment says that the shared breaker state is checked again before every paid attempt.
  The code does so exactly for the attempts that do not open a later pack without a probe held
  (`Router.LaneRun.Run`, `Router.PackConsults`); `Router.LaterPackGoesUnasked` is an account with one
  that does.
- The advice of the breaker and its lease agree on every entry but one kind, which no run reaches
  (`Breaker.AdviceMatchesLease`).

## Model

| member | source | states |
|---|---|---|
| `WaiterQueue.HeadIsFirst` | packages/engine/src/semaphore.ts:83-94 | the waiter picked precedes every other by (key, arrival number) |
| `WaiterQueue.FindHead` | packages/engine/src/rate-limiter.ts:211-219 | the scan finds that waiter |
| `WaiterQueue.ServiceOrder` | packages/engine/src/semaphore.ts:52-58 | an interactive waiter precedes a bulk one exactly unless that one has waited the aging allowance longer, and within a class it is first come, first served |
| `Semaphore.PrioritySemaphore.Acquire` | packages/engine/src/semaphore.ts:110-143 | an aborted or expired request is refused, a permit is given at once only if one is free and nobody waits, else the request queues last with the next number, its time of arrival, and the aging allowance added for bulk |
| `Semaphore.PrioritySemaphore.Release` | packages/engine/src/semaphore.ts:72-81 | a permit counts back once, then waiters are served |
| `Semaphore.PrioritySemaphore.Dispatch` | packages/engine/src/semaphore.ts:83-94 | the loop of grants is the specified round of grants |
| `Semaphore.PrioritySemaphore.SetCapacity` | packages/engine/src/semaphore.ts:106-109 | a capacity below one is refused and changes nothing; another takes effect and serves waiters |
| `Semaphore.PrioritySemaphore.Leave` | packages/engine/src/semaphore.ts:130-137 | a cancelled or expired waiter leaves, once, with its reason |
| `Semaphore.DispatchServesInOrder` | packages/engine/src/semaphore.ts:83-94 | a round of grants stops only when no permit is free or nobody waits, gives fresh permits to exactly those it removes, and all of them precede all who stay |
| `Semaphore.PriorityOrder` | packages/engine/src/semaphore.ts:52-58 | under the invariant an interactive waiter precedes a bulk one unless the bulk one came the aging allowance earlier, and within a class arrival decides |
| `Semaphore.StepServesInOrder` | packages/engine/src/semaphore.ts:83-137 | whoever leaves the queue was granted a permit and preceded whoever stays, or left of its own accord |
| `Semaphore.InteractiveGoesFirst` | packages/engine/src/semaphore.ts:52-94 | in every run no bulk waiter is served while an interactive one stays that came less than the aging allowance after it, nor an interactive one ahead of a bulk one that has aged |
| `Semaphore.StepKeepsInv` | packages/engine/src/semaphore.ts:60-144 | every operation keeps the permits accounted for and idles none while someone waits |
| `Semaphore.AlwaysWorkConserving` | packages/engine/src/semaphore.ts:60-144 | after every run a nonempty queue means inUse >= capacity, and inUse is the number of permits held |
| `Semaphore.OvertakingStep` | packages/engine/src/semaphore.ts:56-144 | one operation moves a waiting bulk request back only for an interactive one made before it aged |
| `Semaphore.BoundedOvertaking` | packages/engine/src/semaphore.ts:56-144 | over any run, cancellations and resizes included, grants plus those still ahead of a bulk waiter never exceed those ahead at the start plus the interactive requests made before it aged |
| `RateLimiter.RefillIsPathIndependent` | packages/engine/src/rate-limiter.ts:126-152 | refilling at t1 and then at t2 equals refilling at t2, across the end of a penalty too |
| `RateLimiter.ReadyAtIsLeast` | packages/engine/src/rate-limiter.ts:154-184 | `readyAt` is the least instant, not before now nor the server delay, at which the levels cover the request, also when a penalty ends in between |
| `RateLimiter.ReadyNow` | packages/engine/src/rate-limiter.ts:154-184 | ready now means no server delay is running and the levels cover the request |
| `RateLimiter.FitsMeans` | packages/engine/src/rate-limiter.ts:116-184 | a request fits exactly when the refilled levels hold one request and its tokens, or are full where it asks for more, under the capacities of that instant |
| `RateLimiter.RefillRates` | packages/engine/src/rate-limiter.ts:126-152 | levels gain their capacity per minute of requests and per second of tokens until full, the penalized share of it during a penalty |
| `RateLimiter.Limiter.Refill` | packages/engine/src/rate-limiter.ts:136-152 | the method refills as specified, splitting the interval at the end of a penalty |
| `RateLimiter.Limiter.Schedule` | packages/engine/src/rate-limiter.ts:228-252 | the loop serves the queue from its head as specified and arms one timer |
| `RateLimiter.Limiter.Acquire` | packages/engine/src/rate-limiter.ts:255-314 | what the caller is told at once, and the new state, for every kind of request; one that waits is queued under its class, time, tokens and deadline and a round follows |
| `RateLimiter.Limiter.Refund` | packages/engine/src/rate-limiter.ts:186-209 | a refund is the specified step |
| `RateLimiter.Limiter.Penalize` | packages/engine/src/rate-limiter.ts:316-330 | a 429 is the specified step |
| `RateLimiter.Limiter.OnDeadline` | packages/engine/src/rate-limiter.ts:293-308 | an expired waiter leaves with the earliest useful instant, and the others are served |
| `RateLimiter.Limiter.OnAbort` | packages/engine/src/rate-limiter.ts:284-290 | a cancelled waiter leaves and the others are served |
| `RateLimiter.StepKeepsInv` | packages/engine/src/rate-limiter.ts:120-330 | every event keeps the levels within the capacity in force and above the debt of one request, and the account below its allowance |
| `RateLimiter.AccountLimit` | packages/engine/src/rate-limiter.ts:136-209 | over every run, requests less refunds credited are at most a full bucket times (1 + minutes) plus one, tokens likewise plus the largest need, and levels never exceed the capacity in force |
| `RateLimiter.RefundNeverCrossesAPenalty` | packages/engine/src/rate-limiter.ts:190-202 | once a penalty followed the debit, refunding it changes no level and wakes nobody |
| `RateLimiter.RefundsOnce` | packages/engine/src/rate-limiter.ts:195-198 | a second call of a refund handle does nothing, whatever happened in between |
| `RateLimiter.RefundUndoesDebit` | packages/engine/src/rate-limiter.ts:186-209 | a debit refunded at the same instant leaves the levels as they were |
| `RateLimiter.RefundCreditsWhatItRaises` | packages/engine/src/rate-limiter.ts:202-206 | a refund raises each level by at most its debit and credits exactly that |
| `RateLimiter.PenaltyHoldsEveryone` | packages/engine/src/rate-limiter.ts:316-330 | after a 429 nobody is ready at that instant nor before the server's delay, levels stay within the penalized capacity, and no earlier penalty is shortened |
| `RateLimiter.PenaltyLevels` | packages/engine/src/rate-limiter.ts:326-328 | a 429 empties the request bucket and takes the tokens down to the penalized capacity |
| `RateLimiter.PenaltyLasts` | packages/engine/src/rate-limiter.ts:319-325 | a penalty lasts the configured time or the server's delay if longer, a delay blocks everyone, and neither ends sooner than one before |
| `RateLimiter.ServiceInOrder` | packages/engine/src/rate-limiter.ts:228-252 | whoever leaves the queue precedes whoever stays and was told an outcome, and nobody is granted after its deadline |
| `RateLimiter.RoundIsFair` | packages/engine/src/rate-limiter.ts:228-252 | whoever leaves a round granted fits the meter left by those before it, whoever leaves refused has a deadline up to which no instant outside a server delay fits it and is told the earliest that does, rounded up, and the head that stays neither fits nor is hopeless |
| `RateLimiter.ToldExactly` | packages/engine/src/rate-limiter.ts:255-274 | granted at once exactly when nobody waits and the request fits now, refused exactly when cancelled or past its deadline, else queued |
| `RateLimiter.AcquireIsFair` | packages/engine/src/rate-limiter.ts:274-313 | a request that queues is followed by a fair round over everyone waiting, itself included |
| `RateLimiter.AbortIsFair` | packages/engine/src/rate-limiter.ts:287-292 | a cancelled waiter is told so and leaves, and a fair round follows |
| `RateLimiter.ExpiryIsFair` | packages/engine/src/rate-limiter.ts:294-310 | a waiter past its deadline is told the earliest instant it could have had, rounded up, and a fair round follows |
| `RateLimiter.InteractiveServedFirst` | packages/engine/src/rate-limiter.ts:211-252 | no round serves a bulk waiter while an interactive one stays that came less than the aging allowance after it, nor the reverse for an aged one |
| `RateLimiter.FirstComeFirstServed` | packages/engine/src/rate-limiter.ts:211-252 | within a class no round serves a later waiter while an earlier one stays |
| `RateLimiter.ServiceKeepsInv` | packages/engine/src/rate-limiter.ts:228-252 | if someone still waits, the timer is armed for the head's earliest instant, less than a millisecond late |
| `RateLimiter.WaitersHaveATimer` | packages/engine/src/rate-limiter.ts:228-252 | in every run, waiting implies an armed timer |
| `Breaker.AdviceMatchesLease` | packages/engine/src/breaker.ts:116-140 | `evaluateBreaker` says probe exactly when `acquireProbe` succeeds, on every entry but a half-open lease without expiry judged before 1970 |
| `Breaker.StreakInvariant` | packages/engine/src/breaker.ts:91-215 | after any changes from closed, the re-open count is the number of failed probes since the last close, failingSince the instant the streak left closed, and openUntil is openedAt plus the capped doubling |
| `Breaker.ReachableAdviceMatchesLease` | packages/engine/src/breaker.ts:223-244 | in every reachable entry the advice is probe exactly when the lease can be taken |
| `Breaker.OpenDurationDoublesToCap` | packages/engine/src/breaker.ts:91-94 | the first open period is the base, or the cap if less, and each failed probe doubles it until the cap |
| `Breaker.OpenDurationIs` | packages/engine/src/breaker.ts:91-94 | after any number of failed probes the period is the base doubled that often, up to the cap |
| `Breaker.AdmissionFollowsHistory` | packages/engine/src/breaker.ts:97-244 | after any history, by the history alone: while the last opening plus its doubled period lies ahead every caller is denied with that instant and no lease is given, while a probe's lease runs likewise, and past either exactly one lease is handed out, for a full lease from now |
| `Breaker.WhatChangesDo` | packages/engine/src/breaker.ts:97-214 | which trips, leases, renewals, verdicts, releases, auth failures and resets take effect, and the state each leads to |
| `Breaker.AdmissionDecides` | packages/engine/src/breaker.ts:420-447 | the entry read decides, unless it advises a probe: then the lease is given exactly when the entry met under the lock lets it, and otherwise that one decides |
| `Breaker.PrefixDropIsFilter` | packages/engine/src/breaker.ts:254-266 | dropping leading old samples is dropping exactly the old ones |
| `Breaker.TripsExactly` | packages/engine/src/breaker.ts:261-276 | the window trips exactly when it holds enough samples and more than the ratio of those failed |
| `Breaker.FailureWindow.ShouldTrip` | packages/engine/src/breaker.ts:268-276 | trips exactly on a failure share above the ratio among enough samples of the window |
| `Breaker.FailureWindow.Prune` | packages/engine/src/breaker.ts:254-266 | exactly the samples older than the window go |
| `Breaker.Coordinator.Poll` | packages/engine/src/breaker.ts:361-406 | a fresh cache is not read again; a reset not seen before clears the local evidence and closes the engine unless its incident is newer |
| `Breaker.Coordinator.Admit` | packages/engine/src/breaker.ts:420-447 | the decision on the entry read and, for a probe, on the entry met under the lock; a token means the shared lease is this token's for a full lease, no token that the entry was closed, a denial that it was not |
| `Breaker.Coordinator.Renew` | packages/engine/src/breaker.ts:449-452 | true exactly when the locked entry held this token, and then the lease runs from now; a change of state to closed or open clears the local evidence, and nothing else does |
| `Breaker.Coordinator.Record` | packages/engine/src/breaker.ts:454-475 | a probe's verdict acts only on its own lease; another failure opens a closed breaker exactly when the window trips |
| `Breaker.Coordinator.AuthFailure` | packages/engine/src/breaker.ts:477-486 | auth mode exactly while the credential is still the active one |
| `ProbeLease.StepKeepsInv` | packages/engine/src/breaker.ts:116-214 | every step of every process, with stale clock readings, crashes and auth failures, and a reset while no lease is live, keeps at most one live lease, and until an auth failure that one is the lease stored |
| `ProbeLease.ProbesNeverOverlap` | packages/engine/src/breaker.ts:116-214 | with attempts ending within their lease and resets only while no lease is live, attempts under two tokens are never in flight together, whatever crashes, stale readings and auth failures there are |
| `ProbeLease.SendersHoldTheLease` | packages/engine/src/breaker.ts:116-188 | without auth failures, whoever is sending holds the shared lease |
| `ProbeLease.OnlyTheHolderDecides` | packages/engine/src/breaker.ts:143-214 | half-open ends only by the verdict of the token holding the lease, as it says, by a reset, closed, or by an auth failure |
| `ProbeLease.StepsDo` | packages/engine/src/breaker.ts:112-188 | a lease taken or renewed runs a full lease from the clock reading, for the process as in the shared entry, one that is lost is given up, and no step touches another process |
| `ProbeLease.ResetIsSafeExactly` | packages/engine/src/breaker.ts:209-214 | after a reset no continuation has an overlap exactly if no lease is live or the reset changes nothing, among two processes or more |
| `ProbeLease.ResetLetsProbesOverlap` | packages/engine/src/breaker.ts:209-214 | in every world, a reset under a lease that outlasts a fresh open period can lead to an overlap, with current clock readings |
| `ProbeLease.DefaultsAllowIt` | packages/engine/src/breaker.ts:61-69 | with the default durations such a world is one lease away from a tripped breaker |
| `SpendGuard.InvocationBudget.TryReserve` | packages/engine/src/spend-guard.ts:131-135 | reserves exactly when the committed amount stays within the limit and its slack of 1e-9 dollars, and is the specified step |
| `SpendGuard.InvocationBudget.Settle` | packages/engine/src/spend-guard.ts:137-141 | a known cost replaces its reserve, an uncertain one keeps it: the specified step |
| `SpendGuard.InvocationBudget.Cancel` | packages/engine/src/spend-guard.ts:143-146 | an open reserve is dropped: the specified step |
| `SpendGuard.NeverOvershoots` | packages/engine/src/spend-guard.ts:112-155 | over every interleaving of calls the in-flight amount is the sum of the open reserves, and the committed amount is at most the limit, its slack of 1e-9 dollars, and the overruns of settled attempts |
| `SpendGuard.NothingLeaks` | packages/engine/src/spend-guard.ts:118-155 | with every reserve closed, nothing stays in flight |
| `Retry.BackoffIsWithinJitter` | packages/engine/src/retry.ts:30-37 | a backoff is 500 ms doubled per attempt, within a fifth, whatever the draw |
| `Retry.BackoffFollowsDraw` | packages/engine/src/retry.ts:30-37 | the jitter takes a backoff evenly from four fifths of its base to six fifths as the draw grows |
| `Retry.RetryHonoursServerAndCap` | packages/engine/src/retry.ts:106-123 | a retry only below the attempt cap, of a transient retryable failure, at most once after an invalid response, and not before the server's delay |
| `Retry.RetriedExactly` | packages/engine/src/retry.ts:100-123 | retried exactly when the failure is retryable and transient, an attempt of 4, 2 or 1 is left and it is not a second invalid response; the delay is the backoff or the server's, of at most a day, if longer |
| `PackSplitting.SplitQuestions` | packages/engine/src/router.ts:260-281 | null exactly when a single question does not fit, and then no split exists; else packs in order that concatenate to the input, each nonempty and fitting, and no contiguous split uses fewer |
| `PackSplitting.TightIsMinimal` | packages/engine/src/router.ts:260-281 | greedy packs are as few as any contiguous split, for any monotone estimate |
| `PackSplitting.GreedyStaysAhead` | packages/engine/src/router.ts:260-281 | after any number of packs the greedy split has covered at least as much as any other |
| `PackSplitting.OversizedMeansNoSplit` | packages/engine/src/router.ts:260-281 | a question too large alone is too large in every pack |
| `PackSplitting.OutputEstimateIsMonotone` | packages/engine/src/llm-fallback-engine.ts:261-278 | the estimate the router splits by is monotone |
| `PackSplitting.EstimateIsOfTheText` | packages/engine/src/llm-fallback-engine.ts:261-278 | the estimate is 20 tokens and one for every two and a half characters of the printed answers, a part counting whole |
| `Normalize.Distribution` | packages/engine/src/normalize.ts:269-287 | accepted exactly when the keys are exactly those asked, the values are probabilities and sum to one within tolerance; then the result is a distribution |
| `Normalize.TolerancesAre` | packages/engine/src/normalize.ts:269-327 | a sum may be off by 0.02, and a reported score by 0.02 from the expected level before or after renormalizing, with a slack of 1e-9 |
| `Normalize.RenormalizedIsDistribution` | packages/engine/src/normalize.ts:269-287 | dividing by the sum gives probabilities that sum to one |
| `Normalize.Argmax` | packages/engine/src/normalize.ts:295-304 | the first position of the largest value |
| `Normalize.ArgmaxSurvivesRenormalizing` | packages/engine/src/normalize.ts:295-327 | the first argmax is the same before and after renormalizing |
| `Normalize.ExpectedLevelBounds` | packages/engine/src/normalize.ts:290-293 | the expected level lies between 0 and the last level times the total |
| `Normalize.LevelKeysAreDistinct` | packages/engine/src/normalize.ts:329-338 | the keys of the levels never collide |
| `Normalize.AcceptedExactly` | packages/engine/src/normalize.ts:345-426 | which raw answers of each kind and format are accepted, in the numbers, keys and types sent |
| `Normalize.DecimalIs` | packages/engine/src/normalize.ts:329-338 | a level's key is its number in decimal digits |
| `Normalize.NormalizeJevAnswer` | packages/engine/src/normalize.ts:346-391 | accepted exactly when type, distribution, choice, score and confidence agree; then `p` is the number sent, each option or level has the probability sent divided by their sum, and the confidence is the one reported, if any |
| `Normalize.NormalizeLlmAnswer` | packages/engine/src/normalize.ts:393-426 | accepted exactly when the object holds just the probability or just a valid distribution; then the answer is the number sent, or each probability sent divided by their sum |
| `Normalize.NormalizeAnswers` | packages/engine/src/normalize.ts:428-452 | accepted exactly when the requested keys, no more and no fewer, are answered acceptably; then each key's answer is sound and says what was sent for that key |
| `Router.LaneRun.ReleaseUnsent` | packages/engine/src/router.ts:740-761 | released, with the eval reserve cancelled, at the first of at most three tries that works, else charged, with the reserve kept |
| `Router.LaneRun.TakeReserve` | packages/engine/src/router.ts:552-580 | the eval reserve, then the store's; which of them refused or raised decides the refusal, and the eval reserve is cancelled |
| `Router.LaneRun.ReserveAndSend` | packages/engine/src/router.ts:544-611 | sent exactly if nobody asked refuses, and then as the next ordinal on an admitted reservation of the estimate; otherwise nothing stays reserved, the reason is that of the first refusal, and the calls on the eval budget are those the attempt's account names |
| `Router.LaneRun.WithCredential` | packages/engine/src/router.ts:614-632 | authenticated exactly if the resolver handed a credential out; only an injected engine is ever sent to without one |
| `Router.LaneRun.AdmitAndSend` | packages/engine/src/router.ts:671-705 | sent under all the lane's permits, in order, and every permit returned on every exit |
| `Router.LaneRun.AttemptOnce` | packages/engine/src/router.ts:634-665 | sent exactly if limiter, slots, probe lease, credential, eval budget and store all agree, keeping its rate ticket and reservation and returning the provider's report; else the first refusal is the result, its rate debit is refunded and its reservation refused, released or left charged |
| `Router.LaneRun.SendOrRefund` | packages/engine/src/router.ts:653-665 | an attempt that has its rate ticket keeps it exactly if it is sent |
| `Router.LaneRun.SettleWithRetry` | packages/engine/src/router.ts:707-733 | settled at the first of at most three tries that works, else left charged |
| `Router.LaneRun.Settle` | packages/engine/src/router.ts:764-845 | a sent attempt is settled at its known cost or charged its reserve, counted in what was spent, and an overrun is a known cost above the reserve |
| `Router.LaneRun.TryOnce` | packages/engine/src/router.ts:896-920 | an attempt with its settlement leaves the account balanced, and its record follows from what it was told |
| `Router.SentExactly` | packages/engine/src/router.ts:544-705 | an attempt goes out exactly if the store admitted it and nobody asked before said anything but yes, save a probe lease that was lost and admitted again |
| `Router.CostsAre` | packages/engine/src/router.ts:764-800 | unknown billing has no known cost, a known failure without usage is free, and what a repriceable engine used is priced at the attempt |
| `Router.LaneRun.AfterFailure` | packages/engine/src/router.ts:920-953 | retried exactly after a transient retryable failure within its reservation, below the cap, not a second invalid response, after the backoff or the server's delay if longer; else the pack ends as the failure says; unless cancelled, a 429 penalizes the limiter and a refused credential that was sent is condemned |
| `Router.LaneRun.BeforeRetry` | packages/engine/src/router.ts:881-895 | deferred exactly when the wait would pass the deadline or is too long, cancelled exactly when the sleep is cut, denied exactly when no probe is held and the breaker says no |
| `Router.LaneRun.AfterRefusal` | packages/engine/src/router.ts:897-919 | each refusal of an attempt ends its pack with the outcome it stands for, as a failure exactly for a deferral or an open circuit after an earlier send |
| `Router.LaneRun.PackTry` | packages/engine/src/router.ts:879-953 | one turn: the wait ends the pack, or one more attempt is made and what it was told decides the end of the pack or the delay before the next |
| `Router.LaneRun.RunPack` | packages/engine/src/router.ts:869-955 | turns that each end in a retry, after exactly the delay the one before decided, and one that ends the pack with the result its attempt or its wait calls for; at most 4 Jev or 2 LLM attempts, at most one invalid response retried, no retry after an overrun; the shared breaker consulted before every retry, and before the first attempt exactly if it was just asked or a probe is held; a real engine's answers say what a reply sent |
| `Router.LaneRun.OnePack` | packages/engine/src/router.ts:977-990 | a pack adds exactly its own questions to those answered, each answer as some reply sent it |
| `Router.LaneRun.RunPacks` | packages/engine/src/router.ts:973-1017 | the packs run in order, each after one answered within its reservation; the lane ends as the last one does if it failed, threw, or overran with packs to go, and otherwise with everything answered, provided no question is left out; an attempt sent goes without a look at the shared breaker exactly if it opens a later pack with no probe held |
| `Router.LaneRun.Run` | packages/engine/src/router.ts:959-1024 | cancelled, without a credential or denied by the breaker, in that order, a lane takes nothing; admitted, it runs its packs and reports exactly the verdict they come to; the cost reported is the cost of all attempts, a real engine's success answers exactly the requested keys as its replies sent them, and the shared eval budget stays balanced |
| `Router.Ask` | packages/engine/src/router.ts:1124-1186 | the first lane's result is that of its run, and the LLM is tried exactly for enabled interactive work whose questions fit, after a failure other than a bad request, lost demand, a budget refusal or a cancellation; its result stands only if it answers, throws or lost its demand; at most four Jev attempts and two per question on the LLM; a success has every requested key |
| `Router.PackConsults` | packages/engine/src/router.ts:879-895 | a first pack begins right after the breaker was asked and a later one never does, so its opening attempt is consulted exactly if a probe is held |
| `Router.LaterPackGoesUnasked` | packages/engine/src/router.ts:881-893 | a balanced account of two packs whose second goes out without a look at the shared breaker |
| `Router.LaneReplays` | packages/engine/src/router.ts:555-580 | a lane's account is a legal sequence of calls on the eval budget that leaves no reserve open, and what is committed after it is at most the limit, its slack, the overruns before, and those of its own attempts |
| `Router.OneTicketPerSend` | packages/engine/src/router.ts:653-664 | a balanced account of the limited lane keeps exactly one rate ticket per attempt sent |
| `Router.EveryOrdinalOnce` | packages/engine/src/router.ts:582-583 | the ordinals sent are exactly 1 up to their number, each once |
| `Router.MergeKeepsAnswers` | packages/engine/src/router.ts:977-998 | merging a pack's answers into those before keeps every answer and adds exactly its own keys |
| `Router.MergeKeepsReports` | packages/engine/src/router.ts:977-998 | and every answer still says what some reply of the lane sent for its question |
| `Outbox.JobOutbox.InsertWorkerIntent` | packages/db/src/outbox.ts:111-131 | the upsert is the specified one, and is reported written exactly when a row changed |
| `Outbox.JobOutbox.InsertWorkerIntents` | packages/db/src/outbox.ts:49-79 | a batch never fails on its own rows and leaves what one-by-one inserts leave |
| `Outbox.JobOutbox.InsertIntent` | packages/db/src/outbox.ts:16-25 | a tenant insert adds a row or, on a conflict, changes none |
| `Outbox.UpsertDoes` | packages/db/src/outbox.ts:111-131 | a worker insert appends one new row due when asked or now, or re-arms the one undelivered row of its queue and key, and touches no other |
| `Outbox.TenantInsertDoes` | packages/db/src/outbox.ts:16-25 | a tenant insert appends one row or, when an undelivered row of its queue and key is there, changes none; the identity value is used up either way |
| `Outbox.JobOutbox.ClaimDue` | packages/db/src/outbox.ts:177-212 | claims the first due, unlocked, unleased rows in order, as many as allowed, under the new lease |
| `Outbox.ClaimingDoes` | packages/db/src/outbox.ts:177-212 | the rows claimed wait, are no more than allowed and precede every waiting row left; each gets the lease and one more attempt, and no other row changes |
| `Outbox.JobOutbox.Complete` | packages/db/src/outbox.ts:214-223 | delivers the row exactly while the token still owns it |
| `Outbox.JobOutbox.Fail` | packages/db/src/outbox.ts:225-236 | keeps the row due again exactly while the token still owns it |
| `Outbox.SettlingDoes` | packages/db/src/outbox.ts:214-236 | completion and failure change the one row the token still owns, as they say, and no other |
| `Outbox.JobOutbox.PurgeDelivered` | packages/db/src/outbox.ts:247-268 | removes exactly the old delivered rows and counts them |
| `Outbox.JobOutbox.PurgeDeliveredUpTo` | packages/db/src/outbox.ts:247-268 | with a limit, the specified purge, and how many rows went |
| `Outbox.PurgeTakesTheFirst` | packages/db/src/outbox.ts:243-268 | with a limit, at most that many old delivered rows go, fewer only if none is left, and those with the least ids |
| `Outbox.PurgeDoes` | packages/db/src/outbox.ts:247-268 | only rows delivered before the cutoff go, and without a limit all of them |
| `Outbox.DistinctIntents` | packages/db/src/outbox.ts:54-63 | the filter with its set of keys keeps first occurrences and every keyless intent |
| `Outbox.UpsertKeepsWellFormed` | packages/db/src/outbox.ts:111-131 | at most one undelivered row per queue and key, whatever is inserted |
| `Outbox.BatchEqualsSequential` | packages/db/src/outbox.ts:49-79 | for every list, with repeated and null keys, on leased, unleased and absent rows, the batch leaves the table of one-by-one inserts, identity values aside |
| `Outbox.BatchIsItsRows` | packages/db/src/outbox.ts:49-79 | without repeated keys the tables agree on identity values too |
| `OutboxRelay.RelayIntent` | apps/worker/src/outbox-relay.ts:94-184 | delivered only with a job known to exist and the lease still ours; else the row stays with the error of what went wrong, due after the delay that calls for, an exception of the update that keeps it included; only one more exception, in the handler's update, escapes, and the row is as it was; a missing queue is reported until a job is known there |
| `OutboxRelay.RelayOnce` | apps/worker/src/outbox-relay.ts:70-92 | claims the first due intents under one token, every row leased and no other; each is settled as its answers call for, in order, and counted exactly once by what became of it, unless an exception escapes, which ends the pass there |
| `OutboxRelay.ClaimIntents` | packages/db/src/outbox.ts:200-210 | exactly the leased rows come back, one entry each, with its own id, queue, attempts and token |
| `OutboxRelay.MissingIsLatest` | apps/worker/src/outbox-relay.ts:150-165 | after a pass a queue counts as missing exactly if the last intent for it that could tell found it so |
| `OutboxRelay.ListedInOrder` | packages/db/src/outbox.ts:201-210 | the claimed intents are in order of their ids |
| `OutboxRelay.BackoffGrowsToItsCap` | packages/db/src/outbox.ts:239-241 | the delay starts at a second, doubles until it reaches fifteen minutes, and never shrinks |
| `OutboxRelay.WaitsAre` | apps/worker/src/outbox-relay.ts:61-62 | an hour for what can never be sent as it is, five seconds for a conflict, the options' delays otherwise, the backoff after an exception |
| `WakeUp.StepKeepsInv` | packages/db/src/outbox.ts:177-236 | a lease on a row is the lease of the flight with its token, through every step |
| `WakeUp.StepsDo` | apps/worker/src/outbox-relay.ts:94-184 | which steps add a job, mark an intent sent, end a relay or touch the table, and that nothing else does |
| `WakeUp.CoversMeans` | packages/db/src/outbox.ts:268-286 | an equivalent job has not started, waits in the queue under the key, and carries the payload unless debounced or of a full or estimate rank; the job sent for an intent is one |
| `WakeUp.StepKeepsOwed` | packages/db/src/outbox.ts:111-236 | a wake-up owed stays owed through every step but a late completion of its row, or a job for it exists and has not started |
| `WakeUp.OnlyALateCompletionTakes` | packages/db/src/outbox.ts:214-223 | completion can remove an owed row only at or after the end of its lease |
| `WakeUp.NoLostWakeUp` | packages/db/src/outbox.ts:16-25 | in every interleaving, from any moment at which a wake-up is owed, its row stays undelivered or there is a later moment at which an equivalent job had not started, unless a relay completes that very row at or after the end of its lease |
| `WakeUp.WorkerWakeUpIsNotLost` | packages/db/src/outbox.ts:111-131 | every worker enqueue of a key is such a moment |
| `WakeUp.LostExactlyByALateCompletion` | packages/db/src/outbox.ts:214-223 | in a run that owes a wake-up and never covers it, the row is there throughout exactly if no relay completes it late |
| `WakeUp.SafeExactly` | packages/db/src/outbox.ts:111-236 | a pending wake-up is safe in every continuation exactly if no relay is ahead of it or its job waits |
| `WakeUp.TenantInsertIsSafeExactly` | packages/db/src/outbox.ts:16-25 | a tenant insert is safe in every continuation exactly if no relay that has sent the pending row can still complete it in time, or the row's job waits |
| `WakeUp.TenantOwes` | packages/db/src/outbox.ts:16-25 | a tenant insert on a row without a live lease, or on none, owes its wake-up |
| `WakeUp.WorkerEnqueueIsSafe` | packages/db/src/outbox.ts:111-131 | a worker enqueue is safe in every continuation |
| `WakeUp.TenantWakeUpCanBeLost` | packages/db/src/outbox.ts:16-25 | a tenant insert under a live lease can be lost |
| `WakeUp.LateCompletionLosesAWakeUp` | packages/db/src/outbox.ts:214-223 | a completion at the end of its lease can lose a worker's wake-up |
| `TopK.TopAbsorbs` | apps/ops/src/retention.ts:76-77 | if the top k survived an earlier cut, cutting again with newcomers gives what the whole history gives |
| `Calendar.IdsAreChronological` | apps/ops/src/retention.ts:23-37 | valid ids sort as the instants they name |
| `Calendar.InstantsAre` | apps/ops/src/retention.ts:23-37 | an id names its date at its time of day, the epoch is zero, and a day is 24 hours |
| `Calendar.DaysCount` | apps/ops/src/retention.ts:23-37 | days are counted one by one from 1970-01-01, over month ends and leap years |
| `Calendar.MonthsAre` | apps/ops/src/retention.ts:23-37 | the Gregorian months, leap years included |
| `Calendar.SundaysAre` | apps/ops/src/retention.ts:83 | 1970-01-04 was a Sunday and so is every seventh day |
| `Retention.PlanRetention` | apps/ops/src/retention.ts:62-98 | exactly the backups with a reason stay, with all their reasons, and the others are pruned oldest first |
| `Retention.ReasonsAre` | apps/ops/src/retention.ts:62-98 | a date among the 7 latest, the last backup of one of the 4 latest Sundays or 6 latest firsts, the latest restore-tested one, or a future one |
| `Retention.GracesAre` | apps/ops/src/retention.ts:100-110 | leftovers of a failed backup go after two days, a ledger copy after 193 |
| `Retention.RecentDays` | apps/ops/src/retention.ts:76-77 | the dates picked are the most recent of the bucket |
| `Retention.NewestOf` | apps/ops/src/retention.ts:74-75 | the newest backup of a date, when it has one |
| `Retention.TopIsTheEnd` | apps/ops/src/retention.ts:76-77 | sorting, reversing and slicing selects the top k |
| `Retention.PruningIsHistoryIndependent` | apps/ops/src/retention.ts:62-98 | pruning early changes neither what a later prune keeps nor its reasons |
| `Retention.RepeatedPruningKeepsTheSame` | apps/ops/src/retention.ts:62-98 | any sequence of prunes keeps what one prune of every backup ever made would |
| `Retention.NewestIsKept` | apps/ops/src/retention.ts:62-98 | the newest backup is never pruned |
| `BackupStore.Bucket.DeleteBackup` | apps/ops/src/backup-store.ts:118-128 | a doomed backup goes with its manifest first, and every moment is safe |
| `BackupStore.Bucket.DeleteLedgerCopies` | apps/ops/src/backup-store.ts:130-143 | exactly the expired copies older than every kept backup go; with none kept, none |
| `BackupStore.Bucket.Prune` | apps/ops/src/backup-store.ts:98-145 | exactly what goes is deleted and counted, every prefix of this prune's deletions is crash-safe, and a dry run deletes nothing and counts the same |
| `BackupStore.GoesAre` | apps/ops/src/backup-store.ts:98-143 | objects of whole backups without a reason go, those of others after two days, and ledger copies past their days that are older than every backup kept |
| `BackupStore.KeptAre` | apps/ops/src/backup-store.ts:86-116 | whole backups have a proper id, their manifest and no failure marker, and those with a reason among the whole ones stay |
| `BackupStore.OrderlyIsCrashSafe` | apps/ops/src/backup-store.ts:86-145 | wherever it stops, a backup that looks valid is whole, no failed one becomes valid, the latest valid is unchanged, and no ledger copy at or after a kept backup is gone |
| `BackupStore.LaterPruneKeepsTheSame` | apps/ops/src/backup-store.ts:98-145 | whatever backups, markers and ledger copies were added since, a prune after one that stopped anywhere keeps what it would have kept without the earlier one |
| `BackupStore.PruneAfterCrash` | apps/ops/src/backup-store.ts:98-145 | the same with nothing added |
| `ModelProbe.ModelProbes.Record` | apps/worker/src/model-probe.ts:355-379 | the locked update merges one probe and keeps the newest ten |
| `ModelProbe.Cut` | apps/worker/src/model-probe.ts:375-378 | as many as allowed, none older than one dropped |
| `ModelProbe.RecordKeepsNewest` | apps/worker/src/model-probe.ts:355-379 | one more probe keeps the newest of everything recorded, although dropped probes are forgotten, exactly if no newer stored probe of its model is passed over as too far ahead of the clock |
| `ModelProbe.StoreIsNewestExactly` | apps/worker/src/model-probe.ts:355-379 | over every run with distinct times, the store is always the newest of the per-model newest exactly if no recording passes a newer one over |
| `ModelProbe.StoreIsOrderIndependent` | apps/worker/src/model-probe.ts:355-379 | with distinct times, and no newer probe of a model beyond the skew of the clock that later records an older one, the store ends with the newest ten of the per-model newest |
| `ModelProbe.AnyOrderStoresTheSame` | apps/worker/src/model-probe.ts:355-379 | two runs over the same probes end with the same store |
| `ModelProbe.PairOrderMattersExactly` | apps/worker/src/model-probe.ts:368-371 | two probes of one model are stored alike in both orders exactly if the newer one is within the skew of the clock that records the older one second |
| `ModelProbe.FutureStampsDependOnOrder` | apps/worker/src/model-probe.ts:368-371 | a pair beyond the skew for which order decides |
| `CpuPool.CpuPool.RunTask` | apps/worker/src/cpu-pool.ts:125-136 | a closed pool refuses; an open one queues under the next id and dispatches |
| `CpuPool.CpuPool.Dispatch` | apps/worker/src/cpu-pool.ts:144-157 | the loop is the specified dispatch |
| `CpuPool.CpuPool.OnMessage` | apps/worker/src/cpu-pool.ts:167-180 | a reply settles the task its thread runs and nothing else |
| `CpuPool.CpuPool.OnExit` | apps/worker/src/cpu-pool.ts:185-192 | an exit fails only that thread's task and frees its slot |
| `CpuPool.CpuPool.Retire` | apps/worker/src/cpu-pool.ts:196-201 | a busy thread of an open pool is not retired |
| `CpuPool.CpuPool.OnIdle` | apps/worker/src/cpu-pool.ts:177-178 | an idle timer that is armed goes off once and retires its thread |
| `CpuPool.CpuPool.Close` | apps/worker/src/cpu-pool.ts:138-142 | closing settles the queue and gives up every slot |
| `CpuPool.EveryTaskIsInOnePlace` | apps/worker/src/cpu-pool.ts:105-202 | each task accepted is in exactly one of queued, on one thread, settled |
| `CpuPool.StepKeepsInv` | apps/worker/src/cpu-pool.ts:105-202 | every event keeps tasks accounted for, order of arrival, the bound on slots, and work conservation |
| `CpuPool.EventsDo` | apps/worker/src/cpu-pool.ts:105-202 | what each call, reply, crash, idle timer and close does to queue, threads, slots and endings, and that anything else does nothing |
| `CpuPool.DispatchDoes` | apps/worker/src/cpu-pool.ts:144-157 | a round gives the first queued tasks, in order, to idle slots and then to new ones, and stops only when tasks or room run out |
| `CpuPool.AlwaysAccountedFor` | apps/worker/src/cpu-pool.ts:105-202 | the same over every sequence of calls, replies, crashes, timers and close |
| `CpuPool.AlwaysTimed` | apps/worker/src/cpu-pool.ts:144-201 | in every run exactly the idle threads have their idle timer armed |
| `CpuPool.RecordsGrow` | apps/worker/src/cpu-pool.ts:105-202 | a task once started or settled stays so |
| `SettingsCache.RuntimeSettingsCache.GetSettings` | packages/db/src/runtime-settings.ts:68-71 | a fresh snapshot, the load in flight, or a new one |
| `SettingsCache.RuntimeSettingsCache.OnLoaded` | packages/db/src/runtime-settings.ts:44-60 | a load of the current generation becomes the snapshot; a failed one serves the last good snapshot marked, or fails |
| `SettingsCache.RuntimeSettingsCache.InvalidateAll` | packages/db/src/runtime-settings.ts:73-77 | the snapshot is no longer current, and the load in flight is not waited for any more |
| `SettingsCache.RuntimeSettingsCache.OnCleared` | packages/db/src/runtime-settings.ts:62-65 | an ended load is forgotten only while it is the one in flight |
| `SettingsCache.StepKeepsInv` | packages/db/src/runtime-settings.ts:28-80 | every event keeps one load in flight per generation and fresh snapshots no older than the last invalidation |
| `SettingsCache.AnsweredExactly` | packages/db/src/runtime-settings.ts:68-71 | the snapshot is served exactly while it is current and younger than its lifetime, else the load in flight, else a new one |
| `SettingsCache.SnapshotSince` | packages/db/src/runtime-settings.ts:44-60 | a snapshot loaded in a run is that of a load of the run, dated when it ended |
| `SettingsCache.ReadAfterInvalidate` | packages/db/src/runtime-settings.ts:67-78 | a read after an invalidation gives values loaded since it or waits for a load started since it |
| `SettingsCache.LoadEnds` | packages/db/src/runtime-settings.ts:42-60 | how a load ends: its own values, the last good snapshot marked, or an error; a load of an older generation never becomes the snapshot |
| `SettingsCache.ReaderGets` | packages/db/src/runtime-settings.ts:41-80 | a read begun after an invalidation gets at once values made since of the rows a load read, less than their lifetime ago, or the end of a load started since: its own values, the last good snapshot of that moment marked, or an error exactly when there was none |
| `SettingsCache.OneLoadPerGeneration` | packages/db/src/runtime-settings.ts:41-66 | never two unfinished loads of one generation |
| `ModelWatch.IsOlderSameMajorRelease` | apps/worker/src/model-watch.ts:34-67 | the loops compute the specified order |
| `ModelWatch.OlderIsAStrictOrder` | apps/worker/src/model-watch.ts:34-67 | a strict partial order on all releases, total within a major up to equal standing |
| `ModelWatch.IncomparableIsAnEquivalence` | apps/worker/src/model-watch.ts:34-67 | a strict weak order within one major |
| `ModelWatch.AgreesWithSemVer` | apps/worker/src/model-watch.ts:30-67 | without a fourth number, on valid ids, it is the precedence of section 11 of Semantic Versioning 2.0.0 |

## Left out

- BatchEqualsSequential: compares rows without their identity values, because a repeated intent inserted on its own consumes one that the batch does not; `BatchIsItsRows` has the ids.
- NoLostWakeUp: speaks of intents with a key; an intent without one is never merged with another.
- ProbesNeverOverlap: takes every attempt to end before its lease does, which the adapters' timeouts are for, and resets only while no lease is live; `ResetIsSafeExactly` says why.
- ResetIsSafeExactly: lets a clock reading taken before the row lock be arbitrarily old; `ResetLetsProbesOverlap` needs none that is.
- AccountLimit: is over real numbers; floating-point rounding of levels and amounts is not modelled anywhere.
- WithCredential: takes the resolver to call back at most once and to pass the callback's result on, as apps/worker/src/credentials/resolver.ts:222-245 does.
- Ask: is the automatic choice of engine; pinned engines and the local engine are not modelled.
- LaneReplays: replays one lane's calls one after another; calls of other requests in between are `NeverOvershoots`.
- Poll: covers the unforced poll; a forced one and readers that share one poll in flight are not modelled.
- Prune: leaves the order of a backup's objects after the manifest open, and assumes no other writer to the bucket during the run.
- LaterPruneKeepsTheSame: new objects belong to backups the earlier prune has not touched, and a valid backup gains nothing but its restore-test marker.
- NormalizeAnswers: takes the entropy formula as an arbitrary function, clamped as the source clamps it, and answers as plain JSON data without prototypes, getters or depth limits.
- IsOlderSameMajorRelease: starts from the parsed numbers and the text after them; the regular expression and the string prefix are not modelled.
- ClaimDue: takes the rows locked by other transactions as an input; deadlocks and serialization retries are not modelled.
- The protocol of `WakeUp` purges without a row limit.
- One clock reading stands for all readings of one synchronous call of the rate limiter, and minus infinity is `None`.
- Constructors that throw on a bad capacity, share or factor have that condition as a precondition.
- The JSON shape of requests, validation of ids and digests, call rows, usage rows, logs and error details.
- The daily budget and call caps of the store, external calls and the local Laya lane: the store's answers are inputs, and the lanes proved here are the two paid ones.
- A store call that throws after it took effect: an exception counts as not done.
- The relay's polling loop, the tenant's batch insert, the rank-coverage query and the outbox age metric.
- HTTP adapters, credentials, PostgreSQL roles and row-level security, pg-boss, S3 signing, worker threads themselves, and all user interfaces.
- Record: starts from well-formed stored entries and leaves out the impact row; among probes of equal time only which one replaces which is modelled.
- Model candidates and notices, the prober's own budget, and the shutdown and readiness helpers.
