# HertaSDK: a verified model

HertaSDK is an in-process execution runtime for Go. A `Runtime` owns named budgets (weighted semaphores),
a key space (per-key mutual exclusion) and an admission gate; an `Operation` binds a handler to a policy; `Do` passes a
call through gate, key, budgets and the retry loop; `Shutdown` stops admission, withdraws every waiter and drains. Beside
the runtime the repository keeps a reference model of that contract, written as a sequential simulator, and a small
library for factorial experiments. This project models all three and proves what they promise.

- **The runtime as a step machine** (`Protocol`). Any number of calls and `Shutdown` threads take steps in any order; each
  atomic instruction and each critical section is one step. The one-slot wake-up channel, the race between a grant and a
  caller giving up, the pooled key entries, the lock-free `full` flag and the packed gate word are all there. `Invariant`,
  `KeyInvariant`, `GateInvariant` and `Safety` carry one invariant through every step; `Progress`, `Guarantees`, `Books`,
  `Callers` and `Fairness` draw the consequences. `Call.book` is a history variable: it records every unit charged and
  every key handed over at the steps that do it, and no step reads it.
- **The runtime's objects in place** (`WaitQueue`, `Resources`, `KeyLockers`). The linked queue, the budget and the
  locker are classes whose methods are proved against the pure `Budgets` and `KeyLockers.Queues`.
- **The reference model** (`Sems`, `Keys`, `Execs`, `Cascade`, `CascadeKeys`, `Systems`, `Minimizer`), in place, with the
  refinements that tie it to the runtime: `BudgetRefinement`, `ResourceRefinement`, `KeyRefinement`,
  `KeyLockerRefinement`, `RetryAgreement`. `Systems.System` is the whole simulator, whose driver recurses through finish,
  release and wake.
- **Validation, verdicts and attempts** (`Validate`, `Outcomes`, `Attempts`).
- **Factorial designs and histograms** (`Bits`, `Designs`, `Aliases`, `Estimates`, `Histograms`).

`dafny verify dfyconfig.toml` checks everything.

## Findings

Where the code falls short of its documentation, the model follows the code, and a lemma names the input and says exactly
when the promise holds.

- **A nil `*Failure` hides a verdict.** `tagged` stops at the first `*Failure` of the chain even when it is nil
  (outcome.go:65-68), so a real verdict behind it reads as Permanent: `Outcomes.NilFailureHidesAVerdict`. The verdict is
  lost exactly when the first failure of the chain is nil: `Outcomes.TagIsTheFirstFailure`.
- **A closed budget splits the modes.** After `close` the `full` flag stays set, so a Reject call is refused units a Wait
  call would be given: `Budgets.ClosedBudgetSplitsTheModes`; on a settled budget the flag refuses a fitting request exactly
  when the budget is closed: `Budgets.FastRefusalIsExact`.
- **The context is tested once, not before each claim.** The contract (docs/contract.md:96) has a Wait claim test the
  caller's context; `admit` tests it before the key and not again (operation.go:102-106), so a caller that ends in between
  takes a claim exactly when it is free at once: `Callers.LateEndTakesWhatIsFree`. Its handler still never runs
  (`Callers.EndedCallerStartsNothing`) and everything comes back (`Guarantees.EverythingComesBackOnce`).
- **The reference semaphore overflows.** lab/model/sem.go adds before it compares, where the runtime subtracts. From an
  idle budget the two answer every run alike if and only if twice the capacity is at most 2^63 - 1:
  `Sems.RunsAgreeExactlyWhenSmall`. Past that bound taking the capacity twice tells them apart:
  `Sems.TakingItTwiceOverflows`.
- **The gate counts to 2^62 - 1.** One more call would set the drained bit: `GateInvariant.GateCountsBelowItsBound`. The
  machine lets calls enter below the bound only.
- **The histogram clamps at 2^41, not 2^40.** lab/doe/hist.go:25 says values from 2^40 on clamp; the code clamps from 2^41 on:
  `Histograms.BucketOfItsValues`. The promise of 0.8% holds for a rank exactly when its value is below the clamp or not too
  far above it: `Histograms.QuantileIsClose`.
- **Designs of 32 factors or more.** Masks and words are 32 bits wide: from 32 factors on the word loop never runs and
  there are no contrasts, `Aliases.Contrasts`, `Aliases.ClassSizes`; and a design covers its columns evenly exactly with at
  most 32 base factors, `Designs.DesignsAreUniform`.

## Model

| member | source | states |
|---|---|---|
| Safety.StepKeepsInv | operation.go:70-135 | Every step of every call and Shutdown keeps the invariant: each budget's use is the sum of what calls hold and within its size, queues hold exactly the waiting calls, one token at most per waiter, key entries match their holders, gate word, counters and reasons agree |
| Safety.RunKeepsInv | operation.go:70-135 | The invariant holds in every state of every run |
| Progress.OnlyWaitersBlock | waiter.go:32-52 | A call under way can take a step if and only if it is not parked without token and with a live context; no send or receive on a wake-up channel ever blocks |
| Progress.NoDeadlock | docs/contract.md:116-121 | Behind every parked call stands a call in flight that can move by itself and holds a key or units |
| Progress.RunsAreFinite | operation.go:70-88 | No livelock: every run is at most as long as a bound fixed by the calls, their claims and attempts |
| Progress.StalledMeansFinished | operation.go:70-88 | When no entered call can move, every call has returned |
| Guarantees.AdmissionIsAllOrNothing | operation.go:90-127 | In every reachable state, by the charges recorded and the locker's map: a key waiter has taken nothing, a call waiting for claim i holds its key and took exactly the claims before i, a running handler has everything, a failed call has given everything back |
| Guarantees.EverythingComesBackOnce | operation.go:70-88 | A call that has returned, panics included, took a prefix of its claims once each, gave the same claims back once each in reverse order, and its key as often as it got it; if the handler ran it had everything |
| Guarantees.UnitsAreConserved | resource.go:20-22 | In every reachable state a budget's units in use are exactly those all calls took and have not returned, within its size and below 2^63, and no call is owed more than the budget lent |
| Guarantees.IdleMeansEmpty | docs/contract.md:154-163 | With no call in flight every budget is whole, no key is held and finished equals admitted |
| Guarantees.OneHolderPerKey | keys.go:29-62 | Two calls that hold the same key are the same call |
| Guarantees.EntryExactlyWhileHeld | keys.go:91-102 | The locker has an entry for a key if and only if some call holds the key |
| Guarantees.EntriesAreNotReused | keys.go:26-102 | Whoever holds or waits for a key points at that key's own live entry, never at one the pool took back |
| Guarantees.DoneClosesOnce | runtime.go:88-95 | done is closed at most once, only when stopping with nothing in flight, and no second close is under way |
| Guarantees.DrainIsNeverLost | runtime.go:82-95 | Once stopping, with every call out of the gate and every Shutdown past its marking, done has been closed |
| Guarantees.NilShutdownIsForever | runtime.go:97-119 | After a Shutdown has returned nil, at every later moment nothing is in flight, every budget is whole, no key is held and finished equals admitted |
| Guarantees.RunIsOnward | runtime.go:26-29 | Along every run the counters, the stopping bit, done and a Shutdown's nil only advance |
| Guarantees.StoppingAdmitsNobody | runtime.go:63-73 | Once the stopping bit is set, a call that enters is turned away |
| Guarantees.SnapshotsAreOrdered | runtime.go:121-133 | A Stats snapshot whose loads fall at three moments of a run never shows finished or started above admitted |
| Guarantees.WaitFailsOnlyForCause | errors.go:36-52 | A returned Wait call that never ran its handler met its own ended context or Shutdown; only Reject calls are told of overload; tries never exceed the attempts allowed |
| Callers.DoneCallerTakesNothing | operation.go:99-106 | A keyed or Wait call whose context ended before admission never holds, waits for or is charged anything at any later moment, never runs its handler, and reports its context |
| Callers.EndedCallerStartsNothing | attempt.go:10-17 | Once its context has ended a call begins no further attempt at any later moment but one already past the test, and one caught between attempts returns the context's error |
| Callers.LateEndTakesWhatIsFree | operation.go:114-125 | A Wait call that reaches a claim with an ended context takes it if and only if nobody is queued and it fits, and otherwise starts giving back |
| Books.StepKeepsBooks | operation.go:128-135 | Every step keeps each call's history of charges and returns in agreement with where the call is |
| Books.OutstandingIsHeld | operation.go:128-135 | What a call took and has not returned is what its position says it holds |
| Books.OwnerIsNamed | keys.go:82-102 | A call holds its key by position if and only if the locker's map entry for that key names it |
| GateInvariant.GateCountsBelowItsBound | runtime.go:10-13 | One more call is counted, both flags untouched, if and only if fewer than 2^62 - 1 are in the gate |
| Fairness.StepRefinesBudgets | resource.go:55-146 | Every step of the machine works every budget by exactly one operation of that budget |
| Fairness.StepKeepsOrder | docs/contract.md:104-108 | No step lets a waiter overtake another of the same budget |
| Fairness.StrictFifo | docs/contract.md:104-108 | Over a whole run, of two waiters of a budget the earlier stays ahead as long as it is queued and the later does not give up |
| Fairness.HeadIsNeverOvertaken | docs/contract.md:107 | While the same waiter heads a budget's queue the units in use never grow |
| Fairness.StepKeepsKeyOrder | docs/contract.md:111-112 | No step lets a waiter overtake another of the same key |
| Fairness.StrictKeyFifo | docs/contract.md:111-112 | The run-level FIFO of budgets, for the waiters of a key |
| Budgets.GrantServesAPrefix | resource.go:130-137 | grant serves exactly a prefix of the queue, charges its weight and leaves a head that does not fit |
| Budgets.GrantIsTheLongestFittingPrefix | docs/contract.md:107 | The prefix served is the longest whose every beginning fits, found by weights alone |
| Budgets.FastRefusalIsExact | resource.go:55-68 | The lock-free refusal turns away a fitting request if and only if the budget is closed |
| Budgets.ClosedBudgetSplitsTheModes | resource.go:55-80 | A closed idle budget refuses by tryAcquire what acquire grants |
| WaitQueue.WaitQ.Push | waiter.go:70-79 | The linked queue gains the waiter at its end and stays well linked |
| WaitQueue.WaitQ.Remove | waiter.go:81-94 | Exactly that waiter leaves, wherever it is, and is unlinked |
| WaitQueue.WaitQ.CloseAll | waiter.go:96-102 | Every waiter is withdrawn with one token, in queue order |
| Resources.Resource.TryAcquire | resource.go:55-68 | The object's new value and answer are those of the pure budget |
| Resources.Resource.Acquire | resource.go:70-90 | Taken, refused or queued as the pure budget says; a queued waiter is new and last |
| Resources.Resource.Leave | resource.go:99-120 | A waiter still queued leaves, a granted one returns its units, a withdrawn one changes nothing; whoever that lets through is granted with one token |
| Resources.Resource.Release | resource.go:122-128 | Units return and waiters are granted as the pure budget says, woken in queue order with one token each |
| Resources.Resource.Grant | resource.go:130-137 | In place, grant takes the same prefix off the linked queue, in order |
| Resources.Resource.Close | resource.go:139-146 | Every waiter is withdrawn with one token, in order, and the budget turns later waiters away |
| KeyLockers.KeyLocker.Lock | keys.go:29-52 | A free key is taken; a held one is refused exactly if Reject, closed or an ended context, and otherwise the call is last in that key's queue; no other key changes |
| KeyLockers.KeyLocker.Leave | keys.go:64-79 | A queued waiter goes, a granted one passes the key on, a withdrawn one changes nothing |
| KeyLockers.KeyLocker.Unlock | keys.go:81-89 | The key passes to the first waiter or becomes free, its entry back in the pool; nil does nothing |
| KeyLockers.KeyLocker.HandOff | keys.go:91-102 | The first waiter is granted with one token and leaves the queue, or the key is free |
| KeyLockers.KeyLocker.Close | keys.go:104-113 | Every waiter of every key is withdrawn with one token, whatever the order keys are visited in, and no queue is left |
| Sems.Sem.Release | lab/model/sem.go:33-40 | The units return and the ids granted come back in grant order, as the pure semaphore says |
| Sems.Sem.Cancel | lab/model/sem.go:42-55 | The waiter leaves, and if it was the head those behind it are served, as the pure semaphore says |
| Sems.BudgetRunsLikeSem | lab/model/sem.go:16-75 | For every run of requests the runtime's budget answers as the reference does, below the overflow bound |
| Sems.RunsAgreeExactlyWhenSmall | lab/model/sem.go:16-75 | From an idle budget all runs are answered alike if and only if twice the capacity fits an int64 |
| Sems.TakingItTwiceOverflows | lab/model/sem.go:17-19 | Past that bound, taking the capacity and trying for it again is answered differently |
| Sems.TestsAgreeUnlessTheSumOverflows | lab/model/sem.go:17-19 | On an empty queue the two tests agree if and only if the sum does not overflow |
| BudgetRefinement.StepRefinesSem | lab/model/sem.go:16-75 | Every step of the machine takes an open budget to where the reference semaphore goes |
| BudgetRefinement.RequestsAreDecidedLikeSem | lab/model/sem.go:16-31 | A request of the machine gets through if and only if the reference grants it; the lock-free refusal only refuses what the reference would |
| BudgetRefinement.TakenOffIsGranted | lab/model/sem.go:66-75 | Whoever another call's step takes off a budget's queue is granted |
| ResourceRefinement.TryingAgrees | lab/model/sem.go:15-22 | A budget object's queue of waiters, renamed to ids, tries as the reference does |
| ResourceRefinement.AcquiringAgrees | lab/model/sem.go:24-31 | The same for acquire, queue included |
| ResourceRefinement.ReleasingAgrees | lab/model/sem.go:33-40 | The same for release, with the same waiters granted in the same order |
| ResourceRefinement.LeavingAgrees | lab/model/sem.go:42-55 | The same for a waiter that gives up |
| Keys.KeyLock.Give | lab/model/keys.go:34-44 | The reference locker hands the key on, or drops the entry and answers -1 |
| KeyRefinement.StepRefinesKeys | lab/model/keys.go:15-56 | Every step of the machine on the key locker is exactly one operation of the reference locker, and every other step leaves it alone |
| KeyRefinement.LockDecidesLikeKeys | lab/model/keys.go:21-32 | A call gets a key at once if and only if the reference gives it |
| KeyLockerRefinement.TakingAgrees | lab/model/keys.go:21-32 | A key is taken at once in both or in neither, and the lockers stay alike |
| KeyLockerRefinement.QueueingAgrees | lab/model/keys.go:21-32 | A queued waiter is last in both |
| KeyLockerRefinement.PassingAgrees | lab/model/keys.go:34-44 | The key passes to the same waiter in both |
| KeyLockerRefinement.LeavingAgrees | lab/model/keys.go:46-56 | The same waiter leaves both |
| Validate.ValidateSpecs | validate.go:11-29 | Accepts exactly non-empty lists of named, positive, distinct specs; otherwise reports the first offence |
| Validate.ResolveClaims | validate.go:41-65 | Accepts exactly distinct, known, fitting requirements, resolving each in order; otherwise the first offence |
| Validate.RetryTable | validate.go:67-89 | For every visiting order of the map: the lowest illegal outcome is reported, unsafe retry exactly for NonIdempotent with Uncertain, and the set holds exactly the outcomes wanted and safe |
| Validate.NewOperation | operation.go:30-68 | Accepts exactly when the reference predicts it, with the predicted error class, and builds claims in strictly ascending name order that fit their budgets |
| Validate.Validate | lab/model/validate.go:21-55 | Returns the predicted class for every visiting order of the map |
| Outcomes.TagIsTheFirstFailure | outcome.go:63-68 | An error is tagged if and only if the first failure of its chain is not nil, and then with that one |
| Outcomes.NilFailureHidesAVerdict | outcome.go:63-68 | A chain that holds a Transient failure behind a nil one is reported Permanent |
| Outcomes.FirstVerdictWins | outcome.go:70-99 | Failing twice is failing once, the first verdict normalized is what is reported, and only nil fails to nil |
| Outcomes.VerdictIsReported | outcome.go:101-114 | The error Do returns reports exactly the verdict that decided the retry |
| Outcomes.SetOf | outcome.go:116-129 | The bit set holds exactly the outcomes listed that are below 8 |
| Outcomes.RetrySafe | policy.go:38-45 | Exactly the outcomes safe to repeat under the effect |
| Attempts.RetriesAreSafe | attempt.go:8-28 | Under any turns: at most MaxAttempts attempts, none begun with an ended context, each repeated one after an outcome wanted and safe, a NonIdempotent only after Transient, and the last turn's outcome is what is returned and counted |
| Execs.Exec.Run | lab/model/retry.go:46-72 | The object runs attempts to the state the pure loop reaches |
| Execs.Exec.Release | lab/model/retry.go:74-79 | A held attempt ends and the loop goes on |
| Execs.Exec.Cancel | lab/model/retry.go:81-91 | The caller's context ends, cutting short an attempt that awaits it |
| RetryAgreement.RootRunsLikeExec | lab/model/retry.go:46-171 | For every script and every sequence of releases and cancels, the runtime's attempt loop and the reference loop end with the same result, attempts and retries |
| RetryAgreement.BuiltMatches | operation.go:54-63 | What NewOperation builds from a policy has the limits that agreement needs |
| Systems.System.Apply | lab/model/system.go:66-97 | A step is refused exactly when not applicable; one taken leaves its call exactly where the attempts, claims and key free before it put it, keeps the ledger, and resolves every Shutdown that is drained or expired |
| Systems.System.Start | lab/model/system.go:99-108 | When stopping the call is done at once with the stopping verdict; otherwise it is admitted and its fate follows from what is free |
| Systems.System.Finish | lab/model/system.go:178-197 | The call is done with that result and the ledger holds again; of the other calls only parked ones changed, each driven on by the cascade to where it rests or to its end, and one that ended has given everything back |
| Systems.System.Withdraw | lab/model/system.go:232-243 | A parked call is done with that result, its place and holdings given up |
| Systems.System.Shutdown | lab/model/system.go:245-269 | The first one leaves nobody parked, a later one changes no call; each accepted one is recorded |
| Systems.System.DrainShutdowns | lab/model/system.go:271-291 | Every Shutdown still waiting returns exactly if drained or expired, drained winning under the fixed rules |
| Systems.System.Replay | lab/model/system.go:54-64 | A scenario accepted to its last step leaves the ledger intact and no call added or lost |
| Systems.UnitsAreHeld | lab/model/system.go:178-197 | Between steps a semaphore's use is exactly what live calls hold, within its capacity, and calls idle or done hold nothing |
| Systems.HoldersMatch | lab/model/system.go:110-134 | A key is in the table if and only if a call has it, and that call is its holder |
| Systems.ParkedBehindHolder | lab/model/system.go:199-215 | If a call is parked, some call is holding: the simulator never deadlocks |
| Systems.CountersAreExact | lab/model/system.go:99-197 | The five counters equal the sums over calls of what each did, and drained means finished equals admitted |
| Systems.RejectNeverWaits | lab/model/system.go:118-144 | Under the fixed rules a Reject call never parks, and only Reject calls end overloaded |
| Minimizer.Minimize | lab/model/minimize.go:9-35 | The result is a subsequence, still failing and valid under both rule sets if the input was, and 1-minimal: dropping any step loses the failure |
| Designs.Col | lab/doe/design.go:80-88 | The mask computed is the product of the word's factors |
| Designs.OrthogonalOrIdentical | lab/doe/design.go:33-36 | Two words' sign columns are orthogonal, or identical exactly when their masks are |
| Designs.DesignsAreUniform | lab/doe/design.go:39-74 | For every design that can be built, each column is that of exactly 2^(K-Base) words, if and only if there are at most 32 base factors |
| Aliases.Fractional | lab/doe/design.go:48-68 | Accepts exactly lists of generators over base symbols with two or more of them, and builds those columns |
| Aliases.KeyIsByOrder | lab/doe/design.go:167-172 | The sort key orders words by size and then by value |
| Aliases.ClassHolds | lab/doe/design.go:124-136 | A class holds exactly the non-empty words below the loop's bound with that column, shortest first |
| Aliases.ClassSizes | lab/doe/design.go:124-136 | Each class has 2^(K-Base) words, the defining one less; none from 32 factors on |
| Aliases.Contrasts | lab/doe/design.go:153-165 | For every visiting order: all 2^Base - 1 classes but the defining one, ordered by shortest word, if and only if there are fewer than 32 factors or no base factor |
| Estimates.Sums | lab/doe/analysis.go:60-67 | Each cell's sum and count over its valid observations |
| Estimates.Estimate | lab/doe/analysis.go:55-104 | No fit if and only if some cell is empty; otherwise one estimate per class, the contrast of the cell means |
| Estimates.EffectsAreRecovered | lab/doe/analysis.go:87-104 | Fed a response that is any sum of word effects, a contrast is twice the sum of the effects of the words aliased with it: nothing else leaks in |
| Histograms.BucketOfItsValues | lab/doe/hist.go:28-50 | Every value in a bucket's bounds is indexed to that bucket and is below 2^41 |
| Histograms.ValueInItsBucket | lab/doe/hist.go:28-50 | Every value below 2^41 lies within the bounds of its bucket |
| Histograms.IndexIsMonotone | lab/doe/hist.go:28-39 | Indexing never reverses values and never leaves the table |
| Histograms.Hist.Record | lab/doe/hist.go:52-64 | The value, or 0 for a negative one, is added to those recorded, counts, sum and maximum agreeing |
| Histograms.Hist.Merge | lab/doe/hist.go:66-74 | The recorded values are those of both |
| Histograms.Hist.Quantile | lab/doe/hist.go:90-109 | Reports the bucket where the ranked value falls, NaN exactly when empty |
| Histograms.ScanFindsTheOrderStatistic | lab/doe/hist.go:96-107 | The bucket the scan stops in is the bucket of the k-th smallest recorded value |
| Histograms.QuantileIsClose | lab/doe/hist.go:9-12 | The report is within 1/128 of the k-th smallest value if and only if that value is below 2^41 or at most 64/127 of 127 * 2^34 + 2^41 - 1 |

## Left out

- Go's memory model, mutexes and channels: a critical section and an atomic instruction are one indivisible step each.
- The processor yield (`runtime.Gosched`) after a refusal, the pool's discarding of idle entries, and error texts.
- Counters are unbounded: their wrap-around at 2^64, and that of a histogram's sum, is not modelled.
- Handlers do not call Do or Shutdown themselves, and a panic in the key function is not modelled.
- One pool per locker: keys.go:26 shares one pool of entries among all runtimes of a process; the machine and the class give each locker its own.
- Map iteration order is a parameter (`order`) or an arbitrary choice, and the results are proved for every one.
- Sems.BudgetRunsLikeSem: stated below the overflow bound; Sems.RunsAgreeExactlyWhenSmall says that the bound is exact.
- BudgetRefinement.StepRefinesSem: speaks of open budgets; the reference semaphore has no closing.
- RetryAgreement.RootRunsLikeExec: covers the fixed rules, with time standing still while an attempt holds and scripts that sleep for no negative time; the older rules have no runtime beside them here.
- Systems.System.Apply: which calls race in an ambiguous step (`active`, `woken`) is computed but not characterised; after an ambiguous reply the simulator is unusable, as in the source.
- Systems.System.Replay: does not say that every refused scenario is ambiguous or misapplied at the step reported.
- Minimizer.Minimize: validity of a scenario is any function of its rules and steps, since replay works on an object.
- Histograms.Hist.Quantile: works in exact arithmetic; lab/doe/hist.go:96 rounds q times n in float64 and may land one rank away.
- Estimates.Estimate: works in exact arithmetic; standard errors, t, p and Lenth's margins are left out.
- The laboratory's harness, generators, implementations under comparison, view comparison, reports and the frozen v0.2.
